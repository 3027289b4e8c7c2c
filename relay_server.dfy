/**
 * The socket.io relay of server/server.js: a map from room id to three role
 * slots (camera, viewer, homePage), the per-connection `currentRoom` and
 * `userRole`, and the event handlers that fill and clear the slots and
 * forward negotiation messages.
 *
 * socket.io itself is modelled by what the handlers rely on: the set of
 * sockets in each socket.io room (every socket is in the room named by its
 * own id, `join` adds it to another, and a closing socket leaves all of them
 * before its `disconnect` handler runs), and an outbox recording each
 * emission with the set of sockets it reaches.
 */
module Relay {
  import opened Wrappers

  type SocketId = string
  type RoomId = string

  /** An opaque negotiation payload (session description or ICE candidate). */
  type Payload = string

  /** The roles a socket can register under. */
  datatype Role = Camera | Viewer | HomePage

  function RoleName(r: Role): string
  {
    match r
    case Camera => "camera"
    case Viewer => "viewer"
    case HomePage => "homePage"
  }

  /** The role a `register` string names, if any; the handlers compare with `===`. */
  function ParseRole(name: string): (r: Option<Role>)
    ensures r.Some? ==> RoleName(r.value) == name
    ensures forall role :: name == RoleName(role) ==> r == Some(role)
  {
    if name == "camera" then Some(Camera)
    else if name == "viewer" then Some(Viewer)
    else if name == "homePage" then Some(HomePage)
    else None
  }

  /** `rooms.get(roomId)`: the socket holding each role, or none. */
  datatype Room = Room(camera: Option<SocketId>, viewer: Option<SocketId>, homePage: Option<SocketId>)

  const EmptyRoom := Room(None, None, None)

  /** The per-connection variables of the `connection` closure. */
  datatype Conn = Conn(currentRoom: Option<RoomId>, userRole: Option<string>)

  /** The events the relay emits, with their payloads. */
  datatype Event =
    | RouteToViewer(roomId: RoomId)
    | PeerJoined(peerId: SocketId, role: string)
    | OfferMsg(offer: Payload, from: SocketId)
    | AnswerMsg(answer: Payload, from: SocketId)
    | IceCandidateMsg(candidate: Payload, from: SocketId)
    | PeerReconnectRequested(peerId: SocketId, role: string)
    | PeerDisconnected(role: string)

  /** One emission: the event and the sockets it reaches. */
  datatype Emission = Emission(to: set<SocketId>, event: Event)

  /** A JavaScript value that is truthy: present and not the empty string. */
  predicate Truthy(s: Option<string>)
  {
    s.Some? && s.value != ""
  }

  /** The slot room `roomId` starts from: its current slots, or all empty if it does not exist. */
  function RoomOrEmpty(rooms: map<RoomId, Room>, roomId: RoomId): Room
  {
    if roomId in rooms then rooms[roomId] else EmptyRoom
  }

  /** The slots after `register` wrote `id` into the slot of `role` (an unknown role writes nothing). */
  function Claim(room: Room, role: Option<Role>, id: SocketId): (r: Room)
    ensures role == Some(Camera) ==> r.camera == Some(id)
    ensures role == Some(Viewer) ==> r.viewer == Some(id)
    ensures role == Some(HomePage) ==> r.homePage == Some(id)
    ensures role != Some(Camera) ==> r.camera == room.camera
    ensures role != Some(Viewer) ==> r.viewer == room.viewer
    ensures role != Some(HomePage) ==> r.homePage == room.homePage
  {
    match role
    case Some(Camera) => room.(camera := Some(id))
    case Some(Viewer) => room.(viewer := Some(id))
    case Some(HomePage) => room.(homePage := Some(id))
    case None => room
  }

  /** Whether all three slots of a room are empty. */
  predicate Vacant(room: Room)
  {
    room.camera.None? && room.viewer.None? && room.homePage.None?
  }

  class RelayServer {
    /** `rooms`: room id to role slots. */
    var rooms: map<RoomId, Room>
    /** The connected sockets and their `currentRoom` / `userRole`. */
    var conns: map<SocketId, Conn>
    /** socket.io room membership: room name to the sockets in it. */
    var members: map<string, set<SocketId>>
    /** Every emission so far, in order. */
    var outbox: seq<Emission>

    /**
     * socket.io's membership discipline: every connected socket is in its
     * own room and in the room it registered in, and rooms hold only
     * connected sockets.
     */
    ghost predicate Valid()
      reads this`conns, this`members
    {
      Consistent(conns, members)
    }

    /** `io.to(name)`: the sockets in the socket.io room `name`. */
    function Audience(name: string): set<SocketId>
      reads this`members
    {
      InRoom(members, name)
    }

    /** `socket.to(name)`: the sockets in room `name` other than `self`. */
    function Others(name: string, self: SocketId): set<SocketId>
      reads this`members
    {
      Audience(name) - {self}
    }

    /** Every emission from `from` on reaches only connected sockets. */
    ghost predicate ReachesConnected(from: nat)
      reads this
    {
      forall k :: from <= k < |outbox| ==> outbox[k].to <= conns.Keys
    }

    constructor ()
      ensures Valid()
      ensures rooms == map[] && conns == map[] && members == map[] && outbox == []
    {
      rooms, conns, members, outbox := map[], map[], map[], [];
    }

    /** A new connection: socket.io puts it in its own room; `currentRoom` and `userRole` start null. */
    method Connect(self: SocketId)
      requires Valid() && self !in conns
      modifies this
      ensures Valid()
      ensures conns == old(conns)[self := Conn(None, None)]
      ensures members == old(members)[self := old(Audience(self)) + {self}]
      ensures rooms == old(rooms) && outbox == old(outbox)
    {
      members := members[self := Audience(self) + {self}];
      conns := conns[self := Conn(None, None)];
    }

    /**
     * `register`: records the room and role of the socket, joins the room,
     * creates the room's slots if absent and writes the socket into the slot
     * of its role, replacing any former holder. A registering camera tells a
     * waiting homePage to route to the viewer; a registering homePage is told
     * so itself when a camera is present. A camera meeting a viewer, or a
     * viewer meeting a camera, exchanges peer-joined notices with the room.
     */
    method Register(self: SocketId, roomId: RoomId, role: string)
      requires Valid() && self in conns
      modifies this
      ensures Valid()
      ensures conns == old(conns)[self := Conn(Some(roomId), Some(role))]
      ensures members == old(members)[roomId := old(Audience(roomId)) + {self}]
      ensures var before := RoomOrEmpty(old(rooms), roomId);
        rooms == old(rooms)[roomId := Claim(before, ParseRole(role), self)]
      ensures outbox == old(outbox) + RegistrationNotices(self, roomId, role, RoomOrEmpty(old(rooms), roomId))
      ensures ReachesConnected(|old(outbox)|)
    {
      conns := conns[self := Conn(Some(roomId), Some(role))];
      members := members[roomId := Audience(roomId) + {self}];
      var before := RoomOrEmpty(rooms, roomId);
      var room := Claim(before, ParseRole(role), self);
      rooms := rooms[roomId := room];
      NotifyRegistration(self, roomId, role, before);
    }

    /**
     * The emissions of `register` by `self` as `role` in a room whose slots
     * were `before`: a camera sends route-to-viewer to a waiting homePage,
     * a homePage receives it itself when a camera is present, and a camera
     * meeting a viewer (or a viewer meeting a camera) announces itself to
     * the rest of the room and is told the counterpart's id.
     */
    function RegistrationNotices(self: SocketId, roomId: RoomId, role: string, before: Room): (r: seq<Emission>)
      reads this`members
      ensures role == "camera" && before.viewer.Some? ==>
        Emission({self}, PeerJoined(before.viewer.value, "viewer")) in r
      ensures role == "viewer" && before.camera.Some? ==>
        Emission({self}, PeerJoined(before.camera.value, "camera")) in r
    {
      match ParseRole(role)
      case Some(Camera) =>
        (if before.homePage.Some? then [Emission(Audience(before.homePage.value), RouteToViewer(roomId))] else [])
        + (if before.viewer.Some?
           then [Emission(Others(roomId, self), PeerJoined(self, "camera")),
                 Emission({self}, PeerJoined(before.viewer.value, "viewer"))]
           else [])
      case Some(Viewer) =>
        if before.camera.Some?
        then [Emission(Others(roomId, self), PeerJoined(self, "viewer")),
              Emission({self}, PeerJoined(before.camera.value, "camera"))]
        else []
      case Some(HomePage) =>
        if before.camera.Some? then [Emission({self}, RouteToViewer(roomId))] else []
      case None => []
    }

    /**
     * Which notices a registration sends: route-to-viewer exactly when a
     * camera meets a waiting homePage or a homePage meets a camera, and the
     * registrant's own peer-joined announcement exactly when a camera meets
     * a viewer or a viewer a camera. Route-to-viewer goes to the waiting
     * homePage's own socket.io room, or back to a registering homePage; the
     * announcement goes to the rest of the room and never back to the
     * registrant; the other peer-joined notice goes to the registrant alone.
     * Peer-joined notices only ever name a camera or a viewer, so a
     * homePage is never announced.
     */
    lemma RegistrationNoticesCases(self: SocketId, roomId: RoomId, role: string, before: Room)
      ensures var r := RegistrationNotices(self, roomId, role, before);
        (exists k :: 0 <= k < |r| && r[k].event == RouteToViewer(roomId)) <==>
          (role == "camera" && before.homePage.Some?) || (role == "homePage" && before.camera.Some?)
      ensures var r := RegistrationNotices(self, roomId, role, before);
        (exists k :: 0 <= k < |r| && r[k].event == PeerJoined(self, role)) <==>
          (role == "camera" && before.viewer.Some?) || (role == "viewer" && before.camera.Some?)
      ensures var r := RegistrationNotices(self, roomId, role, before);
        forall k :: 0 <= k < |r| && r[k].event == PeerJoined(self, role) ==> self !in r[k].to
      ensures var r := RegistrationNotices(self, roomId, role, before);
        forall k :: 0 <= k < |r| && r[k].event.RouteToViewer? ==>
          && r[k].event == RouteToViewer(roomId)
          && (|| (role == "camera" && before.homePage.Some? && r[k].to == Audience(before.homePage.value))
              || (role == "homePage" && r[k].to == {self}))
      ensures var r := RegistrationNotices(self, roomId, role, before);
        forall k :: 0 <= k < |r| && r[k].event.PeerJoined? ==>
          && ((role == "camera" && before.viewer.Some?) || (role == "viewer" && before.camera.Some?))
          && (r[k].event.role == "camera" || r[k].event.role == "viewer")
          && (r[k] == Emission(Others(roomId, self), PeerJoined(self, role)) || r[k].to == {self})
      ensures var r := RegistrationNotices(self, roomId, role, before);
        forall k :: 0 <= k < |r| ==> r[k].event.RouteToViewer? || r[k].event.PeerJoined?
    {
      var r := RegistrationNotices(self, roomId, role, before);
      match ParseRole(role) {
        case Some(Camera) =>
          assert role == "camera";
          var h := if before.homePage.Some? then [Emission(Audience(before.homePage.value), RouteToViewer(roomId))] else [];
          var p := if before.viewer.Some?
            then [Emission(Others(roomId, self), PeerJoined(self, "camera")),
                  Emission({self}, PeerJoined(before.viewer.value, "viewer"))]
            else [];
          assert r == h + p;
          if before.homePage.Some? {
            assert r[0].event == RouteToViewer(roomId);
          }
          if before.viewer.Some? {
            assert r[|h|].event == PeerJoined(self, role);
          }
        case Some(Viewer) =>
          assert role == "viewer" && role != "camera";
          if before.camera.Some? {
            assert r[0].event == PeerJoined(self, role);
            assert r[1].event.role == "camera";
          }
        case Some(HomePage) =>
          assert role == "homePage";
          if before.camera.Some? {
            assert r[0].event == RouteToViewer(roomId);
          }
        case None =>
          assert role != "camera" && role != "viewer" && role != "homePage";
      }
    }

    /** The emissions of `register`, once the slots are updated. */
    method NotifyRegistration(self: SocketId, roomId: RoomId, role: string, before: Room)
      requires Valid() && self in conns
      modifies this`outbox
      ensures outbox == old(outbox) + RegistrationNotices(self, roomId, role, before)
      ensures ReachesConnected(|old(outbox)|)
    {
      var room := Claim(before, ParseRole(role), self);
      if role == "camera" && room.homePage.Some? {
        outbox := outbox + [Emission(Audience(room.homePage.value), RouteToViewer(roomId))];
      } else if role == "homePage" && room.camera.Some? {
        outbox := outbox + [Emission({self}, RouteToViewer(roomId))];
      }
      if role == "camera" && room.viewer.Some? {
        outbox := outbox + [Emission(Others(roomId, self), PeerJoined(self, role)),
                            Emission({self}, PeerJoined(room.viewer.value, "viewer"))];
      } else if role == "viewer" && room.camera.Some? {
        outbox := outbox + [Emission(Others(roomId, self), PeerJoined(self, role)),
                            Emission({self}, PeerJoined(room.camera.value, "camera"))];
      }
    }

    /**
     * `transition-to-viewer`: a homePage socket registered in `roomId` takes
     * the viewer slot, leaves the homePage slot and becomes a viewer; with a
     * camera present the two exchange peer-joined notices. Any other call
     * changes nothing.
     */
    method TransitionToViewer(self: SocketId, roomId: RoomId)
      requires Valid() && self in conns
      modifies this
      ensures Valid()
      ensures members == old(members)
      ensures var c := old(conns)[self];
        if c.currentRoom == Some(roomId) && c.userRole == Some("homePage") && roomId in old(rooms) then
          var room := old(rooms)[roomId];
          && conns == old(conns)[self := c.(userRole := Some("viewer"))]
          && rooms == old(rooms)[roomId := room.(homePage := None, viewer := Some(self))]
          && outbox == old(outbox)
               + (if room.camera.Some?
                  then [Emission({self}, PeerJoined(room.camera.value, "camera")),
                        Emission(Audience(room.camera.value), PeerJoined(self, "viewer"))]
                  else [])
        else
          conns == old(conns) && rooms == old(rooms) && outbox == old(outbox)
      ensures ReachesConnected(|old(outbox)|)
    {
      var c := conns[self];
      if c.currentRoom == Some(roomId) && c.userRole == Some("homePage") {
        if roomId in rooms {
          var room := rooms[roomId];
          room := room.(homePage := None, viewer := Some(self));
          rooms := rooms[roomId := room];
          conns := conns[self := c.(userRole := Some("viewer"))];
          if room.camera.Some? {
            outbox := outbox + [Emission({self}, PeerJoined(room.camera.value, "camera")),
                                Emission(Audience(room.camera.value), PeerJoined(self, "viewer"))];
          }
        }
      }
    }

    /** `offer`: forwarded to every other socket in the room, tagged with the sender. */
    method Offer(self: SocketId, roomId: RoomId, offer: Payload)
      requires Valid() && self in conns
      modifies this`outbox
      ensures outbox == old(outbox) + [Emission(Others(roomId, self), OfferMsg(offer, self))]
      ensures self !in outbox[|outbox| - 1].to
      ensures ReachesConnected(|old(outbox)|)
    {
      outbox := outbox + [Emission(Others(roomId, self), OfferMsg(offer, self))];
    }

    /** `answer`: to the socket.io room named by `targetId` when one is given, otherwise to every other socket in the sender's room. */
    method Answer(self: SocketId, roomId: RoomId, answer: Payload, targetId: Option<SocketId>)
      requires Valid() && self in conns
      modifies this`outbox
      ensures outbox == old(outbox) + [Emission(Target(self, roomId, targetId), AnswerMsg(answer, self))]
      ensures ReachesConnected(|old(outbox)|)
    {
      outbox := outbox + [Emission(Target(self, roomId, targetId), AnswerMsg(answer, self))];
    }

    /** `ice-candidate`: routed like an answer. */
    method IceCandidate(self: SocketId, roomId: RoomId, candidate: Payload, targetId: Option<SocketId>)
      requires Valid() && self in conns
      modifies this`outbox
      ensures outbox == old(outbox) + [Emission(Target(self, roomId, targetId), IceCandidateMsg(candidate, self))]
      ensures ReachesConnected(|old(outbox)|)
    {
      outbox := outbox + [Emission(Target(self, roomId, targetId), IceCandidateMsg(candidate, self))];
    }

    /** The sockets a targeted relay reaches: the target's own room, or else the rest of the room. */
    function Target(self: SocketId, roomId: RoomId, targetId: Option<SocketId>): (r: set<SocketId>)
      requires Valid()
      reads this`conns, this`members
      ensures r <= conns.Keys
      ensures Truthy(targetId) && targetId.value in conns ==> targetId.value in r
      ensures !Truthy(targetId) ==> self !in r
      ensures !Truthy(targetId) ==>
        forall s :: s in conns && s != self && conns[s].currentRoom == Some(roomId) ==> s in r
    {
      if Truthy(targetId) then Audience(targetId.value) else Others(roomId, self)
    }

    /**
     * `reconnect-request`: for an existing room, a camera's request goes to
     * the viewer and a viewer's to the camera, when that slot is held;
     * otherwise nothing happens.
     */
    method ReconnectRequest(self: SocketId, roomId: RoomId, role: string)
      requires Valid() && self in conns
      modifies this`outbox
      ensures roomId !in rooms ==> outbox == old(outbox)
      ensures roomId in rooms ==>
        var room := rooms[roomId];
        outbox == old(outbox)
          + (if role == "camera" && room.viewer.Some?
             then [Emission(Audience(room.viewer.value), PeerReconnectRequested(self, role))]
             else if role == "viewer" && room.camera.Some?
             then [Emission(Audience(room.camera.value), PeerReconnectRequested(self, role))]
             else [])
      ensures ReachesConnected(|old(outbox)|)
    {
      if roomId !in rooms {
        return;
      }
      var room := rooms[roomId];
      if role == "camera" && room.viewer.Some? {
        outbox := outbox + [Emission(Audience(room.viewer.value), PeerReconnectRequested(self, role))];
      } else if role == "viewer" && room.camera.Some? {
        outbox := outbox + [Emission(Audience(room.camera.value), PeerReconnectRequested(self, role))];
      }
    }

    /**
     * `disconnect`: the slot of the socket's role in its current room is
     * cleared only if it still holds this socket; a vacated camera or viewer
     * slot is reported to the other of the two, when present; the room is
     * deleted exactly when all three slots are then empty.
     */
    method Disconnect(self: SocketId)
      requires Valid() && self in conns
      modifies this
      ensures Valid()
      ensures conns == old(conns) - {self}
      ensures members == Depart(old(members), self)
      ensures var c := old(conns)[self];
        if Truthy(c.currentRoom) && c.currentRoom.value in old(rooms) then
          var roomId := c.currentRoom.value;
          rooms == Vacated(old(rooms), roomId, self, c.userRole)
          && outbox == old(outbox) + DepartureNotice(old(rooms)[roomId], self, c.userRole, members)
        else
          rooms == old(rooms) && outbox == old(outbox)
      ensures ReachesConnected(|old(outbox)|)
    {
      var c := conns[self];
      DepartKeepsConsistent(conns, members, self);
      members := Depart(members, self);
      conns := conns - {self};
      if Truthy(c.currentRoom) && c.currentRoom.value in rooms {
        ClearSlot(self, c.currentRoom.value, c.userRole);
      }
    }

    /** The `disconnect` handler's part: clears the slot, reports the departure, deletes an empty room. */
    method ClearSlot(self: SocketId, roomId: RoomId, role: Option<string>)
      requires roomId in rooms
      requires forall name, s :: name in members && s in members[name] ==> s in conns
      modifies this`rooms, this`outbox
      ensures rooms == Vacated(old(rooms), roomId, self, role)
      ensures outbox == old(outbox) + DepartureNotice(old(rooms)[roomId], self, role, members)
      ensures ReachesConnected(|old(outbox)|)
    {
      var room := rooms[roomId];
      if role == Some("camera") && room.camera == Some(self) {
        room := room.(camera := None);
        if room.viewer.Some? {
          outbox := outbox + [Emission(Audience(room.viewer.value), PeerDisconnected("camera"))];
        }
      } else if role == Some("viewer") && room.viewer == Some(self) {
        room := room.(viewer := None);
        if room.camera.Some? {
          outbox := outbox + [Emission(Audience(room.camera.value), PeerDisconnected("viewer"))];
        }
      } else if role == Some("homePage") && room.homePage == Some(self) {
        room := room.(homePage := None);
      }
      if Vacant(room) {
        rooms := rooms - {roomId};
      } else {
        rooms := rooms[roomId := room];
      }
    }
  }

  /**
   * The slots after `self`, registered as `role`, left room `roomId`: its
   * role's slot is cleared only if it still holds `self`, and a room left
   * with all three slots empty is deleted.
   */
  function Vacated(rooms: map<RoomId, Room>, roomId: RoomId, self: SocketId, role: Option<string>)
    : (r: map<RoomId, Room>)
    requires roomId in rooms
    ensures r.Keys <= rooms.Keys
    ensures forall id :: id in rooms && id != roomId ==> id in r && r[id] == rooms[id]
    ensures roomId !in r <==> Vacant(Leave(rooms[roomId], self, role))
    ensures roomId in r ==> r[roomId] == Leave(rooms[roomId], self, role)
  {
    var after := Leave(rooms[roomId], self, role);
    if Vacant(after) then rooms - {roomId} else rooms[roomId := after]
  }

  /**
   * The `peer-disconnected` notice for `self` leaving a room with slots
   * `room` as `role`, addressed under socket.io membership `m`: a camera that
   * still held its slot is reported to the viewer, a viewer to the camera,
   * when present; a homePage is reported to nobody.
   */
  function DepartureNotice(room: Room, self: SocketId, role: Option<string>, m: map<string, set<SocketId>>)
    : (r: seq<Emission>)
    ensures |r| <= 1
    ensures r != [] <==>
      || (role == Some("camera") && room.camera == Some(self) && room.viewer.Some?)
      || (role == Some("viewer") && room.viewer == Some(self) && room.camera.Some?)
    ensures r != [] ==> r[0].event == PeerDisconnected(role.value)
    ensures r != [] ==> r[0].to == InRoom(m, if role == Some("camera") then room.viewer.value else room.camera.value)
  {
    if role == Some("camera") && room.camera == Some(self) && room.viewer.Some? then
      [Emission(InRoom(m, room.viewer.value), PeerDisconnected("camera"))]
    else if role == Some("viewer") && room.viewer == Some(self) && room.camera.Some? then
      [Emission(InRoom(m, room.camera.value), PeerDisconnected("viewer"))]
    else []
  }

  /**
   * socket.io's membership discipline: every connected socket is in its own
   * room and in the room it registered in, and rooms hold only connected
   * sockets.
   */
  ghost predicate Consistent(conns: map<SocketId, Conn>, m: map<string, set<SocketId>>)
  {
    && (forall s :: s in conns ==> s in InRoom(m, s))
    && (forall s :: s in conns && conns[s].currentRoom.Some? ==> s in InRoom(m, conns[s].currentRoom.value))
    && (forall name, s :: name in m && s in m[name] ==> s in conns)
  }

  /** socket.io's part of a disconnect: the socket leaves every room, and emptied rooms disappear. */
  function Depart(m: map<string, set<SocketId>>, self: SocketId): (r: map<string, set<SocketId>>)
    ensures forall name :: name in r ==> name in m && r[name] == m[name] - {self} && self !in r[name]
    ensures forall name :: name in r <==> name in m && m[name] - {self} != {}
  {
    map name | name in m && m[name] - {self} != {} :: m[name] - {self}
  }

  /** A departure keeps the membership discipline for the sockets that remain. */
  lemma DepartKeepsConsistent(conns: map<SocketId, Conn>, m: map<string, set<SocketId>>, self: SocketId)
    requires Consistent(conns, m)
    ensures Consistent(conns - {self}, Depart(m, self))
  {
    var c, r := conns - {self}, Depart(m, self);
    forall s | s in c
      ensures s in InRoom(r, s)
    {
      assert s in m[s] - {self};
    }
    forall s | s in c && c[s].currentRoom.Some?
      ensures s in InRoom(r, c[s].currentRoom.value)
    {
      assert s in m[c[s].currentRoom.value] - {self};
    }
  }

  /** The sockets in socket.io room `name` under membership `m`. */
  function InRoom(m: map<string, set<SocketId>>, name: string): set<SocketId>
  {
    if name in m then m[name] else {}
  }

  /** A room's slots once `self`, registered as `role`, has gone: only a slot still holding `self` is cleared. */
  function Leave(room: Room, self: SocketId, role: Option<string>): (r: Room)
    ensures r.camera == (if role == Some("camera") && room.camera == Some(self) then None else room.camera)
    ensures r.viewer == (if role == Some("viewer") && room.viewer == Some(self) then None else room.viewer)
    ensures r.homePage == (if role == Some("homePage") && room.homePage == Some(self) then None else room.homePage)
    ensures r != room <==> Holds(room, self, role)
  {
    if role == Some("camera") && room.camera == Some(self) then room.(camera := None)
    else if role == Some("viewer") && room.viewer == Some(self) then room.(viewer := None)
    else if role == Some("homePage") && room.homePage == Some(self) then room.(homePage := None)
    else room
  }

  /** Whether `self`, registered as `role`, still holds that role's slot in `room`. */
  predicate Holds(room: Room, self: SocketId, role: Option<string>)
  {
    || (role == Some("camera") && room.camera == Some(self))
    || (role == Some("viewer") && room.viewer == Some(self))
    || (role == Some("homePage") && room.homePage == Some(self))
  }

  /**
   * A socket that no longer holds its slot (another socket registered the
   * same role after it) leaves an occupied room exactly as it was and
   * triggers no notice.
   */
  lemma FormerHolderLeavesNoTrace(rooms: map<RoomId, Room>, roomId: RoomId, self: SocketId, role: Option<string>,
                                  m: map<string, set<SocketId>>)
    requires roomId in rooms && !Holds(rooms[roomId], self, role) && !Vacant(rooms[roomId])
    ensures Vacated(rooms, roomId, self, role) == rooms
    ensures DepartureNotice(rooms[roomId], self, role, m) == []
  {
    assert Leave(rooms[roomId], self, role) == rooms[roomId];
  }

  /**
   * Registering in a room that did not exist and then leaving it again
   * (under any of the three roles) restores the room map: the room is
   * created on registration and deleted on departure.
   */
  lemma RegisterThenLeave(rooms: map<RoomId, Room>, roomId: RoomId, self: SocketId, role: Role)
    requires roomId !in rooms
    ensures var joined := rooms[roomId := Claim(EmptyRoom, Some(role), self)];
      Vacated(joined, roomId, self, Some(RoleName(role))) == rooms
  {
    var joined := rooms[roomId := Claim(EmptyRoom, Some(role), self)];
    assert Vacant(Leave(joined[roomId], self, Some(RoleName(role))));
    assert joined - {roomId} == rooms;
  }

  /** Camera first (no notice), then viewer: each receives a peer-joined notice naming the other. */
  method CameraThenViewerScenario()
  {
    var server := new RelayServer();
    server.Connect("cam");
    server.Connect("view");
    server.Register("cam", "r1", "camera");
    assert ParseRole("camera") == Some(Camera);
    assert server.outbox == [];
    assert server.rooms["r1"] == Room(Some("cam"), None, None);
    assert server.members["r1"] == {"cam"};
    server.Register("view", "r1", "viewer");
    assert ParseRole("viewer") == Some(Viewer);
    assert server.members["r1"] == {"cam", "view"};
    assert server.Others("r1", "view") == {"cam"};
    assert server.outbox == [Emission({"cam"}, PeerJoined("view", "viewer")),
                             Emission({"view"}, PeerJoined("cam", "camera"))];
    assert server.rooms["r1"] == Room(Some("cam"), Some("view"), None);
  }

  /** Registering the same role twice leaves exactly the latest holder; the former holder's disconnect changes nothing. */
  method ReRegistrationScenario()
  {
    var server := new RelayServer();
    server.Connect("a");
    server.Connect("b");
    assert ParseRole("camera") == Some(Camera);
    server.Register("a", "r1", "camera");
    server.Register("b", "r1", "camera");
    assert server.rooms["r1"] == Room(Some("b"), None, None);
    assert server.conns["a"] == Conn(Some("r1"), Some("camera"));
    ghost var before := server.outbox;
    server.Disconnect("a");
    assert Leave(Room(Some("b"), None, None), "a", Some("camera")) == Room(Some("b"), None, None);
    assert server.rooms["r1"] == Room(Some("b"), None, None);
    assert server.outbox == before;
  }
}
