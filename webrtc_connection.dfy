/**
 * The negotiation bookkeeping of `WebRTCConnection` in lib/webrtc.ts: the
 * three per-type poll cursors into the signalling store, the connection
 * state and its transitions, the choice of which log a polling tick reads,
 * and the guards on the data channel.
 *
 * The browser's RTCPeerConnection and RTCDataChannel are opaque: the model
 * keeps whether a peer connection exists and the data channel's ready state,
 * and records what the client asks of them (and of the signalling server
 * and its own callbacks) as an ordered list of effects.
 */
module Negotiation {
  import opened Wrappers
  import opened Signaling
  import FileTransfer

  /** The client's `connectionState`. */
  datatype ConnectionState = New | Connecting | Connected | Disconnected | Failed

  /** An RTCDataChannel's `readyState`. */
  datatype ReadyState = ChannelConnecting | Open | Closing | Closed

  /** How received media is shown. */
  datatype MediaKind = Image | Video

  /** A `media` message on the data channel, as `sendMedia` builds it. */
  datatype ChannelMessage = ChannelMessage(msgType: string, mediaType: string, id: string, data: seq<FileTransfer.Byte>)

  /** What the media callback receives. */
  datatype Media = Media(kind: MediaKind, data: seq<FileTransfer.Byte>, id: string)

  /** What the client asks of the browser, the signalling server and its own callbacks. */
  datatype Effect =
    | PostSignal(kind: MsgType)                    // POST of the local offer to the signalling route
    | ApplyRemote(kind: MsgType, payload: Payload) // handleRemoteOffer / Answer / ICECandidate on the peer connection
    | ChannelSend(message: ChannelMessage)         // dataChannel.send
    | MediaReceived(media: Media)                  // onMediaReceived callback
    | ConnectedCallback                            // onConnected callback
    | DisconnectedCallback                         // onDisconnected callback
    | CloseChannel                                 // dataChannel.close()
    | ClosePeer                                    // peerConnection.close()
    | DeleteSession(sessionId: string)             // DELETE of the session on the signalling route

  /** The media kind of a MIME type: an image exactly when the type starts with "image/". */
  function KindOf(mediaType: string): (k: MediaKind)
    ensures k == Image <==> |mediaType| >= 6 && mediaType[..6] == "image/"
  {
    if "image/" <= mediaType then Image else Video
  }

  /** Every "image/..." type is shown as an image, every "video/..." type as a video. */
  lemma KindOfSubtype(subtype: string)
    ensures KindOf("image/" + subtype) == Image
    ensures KindOf("video/" + subtype) == Video
  {
    assert ("image/" + subtype)[..6] == "image/";
    assert ("video/" + subtype)[..6] != "image/" by {
      assert ("video/" + subtype)[0] == 'v';
    }
  }

  /** The message `sendMedia` puts on the channel for a blob (base64 encoding is left out). */
  function MediaMessage(mediaType: string, id: string, data: seq<FileTransfer.Byte>): ChannelMessage
  {
    ChannelMessage("media", mediaType, id, data)
  }

  /** `handleDataChannelMessage`: a `media` message is delivered with its kind, bytes and id; anything else is dropped. */
  function ReceivedMedia(m: ChannelMessage): (r: Option<Media>)
    ensures r.Some? <==> m.msgType == "media"
    ensures r.Some? ==> r.value.data == m.data && r.value.id == m.id
    ensures r.Some? ==> (r.value.kind == Image <==> "image/" <= m.mediaType)
  {
    if m.msgType == "media" then Some(Media(KindOf(m.mediaType), m.data, m.id)) else None
  }

  /** What one side sends is what the other side's media callback receives. */
  lemma MediaRoundTrip(mediaType: string, id: string, data: seq<FileTransfer.Byte>)
    ensures ReceivedMedia(MediaMessage(mediaType, id, data)) == Some(Media(KindOf(mediaType), data, id))
  {
  }

  /** The logs a polling tick reads, in order: answers for the initiator, offers otherwise, then candidates. */
  function PolledTypes(isInitiator: bool): (ts: seq<MsgType>)
    ensures |ts| == 2 && ts[1] == Candidate
    ensures Offer in ts <==> !isInitiator
    ensures Answer in ts <==> isInitiator
  {
    [if isInitiator then Answer else Offer, Candidate]
  }

  /** The messages a poll hands to its handler: `data.messages`, absent in an error reply. */
  function Delivered(r: Response): seq<Payload>
  {
    if r.Polled? then r.messages else []
  }

  /** The cursor after a poll from cursor `c`: the returned `lastIndex`, but only when messages came back. */
  function NextCursor(r: Response, c: int): (n: int)
    ensures Delivered(r) == [] ==> n == c
    ensures n != c ==> r.Polled? && r.lastIndex == Some(n)
    ensures r.Polled? && r.messages != [] && r.lastIndex.Some? ==> n == r.lastIndex.value
  {
    if r.Polled? && r.messages != [] then r.lastIndex.GetOr(c) else c
  }

  /** The poll the client makes for log `t` of session `id` from cursor `c`. */
  function Poll(sessions: Sessions, id: string, t: MsgType, c: int): Response
  {
    Get(sessions, Some(id), Some(TypeName(t)), Some(c))
  }

  /** Whatever the cursor, a poll moves it by exactly the number of messages it hands over. */
  lemma CursorAdvancesByDelivered(sessions: Sessions, id: string, t: MsgType, c: int)
    ensures NextCursor(Poll(sessions, id, t, c), c) == c + |Delivered(Poll(sessions, id, t, c))|
  {
    assert ParseType(TypeName(t)) == Some(t);
  }

  /**
   * A poll from a cursor within the log hands over the rest of the log and
   * moves the cursor to its end; for an unknown session, or a cursor beyond
   * the log, nothing is handed over and the cursor stays.
   */
  lemma PollCatchesUp(sessions: Sessions, id: string, t: MsgType, c: int)
    requires id != "" && 0 <= c
    ensures var r := Poll(sessions, id, t, c);
      if id in sessions && c <= |Log(sessions[id], t)| then
        Delivered(r) == Log(sessions[id], t)[c..] && NextCursor(r, c) == |Log(sessions[id], t)|
      else
        Delivered(r) == [] && NextCursor(r, c) == c
  {
    assert ParseType(TypeName(t)) == Some(t);
  }

  /**
   * Two successive polls, with appends to the store in between, hand over
   * every entry of the log from the first cursor on exactly once and in
   * append order, and leave the cursor at the end of the log. This holds
   * also when the session did not exist yet at the first poll: the cursor
   * then stays at 0 until it does.
   */
  lemma {:induction false} PollsDeliverEachEntryOnce(before: Sessions, after: Sessions, id: string, t: MsgType, c: int)
    requires AppendOnly(before, after)
    requires id != "" && 0 <= c <= |Log(LogsOf(before, id), t)|
    ensures var r1 := Poll(before, id, t, c);
      var c1 := NextCursor(r1, c);
      var r2 := Poll(after, id, t, c1);
      && Delivered(r1) + Delivered(r2) == Log(LogsOf(after, id), t)[c..]
      && NextCursor(r2, c1) == |Log(LogsOf(after, id), t)|
  {
    if id in before {
      PollsResumeKnownSession(before, after, id, t, c);
    } else {
      PollCatchesUp(before, id, t, c);
      PollCatchesUp(after, id, t, 0);
      assert Log(LogsOf(after, id), t)[0..] == Log(LogsOf(after, id), t);
    }
  }

  /** The case of `PollsDeliverEachEntryOnce` where the session already exists at the first poll. */
  lemma PollsResumeKnownSession(before: Sessions, after: Sessions, id: string, t: MsgType, c: int)
    requires AppendOnly(before, after)
    requires id != "" && id in before && 0 <= c <= |Log(before[id], t)|
    ensures id in after
    ensures var r1 := Poll(before, id, t, c);
      var c1 := NextCursor(r1, c);
      var r2 := Poll(after, id, t, c1);
      && Delivered(r1) + Delivered(r2) == Log(after[id], t)[c..]
      && NextCursor(r2, c1) == |Log(after[id], t)|
  {
    var log0, log1 := Log(before[id], t), Log(after[id], t);
    PollCatchesUp(before, id, t, c);
    assert log0 <= log1;
    PollCatchesUp(after, id, t, |log0|);
    assert log1[..|log0|] == log0;
    assert log0[c..] + log1[|log0|..] == log1[c..];
  }

  /** The effects of handing `ms` to the handler of type `t`, one per message, in order. */
  function Handled(t: MsgType, ms: seq<Payload>): (e: seq<Effect>)
    ensures |e| == |ms|
    ensures forall k :: 0 <= k < |ms| ==> e[k] == ApplyRemote(t, ms[k])
  {
    seq(|ms|, k requires 0 <= k < |ms| => ApplyRemote(t, ms[k]))
  }

  /** Handing over messages one more at a time. */
  lemma HandledSnoc(t: MsgType, ms: seq<Payload>, k: nat)
    requires k < |ms|
    ensures Handled(t, ms[..k + 1]) == Handled(t, ms[..k]) + [ApplyRemote(t, ms[k])]
  {
    var a, b := Handled(t, ms[..k + 1]), Handled(t, ms[..k]) + [ApplyRemote(t, ms[k])];
    assert |a| == |b|;
    forall j | 0 <= j < |a|
      ensures a[j] == b[j]
    {
      if j < k {
        assert ms[..k + 1][j] == ms[..k][j];
      }
    }
  }

  /** The effects of a poll: each returned message handled, if there is a peer connection to apply it to. */
  function Reaction(hasPeer: bool, t: MsgType, r: Response): seq<Effect>
  {
    if hasPeer then Handled(t, Delivered(r)) else []
  }

  class WebRTCConnection {
    const sessionId: string
    const isInitiator: bool
    /** Whether `peerConnection` is set. */
    var peerConnection: bool
    /** `dataChannel`: absent, or the ready state of the channel held. */
    var dataChannel: Option<ReadyState>
    /** Whether `pollingInterval` is set. */
    var pollingActive: bool
    var lastOfferIndex: int
    var lastAnswerIndex: int
    var lastCandidateIndex: int
    var connectionState: ConnectionState
    /** Every effect so far, in order. */
    var effects: seq<Effect>

    /** The cursors never go below zero. */
    ghost predicate Valid()
      reads this
    {
      lastOfferIndex >= 0 && lastAnswerIndex >= 0 && lastCandidateIndex >= 0
    }

    /** The cursor a poll of type `t` starts from. */
    function Cursor(t: MsgType): int
      reads this`lastOfferIndex, this`lastAnswerIndex, this`lastCandidateIndex
    {
      match t
      case Offer => lastOfferIndex
      case Answer => lastAnswerIndex
      case Candidate => lastCandidateIndex
    }

    constructor (sessionId: string, isInitiator: bool)
      ensures Valid()
      ensures this.sessionId == sessionId && this.isInitiator == isInitiator
      ensures !peerConnection && dataChannel == None && !pollingActive
      ensures lastOfferIndex == 0 && lastAnswerIndex == 0 && lastCandidateIndex == 0
      ensures connectionState == New && effects == []
    {
      this.sessionId := sessionId;
      this.isInitiator := isInitiator;
      peerConnection, dataChannel, pollingActive := false, None, false;
      lastOfferIndex, lastAnswerIndex, lastCandidateIndex := 0, 0, 0;
      connectionState, effects := New, [];
    }

    /**
     * `initialize`: creates the peer connection; the initiator also creates
     * the data channel and posts its offer. `offerCreated` says whether
     * creating and setting the local offer succeeded; if not, the call
     * answers false and polling never starts. Otherwise polling starts and
     * the state becomes connecting.
     */
    method Initialize(offerCreated: bool) returns (ok: bool)
      modifies this`peerConnection, this`dataChannel, this`pollingActive, this`connectionState, this`effects
      ensures peerConnection
      ensures dataChannel == (if isInitiator then Some(ChannelConnecting) else old(dataChannel))
      ensures ok <==> !isInitiator || offerCreated
      ensures ok ==>
        pollingActive && connectionState == Connecting
        && effects == old(effects) + (if isInitiator then [PostSignal(Offer)] else [])
      ensures !ok ==>
        pollingActive == old(pollingActive) && connectionState == old(connectionState)
        && effects == old(effects)
    {
      peerConnection := true;
      if isInitiator {
        dataChannel := Some(ChannelConnecting);
        if !offerCreated {
          return false;
        }
        effects := effects + [PostSignal(Offer)];
      }
      pollingActive := true;
      connectionState := Connecting;
      return true;
    }

    /**
     * `handleICECandidate`, the peer connection's `onicecandidate`: a
     * locally gathered candidate is posted to the signalling route; the
     * end-of-candidates event (no candidate) posts nothing.
     */
    method OnIceCandidate(found: bool)
      modifies this`effects
      ensures effects == old(effects) + (if found then [PostSignal(Candidate)] else [])
    {
      if found {
        effects := effects + [PostSignal(Candidate)];
      }
    }

    /** The data channel's `onopen`. */
    method OnChannelOpen()
      modifies this`dataChannel, this`connectionState, this`effects
      ensures connectionState == Connected
      ensures dataChannel == (if old(dataChannel).Some? then Some(Open) else None)
      ensures effects == old(effects) + [ConnectedCallback]
    {
      connectionState := Connected;
      if dataChannel.Some? {
        dataChannel := Some(Open);
      }
      effects := effects + [ConnectedCallback];
    }

    /** The data channel's `onclose`. */
    method OnChannelClose()
      modifies this`dataChannel, this`connectionState, this`effects
      ensures connectionState == Disconnected
      ensures dataChannel == (if old(dataChannel).Some? then Some(Closed) else None)
      ensures effects == old(effects) + [DisconnectedCallback]
    {
      connectionState := Disconnected;
      if dataChannel.Some? {
        dataChannel := Some(Closed);
      }
      effects := effects + [DisconnectedCallback];
    }

    /** The data channel's `onmessage`: a media message reaches the media callback. */
    method OnChannelMessage(m: ChannelMessage)
      modifies this`effects
      ensures effects == old(effects) + (if ReceivedMedia(m).Some? then [MediaReceived(ReceivedMedia(m).value)] else [])
    {
      if m.msgType == "media" {
        effects := effects + [MediaReceived(Media(KindOf(m.mediaType), m.data, m.id))];
      }
    }

    /** `handleDataChannel`: only the non-initiator adopts a channel the peer opened. */
    method HandleDataChannel(incoming: ReadyState)
      modifies this`dataChannel
      ensures dataChannel == (if isInitiator then old(dataChannel) else Some(incoming))
    {
      if !isInitiator {
        dataChannel := Some(incoming);
      }
    }

    /**
     * `handleConnectionStateChange` with the peer connection's new state:
     * "connected" makes the connection connected; "disconnected", "failed"
     * and "closed" make it disconnected and clean up; any other state, or no
     * peer connection, changes nothing.
     */
    method HandleConnectionStateChange(state: string)
      modifies this`connectionState, this`pollingActive, this`dataChannel, this`peerConnection, this`effects
      ensures !old(peerConnection) || state !in {"connected", "disconnected", "failed", "closed"} ==>
        connectionState == old(connectionState) && pollingActive == old(pollingActive)
        && dataChannel == old(dataChannel) && peerConnection == old(peerConnection) && effects == old(effects)
      ensures old(peerConnection) && state == "connected" ==>
        connectionState == Connected && pollingActive == old(pollingActive)
        && dataChannel == old(dataChannel) && peerConnection && effects == old(effects) + [ConnectedCallback]
      ensures old(peerConnection) && state in {"disconnected", "failed", "closed"} ==>
        connectionState == Disconnected && !pollingActive && dataChannel == None && !peerConnection
        && effects == old(effects) + [DisconnectedCallback] + Teardown(old(dataChannel).Some?, true)
    {
      if !peerConnection {
        return;
      }
      if state == "connected" {
        connectionState := Connected;
        effects := effects + [ConnectedCallback];
      } else if state == "disconnected" || state == "failed" || state == "closed" {
        connectionState := Disconnected;
        effects := effects + [DisconnectedCallback];
        Cleanup();
      }
    }

    /** The effects of `cleanup`: close what is held, then delete the session on the server. */
    function Teardown(hasChannel: bool, hasPeer: bool): seq<Effect>
    {
      (if hasChannel then [CloseChannel] else [])
        + (if hasPeer then [ClosePeer] else [])
        + [DeleteSession(sessionId)]
    }

    /** `cleanup`: stops polling, closes and drops the channel and the peer connection, deletes the session. */
    method Cleanup()
      modifies this`pollingActive, this`dataChannel, this`peerConnection, this`effects
      ensures !pollingActive && dataChannel == None && !peerConnection
      ensures effects == old(effects) + Teardown(old(dataChannel).Some?, old(peerConnection))
    {
      pollingActive := false;
      var e := [];
      if dataChannel.Some? {
        e := e + [CloseChannel];
        dataChannel := None;
      }
      if peerConnection {
        e := e + [ClosePeer];
        peerConnection := false;
      }
      effects := effects + e + [DeleteSession(sessionId)];
    }

    /**
     * `sendMedia`: refused (false, nothing sent) unless there is a data
     * channel and it is open. `sendFails` says whether reading the blob or
     * the channel's `send` throws; the error is caught and the answer is
     * false, with nothing sent.
     */
    method SendMedia(mediaType: string, id: string, data: seq<FileTransfer.Byte>, sendFails: bool) returns (sent: bool)
      modifies this`effects
      ensures sent <==> dataChannel == Some(Open) && !sendFails
      ensures effects == old(effects) + (if sent then [ChannelSend(MediaMessage(mediaType, id, data))] else [])
    {
      if dataChannel.None? || dataChannel.value != Open {
        return false;
      }
      if sendFails {
        return false;
      }
      effects := effects + [ChannelSend(MediaMessage(mediaType, id, data))];
      return true;
    }

    /**
     * `pollSignalingMessages`: polls log `t` from its cursor, hands each
     * returned message in order to the handler of that type (a no-op without
     * a peer connection), and moves the cursor only when messages came back.
     */
    method PollSignalingMessages(t: MsgType, sessions: Sessions)
      requires Valid()
      modifies this`lastOfferIndex, this`lastAnswerIndex, this`lastCandidateIndex, this`effects
      ensures Valid()
      ensures var r := Poll(sessions, sessionId, t, old(Cursor(t)));
        Cursor(t) == NextCursor(r, old(Cursor(t))) && effects == old(effects) + Reaction(peerConnection, t, r)
      ensures forall u :: u != t ==> Cursor(u) == old(Cursor(u))
    {
      var lastIndex := Cursor(t);
      var data := Get(sessions, Some(sessionId), Some(TypeName(t)), Some(lastIndex));
      if data.Polled? && |data.messages| > 0 {
        HandleAll(t, data.messages);
        var next := data.lastIndex.GetOr(lastIndex);
        assert Some(lastIndex).GetOr(0) == lastIndex;
        match t {
          case Offer => lastOfferIndex := next;
          case Answer => lastAnswerIndex := next;
          case Candidate => lastCandidateIndex := next;
        }
      }
    }

    /** The `for (const message of data.messages)` loop: each message to the handler of type `t`, in order. */
    method HandleAll(t: MsgType, ms: seq<Payload>)
      modifies this`effects
      ensures effects == old(effects) + (if peerConnection then Handled(t, ms) else [])
    {
      var k := 0;
      while k < |ms|
        invariant 0 <= k <= |ms|
        invariant effects == old(effects) + (if peerConnection then Handled(t, ms[..k]) else [])
      {
        if peerConnection {
          HandledSnoc(t, ms, k);
          effects := effects + [ApplyRemote(t, ms[k])];
        }
        k := k + 1;
      }
      assert ms[..k] == ms;
    }

    /**
     * One tick of the polling interval: once disconnected it only stops
     * polling; otherwise it polls the answers (initiator) or the offers
     * (responder), then the candidates.
     */
    method PollTick(sessions: Sessions)
      requires Valid() && pollingActive
      modifies this`pollingActive, this`lastOfferIndex, this`lastAnswerIndex, this`lastCandidateIndex, this`effects
      ensures Valid()
      ensures old(connectionState) == Disconnected ==>
        !pollingActive && effects == old(effects) && forall t :: Cursor(t) == old(Cursor(t))
      ensures old(connectionState) != Disconnected ==>
        var first := PolledTypes(isInitiator)[0];
        var r1 := Poll(sessions, sessionId, first, old(Cursor(first)));
        var r2 := Poll(sessions, sessionId, Candidate, old(Cursor(Candidate)));
        && pollingActive
        && Cursor(first) == NextCursor(r1, old(Cursor(first)))
        && Cursor(Candidate) == NextCursor(r2, old(Cursor(Candidate)))
        && (forall u :: u !in PolledTypes(isInitiator) ==> Cursor(u) == old(Cursor(u)))
        && effects == old(effects) + Reaction(peerConnection, first, r1) + Reaction(peerConnection, Candidate, r2)
    {
      if connectionState == Disconnected {
        pollingActive := false;
        return;
      }
      if !isInitiator {
        PollSignalingMessages(Offer, sessions);
      } else {
        PollSignalingMessages(Answer, sessions);
      }
      PollSignalingMessages(Candidate, sessions);
    }
  }

  /**
   * The initiator posts its offer, picks up the answer waiting in the store,
   * and on a failed peer connection tears everything down, after which media
   * can no longer be sent.
   */
  method InitiatorScenario()
  {
    var conn := new WebRTCConnection("s1", true);
    var ok := conn.Initialize(true);
    assert ok && conn.effects == [PostSignal(Offer)];
    var sessions := map["s1" := Logs(["{offer}"], ["{answer}"], [])];
    assert conn.Cursor(Answer) == 0 && conn.Cursor(Candidate) == 0 ;
    assert PolledTypes(true) == [Answer, Candidate];
    PollCatchesUp(sessions, "s1", Answer, 0);
    PollCatchesUp(sessions, "s1", Candidate, 0);
    assert Delivered(Poll(sessions, "s1", Answer, 0)) == ["{answer}"];
    assert Delivered(Poll(sessions, "s1", Candidate, 0)) == [];
    conn.PollTick(sessions);
    assert conn.Cursor(Offer) == 0 && conn.Cursor(Candidate) == 0;
    assert conn.lastAnswerIndex == 1 && conn.lastOfferIndex == 0 && conn.lastCandidateIndex == 0;
    assert Handled(Answer, ["{answer}"]) == [ApplyRemote(Answer, "{answer}")];
    assert conn.effects == [PostSignal(Offer), ApplyRemote(Answer, "{answer}")];
    conn.HandleConnectionStateChange("failed");
    assert conn.connectionState == Disconnected && !conn.pollingActive;
    var sent := conn.SendMedia("image/jpeg", "m1", [1, 2, 3], false);
    assert !sent;
  }
}
