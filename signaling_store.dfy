/**
 * The polling signalling store of app/api/signaling/route.ts: a module-level
 * map from session id to three append-only logs (offers, answers,
 * candidates). POST appends to one log, GET returns the entries from a
 * client-supplied cursor on together with the advanced cursor, and DELETE
 * drops a whole session.
 */
module Signaling {
  import opened Wrappers

  /** A signalling payload as a client posted it (its JSON text). */
  type Payload = string

  /** The three kinds of message the store keeps a log for. */
  datatype MsgType = Offer | Answer | Candidate

  /** The wire name of a message type, as the `type` field or parameter carries it. */
  function TypeName(t: MsgType): string
  {
    match t
    case Offer => "offer"
    case Answer => "answer"
    case Candidate => "candidate"
  }

  /** The `switch (type)` of the handlers: the three names are accepted, anything else is not. */
  function ParseType(name: string): (r: Option<MsgType>)
    ensures r.Some? <==> (name == "offer" || name == "answer" || name == "candidate")
    ensures r.Some? ==> TypeName(r.value) == name
    ensures forall t :: name == TypeName(t) ==> r == Some(t)
  {
    if name == "offer" then Some(Offer)
    else if name == "answer" then Some(Answer)
    else if name == "candidate" then Some(Candidate)
    else None
  }

  /** The logs of one session. */
  datatype Logs = Logs(offers: seq<Payload>, answers: seq<Payload>, candidates: seq<Payload>)

  /** The logs a session starts with. */
  const EmptyLogs := Logs([], [], [])

  /** The log kept for messages of type `t`. */
  function Log(l: Logs, t: MsgType): seq<Payload>
  {
    match t
    case Offer => l.offers
    case Answer => l.answers
    case Candidate => l.candidates
  }

  /** `session.<log>.push(data)`: one entry at the end of one log, the other two untouched. */
  function Append(l: Logs, t: MsgType, x: Payload): (r: Logs)
    ensures Log(r, t) == Log(l, t) + [x]
    ensures forall u :: u != t ==> Log(r, u) == Log(l, u)
  {
    match t
    case Offer => l.(offers := l.offers + [x])
    case Answer => l.(answers := l.answers + [x])
    case Candidate => l.(candidates := l.candidates + [x])
  }

  type Sessions = map<string, Logs>

  /** The logs of a session, or empty logs for an unknown one. */
  function LogsOf(sessions: Sessions, id: string): Logs
  {
    if id in sessions then sessions[id] else EmptyLogs
  }

  /** Every session of `before` is still in `after`, and each of its logs has only grown at the end. */
  ghost predicate AppendOnly(before: Sessions, after: Sessions)
  {
    forall id :: id in before ==>
      id in after && forall t :: Log(before[id], t) <= Log(after[id], t)
  }

  /** The JSON body (and status) of a handler's response. */
  datatype Response =
    | Success                                              // { success: true }
    | Polled(messages: seq<Payload>, lastIndex: Option<int>)  // { messages, lastIndex? }
    | Failure(status: nat, error: string)                  // { error } with an HTTP error status

  /** Whether a query parameter is present and non-empty (`!param` is false). */
  predicate Given(param: Option<string>)
  {
    param.Some? && param.value != ""
  }

  /**
   * `Array.prototype.slice(start)`: for a non-negative start, the entries
   * from `start` on; a negative start counts from the end.
   */
  function SliceFrom(s: seq<Payload>, start: int): (r: seq<Payload>)
    ensures 0 <= start ==> |r| == (if start <= |s| then |s| - start else 0)
    ensures 0 <= start ==> forall k :: 0 <= k < |r| ==> r[k] == s[start + k]
    ensures start < 0 ==> r == s[|s| - Min(-start, |s|)..]
  {
    if start < 0 then s[|s| - Min(-start, |s|)..]
    else if start <= |s| then s[start..]
    else []
  }

  /**
   * GET: the entries of one log from the cursor `lastIndex` on (a missing or
   * empty parameter reads as 0), with the advanced cursor. Unknown sessions
   * get an empty list and no cursor, without the type being checked.
   */
  function Get(sessions: Sessions, sessionId: Option<string>, msgType: Option<string>, lastIndex: Option<int>)
    : (r: Response)
    ensures !Given(sessionId) || !Given(msgType) <==> r == Failure(400, "Missing sessionId or type")
    ensures Given(sessionId) && Given(msgType) && sessionId.value !in sessions ==> r == Polled([], None)
    ensures r.Polled? && r.lastIndex.None? ==> r.messages == []
    ensures r.Polled? && r.lastIndex.Some? ==>
      && Given(sessionId) && sessionId.value in sessions
      && ParseType(msgType.value).Some?
      && r.lastIndex.value == lastIndex.GetOr(0) + |r.messages|
    ensures Given(sessionId) && Given(msgType) && sessionId.value in sessions ==>
      match ParseType(msgType.value)
      case None => r == Failure(400, "Invalid message type")
      case Some(t) =>
        var log, i := Log(sessions[sessionId.value], t), lastIndex.GetOr(0);
        r == Polled(SliceFrom(log, i), Some(i + |SliceFrom(log, i)|))
    ensures Given(sessionId) && Given(msgType) && sessionId.value in sessions && ParseType(msgType.value).Some?
            && lastIndex.GetOr(0) >= 0 ==>
      var log, i := Log(sessions[sessionId.value], ParseType(msgType.value).value), lastIndex.GetOr(0);
      && r.Polled? && r.lastIndex == Some(if i <= |log| then |log| else i)
      && r.messages == (if i <= |log| then log[i..] else [])
  {
    if !Given(sessionId) || !Given(msgType) then Failure(400, "Missing sessionId or type")
    else if sessionId.value !in sessions then Polled([], None)
    else
      var i := lastIndex.GetOr(0);
      match ParseType(msgType.value)
      case None => Failure(400, "Invalid message type")
      case Some(t) =>
        var messages := SliceFrom(Log(sessions[sessionId.value], t), i);
        Polled(messages, Some(i + |messages|))
  }

  /** The cursor GET returns is never smaller than the cursor it was given. */
  lemma CursorNeverShrinks(sessions: Sessions, id: string, name: string, i: int)
    ensures var r := Get(sessions, Some(id), Some(name), Some(i));
      r.Polled? && r.lastIndex.Some? ==> r.lastIndex.value >= i
  {
  }

  /** Polling again with the returned cursor, before anything is appended, re-delivers nothing. */
  lemma RepollDeliversNothing(sessions: Sessions, id: string, name: string, i: int)
    requires 0 <= i
    requires Get(sessions, Some(id), Some(name), Some(i)).Polled?
    requires Get(sessions, Some(id), Some(name), Some(i)).lastIndex.Some?
    ensures var c := Get(sessions, Some(id), Some(name), Some(i)).lastIndex;
      Get(sessions, Some(id), Some(name), c) == Polled([], c)
  {
  }

  /**
   * A negative cursor counts from the end of the log, and the cursor GET
   * returns for it can lie before the entries it just delivered: polling
   * ["a", "b"] from -1 hands over "b" with cursor 0, and polling again from
   * 0 hands over "a" and "b".
   */
  lemma NegativeCursorRedelivers()
    ensures var sessions := map["s" := Logs(["a", "b"], [], [])];
      && Get(sessions, Some("s"), Some("offer"), Some(-1)) == Polled(["b"], Some(0))
      && Get(sessions, Some("s"), Some("offer"), Some(0)) == Polled(["a", "b"], Some(2))
  {
    var log: seq<Payload> := ["a", "b"];
    assert SliceFrom(log, -1) == ["b"];
    assert SliceFrom(log, 0) == log;
  }

  /**
   * Resuming from the returned cursor after further appends delivers exactly
   * the entries appended in between: the two polls together deliver the log
   * from the first cursor on, each entry once, in append order.
   */
  lemma ResumeAfterAppends(before: Sessions, after: Sessions, id: string, t: MsgType, i: int)
    requires AppendOnly(before, after)
    requires id != "" && id in before && 0 <= i <= |Log(before[id], t)|
    ensures var first := Get(before, Some(id), Some(TypeName(t)), Some(i));
      && first.Polled? && first.lastIndex.Some?
      && var second := Get(after, Some(id), Some(TypeName(t)), first.lastIndex);
      && second.Polled?
      && first.messages + second.messages == Log(after[id], t)[i..]
      && second.lastIndex == Some(|Log(after[id], t)|)
  {
    var old_, new_ := Log(before[id], t), Log(after[id], t);
    assert ParseType(TypeName(t)) == Some(t) && Given(Some(TypeName(t)));
    assert old_ <= new_;
    assert new_[..|old_|] == old_;
    assert old_[i..] + new_[|old_|..] == new_[i..];
  }

  /** The route module and its `sessions` record. */
  class SignalingRoute {
    var sessions: Sessions

    constructor ()
      ensures sessions == map[]
    {
      sessions := map[];
    }

    /**
     * POST: creates the session with empty logs if it is unknown (even when
     * the type is then rejected), then appends `data` to the log named by
     * `msgType`, or answers 400 for any other type.
     */
    method Post(sessionId: string, msgType: string, data: Payload) returns (r: Response)
      modifies this
      ensures var created := LogsOf(old(sessions), sessionId);
        match ParseType(msgType)
        case Some(t) => r == Success && sessions == old(sessions)[sessionId := Append(created, t, data)]
        case None => r == Failure(400, "Invalid message type") && sessions == old(sessions)[sessionId := created]
      ensures AppendOnly(old(sessions), sessions)
    {
      if sessionId !in sessions {
        sessions := sessions[sessionId := EmptyLogs];
      }
      var session := sessions[sessionId];
      match ParseType(msgType)
      case Some(t) =>
        sessions := sessions[sessionId := Append(session, t, data)];
        r := Success;
      case None =>
        r := Failure(400, "Invalid message type");
    }

    /** DELETE: removes a known session; 404 for an unknown one, 400 without an id. */
    method Delete(sessionId: Option<string>) returns (r: Response)
      modifies this
      ensures !Given(sessionId) ==> r == Failure(400, "Missing sessionId") && sessions == old(sessions)
      ensures Given(sessionId) && sessionId.value in old(sessions) ==>
        r == Success && sessions == old(sessions) - {sessionId.value}
      ensures Given(sessionId) && sessionId.value !in old(sessions) ==>
        r == Failure(404, "Session not found") && sessions == old(sessions)
    {
      if !Given(sessionId) {
        return Failure(400, "Missing sessionId");
      }
      if sessionId.value in sessions {
        sessions := sessions - {sessionId.value};
        return Success;
      }
      return Failure(404, "Session not found");
    }
  }

  /** An offer posted to "s1" is polled from cursor 0 with cursor 1; polling from 1 then returns nothing. */
  method PostThenPollScenario()
  {
    var route := new SignalingRoute();
    var posted := route.Post("s1", "offer", "{sdp}");
    assert posted == Success;
    var first := Get(route.sessions, Some("s1"), Some("offer"), Some(0));
    assert first == Polled(["{sdp}"], Some(1));
    var second := Get(route.sessions, Some("s1"), Some("offer"), Some(1));
    assert second == Polled([], Some(1));
    var deleted := route.Delete(Some("unknown"));
    assert deleted.Failure? && deleted.status == 404;
  }
}
