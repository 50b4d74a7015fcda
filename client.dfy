/**
 * One connection's session (index.js:47-119, 169-207): the state `index.js`
 * attaches to the WebSocket object — the table of pending requests and the
 * heartbeat timer — and what the open, message and close handlers and the
 * two timers do to it. Timers are deadlines on a logical clock in
 * milliseconds; everything observable the client does is appended, in
 * order, to a trace of effects.
 */
module Client {
  import opened Wrappers
  import opened Json
  import opened Frames
  import opened Text
  import opened ReplayStore
  import opened Heartbeat

  /** How long the subscribe request may wait for its response (index.js:203). */
  const SubscribeTimeoutMs := 5000
  /** The delay between a close and the next connection attempt (index.js:56). */
  const ReconnectDelayMs := 1000

  predicate IsLowerHex(c: char) {
    '0' <= c <= '9' || 'a' <= c <= 'f'
  }

  /**
   * The canonical text of a version-4 UUID as `uuidv4()` returns it:
   * 36 characters, dashes at 8, 13, 18 and 23, the version digit 4 at 14,
   * the variant digit 8, 9, a or b at 19, lower-case hex elsewhere.
   */
  predicate IsUuidV4(s: string) {
    |s| == 36 &&
    (forall i :: 0 <= i < 36 ==>
      if i == 8 || i == 13 || i == 18 || i == 23 then s[i] == '-' else IsLowerHex(s[i])) &&
    s[14] == '4' && s[19] in "89ab"
  }

  /** A frame the client sends. */
  datatype Outbound =
    | HeartbeatReply(result: string, replyTo: Json)
      // {jsonrpc: "2.0", result: <now>, id: <the peer's id>}
    | SubscribeRequest(events: seq<string>, from: string, requestId: string)
      // {jsonrpc: "2.0", method: "subscribe", params: {events, from}, id}

  /** How a pending request ended. */
  datatype Outcome = Succeeded(result: Json) | Failed(error: Json) | TimedOut

  /** The two messages the message handler reports on the error console. */
  datatype ConsoleReport =
    | ParseError          // "error parsing message": something in the handler threw
    | UnsupportedFormat   // "unsupported message format"

  /** Something the client did, in the order it did it. */
  datatype Effect =
    | Armed(deadline: int)                        // the heartbeat timer was (re)started
    | Registered(key: string, timeout: int)       // a pending entry was stored
    | Sent(frame: Outbound)                       // `ws.send`
    | StoreIssued(timestamp: Json)                // `storeReplayTimestamp` was started, not awaited
    | SinkCalled(event: Json, params: Option<Json>)  // `notification(method, params)`
    | Resolved(rkey: string, outcome: Outcome)    // a pending request's callback or timeout ran
    | Reported(report: ConsoleReport)
    | Terminated                                  // `ws.terminate()` on an open socket
    | ReconnectScheduled(at: int)                 // the close handler's `setTimeout(connect, 1000)`
    | Exited(code: int)                           // `process.exit(code)`

  /** An entry of `this.pendingRequests`: the request and the deadline of its timeout. */
  datatype Pending = Pending(request: Outbound, deadline: int)

  /** The socket's life: before `open`, open, and closed with a reconnect scheduled. */
  datatype ConnState = Connecting | Open | Closed(reconnectAt: int)

  /** Some callback or the timeout of request `key` has taken effect. */
  predicate HasOutcome(trace: seq<Effect>, key: string) {
    exists i :: 0 <= i < |trace| && trace[i].Resolved? && trace[i].rkey == key
  }

  /** No request has two outcomes. */
  predicate OutcomesUnique(trace: seq<Effect>) {
    forall i, j :: 0 <= i < j < |trace| && trace[i].Resolved? && trace[j].Resolved? ==>
      trace[i].rkey != trace[j].rkey
  }

  /**
   * The live heartbeat deadline, if any, is the one set by the latest arm:
   * an arm with that deadline occurs in the trace and none occurs after it.
   */
  predicate LatestArmCounts(trace: seq<Effect>, heartbeatDeadline: Option<int>) {
    heartbeatDeadline.Some? ==>
      exists i :: 0 <= i < |trace| && trace[i] == Armed(heartbeatDeadline.value) &&
                  forall j :: i < j < |trace| ==> !trace[j].Armed?
  }

  /** Effects that are not arms keep the latest arm the one in force. */
  lemma QuietKeepsLatest(trace: seq<Effect>, tail: seq<Effect>, hd: Option<int>)
    requires LatestArmCounts(trace, hd)
    requires forall k :: 0 <= k < |tail| ==> !tail[k].Armed?
    ensures LatestArmCounts(trace + tail, hd)
  {
    if hd.Some? {
      var i :| 0 <= i < |trace| && trace[i] == Armed(hd.value) &&
               forall j :: i < j < |trace| ==> !trace[j].Armed?;
      var t := trace + tail;
      assert t[i] == trace[i];
      forall j | i < j < |t|
        ensures !t[j].Armed?
      {
        if j < |trace| {
          assert t[j] == trace[j];
        } else {
          assert t[j] == tail[j - |trace|];
        }
      }
    }
  }

  /** An arm makes its own deadline the one in force. */
  lemma ArmBecomesLatest(trace: seq<Effect>, deadline: int)
    ensures LatestArmCounts(trace + [Armed(deadline)], Some(deadline))
  {
    var t := trace + [Armed(deadline)];
    assert t[|trace|] == Armed(deadline);
  }

  /** An outcome for a request that had none keeps every request to at most one. */
  lemma AppendOutcome(trace: seq<Effect>, key: string, o: Outcome, tail: seq<Effect>)
    requires OutcomesUnique(trace) && !HasOutcome(trace, key)
    requires forall k :: 0 <= k < |tail| ==> !tail[k].Resolved?
    ensures OutcomesUnique(trace + [Resolved(key, o)] + tail)
    ensures HasOutcome(trace + [Resolved(key, o)] + tail, key)
    ensures forall k :: HasOutcome(trace + [Resolved(key, o)] + tail, k) <==>
                        HasOutcome(trace, k) || k == key
  {
    var t := trace + [Resolved(key, o)] + tail;
    assert t[|trace|].Resolved? && t[|trace|].rkey == key;
    forall k | HasOutcome(t, k)
      ensures HasOutcome(trace, k) || k == key
    {
      var i :| 0 <= i < |t| && t[i].Resolved? && t[i].rkey == k;
      if i < |trace| {
        assert trace[i] == t[i];
      }
    }
    forall k | HasOutcome(trace, k)
      ensures HasOutcome(t, k)
    {
      var i :| 0 <= i < |trace| && trace[i].Resolved? && trace[i].rkey == k;
      assert t[i] == trace[i];
    }
  }

  /** Effects other than outcomes leave the outcomes as they were. */
  lemma AppendNoOutcome(trace: seq<Effect>, tail: seq<Effect>)
    requires OutcomesUnique(trace)
    requires forall k :: 0 <= k < |tail| ==> !tail[k].Resolved?
    ensures OutcomesUnique(trace + tail)
    ensures forall k :: HasOutcome(trace + tail, k) <==> HasOutcome(trace, k)
  {
    var t := trace + tail;
    forall k | HasOutcome(t, k)
      ensures HasOutcome(trace, k)
    {
      var i :| 0 <= i < |t| && t[i].Resolved? && t[i].rkey == k;
      assert i < |trace|;
      assert trace[i] == t[i];
    }
    forall k | HasOutcome(trace, k)
      ensures HasOutcome(t, k)
    {
      var i :| 0 <= i < |trace| && trace[i].Resolved? && trace[i].rkey == k;
      assert t[i] == trace[i];
    }
  }

  /** A UUID is never the name of a property every object inherits. */
  lemma UuidIsOwnKey(s: string)
    requires IsUuidV4(s)
    ensures s !in ObjectPrototypeKeys
  {
  }

  /** The WebSocket object and the session state `index.js` keeps on it. */
  class Connection {
    var conn: ConnState
    /** `this.pendingRequests`: request id to entry; its timers are the entries' deadlines. */
    var pending: map<string, Pending>
    /** `this.heartbeatTimeout`: the deadline of the live heartbeat timer, if any. */
    var heartbeatDeadline: Option<int>
    /** `process.exit` has been called: nothing happens afterwards. */
    var exited: bool
    var trace: seq<Effect>

    ghost predicate Valid()
      reads this
    {
      (conn == Connecting ==> pending == map[] && heartbeatDeadline == None && trace == []) &&
      (forall k :: k in pending ==>
        IsUuidV4(k) && pending[k].request.SubscribeRequest? &&
        pending[k].request.requestId == k && !HasOutcome(trace, k)) &&
      OutcomesUnique(trace) &&
      LatestArmCounts(trace, heartbeatDeadline)
    }

    /** `new WebSocket(...)`: a socket that is still connecting and has no session state. */
    constructor ()
      ensures Valid()
      ensures conn == Connecting && pending == map[] && heartbeatDeadline == None
      ensures !exited && trace == []
    {
      conn := Connecting;
      pending := map[];
      heartbeatDeadline := None;
      exited := false;
      trace := [];
    }

    /**
     * `heartbeat()`: replace whatever heartbeat timer there was by one that
     * terminates the connection `DeadlineMs` from now.
     */
    method Arm(now: int)
      requires Valid() && conn == Open
      modifies this
      ensures Valid()
      ensures heartbeatDeadline == Some(now + DeadlineMs)
      ensures trace == old(trace) + [Armed(now + DeadlineMs)]
      ensures conn == old(conn) && pending == old(pending) && exited == old(exited)
    {
      AppendNoOutcome(trace, [Armed(now + DeadlineMs)]);
      ArmBecomesLatest(trace, now + DeadlineMs);
      heartbeatDeadline := Some(now + DeadlineMs);
      trace := trace + [Armed(now + DeadlineMs)];
    }

    /**
     * `subscribe()`: build the request from the comma-separated `eventsConfig`
     * and the loaded replay timestamp, store its pending entry with a timeout
     * of `SubscribeTimeoutMs`, and only then send it. `id` is what `uuidv4()`
     * returned; it is fresh.
     */
    method Subscribe(now: int, nowIso: string, eventsConfig: string, file: FileState,
                     from: Option<string>, id: string)
      requires Valid() && conn == Open
      requires IsUuidV4(id) && id !in pending && !HasOutcome(trace, id)
      modifies this
      ensures Valid()
      ensures var request := SubscribeRequest(EventList(eventsConfig), Load(file, from, nowIso), id);
              pending == old(pending)[id := Pending(request, now + SubscribeTimeoutMs)] &&
              trace == old(trace) + [Registered(id, now + SubscribeTimeoutMs), Sent(request)]
      ensures conn == old(conn) && heartbeatDeadline == old(heartbeatDeadline) && exited == old(exited)
    {
      var events := EventList(eventsConfig);
      var request := SubscribeRequest(events, Load(file, from, nowIso), id);
      var effects := [Registered(id, now + SubscribeTimeoutMs), Sent(request)];
      AppendNoOutcome(trace, effects);
      QuietKeepsLatest(trace, effects, heartbeatDeadline);
      pending := pending[id := Pending(request, now + SubscribeTimeoutMs)];
      trace := trace + effects;
    }

    /**
     * The `open` handler: start from an empty pending table, arm the
     * heartbeat, then subscribe.
     */
    method HandleOpen(now: int, nowIso: string, eventsConfig: string, file: FileState,
                      from: Option<string>, id: string)
      requires Valid() && conn == Connecting && !exited
      requires IsUuidV4(id)
      modifies this
      ensures Valid()
      ensures conn == Open && heartbeatDeadline == Some(now + DeadlineMs) && !exited
      ensures var request := SubscribeRequest(EventList(eventsConfig), Load(file, from, nowIso), id);
              pending == map[id := Pending(request, now + SubscribeTimeoutMs)] &&
              trace == [Armed(now + DeadlineMs), Registered(id, now + SubscribeTimeoutMs), Sent(request)]
    {
      conn := Open;
      pending := map[];
      Arm(now);
      Subscribe(now, nowIso, eventsConfig, file, from, id);
    }

    /**
     * The `message` handler for one inbound message, `data` being what
     * `JSON.parse` returned (None when it threw).
     */
    method HandleMessage(data: Option<Json>, now: int, nowIso: string)
      requires Valid() && conn == Open && !exited
      modifies this
      ensures Valid() && conn == Open
      ensures match Classify(data)
        case Malformed =>
          trace == old(trace) + [Reported(ParseError)] &&
          pending == old(pending) && heartbeatDeadline == old(heartbeatDeadline) && !exited
        case Ignored =>
          trace == old(trace) &&
          pending == old(pending) && heartbeatDeadline == old(heartbeatDeadline) && !exited
        case Unsupported =>
          trace == old(trace) + [Reported(UnsupportedFormat)] &&
          pending == old(pending) && heartbeatDeadline == old(heartbeatDeadline) && !exited
        case Notification(event, params, timestamp) =>
          // the store, when there is one, is issued before the sink is called
          trace == old(trace) + (if timestamp.Some? then [StoreIssued(timestamp.value)] else [])
                              + [SinkCalled(event, params)] &&
          pending == old(pending) && heartbeatDeadline == old(heartbeatDeadline) && !exited
        case PeerRequest(name, id) =>
          pending == old(pending) && !exited &&
          if name == JStr("heartbeat") then
            trace == old(trace) + [Sent(HeartbeatReply(nowIso, id)), Armed(now + DeadlineMs)] &&
            heartbeatDeadline == Some(now + DeadlineMs)
          else
            trace == old(trace) && heartbeatDeadline == old(heartbeatDeadline)
        case SuccessResponse(id, result) =>
          heartbeatDeadline == old(heartbeatDeadline) && !exited &&
          (match KeyOf(id)
          case None =>
            // coercing the id to a key threw
            pending == old(pending) && trace == old(trace) + [Reported(ParseError)]
          case Some(key) =>
            if key in old(pending) then
              pending == old(pending) - {key} &&
              trace == old(trace) + [Resolved(key, Succeeded(result))]
            else
              pending == old(pending) &&
              trace == old(trace) + (if key in ObjectPrototypeKeys then [Reported(ParseError)] else []))
        case ErrorResponse(id, error) =>
          heartbeatDeadline == old(heartbeatDeadline) &&
          (match KeyOf(id)
          case None =>
            pending == old(pending) && !exited && trace == old(trace) + [Reported(ParseError)]
          case Some(key) =>
            if key in old(pending) then
              pending == old(pending) - {key} && exited &&
              trace == old(trace) + [Resolved(key, Failed(error)), Exited(1)]
            else
              pending == old(pending) && !exited &&
              trace == old(trace) + (if key in ObjectPrototypeKeys then [Reported(ParseError)] else []))
    {
      var route := Classify(data);
      match route {
        case Malformed =>
          Report(ParseError);
        case Ignored =>
        case Unsupported =>
          Report(UnsupportedFormat);
        case Notification(event, params, timestamp) =>
          var effects := (if timestamp.Some? then [StoreIssued(timestamp.value)] else [])
                         + [SinkCalled(event, params)];
          AppendNoOutcome(trace, effects);
          QuietKeepsLatest(trace, effects, heartbeatDeadline);
          trace := trace + effects;
        case PeerRequest(name, id) =>
          if name == JStr("heartbeat") {
            AppendNoOutcome(trace, [Sent(HeartbeatReply(nowIso, id))]);
            QuietKeepsLatest(trace, [Sent(HeartbeatReply(nowIso, id))], heartbeatDeadline);
            trace := trace + [Sent(HeartbeatReply(nowIso, id))];
            Arm(now);
          }
        case SuccessResponse(id, result) =>
          var k := KeyOf(id);
          if k.None? {
            Report(ParseError);
          } else if k.value in pending {
            Resolve(k.value, Succeeded(result), []);
          } else if k.value in ObjectPrototypeKeys {
            Report(ParseError);
          }
        case ErrorResponse(id, error) =>
          var k := KeyOf(id);
          if k.None? {
            Report(ParseError);
          } else if k.value in pending {
            Resolve(k.value, Failed(error), [Exited(1)]);
            exited := true;
          } else if k.value in ObjectPrototypeKeys {
            Report(ParseError);
          }
      }
    }

    /** Log one of the handler's error messages. */
    method Report(report: ConsoleReport)
      requires Valid() && conn == Open
      modifies this
      ensures Valid()
      ensures trace == old(trace) + [Reported(report)]
      ensures conn == old(conn) && pending == old(pending) &&
              heartbeatDeadline == old(heartbeatDeadline) && exited == old(exited)
    {
      AppendNoOutcome(trace, [Reported(report)]);
      QuietKeepsLatest(trace, [Reported(report)], heartbeatDeadline);
      trace := trace + [Reported(report)];
    }

    /**
     * Clear the timeout of pending request `key`, run its callback (or its
     * timeout) with outcome `o`, which deletes the entry, and record `tail`.
     */
    method Resolve(key: string, o: Outcome, tail: seq<Effect>)
      requires Valid() && key in pending
      requires forall k :: 0 <= k < |tail| ==> !tail[k].Resolved? && !tail[k].Armed?
      modifies this
      ensures Valid()
      ensures pending == old(pending) - {key}
      ensures trace == old(trace) + [Resolved(key, o)] + tail
      ensures conn == old(conn) && heartbeatDeadline == old(heartbeatDeadline) && exited == old(exited)
    {
      AppendOutcome(trace, key, o, tail);
      QuietKeepsLatest(trace, [Resolved(key, o)] + tail, heartbeatDeadline);
      assert trace + [Resolved(key, o)] + tail == trace + ([Resolved(key, o)] + tail);
      pending := pending - {key};
      trace := trace + [Resolved(key, o)] + tail;
    }

    /**
     * The heartbeat timer fires: `ws.terminate()`. On an open socket this
     * closes it, and the close handler schedules a reconnect; on a socket
     * that has already closed it does nothing.
     */
    method HeartbeatExpired(now: int)
      requires Valid() && !exited
      requires heartbeatDeadline.Some? && heartbeatDeadline.value <= now
      modifies this
      ensures Valid()
      ensures heartbeatDeadline == None && pending == old(pending) && !exited
      ensures old(conn) == Open ==>
                conn == Closed(now + ReconnectDelayMs) &&
                trace == old(trace) + [Terminated, ReconnectScheduled(now + ReconnectDelayMs)]
      ensures old(conn) != Open ==> conn == old(conn) && trace == old(trace)
    {
      heartbeatDeadline := None;
      if conn == Open {
        var effects := [Terminated, ReconnectScheduled(now + ReconnectDelayMs)];
        AppendNoOutcome(trace, effects);
        conn := Closed(now + ReconnectDelayMs);
        trace := trace + effects;
      }
    }

    /**
     * The timeout of pending request `key` fires: the entry is deleted and
     * the process exits with status 1. Closing the socket does not clear
     * this timer, so it also fires after a close.
     */
    method SubscribeTimedOut(key: string, now: int)
      requires Valid() && !exited
      requires key in pending && pending[key].deadline <= now
      modifies this
      ensures Valid()
      ensures pending == old(pending) - {key} && exited
      ensures trace == old(trace) + [Resolved(key, TimedOut), Exited(1)]
      ensures conn == old(conn) && heartbeatDeadline == old(heartbeatDeadline)
    {
      Resolve(key, TimedOut, [Exited(1)]);
      exited := true;
    }

    /**
     * The `close` handler: schedule a reconnect `ReconnectDelayMs` later. Its
     * `clearTimeout(this.heartbeatTimeout)` reads a property of the enclosing
     * function's `this`, not of the socket, so the socket's heartbeat timer
     * and the pending timeouts stay as they were.
     */
    method HandleClose(now: int)
      requires Valid() && !conn.Closed? && !exited
      modifies this
      ensures Valid()
      ensures conn == Closed(now + ReconnectDelayMs)
      ensures trace == old(trace) + [ReconnectScheduled(now + ReconnectDelayMs)]
      ensures pending == old(pending) && heartbeatDeadline == old(heartbeatDeadline) && !exited
    {
      AppendNoOutcome(trace, [ReconnectScheduled(now + ReconnectDelayMs)]);
      QuietKeepsLatest(trace, [ReconnectScheduled(now + ReconnectDelayMs)], heartbeatDeadline);
      conn := Closed(now + ReconnectDelayMs);
      trace := trace + [ReconnectScheduled(now + ReconnectDelayMs)];
    }
  }
}
