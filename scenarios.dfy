/**
 * Whole runs of one connection, each driven through the session's methods
 * and stated by the effects it leaves: what a client of the session can
 * conclude from the contracts alone.
 */
module Scenarios {
  import opened Wrappers
  import opened Json
  import opened Text
  import opened ReplayStore
  import opened Heartbeat
  import opened Client

  /** A request id of the shape `uuidv4()` returns. */
  const ExampleId := "9b2c4f1e-3a5d-4c6b-8e7f-0a1b2c3d4e5f"

  lemma ExampleIdIsUuid()
    ensures IsUuidV4(ExampleId)
  {
  }

  /** A JSON-RPC 2.0 frame with the given further fields. */
  function Frame(fields: map<string, Json>): Option<Json> {
    Some(JObj(fields["jsonrpc" := JStr("2.0")]))
  }

  lemma SuccessRoute(id: Json, result: Json)
    ensures Frames.Classify(Frame(map["result" := result, "id" := id])) == Frames.SuccessResponse(id, result)
  {
    var f := map["result" := result, "id" := id]["jsonrpc" := JStr("2.0")];
    assert "method" !in f.Keys;
    assert f["id"] == id && f["result"] == result;
  }

  lemma ErrorRoute(id: Json, error: Json)
    ensures Frames.Classify(Frame(map["error" := error, "id" := id])) == Frames.ErrorResponse(id, error)
  {
    var f := map["error" := error, "id" := id]["jsonrpc" := JStr("2.0")];
    assert "method" !in f.Keys && "result" !in f.Keys;
    assert f["id"] == id && f["error"] == error;
  }

  lemma HeartbeatRoute(id: Json)
    ensures Frames.Classify(Frame(map["method" := JStr("heartbeat"), "id" := id])) ==
            Frames.PeerRequest(JStr("heartbeat"), id)
  {
    var f := map["method" := JStr("heartbeat"), "id" := id]["jsonrpc" := JStr("2.0")];
    assert f["id"] == id && f["method"] == JStr("heartbeat");
  }

  /**
   * The subscription is acknowledged; a duplicate acknowledgement and a late
   * error response for the same id then change nothing: the request has
   * exactly one outcome and the process keeps running.
   */
  method AcknowledgedOnce(now: int, nowIso: string, eventsConfig: string, file: FileState,
                          from: Option<string>, result: Json, error: Json)
    returns (trace: seq<Effect>, exited: bool, pendingLeft: nat)
    ensures !exited && pendingLeft == 0
    ensures trace == [Armed(now + DeadlineMs),
                      Registered(ExampleId, now + SubscribeTimeoutMs),
                      Sent(SubscribeRequest(EventList(eventsConfig), Load(file, from, nowIso), ExampleId)),
                      Resolved(ExampleId, Succeeded(result))]
  {
    ExampleIdIsUuid();
    var c := new Connection();
    c.HandleOpen(now, nowIso, eventsConfig, file, from, ExampleId);
    var ack := Frame(map["result" := result, "id" := JStr(ExampleId)]);
    SuccessRoute(JStr(ExampleId), result);
    assert KeyOf(JStr(ExampleId)) == Some(ExampleId);
    UuidIsOwnKey(ExampleId);
    c.HandleMessage(ack, now + 10, nowIso);
    assert c.pending == map[] && !c.exited;
    ghost var acked := c.trace;
    c.HandleMessage(ack, now + 20, nowIso);
    assert c.trace == acked && c.pending == map[];
    ErrorRoute(JStr(ExampleId), error);
    c.HandleMessage(Frame(map["error" := error, "id" := JStr(ExampleId)]), now + 30, nowIso);
    trace, exited, pendingLeft := c.trace, c.exited, |c.pending|;
  }

  /**
   * The connection closes before the subscription is answered. The close
   * schedules a reconnect, but the subscribe timeout of the closed socket
   * still fires and ends the process.
   */
  method UnansweredSubscribeExits(now: int, nowIso: string, eventsConfig: string, file: FileState,
                                  from: Option<string>)
    returns (trace: seq<Effect>, exited: bool)
    ensures exited
    ensures |trace| == 6 && trace[3..] == [ReconnectScheduled(now + 100 + ReconnectDelayMs),
                                          Resolved(ExampleId, TimedOut), Exited(1)]
  {
    ExampleIdIsUuid();
    var c := new Connection();
    c.HandleOpen(now, nowIso, eventsConfig, file, from, ExampleId);
    c.HandleClose(now + 100);
    c.SubscribeTimedOut(ExampleId, now + SubscribeTimeoutMs);
    trace, exited := c.trace, c.exited;
  }

  /**
   * A heartbeat request from the peer just before the deadline is answered
   * with the current time under the peer's id and moves the deadline a full
   * `DeadlineMs` on; when the peer then stays silent, the deadline passes and
   * the connection is terminated, with a reconnect scheduled.
   */
  method HeartbeatThenSilence(now: int, nowIso: string, laterIso: string, eventsConfig: string,
                              file: FileState, from: Option<string>, result: Json, peerId: Json)
    returns (trace: seq<Effect>, state: ConnState)
    ensures |trace| == 8
    ensures trace[4..] == [Sent(HeartbeatReply(laterIso, peerId)),
                           Armed(now + 30000 + DeadlineMs),
                           Terminated, ReconnectScheduled(now + 30000 + DeadlineMs + ReconnectDelayMs)]
    ensures state == Closed(now + 30000 + DeadlineMs + ReconnectDelayMs)
  {
    ExampleIdIsUuid();
    var c := new Connection();
    c.HandleOpen(now, nowIso, eventsConfig, file, from, ExampleId);
    SuccessRoute(JStr(ExampleId), result);
    assert KeyOf(JStr(ExampleId)) == Some(ExampleId);
    c.HandleMessage(Frame(map["result" := result, "id" := JStr(ExampleId)]), now + 10, nowIso);
    assert |c.trace| == 4 && c.conn == Open && !c.exited;
    HeartbeatRoute(peerId);
    c.HandleMessage(Frame(map["method" := JStr("heartbeat"), "id" := peerId]), now + 30000, laterIso);
    c.HeartbeatExpired(now + 30000 + DeadlineMs);
    trace, state := c.trace, c.conn;
  }

  /**
   * A response whose id is an object with its own `toString` property: the
   * key coercion throws, the handler reports "error parsing message", and
   * the pending subscription is untouched.
   */
  method ThrowingIdIsReported(now: int, nowIso: string, eventsConfig: string, file: FileState,
                              from: Option<string>, result: Json, junk: Json)
    returns (trace: seq<Effect>, pendingIds: set<string>)
    ensures |trace| == 4 && trace[3] == Reported(ParseError)
    ensures pendingIds == {ExampleId}
  {
    ExampleIdIsUuid();
    var c := new Connection();
    c.HandleOpen(now, nowIso, eventsConfig, file, from, ExampleId);
    var id := JObj(map["toString" := junk]);
    SuccessRoute(id, result);
    c.HandleMessage(Frame(map["result" := result, "id" := id]), now + 10, nowIso);
    trace, pendingIds := c.trace, c.pending.Keys;
  }
}
