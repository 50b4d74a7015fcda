/**
 * The message handler's decision about an inbound frame (index.js:59-103):
 * which of the JSON-RPC 2.0 shapes it has, decided by which fields are
 * present, in a fixed order of precedence.
 */
module Frames {
  import opened Wrappers
  import opened Json

  /** What the message handler does with one inbound text message. */
  datatype Route =
    | Malformed
      // `JSON.parse` threw, or the payload is `null` so that reading
      // `payload.jsonrpc` threw: reported as "error parsing message"
    | Ignored
      // `jsonrpc` is not the string "2.0": nothing at all happens
    | Notification(event: Json, params: Option<Json>, timestamp: Option<Json>)
      // `method` without `id`; `timestamp` is the replay timestamp to store,
      // present only when both `params` and `params.timestamp` are truthy
    | PeerRequest(name: Json, id: Json)
      // `method` with `id`
    | SuccessResponse(id: Json, result: Json)
      // `result` with `id`
    | ErrorResponse(id: Json, error: Json)
      // `error` with `id`
    | Unsupported
      // any other 2.0 frame: reported as "unsupported message format"

  /** `payload.jsonrpc === '2.0'`. */
  predicate IsVersion2(p: Json) {
    Get(p, "jsonrpc") == Some(JStr("2.0"))
  }

  /** `payload.params && payload.params.timestamp`, when it is truthy. */
  function ReplayTimestamp(p: Json): (r: Option<Json>)
    ensures r.Some? <==>
      Has(p, "params") && Truthy(p.fields["params"]) &&
      Has(p.fields["params"], "timestamp") && Truthy(p.fields["params"].fields["timestamp"])
    ensures r.Some? ==> r.value == p.fields["params"].fields["timestamp"]
  {
    match Get(p, "params")
    case None => None
    case Some(params) =>
      if !Truthy(params) then None
      else match Get(params, "timestamp")
        case None => None
        case Some(t) => if Truthy(t) then Some(t) else None
  }

  /**
   * The route of a message, `data` being the result of `JSON.parse` (None
   * when it threw). Each route is characterised by field presence alone,
   * which makes the precedence of the source's if-chain explicit: `method`
   * wins over `result` and `error`, and `result` over `error`.
   */
  function Classify(data: Option<Json>): (r: Route)
    ensures r.Malformed? <==> data == None || data == Some(JNull)
    ensures r.Ignored? <==> data.Some? && data.value != JNull && !IsVersion2(data.value)
    ensures r.Notification? <==>
      data.Some? && IsVersion2(data.value) && Has(data.value, "method") && !Has(data.value, "id")
    ensures r.PeerRequest? <==>
      data.Some? && IsVersion2(data.value) && Has(data.value, "method") && Has(data.value, "id")
    ensures r.SuccessResponse? <==>
      data.Some? && IsVersion2(data.value) && !Has(data.value, "method") &&
      Has(data.value, "result") && Has(data.value, "id")
    ensures r.ErrorResponse? <==>
      data.Some? && IsVersion2(data.value) && !Has(data.value, "method") &&
      !Has(data.value, "result") && Has(data.value, "error") && Has(data.value, "id")
    ensures r.Unsupported? <==>
      data.Some? && IsVersion2(data.value) && !Has(data.value, "method") &&
      (!Has(data.value, "id") || (!Has(data.value, "result") && !Has(data.value, "error")))
    ensures r.Notification? ==>
      r.event == data.value.fields["method"] && r.params == Get(data.value, "params") &&
      r.timestamp == ReplayTimestamp(data.value)
    ensures r.PeerRequest? ==>
      r.name == data.value.fields["method"] && r.id == data.value.fields["id"]
    ensures r.SuccessResponse? ==>
      r.id == data.value.fields["id"] && r.result == data.value.fields["result"]
    ensures r.ErrorResponse? ==>
      r.id == data.value.fields["id"] && r.error == data.value.fields["error"]
  {
    match data
    case None => Malformed
    case Some(p) =>
      if p == JNull then Malformed
      else if !IsVersion2(p) then Ignored
      else if Has(p, "method") && !Has(p, "id") then
        Notification(p.fields["method"], Get(p, "params"), ReplayTimestamp(p))
      else if Has(p, "method") && Has(p, "id") then
        PeerRequest(p.fields["method"], p.fields["id"])
      else if Has(p, "result") && Has(p, "id") then
        SuccessResponse(p.fields["id"], p.fields["result"])
      else if Has(p, "error") && Has(p, "id") then
        ErrorResponse(p.fields["id"], p.fields["error"])
      else Unsupported
  }

  /** A frame carrying `method`, `id` and `result` is a request from the peer, not a response. */
  lemma MethodOutranksResult(fields: map<string, Json>)
    requires "jsonrpc" in fields && fields["jsonrpc"] == JStr("2.0")
    requires "method" in fields && "id" in fields && "result" in fields
    ensures Classify(Some(JObj(fields))) == PeerRequest(fields["method"], fields["id"])
  {
  }

  /** A frame carrying `result`, `error` and `id` is a success response. */
  lemma ResultOutranksError(fields: map<string, Json>)
    requires "jsonrpc" in fields && fields["jsonrpc"] == JStr("2.0")
    requires "method" !in fields && "id" in fields && "result" in fields && "error" in fields
    ensures Classify(Some(JObj(fields))) == SuccessResponse(fields["id"], fields["result"])
  {
  }
}
