/** The records that travel through the lists: the call a client pushes,
    the reply a server pushes back, and what a schema validator says about
    either. JSON text is not modelled: a payload is the value JSON.parse
    yields, or the fact that it threw. */
module Envelope {
  import opened Js
  import opened Base

  /** What blPop hands over once JSON.parse has run on its element. */
  datatype Payload = Unparsable | Parsed(value: Json)

  /** The fields of a call the server reads: `rpc.id`, `rpc.method` and
      `rpc.arguments` (None stands for `undefined`). */
  datatype Rpc = Rpc(id: Option<Json>, methodName: string, arguments: Option<Json>)

  /** createNanoRPC(method, params), with the id it draws given as an input,
      as JSON.parse reads it back. */
  function RpcObject(id: string, methodName: string, params: Json): Json
  {
    Obj(map["id" := Str(id), "method" := Str(methodName), "arguments" := params])
  }

  /** `"method" in rpc && typeof rpc.method === "string"`: the method a
      decoded payload names. Arrays and every primitive name none (on a
      primitive or null the `in` test throws, which the server also treats
      as "not a call"). */
  function MethodOf(v: Json): Option<string>
  {
    if v.Obj? && "method" in v.fields && v.fields["method"].Str?
    then Some(v.fields["method"].s)
    else None
  }

  /** The call a decoded payload carries, when it names a method. */
  function DecodeRpc(v: Json): (r: Option<Rpc>)
    ensures r.Some? <==> MethodOf(v).Some?
    ensures r.Some? ==> r.value.methodName == MethodOf(v).value
  {
    match MethodOf(v)
    case None => None
    case Some(m) => Some(Rpc(Get(v, "id"), m, Get(v, "arguments")))
  }

  /** The server reads back exactly the id, method and arguments the client
      put in the call, and the id's text is the id itself. */
  lemma RpcRoundTrip(id: string, methodName: string, params: Json)
    ensures DecodeRpc(RpcObject(id, methodName, params)) == Some(Rpc(Some(Str(id)), methodName, Some(params)))
    ensures Text(Some(Str(id))) == id
  {
  }

  /** createNanoReply(id, status, message[, result]). */
  datatype Reply = Reply(id: Option<Json>, status: Status, message: string, result: Option<Json>)

  /** A reply as JSON.parse reads back what JSON.stringify wrote:
      `undefined` fields are dropped and the status is its number. */
  function ReplyObject(r: Reply): Json
  {
    Obj(map["status" := Num(StatusValue(r.status)), "message" := Str(r.message)]
        + (if r.id.Some? then map["id" := r.id.value] else map[])
        + (if r.result.Some? then map["result" := r.result.value] else map[]))
  }

  /** Reads a reply record back from a decoded value. */
  function DecodeReply(v: Json): Option<Reply>
  {
    var status := Get(v, "status");
    var message := Get(v, "message");
    if status.Some? && status.value.Num? && StatusOf(status.value.n).Some?
       && message.Some? && message.value.Str?
    then Some(Reply(Get(v, "id"), StatusOf(status.value.n).value, message.value.s, Get(v, "result")))
    else None
  }

  /** Encoding a reply and decoding it gives the same reply. */
  lemma ReplyRoundTrip(r: Reply)
    ensures DecodeReply(ReplyObject(r)) == Some(r)
  {
    var o := ReplyObject(r);
    assert Get(o, "status") == Some(Num(StatusValue(r.status)));
    assert Get(o, "message") == Some(Str(r.message));
    assert Get(o, "id") == r.id;
    assert Get(o, "result") == r.result;
    StatusRoundTrip(r.status, StatusValue(r.status));
  }

  /** A reply as it reaches the client when the reply library adds an
      `error` field of its own (None: it adds none). */
  function WithError(reply: Json, error: Option<Json>): Json
  {
    if reply.Obj? && error.Some? then Obj(reply.fields["error" := error.value]) else reply
  }

  /** Such an extra field leaves the status and result the client reads
      untouched. */
  lemma WithErrorKeepsFields(r: Reply, error: Option<Json>)
    ensures Get(WithError(ReplyObject(r), error), "status") == Some(Num(StatusValue(r.status)))
    ensures Get(WithError(ReplyObject(r), error), "result") == r.result
    ensures Get(WithError(ReplyObject(r), error), "error") == error
  {
  }

  /** One entry of a validator's `errors` list. */
  datatype Violation = Violation(keyword: string, instancePath: string, message: Option<string>)

  /** What looking up a method's validator and applying it yields: no
      validator, a pass, or a failure with its violations. */
  datatype Verdict = NoValidator | Passed | Failed(errors: seq<Violation>)

  /** A validator registry, `getValidator(method)` applied to a decoded
      value. */
  type Validators = (string, Json) -> Verdict
}
