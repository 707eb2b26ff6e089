/** The client: apply pushes a call to the service's request list, waits
    on the call's own response list, and turns what it pops into the
    handler's result or a coded error. The push, the blocking pop and the
    id the call library draws are inputs here. */
module Client {
  import opened Js
  import opened Base
  import opened Channels
  import opened Envelope

  /** Why apply rejects with something other than a coded error. */
  datatype FaultKind =
    | MalformedReply  // JSON.parse threw on the popped element
    | NullReply       // the reply parsed to null, and reading its `status` threw

  /** How a call settles: the reply's result, a NanoRPCError with a code and
      a message, or some other exception. */
  datatype Result =
    | Success(result: Option<Json>)
    | Failure(code: Json, message: string)
    | Fault(kind: FaultKind)

  /** The start of every error message apply raises. */
  function CallPrefix(name: string, methodName: string): string
  {
    "Call " + name + ":" + methodName + " "
  }

  const CallErrorCode: Json := Num(ErrCodeValue(CallError))

  /** `${err.keyword}: ${err.instancePath}, ${err.message}`. */
  function ViolationLine(v: Violation): string
  {
    v.keyword + ": " + v.instancePath + ", " + (if v.message.Some? then v.message.value else "undefined")
  }

  /** The violations, one line each, joined with newlines. */
  function ViolationText(errors: seq<Violation>): string
  {
    Join(seq(|errors|, i requires 0 <= i < |errors| => ViolationLine(errors[i])), "\n")
  }

  /** `reply.error?.<key>`: the field of the reply's `error`, undefined when
      there is no `error` (or it is null) or it lacks the field. */
  function ErrorField(reply: Json, key: string): Option<Json>
  {
    var error := Get(reply, "error");
    if error.Some? then Get(error.value, key) else None
  }

  /** `reply.error?.code ?? CallError`. */
  function ReplyErrorCode(reply: Json): Json
  {
    OrElse(ErrorField(reply, "code"), CallErrorCode)
  }

  /** `${reply.error?.message ?? "unknown error"}`. */
  function ReplyErrorMessage(reply: Json): string
  {
    var message := ErrorField(reply, "message");
    if message.None? || message.value.Null? then "unknown error" else JsonText(message.value)
  }

  /** apply once the pop has returned. The checks run in order: nothing
      popped, then the method's validator, then the status; the result is
      returned only when all three pass, and every coded error's message
      starts with `Call <name>:<method> `. */
  function Interpret(name: string, methodName: string, validators: Validators, payload: Option<Payload>): (r: Result)
    ensures payload.None? ==>
      r == Failure(CallErrorCode, CallPrefix(name, methodName) + "received null message")
    ensures payload == Some(Unparsable) ==> r == Fault(MalformedReply)
    ensures payload.Some? && payload.value.Parsed? && validators(methodName, payload.value.value).Failed? ==>
      r == Failure(CallErrorCode,
                   CallPrefix(name, methodName) + ViolationText(validators(methodName, payload.value.value).errors))
    ensures r.Success? <==>
      && payload.Some? && payload.value.Parsed?
      && !validators(methodName, payload.value.value).Failed?
      && Get(payload.value.value, "status") == Some(Num(StatusValue(OK)))
    ensures r.Success? ==> r.result == Get(payload.value.value, "result")
    ensures r.Failure? ==> CallPrefix(name, methodName) <= r.message
  {
    match payload
    case None => Failure(CallErrorCode, CallPrefix(name, methodName) + "received null message")
    case Some(Unparsable) => Fault(MalformedReply)
    case Some(Parsed(reply)) =>
      var verdict := validators(methodName, reply);
      if verdict.Failed? then
        Failure(CallErrorCode, CallPrefix(name, methodName) + ViolationText(verdict.errors))
      else if reply.Null? then
        Fault(NullReply)
      else if Get(reply, "status") != Some(Num(StatusValue(OK))) then
        Failure(ReplyErrorCode(reply), CallPrefix(name, methodName) + ReplyErrorMessage(reply))
      else
        Success(Get(reply, "result"))
  }

  /** A reply that is not null, passes its validator and is not OK fails.
      Code and message are defaulted each on its own: the error's code
      unless it is missing or null, else CallError; the prefix followed by
      the error's message (a string itself, anything else its text) unless
      it is missing or null, else "unknown error". */
  lemma StatusFailure(name: string, methodName: string, validators: Validators, reply: Json)
    requires reply != Null && !validators(methodName, reply).Failed?
    requires Get(reply, "status") != Some(Num(StatusValue(OK)))
    ensures
      var r := Interpret(name, methodName, validators, Some(Parsed(reply)));
      var code := ErrorField(reply, "code");
      var message := ErrorField(reply, "message");
      && r.Failure?
      && (code.None? || code == Some(Null) ==> r.code == CallErrorCode)
      && (code.Some? && code != Some(Null) ==> r.code == code.value)
      && (message.None? || message == Some(Null) ==>
            r.message == CallPrefix(name, methodName) + "unknown error")
      && (message.Some? && message.value.Str? ==> r.message == CallPrefix(name, methodName) + message.value.s)
      && (message.Some? && message != Some(Null) ==>
            r.message == CallPrefix(name, methodName) + JsonText(message.value))
  {
  }

  /** In particular a reply with no `error` field at all fails with
      CallError and "unknown error", and one whose error has a code but no
      message keeps the code and says "unknown error". */
  lemma StatusFailureDefaults(name: string, methodName: string, validators: Validators, reply: Json, code: Json)
    requires reply.Obj? && !validators(methodName, reply).Failed?
    requires Get(reply, "status") != Some(Num(StatusValue(OK)))
    requires code != Null
    ensures Get(reply, "error").None? ==>
      Interpret(name, methodName, validators, Some(Parsed(reply)))
        == Failure(CallErrorCode, CallPrefix(name, methodName) + "unknown error")
    ensures Get(reply, "error") == Some(Obj(map["code" := code])) ==>
      Interpret(name, methodName, validators, Some(Parsed(reply)))
        == Failure(code, CallPrefix(name, methodName) + "unknown error")
  {
    StatusFailure(name, methodName, validators, reply);
  }

  /** The lines of a validation failure can be read back from its message:
      after the prefix, splitting at newlines gives one line per violation
      (as long as no violation's own text holds a newline). */
  lemma ViolationReportLines(name: string, methodName: string, validators: Validators, reply: Json)
    requires validators(methodName, reply).Failed?
    requires |validators(methodName, reply).errors| > 0
    requires forall i :: 0 <= i < |validators(methodName, reply).errors| ==>
      '\n' !in ViolationLine(validators(methodName, reply).errors[i])
    ensures
      var errors := validators(methodName, reply).errors;
      var r := Interpret(name, methodName, validators, Some(Parsed(reply)));
      && r.Failure? && r.code == CallErrorCode
      && |CallPrefix(name, methodName)| <= |r.message|
      && Split(r.message[|CallPrefix(name, methodName)|..], '\n')
           == seq(|errors|, i requires 0 <= i < |errors| => ViolationLine(errors[i]))
  {
    var errors := validators(methodName, reply).errors;
    var lines := seq(|errors|, i requires 0 <= i < |errors| => ViolationLine(errors[i]));
    var p := CallPrefix(name, methodName);
    assert (p + ViolationText(errors))[|p|..] == ViolationText(errors);
    SplitJoin(lines, '\n');
  }

  /* ---------------------------------------------------------------------
     apply, call and invoke.
     --------------------------------------------------------------------- */

  /** The I/O of one call: the list the call is pushed to, the call itself,
      and the list the reply is awaited on. */
  datatype Exchange = Exchange(requestChannel: string, rpc: Json, responseChannel: string)

  /** What apply pushes and where it waits. The call goes to the service's
      request list; the reply is awaited on the very list a server derives
      from that call's method and id. */
  function Request(name: string, methodName: string, params: Json, id: string): (e: Exchange)
    ensures e.requestChannel == RequestChannel(name)
    ensures DecodeRpc(e.rpc) == Some(Rpc(Some(Str(id)), methodName, Some(params)))
    ensures e.responseChannel == ResponseChannel(name, methodName, Text(DecodeRpc(e.rpc).value.id))
  {
    RpcRoundTrip(id, methodName, params);
    Exchange(RequestChannel(name), RpcObject(id, methodName, params), ResponseChannel(name, methodName, id))
  }

  /** apply(name, method, params): `id` is the id createNanoRPC draws and
      `payload` what the blocking pop on the response list returns. */
  function Apply(validators: Validators, name: string, methodName: string, params: Json, id: string,
                 payload: Option<Payload>): (Exchange, Result)
  {
    (Request(name, methodName, params, id), Interpret(name, methodName, validators, payload))
  }

  /** call(name, method, ...args). */
  function Call(validators: Validators, name: string, methodName: string, args: seq<Json>, id: string,
                payload: Option<Payload>): (Exchange, Result)
  {
    Apply(validators, name, methodName, Arr(args), id, payload)
  }

  /** invoke(name, method): a function of the arguments (and of the I/O of
      each call). */
  function Invoke(validators: Validators, name: string, methodName: string)
    : (seq<Json>, string, Option<Payload>) -> (Exchange, Result)
  {
    (args, id, payload) => Call(validators, name, methodName, args, id, payload)
  }

  /** call collects its arguments into the params of apply, and what invoke
      returns behaves as call on the same service and method. */
  lemma InvokeIsCall(validators: Validators, name: string, methodName: string, args: seq<Json>, id: string,
                     payload: Option<Payload>)
    ensures Call(validators, name, methodName, args, id, payload)
         == Apply(validators, name, methodName, Arr(args), id, payload)
    ensures Invoke(validators, name, methodName)(args, id, payload)
         == Call(validators, name, methodName, args, id, payload)
  {
  }
}
