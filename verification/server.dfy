/** The server: a registry of method handlers and the loop that pops calls
    from the service's request list, decides what each one gets, runs its
    handler and pushes the reply to the call's own response list. */
module Server {
  import opened Js
  import opened Base
  import opened Channels
  import opened Envelope
  import opened Lists

  /* ---------------------------------------------------------------------
     Handlers and what they produce.
     --------------------------------------------------------------------- */

  /** A value a handler threw (or a promise it returned rejected with). */
  datatype Thrown =
    | ThrownString(s: string)
    | ThrownError(message: string)
    | ThrownOther(value: Option<Json>)

  /** What a handler call ends with, after awaiting a returned promise. */
  datatype Outcome = Returned(value: Option<Json>) | Threw(error: Thrown)

  /** A registered function, applied to the spread arguments of a call. */
  type Handler = seq<Json> -> Outcome

  /** The TypeError message V8 gives when a spread operand is not iterable. */
  const SpreadTypeError: string := "Spread syntax requires ...iterable[Symbol.iterator] to be a function"

  /** `...rpc.arguments`: an array spreads into its items and a string into
      its characters; any other value (or `undefined`) is not iterable. */
  function Spread(arguments: Option<Json>): (r: Option<seq<Json>>)
    ensures arguments.Some? && arguments.value.Arr? ==> r == Some(arguments.value.items)
    ensures arguments.Some? && arguments.value.Str? ==>
      && r.Some? && |r.value| == |arguments.value.s|
      && forall i :: 0 <= i < |arguments.value.s| ==> r.value[i] == Str([arguments.value.s[i]])
    ensures r.None? <==> arguments.None? || !(arguments.value.Arr? || arguments.value.Str?)
  {
    match arguments
    case Some(Arr(items)) => Some(items)
    case Some(Str(s)) => Some(seq(|s|, i requires 0 <= i < |s| => Str([s[i]])))
    case _ => None
  }

  /** `func(...rpc.arguments)` inside the handler's try block: a failed
      spread throws there too, so it is caught like a handler failure. */
  function CallHandler(handler: Handler, arguments: Option<Json>): Outcome
  {
    match Spread(arguments)
    case Some(args) => handler(args)
    case None => Threw(ThrownError(SpreadTypeError))
  }

  /** The message of a caught value: a string itself, an Error's message,
      and the template-literal text of anything else. */
  function ErrorMessage(e: Thrown): string
  {
    match e
    case ThrownString(s) => s
    case ThrownError(message) => message
    case ThrownOther(value) => Text(value)
  }

  /** The reply a handler's outcome becomes: a returned value gives an OK
      reply carrying it, a caught value an Exception reply carrying its
      message; either way the reply answers the call's own id. */
  function HandlerReply(id: Option<Json>, outcome: Outcome): (r: Reply)
    ensures r.id == id
    ensures r.status == OK <==> outcome.Returned?
    ensures r.status == Exception <==> outcome.Threw?
    ensures outcome.Returned? ==> r.message == "OK" && r.result == outcome.value
    ensures outcome.Threw? ==> r.message == ErrorMessage(outcome.error) && r.result == None
  {
    match outcome
    case Returned(v) => Reply(id, OK, "OK", v)
    case Threw(e) => Reply(id, Exception, ErrorMessage(e), None)
  }

  /* ---------------------------------------------------------------------
     Deciding what a popped value gets.
     --------------------------------------------------------------------- */

  /** What one iteration of the loop does with a popped value. */
  datatype Action =
    | Discard
    | ReplyMissing(channel: string, reply: Reply)
    | Dispatch(methodName: string, rpc: Rpc)

  /** The call a popped value carries once it has passed the first checks,
      in order: something was popped, it parsed, it names a method as a
      string, and the method's validator (if any) does not reject it. */
  function Accepted(validators: Validators, popped: Option<Payload>): Option<Rpc>
  {
    if popped.None? || popped.value.Unparsable? then None
    else
      var v := popped.value.value;
      match DecodeRpc(v)
      case None => None
      case Some(rpc) => if validators(rpc.methodName, v).Failed? then None else Some(rpc)
  }

  /** The loop's decision for one popped value, given the names registered:
      rejected values are discarded, an accepted call to an unknown method
      gets a MissingMethod reply on its response list, and any other
      accepted call goes to its handler. */
  function Classify(name: string, registered: set<string>, validators: Validators, popped: Option<Payload>): (a: Action)
    ensures a.Discard? <==> Accepted(validators, popped).None?
    ensures a.Dispatch? ==>
      Accepted(validators, popped) == Some(a.rpc) && a.methodName == a.rpc.methodName && a.methodName in registered
    ensures a.ReplyMissing? ==>
      var rpc := Accepted(validators, popped).value;
      && rpc.methodName !in registered
      && a.channel == ResponseChannel(name, rpc.methodName, Text(rpc.id))
      && a.reply == Reply(rpc.id, MissingMethod, "Missing Method", None)
  {
    match Accepted(validators, popped)
    case None => Discard
    case Some(rpc) =>
      if rpc.methodName !in registered then
        ReplyMissing(ResponseChannel(name, rpc.methodName, Text(rpc.id)),
                     Reply(rpc.id, MissingMethod, "Missing Method", None))
      else
        Dispatch(rpc.methodName, rpc)
  }

  /** One RPUSH. */
  datatype Push = Push(channel: string, value: Json)

  /** The push (at most one) that handling a popped value makes. */
  function Step(name: string, methods: map<string, Handler>, validators: Validators, popped: Option<Payload>): (r: Option<Push>)
    ensures r.None? <==> Accepted(validators, popped).None?
    ensures r.Some? ==>
      var rpc := Accepted(validators, popped).value;
      && r.value.channel == ResponseChannel(name, rpc.methodName, Text(rpc.id))
      && DecodeReply(r.value.value).Some?
      && DecodeReply(r.value.value).value.id == rpc.id
  {
    match Classify(name, methods.Keys, validators, popped)
    case Discard => None
    case ReplyMissing(channel, reply) =>
      ReplyRoundTrip(reply);
      Some(Push(channel, ReplyObject(reply)))
    case Dispatch(m, rpc) =>
      var reply := HandlerReply(rpc.id, CallHandler(methods[m], rpc.arguments));
      ReplyRoundTrip(reply);
      Some(Push(ResponseChannel(name, m, Text(rpc.id)), ReplyObject(reply)))
  }

  /** Payloads that are empty, unparsable, name no method as a string, or
      fail their method's validator are dropped without any reply. */
  lemma DiscardedWithoutReply(name: string, methods: map<string, Handler>, validators: Validators, popped: Option<Payload>)
    ensures popped.None? ==> Step(name, methods, validators, popped).None?
    ensures popped == Some(Unparsable) ==> Step(name, methods, validators, popped).None?
    ensures popped.Some? && popped.value.Parsed? && MethodOf(popped.value.value).None? ==>
      Step(name, methods, validators, popped).None?
    ensures popped.Some? && popped.value.Parsed? && MethodOf(popped.value.value).Some? &&
            validators(MethodOf(popped.value.value).value, popped.value.value).Failed? ==>
      Step(name, methods, validators, popped).None?
  {
  }

  /** An accepted call to a method nobody registered gets exactly one reply,
      status MissingMethod and message "Missing Method", on its response
      list; no handler runs, so the handlers registered do not matter. */
  lemma MissingMethodReply(name: string, methods: map<string, Handler>, other: map<string, Handler>,
                           validators: Validators, popped: Option<Payload>)
    requires Accepted(validators, popped).Some?
    requires Accepted(validators, popped).value.methodName !in methods
    requires other.Keys == methods.Keys
    ensures
      var rpc := Accepted(validators, popped).value;
      Step(name, methods, validators, popped)
        == Some(Push(ResponseChannel(name, rpc.methodName, Text(rpc.id)),
                     ReplyObject(Reply(rpc.id, MissingMethod, "Missing Method", None))))
    ensures Step(name, other, validators, popped) == Step(name, methods, validators, popped)
  {
  }

  /** An accepted call to a registered method gets exactly one reply: its
      handler's outcome, on the response list built from the server name,
      the method and the call's own id. */
  lemma DispatchedCallReply(name: string, methods: map<string, Handler>, validators: Validators, popped: Option<Payload>)
    requires Accepted(validators, popped).Some?
    requires Accepted(validators, popped).value.methodName in methods
    ensures
      var rpc := Accepted(validators, popped).value;
      Step(name, methods, validators, popped)
        == Some(Push(ResponseChannel(name, rpc.methodName, Text(rpc.id)),
                     ReplyObject(HandlerReply(rpc.id, CallHandler(methods[rpc.methodName], rpc.arguments)))))
  {
  }

  /** What the caller reads back as the message of the Exception reply a
      throwing handler gets: a thrown string itself, an Error's message, and
      the template-literal text of anything else. */
  lemma ThrownMessageOnWire(name: string, methods: map<string, Handler>, validators: Validators,
                            popped: Option<Payload>, e: Thrown)
    requires Accepted(validators, popped).Some?
    requires Accepted(validators, popped).value.methodName in methods
    requires CallHandler(methods[Accepted(validators, popped).value.methodName],
                         Accepted(validators, popped).value.arguments) == Threw(e)
    ensures Step(name, methods, validators, popped).Some?
    ensures
      var reply := DecodeReply(Step(name, methods, validators, popped).value.value);
      && reply.Some? && reply.value.status == Exception && reply.value.result.None?
      && (e.ThrownString? ==> reply.value.message == e.s)
      && (e.ThrownError? ==> reply.value.message == e.message)
      && (e.ThrownOther? ==> reply.value.message == Text(e.value))
  {
    var rpc := Accepted(validators, popped).value;
    DispatchedCallReply(name, methods, validators, popped);
    ReplyRoundTrip(HandlerReply(rpc.id, Threw(e)));
  }

  /* ---------------------------------------------------------------------
     The loop over a stream of pops.
     --------------------------------------------------------------------- */

  function AsSeq(p: Option<Push>): seq<Push>
  {
    if p.Some? then [p.value] else []
  }

  /** The pushes the loop makes for the popped values, in pop order. */
  function Outbox(name: string, methods: map<string, Handler>, validators: Validators, pops: seq<Option<Payload>>): seq<Push>
    decreases |pops|
  {
    if |pops| == 0 then []
    else Outbox(name, methods, validators, pops[..|pops| - 1]) + AsSeq(Step(name, methods, validators, pops[|pops| - 1]))
  }

  function Delivered(lists: map<string, seq<Json>>, p: Option<Push>): map<string, seq<Json>>
  {
    if p.Some? then Pushed(lists, p.value.channel, p.value.value) else lists
  }

  /** The lists after a sequence of pushes. */
  function DeliverAll(lists: map<string, seq<Json>>, pushes: seq<Push>): map<string, seq<Json>>
    decreases |pushes|
  {
    if |pushes| == 0 then lists
    else
      var last := pushes[|pushes| - 1];
      Pushed(DeliverAll(lists, pushes[..|pushes| - 1]), last.channel, last.value)
  }

  /** The loop never makes more than one push per popped value. */
  lemma {:induction false} OutboxAtMostOnePerPop(name: string, methods: map<string, Handler>, validators: Validators,
                                                  pops: seq<Option<Payload>>)
    ensures |Outbox(name, methods, validators, pops)| <= |pops|
    decreases |pops|
  {
    if |pops| > 0 {
      OutboxAtMostOnePerPop(name, methods, validators, pops[..|pops| - 1]);
    }
  }

  /** When every popped value is an accepted call, registered or not, every
      one of them is answered: no such caller is left waiting. */
  lemma {:induction false} AcceptedCallsAllAnswered(name: string, methods: map<string, Handler>, validators: Validators,
                                                     pops: seq<Option<Payload>>)
    requires forall i :: 0 <= i < |pops| ==> Accepted(validators, pops[i]).Some?
    ensures |Outbox(name, methods, validators, pops)| == |pops|
    decreases |pops|
  {
    if |pops| > 0 {
      AcceptedCallsAllAnswered(name, methods, validators, pops[..|pops| - 1]);
    }
  }

  /** Every push of the loop goes to a response list, never back onto the
      service's own request list. */
  lemma {:induction false} OutboxAvoidsRequestChannel(name: string, methods: map<string, Handler>, validators: Validators,
                                                       pops: seq<Option<Payload>>)
    ensures forall k :: 0 <= k < |Outbox(name, methods, validators, pops)| ==>
      Outbox(name, methods, validators, pops)[k].channel != RequestChannel(name)
    decreases |pops|
  {
    if |pops| > 0 {
      var init := pops[..|pops| - 1];
      OutboxAvoidsRequestChannel(name, methods, validators, init);
      var s := Step(name, methods, validators, pops[|pops| - 1]);
      if s.Some? {
        var rpc := Accepted(validators, pops[|pops| - 1]).value;
        ResponseIsNotRequest(name, rpc.methodName, Text(rpc.id));
      }
    }
  }

  /* ---------------------------------------------------------------------
     Object.prototype names and the `in` operator.
     --------------------------------------------------------------------- */

  /** The names every plain object inherits from Object.prototype. */
  const ObjectPrototypeKeys: set<string> :=
    {"constructor", "hasOwnProperty", "isPrototypeOf", "propertyIsEnumerable",
     "toLocaleString", "toString", "valueOf", "__proto__",
     "__defineGetter__", "__defineSetter__", "__lookupGetter__", "__lookupSetter__"}

  /** The names `name in this.methods` holds for, as written: `methods` is a
      plain object, so `in` also finds every inherited name. */
  function RegisteredAsWritten(registered: set<string>): set<string>
  {
    registered + ObjectPrototypeKeys
  }

  /** As written, `on("toString", f)` and `on("constructor", f)` throw
      "already registered" on a server that has registered nothing. */
  lemma InheritedNameRejected()
    ensures "toString" in RegisteredAsWritten({})
    ensures "constructor" in RegisteredAsWritten({})
  {
  }

  /** The push one iteration makes as written: the registry test also
      accepts inherited names, and emitting a name nobody listens to runs
      nothing, so nothing is pushed. */
  function StepAsWritten(name: string, methods: map<string, Handler>, validators: Validators,
                         popped: Option<Payload>): Option<Push>
  {
    match Classify(name, RegisteredAsWritten(methods.Keys), validators, popped)
    case Discard => None
    case ReplyMissing(channel, reply) => Some(Push(channel, ReplyObject(reply)))
    case Dispatch(m, rpc) =>
      if m in methods then Some(Push(ResponseChannel(name, m, Text(rpc.id)),
                                     ReplyObject(HandlerReply(rpc.id, CallHandler(methods[m], rpc.arguments)))))
      else None
  }

  /** As written, a call to the unregistered method "toString" passes the
      registry test and is emitted to a handler that does not exist, so no
      reply is ever pushed; with own names only it gets its MissingMethod
      reply. */
  lemma InheritedNameSwallowed(name: string, validators: Validators, id: string)
    requires !validators("toString", RpcObject(id, "toString", Arr([]))).Failed?
    ensures
      var popped := Some(Parsed(RpcObject(id, "toString", Arr([]))));
      Classify(name, RegisteredAsWritten({}), validators, popped)
        == Dispatch("toString", Rpc(Some(Str(id)), "toString", Some(Arr([]))))
    ensures StepAsWritten(name, map[], validators, Some(Parsed(RpcObject(id, "toString", Arr([]))))).None?
    ensures
      var popped := Some(Parsed(RpcObject(id, "toString", Arr([]))));
      Classify(name, {}, validators, popped)
        == ReplyMissing(ResponseChannel(name, "toString", id),
                        Reply(Some(Str(id)), MissingMethod, "Missing Method", None))
    ensures Step(name, map[], validators, Some(Parsed(RpcObject(id, "toString", Arr([])))))
         == Some(Push(ResponseChannel(name, "toString", id),
                      ReplyObject(Reply(Some(Str(id)), MissingMethod, "Missing Method", None))))
  {
    RpcRoundTrip(id, "toString", Arr([]));
  }

  /** On own names, as-written and corrected registry agree: the two steps
      differ only for calls to inherited names nobody registered. */
  lemma AsWrittenAgreesOffPrototype(name: string, methods: map<string, Handler>, validators: Validators,
                                    popped: Option<Payload>)
    requires Accepted(validators, popped).Some? ==>
      Accepted(validators, popped).value.methodName !in ObjectPrototypeKeys
      || Accepted(validators, popped).value.methodName in methods
    ensures StepAsWritten(name, methods, validators, popped) == Step(name, methods, validators, popped)
  {
  }

  /* ---------------------------------------------------------------------
     The server object.
     --------------------------------------------------------------------- */

  /** What on() ends with: the server, for chaining, or the error it throws. */
  datatype Registration = Chained(server: RpcServer) | Refused(message: string)

  class RpcServer {
    const name: string
    const base: RpcBase
    /** The registered methods and their handlers; names are only added. */
    var methods: map<string, Handler>

    constructor (name: string, source: RedisOrUrl)
      ensures this.name == name && methods == map[]
      ensures fresh(base) && (base.maintenance <==> source.Url?)
      ensures source.Client? ==> base.redis == source.redis
    {
      this.name := name;
      base := new RpcBase(source);
      methods := map[];
    }

    /** on(method, func): registers a handler under a new name and returns
      the server for chaining; a name already registered is refused with an
      error and nothing changes. */
    method On(methodName: string, handler: Handler) returns (r: Registration)
      modifies this
      ensures methodName in old(methods) ==>
        r == Refused(methodName + " method already registered") && methods == old(methods)
      ensures methodName !in old(methods) ==>
        r == Chained(this) && methods == old(methods)[methodName := handler]
      ensures old(methods).Keys <= methods.Keys
    {
      if methodName in methods {
        return Refused(methodName + " method already registered");
      }
      methods := methods[methodName := handler];
      return Chained(this);
    }

    /** One iteration of the loop in run(): decide, run the handler when
      there is one, and push the reply. */
    method Process(validators: Validators, popped: Option<Payload>, store: Store)
      modifies store
      ensures store.lists == Delivered(old(store.lists), Step(name, methods, validators, popped))
    {
      var action := Classify(name, methods.Keys, validators, popped);
      match action
      case Discard =>
      case ReplyMissing(channel, reply) =>
        store.RPush(channel, ReplyObject(reply));
      case Dispatch(m, rpc) =>
        var outcome := CallHandler(methods[m], rpc.arguments);
        var reply := HandlerReply(rpc.id, outcome);
        store.RPush(ResponseChannel(name, m, Text(rpc.id)), ReplyObject(reply));
    }

    /** The first |pops| iterations of the loop in run(). */
    method Serve(validators: Validators, pops: seq<Option<Payload>>, store: Store)
      modifies store
      ensures store.lists == DeliverAll(old(store.lists), Outbox(name, methods, validators, pops))
    {
      var i := 0;
      while i < |pops|
        invariant 0 <= i <= |pops|
        invariant store.lists == DeliverAll(old(store.lists), Outbox(name, methods, validators, pops[..i]))
      {
        ghost var before := Outbox(name, methods, validators, pops[..i]);
        Process(validators, pops[i], store);
        assert pops[..i + 1][..i] == pops[..i];
        var s := Step(name, methods, validators, pops[i]);
        if s.Some? {
          assert (before + [s.value])[..|before|] == before;
        } else {
          assert before + [] == before;
        }
        i := i + 1;
      }
      assert pops[..|pops|] == pops;
    }
  }
}
