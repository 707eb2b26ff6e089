/** A call followed from the client, through a server with the same
    service name, and back: the server answers on exactly the list the
    client waits on, and the client turns that answer into the handler's
    result or an error. */
module Protocol {
  import opened Js
  import opened Base
  import opened Channels
  import opened Envelope
  import Server
  import Client

  /** The push the server makes for the call `call(name, method, ...args)`
      pushes, when the call has been drawn id `id`. */
  function ServerAnswer(serverValidators: Validators, methods: map<string, Server.Handler>,
                        name: string, methodName: string, args: seq<Json>, id: string): Option<Server.Push>
  {
    Server.Step(name, methods, serverValidators, Some(Parsed(Client.Request(name, methodName, Arr(args), id).rpc)))
  }

  /** The call the server decodes is the one the client sent. */
  lemma ServerSeesClientCall(serverValidators: Validators, name: string, methodName: string, args: seq<Json>, id: string)
    requires !serverValidators(methodName, RpcObject(id, methodName, Arr(args))).Failed?
    ensures Server.Accepted(serverValidators, Some(Parsed(Client.Request(name, methodName, Arr(args), id).rpc)))
         == Some(Rpc(Some(Str(id)), methodName, Some(Arr(args))))
  {
    RpcRoundTrip(id, methodName, Arr(args));
  }

  /** A registered handler that returns a value: the server pushes one OK
      reply carrying it, on the list the client waits on, and the client's
      call resolves to that very value, whatever error field the reply
      library may add. */
  lemma ReturnedValueReachesCaller(serverValidators: Validators, clientValidators: Validators,
                                   methods: map<string, Server.Handler>, name: string, methodName: string,
                                   args: seq<Json>, id: string, value: Option<Json>, error: Option<Json>)
    requires methodName in methods && methods[methodName](args) == Server.Returned(value)
    requires !serverValidators(methodName, RpcObject(id, methodName, Arr(args))).Failed?
    requires !clientValidators(methodName, WithError(ReplyObject(Reply(Some(Str(id)), OK, "OK", value)), error)).Failed?
    ensures ServerAnswer(serverValidators, methods, name, methodName, args, id)
         == Some(Server.Push(Client.Request(name, methodName, Arr(args), id).responseChannel,
                             ReplyObject(Reply(Some(Str(id)), OK, "OK", value))))
    ensures Client.Call(clientValidators, name, methodName, args, id,
                        Some(Parsed(WithError(ReplyObject(Reply(Some(Str(id)), OK, "OK", value)), error)))).1
         == Client.Success(value)
  {
    var popped := Some(Parsed(Client.Request(name, methodName, Arr(args), id).rpc));
    ServerSeesClientCall(serverValidators, name, methodName, args, id);
    Server.DispatchedCallReply(name, methods, serverValidators, popped);
    WithErrorKeepsFields(Reply(Some(Str(id)), OK, "OK", value), error);
  }

  /** A registered handler that throws: the server pushes one Exception
      reply with the thrown value's message on the list the client waits
      on, and the client's call fails (never succeeds, never hangs), with
      CallError and "unknown error" when the reply carries no error field. */
  lemma ThrownErrorReachesCaller(serverValidators: Validators, clientValidators: Validators,
                                 methods: map<string, Server.Handler>, name: string, methodName: string,
                                 args: seq<Json>, id: string, e: Server.Thrown, error: Option<Json>)
    requires methodName in methods && methods[methodName](args) == Server.Threw(e)
    requires !serverValidators(methodName, RpcObject(id, methodName, Arr(args))).Failed?
    ensures ServerAnswer(serverValidators, methods, name, methodName, args, id)
         == Some(Server.Push(Client.Request(name, methodName, Arr(args), id).responseChannel,
                             ReplyObject(Reply(Some(Str(id)), Exception, Server.ErrorMessage(e), None))))
    ensures
      var reply := WithError(ReplyObject(Reply(Some(Str(id)), Exception, Server.ErrorMessage(e), None)), error);
      var r := Client.Call(clientValidators, name, methodName, args, id, Some(Parsed(reply))).1;
      && r.Failure?
      && (error.None? && !clientValidators(methodName, reply).Failed? ==>
            r == Client.Failure(Client.CallErrorCode, Client.CallPrefix(name, methodName) + "unknown error"))
  {
    var popped := Some(Parsed(Client.Request(name, methodName, Arr(args), id).rpc));
    ServerSeesClientCall(serverValidators, name, methodName, args, id);
    Server.DispatchedCallReply(name, methods, serverValidators, popped);
    WithErrorKeepsFields(Reply(Some(Str(id)), Exception, Server.ErrorMessage(e), None), error);
  }

  /** A call to a method the server has not registered: the server pushes
      one MissingMethod reply on the list the client waits on, and the
      client's call fails rather than hanging. */
  lemma MissingMethodReachesCaller(serverValidators: Validators, clientValidators: Validators,
                                   methods: map<string, Server.Handler>, name: string, methodName: string,
                                   args: seq<Json>, id: string, error: Option<Json>)
    requires methodName !in methods
    requires !serverValidators(methodName, RpcObject(id, methodName, Arr(args))).Failed?
    ensures ServerAnswer(serverValidators, methods, name, methodName, args, id)
         == Some(Server.Push(Client.Request(name, methodName, Arr(args), id).responseChannel,
                             ReplyObject(Reply(Some(Str(id)), MissingMethod, "Missing Method", None))))
    ensures
      var reply := WithError(ReplyObject(Reply(Some(Str(id)), MissingMethod, "Missing Method", None)), error);
      Client.Call(clientValidators, name, methodName, args, id, Some(Parsed(reply))).1.Failure?
  {
    var popped := Some(Parsed(Client.Request(name, methodName, Arr(args), id).rpc));
    ServerSeesClientCall(serverValidators, name, methodName, args, id);
    Server.MissingMethodReply(name, methods, methods, serverValidators, popped);
    WithErrorKeepsFields(Reply(Some(Str(id)), MissingMethod, "Missing Method", None), error);
  }

  /** Two calls in flight to the same method with different ids: the reply
      to the first lands on its own list and never on the list the second
      caller waits on. */
  lemma NoCrossWiring(serverValidators: Validators, methods: map<string, Server.Handler>, name: string,
                      methodName: string, args1: seq<Json>, args2: seq<Json>, id1: string, id2: string)
    requires id1 != id2
    requires !serverValidators(methodName, RpcObject(id1, methodName, Arr(args1))).Failed?
    ensures ServerAnswer(serverValidators, methods, name, methodName, args1, id1).Some?
    ensures ServerAnswer(serverValidators, methods, name, methodName, args1, id1).value.channel
         == Client.Request(name, methodName, Arr(args1), id1).responseChannel
    ensures ServerAnswer(serverValidators, methods, name, methodName, args1, id1).value.channel
         != Client.Request(name, methodName, Arr(args2), id2).responseChannel
  {
    ServerSeesClientCall(serverValidators, name, methodName, args1, id1);
    DistinctIdsDistinctChannels(name, methodName, id1, id2);
  }

  /** The test script: a server "rpc-test" with an `add` handler that sums
      two numbers, no validators, and a client that calls it through invoke
      and through call; both resolve to the sums. */
  lemma TestScriptScenario(add: Server.Handler, id1: string, id2: string)
    requires add([Num(23), Num(31)]) == Server.Returned(Some(Num(54)))
    requires add([Num(123), Num(456)]) == Server.Returned(Some(Num(579)))
    ensures
      var none: Validators := (m, v) => NoValidator;
      var methods := map["add" := add];
      var a1 := ServerAnswer(none, methods, "rpc-test", "add", [Num(23), Num(31)], id1);
      var a2 := ServerAnswer(none, methods, "rpc-test", "add", [Num(123), Num(456)], id2);
      && a1.Some? && a2.Some?
      && Client.Invoke(none, "rpc-test", "add")([Num(23), Num(31)], id1, Some(Parsed(a1.value.value))).1
           == Client.Success(Some(Num(54)))
      && Client.Call(none, "rpc-test", "add", [Num(123), Num(456)], id2, Some(Parsed(a2.value.value))).1
           == Client.Success(Some(Num(579)))
  {
    var none: Validators := (m, v) => NoValidator;
    var methods := map["add" := add];
    ReturnedValueReachesCaller(none, none, methods, "rpc-test", "add", [Num(23), Num(31)], id1, Some(Num(54)), None);
    ReturnedValueReachesCaller(none, none, methods, "rpc-test", "add", [Num(123), Num(456)], id2, Some(Num(579)), None);
    Client.InvokeIsCall(none, "rpc-test", "add", [Num(23), Num(31)], id1,
                        Some(Parsed(ReplyObject(Reply(Some(Str(id1)), OK, "OK", Some(Num(54)))))));
  }
}
