# nanorpc-redis, modelled in Dafny

nanorpc-redis is a small RPC layer on Redis lists. A client pushes a call
`{id, method, arguments}` to the service's request list `NanoRPCs:<name>`
and blocks on the call's own response list `NanoRPCs:<name>:<method>:<id>`.
A server pops calls from the request list, checks them, runs the handler
registered for the method and pushes a reply `{id, status, message,
result}` to that response list. The client turns the reply into the
handler's result or a coded error.

The model covers the decision logic of the three core files:

- `js.dfy` (module `Js`): the JSON values that cross the wire, property
  reads, `??`, the text a template literal `${v}` makes of a value, decimal
  integer text with its parser, and `join`/`split`.
- `base.dfy` (module `Base`): the `NanoRPCStatus` and `NanoRPCErrCode`
  enumerations with their wire numbers, and the connection-ownership guard
  of `NanoRPCBase` as pure step functions and as the classes `Redis` and
  `RpcBase`.
- `lists.dfy` (module `Lists`): the Redis lists both sides talk through, as
  the class `Store` with `RPush`.
- `channels.dfy` (module `Channels`): request and response list names, their
  parser, and when they identify a call.
- `envelope.dfy` (module `Envelope`): the call and reply records, their
  JSON objects and decoders, and a validator's verdict.
- `server.dfy` (module `Server`): how a handler's outcome becomes a reply;
  the pure per-message decision of the loop in `run`; the loop's pushes over
  a finite stream of pops; and the class `RpcServer` whose `On` grows the
  method registry and whose `Process`/`Serve` push the replies.
- `client.dfy` (module `Client`): `apply` as the exchange it makes and the
  pure interpretation of what it pops; `call` and `invoke` on top of it.
- `protocol.dfy` (module `Protocol`): a client call followed through a
  server and back.

Redis, the clock and the call library are inputs: a pop is an
`Option<Payload>` (None for an empty pop, `Unparsable` when JSON.parse
throws), the id `createNanoRPC` draws is a parameter, and the validator
registry is a function from method name and decoded value to a verdict.
`createNanoReply` is a record constructor with fields `id`, `status`,
`message` and `result`; any `error` field the library adds is a parameter
of the client lemmas (`WithError`), never a claim.

`src/server.ts:16` imports `NanoRPCCode`, which `src/base.ts` does not
define; its members `OK`, `Exception` and `MissingMethod` are modelled as
the `NanoRPCStatus` values 0, 1 and 2. A duplicate registration fails with
a plain error (no `DuplicateMethod` code), and the missing-method reply
carries only a status and a message (no `MethodNotFound` code).

## Model

| member | source | states |
|---|---|---|
| Base.StatusValue | src/base.ts:15-19 | each status's wire number is below 3 |
| Base.StatusRoundTrip | src/base.ts:15-19 | OK, Exception and MissingMethod are 0, 1 and 2, and a status and its number determine each other |
| Base.ErrCodeValue | src/base.ts:21-25 | every error code is negative, between -3 and -1 |
| Base.ErrCodeRoundTrip | src/base.ts:21-25 | DuplicateMethod, MethodNotFound and CallError are -1, -2 and -3, pairwise distinct, and none is a status number |
| Base.RpcBase.constructor | src/base.ts:32-42 | the object owns the connection (maintenance) exactly when built from a URL; then it holds a fresh, unconnected client for that URL, otherwise the injected client itself |
| Base.RpcBase.Connect | src/base.ts:44-48 | the client is opened only when owned and not ready; otherwise nothing changes |
| Base.RpcBase.Close | src/base.ts:50-54 | the client is quit only when owned and ready; otherwise nothing changes |
| Base.InjectedUntouched | src/base.ts:44-54 | any sequence of connect and close calls leaves an injected client exactly as it was |
| Base.OwnedStaysBalanced | src/base.ts:44-54 | on an owned client, opens and quits alternate under any sequence of connect and close calls |
| Base.OwnedConnectClose | src/base.ts:44-54 | an owned client is ready after connect and not ready after close |
| Lists.Pushed | src/server.ts:45-48 | RPUSH appends to the named list and leaves every other list unchanged |
| Lists.Store.RPush | src/server.ts:45-48 | the store's lists become those with the value appended to the named list |
| Js.IntTextRoundTrip | src/server.ts:107 | the decimal text of an integer id reads back as that integer |
| Js.TextInjectiveOnKind | src/server.ts:107 | two numeric ids, or two string ids, share a text only when equal |
| Js.StringAndNumberShareText | src/server.ts:107 | the id "5" and the id 5 give the same text |
| Js.SplitJoin | src/client.ts:45-48 | splitting the joined violation lines at the newline gives the lines back when none holds one |
| Channels.ResponseChannelRoundTrip | src/server.ts:107 | with colon-free service and method names, the response list name reads back as service, method and id |
| Channels.ResponseChannelInjective | src/client.ts:27 | with colon-free names, two calls share a response list only when service, method and id agree |
| Channels.DistinctIdsDistinctChannels | src/client.ts:27 | for one service and method, distinct ids give distinct response lists |
| Channels.ColonNamesCollide | src/server.ts:46 | a colon in a service or method name lets two different calls share a response list |
| Channels.ResponseIsNotRequest | src/server.ts:80 | a response list is never the service's request list |
| Envelope.DecodeRpc | src/server.ts:87-91 | a payload is a call exactly when it is an object whose `method` is a string, and the call names that method |
| Envelope.RpcRoundTrip | src/client.ts:23-26 | the server reads back the id, method and arguments the client put in the call |
| Envelope.ReplyRoundTrip | src/server.ts:43-47 | decoding the JSON object of a reply gives the same reply |
| Envelope.WithErrorKeepsFields | src/client.ts:56-63 | an `error` field added to a reply leaves its status and result as they were |
| Server.Spread | src/server.ts:41 | an array argument list spreads into its items and a string into its characters; anything else is not iterable |
| Server.HandlerReply | src/server.ts:40-63 | the reply answers the call's own id; OK with message "OK" and the value exactly when the handler returned, Exception with the thrown value's message and no result exactly when it threw |
| Server.Classify | src/server.ts:80-118 | a popped value is discarded exactly when it is not an accepted call; an accepted call to an unregistered method gets a MissingMethod reply with "Missing Method" on its response list; any other goes to its registered handler (registry of own names, see "## Left out") |
| Server.Step | src/server.ts:40-118 | a push happens exactly when the popped value is an accepted call; it goes to the list built from the server name, the method and the call's id, and the reply there answers that id |
| Server.DiscardedWithoutReply | src/server.ts:82-97 | empty, unparsable, method-less and validator-rejected payloads produce no push |
| Server.MissingMethodReply | src/server.ts:99-111 | an accepted call to an unregistered method gets exactly one MissingMethod reply on its response list, whatever handlers are registered |
| Server.DispatchedCallReply | src/server.ts:39-63 | an accepted call to a registered method gets exactly one push: its handler's reply on its response list |
| Server.ThrownMessageOnWire | src/server.ts:49-58 | the Exception reply a throwing handler gets decodes with no result and, as message, the thrown string itself, an Error's message, or the template-literal text of anything else |
| Server.OutboxAtMostOnePerPop | src/server.ts:79-126 | the loop makes at most one push per popped value |
| Server.AcceptedCallsAllAnswered | src/server.ts:79-126 | when every popped value is an accepted call, every one of them is answered |
| Server.OutboxAvoidsRequestChannel | src/server.ts:79-126 | no push of the loop goes to the service's own request list |
| Server.InheritedNameRejected | src/server.ts:35-37 | as written, registering "toString" or "constructor" on an empty server is refused |
| Server.InheritedNameSwallowed | src/server.ts:99-118 | as written, a call to the unregistered "toString" is dispatched to no handler and nothing is pushed; with own names only it gets its MissingMethod reply |
| Server.AsWrittenAgreesOffPrototype | src/server.ts:99-118 | the as-written and the own-name registry give the same push for every call except one to an inherited name nobody registered |
| Server.RpcServer.constructor | src/server.ts:24-29 | a new server has the given name, an empty registry and a base that owns its client exactly when given a URL |
| Server.RpcServer.On | src/server.ts:31-73 | a registered name is refused with "<method> method already registered" and nothing changes; a new name is added with its handler, every earlier name kept, and the server itself returned (own names only, see "## Left out") |
| Server.RpcServer.Process | src/server.ts:80-125 | one loop iteration changes the lists exactly by the push its step makes |
| Server.RpcServer.Serve | src/server.ts:79-126 | the first iterations of the loop change the lists exactly by the pushes for the popped values, in pop order |
| Client.Interpret | src/client.ts:33-63 | an empty pop fails with CallError and "received null message"; a validator failure fails with CallError and the violation lines; the result is returned exactly when the reply parsed, passed its validator and has status OK; every coded error's message starts with `Call <name>:<method> ` |
| Client.StatusFailure | src/client.ts:56-61 | a non-null reply that passes its validator and is not OK fails; its code is the error's code unless missing or null (then CallError), and independently its message is the prefix and the error's message (its text) unless missing or null (then "unknown error") |
| Client.StatusFailureDefaults | src/client.ts:56-61 | no `error` field gives CallError and "unknown error"; an error with a code and no message keeps the code and says "unknown error" |
| Client.ViolationReportLines | src/client.ts:42-54 | a validation failure's message holds, after the prefix, one `keyword: instancePath, message` line per violation |
| Client.Request | src/client.ts:23-28 | the call goes to the service's request list and the reply is awaited on the response list the server derives from that call's method and id |
| Client.InvokeIsCall | src/client.ts:66-76 | call passes its arguments to apply as the params, and invoke's function behaves as call |
| Protocol.ServerSeesClientCall | src/client.ts:23-26 | a server accepts the call a client pushed as that same id, method and arguments |
| Protocol.ReturnedValueReachesCaller | src/server.ts:40-48 | a handler's returned value is pushed to the list the client waits on and the client's call resolves to it |
| Protocol.ThrownErrorReachesCaller | src/server.ts:49-63 | a handler's thrown value is pushed as an Exception reply to the list the client waits on and the client's call fails with the `Call <name>:<method> ` prefix |
| Protocol.MissingMethodReachesCaller | src/server.ts:99-111 | a call to an unregistered method is answered on the list the client waits on and the client's call fails |
| Protocol.NoCrossWiring | src/client.ts:27 | with two calls in flight under different ids, the reply to one never lands on the other's list |
| Protocol.TestScriptScenario | src/index.test.ts:22-38 | with an add handler on "rpc-test", invoke(23, 31) and call(123, 456) resolve to 54 and 579 |

Helpers without a row are covered by the rows above:
`Client.Apply`, `Client.Call` and `Client.Invoke` (src/client.ts:21-76) by
`Client.Request`, `Client.Interpret` and `Client.InvokeIsCall`;
`Client.ReplyErrorCode`, `Client.ReplyErrorMessage`, `Client.ErrorField`
and `Js.OrElse` (src/client.ts:58-59) by `Client.StatusFailure`;
`Server.CallHandler` (src/server.ts:41) by `Server.Spread`,
`Server.DispatchedCallReply` and `Server.ThrownMessageOnWire`;
`Server.ErrorMessage` (src/server.ts:53-57) by
`Server.ThrownMessageOnWire`; `Server.Accepted` (src/server.ts:82-97) by
`Server.Classify` and `Server.DiscardedWithoutReply`;
`Server.RegisteredAsWritten` and `Server.StepAsWritten` (src/server.ts:35,
99-118) by `Server.InheritedNameRejected`,
`Server.InheritedNameSwallowed` and `Server.AsWrittenAgreesOffPrototype`.

## Left out

- Redis I/O: `blPop` and `rPush` are the pops given to `Serve` and the
  `Store` class; network failures and `rPush` rejections are not modelled.
- `withRedis` in `src/db.ts` (duplicating, connecting and disconnecting a
  connection) is not part of this model.
- Concurrency: the EventEmitter dispatch, awaiting handler promises, the
  async-mutex queued mode and the parallel push and pop in `Promise.all`
  are not modelled; `Serve` runs the iterations one after the other, the
  order the queued mode enforces.
- Server.RpcServer.Serve: covers the first iterations of the endless loop in
  `run`, for any finite stream of pops; the loop itself never ends and has
  no shutdown.
- JSON text: a payload is the value JSON.parse produces, or the fact that
  it threw; a reply is the value JSON.stringify would encode.
- Numbers are integers only; floating point, NaN and their text are left
  out.
- Server.RpcServer.On: the class and its loop (`On`, `Classify`, `Step`,
  `Process`, `Serve`) use the corrected registry of own names described
  under "## Findings": `On("toString", h)` succeeds and a call to an
  unregistered Object.prototype name gets a MissingMethod reply, where the
  source refuses the first and answers the second with nothing. The
  registry test as written is modelled only by `Server.RegisteredAsWritten`
  and `Server.StepAsWritten`.
- Js.Get: reads own fields only; a call or reply object with an own
  `toString` or similar key, and reads of inherited properties, are not
  modelled.
- Handlers are functions from arguments to an outcome; their side effects
  and the time they take are not modelled.
- The id `createNanoRPC` draws, the validator library and its `errors`
  list, and any `error` field `createNanoReply` adds are inputs.
- Client.Apply: `apply` called with no params (`arguments` undefined on the
  server) is modelled on the server side by `Server.Spread`, not on the
  client side, which always sends the params it is given.
- Server.Spread: error messages for a non-iterable argument list use one
  fixed V8 wording.
- Client.Interpret: the exceptions that are not coded errors (JSON.parse
  failing, a `null` reply) are a `Fault` kind without their message.

## Findings

| source | as written | input that shows it | evidently intended | confidence | as-written member | corrected member |
|---|---|---|---|---|---|---|
| src/server.ts:35 | `method in this.methods` on a plain `{}` also finds inherited Object.prototype names | `on("toString", f)` on a server with nothing registered throws "toString method already registered" | only names registered with `on` count | not executed | Server.InheritedNameRejected | Server.RpcServer.On |
| src/server.ts:99 | `rpc.method in this.methods` lets a call to an inherited name through to `emit`, which has no listener for it | a call `{"id": "1", "method": "toString", "arguments": []}` to a server with nothing registered gets no reply, so its caller waits forever; in queued mode the loop then blocks at `waitForUnlock` | a MissingMethod reply on the call's response list | not executed | Server.InheritedNameSwallowed | Server.MissingMethodReply |
