/** What client and server share: the reply status and error-code
    enumerations, and the base object that owns (or borrows) a Redis
    connection and decides when it may open or close it. */
module Base {
  import opened Js

  /* ---------------------------------------------------------------------
     Enumerations.
     --------------------------------------------------------------------- */

  /** The outcome class a reply carries in its `status` field. */
  datatype Status = OK | Exception | MissingMethod

  /** The numeric value each status has on the wire. */
  function StatusValue(s: Status): (v: nat)
    ensures v < 3
  {
    match s
    case OK => 0
    case Exception => 1
    case MissingMethod => 2
  }

  /** The status a wire number stands for, if any. */
  function StatusOf(v: int): Option<Status>
  {
    if v == 0 then Some(OK)
    else if v == 1 then Some(Exception)
    else if v == 2 then Some(MissingMethod)
    else None
  }

  /** Each status and its wire number determine each other. */
  lemma StatusRoundTrip(s: Status, v: int)
    ensures StatusOf(StatusValue(s)) == Some(s)
    ensures StatusOf(v) == Some(s) <==> v == StatusValue(s)
  {
  }

  /** The code a failure carries. */
  datatype ErrCode = DuplicateMethod | MethodNotFound | CallError

  /** The numeric value of each error code: all negative, so never a status. */
  function ErrCodeValue(c: ErrCode): (v: int)
    ensures -3 <= v < 0
  {
    match c
    case DuplicateMethod => -1
    case MethodNotFound => -2
    case CallError => -3
  }

  function ErrCodeOf(v: int): Option<ErrCode>
  {
    if v == -1 then Some(DuplicateMethod)
    else if v == -2 then Some(MethodNotFound)
    else if v == -3 then Some(CallError)
    else None
  }

  /** Each error code and its number determine each other, so the three
      codes are pairwise distinct; and no code is a status number. */
  lemma ErrCodeRoundTrip(c: ErrCode, v: int)
    ensures ErrCodeOf(ErrCodeValue(c)) == Some(c)
    ensures ErrCodeOf(v) == Some(c) <==> v == ErrCodeValue(c)
    ensures StatusOf(ErrCodeValue(c)) == None
  {
  }

  /* ---------------------------------------------------------------------
     Connection ownership.
     --------------------------------------------------------------------- */

  /** What the base object can observe of its Redis client: whether it is
      ready, and how many times it has been opened and quit. */
  datatype Conn = Conn(ready: bool, opens: nat, quits: nat)

  /** `connect()`: opens the client only when the object owns it and it is
      not ready yet. */
  function AfterConnect(owned: bool, c: Conn): Conn
  {
    if owned && !c.ready then Conn(true, c.opens + 1, c.quits) else c
  }

  /** `close()`: quits the client only when the object owns it and it is
      ready. */
  function AfterClose(owned: bool, c: Conn): Conn
  {
    if owned && c.ready then Conn(false, c.opens, c.quits + 1) else c
  }

  datatype Op = Connect | Close

  /** A sequence of connect/close calls on one base object. */
  function RunOps(owned: bool, c: Conn, ops: seq<Op>): Conn
    decreases |ops|
  {
    if |ops| == 0 then c
    else
      var next := if ops[0].Connect? then AfterConnect(owned, c) else AfterClose(owned, c);
      RunOps(owned, next, ops[1..])
  }

  /** An injected client is never opened or closed by the object, whatever
      it calls. */
  lemma {:induction false} InjectedUntouched(c: Conn, ops: seq<Op>)
    ensures RunOps(false, c, ops) == c
    decreases |ops|
  {
    if |ops| > 0 {
      InjectedUntouched(c, ops[1..]);
    }
  }

  /** Opens and quits alternate: a client is opened only while closed and
      quit only while open. */
  ghost predicate Balanced(c: Conn)
  {
    c.quits <= c.opens <= c.quits + 1 && (c.ready <==> c.opens == c.quits + 1)
  }

  /** An owned client that starts balanced (a fresh one is) stays balanced
      under any sequence of connect and close calls. */
  lemma {:induction false} OwnedStaysBalanced(c: Conn, ops: seq<Op>)
    requires Balanced(c)
    ensures Balanced(RunOps(true, c, ops))
    decreases |ops|
  {
    if |ops| > 0 {
      var next := if ops[0].Connect? then AfterConnect(true, c) else AfterClose(true, c);
      OwnedStaysBalanced(next, ops[1..]);
    }
  }

  /** An owned client is ready after connect and not ready after close. */
  lemma OwnedConnectClose(c: Conn)
    ensures AfterConnect(true, c).ready
    ensures !AfterClose(true, c).ready
  {
  }

  /** A Redis client (db.ts): a connection that can be opened and quit. */
  class Redis {
    const url: string
    var isReady: bool
    var opens: nat
    var quits: nat

    /** createRedis(url): a client that is not connected yet. */
    constructor (url: string)
      ensures this.url == url
      ensures State() == Conn(false, 0, 0)
    {
      this.url := url;
      isReady := false;
      opens := 0;
      quits := 0;
    }

    function State(): Conn
      reads this
    {
      Conn(isReady, opens, quits)
    }

    method Open()
      modifies this
      ensures State() == Conn(true, old(opens) + 1, old(quits))
    {
      isReady := true;
      opens := opens + 1;
    }

    method Quit()
      modifies this
      ensures State() == Conn(false, old(opens), old(quits) + 1)
    {
      isReady := false;
      quits := quits + 1;
    }
  }

  /** The constructor argument: a URL to create a client from, or a client
      created elsewhere. */
  datatype RedisOrUrl = Url(url: string) | Client(redis: Redis)

  /** The part of client and server that owns the Redis connection. */
  class RpcBase {
    const redis: Redis
    /** True when this object created the client and so may open and close it. */
    const maintenance: bool

    constructor (source: RedisOrUrl)
      ensures maintenance <==> source.Url?
      ensures source.Client? ==> redis == source.redis
      ensures source.Url? ==> fresh(redis) && redis.url == source.url && redis.State() == Conn(false, 0, 0)
    {
      if source.Url? {
        redis := new Redis(source.url);
        maintenance := true;
      } else {
        redis := source.redis;
        maintenance := false;
      }
    }

    method Connect()
      modifies redis
      ensures redis.State() == AfterConnect(maintenance, old(redis.State()))
    {
      if maintenance && !redis.isReady {
        redis.Open();
      }
    }

    method Close()
      modifies redis
      ensures redis.State() == AfterClose(maintenance, old(redis.State()))
    {
      if maintenance && redis.isReady {
        redis.Quit();
      }
    }
  }
}
