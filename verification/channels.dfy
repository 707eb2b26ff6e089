/** Redis list names. All calls to one service share the request list
    `NanoRPCs:<name>`; the reply to one call goes to its own list
    `NanoRPCs:<name>:<method>:<id>`, built the same way by the client that
    waits on it and the server that writes to it. */
module Channels {
  import opened Js

  const Namespace: string := "NanoRPCs"

  /** The list every call to service `name` is pushed to. */
  function RequestChannel(name: string): string
  {
    Namespace + ":" + name
  }

  /** The list the reply to call `id` of `method` on service `name` goes to. */
  function ResponseChannel(name: string, methodName: string, id: string): string
  {
    RequestChannel(name) + ":" + methodName + ":" + id
  }

  /** Splits s at its first colon, when it has one. */
  function Cut(s: string): Option<(string, string)>
  {
    var i := IndexOf(s, ':');
    if i == |s| then None else Some((s[..i], s[i + 1..]))
  }

  /** Cutting a + ":" + b, when a has no colon, gives a and b back. */
  lemma CutRoundTrip(a: string, b: string)
    requires ':' !in a
    ensures Cut(a + [':'] + b) == Some((a, b))
  {
    var s := a + [':'] + b;
    IndexOfAfter(a, ':', b);
    assert s[..|a|] == a;
    assert s[|a| + 1..] == b;
  }

  /** Reads service, method and id back from a response list name: the
      service ends at the first colon after the namespace, the method at
      the next one, and the id is the rest. */
  function ParseResponseChannel(ch: string): Option<(string, string, string)>
  {
    var p := Namespace + ":";
    if |ch| < |p| || ch[..|p|] != p then None
    else
      match Cut(ch[|p|..])
      case None => None
      case Some((service, tail)) =>
        match Cut(tail)
        case None => None
        case Some((methodName, id)) => Some((service, methodName, id))
  }

  /** When neither the service nor the method name contains a colon, the
      response list name determines all three parts. */
  lemma ResponseChannelRoundTrip(name: string, methodName: string, id: string)
    requires ':' !in name && ':' !in methodName
    ensures ParseResponseChannel(ResponseChannel(name, methodName, id)) == Some((name, methodName, id))
  {
    var p := Namespace + ":";
    var tail := methodName + [':'] + id;
    var rest := name + [':'] + tail;
    var ch := ResponseChannel(name, methodName, id);
    assert ch == p + rest;
    assert ch[..|p|] == p && ch[|p|..] == rest;
    CutRoundTrip(name, tail);
    CutRoundTrip(methodName, id);
  }

  /** Hence two calls with colon-free service and method names share a
      response list only when service, method and id all agree. */
  lemma ResponseChannelInjective(n1: string, m1: string, i1: string, n2: string, m2: string, i2: string)
    requires ':' !in n1 && ':' !in m1 && ':' !in n2 && ':' !in m2
    ensures ResponseChannel(n1, m1, i1) == ResponseChannel(n2, m2, i2) ==> n1 == n2 && m1 == m2 && i1 == i2
  {
    ResponseChannelRoundTrip(n1, m1, i1);
    ResponseChannelRoundTrip(n2, m2, i2);
  }

  /** For one service and method, distinct call ids always give distinct
      response lists, whatever characters the names contain. */
  lemma DistinctIdsDistinctChannels(name: string, methodName: string, id1: string, id2: string)
    ensures id1 != id2 ==> ResponseChannel(name, methodName, id1) != ResponseChannel(name, methodName, id2)
  {
    var p := ResponseChannel(name, methodName, "");
    assert ResponseChannel(name, methodName, id1) == p + id1;
    assert ResponseChannel(name, methodName, id2) == p + id2;
    assert (p + id1)[|p|..] == id1;
    assert (p + id2)[|p|..] == id2;
  }

  /** Names are joined without escaping, so a colon inside a service or
      method name lets two different calls share a response list. */
  lemma ColonNamesCollide()
    ensures ResponseChannel("a:b", "c", "1") == ResponseChannel("a", "b:c", "1")
  {
  }

  /** A server never answers on its own request list: every response list
      of a service is longer than that service's request list. */
  lemma ResponseIsNotRequest(name: string, methodName: string, id: string)
    ensures |ResponseChannel(name, methodName, id)| > |RequestChannel(name)|
    ensures ResponseChannel(name, methodName, id) != RequestChannel(name)
  {
  }
}
