/** The lists of the Redis server client and server talk through, and
    RPUSH on them. */
module Lists {
  import opened Js

  /** The items of a list; a missing key is an empty list. */
  function Items(lists: map<string, seq<Json>>, key: string): seq<Json>
  {
    if key in lists then lists[key] else []
  }

  /** RPUSH key value: appends to that one list and leaves every other alone. */
  function Pushed(lists: map<string, seq<Json>>, key: string, value: Json): (r: map<string, seq<Json>>)
    ensures r.Keys == lists.Keys + {key}
    ensures Items(r, key) == Items(lists, key) + [value]
    ensures forall k :: k != key ==> Items(r, k) == Items(lists, k)
  {
    lists[key := Items(lists, key) + [value]]
  }

  /** The lists of the Redis server both sides talk to. Payloads are kept as
      the values JSON.stringify encodes. */
  class Store {
    var lists: map<string, seq<Json>>

    constructor ()
      ensures lists == map[]
    {
      lists := map[];
    }

    method RPush(key: string, value: Json)
      modifies this
      ensures lists == Pushed(old(lists), key, value)
    {
      lists := Pushed(lists, key, value);
    }
  }
}
