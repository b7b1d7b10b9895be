/**
 * The USSD session: a key/value store kept per session id by the gateway's session
 * handlers. Values are JSON in the source; the model keeps one store per value type
 * (routes as strings, forms as records, cached offering groupings).
 */
module Sessions {
  import opened Wrappers

  class Store<V> {
    var data: map<string, V>
    /** Whether `end` was called on the session. */
    var ended: bool

    constructor(initial: map<string, V>)
      ensures data == initial && !ended
    {
      data := initial;
      ended := false;
    }

    /** The value under `key` as the session returns it, or nothing. */
    function Lookup(key: string): (v: Option<V>)
      reads this
      ensures v.Some? <==> key in data
      ensures v.Some? ==> v.value == data[key]
    {
      if key in data then Some(data[key]) else None
    }

    method Get(key: string) returns (v: Option<V>)
      ensures v == Lookup(key)
    {
      v := Lookup(key);
    }

    method Set(key: string, value: V)
      modifies this
      ensures data == old(data)[key := value]
      ensures ended == old(ended)
    {
      data := data[key := value];
    }

    method End()
      modifies this
      ensures data == old(data) && ended
    {
      ended := true;
    }
  }
}
