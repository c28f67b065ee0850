/**
 * `InMemoryContext` (cafe/context/memory.py): the context store the model adapters read and
 * write, a dict from string keys to arbitrary values.
 */
module Memory {
  import opened Py

  class InMemoryContext {
    /** `self._store`. */
    var store: map<string, Value>

    constructor()
      ensures store == map[]
    {
      store := map[];
    }

    /** `get_data`: the value stored under `key`, or None when nothing was. */
    function GetData(key: string): (v: Value)
      reads this
      ensures key in store ==> v == store[key]
      ensures key !in store ==> v == Null
    {
      Get(store, key)
    }

    /** `set_data`: store `value` under `key`, replacing what was there. */
    method SetData(key: string, value: Value)
      modifies this
      ensures store == old(store)[key := value]
      ensures GetData(key) == value
      ensures forall other | other != key :: GetData(other) == old(GetData(other))
    {
      store := store[key := value];
    }
  }

  /**
   * A fresh context answers None for every key; after `set_data(k, v)` it answers `v` for `k`
   * and None elsewhere; a second `set_data(k, w)` replaces `v` by `w`.
   */
  method SetGetScenario(k: string, other: string, v: Value, w: Value)
    returns (before: Value, first: Value, second: Value, elsewhere: Value)
    requires other != k
    ensures before == Null && first == v && second == w && elsewhere == Null
  {
    var ctx := new InMemoryContext();
    before := ctx.GetData(k);
    ctx.SetData(k, v);
    first := ctx.GetData(k);
    ctx.SetData(k, w);
    second := ctx.GetData(k);
    elsewhere := ctx.GetData(other);
  }
}
