/**
 * The browser's local key/value store, reduced to what the widget keeps in
 * it: one screen position per key. Serialising the position as JSON is not
 * modelled, so a stored entry is always a well-formed position.
 */
module PositionStore {
  import opened Geometry
  import opened Wrappers

  class Storage {
    var items: map<string, Vec>

    constructor (initial: map<string, Vec>)
      ensures items == initial
    {
      items := initial;
    }

    /** `getItem`: the position stored under `key`, if any. */
    function Get(key: string): Option<Vec>
      reads this
    {
      if key in items then Some(items[key]) else None
    }

    /** `setItem`: stores `p` under `key`; a later `Get(key)` reads it back. */
    method Set(key: string, p: Vec)
      modifies this
      ensures items == old(items)[key := p]
      ensures Get(key) == Some(p)
      ensures forall k :: k != key ==> Get(k) == old(Get(k))
    {
      items := items[key := p];
    }
  }

  /** The position a widget starts at: the saved one, or the widget's default. */
  function Restore(saved: Option<Vec>, default: Vec): (p: Vec)
    ensures saved.Some? ==> p == saved.value
    ensures saved.None? ==> p == default
  {
    match saved
    case Some(q) => q
    case None => default
  }
}
