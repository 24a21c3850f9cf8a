/**
 * The browser's `window.localStorage`: a string-to-string table shared by
 * every part of the renderer. It is the one piece of global mutable state
 * the store and the web platform both update in place.
 */
module Browser {
  import opened Wrappers

  /** `localStorage.getItem(key)` on a snapshot of the table. */
  function Lookup(items: map<string, string>, key: string): Option<string> {
    if key in items then Some(items[key]) else None
  }

  predicate Distinct<T(==)>(xs: seq<T>) {
    forall i, j :: 0 <= i < j < |xs| ==> xs[i] != xs[j]
  }

  class LocalStorage {
    var items: map<string, string>

    constructor (initial: map<string, string>)
      ensures items == initial
    {
      items := initial;
    }

    method GetItem(key: string) returns (r: Option<string>)
      ensures r == Lookup(items, key)
    {
      r := if key in items then Some(items[key]) else None;
    }

    method SetItem(key: string, value: string)
      modifies this
      ensures items == old(items)[key := value]
    {
      items := items[key := value];
    }

    method RemoveItem(key: string)
      modifies this
      ensures items == old(items) - {key}
    {
      items := items - {key};
    }

    /** `Object.keys(localStorage)`: every key once, in an order the model leaves open. */
    method Keys() returns (keys: seq<string>)
      ensures forall k :: k in keys <==> k in items
      ensures Distinct(keys)
    {
      keys := [];
      var rest := items.Keys;
      while rest != {}
        invariant rest <= items.Keys
        invariant forall k :: k in keys <==> k in items && k !in rest
        invariant Distinct(keys)
        decreases rest
      {
        var k :| k in rest;
        keys := keys + [k];
        rest := rest - {k};
      }
    }
  }
}
