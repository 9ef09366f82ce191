/** Small value types shared by the whole model: the optional value that stands for a
    Java reference that may be null, identifier names, and the insertion-ordered table
    that models a `LinkedHashMap<String, V>`. */
module Base {

  /** Identifiers and type names; the parser's tokens are reduced to their text. */
  type Name = string

  /** `None` models a Java `null`. */
  datatype Option<+T> = None | Some(value: T)

  /** A `LinkedHashMap<String, V>`: the keys in insertion order, and the bindings. */
  datatype Table<V> = Table(keys: seq<Name>, entries: map<Name, V>) {

    /** Keys are distinct and are exactly the bound names. */
    ghost predicate Valid() {
      && (forall i, j :: 0 <= i < j < |keys| ==> keys[i] != keys[j])
      && (forall n :: n in entries <==> n in keys)
    }

    /** The bound names are the names in the iteration order. */
    lemma LemmaKeySet()
      requires Valid()
      ensures entries.Keys == set n | n in keys
    {
    }

    /** `containsKey`. */
    predicate Has(n: Name) {
      n in entries
    }

    /** `get`: the binding of `n`, or null. */
    function Get(n: Name): (r: Option<V>)
      ensures r.Some? <==> n in entries
      ensures r.Some? ==> r.value == entries[n]
    {
      if n in entries then Some(entries[n]) else None
    }

    /** `put` of a name that is not yet bound: it is appended to the iteration order. */
    function Put(n: Name, v: V): (r: Table<V>)
      requires Valid() && n !in entries
      ensures r.Valid()
      ensures r.keys == keys + [n] && r.entries == entries[n := v]
    {
      Table(keys + [n], entries[n := v])
    }
  }

  /** The empty table, as a fresh `new LinkedHashMap<>()`. */
  function EmptyTable<V>(): (t: Table<V>)
    ensures t.Valid() && t.keys == [] && forall n :: t.Get(n) == None
  {
    Table([], map[])
  }

  /** Diagnostics are appended in several steps; the grouping does not matter. */
  lemma LemmaAppendAssoc<T>(a: seq<T>, b: seq<T>, c: seq<T>)
    ensures (a + b) + c == a + (b + c)
  {
  }
}
