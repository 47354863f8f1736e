/**
 * A Python dict keyed by strings: a finite map together with the insertion
 * order that `dict.items()` and `len` observe.
 */
module Dicts {

  datatype Dict<V> = Dict(keys: seq<string>, entries: map<string, V>) {

    /** The keys are distinct and are exactly the map's domain. */
    ghost predicate Valid() {
      && Distinct(keys)
      && (forall k :: k in entries <==> k in keys)
    }

    /** `d[k] = v`: a new key goes to the end, an existing key keeps its place. */
    function Put(k: string, v: V): (d: Dict<V>)
      requires Valid()
      ensures d.Valid()
      ensures d.entries == entries[k := v]
      ensures d.keys == if k in entries then keys else keys + [k]
    {
      if k in entries then Dict(keys, entries[k := v])
      else
        DistinctSnoc(keys, k);
        Dict(keys + [k], entries[k := v])
    }

    /** `len(d)`. */
    function Size(): nat {
      |keys|
    }
  }

  /** `s[i]`, named so that facts about distinct keys are used only where a proof mentions a position. */
  function At(s: seq<string>, i: nat): (k: string)
    requires i < |s|
    ensures k in s
  {
    s[i]
  }

  /** No key occurs twice. */
  ghost predicate Distinct(s: seq<string>) {
    forall i, j :: 0 <= i < j < |s| ==> At(s, i) != At(s, j)
  }

  /** Appending a key not yet present keeps the keys distinct. */
  lemma DistinctSnoc(s: seq<string>, k: string)
    requires Distinct(s) && k !in s
    ensures Distinct(s + [k])
  {
    var t := s + [k];
    forall i, j | 0 <= i < j < |t| ensures At(t, i) != At(t, j) {
      if j < |s| {
        assert At(s, i) != At(s, j);
      }
    }
  }

  /** The last of distinct keys is not among the others, which are distinct in turn. */
  lemma DistinctLast(s: seq<string>)
    requires Distinct(s) && s != []
    ensures s[|s| - 1] !in s[..|s| - 1]
    ensures Distinct(s[..|s| - 1])
  {
    var init := s[..|s| - 1];
    forall i | 0 <= i < |init| ensures init[i] != s[|s| - 1] {
      assert At(s, i) != At(s, |s| - 1);
    }
    forall i, j | 0 <= i < j < |init| ensures At(init, i) != At(init, j) {
      assert At(s, i) != At(s, j);
    }
  }

  /** The keys among `keys` that `entries` maps, in order. */
  function KeysIn<V>(keys: seq<string>, entries: map<string, V>): (r: seq<string>)
    ensures forall k :: k in r ==> k in keys && k in entries
    decreases |keys|
  {
    if keys == [] then []
    else
      var init := KeysIn(keys[..|keys| - 1], entries);
      if keys[|keys| - 1] in entries then init + [keys[|keys| - 1]] else init
  }

  /** When every key is mapped, none is filtered out. */
  lemma {:induction false} KeysInAll<V>(keys: seq<string>, entries: map<string, V>)
    requires forall k :: k in keys ==> k in entries
    ensures KeysIn(keys, entries) == keys
    decreases |keys|
  {
    if keys != [] {
      var init := keys[..|keys| - 1];
      assert forall k :: k in init ==> k in keys;
      KeysInAll(init, entries);
      assert keys == init + [keys[|keys| - 1]];
    }
  }

  /** `{}`. */
  function Empty<V>(): (d: Dict<V>)
    ensures d.Valid() && d.keys == [] && d.entries == map[]
  {
    Dict([], map[])
  }
}
