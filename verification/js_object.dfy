/**
 * A JavaScript plain object whose keys and values are strings
 * (`Record<string, string>`), kept as the list of its own properties in
 * insertion order. `Spread(a, b)` is `{ ...a, ...b }` and the list itself is
 * what `Object.entries` returns for keys that are not array indices (the
 * engine lists array-index keys such as "1" first, in numeric order, which
 * this list does not).
 */
module JsObject {
  import opened Wrappers

  datatype Entry = Entry(key: string, value: string)

  type Entries = seq<Entry>

  function Keys(e: Entries): (ks: seq<string>)
    ensures |ks| == |e|
    ensures forall i :: 0 <= i < |e| ==> ks[i] == e[i].key
  {
    if e == [] then [] else [e[0].key] + Keys(e[1..])
  }

  /** A real object never holds the same property twice. */
  predicate DistinctKeys(e: Entries) {
    forall i, j :: 0 <= i < j < |e| ==> e[i].key != e[j].key
  }

  /** `obj[k]`, `undefined` when `k` is not an own property. */
  function Lookup(e: Entries, k: string): (r: Option<string>)
    ensures r.None? <==> k !in Keys(e)
    ensures r.Some? ==> Entry(k, r.value) in e
  {
    if e == [] then None
    else if e[0].key == k then Some(e[0].value)
    else Lookup(e[1..], k)
  }

  /** `obj[k] = v`: an existing property keeps its place, a new one goes last. */
  function Set(e: Entries, k: string, v: string): (r: Entries)
    ensures k in Keys(e) ==> |r| == |e| && Keys(r) == Keys(e)
    ensures k !in Keys(e) ==> r == e + [Entry(k, v)]
  {
    if e == [] then [Entry(k, v)]
    else if e[0].key == k then [Entry(k, v)] + e[1..]
    else [e[0]] + Set(e[1..], k, v)
  }

  /** `{ ...a, ...b }`: the properties of `b`, in order, assigned onto a copy of `a`. */
  function Spread(a: Entries, b: Entries): Entries
    decreases |b|
  {
    if b == [] then a else Spread(Set(a, b[0].key, b[0].value), b[1..])
  }

  /** The keys of `b` that `a` does not have, in `b`'s order. */
  function NewKeys(ks: seq<string>, b: Entries): seq<string>
    decreases |b|
  {
    if b == [] then []
    else if b[0].key in ks then NewKeys(ks, b[1..])
    else [b[0].key] + NewKeys(ks + [b[0].key], b[1..])
  }

  lemma {:induction false} LookupSet(e: Entries, k: string, v: string, q: string)
    ensures Lookup(Set(e, k, v), q) == if q == k then Some(v) else Lookup(e, q)
  {
    if e != [] && e[0].key != k {
      LookupSet(e[1..], k, v, q);
    }
  }

  lemma {:induction false} SetKeepsDistinct(e: Entries, k: string, v: string)
    requires DistinctKeys(e)
    ensures DistinctKeys(Set(e, k, v))
  {
    var r := Set(e, k, v);
    if k in Keys(e) {
      forall i, j | 0 <= i < j < |r| ensures r[i].key != r[j].key {
        assert Keys(r)[i] == Keys(e)[i] && Keys(r)[j] == Keys(e)[j];
      }
    }
  }

  /** Spreading the empty object changes nothing. */
  lemma SpreadEmpty(a: Entries)
    ensures Spread(a, []) == a
  {
  }

  /** `{ ...a, ...b }` is again an object: no key appears twice. */
  lemma {:induction false} SpreadKeepsDistinct(a: Entries, b: Entries)
    requires DistinctKeys(a)
    ensures DistinctKeys(Spread(a, b))
    decreases |b|
  {
    if b != [] {
      SetKeepsDistinct(a, b[0].key, b[0].value);
      SpreadKeepsDistinct(Set(a, b[0].key, b[0].value), b[1..]);
    }
  }

  /**
   * In `{ ...a, ...b }` every key of `b` takes `b`'s value and every other key
   * keeps `a`'s value.
   */
  lemma {:induction false} LookupSpread(a: Entries, b: Entries, q: string)
    requires DistinctKeys(b)
    ensures Lookup(Spread(a, b), q) == if q in Keys(b) then Lookup(b, q) else Lookup(a, q)
    decreases |b|
  {
    if b != [] {
      var a' := Set(a, b[0].key, b[0].value);
      assert DistinctKeys(b[1..]);
      LookupSpread(a', b[1..], q);
      LookupSet(a, b[0].key, b[0].value, q);
      assert Keys(b) == [b[0].key] + Keys(b[1..]);
      if q == b[0].key {
        assert q !in Keys(b[1..]);
      }
    }
  }

  /**
   * Property order of `{ ...a, ...b }`: the keys of `a` in their order, then
   * the keys only `b` has, in `b`'s order.
   */
  lemma {:induction false} KeysSpread(a: Entries, b: Entries)
    ensures Keys(Spread(a, b)) == Keys(a) + NewKeys(Keys(a), b)
    decreases |b|
  {
    if b != [] {
      var a' := Set(a, b[0].key, b[0].value);
      KeysSpread(a', b[1..]);
      if b[0].key in Keys(a) {
        assert Keys(a') == Keys(a);
      } else {
        assert Keys(a') == Keys(a) + [b[0].key] by {
          assert a' == a + [Entry(b[0].key, b[0].value)];
          KeysAppend(a, [Entry(b[0].key, b[0].value)]);
        }
      }
    }
  }

  lemma {:induction false} KeysAppend(a: Entries, b: Entries)
    ensures Keys(a + b) == Keys(a) + Keys(b)
  {
    assert |Keys(a + b)| == |Keys(a) + Keys(b)|;
    forall i | 0 <= i < |a + b| ensures Keys(a + b)[i] == (Keys(a) + Keys(b))[i] {
    }
  }

  /** When every key of `b` is already in `a`, the spread keeps `a`'s property order exactly. */
  lemma KeysSpreadOverridesOnly(a: Entries, b: Entries)
    requires forall i :: 0 <= i < |b| ==> b[i].key in Keys(a)
    ensures Keys(Spread(a, b)) == Keys(a)
  {
    KeysSpread(a, b);
    NewKeysNone(Keys(a), b);
  }

  lemma {:induction false} NewKeysNone(ks: seq<string>, b: Entries)
    requires forall i :: 0 <= i < |b| ==> b[i].key in ks
    ensures NewKeys(ks, b) == []
  {
    if b != [] {
      NewKeysNone(ks, b[1..]);
    }
  }

  /** The keys a spread adds are exactly those of `b` outside `ks`. */
  lemma {:induction false} NewKeysMembers(ks: seq<string>, b: Entries, q: string)
    ensures q in NewKeys(ks, b) <==> q in Keys(b) && q !in ks
    decreases |b|
  {
    if b != [] {
      assert Keys(b) == [b[0].key] + Keys(b[1..]);
      if b[0].key in ks {
        NewKeysMembers(ks, b[1..], q);
      } else {
        NewKeysMembers(ks + [b[0].key], b[1..], q);
      }
    }
  }

  /** Every property of `{ ...a, ...b }` comes, key and value, from `a` or from `b`. */
  lemma {:induction false} SpreadEntriesFrom(a: Entries, b: Entries)
    ensures forall x :: x in Spread(a, b) ==> x in a || x in b
    decreases |b|
  {
    if b != [] {
      var a' := Set(a, b[0].key, b[0].value);
      SetEntriesFrom(a, b[0].key, b[0].value);
      SpreadEntriesFrom(a', b[1..]);
    }
  }

  lemma {:induction false} SetEntriesFrom(e: Entries, k: string, v: string)
    ensures forall x :: x in Set(e, k, v) ==> x in e || x == Entry(k, v)
  {
    if e != [] && e[0].key != k {
      SetEntriesFrom(e[1..], k, v);
    }
  }

  /** Spreading an object onto one it shares no key with appends its properties in order. */
  lemma {:induction false} SpreadDisjoint(a: Entries, b: Entries)
    requires DistinctKeys(b)
    requires forall x :: x in b ==> x.key !in Keys(a)
    ensures Spread(a, b) == a + b
    decreases |b|
  {
    if b != [] {
      var x, rest := b[0], b[1..];
      FreshAfterFirst(a, b);
      var a' := AppendNew(a, x);
      assert Spread(a, b) == Spread(a', rest);
      SpreadDisjoint(a', rest);
      AppendFirst(a, b);
    }
  }

  /** Appending the first entry and then the rest is appending the whole. */
  lemma AppendFirst(a: Entries, b: Entries)
    requires b != []
    ensures (a + [b[0]]) + b[1..] == a + b
  {
    assert b == [b[0]] + b[1..];
  }

  /** After the first property of `b` is appended, the rest of `b` is still new and distinct. */
  lemma FreshAfterFirst(a: Entries, b: Entries)
    requires b != [] && DistinctKeys(b)
    requires forall x :: x in b ==> x.key !in Keys(a)
    ensures b[0].key !in Keys(a)
    ensures DistinctKeys(b[1..])
    ensures forall y :: y in b[1..] ==> y.key !in Keys(a) + [b[0].key]
  {
    assert b[0] in b;
    forall y | y in b[1..] ensures y.key !in Keys(a) + [b[0].key] {
      DistinctTail(b, y);
    }
  }

  /** Setting a key the object lacks appends it. */
  function AppendNew(a: Entries, x: Entry): (r: Entries)
    requires x.key !in Keys(a)
    ensures r == a + [x] == Set(a, x.key, x.value)
    ensures Keys(r) == Keys(a) + [x.key]
  {
    KeysAppend(a, [x]);
    a + [x]
  }

  lemma DistinctTail(b: Entries, y: Entry)
    requires b != [] && DistinctKeys(b) && y in b[1..]
    ensures y.key != b[0].key && y in b
  {
    var i :| 0 <= i < |b[1..]| && b[1..][i] == y;
    assert b[i + 1] == y;
  }
}
