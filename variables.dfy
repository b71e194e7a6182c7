/** The variable dictionaries of the tagger. A .NET Dictionary that is only
    ever added to enumerates its entries in insertion order, and the JSON
    payload is written in that order, so a dictionary is a sequence of
    key/value pairs here; assigning through the indexer replaces the value
    of an existing key in place and appends a new key at the end. */
module Variables {
  import opened Wrappers

  /** A variable's value as the tagger stores it: a null reference, or an
      object whose ToString() is `text`. */
  datatype Value = Null | Object(text: string)

  /** The string a value is sent as: its ToString(), and the empty string
      for null. */
  function AsText(v: Value): string {
    match v
    case Null => ""
    case Object(text) => text
  }

  /** A dictionary's entries in enumeration order. */
  type Dict<V> = seq<(string, V)>

  /** No key occurs twice, as in every dictionary. */
  predicate DistinctKeys<V>(d: Dict<V>) {
    forall i, j :: 0 <= i < j < |d| ==> d[i].0 != d[j].0
  }

  /** TryGetValue: the value stored under `k`, if any. */
  function Lookup<V>(d: Dict<V>, k: string): (r: Option<V>)
    ensures r.Some? ==> exists i :: 0 <= i < |d| && d[i] == (k, r.value)
  {
    if d == [] then None
    else if d[0].0 == k then Some(d[0].1)
    else Lookup(d[1..], k)
  }

  /** The indexer setter `d[k] = v`. */
  function Put<V>(d: Dict<V>, k: string, v: V): Dict<V> {
    if d == [] then [(k, v)]
    else if d[0].0 == k then [(k, v)] + d[1..]
    else [d[0]] + Put(d[1..], k, v)
  }

  /** The copying loop `foreach (item in src) d[item.Key] = item.Value`. */
  function PutAll<V>(d: Dict<V>, src: Dict<V>): Dict<V> {
    if src == [] then d
    else Put(PutAll(d, src[..|src| - 1]), src[|src| - 1].0, src[|src| - 1].1)
  }

  /** Every value converted to the string it is sent as, keys and order kept. */
  function AsTexts(src: Dict<Value>): (r: Dict<string>)
    ensures |r| == |src|
    ensures forall i :: 0 <= i < |src| ==> r[i] == (src[i].0, AsText(src[i].1))
  {
    if src == [] then [] else AsTexts(src[..|src| - 1]) + [(src[|src| - 1].0, AsText(src[|src| - 1].1))]
  }

  /** The dictionary a tracking call sends: the base (global) variables,
      overridden by the persisted variables, overridden by the call's own
      variables; a null dictionary contributes nothing and null values are
      sent as empty strings. */
  function Merged(base: Option<Dict<Value>>, provided: Option<Dict<Value>>, call: Option<Dict<Value>>): Dict<string> {
    PutAll(PutAll(PutAll([], AsTexts(base.GetOr([]))), AsTexts(provided.GetOr([]))), AsTexts(call.GetOr([])))
  }

  /** The first of three optional values that is present. */
  function FirstOf<V>(a: Option<V>, b: Option<V>, c: Option<V>): Option<V> {
    if a.Some? then a else if b.Some? then b else c
  }

  function MapText(v: Option<Value>): Option<string> {
    if v.Some? then Some(AsText(v.value)) else None
  }

  // -----------------------------------------------------------------------
  // Properties of the dictionary operations

  /** After `d[k] = v`, reading `k` gives `v` and every other key reads as before. */
  lemma {:induction false} PutLookup<V>(d: Dict<V>, k: string, v: V, other: string)
    ensures Lookup(Put(d, k, v), k) == Some(v)
    ensures other != k ==> Lookup(Put(d, k, v), other) == Lookup(d, other)
  {
    if d != [] && d[0].0 != k {
      PutLookup(d[1..], k, v, other);
      assert Put(d, k, v)[1..] == Put(d[1..], k, v);
    }
  }

  /** Assigning an existing key keeps every key in its place; a new key is
      appended at the end. */
  lemma {:induction false} PutPlacement<V>(d: Dict<V>, k: string, v: V)
    ensures Lookup(d, k).None? ==> Put(d, k, v) == d + [(k, v)]
    ensures Lookup(d, k).Some? ==> |Put(d, k, v)| == |d| && forall i :: 0 <= i < |d| ==> Put(d, k, v)[i].0 == d[i].0
  {
    if d != [] && d[0].0 != k {
      PutPlacement(d[1..], k, v);
      assert Put(d, k, v) == [d[0]] + Put(d[1..], k, v);
      if Lookup(d, k).None? {
        assert d == [d[0]] + d[1..];
      } else {
        forall i | 1 <= i < |d| ensures Put(d, k, v)[i].0 == d[i].0 {
          assert Put(d, k, v)[i] == Put(d[1..], k, v)[i - 1];
        }
      }
    }
  }

  /** A key not in `d` reads as absent from every part of it. */
  lemma LookupAbsent<V>(d: Dict<V>, k: string)
    requires forall i :: 0 <= i < |d| ==> d[i].0 != k
    ensures Lookup(d, k) == None
  {
  }

  /** Reading a dictionary with one more entry at its end. */
  lemma {:induction false} LookupSnoc<V>(d: Dict<V>, x: (string, V), k: string)
    ensures Lookup(d + [x], k) == if Lookup(d, k).Some? then Lookup(d, k) else if x.0 == k then Some(x.1) else None
  {
    if d != [] {
      assert (d + [x])[1..] == d[1..] + [x];
      LookupSnoc(d[1..], x, k);
    }
  }

  /** Copying a dictionary of distinct keys into `d`: every key of `src`
      reads as in `src`, every other key as in `d`. */
  lemma {:induction false} PutAllLookup<V>(d: Dict<V>, src: Dict<V>, k: string)
    requires DistinctKeys(src)
    ensures Lookup(PutAll(d, src), k) == if Lookup(src, k).Some? then Lookup(src, k) else Lookup(d, k)
  {
    if src != [] {
      var init := src[..|src| - 1];
      var x := src[|src| - 1];
      assert src == init + [x];
      PutAllLookup(d, init, k);
      PutLookup(PutAll(d, init), x.0, x.1, k);
      LookupSnoc(init, x, k);
      if x.0 == k {
        LookupAbsent(init, k);
      }
    }
  }

  /** Converting values keeps keys, so it keeps them distinct, and reads
      convert the same way. */
  lemma {:induction false} AsTextsLookup(src: Dict<Value>, k: string)
    ensures DistinctKeys(src) ==> DistinctKeys(AsTexts(src))
    ensures Lookup(AsTexts(src), k) == MapText(Lookup(src, k))
  {
    if src != [] {
      var init := src[..|src| - 1];
      var x := src[|src| - 1];
      assert src == init + [x];
      AsTextsLookup(init, k);
      LookupSnoc(init, x, k);
      LookupSnoc(AsTexts(init), (x.0, AsText(x.1)), k);
    }
  }

  /** A call's variables take precedence over the persisted ones, which take
      precedence over the base variables; a key none of them holds is not
      sent. */
  lemma MergePrecedence(base: Option<Dict<Value>>, provided: Option<Dict<Value>>, call: Option<Dict<Value>>, k: string)
    requires DistinctKeys(base.GetOr([])) && DistinctKeys(provided.GetOr([])) && DistinctKeys(call.GetOr([]))
    ensures Lookup(Merged(base, provided, call), k) ==
      MapText(FirstOf(Lookup(call.GetOr([]), k), Lookup(provided.GetOr([]), k), Lookup(base.GetOr([]), k)))
  {
    var b := AsTexts(base.GetOr([]));
    var p := AsTexts(provided.GetOr([]));
    var c := AsTexts(call.GetOr([]));
    AsTextsLookup(base.GetOr([]), k);
    AsTextsLookup(provided.GetOr([]), k);
    AsTextsLookup(call.GetOr([]), k);
    PutAllLookup([], b, k);
    PutAllLookup(PutAll([], b), p, k);
    PutAllLookup(PutAll(PutAll([], b), p), c, k);
  }

  /** Assigning keeps the keys of a dictionary distinct. */
  lemma {:induction false} PutKeepsDistinct<V>(d: Dict<V>, k: string, v: V)
    requires DistinctKeys(d)
    ensures DistinctKeys(Put(d, k, v))
  {
    PutPlacement(d, k, v);
    var r := Put(d, k, v);
    if Lookup(d, k).None? {
      forall i | 0 <= i < |d| ensures d[i].0 != k {
        if d[i].0 == k {
          LookupFinds(d, i);
          assert false;
        }
      }
    }
  }

  /** A key at some position of `d` is found. */
  lemma {:induction false} LookupFinds<V>(d: Dict<V>, i: nat)
    requires i < |d|
    ensures Lookup(d, d[i].0).Some?
  {
    if i > 0 && d[0].0 != d[i].0 {
      LookupFinds(d[1..], i - 1);
    }
  }

  /** Copying keeps the keys of a dictionary distinct, so the merged
      dictionary holds each key once. */
  lemma {:induction false} PutAllKeepsDistinct<V>(d: Dict<V>, src: Dict<V>)
    requires DistinctKeys(d)
    ensures DistinctKeys(PutAll(d, src))
  {
    if src != [] {
      PutAllKeepsDistinct(d, src[..|src| - 1]);
      PutKeepsDistinct(PutAll(d, src[..|src| - 1]), src[|src| - 1].0, src[|src| - 1].1);
    }
  }
}
