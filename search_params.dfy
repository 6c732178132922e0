/**
 * The part of the browser's `URLSearchParams` the request functions use: an
 * ordered list of name/value pairs, changed in place by `append` and `set`.
 * Percent-encoding and `toString()` are not modelled.
 */
module SearchParams {
  import opened Wrappers

  type Pair = (string, string)

  /** The names of the entries, in order. */
  function Names(es: seq<Pair>): (ns: seq<string>)
    ensures |ns| == |es|
    ensures forall i :: 0 <= i < |es| ==> ns[i] == es[i].0
  {
    if es == [] then [] else [es[0].0] + Names(es[1..])
  }

  /** `params.get(name)`: the value of the first entry with that name. */
  function Lookup(es: seq<Pair>, name: string): (v: Option<string>)
    ensures v.None? <==> name !in Names(es)
  {
    if es == [] then None
    else if es[0].0 == name then Some(es[0].1)
    else Lookup(es[1..], name)
  }

  /** The entries whose name is not `name`, in order. */
  function Without(es: seq<Pair>, name: string): (r: seq<Pair>)
    ensures name !in Names(r)
    ensures |r| <= |es|
  {
    if es == [] then []
    else if es[0].0 == name then Without(es[1..], name)
    else [es[0]] + Without(es[1..], name)
  }

  /** The first entry named `name` gets `value`; the later ones are removed. */
  function ReplaceFirst(es: seq<Pair>, name: string, value: string): (r: seq<Pair>)
    requires name in Names(es)
    ensures Lookup(r, name) == Some(value)
  {
    if es[0].0 == name then [(name, value)] + Without(es[1..], name)
    else
      var r := [es[0]] + ReplaceFirst(es[1..], name, value);
      assert r[1..] == ReplaceFirst(es[1..], name, value);
      r
  }

  /**
   * `params.set(name, value)`: afterwards `get(name)` is `value`; on a list
   * without `name` the pair goes at the end.
   */
  function SetEntry(es: seq<Pair>, name: string, value: string): (r: seq<Pair>)
    ensures Lookup(r, name) == Some(value)
    ensures name !in Names(es) ==> r == es + [(name, value)]
  {
    if name in Names(es) then ReplaceFirst(es, name, value)
    else
      LookupAppend(es, [(name, value)], name);
      es + [(name, value)]
  }

  lemma NamesAppend(a: seq<Pair>, b: seq<Pair>)
    ensures Names(a + b) == Names(a) + Names(b)
  {
  }

  lemma {:induction false} LookupAppend(a: seq<Pair>, b: seq<Pair>, name: string)
    ensures Lookup(a + b, name) == if name in Names(a) then Lookup(a, name) else Lookup(b, name)
  {
    if a != [] {
      assert (a + b)[1..] == a[1..] + b;
      LookupAppend(a[1..], b, name);
    } else {
      assert a + b == b;
    }
  }

  lemma {:induction false} WithoutAppend(a: seq<Pair>, b: seq<Pair>, name: string)
    ensures Without(a + b, name) == Without(a, name) + Without(b, name)
  {
    if a != [] {
      assert (a + b)[1..] == a[1..] + b;
      WithoutAppend(a[1..], b, name);
    } else {
      assert a + b == b;
    }
  }

  lemma {:induction false} WithoutAbsent(es: seq<Pair>, name: string)
    requires name !in Names(es)
    ensures Without(es, name) == es
  {
    if es != [] {
      WithoutAbsent(es[1..], name);
    }
  }

  lemma {:induction false} ReplaceFirstMeaning(es: seq<Pair>, name: string, value: string)
    requires name in Names(es)
    ensures Lookup(ReplaceFirst(es, name, value), name) == Some(value)
    ensures Without(ReplaceFirst(es, name, value), name) == Without(es, name)
    ensures |ReplaceFirst(es, name, value)| == |Without(es, name)| + 1
  {
    var r := ReplaceFirst(es, name, value);
    if es[0].0 == name {
      var rest := Without(es[1..], name);
      WithoutAbsent(rest, name);
      assert r == [(name, value)] + rest;
      assert r[1..] == rest;
    } else {
      ReplaceFirstMeaning(es[1..], name, value);
      assert r[1..] == ReplaceFirst(es[1..], name, value);
    }
  }

  /**
   * After `set`, exactly one entry carries `name`, `get(name)` is `value`,
   * the other entries are unchanged and in order, and on a list without
   * `name` the pair is appended.
   */
  lemma SetEntryMeaning(es: seq<Pair>, name: string, value: string)
    ensures Lookup(SetEntry(es, name, value), name) == Some(value)
    ensures Without(SetEntry(es, name, value), name) == Without(es, name)
    ensures |SetEntry(es, name, value)| == |Without(es, name)| + 1
    ensures name !in Names(es) ==> SetEntry(es, name, value) == es + [(name, value)]
  {
    if name in Names(es) {
      ReplaceFirstMeaning(es, name, value);
    } else {
      var r := es + [(name, value)];
      LookupAppend(es, [(name, value)], name);
      WithoutAppend(es, [(name, value)], name);
      WithoutAbsent(es, name);
      assert [(name, value)][1..] == [];
    }
  }

  /** A `URLSearchParams` object. */
  class Params {
    var entries: seq<Pair>

    /** `new URLSearchParams()` */
    constructor Empty()
      ensures entries == []
    {
      entries := [];
    }

    /** `new URLSearchParams({ k1: v1, ... })`: one entry per property, in order. */
    constructor FromRecord(pairs: seq<Pair>)
      ensures entries == pairs
    {
      entries := pairs;
    }

    /** `params.append(name, value)` */
    method Append(name: string, value: string)
      modifies this
      ensures entries == old(entries) + [(name, value)]
    {
      entries := entries + [(name, value)];
    }

    /** `params.set(name, value)` */
    method Set(name: string, value: string)
      modifies this
      ensures entries == SetEntry(old(entries), name, value)
    {
      entries := SetEntry(entries, name, value);
    }
  }
}
