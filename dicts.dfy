/** Python's `dict` with string keys: an insertion-ordered sequence of entries.
    Assigning to a key already present replaces its value where it stands;
    assigning a new key appends it. The order is the order in which the
    parameters are written into the query string. */
module Dicts {
  import opened Wrappers

  type Dict<V> = seq<(string, V)>

  function Keys<V>(d: Dict<V>): set<string>
  {
    set i | 0 <= i < |d| :: d[i].0
  }

  /** No key occurs twice: every dictionary the program builds has this shape. */
  ghost predicate Distinct<V>(d: Dict<V>)
  {
    forall i, j :: 0 <= i < j < |d| ==> d[i].0 != d[j].0
  }

  lemma KeysCons<V>(d: Dict<V>)
    requires d != []
    ensures Keys(d) == {d[0].0} + Keys(d[1..])
  {
    forall j | j in Keys(d) && j != d[0].0 ensures j in Keys(d[1..]) {
      var i :| 0 <= i < |d| && d[i].0 == j;
      assert d[1..][i - 1].0 == j;
    }
    forall j | j in Keys(d[1..]) ensures j in Keys(d) {
      var i :| 0 <= i < |d[1..]| && d[1..][i].0 == j;
      assert d[i + 1].0 == j;
    }
  }

  /** `d.get(k)`: the value of the first entry with key `k`. */
  function Get<V>(d: Dict<V>, k: string): Option<V>
  {
    if d == [] then None
    else if d[0].0 == k then Some(d[0].1)
    else Get(d[1..], k)
  }

  /** A key has a value exactly when it is one of the dictionary's keys. */
  lemma {:induction false} GetKeys<V>(d: Dict<V>, k: string)
    ensures Get(d, k).Some? <==> k in Keys(d)
  {
    if d != [] {
      KeysCons(d);
      GetKeys(d[1..], k);
    }
  }

  /** In a dictionary without repeated keys, each entry is what `Get` finds. */
  lemma {:induction false} GetAt<V>(d: Dict<V>, i: nat)
    requires Distinct(d) && i < |d|
    ensures Get(d, d[i].0) == Some(d[i].1)
  {
    if i > 0 {
      assert d[1..][i - 1] == d[i];
      GetAt(d[1..], i - 1);
    }
  }

  /** `d[k] = v`. */
  function Put<V>(d: Dict<V>, k: string, v: V): Dict<V>
  {
    if d == [] then [(k, v)]
    else if d[0].0 == k then [(k, v)] + d[1..]
    else [d[0]] + Put(d[1..], k, v)
  }

  /** After `d[k] = v`, `k` maps to `v` and every other key to what it mapped to before. */
  lemma {:induction false} PutGet<V>(d: Dict<V>, k: string, v: V)
    ensures Get(Put(d, k, v), k) == Some(v)
    ensures forall j :: j != k ==> Get(Put(d, k, v), j) == Get(d, j)
  {
    if d != [] {
      var r := Put(d, k, v);
      if d[0].0 == k {
        assert r[1..] == d[1..];
      } else {
        assert r[1..] == Put(d[1..], k, v);
        PutGet(d[1..], k, v);
      }
    }
  }

  /** Assigning a new key appends it; assigning an existing one keeps the keys. */
  lemma {:induction false} PutShape<V>(d: Dict<V>, k: string, v: V)
    ensures Keys(Put(d, k, v)) == Keys(d) + {k}
    ensures k !in Keys(d) ==> Put(d, k, v) == d + [(k, v)]
  {
    if d != [] {
      KeysCons(d);
      var r := Put(d, k, v);
      if d[0].0 == k {
        assert r[0].0 == k && r[1..] == d[1..];
        KeysCons(r);
      } else {
        PutShape(d[1..], k, v);
        assert r[0] == d[0] && r[1..] == Put(d[1..], k, v);
        KeysCons(r);
        if k !in Keys(d) {
          assert d == [d[0]] + d[1..];
        }
      }
    } else {
      var r := Put(d, k, v);
      KeysCons(r);
      assert Keys(r[1..]) == {};
    }
  }

  /** Assigning a key already present changes only its value, in place. */
  lemma {:induction false} PutInPlace<V>(d: Dict<V>, k: string, v: V)
    requires k in Keys(d)
    ensures |Put(d, k, v)| == |d|
    ensures forall i :: 0 <= i < |d| ==> Put(d, k, v)[i].0 == d[i].0
  {
    KeysCons(d);
    if d[0].0 != k {
      PutInPlace(d[1..], k, v);
    }
  }

  /** Assignment never repeats a key. */
  lemma PutDistinct<V>(d: Dict<V>, k: string, v: V)
    requires Distinct(d)
    ensures Distinct(Put(d, k, v))
  {
    PutShape(d, k, v);
    if k in Keys(d) {
      PutInPlace(d, k, v);
    }
  }

  /** `{**a, **b}`: the entries of `a`, then those of `b`, a key of `b` overriding `a`'s. */
  function Merge<V>(a: Dict<V>, b: Dict<V>): Dict<V>
    decreases |b|
  {
    if b == [] then a else Merge(Put(a, b[0].0, b[0].1), b[1..])
  }

  /** In the merge a key takes its value from `b` when `b` has it, and from `a` otherwise. */
  lemma {:induction false} MergeGet<V>(a: Dict<V>, b: Dict<V>)
    requires Distinct(b)
    ensures forall k :: Get(Merge(a, b), k) == if Get(b, k).Some? then Get(b, k) else Get(a, k)
    decreases |b|
  {
    if b != [] {
      KeysCons(b);
      PutGet(a, b[0].0, b[0].1);
      MergeGet(Put(a, b[0].0, b[0].1), b[1..]);
      GetKeys(b[1..], b[0].0);
    }
  }

  lemma {:induction false} MergeShape<V>(a: Dict<V>, b: Dict<V>)
    ensures Keys(Merge(a, b)) == Keys(a) + Keys(b)
    ensures Distinct(a) ==> Distinct(Merge(a, b))
    decreases |b|
  {
    if b != [] {
      KeysCons(b);
      PutShape(a, b[0].0, b[0].1);
      if Distinct(a) {
        PutDistinct(a, b[0].0, b[0].1);
      }
      MergeShape(Put(a, b[0].0, b[0].1), b[1..]);
    }
  }

  /** The value a present-or-absent entry stands for once `None` entries are dropped. */
  function Join<V>(o: Option<Option<V>>): Option<V>
  {
    if o.Some? then o.value else None
  }

  /** `{k: v for k, v in d.items() if v is not None}`. */
  function Present<V>(d: Dict<Option<V>>): Dict<V>
  {
    if d == [] then []
    else if d[0].1.Some? then [(d[0].0, d[0].1.value)] + Present(d[1..])
    else Present(d[1..])
  }

  /** Dropping the absent entries keeps no other key and repeats none; each key
      keeps its value when present. */
  lemma {:induction false} PresentGet<V>(d: Dict<Option<V>>)
    requires Distinct(d)
    ensures Keys(Present(d)) <= Keys(d)
    ensures Distinct(Present(d))
    ensures forall k :: Get(Present(d), k) == Join(Get(d, k))
  {
    if d != [] {
      KeysCons(d);
      PresentGet(d[1..]);
      var rest := Present(d[1..]);
      GetKeys(d[1..], d[0].0);
      if d[0].1.Some? {
        var r := Present(d);
        assert r[1..] == rest;
        KeysCons(r);
      }
    }
  }

  /** Filtering the entries one by one: a new last entry survives exactly when it is present. */
  lemma {:induction false} PresentAppend<V>(d: Dict<Option<V>>, k: string, o: Option<V>)
    ensures Present(d + [(k, o)]) == Present(d) + (if o.Some? then [(k, o.value)] else [])
  {
    if d != [] {
      assert (d + [(k, o)])[1..] == d[1..] + [(k, o)];
      PresentAppend(d[1..], k, o);
    }
  }

  /** Filtering a prefix one entry further: a present entry lands at the end, as a
      fresh assignment; an absent one changes nothing. */
  lemma PresentStep<V>(d: Dict<Option<V>>, i: nat)
    requires Distinct(d) && i < |d|
    ensures Present(d[..i + 1]) ==
      if d[i].1.Some? then Put(Present(d[..i]), d[i].0, d[i].1.value) else Present(d[..i])
  {
    assert d[..i + 1] == d[..i] + [d[i]];
    PresentAppend(d[..i], d[i].0, d[i].1);
    if d[i].1.Some? {
      PresentGet(d[..i]);
      assert d[i].0 !in Keys(d[..i]);
      PutShape(Present(d[..i]), d[i].0, d[i].1.value);
    }
  }
}
