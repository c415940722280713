/** What `DataFrame.groupby(key)` does to the keys of a table: one group per
    distinct key, groups in ascending key order (pandas sorts group keys by
    default), and each group holding the rows with that key. String keys are
    ordered as Python orders `str`: lexicographically by code point. */
module Grouping {

  /** Python's `a < b` on strings. */
  predicate StrLess(a: string, b: string)
    decreases |a|
  {
    if |a| == 0 then |b| > 0
    else if |b| == 0 then false
    else if a[0] < b[0] then true
    else a[0] == b[0] && StrLess(a[1..], b[1..])
  }

  lemma {:induction false} StrLessIrreflexive(a: string)
    ensures !StrLess(a, a)
    decreases |a|
  {
    if |a| > 0 {
      StrLessIrreflexive(a[1..]);
    }
  }

  lemma {:induction false} StrLessTransitive(a: string, b: string, c: string)
    requires StrLess(a, b) && StrLess(b, c)
    ensures StrLess(a, c)
    decreases |a|
  {
    if |a| > 0 && a[0] == b[0] && b[0] == c[0] {
      StrLessTransitive(a[1..], b[1..], c[1..]);
    }
  }

  lemma {:induction false} StrLessTotal(a: string, b: string)
    requires a != b
    ensures StrLess(a, b) || StrLess(b, a)
    decreases |a|
  {
    if |a| > 0 && |b| > 0 && a[0] == b[0] {
      assert a == [a[0]] + a[1..] && b == [b[0]] + b[1..];
      StrLessTotal(a[1..], b[1..]);
    }
  }

  /** Keys in strictly ascending order, hence pairwise distinct. */
  ghost predicate StrictlySorted(ks: seq<string>)
  {
    forall i, j :: 0 <= i < j < |ks| ==> StrLess(ks[i], ks[j])
  }

  ghost predicate Distinct<T>(s: seq<T>)
  {
    forall i, j :: 0 <= i < j < |s| ==> s[i] != s[j]
  }

  lemma SortedIsDistinct(ks: seq<string>)
    requires StrictlySorted(ks)
    ensures Distinct(ks)
  {
    forall i, j | 0 <= i < j < |ks| ensures ks[i] != ks[j] {
      StrLessIrreflexive(ks[i]);
    }
  }

  /** Adds one key to a sorted key list, keeping it sorted and duplicate-free. */
  function InsertKey(k: string, ks: seq<string>): (r: seq<string>)
    requires StrictlySorted(ks)
    ensures StrictlySorted(r)
    ensures forall x :: x in r <==> x == k || x in ks
  {
    if |ks| == 0 then [k]
    else if k == ks[0] then ks
    else if StrLess(k, ks[0]) then
      assert StrictlySorted([k] + ks) by {
        forall j | 0 <= j < |ks| ensures StrLess(k, ks[j]) {
          if j > 0 { StrLessTransitive(k, ks[0], ks[j]); }
        }
      }
      [k] + ks
    else
      var rest := InsertKey(k, ks[1..]);
      StrLessTotal(k, ks[0]);
      assert StrictlySorted([ks[0]] + rest) by {
        forall j | 0 <= j < |rest| ensures StrLess(ks[0], rest[j]) {
          assert rest[j] in rest;
        }
      }
      [ks[0]] + rest
  }

  /** The group keys of a key column, in the order groupby presents them. */
  function GroupKeys(keys: seq<string>): (r: seq<string>)
    ensures StrictlySorted(r)
    ensures forall x :: x in r <==> x in keys
  {
    if |keys| == 0 then []
    else
      var r := InsertKey(keys[|keys| - 1], GroupKeys(keys[..|keys| - 1]));
      assert forall x :: x in keys <==> x in keys[..|keys| - 1] || x == keys[|keys| - 1] by {
        assert keys == keys[..|keys| - 1] + [keys[|keys| - 1]];
      }
      r
  }

  /** Number of rows whose key is k: the size of group k. */
  function Count<T(==)>(keys: seq<T>, k: T): (n: nat)
    ensures n <= |keys|
    ensures n > 0 <==> k in keys
  {
    if |keys| == 0 then 0
    else
      assert keys == keys[..|keys| - 1] + [keys[|keys| - 1]];
      Count(keys[..|keys| - 1], k) + (if keys[|keys| - 1] == k then 1 else 0)
  }

  lemma CountSnoc<T>(keys: seq<T>, x: T, k: T)
    ensures Count(keys + [x], k) == Count(keys, k) + (if x == k then 1 else 0)
  {
    assert (keys + [x])[..|keys|] == keys;
  }

  /** Total size of the groups listed in gs. */
  function SumCounts<T(==)>(gs: seq<T>, keys: seq<T>): nat
  {
    if |gs| == 0 then 0 else Count(keys, gs[0]) + SumCounts(gs[1..], keys)
  }

  function Occurrences<T(==)>(gs: seq<T>, x: T): nat
  {
    if |gs| == 0 then 0 else (if gs[0] == x then 1 else 0) + Occurrences(gs[1..], x)
  }

  lemma {:induction false} SumCountsSnoc<T>(gs: seq<T>, keys: seq<T>, x: T)
    ensures SumCounts(gs, keys + [x]) == SumCounts(gs, keys) + Occurrences(gs, x)
  {
    if |gs| > 0 {
      SumCountsSnoc(gs[1..], keys, x);
      assert (keys + [x])[..|keys + [x]| - 1] == keys;
    }
  }

  lemma {:induction false} OccursOnce<T>(gs: seq<T>, x: T)
    requires Distinct(gs) && x in gs
    ensures Occurrences(gs, x) == 1
  {
    if gs[0] == x {
      NotOccurring(gs[1..], x);
    } else {
      OccursOnce(gs[1..], x);
    }
  }

  lemma {:induction false} NotOccurring<T>(gs: seq<T>, x: T)
    requires x !in gs
    ensures Occurrences(gs, x) == 0
  {
    if |gs| > 0 {
      NotOccurring(gs[1..], x);
    }
  }

  /** Distinct groups covering every key account for every row exactly once. */
  lemma {:induction false} SumCountsCovering<T>(gs: seq<T>, keys: seq<T>)
    requires Distinct(gs)
    requires forall x :: x in keys ==> x in gs
    ensures SumCounts(gs, keys) == |keys|
  {
    if |keys| == 0 {
      SumCountsEmpty(gs);
    } else {
      var init, last := keys[..|keys| - 1], keys[|keys| - 1];
      assert keys == init + [last];
      SumCountsCovering(gs, init);
      SumCountsSnoc(gs, init, last);
      OccursOnce(gs, last);
    }
  }

  lemma {:induction false} SumCountsEmpty<T>(gs: seq<T>)
    ensures SumCounts(gs, []) == 0
  {
    if |gs| > 0 {
      SumCountsEmpty(gs[1..]);
    }
  }

  /** The groups of a table partition its rows: group sizes add up to the row count. */
  lemma GroupSizesSumToRows(keys: seq<string>)
    ensures SumCounts(GroupKeys(keys), keys) == |keys|
  {
    SortedIsDistinct(GroupKeys(keys));
    SumCountsCovering(GroupKeys(keys), keys);
  }

  // ---------------------------------------------------------------------------
  // A key column together with one value column

  /** One row of a grouped frame: its group key and the value being aggregated. */
  datatype Observation = Observation(group: string, value: real)

  function Keys(obs: seq<Observation>): (ks: seq<string>)
    ensures |ks| == |obs|
    ensures forall i :: 0 <= i < |obs| ==> ks[i] == obs[i].group
  {
    seq(|obs|, i requires 0 <= i < |obs| => obs[i].group)
  }

  /** The values of group g, in row order. */
  function GroupValues(obs: seq<Observation>, g: string): (vs: seq<real>)
  {
    if |obs| == 0 then []
    else GroupValues(obs[..|obs| - 1], g) + (if obs[|obs| - 1].group == g then [obs[|obs| - 1].value] else [])
  }

  /** A group has as many values as the key column has rows with its key. */
  lemma {:induction false} GroupValuesCount(obs: seq<Observation>, g: string)
    ensures |GroupValues(obs, g)| == Count(Keys(obs), g)
  {
    if |obs| > 0 {
      GroupValuesCount(obs[..|obs| - 1], g);
      assert Keys(obs)[..|obs| - 1] == Keys(obs[..|obs| - 1]);
    }
  }

  lemma {:induction false} GroupValuesMembership(obs: seq<Observation>, g: string, v: real)
    ensures v in GroupValues(obs, g) <==> Observation(g, v) in obs
  {
    if |obs| > 0 {
      GroupValuesMembership(obs[..|obs| - 1], g, v);
      assert obs == obs[..|obs| - 1] + [obs[|obs| - 1]];
    }
  }
}
