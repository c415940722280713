/** Frame helpers: box-plot statistics per group (Tukey fences, in-fence
    extremes and outliers), histogram binning on integer values with a positive
    integer bin width, and string normalisation. */
module AmtkFrame {
  import opened Common
  import opened Grouping

  // ---------------------------------------------------------------------------
  // aggregate_data

  /** The quartiles `describe` reports for a group ("25%" and "75%"). */
  datatype Quartiles = Quartiles(q25: real, q75: real)

  /** One row of the aggregated frame. */
  datatype BoxStats = BoxStats(
    group: string,
    count: nat,
    q25: real,
    q75: real,
    iqr: real,
    minFence: real,          // "min_"
    maxFence: real,          // "max_"
    lower: real,
    upper: real,
    outliers: seq<real>)

  /** The values strictly outside [lo, hi], in order. */
  function Outliers(vs: seq<real>, lo: real, hi: real): (r: seq<real>)
    ensures |r| <= |vs|
  {
    if |vs| == 0 then []
    else
      var v := vs[|vs| - 1];
      Outliers(vs[..|vs| - 1], lo, hi) + (if v < lo || v > hi then [v] else [])
  }

  /** The values inside [lo, hi], in order. */
  function Within(vs: seq<real>, lo: real, hi: real): (r: seq<real>)
    ensures |r| <= |vs|
  {
    if |vs| == 0 then []
    else
      var v := vs[|vs| - 1];
      Within(vs[..|vs| - 1], lo, hi) + (if lo <= v <= hi then [v] else [])
  }

  lemma {:induction false} OutliersMembership(vs: seq<real>, lo: real, hi: real, x: real)
    ensures x in Outliers(vs, lo, hi) <==> x in vs && (x < lo || x > hi)
  {
    if |vs| > 0 {
      OutliersMembership(vs[..|vs| - 1], lo, hi, x);
      assert vs == vs[..|vs| - 1] + [vs[|vs| - 1]];
    }
  }

  lemma {:induction false} WithinMembership(vs: seq<real>, lo: real, hi: real, x: real)
    ensures x in Within(vs, lo, hi) <==> x in vs && lo <= x <= hi
  {
    if |vs| > 0 {
      WithinMembership(vs[..|vs| - 1], lo, hi, x);
      assert vs == vs[..|vs| - 1] + [vs[|vs| - 1]];
    }
  }

  /** Every value of a group is either an outlier or inside the fences, never
      both: the two lists split the group's values between them. */
  lemma {:induction false} OutliersPartition(vs: seq<real>, lo: real, hi: real)
    ensures |Outliers(vs, lo, hi)| + |Within(vs, lo, hi)| == |vs|
    ensures forall x :: x in vs ==> (x in Outliers(vs, lo, hi) <==> x !in Within(vs, lo, hi))
  {
    if |vs| > 0 {
      OutliersPartition(vs[..|vs| - 1], lo, hi);
    }
    forall x | x in vs
      ensures x in Outliers(vs, lo, hi) <==> x !in Within(vs, lo, hi)
    {
      OutliersMembership(vs, lo, hi, x);
      WithinMembership(vs, lo, hi, x);
    }
  }

  /** A group whose values all lie inside the fences has no outliers. */
  lemma {:induction false} NoOutliers(vs: seq<real>, lo: real, hi: real)
    ensures Outliers(vs, lo, hi) == [] <==> forall v :: v in vs ==> lo <= v <= hi
  {
    if Outliers(vs, lo, hi) != [] {
      var x := Outliers(vs, lo, hi)[0];
      OutliersMembership(vs, lo, hi, x);
    } else {
      forall v | v in vs
        ensures lo <= v <= hi
      {
        OutliersMembership(vs, lo, hi, v);
      }
    }
  }

  /** x is the least value of vs that is at least lo. */
  ghost predicate IsLower(x: real, vs: seq<real>, lo: real)
  {
    x in vs && lo <= x && forall v :: v in vs && lo <= v ==> x <= v
  }

  /** x is the greatest value of vs that is at most hi. */
  ghost predicate IsUpper(x: real, vs: seq<real>, hi: real)
  {
    x in vs && x <= hi && forall v :: v in vs && v <= hi ==> v <= x
  }

  /** What `describe` guarantees of a group's quartiles: they are ordered and lie
      between the group's least and greatest value. */
  ghost predicate Describes(q: Quartiles, vs: seq<real>)
  {
    q.q25 <= q.q75 && (exists v :: v in vs && v <= q.q25) && (exists v :: v in vs && q.q75 <= v)
  }

  /** b is the aggregated row of group g for quartiles q and whisker constant k. */
  ghost predicate IsBoxStats(b: BoxStats, obs: seq<Observation>, g: string, q: Quartiles, k: real)
  {
    var vs := GroupValues(obs, g);
    && b.group == g
    && b.count == Count(Keys(obs), g)
    && b.q25 == q.q25 && b.q75 == q.q75
    && b.iqr == q.q75 - q.q25
    && b.minFence == LowerFence(q, k)
    && b.maxFence == UpperFence(q, k)
    && IsLower(b.lower, vs, b.minFence)
    && IsUpper(b.upper, vs, b.maxFence)
    && b.outliers == Outliers(vs, b.minFence, b.maxFence)
  }

  /** With k >= 0 the fences enclose the quartiles, and the in-fence extremes lie
      within the fences. */
  lemma FencesBracket(b: BoxStats, obs: seq<Observation>, g: string, q: Quartiles, k: real)
    requires IsBoxStats(b, obs, g, q, k) && k >= 0.0 && q.q25 <= q.q75
    ensures b.minFence <= b.q25 <= b.q75 <= b.maxFence
    ensures b.minFence <= b.lower && b.upper <= b.maxFence
    ensures forall v :: v in b.outliers ==> v < b.minFence || v > b.maxFence
  {
    assert k * b.iqr >= 0.0;
    forall v | v in b.outliers
      ensures v < b.minFence || v > b.maxFence
    {
      OutliersMembership(GroupValues(obs, g), b.minFence, b.maxFence, v);
    }
  }

  /** The least value >= lo seen so far (None while there is none). */
  ghost predicate LowerSoFar(m: Option<real>, vs: seq<real>, lo: real)
  {
    (m.None? ==> forall v :: v in vs ==> v < lo) && (m.Some? ==> IsLower(m.value, vs, lo))
  }

  /** The greatest value <= hi seen so far (None while there is none). */
  ghost predicate UpperSoFar(m: Option<real>, vs: seq<real>, hi: real)
  {
    (m.None? ==> forall v :: v in vs ==> v > hi) && (m.Some? ==> IsUpper(m.value, vs, hi))
  }

  /** The running minimum of the values at least lo, after seeing v. */
  function NextLower(m: Option<real>, v: real, lo: real): Option<real>
  {
    if lo <= v && (m.None? || v < m.value) then Some(v) else m
  }

  /** The running maximum of the values at most hi, after seeing v. */
  function NextUpper(m: Option<real>, v: real, hi: real): Option<real>
  {
    if v <= hi && (m.None? || v > m.value) then Some(v) else m
  }

  lemma LowerStep(m: Option<real>, vs: seq<real>, lo: real, v: real)
    requires LowerSoFar(m, vs, lo)
    ensures LowerSoFar(NextLower(m, v, lo), vs + [v], lo)
  {
    assert forall x :: x in vs + [v] <==> x in vs || x == v;
  }

  lemma UpperStep(m: Option<real>, vs: seq<real>, hi: real, v: real)
    requires UpperSoFar(m, vs, hi)
    ensures UpperSoFar(NextUpper(m, v, hi), vs + [v], hi)
  {
    assert forall x :: x in vs + [v] <==> x in vs || x == v;
  }

  lemma GroupValuesStep(obs: seq<Observation>, i: nat, g: string)
    requires i < |obs|
    ensures obs[i].group == g ==> GroupValues(obs[..i + 1], g) == GroupValues(obs[..i], g) + [obs[i].value]
    ensures obs[i].group != g ==> GroupValues(obs[..i + 1], g) == GroupValues(obs[..i], g)
  {
    assert obs[..i + 1][..i] == obs[..i];
    assert GroupValues(obs[..i], g) + [] == GroupValues(obs[..i], g);
  }

  lemma OutliersStep(vs: seq<real>, lo: real, hi: real, v: real)
    ensures v < lo || v > hi ==> Outliers(vs + [v], lo, hi) == Outliers(vs, lo, hi) + [v]
    ensures lo <= v <= hi ==> Outliers(vs + [v], lo, hi) == Outliers(vs, lo, hi)
  {
    assert (vs + [v])[..|vs|] == vs;
    assert Outliers(vs, lo, hi) + [] == Outliers(vs, lo, hi);
  }

  /** One pass over the frame for group g with fences lo and hi: the group's
      count, its in-fence extremes and its outliers in row order. */
  method ScanGroup(obs: seq<Observation>, g: string, lo: real, hi: real)
    returns (count: nat, lower: real, upper: real, outliers: seq<real>)
    requires exists v :: v in GroupValues(obs, g) && lo <= v
    requires exists v :: v in GroupValues(obs, g) && v <= hi
    ensures count == Count(Keys(obs), g)
    ensures IsLower(lower, GroupValues(obs, g), lo)
    ensures IsUpper(upper, GroupValues(obs, g), hi)
    ensures outliers == Outliers(GroupValues(obs, g), lo, hi)
  {
    count := 0;
    var least, greatest: Option<real> := None, None;
    outliers := [];
    var i := 0;
    while i < |obs|
      invariant 0 <= i <= |obs|
      invariant count == |GroupValues(obs[..i], g)|
      invariant outliers == Outliers(GroupValues(obs[..i], g), lo, hi)
      invariant LowerSoFar(least, GroupValues(obs[..i], g), lo)
      invariant UpperSoFar(greatest, GroupValues(obs[..i], g), hi)
    {
      GroupValuesStep(obs, i, g);
      var o := obs[i];
      if o.group == g {
        ghost var before := GroupValues(obs[..i], g);
        OutliersStep(before, lo, hi, o.value);
        LowerStep(least, before, lo, o.value);
        UpperStep(greatest, before, hi, o.value);
        count := count + 1;
        if o.value < lo || o.value > hi {
          outliers := outliers + [o.value];
        }
        least := NextLower(least, o.value, lo);
        greatest := NextUpper(greatest, o.value, hi);
      }
      i := i + 1;
    }
    assert obs[..|obs|] == obs;
    GroupValuesCount(obs, g);
    lower, upper := least.value, greatest.value;
  }

  /** The lower fence, "min_": q25 - k * iqr. */
  function LowerFence(q: Quartiles, k: real): real
  {
    q.q25 - k * (q.q75 - q.q25)
  }

  /** The upper fence, "max_": q75 + k * iqr. */
  function UpperFence(q: Quartiles, k: real): real
  {
    q.q75 + k * (q.q75 - q.q25)
  }

  /** With k >= 0 the fences enclose the quartiles. */
  lemma FencesEncloseQuartiles(q: Quartiles, k: real)
    requires k >= 0.0 && q.q25 <= q.q75
    ensures LowerFence(q, k) <= q.q25 && q.q75 <= UpperFence(q, k)
  {
    assert k * (q.q75 - q.q25) >= 0.0;
  }

  /** The aggregated row of one group: the interquartile range and the fences
      from the quartiles, then the scan of the group's values. */
  method GroupStats(obs: seq<Observation>, g: string, q: Quartiles, k: real) returns (b: BoxStats)
    requires k >= 0.0 && Describes(q, GroupValues(obs, g))
    ensures IsBoxStats(b, obs, g, q, k)
  {
    var lo, hi := LowerFence(q, k), UpperFence(q, k);
    FencesEncloseQuartiles(q, k);
    var count, lower, upper, outliers := ScanGroup(obs, g, lo, hi);
    b := BoxStats(g, count, q.q25, q.q75, q.q75 - q.q25, lo, hi, lower, upper, outliers);
  }

  /** stats[i] is the aggregated row of groups[i], for every row so far. */
  ghost predicate AllBoxStats(stats: seq<BoxStats>, groups: seq<string>, obs: seq<Observation>,
                              quartiles: map<string, Quartiles>, k: real)
  {
    |stats| <= |groups|
    && forall i :: 0 <= i < |stats| ==>
         groups[i] in quartiles && IsBoxStats(stats[i], obs, groups[i], quartiles[groups[i]], k)
  }

  lemma AllBoxStatsStep(stats: seq<BoxStats>, groups: seq<string>, obs: seq<Observation>,
                        quartiles: map<string, Quartiles>, k: real, b: BoxStats)
    requires AllBoxStats(stats, groups, obs, quartiles, k) && |stats| < |groups|
    requires groups[|stats|] in quartiles && IsBoxStats(b, obs, groups[|stats|], quartiles[groups[|stats|]], k)
    ensures AllBoxStats(stats + [b], groups, obs, quartiles, k)
  {
    forall i | 0 <= i < |stats| + 1
      ensures groups[i] in quartiles && IsBoxStats((stats + [b])[i], obs, groups[i], quartiles[groups[i]], k)
    {
      if i < |stats| {
        assert (stats + [b])[i] == stats[i];
      }
    }
  }

  /** aggregate_data with the quartiles given: one row per group, in ascending
      key order, each with its count, fences, in-fence extremes and outliers
      (an empty list for a group without any). */
  method AggregateData(obs: seq<Observation>, quartiles: map<string, Quartiles>, k: real)
    returns (stats: seq<BoxStats>)
    requires k >= 0.0
    requires forall g :: g in Keys(obs) ==> g in quartiles && Describes(quartiles[g], GroupValues(obs, g))
    ensures |stats| == |GroupKeys(Keys(obs))|
    ensures AllBoxStats(stats, GroupKeys(Keys(obs)), obs, quartiles, k)
  {
    var groups := GroupKeys(Keys(obs));
    stats := [];
    while |stats| < |groups|
      invariant AllBoxStats(stats, groups, obs, quartiles, k)
    {
      var g := groups[|stats|];
      assert g in Keys(obs);
      var b := GroupStats(obs, g, quartiles[g], k);
      AllBoxStatsStep(stats, groups, obs, quartiles, k, b);
      stats := stats + [b];
    }
  }

  /** The group counts of the aggregated frame add up to the number of rows. */
  function TotalCount(stats: seq<BoxStats>): nat
  {
    if |stats| == 0 then 0 else stats[0].count + TotalCount(stats[1..])
  }

  lemma {:induction false} TotalCountIsSum(stats: seq<BoxStats>, gs: seq<string>, keys: seq<string>)
    requires |stats| == |gs|
    requires forall i :: 0 <= i < |stats| ==> stats[i].count == Count(keys, gs[i])
    ensures TotalCount(stats) == SumCounts(gs, keys)
  {
    if |stats| > 0 {
      TotalCountIsSum(stats[1..], gs[1..], keys);
    }
  }

  lemma AggregateCountsCoverRows(obs: seq<Observation>, stats: seq<BoxStats>, quartiles: map<string, Quartiles>, k: real)
    requires |stats| == |GroupKeys(Keys(obs))|
    requires AllBoxStats(stats, GroupKeys(Keys(obs)), obs, quartiles, k)
    ensures TotalCount(stats) == |obs|
  {
    TotalCountIsSum(stats, GroupKeys(Keys(obs)), Keys(obs));
    GroupSizesSumToRows(Keys(obs));
  }

  // ---------------------------------------------------------------------------
  // create_bins and bin_data

  /** One row of a frame being binned: its integer value and its "bin" column. */
  datatype Sample = Sample(value: int, bin: int)

  function Values(s: seq<Sample>): (vs: seq<int>)
    ensures |vs| == |s|
    ensures forall i :: 0 <= i < |s| ==> vs[i] == s[i].value
  {
    seq(|s|, i requires 0 <= i < |s| => s[i].value)
  }

  /** `frame[column].min()` */
  function MinOf(vs: seq<int>): (m: int)
    requires |vs| > 0
    ensures m in vs && forall v :: v in vs ==> m <= v
  {
    if |vs| == 1 then vs[0]
    else
      var rest := MinOf(vs[1..]);
      assert forall v :: v in vs ==> v == vs[0] || v in vs[1..];
      if vs[0] <= rest then vs[0] else rest
  }

  /** `frame[column].max()` */
  function MaxOf(vs: seq<int>): (m: int)
    requires |vs| > 0
    ensures m in vs && forall v :: v in vs ==> v <= m
  {
    if |vs| == 1 then vs[0]
    else
      var rest := MaxOf(vs[1..]);
      assert forall v :: v in vs ==> v == vs[0] || v in vs[1..];
      if vs[0] >= rest then vs[0] else rest
  }

  /** Euclidean division by a positive width is floor division. */
  lemma DivBounds(a: int, w: int)
    requires w > 0
    ensures (a / w) * w <= a < (a / w) * w + w
  {
  }

  /** Multiplying by a positive width keeps the order. */
  lemma MulMonotone(a: int, b: int, w: int)
    requires w > 0
    ensures a <= b <==> a * w <= b * w
  {
    if a <= b {
      assert (b - a) * w >= 0;
    } else {
      assert (a - b) * w > 0;
    }
  }

  /** `np.floor(a / w)` for a positive width. */
  function FloorDiv(a: int, w: int): (q: int)
    requires w > 0
    ensures q * w <= a < q * w + w
  {
    DivBounds(a, w);
    a / w
  }

  /** `np.ceil(a / w)` for a positive width. */
  function CeilDiv(a: int, w: int): (q: int)
    requires w > 0
    ensures q * w - w < a <= q * w
  {
    DivBounds(-a, w);
    -((-a) / w)
  }

  /** `np.arange(first * w, (first + n) * w, w)`: n evenly spaced edges, the
      multiples of w from first * w on. */
  function Edges(first: int, n: nat, w: int): (e: seq<int>)
    ensures |e| == n
    ensures forall j :: 0 <= j < n ==> e[j] == (first + j) * w
    ensures w > 0 ==> Increasing(e)
  {
    if n == 0 then []
    else
      var init := Edges(first, n - 1, w);
      var last := (first + n - 1) * w;
      assert w > 0 ==> forall i :: 0 <= i < n - 1 ==> init[i] < last by {
        if w > 0 {
          forall i | 0 <= i < n - 1
            ensures init[i] < last
          {
            MulMonotone(first + n - 1, first + i, w);
          }
        }
      }
      init + [last]
  }

  /** Strictly ascending, as bin edges are. */
  ghost predicate Increasing(xs: seq<int>)
  {
    forall i, j :: 0 <= i < j < |xs| ==> xs[i] < xs[j]
  }

  /** The edges create_bins computes, as written: the multiples of w from
      floor(min/w)*w up to and including ceil(max/w)*w. */
  function BinEdgesAsWritten(lo: int, hi: int, w: int): (e: seq<int>)
    requires w > 0 && lo <= hi
    ensures |e| == CeilDiv(hi, w) - FloorDiv(lo, w) + 1 >= 1
    ensures e[0] <= lo && hi <= e[|e| - 1]
  {
    var f, c := FloorDiv(lo, w), CeilDiv(hi, w);
    MulMonotone(f, c, w);
    Edges(f, c - f + 1, w)
  }

  /** The edges create_bins is meant to compute: as written, but never fewer than
      two edges (one bin), so that a single distinct value that is a multiple of
      the width still gets a bin. */
  function BinEdges(lo: int, hi: int, w: int): (e: seq<int>)
    requires w > 0 && lo <= hi
    ensures |e| >= 2
    ensures e == Edges(FloorDiv(lo, w), |e|, w)
    ensures Increasing(e)
    ensures e[0] <= lo && hi <= e[|e| - 1]
    ensures forall j :: 0 <= j < |e| - 1 ==> e[j + 1] == e[j] + w
  {
    var f, c := FloorDiv(lo, w), CeilDiv(hi, w);
    MulMonotone(f, c, w);
    var e := Edges(f, if c == f then 2 else c - f + 1, w);
    assert e[|e| - 1] >= c * w by {
      MulMonotone(c, f + |e| - 1, w);
    }
    e
  }

  /** Number of edges at most v: `np.digitize(v, edges)` for increasing edges. */
  function CountAtMost(e: seq<int>, v: int): (n: nat)
    ensures n <= |e|
  {
    if |e| == 0 then 0
    else CountAtMost(e[..|e| - 1], v) + (if e[|e| - 1] <= v then 1 else 0)
  }

  /** The bin create_bins gives a value: digitize minus one, except that a value
      equal to the last edge goes to the last bin, len(edges) - 2. */
  function BinOf(v: int, e: seq<int>): int
    requires |e| > 0
  {
    if v == e[|e| - 1] then |e| - 2 else CountAtMost(e, v) - 1
  }

  /** For ascending edges and a value at or above the first edge, digitize finds
      the last edge at most the value: edges[c - 1] <= v < edges[c]. */
  lemma {:induction false} CountAtMostIncreasing(e: seq<int>, v: int)
    requires Increasing(e) && |e| > 0 && e[0] <= v
    ensures var c := CountAtMost(e, v);
            1 <= c && e[c - 1] <= v && (c < |e| ==> v < e[c])
  {
    var n := |e|;
    if n > 1 {
      var init := e[..n - 1];
      CountAtMostIncreasing(init, v);
    }
  }

  /** Every value between the minimum and the maximum lands in a bin of the
      (intended) edges: an index in [0, len(edges) - 2] whose edges enclose it,
      the last bin being closed on the right. */
  lemma BinInRange(lo: int, hi: int, w: int, v: int)
    requires w > 0 && lo <= v <= hi
    ensures var e := BinEdges(lo, hi, w);
            var b := BinOf(v, e);
            && 0 <= b < |e| - 1
            && e[b] <= v
            && (v < e[b + 1] || (v == e[b + 1] && b == |e| - 2))
  {
    var e := BinEdges(lo, hi, w);
    CountAtMostIncreasing(e, v);
  }

  /** As written, a frame whose values are all one multiple of the width gets a
      single edge, zero bins, and every value the bin index -1. */
  lemma SingleEdgeAsWritten(m: int, w: int)
    requires w > 0
    ensures BinEdgesAsWritten(m * w, m * w, w) == [m * w]
    ensures BinOf(m * w, BinEdgesAsWritten(m * w, m * w, w)) == -1
  {
    var f, c := FloorDiv(m * w, w), CeilDiv(m * w, w);
    MulMonotone(f, m, w);
    MulMonotone(f + 1, m, w);
    MulMonotone(m, c, w);
    MulMonotone(m, c - 1, w);
    assert f == m && c == m;
  }

  /** For instance, the values [10] with width 5. */
  lemma SingleEdgeExample()
    ensures BinEdgesAsWritten(10, 10, 5) == [10]
    ensures BinOf(10, [10]) == -1
  {
    SingleEdgeAsWritten(2, 5);
  }

  /** Apart from that case the intended edges are the edges as written. */
  lemma BinEdgesAgree(lo: int, hi: int, w: int)
    requires w > 0 && lo <= hi && FloorDiv(lo, w) < CeilDiv(hi, w)
    ensures BinEdges(lo, hi, w) == BinEdgesAsWritten(lo, hi, w)
  {
  }

  /** Each value's bin lies in [0, len(edges) - 2] for the edges create_bins
      computes from the values' minimum and maximum. */
  lemma AllBinsInRange(vs: seq<int>, w: int)
    requires w > 0 && |vs| > 0
    ensures var e := BinEdges(MinOf(vs), MaxOf(vs), w);
            forall k :: 0 <= k < |vs| ==> 0 <= BinOf(vs[k], e) < |e| - 1
  {
    forall k | 0 <= k < |vs|
      ensures 0 <= BinOf(vs[k], BinEdges(MinOf(vs), MaxOf(vs), w)) < |BinEdges(MinOf(vs), MaxOf(vs), w)| - 1
    {
      assert vs[k] in vs;
      BinInRange(MinOf(vs), MaxOf(vs), w, vs[k]);
    }
  }

  /** `frame["bin"] = np.digitize(frame[column], bins) - 1` */
  method Digitize(frame: array<Sample>, edges: seq<int>)
    modifies frame
    ensures forall k :: 0 <= k < frame.Length ==>
              frame[k] == old(frame[k]).(bin := CountAtMost(edges, old(frame[k]).value) - 1)
  {
    var i := 0;
    while i < frame.Length
      invariant 0 <= i <= frame.Length
      invariant forall k :: 0 <= k < i ==> frame[k] == old(frame[k]).(bin := CountAtMost(edges, old(frame[k]).value) - 1)
      invariant forall k :: i <= k < frame.Length ==> frame[k] == old(frame[k])
    {
      frame[i] := frame[i].(bin := CountAtMost(edges, frame[i].value) - 1);
      i := i + 1;
    }
  }

  /** `frame.loc[frame[column] == bins[-1], "bin"] = len(bins) - 2` */
  method PatchLastEdge(frame: array<Sample>, edges: seq<int>)
    requires |edges| > 0
    modifies frame
    ensures forall k :: 0 <= k < frame.Length ==>
              frame[k] == if old(frame[k]).value == edges[|edges| - 1]
                          then old(frame[k]).(bin := |edges| - 2)
                          else old(frame[k])
  {
    var last := edges[|edges| - 1];
    var i := 0;
    while i < frame.Length
      invariant 0 <= i <= frame.Length
      invariant forall k :: 0 <= k < i ==>
                  frame[k] == if old(frame[k]).value == last then old(frame[k]).(bin := |edges| - 2) else old(frame[k])
      invariant forall k :: i <= k < frame.Length ==> frame[k] == old(frame[k])
    {
      if frame[i].value == last {
        frame[i] := frame[i].(bin := |edges| - 2);
      }
      i := i + 1;
    }
  }

  /** The two assignments to the "bin" column: digitize, then the patch for
      values on the last edge. */
  method AssignBins(frame: array<Sample>, edges: seq<int>)
    requires |edges| > 0
    modifies frame
    ensures forall k :: 0 <= k < frame.Length ==>
              frame[k] == old(frame[k]).(bin := BinOf(old(frame[k]).value, edges))
  {
    Digitize(frame, edges);
    PatchLastEdge(frame, edges);
  }

  /** create_bins as written: an empty frame has no minimum, and `np.arange`
      fails on its NaN bounds; otherwise the frame's "bin" column is written
      with each value's bin, and the edges and the bin count are returned.
      With two edges or more every bin is in range and the edges are the
      intended ones; with a single edge there are no bins and every row gets
      the bin -1. */
  method CreateBins(frame: array<Sample>, width: int) returns (r: Result<(seq<int>, int)>)
    requires width > 0
    modifies frame
    ensures frame.Length == 0 ==> r == Err(ValueError("arange: cannot compute length"))
    ensures frame.Length > 0 ==>
              var vs := Values(old(frame[..]));
              var edges := BinEdgesAsWritten(MinOf(vs), MaxOf(vs), width);
              && r == Ok((edges, |edges| - 1))
              && forall i :: 0 <= i < frame.Length ==> frame[i] == old(frame[i]).(bin := BinOf(vs[i], edges))
    ensures r.Ok? && |r.value.0| == 1 ==>
              r.value.1 == 0 && forall i :: 0 <= i < frame.Length ==> frame[i].bin == -1
    ensures r.Ok? && |r.value.0| >= 2 ==>
              var vs := Values(old(frame[..]));
              && r.value.0 == BinEdges(MinOf(vs), MaxOf(vs), width)
              && forall i :: 0 <= i < frame.Length ==> 0 <= frame[i].bin < |r.value.0| - 1
  {
    if frame.Length == 0 {
      return Err(ValueError("arange: cannot compute length"));
    }
    var vs := Values(frame[..]);
    var edges := BinEdgesAsWritten(MinOf(vs), MaxOf(vs), width);
    if |edges| == 1 {
      SingleEdgeBins(vs, width);
    } else {
      ManyEdgeBins(vs, width);
    }
    AssignBins(frame, edges);
    r := Ok((edges, |edges| - 1));
  }

  /** With a single edge as written, every value is that edge and gets the
      bin -1. */
  lemma SingleEdgeBins(vs: seq<int>, w: int)
    requires w > 0 && |vs| > 0 && |BinEdgesAsWritten(MinOf(vs), MaxOf(vs), w)| == 1
    ensures var e := BinEdgesAsWritten(MinOf(vs), MaxOf(vs), w);
            forall k :: 0 <= k < |vs| ==> BinOf(vs[k], e) == -1
  {
    var lo, hi := MinOf(vs), MaxOf(vs);
    var e := BinEdgesAsWritten(lo, hi, w);
    assert e[0] == e[|e| - 1];
    forall k | 0 <= k < |vs|
      ensures BinOf(vs[k], e) == -1
    {
      assert lo <= vs[k] <= hi by {
        assert vs[k] in vs;
      }
      assert vs[k] == e[|e| - 1];
    }
  }

  /** With two edges or more as written, they are the intended edges and
      every value's bin is in range. */
  lemma ManyEdgeBins(vs: seq<int>, w: int)
    requires w > 0 && |vs| > 0 && |BinEdgesAsWritten(MinOf(vs), MaxOf(vs), w)| >= 2
    ensures var e := BinEdgesAsWritten(MinOf(vs), MaxOf(vs), w);
            && e == BinEdges(MinOf(vs), MaxOf(vs), w)
            && forall k :: 0 <= k < |vs| ==> 0 <= BinOf(vs[k], e) < |e| - 1
  {
    BinEdgesAgree(MinOf(vs), MaxOf(vs), w);
    AllBinsInRange(vs, w);
  }

  /** create_bins as evidently intended: the same steps on the intended edges,
      which always give at least one bin, and every row a bin in range. */
  method CreateBinsCorrected(frame: array<Sample>, width: int) returns (r: Result<(seq<int>, int)>)
    requires width > 0
    modifies frame
    ensures frame.Length == 0 ==> r == Err(ValueError("arange: cannot compute length"))
    ensures frame.Length > 0 ==>
              var vs := Values(old(frame[..]));
              var edges := BinEdges(MinOf(vs), MaxOf(vs), width);
              && r == Ok((edges, |edges| - 1))
              && forall i :: 0 <= i < frame.Length ==>
                   && frame[i] == old(frame[i]).(bin := BinOf(vs[i], edges))
                   && 0 <= frame[i].bin < |edges| - 1
  {
    if frame.Length == 0 {
      return Err(ValueError("arange: cannot compute length"));
    }
    var vs := Values(frame[..]);
    var edges := BinEdges(MinOf(vs), MaxOf(vs), width);
    AssignBins(frame, edges);
    AllBinsInRange(vs, width);
    r := Ok((edges, |edges| - 1));
  }

  /** One row of bin_data's result. */
  datatype BinRow = BinRow(bin: int, count: nat, binStart: int, binEnd: int, binCenter: real)

  /** `edges[x]`, where a negative x counts from the end as Python's indexing does;
      None where Python raises IndexError. */
  function PyIndex(e: seq<int>, x: int): (r: Option<int>)
    ensures r.Some? <==> -|e| <= x < |e|
  {
    if 0 <= x < |e| then Some(e[x])
    else if -|e| <= x < 0 then Some(e[|e| + x])
    else None
  }

  function InsertSorted(x: int, xs: seq<int>): (r: seq<int>)
    requires Increasing(xs)
    ensures Increasing(r)
    ensures forall y :: y in r <==> y == x || y in xs
  {
    if |xs| == 0 then [x]
    else if x == xs[0] then xs
    else if x < xs[0] then [x] + xs
    else
      var rest := InsertSorted(x, xs[1..]);
      assert forall j :: 0 <= j < |rest| ==> rest[j] in rest;
      [xs[0]] + rest
  }

  /** The bins present in the "bin" column, ascending: the groups of
      `groupby("bin")`. */
  function OccupiedBins(bins: seq<int>): (r: seq<int>)
    ensures Increasing(r)
    ensures forall x :: x in r <==> x in bins
  {
    if |bins| == 0 then []
    else
      assert bins == bins[..|bins| - 1] + [bins[|bins| - 1]];
      InsertSorted(bins[|bins| - 1], OccupiedBins(bins[..|bins| - 1]))
  }

  /** Every occupied bin can be looked up in the edges, and so can the next one. */
  predicate Indexable(bins: seq<int>, edges: seq<int>)
  {
    forall b :: b in bins ==> PyIndex(edges, b).Some? && PyIndex(edges, b + 1).Some?
  }

  /** row is bin_data's row for bin b: the number of rows in the bin, its edges
      and its centre. */
  predicate IsBinRow(row: BinRow, b: int, bins: seq<int>, edges: seq<int>)
  {
    && row.bin == b
    && row.count == Count(bins, b)
    && PyIndex(edges, b) == Some(row.binStart)
    && PyIndex(edges, b + 1) == Some(row.binEnd)
    && row.binCenter == (row.binStart + row.binEnd) as real / 2.0
  }

  /** bin_data: one row per occupied bin, ascending, with the number of rows in
      the bin and the bin's start, end and centre; a bin whose edges cannot be
      looked up raises IndexError. */
  method BinData(bins: seq<int>, edges: seq<int>) returns (r: Result<seq<BinRow>>)
    ensures !Indexable(bins, edges) <==> r == Err(IndexError)
    ensures r.Ok? ==>
              && |r.value| == |OccupiedBins(bins)|
              && forall i :: 0 <= i < |r.value| ==> IsBinRow(r.value[i], OccupiedBins(bins)[i], bins, edges)
  {
    var keys := OccupiedBins(bins);
    var rows: seq<BinRow> := [];
    while |rows| < |keys|
      invariant |rows| <= |keys|
      invariant forall i :: 0 <= i < |rows| ==> IsBinRow(rows[i], keys[i], bins, edges)
    {
      var b := keys[|rows|];
      var start, end := PyIndex(edges, b), PyIndex(edges, b + 1);
      if start.None? || end.None? {
        assert b in bins;
        return Err(IndexError);
      }
      ghost var before := rows;
      rows := rows + [BinRow(b, Count(bins, b), start.value, end.value, (start.value + end.value) as real / 2.0)];
      assert forall i :: 0 <= i < |before| ==> rows[i] == before[i];
    }
    assert Indexable(bins, edges) by {
      forall x | x in bins
        ensures PyIndex(edges, x).Some? && PyIndex(edges, x + 1).Some?
      {
        assert x in keys;
        var j :| 0 <= j < |keys| && keys[j] == x;
        assert IsBinRow(rows[j], keys[j], bins, edges);
      }
    }
    r := Ok(rows);
  }

  /** The "bin" column create_bins writes for the values vs and edges e. */
  function BinColumn(vs: seq<int>, e: seq<int>): (bins: seq<int>)
    requires |e| > 0
    ensures |bins| == |vs|
    ensures forall i :: 0 <= i < |vs| ==> bins[i] == BinOf(vs[i], e)
  {
    seq(|vs|, i requires 0 <= i < |vs| => BinOf(vs[i], e))
  }

  /** The bins assigned under the intended edges can all be looked up in those
      edges, so bin_data succeeds on them, and each bin is one width wide. */
  lemma BinnedDataIndexable(vs: seq<int>, w: int)
    requires w > 0 && |vs| > 0
    ensures var edges := BinEdges(MinOf(vs), MaxOf(vs), w);
            var bins := BinColumn(vs, edges);
            && Indexable(bins, edges)
            && forall b :: b in bins ==> 0 <= b && b + 1 < |edges| && edges[b + 1] - edges[b] == w
  {
    var edges := BinEdges(MinOf(vs), MaxOf(vs), w);
    var bins := BinColumn(vs, edges);
    AllBinsInRange(vs, w);
    forall b | b in bins
      ensures 0 <= b && b + 1 < |edges|
    {
      var i :| 0 <= i < |vs| && bins[i] == b;
    }
  }

  /** bin_data's counts add up to the number of rows binned. */
  lemma BinCountsCoverRows(bins: seq<int>)
    ensures SumCounts(OccupiedBins(bins), bins) == |bins|
  {
    var keys := OccupiedBins(bins);
    assert Distinct(keys);
    SumCountsCovering(keys, bins);
  }

  // ---------------------------------------------------------------------------
  // normalize_string and normalize_series_strings

  /** Where the text of s starts: the number of leading whitespace characters. */
  function StripStart(s: string): (i: nat)
    ensures i <= |s|
    ensures forall k :: 0 <= k < i ==> IsWhitespace(s[k])
    ensures i < |s| ==> !IsWhitespace(s[i])
  {
    if |s| > 0 && IsWhitespace(s[0]) then 1 + StripStart(s[1..]) else 0
  }

  /** Where the text of s ends: the length of s without its trailing whitespace. */
  function StripEnd(s: string): (j: nat)
    ensures j <= |s|
    ensures forall k :: j <= k < |s| ==> IsWhitespace(s[k])
    ensures j > 0 ==> !IsWhitespace(s[j - 1])
  {
    if |s| > 0 && IsWhitespace(s[|s| - 1]) then StripEnd(s[..|s| - 1]) else |s|
  }

  /** `str.strip()`: s without its leading and trailing whitespace. */
  function Strip(s: string): (r: string)
    ensures StripStart(s) + |r| <= |s|
    ensures forall k :: 0 <= k < |r| ==> r[k] == s[StripStart(s) + k]
    ensures forall k :: 0 <= k < StripStart(s) ==> IsWhitespace(s[k])
    ensures forall k :: StripStart(s) + |r| <= k < |s| ==> IsWhitespace(s[k])
    ensures |r| > 0 ==> !IsWhitespace(r[0]) && !IsWhitespace(r[|r| - 1])
  {
    var i, j := StripStart(s), StripEnd(s);
    if i < j then s[i..j] else ""
  }

  /** Stripping twice is stripping once. */
  lemma StripIdempotent(s: string)
    ensures Strip(Strip(s)) == Strip(s)
  {
    var r := Strip(s);
    assert StripStart(r) == 0;
    assert StripEnd(r) == |r|;
    assert r[0..|r|] == r;
  }

  /** normalize_string: a string has every match of the pattern replaced (the
      regular-expression substitution `sub` is a parameter of the model) and is
      then stripped; any other value is returned unchanged. */
  function NormalizeString(value: PyVal, sub: string -> string): (r: PyVal)
    ensures !value.PStr? ==> r == value
    ensures value.PStr? ==> r.PStr?
    ensures value.PStr? ==>
              var t, k := sub(value.s), StripStart(sub(value.s));
              && k + |r.s| <= |t| && r.s == t[k..k + |r.s|]
              && (forall j :: 0 <= j < k ==> IsWhitespace(t[j]))
              && (forall j :: k + |r.s| <= j < |t| ==> IsWhitespace(t[j]))
    ensures value.PStr? && |r.s| > 0 ==> !IsWhitespace(r.s[0]) && !IsWhitespace(r.s[|r.s| - 1])
  {
    if value.PStr? then PStr(Strip(sub(value.s))) else value
  }

  /** Normalising a normalised string again, with a substitution that leaves
      it alone, changes nothing. */
  lemma NormalizedIsStripped(value: PyVal, sub: string -> string)
    requires value.PStr?
    ensures var r := NormalizeString(value, sub);
            sub(r.s) == r.s ==> NormalizeString(r, sub) == r
  {
    StripIdempotent(sub(value.s));
  }

  /** normalize_series_strings: normalize_string applied to each element, in order. */
  function NormalizeSeriesStrings(series: seq<PyVal>, sub: string -> string): (r: seq<PyVal>)
    ensures |r| == |series|
    ensures forall i :: 0 <= i < |series| ==> r[i] == NormalizeString(series[i], sub)
  {
    seq(|series|, i requires 0 <= i < |series| => NormalizeString(series[i], sub))
  }
}
