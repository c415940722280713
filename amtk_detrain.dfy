/** Detraining statistics: the colour a fiscal quarter is drawn in, the
    flattening of two-level column labels, train arrivals and mean minutes late
    per group, and the summary frame that places derived columns around
    "Total Detraining Customers sum". */
module AmtkDetrain {
  import opened Common
  import opened Grouping

  // ---------------------------------------------------------------------------
  // assign_color

  /** The text `int()` rejects a one-character string with; the character is
      always quoted with single quotes, not formatted as `repr()` would. */
  function IntLiteralError(c: char): Error
  {
    ValueError("invalid literal for int() with base 10: '" + [c] + "'")
  }

  /** `colors[0]` when the last character of the fiscal quarter is an even
      digit, `colors[1]` when it is odd. An empty fiscal quarter and a missing
      colour raise IndexError; a last character that is not a digit makes
      `int()` raise ValueError. */
  function AssignColor(fiscalQuarter: string, colors: seq<string>): (r: Result<string>)
    ensures |fiscalQuarter| == 0 ==> r == Err(IndexError)
    ensures |fiscalQuarter| > 0 && !IsDigit(fiscalQuarter[|fiscalQuarter| - 1]) ==>
      r == Err(IntLiteralError(fiscalQuarter[|fiscalQuarter| - 1]))
    ensures |fiscalQuarter| > 0 && IsDigit(fiscalQuarter[|fiscalQuarter| - 1]) ==>
      var even := DigitValue(fiscalQuarter[|fiscalQuarter| - 1]) % 2 == 0;
      var pick := if even then 0 else 1;
      r == (if pick < |colors| then Ok(colors[pick]) else Err(IndexError))
  {
    if |fiscalQuarter| == 0 then Err(IndexError)
    else
      var last := fiscalQuarter[|fiscalQuarter| - 1];
      if !IsDigit(last) then Err(IntLiteralError(last))
      else if DigitValue(last) % 2 == 0 then
        (if 0 < |colors| then Ok(colors[0]) else Err(IndexError))
      else if 1 < |colors| then Ok(colors[1])
      else Err(IndexError)
  }

  /** Quarters of the same parity share a colour, and with a two-colour
      palette quarters of different parity never do. */
  lemma SameParitySameColor(p: string, q: string, colors: seq<string>)
    requires |p| > 0 && |q| > 0
    requires IsDigit(p[|p| - 1]) && IsDigit(q[|q| - 1])
    requires |colors| == 2 && colors[0] != colors[1]
    ensures AssignColor(p, colors) == AssignColor(q, colors) <==>
      DigitValue(p[|p| - 1]) % 2 == DigitValue(q[|q| - 1]) % 2
  {
  }

  // ---------------------------------------------------------------------------
  // flatten_columns

  /** A column label: a plain name, or the (top, sub) pair of a two-level
      column index such as `groupby(...).agg({...})` produces. */
  datatype ColumnLabel = Name(name: string) | Pair(top: string, sub: string)

  /** The comprehension's expression as written: `col[1]` is evaluated before
      the tuple test, so for a plain name it indexes the name's second
      character, which is always truthy when it exists. */
  function FlattenColumnAsWritten(col: ColumnLabel): (r: Result<string>)
    ensures r.Err? <==> col.Name? && |col.name| < 2
    ensures r.Err? ==> r.error == IndexError
    ensures r.Ok? ==> r.value == FlattenColumn(col)
  {
    match col
    case Name(s) => if |s| < 2 then Err(IndexError) else Ok(s)
    case Pair(a, b) => if b == "" then Ok(a) else Ok(a + " " + b)
  }

  /** A one-character (or empty) plain column name makes the as-written
      flattening raise instead of keeping the name. */
  lemma ShortNameRaises()
    ensures FlattenColumnAsWritten(Name("x")) == Err(IndexError)
    ensures FlattenColumn(Name("x")) == "x"
  {
  }

  /** The flattening the docstring describes: a pair joins its levels with a
      space, dropping an empty second level; a plain name is kept. */
  function FlattenColumn(col: ColumnLabel): (r: string)
    ensures col.Name? ==> r == col.name
    ensures col.Pair? && col.sub == "" ==> r == col.top
    ensures col.Pair? && col.sub != "" ==> r == col.top + " " + col.sub
  {
    match col
    case Name(s) => s
    case Pair(a, b) => if b == "" then a else a + " " + b
  }

  /** The intended flattening of a whole column index: one flat name per
      column, in column order. */
  function FlattenColumnsCorrected(cols: seq<ColumnLabel>): (names: seq<string>)
    ensures |names| == |cols|
    ensures forall i :: 0 <= i < |cols| ==> names[i] == FlattenColumn(cols[i])
  {
    seq(|cols|, i requires 0 <= i < |cols| => FlattenColumn(cols[i]))
  }

  /** flatten_columns as written: the comprehension raises IndexError at the
      first plain name shorter than two characters; when no column raises, it
      gives the intended flat names. */
  function FlattenColumns(cols: seq<ColumnLabel>): (r: Result<seq<string>>)
    ensures r.Err? <==> exists i :: 0 <= i < |cols| && FlattenColumnAsWritten(cols[i]).Err?
    ensures r.Err? ==> r.error == IndexError
    ensures r.Ok? ==> r.value == FlattenColumnsCorrected(cols)
  {
    if exists i :: 0 <= i < |cols| && cols[i].Name? && |cols[i].name| < 2 then Err(IndexError)
    else Ok(FlattenColumnsCorrected(cols))
  }

  /** A flattened pair name starts with the top level, and keeps the second
      level after a single space exactly when there is one. */
  lemma FlattenedPairKeepsLevels(top: string, sub: string)
    ensures |FlattenColumn(Pair(top, sub))| == |top| + (if sub == "" then 0 else |sub| + 1)
    ensures FlattenColumn(Pair(top, sub))[..|top|] == top
    ensures sub != "" ==> FlattenColumn(Pair(top, sub))[|top|..] == " " + sub
  {
  }

  // ---------------------------------------------------------------------------
  // get_train_arrivals_by_group

  const TrainArrivals := "Train Arrivals"

  /** One row of the train arrivals frame. */
  datatype ArrivalRow = ArrivalRow(group: string, trainArrivals: nat)

  /** The train arrivals frame: one row per group, in group order, counting the
      group's rows (every row of the input is one train arrival). */
  function TrainArrivalsOf(keys: seq<string>): (rows: seq<ArrivalRow>)
    ensures |rows| == |GroupKeys(keys)|
    ensures forall j :: 0 <= j < |rows| ==>
      rows[j].group == GroupKeys(keys)[j] && rows[j].trainArrivals > 0
  {
    var gs := GroupKeys(keys);
    seq(|gs|, j requires 0 <= j < |gs| => ArrivalRow(gs[j], Count(keys, gs[j])))
  }

  /** `frame.groupby(groups).size()`: counts the rows of each group in one
      pass over the key column, then lists the groups in order. */
  method GetTrainArrivalsByGroup(keys: seq<string>) returns (rows: seq<ArrivalRow>)
    ensures rows == TrainArrivalsOf(keys)
  {
    var sizes: map<string, nat> := map[];
    var i := 0;
    while i < |keys|
      invariant 0 <= i <= |keys|
      invariant Tallied(sizes, keys[..i])
    {
      var k := keys[i];
      TallyStep(sizes, keys[..i], k);
      assert keys[..i + 1] == keys[..i] + [k];
      sizes := sizes[k := if k in sizes then sizes[k] + 1 else 1];
      i := i + 1;
    }
    assert keys[..i] == keys;
    var gs := GroupKeys(keys);
    rows := [];
    var j := 0;
    while j < |gs|
      invariant 0 <= j <= |gs|
      invariant |rows| == j
      invariant forall m :: 0 <= m < j ==> rows[m] == ArrivalRow(gs[m], Count(keys, gs[m]))
    {
      assert gs[j] in keys;
      rows := rows + [ArrivalRow(gs[j], sizes[gs[j]])];
      j := j + 1;
    }
  }

  /** sizes holds the row count of exactly the groups seen in prefix. */
  ghost predicate Tallied(sizes: map<string, nat>, prefix: seq<string>)
  {
    (forall g :: g in sizes <==> g in prefix) &&
    (forall g :: g in sizes ==> sizes[g] == Count(prefix, g))
  }

  /** Counting one more key keeps the tally. */
  lemma TallyStep(sizes: map<string, nat>, prefix: seq<string>, k: string)
    requires Tallied(sizes, prefix)
    ensures Tallied(sizes[k := if k in sizes then sizes[k] + 1 else 1], prefix + [k])
  {
    var next := sizes[k := if k in sizes then sizes[k] + 1 else 1];
    forall g | g in next
      ensures next[g] == Count(prefix + [k], g)
    {
      CountSnoc(prefix, k, g);
    }
    assert forall g :: g in prefix + [k] <==> g in prefix || g == k;
  }

  function SumArrivals(rows: seq<ArrivalRow>): nat
  {
    if |rows| == 0 then 0 else rows[0].trainArrivals + SumArrivals(rows[1..])
  }

  lemma {:induction false} SumArrivalsIsSumCounts(gs: seq<string>, keys: seq<string>, rows: seq<ArrivalRow>)
    requires |rows| == |gs|
    requires forall j :: 0 <= j < |gs| ==> rows[j].trainArrivals == Count(keys, gs[j])
    ensures SumArrivals(rows) == SumCounts(gs, keys)
  {
    if |gs| > 0 {
      SumArrivalsIsSumCounts(gs[1..], keys, rows[1..]);
    }
  }

  /** The train arrivals of all groups add up to the number of input rows. */
  lemma TrainArrivalsCoverRows(keys: seq<string>)
    ensures SumArrivals(TrainArrivalsOf(keys)) == |keys|
  {
    var rows := TrainArrivalsOf(keys);
    SumArrivalsIsSumCounts(GroupKeys(keys), keys, rows);
    GroupSizesSumToRows(keys);
  }

  // ---------------------------------------------------------------------------
  // get_mean_min_late_by_groups

  const AvgMinLate := "Late Detraining Customers Avg Min Late"
  const AvgMinLateMean := AvgMinLate + " mean"

  function Sum(vs: seq<real>): real
  {
    if |vs| == 0 then 0.0 else Sum(vs[..|vs| - 1]) + vs[|vs| - 1]
  }

  function Mean(vs: seq<real>): real
    requires |vs| > 0
  {
    Sum(vs) / (|vs| as real)
  }

  lemma {:induction false} SumBounds(vs: seq<real>, lo: real, hi: real)
    requires forall i :: 0 <= i < |vs| ==> lo <= vs[i] <= hi
    ensures (|vs| as real) * lo <= Sum(vs) <= (|vs| as real) * hi
  {
    if |vs| > 0 {
      SumBounds(vs[..|vs| - 1], lo, hi);
      var n := (|vs| - 1) as real;
      assert (n + 1.0) * lo == n * lo + lo;
      assert (n + 1.0) * hi == n * hi + hi;
    }
  }

  /** A mean lies between any lower and upper bound of the values. */
  lemma MeanBounds(vs: seq<real>, lo: real, hi: real)
    requires |vs| > 0
    requires forall i :: 0 <= i < |vs| ==> lo <= vs[i] <= hi
    ensures lo <= Mean(vs) <= hi
  {
    SumBounds(vs, lo, hi);
    var n := |vs| as real;
    var m := Mean(vs);
    assert m * n == Sum(vs);
    assert (m - lo) * n >= 0.0 && (hi - m) * n >= 0.0;
  }

  /** One row of the mean-minutes-late frame. */
  datatype MeanRow = MeanRow(group: string, meanMinLate: real)

  /** A frame of group keys and means, with its column names. */
  datatype MeanFrame = MeanFrame(columns: seq<string>, rows: seq<MeanRow>)

  /** Mean of "Late Detraining Customers Avg Min Late" for every group, in
      group order, under the column name with " mean" appended. */
  function GetMeanMinLateByGroups(groupColumn: string, obs: seq<Observation>): (f: MeanFrame)
    ensures f.columns == [groupColumn, AvgMinLateMean]
    ensures |f.rows| == |GroupKeys(Keys(obs))|
    ensures forall j :: 0 <= j < |f.rows| ==>
      && f.rows[j].group == GroupKeys(Keys(obs))[j]
      && |GroupValues(obs, f.rows[j].group)| > 0
      && f.rows[j].meanMinLate == Mean(GroupValues(obs, f.rows[j].group))
  {
    var gs := GroupKeys(Keys(obs));
    MeanFrame([groupColumn, AvgMinLateMean],
      seq(|gs|, j requires 0 <= j < |gs| => GroupMean(obs, gs[j])))
  }

  /** The row of group g: the mean of its values. */
  function GroupMean(obs: seq<Observation>, g: string): (row: MeanRow)
    requires g in Keys(obs)
    ensures row.group == g && |GroupValues(obs, g)| > 0
    ensures row.meanMinLate == Mean(GroupValues(obs, g))
  {
    GroupValuesCount(obs, g);
    MeanRow(g, Mean(GroupValues(obs, g)))
  }

  /** Each group's mean lies between the smallest and largest minutes late of
      that group's rows. */
  lemma MeanWithinGroup(groupColumn: string, obs: seq<Observation>, j: nat, lo: real, hi: real)
    requires j < |GroupKeys(Keys(obs))|
    requires forall o :: o in obs && o.group == GroupKeys(Keys(obs))[j] ==> lo <= o.value <= hi
    ensures lo <= GetMeanMinLateByGroups(groupColumn, obs).rows[j].meanMinLate <= hi
  {
    var g := GroupKeys(Keys(obs))[j];
    var vs := GroupValues(obs, g);
    assert g in GroupKeys(Keys(obs));
    GroupValuesCount(obs, g);
    forall i | 0 <= i < |vs| ensures lo <= vs[i] <= hi {
      GroupValuesMembership(obs, g, vs[i]);
    }
    MeanBounds(vs, lo, hi);
  }

  // ---------------------------------------------------------------------------
  // The frame get_sum_stats_by_group edits: labelled columns, inserted, popped
  // and assigned in place

  /** A cell of the summary frame. NonFinite stands for the NaN or infinity a
      division by zero yields; a Key is a group key. */
  datatype Cell = Num(x: real) | NonFinite | Key(s: string)

  /** The columns get_sum_stats_by_group adds to the aggregated frame. */
  datatype DerivedColumn =
    | TrainArrivalsColumn
    | LateRatioColumn
    | MeanMinLateColumn
    | OnTimeColumn
    | ArrivalRatioColumn
    | DetrainRatioColumn

  /** A column label: a name of the aggregated frame, or an added column. */
  datatype Label = Aggregated(name: string) | Added(column: DerivedColumn)

  const TotalDetrain := "Total Detraining Customers sum"
  const LateDetrain := "Late Detraining Customers sum"
  const Total := Aggregated(TotalDetrain)
  const Late := Aggregated(LateDetrain)

  const DerivedHeaders := [TrainArrivals, "Late to Total Detraining Customers Ratio", AvgMinLateMean,
                           "Total On Time Detraining Customers sum", "Train Arrival Ratio", "Detraining Ratio"]

  /** The header text of a column. */
  function Header(l: Label): (h: string)
    ensures l.Added? ==> h in DerivedHeaders
  {
    match l
    case Aggregated(n) => n
    case Added(TrainArrivalsColumn) => DerivedHeaders[0]
    case Added(LateRatioColumn) => DerivedHeaders[1]
    case Added(MeanMinLateColumn) => DerivedHeaders[2]
    case Added(OnTimeColumn) => DerivedHeaders[3]
    case Added(ArrivalRatioColumn) => DerivedHeaders[4]
    case Added(DetrainRatioColumn) => DerivedHeaders[5]
  }

  /** Different columns have different headers, as long as no aggregated
      column is named like an added one. */
  lemma HeaderInjective(l1: Label, l2: Label)
    requires l1.Aggregated? ==> l1.name !in DerivedHeaders
    requires l2.Aggregated? ==> l2.name !in DerivedHeaders
    requires l1 != l2
    ensures Header(l1) != Header(l2)
  {
    assert |DerivedHeaders[0]| == 14 && |DerivedHeaders[1]| == 40 && |DerivedHeaders[2]| == 43;
    assert |DerivedHeaders[3]| == 38 && |DerivedHeaders[4]| == 19 && |DerivedHeaders[5]| == 16;
  }

  /** pandas `a - b` on two cells. */
  function Minus(a: Cell, b: Cell): Cell
  {
    if a.Num? && b.Num? then Num(a.x - b.x) else NonFinite
  }

  /** pandas `a / b` on two cells (true division). */
  function Divide(a: Cell, b: Cell): Cell
  {
    if a.Num? && b.Num? && b.x != 0.0 then Num(a.x / b.x) else NonFinite
  }

  /** Element-wise difference of two columns. */
  function Difference(a: seq<Cell>, b: seq<Cell>): (r: seq<Cell>)
    requires |a| == |b|
    ensures |r| == |a|
    ensures forall i :: 0 <= i < |a| ==> r[i] == Minus(a[i], b[i])
  {
    seq(|a|, i requires 0 <= i < |a| => Minus(a[i], b[i]))
  }

  /** Element-wise quotient of two columns. */
  function Ratio(a: seq<Cell>, b: seq<Cell>): (r: seq<Cell>)
    requires |a| == |b|
    ensures |r| == |a|
    ensures forall i :: 0 <= i < |a| ==> r[i] == Divide(a[i], b[i])
  {
    seq(|a|, i requires 0 <= i < |a| => Divide(a[i], b[i]))
  }

  /** A column divided by one number. */
  function Scaled(a: seq<Cell>, d: real): (r: seq<Cell>)
    ensures |r| == |a|
    ensures forall i :: 0 <= i < |a| ==> r[i] == Divide(a[i], Num(d))
  {
    seq(|a|, i requires 0 <= i < |a| => Divide(a[i], Num(d)))
  }

  /** On-time and late passengers add up to the total in every row where both
      are numbers. */
  lemma OnTimePlusLateIsTotal(total: seq<Cell>, late: seq<Cell>, i: nat)
    requires |total| == |late| && i < |total|
    requires total[i].Num? && late[i].Num?
    ensures Difference(total, late)[i].Num?
    ensures Difference(total, late)[i].x + late[i].x == total[i].x
  {
  }

  /** Where both counts are numbers and the total is not zero, the late ratio
      times the total gives back the late count; a zero total gives a
      non-finite ratio. */
  lemma LateRatioTimesTotal(total: seq<Cell>, late: seq<Cell>, i: nat)
    requires |total| == |late| && i < |total|
    requires total[i].Num? && late[i].Num?
    ensures total[i].x != 0.0 ==> Ratio(late, total)[i].Num? && Ratio(late, total)[i].x * total[i].x == late[i].x
    ensures total[i].x == 0.0 ==> Ratio(late, total)[i] == NonFinite
  {
  }

  /** The first position of x in s, or |s| when x is absent. */
  function Position(s: seq<Label>, x: Label): (k: nat)
    ensures k <= |s|
    ensures k < |s| <==> x in s
    ensures k < |s| ==> s[k] == x
    ensures forall j :: 0 <= j < k ==> s[j] != x
  {
    if |s| == 0 then 0
    else if s[0] == x then 0
    else
      var k := 1 + Position(s[1..], x);
      assert forall j :: 1 <= j < k ==> s[j] == s[1..][j - 1];
      k
  }

  /** In a sequence without duplicates an element's position is its index. */
  lemma PositionOfDistinct(s: seq<Label>, i: nat)
    requires Distinct(s) && i < |s|
    ensures Position(s, s[i]) == i
  {
  }

  /** s with x placed at index k. */
  function InsertAt(s: seq<Label>, k: nat, x: Label): (r: seq<Label>)
    requires k <= |s|
    ensures |r| == |s| + 1 && r[k] == x
    ensures forall y :: y in r <==> y == x || y in s
  {
    assert s == s[..k] + s[k..];
    s[..k] + [x] + s[k..]
  }

  /** s without its element at index k. */
  function DeleteAt(s: seq<Label>, k: nat): (r: seq<Label>)
    requires k < |s|
    ensures |r| == |s| - 1
    ensures Distinct(s) ==> forall y :: y in r <==> y in s && y != s[k]
  {
    assert s == s[..k] + [s[k]] + s[k + 1..];
    s[..k] + s[k + 1..]
  }

  lemma InsertAtDistinct(s: seq<Label>, k: nat, x: Label)
    requires k <= |s| && Distinct(s) && x !in s
    ensures Distinct(InsertAt(s, k, x))
  {
    var r := InsertAt(s, k, x);
    forall i, j | 0 <= i < j < |r| ensures r[i] != r[j] {
      if i < k && k < j {
        assert r[i] == s[i] && r[j] == s[j - 1];
      } else if k < i {
        assert r[i] == s[i - 1] && r[j] == s[j - 1];
      } else if j < k {
        assert r[i] == s[i] && r[j] == s[j];
      } else if i == k {
        assert r[j] == s[j - 1];
      } else {
        assert r[i] == s[i];
      }
    }
  }

  lemma DeleteAtDistinct(s: seq<Label>, k: nat)
    requires k < |s| && Distinct(s)
    ensures Distinct(DeleteAt(s, k))
  {
    var r := DeleteAt(s, k);
    forall i, j | 0 <= i < j < |r| ensures r[i] != r[j] {
      var i' := if i < k then i else i + 1;
      var j' := if j < k then j else j + 1;
      assert r[i] == s[i'] && r[j] == s[j'];
    }
  }

  /** The map from label to column of a table given column by column. */
  function ColumnMap(labels: seq<Label>, cells: seq<seq<Cell>>): (m: map<Label, seq<Cell>>)
    requires |labels| == |cells|
    ensures forall c :: c in m <==> c in labels
    ensures Distinct(labels) ==> forall i :: 0 <= i < |labels| ==> m[labels[i]] == cells[i]
  {
    if |labels| == 0 then map[]
    else ColumnMap(labels[1..], cells[1..])[labels[0] := cells[0]]
  }

  /** A pandas DataFrame with distinct column labels: the column order, the
      values under each label and the common column height. */
  class Frame {
    var columns: seq<Label>
    var data: map<Label, seq<Cell>>
    var height: nat

    ghost predicate Valid()
      reads this
    {
      && (forall c :: c in data <==> c in columns)
      && Distinct(columns)
      && (forall c :: c in data ==> |data[c]| == height)
    }

    /** A frame built column by column. */
    constructor (labels: seq<Label>, cells: seq<seq<Cell>>, rows: nat)
      requires |labels| == |cells| && Distinct(labels)
      requires forall i :: 0 <= i < |cells| ==> |cells[i]| == rows
      ensures Valid()
      ensures columns == labels && data == ColumnMap(labels, cells) && height == rows
    {
      columns := labels;
      data := ColumnMap(labels, cells);
      height := rows;
      new;
      forall c | c in data ensures |data[c]| == height {
        var i :| 0 <= i < |labels| && labels[i] == c;
      }
    }

    /** `columns.get_loc(col)`: the index of a column, KeyError when absent. */
    function GetLoc(col: Label): (r: Result<nat>)
      reads this
      ensures r.Ok? <==> col in columns
      ensures r.Ok? ==> r.value < |columns| && columns[r.value] == col
      ensures r.Err? ==> r.error == KeyError(Header(col))
    {
      var k := Position(columns, col);
      if k < |columns| then Ok(k) else Err(KeyError(Header(col)))
    }

    /** `pop(col)`: removes a column and returns its values. */
    method Pop(col: Label) returns (values: seq<Cell>)
      requires Valid() && col in columns
      modifies this
      ensures Valid()
      ensures columns == DeleteAt(old(columns), Position(old(columns), col))
      ensures data == old(data) - {col} && height == old(height)
      ensures values == old(data[col])
    {
      values := data[col];
      DeleteAtDistinct(columns, Position(columns, col));
      columns := DeleteAt(columns, Position(columns, col));
      data := data - {col};
    }

    /** `insert(loc, col, values)`: a new column at index loc. */
    method Insert(loc: nat, col: Label, values: seq<Cell>)
      requires Valid() && loc <= |columns| && col !in columns && |values| == height
      modifies this
      ensures Valid()
      ensures columns == InsertAt(old(columns), loc, col)
      ensures data == old(data)[col := values] && height == old(height)
    {
      InsertAtDistinct(columns, loc, col);
      columns := InsertAt(columns, loc, col);
      data := data[col := values];
    }

    /** `loc[:, col] = values` for a label the frame does not have yet: the
        column is added after the last one. */
    method AppendColumn(col: Label, values: seq<Cell>)
      requires Valid() && col !in columns && |values| == height
      modifies this
      ensures Valid()
      ensures columns == old(columns) + [col]
      ensures data == old(data)[col := values] && height == old(height)
    {
      columns := columns + [col];
      data := data[col := values];
    }

    /** `insert(get_loc(anchor), col, pop(col))`: the index of the anchor
        is taken before the column is popped. */
    method MoveBefore(col: Label, anchor: Label)
      requires Valid() && col in columns && anchor in columns
      modifies this
      ensures Valid()
      ensures |DeleteAt(old(columns), Position(old(columns), col))| >= Position(old(columns), anchor)
      ensures columns == InsertAt(DeleteAt(old(columns), Position(old(columns), col)),
                                  Position(old(columns), anchor), col)
      ensures data == old(data) && height == old(height)
    {
      ghost var before, d := columns, data;
      var loc := GetLoc(anchor).value;
      assert loc == Position(before, anchor);
      var values := Pop(col);
      Insert(loc, col, values);
      PopThenRestore(d, col);
    }
  }

  /** Popping a column and putting its values back under the same label
      gives back the same columns. */
  lemma PopThenRestore(d: map<Label, seq<Cell>>, col: Label)
    requires col in d
    ensures (d - {col})[col := d[col]] == d
  {
  }

  // ---------------------------------------------------------------------------
  // get_sum_stats_by_group

  /** The labels of the aggregated frame's flattened column names. */
  function AggregatedLabels(names: seq<string>): (r: seq<Label>)
    ensures |r| == |names|
    ensures forall i :: 0 <= i < |names| ==> r[i] == Aggregated(names[i])
  {
    seq(|names|, i requires 0 <= i < |names| => Aggregated(names[i]))
  }

  lemma AggregatedLabelsDistinct(names: seq<string>)
    requires Distinct(names)
    ensures Distinct(AggregatedLabels(names))
    ensures forall n :: Aggregated(n) in AggregatedLabels(names) <==> n in names
    ensures forall l :: l in AggregatedLabels(names) ==> l.Aggregated?
  {
    var r := AggregatedLabels(names);
    forall n | n in names ensures Aggregated(n) in r {
      var i :| 0 <= i < |names| && names[i] == n;
      assert r[i] == Aggregated(n);
    }
  }

  function ArrivalCells(rows: seq<ArrivalRow>): (r: seq<Cell>)
    ensures |r| == |rows|
    ensures forall j :: 0 <= j < |rows| ==> r[j] == Num(rows[j].trainArrivals as real)
  {
    seq(|rows|, j requires 0 <= j < |rows| => Num(rows[j].trainArrivals as real))
  }

  function MeanCells(rows: seq<MeanRow>): (r: seq<Cell>)
    ensures |r| == |rows|
    ensures forall j :: 0 <= j < |rows| ==> r[j] == Num(rows[j].meanMinLate)
  {
    seq(|rows|, j requires 0 <= j < |rows| => Num(rows[j].meanMinLate))
  }

  function KeyCells(gs: seq<string>): (r: seq<Cell>)
    ensures |r| == |gs|
    ensures forall j :: 0 <= j < |gs| ==> r[j] == Key(gs[j])
  {
    seq(|gs|, j requires 0 <= j < |gs| => Key(gs[j]))
  }

  /** The ratio columns that follow Train Arrivals, when their totals are given. */
  function RatioColumns(withArrivalRatio: bool, withDetrainRatio: bool): (c: seq<Label>)
    ensures |c| == (if withArrivalRatio then 1 else 0) + (if withDetrainRatio then 1 else 0)
  {
    (if withArrivalRatio then [Added(ArrivalRatioColumn)] else [])
    + (if withDetrainRatio then [Added(DetrainRatioColumn)] else [])
  }

  const LateColumns := [Added(LateRatioColumn), Added(MeanMinLateColumn), Added(OnTimeColumn)]

  /** The final column order, where t is the index of the total among the
      aggregated columns: Train Arrivals is moved in front of the total, the
      late ratio, the mean minutes late and the on-time count are appended,
      then each ratio column that is present is moved in front of the total. */
  function SumStatsColumns(cols: seq<Label>, t: nat, withArrivalRatio: bool, withDetrainRatio: bool): (c: seq<Label>)
    requires t <= |cols|
    ensures |c| == |cols| + 4 + |RatioColumns(withArrivalRatio, withDetrainRatio)|
    ensures forall l :: l in c ==> l in cols || l.Added?
  {
    var c0 := InsertAt(cols, t, Added(TrainArrivalsColumn)) + LateColumns;
    var c1 := if withArrivalRatio then InsertAt(c0, t + 1, Added(ArrivalRatioColumn)) else c0;
    if withDetrainRatio then InsertAt(c1, t + 1 + |RatioColumns(withArrivalRatio, false)|, Added(DetrainRatioColumn))
    else c1
  }

  /** The aggregated columns keep their order; Train Arrivals and the ratio
      columns sit immediately before the total; the late ratio, the mean
      minutes late and the on-time count come last. */
  lemma {:induction false} SumStatsColumnsLayout(cols: seq<Label>, t: nat, a: bool, d: bool)
    requires t <= |cols|
    ensures SumStatsColumns(cols, t, a, d)
         == cols[..t] + ([Added(TrainArrivalsColumn)] + RatioColumns(a, d)) + (cols[t..] + LateColumns)
  {
    var tail := cols[t..] + LateColumns;
    var pre := cols[..t] + [Added(TrainArrivalsColumn)];
    var c0 := InsertAt(cols, t, Added(TrainArrivalsColumn)) + LateColumns;
    assert c0 == pre + tail;
    var pre1 := pre + RatioColumns(a, false);
    var c1 := if a then InsertAt(c0, t + 1, Added(ArrivalRatioColumn)) else c0;
    assert c1 == pre1 + tail by {
      if a {
        InsertBetween(pre, tail, Added(ArrivalRatioColumn));
      }
    }
    var c2 := if d then InsertAt(c1, t + 1 + |RatioColumns(a, false)|, Added(DetrainRatioColumn)) else c1;
    var pre2 := pre1 + RatioColumns(false, d);
    assert c2 == pre2 + tail by {
      if d {
        assert |pre1| == t + 1 + |RatioColumns(a, false)|;
        assert RatioColumns(false, d) == [Added(DetrainRatioColumn)];
        InsertBetween(pre1, tail, Added(DetrainRatioColumn));
      } else {
        assert RatioColumns(false, d) == [];
        assert pre2 == pre1;
      }
    }
    assert pre2 == cols[..t] + ([Added(TrainArrivalsColumn)] + RatioColumns(a, d)) by {
      Regroup(cols[..t], [Added(TrainArrivalsColumn)], RatioColumns(a, false), RatioColumns(false, d));
      assert RatioColumns(a, false) + RatioColumns(false, d) == RatioColumns(a, d);
    }
  }

  lemma Regroup(w: seq<Label>, x: seq<Label>, y: seq<Label>, z: seq<Label>)
    ensures w + x + y + z == w + (x + (y + z))
  {
  }

  /** Inserting at the boundary of a concatenation. */
  lemma InsertBetween(x: seq<Label>, y: seq<Label>, e: Label)
    ensures InsertAt(x + y, |x|, e) == x + [e] + y
  {
    assert (x + y)[..|x|] == x && (x + y)[|x|..] == y;
  }

  /** In a duplicate-free splice x + mid + y, the middle part is mid and the
      first element of y sits right after it. */
  lemma SplicePosition(x: seq<Label>, mid: seq<Label>, y: seq<Label>)
    requires Distinct(x + mid + y) && |y| > 0
    ensures (x + mid + y)[|x|..|x| + |mid|] == mid
    ensures Position(x + mid + y, y[0]) == |x| + |mid|
  {
    Middle(x, mid, y);
    PositionOfDistinct(x + mid + y, |x| + |mid|);
  }

  lemma Middle(x: seq<Label>, m: seq<Label>, y: seq<Label>)
    ensures (x + m + y)[..|x|] == x
    ensures (x + m + y)[|x|..|x| + |m|] == m
    ensures (x + m + y)[|x| + |m|..] == y
  {
  }

  /** The added labels differ from each other. */
  lemma AddedDistinct(a: bool, d: bool)
    ensures Distinct([Added(TrainArrivalsColumn)] + RatioColumns(a, d) + LateColumns)
  {
    var e := [Added(TrainArrivalsColumn)] + RatioColumns(a, d) + LateColumns;
    if a && d {
      assert e == [Added(TrainArrivalsColumn), Added(ArrivalRatioColumn), Added(DetrainRatioColumn)] + LateColumns;
    } else if a {
      assert e == [Added(TrainArrivalsColumn), Added(ArrivalRatioColumn)] + LateColumns;
    } else if d {
      assert e == [Added(TrainArrivalsColumn), Added(DetrainRatioColumn)] + LateColumns;
    } else {
      assert e == [Added(TrainArrivalsColumn)] + LateColumns;
    }
  }

  /** Splicing added columns into aggregated ones keeps every label distinct. */
  lemma SpliceDistinct(cols: seq<Label>, t: nat, mid: seq<Label>)
    requires t <= |cols| && Distinct(cols) && Distinct(mid + LateColumns)
    requires forall l :: l in cols ==> l.Aggregated?
    requires forall l :: l in mid ==> l.Added?
    ensures Distinct(cols[..t] + mid + (cols[t..] + LateColumns))
  {
    var extra := mid + LateColumns;
    var c := cols[..t] + mid + (cols[t..] + LateColumns);
    var k := t + |mid|;
    var n := |cols| + |mid|;
    forall i, j | 0 <= i < j < |c| ensures c[i] != c[j] {
      var inCols := (i: int) => i < t || (k <= i < n);
      if inCols(i) && inCols(j) {
        var i' := if i < t then i else i - |mid|;
        var j' := if j < t then j else j - |mid|;
        assert c[i] == cols[i'] && c[j] == cols[j'];
      } else if !inCols(i) && !inCols(j) {
        var i' := if i < k then i - t else i - n + |mid|;
        var j' := if j < k then j - t else j - n + |mid|;
        assert c[i] == extra[i'] && c[j] == extra[j'];
      } else if inCols(i) {
        assert c[i] in cols;
        assert c[j] in extra;
      } else {
        assert c[j] in cols;
        assert c[i] in extra;
      }
    }
  }

  /** The result holds no label twice. */
  lemma SumStatsColumnsDistinct(cols: seq<Label>, t: nat, a: bool, d: bool)
    requires t <= |cols| && Distinct(cols)
    requires forall l :: l in cols ==> l.Aggregated?
    ensures Distinct(SumStatsColumns(cols, t, a, d))
  {
    SumStatsColumnsLayout(cols, t, a, d);
    AddedDistinct(a, d);
    SpliceDistinct(cols, t, [Added(TrainArrivalsColumn)] + RatioColumns(a, d));
  }

  /** The total is preceded by Train Arrivals, then Train Arrival Ratio and
      Detraining Ratio when present. */
  lemma DerivedColumnsPrecedeTotal(cols: seq<Label>, a: bool, d: bool)
    requires Distinct(cols) && Total in cols
    requires forall l :: l in cols ==> l.Aggregated?
    ensures var t := Position(cols, Total);
      var c := SumStatsColumns(cols, t, a, d);
      var k := t + 1 + |RatioColumns(a, d)|;
      && c[t..k] == [Added(TrainArrivalsColumn)] + RatioColumns(a, d)
      && Position(c, Total) == k
  {
    var t := Position(cols, Total);
    var mid := [Added(TrainArrivalsColumn)] + RatioColumns(a, d);
    var y := cols[t..] + LateColumns;
    SumStatsColumnsDistinct(cols, t, a, d);
    SumStatsColumnsLayout(cols, t, a, d);
    assert y[0] == Total;
    SplicePosition(cols[..t], mid, y);
  }

  /** The headers of the result are distinct when no aggregated column is
      named like an added one. */
  lemma SumStatsHeadersDistinct(cols: seq<Label>, a: bool, d: bool)
    requires Distinct(cols) && Total in cols
    requires forall l :: l in cols ==> l.Aggregated? && l.name !in DerivedHeaders
    ensures var c := SumStatsColumns(cols, Position(cols, Total), a, d);
      forall i, j :: 0 <= i < j < |c| ==> Header(c[i]) != Header(c[j])
  {
    var c := SumStatsColumns(cols, Position(cols, Total), a, d);
    SumStatsColumnsDistinct(cols, Position(cols, Total), a, d);
    forall i, j | 0 <= i < j < |c| ensures Header(c[i]) != Header(c[j]) {
      assert c[i] in c && c[j] in c;
      HeaderInjective(c[i], c[j]);
    }
  }

  /** `insert(get_loc(total), col, pop(col))` right after `col` was
      assigned: the new column lands immediately before the total. */
  method AddBeforeTotal(stats: Frame, col: Label, values: seq<Cell>)
    requires stats.Valid() && Total in stats.columns && col !in stats.columns
    requires |values| == stats.height
    modifies stats
    ensures stats.Valid()
    ensures stats.columns == InsertAt(old(stats.columns), Position(old(stats.columns), Total), col)
    ensures stats.data == old(stats.data)[col := values] && stats.height == old(stats.height)
  {
    ghost var before := stats.columns;
    stats.AppendColumn(col, values);
    MoveLast(before, col, Position(before, Total));
    stats.MoveBefore(col, Total);
  }

  /** Moving the last column of a frame before the column at index k. */
  lemma MoveLast(s: seq<Label>, x: Label, k: nat)
    requires Distinct(s + [x]) && k < |s|
    ensures Position(s + [x], x) == |s|
    ensures Position(s + [x], s[k]) == k
    ensures DeleteAt(s + [x], |s|) == s
  {
    PositionOfDistinct(s + [x], |s|);
    PositionOfDistinct(s + [x], k);
  }

  /** The columns once Train Arrivals, the late ratio, the mean minutes late
      and the on-time count have been added to the aggregated columns. */
  ghost function LateData(base: map<Label, seq<Cell>>, arrivals: seq<Cell>, means: seq<Cell>): (m: map<Label, seq<Cell>>)
    requires Total in base && Late in base
    requires |base[Late]| == |base[Total]|
    ensures Total in m && Added(TrainArrivalsColumn) in m
  {
    base[Added(TrainArrivalsColumn) := arrivals]
        [Added(LateRatioColumn) := Ratio(base[Late], base[Total])]
        [Added(MeanMinLateColumn) := means]
        [Added(OnTimeColumn) := Difference(base[Total], base[Late])]
  }

  /** The columns once Train Arrival Ratio has been added, if the total
      number of arrivals is truthy. */
  ghost function WithArrivalRatio(m: map<Label, seq<Cell>>, totalArrivals: PyVal): (r: map<Label, seq<Cell>>)
    requires Added(TrainArrivalsColumn) in m
    ensures forall l :: l in m ==> l in r
  {
    if Truthy(totalArrivals) && Numeric(totalArrivals).Some?
    then m[Added(ArrivalRatioColumn) := Scaled(m[Added(TrainArrivalsColumn)], Numeric(totalArrivals).value)]
    else m
  }

  /** The columns once Detraining Ratio has been added, if the total number
      of detraining customers is truthy. */
  ghost function WithDetrainRatio(m: map<Label, seq<Cell>>, totalDetrain: PyVal): map<Label, seq<Cell>>
    requires Total in m
  {
    if Truthy(totalDetrain) && Numeric(totalDetrain).Some?
    then m[Added(DetrainRatioColumn) := Scaled(m[Total], Numeric(totalDetrain).value)]
    else m
  }

  /** The columns once each ratio whose total is truthy has been added. */
  ghost function RatioData(m: map<Label, seq<Cell>>, totalArrivals: PyVal, totalDetrain: PyVal): map<Label, seq<Cell>>
    requires Total in m && Added(TrainArrivalsColumn) in m
  {
    WithDetrainRatio(WithArrivalRatio(m, totalArrivals), totalDetrain)
  }

  /** The columns of the result, by col. */
  ghost function SumStatsData(base: map<Label, seq<Cell>>, arrivals: seq<Cell>, means: seq<Cell>,
                              totalArrivals: PyVal, totalDetrain: PyVal): map<Label, seq<Cell>>
    requires Total in base && Late in base
    requires |base[Late]| == |base[Total]|
  {
    RatioData(LateData(base, arrivals, means), totalArrivals, totalDetrain)
  }

  /** The aggregated columns come through unchanged, and Train Arrivals and
      the mean minutes late hold the merged values. */
  lemma SumStatsDataKeepsColumns(base: map<Label, seq<Cell>>, arrivals: seq<Cell>, means: seq<Cell>,
                                 totalArrivals: PyVal, totalDetrain: PyVal)
    requires Total in base && Late in base
    requires |base[Late]| == |base[Total]|
    requires forall l :: l in base ==> l.Aggregated?
    ensures var m := SumStatsData(base, arrivals, means, totalArrivals, totalDetrain);
      && (forall l :: l in base ==> l in m && m[l] == base[l])
      && Added(TrainArrivalsColumn) in m && m[Added(TrainArrivalsColumn)] == arrivals
      && Added(MeanMinLateColumn) in m && m[Added(MeanMinLateColumn)] == means
  {
  }

  /** "Total On Time Detraining Customers sum" is the total less the late
      count and the late ratio is their quotient, row by row. */
  lemma SumStatsDataLateColumns(base: map<Label, seq<Cell>>, arrivals: seq<Cell>, means: seq<Cell>,
                                totalArrivals: PyVal, totalDetrain: PyVal, i: nat)
    requires Total in base && Late in base
    requires |base[Late]| == |base[Total]| && i < |base[Total]|
    ensures var m := SumStatsData(base, arrivals, means, totalArrivals, totalDetrain);
      && Added(OnTimeColumn) in m && Added(LateRatioColumn) in m
      && |m[Added(OnTimeColumn)]| == |m[Added(LateRatioColumn)]| == |base[Total]|
      && m[Added(OnTimeColumn)][i] == Minus(base[Total][i], base[Late][i])
      && m[Added(LateRatioColumn)][i] == Divide(base[Late][i], base[Total][i])
  {
  }

  /** Each ratio column is present exactly when its total is truthy, and
      divides that row's train arrivals or total by it. */
  lemma SumStatsDataRatios(base: map<Label, seq<Cell>>, arrivals: seq<Cell>, means: seq<Cell>,
                           totalArrivals: PyVal, totalDetrain: PyVal, i: nat)
    requires Total in base && Late in base
    requires |base[Late]| == |base[Total]|
    requires forall l :: l in base ==> l.Aggregated?
    requires Truthy(totalArrivals) ==> Numeric(totalArrivals).Some?
    requires Truthy(totalDetrain) ==> Numeric(totalDetrain).Some?
    ensures var m := SumStatsData(base, arrivals, means, totalArrivals, totalDetrain);
      && (Added(ArrivalRatioColumn) in m <==> Truthy(totalArrivals))
      && (Added(DetrainRatioColumn) in m <==> Truthy(totalDetrain))
      && (Truthy(totalArrivals) && i < |arrivals| ==>
            |m[Added(ArrivalRatioColumn)]| == |arrivals| &&
            m[Added(ArrivalRatioColumn)][i] == Divide(arrivals[i], Num(Numeric(totalArrivals).value)))
      && (Truthy(totalDetrain) && i < |base[Total]| ==>
            |m[Added(DetrainRatioColumn)]| == |base[Total]| &&
            m[Added(DetrainRatioColumn)][i] == Divide(base[Total][i], Num(Numeric(totalDetrain).value)))
  {
  }

  /** The late ratio, the mean minutes late and the on-time count, appended in
      that order once Train Arrivals sits before the total. */
  method AppendLateColumns(stats: Frame, ghost cols: seq<Label>, ghost t: nat, means: seq<Cell>)
    requires stats.Valid() && t < |cols|
    requires stats.columns == InsertAt(cols, t, Added(TrainArrivalsColumn))
    requires forall l :: l in cols ==> l.Aggregated?
    requires Total in stats.data && Late in stats.data && |means| == stats.height
    modifies stats
    ensures stats.Valid() && stats.height == old(stats.height)
    ensures stats.columns == SumStatsColumns(cols, t, false, false)
    ensures var d := old(stats.data);
      stats.data == d[Added(LateRatioColumn) := Ratio(d[Late], d[Total])]
                     [Added(MeanMinLateColumn) := means]
                     [Added(OnTimeColumn) := Difference(d[Total], d[Late])]
  {
    ghost var c0 := stats.columns;
    SumStatsColumnsSteps(cols, t, false);
    LateColumnsAreNew(c0);
    var lateRatio := Ratio(stats.data[Late], stats.data[Total]);
    var onTime := Difference(stats.data[Total], stats.data[Late]);
    stats.AppendColumn(Added(LateRatioColumn), lateRatio);
    stats.AppendColumn(Added(MeanMinLateColumn), means);
    stats.AppendColumn(Added(OnTimeColumn), onTime);
    AppendThree(c0);
  }

  /** None of the late columns is among the aggregated columns and Train
      Arrivals, nor among the late columns appended before it. */
  lemma LateColumnsAreNew(c0: seq<Label>)
    requires forall l :: l in c0 ==> l.Aggregated? || l == Added(TrainArrivalsColumn)
    ensures Added(LateRatioColumn) !in c0
    ensures Added(MeanMinLateColumn) !in c0 + [Added(LateRatioColumn)]
    ensures Added(OnTimeColumn) !in c0 + [Added(LateRatioColumn)] + [Added(MeanMinLateColumn)]
  {
  }

  lemma AppendThree(c0: seq<Label>)
    ensures c0 + [Added(LateRatioColumn)] + [Added(MeanMinLateColumn)] + [Added(OnTimeColumn)] == c0 + LateColumns
  {
  }

  /** Where the total sits once Train Arrivals and the first ratio have been
      moved before it. */
  lemma TotalAfterMoves(cols: seq<Label>, t: nat, a: bool)
    requires t < |cols| && cols[t] == Total
    requires Distinct(SumStatsColumns(cols, t, a, false))
    ensures Position(SumStatsColumns(cols, t, a, false), Total) == t + 1 + |RatioColumns(a, false)|
  {
    var k := t + 1 + |RatioColumns(a, false)|;
    SumStatsColumnsLayout(cols, t, a, false);
    assert SumStatsColumns(cols, t, a, false)[k] == cols[t];
    PositionOfDistinct(SumStatsColumns(cols, t, a, false), k);
  }

  /** The column order after each step: Train Arrivals and the three late
      columns first, then each ratio column inserted right before the total. */
  lemma SumStatsColumnsSteps(cols: seq<Label>, t: nat, a: bool)
    requires t <= |cols|
    ensures SumStatsColumns(cols, t, false, false) == InsertAt(cols, t, Added(TrainArrivalsColumn)) + LateColumns
    ensures SumStatsColumns(cols, t, true, false)
         == InsertAt(SumStatsColumns(cols, t, false, false), t + 1, Added(ArrivalRatioColumn))
    ensures SumStatsColumns(cols, t, a, true)
         == InsertAt(SumStatsColumns(cols, t, a, false), t + 1 + |RatioColumns(a, false)|, Added(DetrainRatioColumn))
  {
  }

  /** Before a ratio column is added, the frame does not hold it. */
  lemma RatiosNotYetPresent(cols: seq<Label>, t: nat, a: bool)
    requires t <= |cols| && forall l :: l in cols ==> l.Aggregated?
    ensures Added(ArrivalRatioColumn) !in SumStatsColumns(cols, t, false, false)
    ensures Added(DetrainRatioColumn) !in SumStatsColumns(cols, t, a, false)
  {
    SumStatsColumnsLayout(cols, t, false, false);
    SumStatsColumnsLayout(cols, t, a, false);
    assert Added(ArrivalRatioColumn) !in LateColumns && Added(DetrainRatioColumn) !in LateColumns;
    assert Added(DetrainRatioColumn) !in RatioColumns(a, false);
  }

  /** Train Arrival Ratio, moved before the total, when the total number of
      arrivals is truthy. */
  method AddArrivalRatio(stats: Frame, ghost cols: seq<Label>, ghost t: nat, totalArrivals: PyVal)
    requires stats.Valid() && t < |cols| && cols[t] == Total
    requires forall l :: l in cols ==> l.Aggregated?
    requires stats.columns == SumStatsColumns(cols, t, false, false)
    requires Added(TrainArrivalsColumn) in stats.data
    requires Truthy(totalArrivals) ==> Numeric(totalArrivals).Some?
    modifies stats
    ensures stats.Valid() && stats.height == old(stats.height)
    ensures stats.columns == SumStatsColumns(cols, t, Truthy(totalArrivals), false)
    ensures stats.data == WithArrivalRatio(old(stats.data), totalArrivals)
  {
    if Truthy(totalArrivals) {
      TotalAfterMoves(cols, t, false);
      RatiosNotYetPresent(cols, t, false);
      SumStatsColumnsSteps(cols, t, false);
      AddBeforeTotal(stats, Added(ArrivalRatioColumn),
                     Scaled(stats.data[Added(TrainArrivalsColumn)], Numeric(totalArrivals).value));
    }
  }

  /** Detraining Ratio, moved before the total, when the total number of
      detraining customers is truthy. */
  method AddDetrainRatio(stats: Frame, ghost cols: seq<Label>, ghost t: nat, ghost a: bool, totalDetrain: PyVal)
    requires stats.Valid() && t < |cols| && cols[t] == Total
    requires forall l :: l in cols ==> l.Aggregated?
    requires stats.columns == SumStatsColumns(cols, t, a, false)
    requires Total in stats.data
    requires Truthy(totalDetrain) ==> Numeric(totalDetrain).Some?
    modifies stats
    ensures stats.Valid() && stats.height == old(stats.height)
    ensures stats.columns == SumStatsColumns(cols, t, a, Truthy(totalDetrain))
    ensures stats.data == WithDetrainRatio(old(stats.data), totalDetrain)
  {
    if Truthy(totalDetrain) {
      TotalAfterMoves(cols, t, a);
      RatiosNotYetPresent(cols, t, a);
      SumStatsColumnsSteps(cols, t, a);
      AddBeforeTotal(stats, Added(DetrainRatioColumn),
                     Scaled(stats.data[Total], Numeric(totalDetrain).value));
    }
  }

  /** The steps of get_sum_stats_by_group once the aggregated frame, the
      train arrivals and the mean minutes late per group are known and no
      error can occur. */
  method SumStatsFrame(cols: seq<Label>, cells: seq<seq<Cell>>, height: nat,
                       arrivals: seq<Cell>, means: seq<Cell>,
                       totalArrivals: PyVal, totalDetrain: PyVal)
    returns (stats: Frame)
    requires |cols| == |cells| && Distinct(cols) && Total in cols && Late in cols
    requires forall l :: l in cols ==> l.Aggregated?
    requires forall i :: 0 <= i < |cells| ==> |cells[i]| == height
    requires |arrivals| == height && |means| == height
    requires Truthy(totalArrivals) ==> Numeric(totalArrivals).Some?
    requires Truthy(totalDetrain) ==> Numeric(totalDetrain).Some?
    ensures fresh(stats) && stats.Valid() && stats.height == height
    ensures Total in ColumnMap(cols, cells) && Late in ColumnMap(cols, cells)
    ensures |ColumnMap(cols, cells)[Late]| == |ColumnMap(cols, cells)[Total]|
    ensures stats.columns == SumStatsColumns(cols, Position(cols, Total), Truthy(totalArrivals), Truthy(totalDetrain))
    ensures stats.data == SumStatsData(ColumnMap(cols, cells), arrivals, means, totalArrivals, totalDetrain)
  {
    stats := new Frame(cols, cells, height);
    ghost var t := Position(cols, Total);
    // Train Arrivals, merged on the group key and moved before the total.
    AddBeforeTotal(stats, Added(TrainArrivalsColumn), arrivals);
    // The late ratio, the mean minutes late and the on-time count.
    AppendLateColumns(stats, cols, t, means);
    // The ratios to the totals, each moved before the total.
    AddArrivalRatio(stats, cols, t, totalArrivals);
    AddDetrainRatio(stats, cols, t, Truthy(totalArrivals), totalDetrain);
  }

  /** get_sum_stats_by_group on the aggregated frame given by `labels` and
      `cells` (one row per group, in group order) and on the rows `obs` of
      the input frame (group key and minutes late). The IndexError of
      flatten_columns, the KeyErrors and the TypeErrors do not depend on the
      frame's state and are decided first, in the order the source meets them. */
  method GetSumStatsByGroup(groupColumn: string, obs: seq<Observation>,
                            labels: seq<ColumnLabel>, cells: seq<seq<Cell>>,
                            totalArrivals: PyVal, totalDetrain: PyVal)
    returns (r: Result<Frame>)
    requires |labels| == |cells| && Distinct(FlattenColumnsCorrected(labels))
    requires forall i :: 0 <= i < |cells| ==> |cells[i]| == |GroupKeys(Keys(obs))|
    requires forall i :: 0 <= i < |labels| ==> FlattenColumn(labels[i]) !in DerivedHeaders
    requires forall i :: 0 <= i < |labels| && FlattenColumn(labels[i]) == groupColumn ==>
      cells[i] == KeyCells(GroupKeys(Keys(obs)))
    ensures (exists i :: 0 <= i < |labels| && labels[i].Name? && |labels[i].name| < 2) ==> r == Err(IndexError)
    ensures var flat := FlattenColumns(labels);
      flat.Ok? && groupColumn !in flat.value ==> r == Err(KeyError(groupColumn))
    ensures var flat := FlattenColumns(labels);
      flat.Ok? && groupColumn in flat.value && TotalDetrain !in flat.value ==> r == Err(KeyError(TotalDetrain))
    ensures var flat := FlattenColumns(labels);
      flat.Ok? && groupColumn in flat.value && TotalDetrain in flat.value && LateDetrain !in flat.value ==>
        r == Err(KeyError(LateDetrain))
    ensures var flat := FlattenColumns(labels);
      flat.Ok? && groupColumn in flat.value && TotalDetrain in flat.value && LateDetrain in flat.value ==>
        && (r.Ok? <==> !(Truthy(totalArrivals) && Numeric(totalArrivals).None?)
                       && !(Truthy(totalDetrain) && Numeric(totalDetrain).None?))
        && (r.Err? ==> r.error.TypeError?)
    ensures r.Ok? ==>
      var cols := AggregatedLabels(FlattenColumnsCorrected(labels));
      var base := ColumnMap(cols, cells);
      && fresh(r.value) && r.value.Valid()
      && r.value.height == |GroupKeys(Keys(obs))|
      && Total in base && Late in base && |base[Late]| == |base[Total]|
      && r.value.columns == SumStatsColumns(cols, Position(cols, Total),
                                            Truthy(totalArrivals), Truthy(totalDetrain))
      && r.value.data == SumStatsData(base, ArrivalCells(TrainArrivalsOf(Keys(obs))),
                                      MeanCells(GetMeanMinLateByGroups(groupColumn, obs).rows),
                                      totalArrivals, totalDetrain)
  {
    // flatten_columns, before any merge.
    var flat := FlattenColumns(labels);
    if flat.Err? {
      return Err(IndexError);
    }
    var names := flat.value;
    // merge(on=groups), get_loc, the late column, and the divisions by the totals.
    if groupColumn !in names {
      return Err(KeyError(groupColumn));
    } else if TotalDetrain !in names {
      return Err(KeyError(TotalDetrain));
    } else if LateDetrain !in names {
      return Err(KeyError(LateDetrain));
    } else if Truthy(totalArrivals) && Numeric(totalArrivals).None? {
      return Err(TypeError("unsupported operand type(s) for /"));
    } else if Truthy(totalDetrain) && Numeric(totalDetrain).None? {
      return Err(TypeError("unsupported operand type(s) for /"));
    }
    var cols := AggregatedLabels(names);
    AggregatedLabelsDistinct(names);
    var arrivals := GetTrainArrivalsByGroup(Keys(obs));
    var means := GetMeanMinLateByGroups(groupColumn, obs);
    var stats := SumStatsFrame(cols, cells, |GroupKeys(Keys(obs))|, ArrivalCells(arrivals),
                               MeanCells(means.rows), totalArrivals, totalDetrain);
    return Ok(stats);
  }
}
