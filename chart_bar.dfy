/** The reshaping behind the detraining bar chart: each period's total and
    late detraining counts become two rows of a long-format table, one for
    the passengers who detrained on time and one for those who detrained
    late, labelled with the period's "<year>Q<quarter>" text. */
module ChartBar {
  import opened Common
  import AmtkDetrain

  /** The columns of interest of one input row: fiscal year and quarter, and
      the total and late detraining counts. */
  datatype DetrainRecord = DetrainRecord(year: int, quarter: int, total: int, late: int)

  /** A row of the working copy once "Fiscal Period" and "On Time" have been
      added, the late count renamed to "Late" and year, quarter and total
      dropped. */
  datatype PeriodRow = PeriodRow(fiscalPeriod: string, late: int, onTime: int)

  /** The two values of the "Arrival Status" column: the names of the melted
      columns. */
  datatype ArrivalStatus = OnTime | Late

  function StatusName(a: ArrivalStatus): (name: string)
    ensures name == "On Time" || name == "Late"
    ensures a.OnTime? <==> name == "On Time"
  {
    match a
    case OnTime => "On Time"
    case Late => "Late"
  }

  /** A row of the melted table: Fiscal Period, Arrival Status, Passengers. */
  datatype ChartRow = ChartRow(fiscalPeriod: string, arrivalStatus: ArrivalStatus, passengers: int)

  /** `year.astype(str) + "Q" + quarter.astype(str)`. */
  function FiscalPeriod(year: int, quarter: int): (s: string)
    ensures |s| == |IntToString(year)| + 1 + |IntToString(quarter)|
    ensures s[|IntToString(year)|] == 'Q'
    ensures s[..|IntToString(year)|] == IntToString(year)
    ensures s[|IntToString(year)| + 1..] == IntToString(quarter)
  {
    IntToString(year) + "Q" + IntToString(quarter)
  }

  /** Different periods get different labels: the "Q" can only sit right
      after the year's digits, so the label gives back year and quarter. */
  lemma FiscalPeriodInjective(y1: int, q1: int, y2: int, q2: int)
    requires FiscalPeriod(y1, q1) == FiscalPeriod(y2, q2)
    ensures y1 == y2 && q1 == q2
  {
    var s := FiscalPeriod(y1, q1);
    var a, b := IntToString(y1), IntToString(y2);
    assert |a| == |b|;
    IntToStringInjective(y1, y2);
    IntToStringInjective(q1, q2);
  }

  /** The colour of a period's bar follows the parity of its quarter: even
      quarters take the first colour, odd quarters the second. */
  lemma PeriodColorFollowsQuarter(year: int, quarter: int, colors: seq<string>)
    requires |colors| >= 2
    ensures AmtkDetrain.AssignColor(FiscalPeriod(year, quarter), colors)
         == Ok(colors[if quarter % 2 == 0 then 0 else 1])
  {
    var s := FiscalPeriod(year, quarter);
    var q := IntToString(quarter);
    assert s[|s| - 1] == q[|q| - 1];
    LastDigitParity(quarter);
  }

  /** Builds the working copy of the columns of interest as a new sequence:
      each row gets its "Fiscal Period" and "On Time" values, the late count
      becomes "Late", and year, quarter and total are not carried over. The
      frame itself is left as it is. */
  method PeriodRows(frame: array<DetrainRecord>) returns (data: seq<PeriodRow>)
    ensures |data| == frame.Length
    ensures forall i :: 0 <= i < frame.Length ==>
      && data[i].fiscalPeriod == FiscalPeriod(frame[i].year, frame[i].quarter)
      && data[i].late == frame[i].late
      && data[i].onTime + data[i].late == frame[i].total
  {
    data := [];
    for i := 0 to frame.Length
      invariant |data| == i
      invariant forall j :: 0 <= j < i ==>
        data[j] == PeriodRow(FiscalPeriod(frame[j].year, frame[j].quarter), frame[j].late, frame[j].total - frame[j].late)
    {
      var r := frame[i];
      data := data + [PeriodRow(FiscalPeriod(r.year, r.quarter), r.late, r.total - r.late)];
    }
  }

  /** `melt(id_vars="Fiscal Period", value_vars=["On Time", "Late"])`: one
      row per value column and input row, all the On Time rows first, each
      block in input order. */
  method Melt(data: seq<PeriodRow>) returns (chart: seq<ChartRow>)
    ensures |chart| == 2 * |data|
    ensures forall i :: 0 <= i < |data| ==> chart[i] == ChartRow(data[i].fiscalPeriod, OnTime, data[i].onTime)
    ensures forall i :: 0 <= i < |data| ==> chart[|data| + i] == ChartRow(data[i].fiscalPeriod, Late, data[i].late)
  {
    var n := |data|;
    chart := [];
    for i := 0 to n
      invariant |chart| == i
      invariant forall j :: 0 <= j < i ==> chart[j] == ChartRow(data[j].fiscalPeriod, OnTime, data[j].onTime)
    {
      var row := ChartRow(data[i].fiscalPeriod, OnTime, data[i].onTime);
      assert (chart + [row])[..i] == chart;
      chart := chart + [row];
    }
    for i := 0 to n
      invariant |chart| == n + i
      invariant forall j :: 0 <= j < n ==> chart[j] == ChartRow(data[j].fiscalPeriod, OnTime, data[j].onTime)
      invariant forall j :: 0 <= j < i ==> chart[n + j] == ChartRow(data[j].fiscalPeriod, Late, data[j].late)
    {
      var row := ChartRow(data[i].fiscalPeriod, Late, data[i].late);
      assert (chart + [row])[..n + i] == chart;
      chart := chart + [row];
    }
  }

  /** create_detrain_chart_frame on the columns of interest of `frame`: every
      period yields an On Time row and a Late row, whose passengers add up
      to the period's total. */
  method CreateDetrainChartFrame(frame: array<DetrainRecord>) returns (chart: seq<ChartRow>)
    ensures |chart| == 2 * frame.Length
    ensures forall i :: 0 <= i < frame.Length ==>
      chart[i] == ChartRow(FiscalPeriod(frame[i].year, frame[i].quarter), OnTime, frame[i].total - frame[i].late)
    ensures forall i :: 0 <= i < frame.Length ==>
      chart[frame.Length + i] == ChartRow(FiscalPeriod(frame[i].year, frame[i].quarter), Late, frame[i].late)
    ensures forall i :: 0 <= i < frame.Length ==>
      chart[i].passengers + chart[frame.Length + i].passengers == frame[i].total
  {
    var data := PeriodRows(frame);
    chart := Melt(data);
  }
}
