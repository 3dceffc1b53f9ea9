/**
 * The firm admin's monthly emergency bar chart: incidents bucketed by month,
 * the bar colours (current month, busiest month) and the tooltip title.
 */
module AlertBarChart {
  import opened Wrappers
  import opened Text
  import opened Entities
  import opened Session

  const Policy := AuthPolicy(FirmAdmin, true,
    "Access Denied: Only Firm Admins can view this chart.",
    "Firm Admin not assigned to a firm. Cannot display chart data.",
    false)

  const MonthLabels: seq<string> := ["JAN", "FEB", "MAR", "APR", "MAY", "JUN", "JUL", "AUG", "SEP", "OCT", "NOV", "DEC"]

  /** How many of the incidents were created in month `m` (counted from the end, as a running loop sees them). */
  function MonthCount(incidents: seq<Incident>, m: Month): nat
    decreases |incidents|
  {
    if incidents == [] then 0
    else MonthCount(incidents[..|incidents| - 1], m) + (if incidents[|incidents| - 1].createdMonth == Some(m) then 1 else 0)
  }

  /** How many incidents have a creation date that parses. */
  function DatedCount(incidents: seq<Incident>): nat
    decreases |incidents|
  {
    if incidents == [] then 0
    else DatedCount(incidents[..|incidents| - 1]) + (if incidents[|incidents| - 1].createdMonth.Some? then 1 else 0)
  }

  function Sum(s: seq<int>): int
    decreases |s|
  {
    if s == [] then 0 else s[0] + Sum(s[1..])
  }

  /** Adding one to a single bucket adds one to the total. */
  lemma {:induction false} SumIncrement(s: seq<int>, k: nat)
    requires k < |s|
    ensures Sum(s[k := s[k] + 1]) == Sum(s) + 1
    decreases |s|
  {
    if k > 0 {
      SumIncrement(s[1..], k - 1);
      assert s[k := s[k] + 1][1..] == s[1..][k - 1 := s[1..][k - 1] + 1];
    }
  }

  lemma {:induction false} SumZeros(n: nat)
    ensures Sum(seq(n, _ => 0)) == 0
  {
    if n > 0 {
      assert seq(n, _ => 0)[1..] == seq(n - 1, _ => 0);
      SumZeros(n - 1);
    }
  }

  /**
   * `fetchIncidentData`'s aggregation: twelve buckets, January first; an
   * incident whose date does not parse lands in no bucket.
   */
  method MonthlyCounts(incidents: seq<Incident>) returns (counts: seq<int>)
    ensures |counts| == 12
    ensures forall m: Month :: counts[m] == MonthCount(incidents, m)
    ensures Sum(counts) == DatedCount(incidents)
  {
    counts := seq(12, _ => 0);
    SumZeros(12);
    var i := 0;
    while i < |incidents|
      invariant 0 <= i <= |incidents|
      invariant |counts| == 12
      invariant forall m: Month :: counts[m] == MonthCount(incidents[..i], m)
      invariant Sum(counts) == DatedCount(incidents[..i])
    {
      assert incidents[..i + 1][..i] == incidents[..i];
      match incidents[i].createdMonth {
        case Some(m) =>
          SumIncrement(counts, m);
          counts := counts[m := counts[m] + 1];
        case None =>
      }
      i := i + 1;
    }
    assert incidents[..i] == incidents;
  }

  /** The chart's data after a fetch: twelve zeros when the guard refuses. */
  method AfterFetch(caller: Option<UserData>, incidents: seq<Incident>) returns (counts: seq<int>)
    ensures |counts| == 12
    ensures FirmScopedFetch(caller).None? ==> forall m: Month :: counts[m] == 0
    ensures FirmScopedFetch(caller).Some? ==> forall m: Month :: counts[m] == MonthCount(incidents, m)
  {
    if FirmScopedFetch(caller).Some? {
      counts := MonthlyCounts(incidents);
    } else {
      counts := seq(12, _ => 0);
    }
  }

  /** The first index holding the largest count of a non-empty list. */
  function FirstMax(counts: seq<int>): (k: nat)
    requires |counts| > 0
    ensures k < |counts|
    ensures forall j :: 0 <= j < |counts| ==> counts[j] <= counts[k]
    ensures forall j :: 0 <= j < k ==> counts[j] < counts[k]
    decreases |counts|
  {
    if |counts| == 1 then 0
    else
      var k := FirstMax(counts[..|counts| - 1]);
      assert forall j :: 0 <= j < |counts| - 1 ==> counts[..|counts| - 1][j] == counts[j];
      if counts[|counts| - 1] > counts[k] then |counts| - 1 else k
  }

  /** The month to highlight: none before the counts arrive, otherwise the first busiest month. */
  function Highest(counts: seq<int>): (r: Option<nat>)
    ensures r.None? <==> counts == []
    ensures r.Some? ==> r.value < |counts| && forall j :: 0 <= j < |counts| ==> counts[j] <= counts[r.value]
    ensures r.Some? ==> forall j :: 0 <= j < r.value ==> counts[j] < counts[r.value]
  {
    if counts == [] then None else Some(FirstMax(counts))
  }

  /** The chart's scan for the highest month: `maxCount` starts at -1 and only a strictly larger count wins. */
  method ScanHighest(counts: seq<nat>) returns (highest: Option<nat>)
    ensures highest == Highest(counts)
  {
    highest := None;
    if |counts| > 0 {
      var maxCount: int := -1;
      var i := 0;
      while i < |counts|
        invariant 0 <= i <= |counts|
        invariant i == 0 ==> highest.None? && maxCount == -1
        invariant i > 0 ==> highest == Some(FirstMax(counts[..i])) && maxCount == counts[highest.value]
      {
        assert counts[..i + 1][..i] == counts[..i];
        if counts[i] > maxCount {
          maxCount := counts[i];
          highest := Some(i);
        }
        i := i + 1;
      }
      assert counts[..i] == counts;
    }
  }

  /** When every month has the same count (no incidents at all, say), January is the highest month. */
  lemma EqualCountsHighlightJanuary(counts: seq<int>)
    requires |counts| > 0
    requires forall j :: 0 <= j < |counts| ==> counts[j] == counts[0]
    ensures Highest(counts) == Some(0)
  {
  }

  const CurrentColor := "rgb(255, 95, 21)"
  const OtherFill := "rgb(178, 216, 255)"
  const OtherBorder := "rgb(10, 130, 253)"
  const HighestColor := "rgb(229, 62, 62)"

  /** A bar's fill and border colour. */
  datatype BarStyle = BarStyle(fill: string, border: string)

  /**
   * The twelve bars: the current month orange; the highest month red unless
   * it is the current month; every other bar light blue with a blue border.
   */
  function BarStyles(counts: seq<int>, currentMonth: Month): (r: seq<BarStyle>)
    ensures |r| == 12
    ensures r[currentMonth] == BarStyle(CurrentColor, CurrentColor)
    ensures forall i :: 0 <= i < 12 && i != currentMonth && Highest(counts) == Some(i) ==>
      r[i] == BarStyle(HighestColor, HighestColor)
    ensures forall i :: 0 <= i < 12 && i != currentMonth && Highest(counts) != Some(i) ==>
      r[i] == BarStyle(OtherFill, OtherBorder)
  {
    var base := seq(12, i => if i == currentMonth then BarStyle(CurrentColor, CurrentColor) else BarStyle(OtherFill, OtherBorder));
    match Highest(counts)
    case Some(h) => if h != currentMonth && h < 12 then base[h := BarStyle(HighestColor, HighestColor)] else base
    case None => base
  }

  /** Exactly one bar is orange, and at most one is red. */
  lemma OneCurrentAtMostOneHighest(counts: seq<int>, currentMonth: Month, i: nat, j: nat)
    requires i < 12 && j < 12
    ensures BarStyles(counts, currentMonth)[i].fill == CurrentColor <==> i == currentMonth
    ensures BarStyles(counts, currentMonth)[i].fill == HighestColor && BarStyles(counts, currentMonth)[j].fill == HighestColor ==> i == j
  {
  }

  /** The tooltip title of a bar: "<count> Emergency in <MONTH>", or "" for an empty month. */
  function TooltipTitle(counts: seq<int>, index: Month): (r: string)
    ensures index < |counts| && counts[index] > 0 ==>
      r == NatToString(counts[index]) + " Emergency in " + MonthLabels[index]
    ensures !(index < |counts| && counts[index] > 0) ==> r == ""
  {
    if index < |counts| && counts[index] > 0 then NatToString(counts[index]) + " Emergency in " + MonthLabels[index] else ""
  }

  /** The title of a month with incidents names that month and, in decimal, its count. */
  lemma TooltipNamesMonth(counts: seq<int>, index: Month)
    requires index < |counts| && counts[index] > 0
    ensures var t := TooltipTitle(counts, index); var n := NatToString(counts[index]);
      |t| > |n| && t[..|n|] == n && DigitsValue(t[..|n|]) == counts[index] &&
      t[|t| - 3..] == MonthLabels[index]
  {
    var t := TooltipTitle(counts, index);
    var n := NatToString(counts[index]);
    var monthName := MonthLabels[index];
    assert |monthName| == 3;
    var head := n + " Emergency in ";
    assert t == head + monthName;
    assert t[..|n|] == head[..|n|] == n;
    assert t[|t| - 3..] == monthName;
  }
}
