/**
 * The firm admin's three gauges: drill count, workshop count and the
 * drills-to-workshops compliance percentage.
 */
module CircularCharts {
  import opened Wrappers
  import opened Text
  import opened Entities
  import opened Session

  const Policy := AuthPolicy(FirmAdmin, true,
    "Access Denied: Only Firm Admins can view this dashboard.",
    "Firm Admin not assigned to a firm. Please contact your Super Admin.",
    false)

  /**
   * The compliance percentage from the firm's drill and training totals:
   * drills per workshop as a percentage capped at 100; 100 when there are
   * drills but no workshops; 0 when there are neither.
   */
  function Compliance(drills: nat, workshops: nat): (r: real)
    ensures 0.0 <= r <= 100.0
    ensures workshops > 0 && drills < workshops ==> r * (workshops as real) == 100.0 * (drills as real)
    ensures r == 0.0 <==> drills == 0
  {
    if workshops > 0 then
      var ratio := (drills as real) / (workshops as real) * 100.0;
      if ratio < 100.0 then ratio else 100.0
    else if drills > 0 then 100.0
    else 0.0
  }

  /** Full compliance means at least as many drills as workshops, and at least one drill. */
  lemma FullComplianceIff(drills: nat, workshops: nat)
    ensures Compliance(drills, workshops) == 100.0 <==> drills >= workshops && drills > 0
  {
    if workshops > 0 {
      var w := workshops as real;
      var d := drills as real;
      if d >= w {
        assert d / w * 100.0 >= 100.0 by {
          assert d / w >= 1.0;
        }
      } else {
        assert d / w < 1.0;
      }
    }
  }

  /** More drills never lower the percentage. */
  lemma {:induction false} ComplianceMonotoneInDrills(d1: nat, d2: nat, workshops: nat)
    requires d1 <= d2
    ensures Compliance(d1, workshops) <= Compliance(d2, workshops)
  {
    if workshops > 0 {
      var w := workshops as real;
      assert (d2 as real) / w - (d1 as real) / w == ((d2 - d1) as real) / w;
      assert ((d2 - d1) as real) / w >= 0.0;
    }
  }

  /** More workshops never raise the percentage. */
  lemma {:induction false} ComplianceAntitoneInWorkshops(drills: nat, w1: nat, w2: nat)
    requires 0 < w1 <= w2
    ensures Compliance(drills, w2) <= Compliance(drills, w1)
  {
    var d := drills as real;
    assert d / (w2 as real) <= d / (w1 as real) by {
      assert d / (w2 as real) * (w2 as real) == d;
      assert d / (w1 as real) * (w1 as real) == d;
    }
  }

  /** The three values the gauges show; null while unknown or after a refused fetch. */
  datatype ChartValues = ChartValues(drillCount: Option<nat>, workshopCount: Option<nat>, compliance: Option<real>)

  /** `fetchChartData`: the guard sets all three values to null; otherwise the two totals and their percentage. */
  function AfterFetch(caller: Option<UserData>, drillTotal: nat, workshopTotal: nat): (r: ChartValues)
    ensures FirmScopedFetch(caller).None? ==> r == ChartValues(None, None, None)
    ensures FirmScopedFetch(caller).Some? ==>
      r.drillCount == Some(drillTotal) && r.workshopCount == Some(workshopTotal) &&
      r.compliance == Some(Compliance(drillTotal, workshopTotal))
  {
    if FirmScopedFetch(caller).Some? then
      ChartValues(Some(drillTotal), Some(workshopTotal), Some(Compliance(drillTotal, workshopTotal)))
    else ChartValues(None, None, None)
  }

  /** A gauge's fill for a count, `Math.min(count * scale, 100)`, or 0 while the count is null. */
  function GaugeFill(count: Option<nat>, scale: nat): (r: nat)
    ensures r <= 100
    ensures count.None? ==> r == 0
    ensures count.Some? ==> (r == 100 <==> count.value * scale >= 100)
    ensures count.Some? && count.value * scale < 100 ==> r == count.value * scale
  {
    if count.None? then 0
    else if count.value * scale < 100 then count.value * scale
    else 100
  }

  /** The drill gauge is full from 10 drills, the workshop gauge from 4 workshops. */
  lemma GaugesFullAt(drills: nat, workshops: nat)
    ensures GaugeFill(Some(drills), 10) == 100 <==> drills >= 10
    ensures GaugeFill(Some(workshops), 25) == 100 <==> workshops >= 4
  {
  }

  /** `Math.round`: the nearest integer, halves rounded up. */
  function Round(x: real): (r: int)
    ensures r as real - 0.5 <= x < r as real + 0.5
  {
    (x + 0.5).Floor
  }

  /** `${n}` for an integer. */
  function IntToString(n: int): (r: string)
    ensures n >= 0 ==> r == NatToString(n)
    ensures n < 0 ==> r == "-" + NatToString(-n)
  {
    if n >= 0 then NatToString(n) else "-" + NatToString(-n)
  }

  /** The text in the middle of the compliance gauge: the rounded percentage, or "..." while unknown, then "%". */
  function ComplianceText(compliance: Option<real>): (r: string)
    ensures compliance.None? ==> r == "...%"
    ensures compliance.Some? ==> r == IntToString(Round(compliance.value)) + "%"
  {
    match compliance
    case None => "...%"
    case Some(c) => IntToString(Round(c)) + "%"
  }

  /** The compliance text always reads 0% to 100%. */
  lemma ComplianceTextRange(drills: nat, workshops: nat)
    ensures var n := Round(Compliance(drills, workshops));
      0 <= n <= 100 && DigitsValue(ComplianceText(Some(Compliance(drills, workshops)))[..|NatToString(n as nat)|]) == n
  {
    var c := Compliance(drills, workshops);
    var n := Round(c);
    var t := ComplianceText(Some(c));
    assert t[..|NatToString(n as nat)|] == NatToString(n as nat);
  }
}
