/** The analytics page: fixed statistics and the classifications drawn from
    them — the trend badge of each category, the scale of the trend chart,
    and per area the success rate with its badge and the status label of
    the cleanliness score. */
module Analytics {
  import opened Common

  datatype CategoryStat = CategoryStat(category: string, count: int, trend: string)

  datatype AreaStat = AreaStat(area: string, score: int, reports: int, resolved: int)

  datatype PeriodStat = PeriodStat(period: string, reports: int, resolved: int)

  const CategoryData: seq<CategoryStat> := [
    CategoryStat("Garbage Overflow", 325, "+12%"),
    CategoryStat("Clogged Drains", 287, "-8%"),
    CategoryStat("Broken Toilets", 198, "+5%"),
    CategoryStat("Stagnant Water", 176, "-15%"),
    CategoryStat("Improper Disposal", 142, "+22%"),
    CategoryStat("Failed Segregation", 119, "-3%")
  ]

  const AreaData: seq<AreaStat> := [
    AreaStat("Koramangala", 92, 45, 41),
    AreaStat("Indiranagar", 89, 52, 44),
    AreaStat("Whitefield", 85, 38, 30),
    AreaStat("BTM Layout", 82, 67, 48),
    AreaStat("Electronic City", 78, 43, 29),
    AreaStat("Marathahalli", 74, 71, 45)
  ]

  const TimeSeriesData: seq<PeriodStat> := [
    PeriodStat("Jan 2024", 89, 67),
    PeriodStat("Feb 2024", 95, 72),
    PeriodStat("Mar 2024", 112, 84),
    PeriodStat("Apr 2024", 128, 95),
    PeriodStat("May 2024", 145, 108),
    PeriodStat("Jun 2024", 134, 118)
  ]

  /** A trend badge is red for a rising count ("+…") and green otherwise. */
  function TrendBadge(trend: string): (b: Band)
    ensures b == Red <==> |trend| > 0 && trend[0] == '+'
    ensures b == Green <==> !(|trend| > 0 && trend[0] == '+')
  {
    if |trend| > 0 && trend[0] == '+' then Red else Green
  }

  /** `Math.max(...values)`: None for an empty list, where JavaScript gives
      -Infinity; otherwise an element at least as large as every other. */
  function MaxValue(values: seq<int>): (m: Option<int>)
    ensures m.None? <==> values == []
    ensures m.Some? ==> m.value in values
    ensures m.Some? ==> forall i :: 0 <= i < |values| ==> values[i] <= m.value
  {
    if values == [] then None
    else match MaxValue(values[1..])
      case None => Some(values[0])
      case Some(rest) => Some(if values[0] >= rest then values[0] else rest)
  }

  function ReportCounts(series: seq<PeriodStat>): (r: seq<int>)
    ensures |r| == |series|
    ensures forall i :: 0 <= i < |series| ==> r[i] == series[i].reports
  {
    if series == [] then [] else [series[0].reports] + ReportCounts(series[1..])
  }

  /** The chart is scaled to May's 145 reports. */
  lemma TimeSeriesMaximum()
    ensures MaxValue(ReportCounts(TimeSeriesData)) == Some(145)
  {
    var counts := ReportCounts(TimeSeriesData);
    assert forall i :: 0 <= i < |counts| ==> counts[i] <= 145;
    assert counts[4] == 145;
    MaxValueIsUpperBound(counts, 4);
  }

  /** An element that bounds every other is the maximum. */
  lemma MaxValueIsUpperBound(values: seq<int>, k: int)
    requires 0 <= k < |values|
    requires forall i :: 0 <= i < |values| ==> values[i] <= values[k]
    ensures MaxValue(values) == Some(values[k])
  {
  }

  /** `Math.round(num / den)` for a positive denominator: the integer
      nearest to num/den, halves rounded up. */
  function RoundHalfUp(num: int, den: int): (r: int)
    requires den > 0
    ensures 2 * den * r - den <= 2 * num < 2 * den * r + den
  {
    (2 * num + den) / (2 * den)
  }

  /** A multiple of a positive k that exceeds -k has a non-negative
      factor. */
  lemma AboveMinusOne(k: int, x: int)
    requires k > 0 && k * x > -k
    ensures x >= 0
  {
  }

  /** The rounding condition has only one solution, so RoundHalfUp is the
      rounding, not just a value near it. */
  lemma RoundHalfUpUnique(num: int, den: int, p: int)
    requires den > 0
    requires 2 * den * p - den <= 2 * num < 2 * den * p + den
    ensures RoundHalfUp(num, den) == p
  {
    var r := RoundHalfUp(num, den);
    AboveMinusOne(2 * den, r - p);
    AboveMinusOne(2 * den, p - r);
  }

  /** An exact quotient is its own rounding. */
  lemma RoundHalfUpExact(q: int, den: int)
    requires den > 0
    ensures RoundHalfUp(q * den, den) == q
  {
    RoundHalfUpUnique(q * den, den, q);
  }

  /** `Math.round((resolved / reports) * 100)`. A zero report count divides
      into +Infinity, -Infinity or NaN, which Math.round keeps. */
  datatype Rate = Percent(p: int) | Infinite(positive: bool) | NotANumber

  function SuccessRate(resolved: int, reports: int): (r: Rate)
    ensures reports != 0 <==> r.Percent?
    ensures reports > 0 ==> 2 * reports * r.p - reports <= 200 * resolved < 2 * reports * r.p + reports
    ensures reports < 0 ==> 2 * reports * r.p - reports >= 200 * resolved > 2 * reports * r.p + reports
    ensures reports == 0 ==> (r == NotANumber <==> resolved == 0) && (r == Infinite(true) <==> resolved > 0)
  {
    if reports > 0 then Percent(RoundHalfUp(100 * resolved, reports))
    else if reports < 0 then Percent(RoundHalfUp(-100 * resolved, -reports))
    else if resolved > 0 then Infinite(true)
    else if resolved < 0 then Infinite(false)
    else NotANumber
  }

  /** Between none and all resolved, the rate is a percentage in [0, 100]. */
  lemma SuccessRateInRange(resolved: int, reports: int)
    requires 0 <= resolved <= reports && reports > 0
    ensures 0 <= SuccessRate(resolved, reports).p <= 100
  {
    var p := SuccessRate(resolved, reports).p;
    AboveMinusOne(2 * reports, p);
    AboveMinusOne(2 * reports, 100 - p);
  }

  /** More resolved reports out of the same total never lower the rate. */
  lemma SuccessRateMonotone(a: int, b: int, reports: int)
    requires a <= b && reports > 0
    ensures SuccessRate(a, reports).p <= SuccessRate(b, reports).p
  {
    var pa, pb := SuccessRate(a, reports).p, SuccessRate(b, reports).p;
    AboveMinusOne(2 * reports, pb - pa);
  }

  /** The success-rate badge: green from 80%, yellow from 60%, red below.
      +Infinity is green; -Infinity and NaN fail both comparisons. */
  function RateBadge(rate: Rate): (b: Band)
    ensures b == Green <==> (rate.Percent? && rate.p >= 80) || rate == Infinite(true)
    ensures b == Yellow <==> rate.Percent? && 60 <= rate.p < 80
  {
    match rate
    case Percent(p) => Banded(p, 80, 60)
    case Infinite(positive) => if positive then Green else Red
    case NotANumber => Red
  }

  /** The status column: Excellent from 85, Good from 70, otherwise Needs
      Improvement; its colour uses the same thresholds. */
  function AreaStatus(score: int): (status: string)
    ensures status == "Excellent" <==> score >= 85
    ensures status == "Good" <==> 70 <= score < 85
    ensures status == "Needs Improvement" <==> score < 70
  {
    if score >= 85 then "Excellent" else if score >= 70 then "Good" else "Needs Improvement"
  }

  function AreaBadge(score: int): (b: Band)
    ensures b == Green <==> score >= 85
    ensures b == Yellow <==> 70 <= score < 85
    ensures b == Red <==> score < 70
  {
    Banded(score, 85, 70)
  }

  /** The label and the colour of the status column always agree. */
  lemma {:induction false} AreaStatusMatchesBadge(score: int)
    ensures AreaStatus(score) == "Excellent" <==> AreaBadge(score) == Green
    ensures AreaStatus(score) == "Good" <==> AreaBadge(score) == Yellow
    ensures AreaStatus(score) == "Needs Improvement" <==> AreaBadge(score) == Red
  {
  }

  /** A better score never gets a worse status. */
  lemma AreaBadgeMonotone(a: int, b: int)
    requires a <= b
    ensures AreaBadge(a).Rank() <= AreaBadge(b).Rank()
  {
    BandedMonotone(a, b, 85, 70);
  }

  /** Koramangala resolves 41 of 45 reports: 91.1% shows as 91%, green;
      Marathahalli 45 of 71: 63.4% shows as 63%, yellow. */
  lemma AreaRatesOfFixtures()
    ensures SuccessRate(41, 45) == Percent(91) && RateBadge(Percent(91)) == Green
    ensures SuccessRate(45, 71) == Percent(63) && RateBadge(Percent(63)) == Yellow
  {
    RoundHalfUpUnique(4100, 45, 91);
    RoundHalfUpUnique(4500, 71, 63);
  }
}
