/**
 * The summary metrics shown on the dashboard cards: totals looked up or summed
 * over the severity list, MTTR averages over the filtered MTTR trend, and the
 * latest month's new and resolved counts from the filtered vulnerability trend.
 */
module Metrics {
  import opened Dataset
  import opened TimeRange
  import MockData

  // ---- Folds ----

  /** Reference definition of the sum of `f` over `s`. */
  function Sum<T>(s: seq<T>, f: T -> int): int
    decreases |s|
  {
    if |s| == 0 then 0 else f(s[0]) + Sum(s[1..], f)
  }

  /** `s.reduce((sum, item) => sum + f(item), acc)`: a left fold from `acc`, which adds up to the sum. */
  function Reduce<T>(acc: int, s: seq<T>, f: T -> int): (r: int)
    ensures r == acc + Sum(s, f)
    decreases |s|
  {
    if |s| == 0 then acc else Reduce(acc + f(s[0]), s[1..], f)
  }

  lemma {:induction false} SumBounds<T>(s: seq<T>, f: T -> int, lo: int, hi: int)
    requires forall i :: 0 <= i < |s| ==> lo <= f(s[i]) <= hi
    ensures |s| * lo <= Sum(s, f) <= |s| * hi
    decreases |s|
  {
    if |s| > 0 {
      SumBounds(s[1..], f, lo, hi);
      assert |s| * lo == (|s| - 1) * lo + lo;
      assert |s| * hi == (|s| - 1) * hi + hi;
    }
  }

  function Value(e: SeverityEntry): int { e.value }
  function MttrCritical(m: MttrTrend): int { m.critical }
  function MttrHigh(m: MttrTrend): int { m.high }

  // ---- Severity totals ----

  /** `vulnerabilitiesBySeverity.reduce((sum, item) => sum + item.value, 0)`. */
  function TotalVulnerabilities(s: seq<SeverityEntry>): (r: int)
    ensures r == Sum(s, Value)
  {
    Reduce(0, s, Value)
  }

  /** Index `k` holds the first entry of `s` named `name`. */
  ghost predicate IsFirstNamed(s: seq<SeverityEntry>, name: string, k: int) {
    0 <= k < |s| && s[k].name == name && forall j :: 0 <= j < k ==> s[j].name != name
  }

  /** `Array.prototype.find` by name, as an index. */
  function FindByName(s: seq<SeverityEntry>, name: string): (r: Option<nat>)
    ensures r.Some? ==> IsFirstNamed(s, name, r.value)
    ensures r.None? ==> forall j :: 0 <= j < |s| ==> s[j].name != name
    decreases |s|
  {
    if |s| == 0 then None
    else if s[0].name == name then Some(0)
    else match FindByName(s[1..], name)
      case None => None
      case Some(k) => Some(k + 1)
  }

  /**
   * `s.find(v => v.name === name)?.value || 0`. Values are integers here, so the
   * only falsy value is 0, which the `|| 0` maps to itself.
   */
  function SeverityValue(s: seq<SeverityEntry>, name: string): (r: int)
    ensures (forall j :: 0 <= j < |s| ==> s[j].name != name) ==> r == 0
    ensures forall k :: IsFirstNamed(s, name, k) ==> r == s[k].value
  {
    match FindByName(s, name)
    case None => 0
    case Some(k) => s[k].value
  }

  // ---- MTTR averages ----

  /** An average MTTR: the `'N/A'` sentinel or the mean number of days (before `toFixed(1)`). */
  datatype Average = NotAvailable | Mean(days: real)

  /** `s.length > 0 ? s.reduce((sum, item) => sum + f(item), 0) / s.length : 'N/A'`. */
  function AverageMttr(s: seq<MttrTrend>, f: MttrTrend -> int): (r: Average)
    ensures r.NotAvailable? <==> |s| == 0
    ensures r.Mean? ==> r.days * (|s| as real) == Sum(s, f) as real
  {
    if |s| > 0 then
      Mean(Reduce(0, s, f) as real / |s| as real)
    else
      NotAvailable
  }

  /** The mean lies between the smallest and largest value the field can take. */
  lemma AverageWithinBounds(s: seq<MttrTrend>, f: MttrTrend -> int, lo: int, hi: int)
    requires |s| > 0
    requires forall i :: 0 <= i < |s| ==> lo <= f(s[i]) <= hi
    ensures AverageMttr(s, f).Mean?
    ensures lo as real <= AverageMttr(s, f).days <= hi as real
  {
    SumBounds(s, f, lo, hi);
    MeanBetween(Sum(s, f), |s|, lo, hi);
  }

  /** A total between `n * lo` and `n * hi`, divided by `n > 0`, lies between `lo` and `hi`. */
  lemma MeanBetween(total: int, n: int, lo: int, hi: int)
    requires n > 0
    requires n * lo <= total <= n * hi
    ensures lo as real <= total as real / n as real <= hi as real
  {
    var m := total as real / n as real;
    assert m * n as real == total as real;
    assert (n * lo) as real == (lo as real) * n as real;
    assert (n * hi) as real == (hi as real) * n as real;
    assert (m - lo as real) * n as real >= 0.0;
    assert (hi as real - m) * n as real >= 0.0;
  }

  // ---- Latest month ----

  /** `s[s.length - 1]?.new || 0`. */
  function NewVulnsLastMonth(s: seq<VulnTrend>): (r: int)
    ensures |s| == 0 ==> r == 0
    ensures |s| > 0 ==> r == s[|s| - 1].newVulns
  {
    if |s| == 0 then 0 else s[|s| - 1].newVulns
  }

  /** `s[s.length - 1]?.resolved || 0`. */
  function ResolvedVulnsLastMonth(s: seq<VulnTrend>): (r: int)
    ensures |s| == 0 ==> r == 0
    ensures |s| > 0 ==> r == s[|s| - 1].resolved
  {
    if |s| == 0 then 0 else s[|s| - 1].resolved
  }

  /**
   * The latest month's new and resolved counts do not depend on the range:
   * they are those of the dataset's last entry, or 0 when it has none.
   */
  lemma LastMonthIgnoresRange(d: Dataset, range: string)
    ensures
      var f := GetFilteredData(d, range).vulnerabilityTrends;
      var s := d.vulnerabilityTrends;
      && NewVulnsLastMonth(f) == (if |s| == 0 then 0 else s[|s| - 1].newVulns)
      && ResolvedVulnsLastMonth(f) == (if |s| == 0 then 0 else s[|s| - 1].resolved)
  {
    FilterKeepsLatest(d, range);
  }

  // ---- Scan coverage ----

  /** `(sast + dast + sca) / 3`, before `toFixed(1)`: between the smallest and largest of the three. */
  function OverallScanCoverage(c: ScanCoverage): (r: real)
    ensures Min(c.sast, Min(c.dast, c.sca)) as real <= r <= Max(c.sast, Max(c.dast, c.sca)) as real
  {
    (c.sast + c.dast + c.sca) as real / 3.0
  }

  lemma ScanCoverageWithinBounds(c: ScanCoverage, lo: int, hi: int)
    requires lo <= c.sast <= hi && lo <= c.dast <= hi && lo <= c.sca <= hi
    ensures lo as real <= OverallScanCoverage(c) <= hi as real
  {
  }

  // ---- All card values together ----

  datatype Summary = Summary(
    totalCriticalVulns: int,
    totalHighVulns: int,
    totalVulnerabilities: int,
    avgMttrCritical: Average,
    avgMttrHigh: Average,
    newVulnsLastMonth: int,
    resolvedVulnsLastMonth: int)

  /**
   * The metrics computed from the active dataset and the selected range. The
   * total is the sum of the severity values; each MTTR average is 'N/A' exactly
   * when the dataset's MTTR trend is empty, whatever the range; the latest-month
   * counts are those of the dataset's last trend entry, or 0 without one.
   */
  function Summarize(d: Dataset, range: string): (r: Summary)
    ensures r.totalVulnerabilities == Sum(d.vulnerabilitiesBySeverity, Value)
    ensures r.avgMttrCritical.NotAvailable? <==> |d.mttrTrends| == 0
    ensures r.avgMttrHigh.NotAvailable? <==> |d.mttrTrends| == 0
    ensures r.newVulnsLastMonth ==
      if |d.vulnerabilityTrends| == 0 then 0 else d.vulnerabilityTrends[|d.vulnerabilityTrends| - 1].newVulns
    ensures r.resolvedVulnsLastMonth ==
      if |d.vulnerabilityTrends| == 0 then 0 else d.vulnerabilityTrends[|d.vulnerabilityTrends| - 1].resolved
  {
    var f := GetFilteredData(d, range);
    LastMonthIgnoresRange(d, range);
    Summary(
      SeverityValue(d.vulnerabilitiesBySeverity, "Critical"),
      SeverityValue(d.vulnerabilitiesBySeverity, "High"),
      TotalVulnerabilities(d.vulnerabilitiesBySeverity),
      AverageMttr(f.mttrTrends, MttrCritical),
      AverageMttr(f.mttrTrends, MttrHigh),
      NewVulnsLastMonth(f.vulnerabilityTrends),
      ResolvedVulnsLastMonth(f.vulnerabilityTrends))
  }

  /**
   * An upload whose collections are empty and whose four severities are 0:
   * the total is 0, both MTTR averages are 'N/A' and the latest-month counts are 0,
   * for every range.
   */
  lemma EmptyDatasetSummary(d: Dataset, range: string)
    requires d.vulnerabilityTrends == [] && d.mttrTrends == []
    requires d.vulnerabilitiesBySeverity == [
      SeverityEntry("Critical", 0), SeverityEntry("High", 0),
      SeverityEntry("Medium", 0), SeverityEntry("Low", 0)]
    ensures Summarize(d, range) == Summary(0, 0, 0, NotAvailable, NotAvailable, 0, 0)
  {
    var s := d.vulnerabilitiesBySeverity;
    assert IsFirstNamed(s, "Critical", 0);
    assert IsFirstNamed(s, "High", 1);
    assert Sum(s[3..], Value) == 0;
    assert Sum(s[2..], Value) == 0;
    assert Sum(s[1..], Value) == 0;
  }

  /**
   * For a generated dataset: the total is the sum of the four severity values,
   * Critical and High are read from the first two entries, and both MTTR averages
   * are available, within the per-month bounds, for every range.
   */
  lemma GeneratedSummary(d: Dataset, range: string)
    requires MockData.GeneratorBounds(d)
    ensures
      var s := d.vulnerabilitiesBySeverity;
      var m := Summarize(d, range);
      && m.totalCriticalVulns == s[0].value
      && m.totalHighVulns == s[1].value
      && m.totalVulnerabilities == s[0].value + s[1].value + s[2].value + s[3].value
      && 310 <= m.totalVulnerabilities <= 956
      && m.avgMttrCritical.Mean? && 10.0 <= m.avgMttrCritical.days <= 14.0
      && m.avgMttrHigh.Mean? && 7.0 <= m.avgMttrHigh.days <= 13.0
  {
    var s := d.vulnerabilitiesBySeverity;
    assert IsFirstNamed(s, "Critical", 0);
    assert IsFirstNamed(s, "High", 1);
    assert s == [s[0]] + [s[1]] + [s[2]] + [s[3]];
    assert Sum(s[3..], Value) == s[3].value;
    assert Sum(s[2..], Value) == s[2].value + s[3].value;
    assert Sum(s[1..], Value) == s[1].value + s[2].value + s[3].value;
    var f := GetFilteredData(d, range).mttrTrends;
    var n := |d.mttrTrends|;
    assert |f| >= 1;
    forall i | 0 <= i < |f|
      ensures 10 <= MttrCritical(f[i]) <= 14 && 7 <= MttrHigh(f[i]) <= 13
    {
      assert f[i] == d.mttrTrends[n - |f| + i];
      assert MockData.MttrInRange(d.mttrTrends[n - |f| + i]);
    }
    AverageWithinBounds(f, MttrCritical, 10, 14);
    AverageWithinBounds(f, MttrHigh, 7, 13);
  }
}
