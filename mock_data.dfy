/**
 * The mock-data generator. Every number it produces is
 * `Math.floor(Math.random() * k) + b`; the values `Math.random()` would return
 * are injected as `draws`, consumed in the order the generator evaluates them,
 * and the month labels (built from the current date) are injected as `labels`.
 */
module MockData {
  import opened Dataset

  /** Months of history the generator builds. */
  const Months: nat := 12
  /** Draws taken before the monthly loop: 3 coverage, 4 severity, 10 app, 2 rate values. */
  const HeaderDraws: nat := 19
  /** Draws taken per month: 6 for the vulnerability trend, 3 for the MTTR trend. */
  const DrawsPerMonth: nat := 9
  const DrawCount: nat := HeaderDraws + Months * DrawsPerMonth

  /** Every draw is a value `Math.random()` can return. */
  ghost predicate IsRandomStream(draws: seq<real>) {
    forall i :: 0 <= i < |draws| ==> 0.0 <= draws[i] < 1.0
  }

  /** `Math.floor(r * k) + b`. */
  function RandomInt(r: real, k: nat, b: int): int {
    (r * (k as real)).Floor + b
  }

  lemma RandomIntBounds(r: real, k: nat, b: int)
    requires 0.0 <= r < 1.0 && k > 0
    ensures b <= RandomInt(r, k, b) <= b + k - 1
  {
    assert 0.0 <= r * (k as real) < k as real by {
      assert (1.0 - r) * (k as real) > 0.0;
    }
  }

  // ---- The generated dataset, as functions of the draws ----

  function Coverage(draws: seq<real>): ScanCoverage
    requires |draws| >= HeaderDraws
  {
    ScanCoverage(
      RandomInt(draws[0], 20, 80),
      RandomInt(draws[1], 20, 70),
      RandomInt(draws[2], 20, 85))
  }

  function Severities(draws: seq<real>): seq<SeverityEntry>
    requires |draws| >= HeaderDraws
  {
    [ SeverityEntry("Critical", RandomInt(draws[3], 50, 10)),
      SeverityEntry("High", RandomInt(draws[4], 100, 50)),
      SeverityEntry("Medium", RandomInt(draws[5], 200, 100)),
      SeverityEntry("Low", RandomInt(draws[6], 300, 150)) ]
  }

  function Apps(draws: seq<real>): seq<AppEntry>
    requires |draws| >= HeaderDraws
  {
    [ AppEntry("App A", RandomInt(draws[7], 10, 2), RandomInt(draws[8], 20, 5)),
      AppEntry("App B", RandomInt(draws[9], 8, 1), RandomInt(draws[10], 15, 3)),
      AppEntry("App C", RandomInt(draws[11], 12, 3), RandomInt(draws[12], 25, 7)),
      AppEntry("App D", RandomInt(draws[13], 5, 1), RandomInt(draws[14], 10, 2)),
      AppEntry("App E", RandomInt(draws[15], 7, 1), RandomInt(draws[16], 18, 4)) ]
  }

  /** The vulnerability-trend entry pushed for month `j` (oldest is 0), i.e. loop index `i == 11 - j`. */
  function VulnTrendAt(draws: seq<real>, labels: seq<string>, j: nat): VulnTrend
    requires |draws| == DrawCount && |labels| == Months && j < Months
  {
    var i := Months - 1 - j;
    var b := HeaderDraws + DrawsPerMonth * j;
    VulnTrend(
      labels[j],
      RandomInt(draws[b], 20, 20 - i),
      RandomInt(draws[b + 1], 30, 50 - i),
      RandomInt(draws[b + 2], 50, 100 - i),
      RandomInt(draws[b + 3], 80, 150 - i),
      RandomInt(draws[b + 4], 40, 50),
      RandomInt(draws[b + 5], 45, 55))
  }

  /** The MTTR-trend entry pushed for month `j`. */
  function MttrTrendAt(draws: seq<real>, labels: seq<string>, j: nat): MttrTrend
    requires |draws| == DrawCount && |labels| == Months && j < Months
  {
    var b := HeaderDraws + DrawsPerMonth * j;
    MttrTrend(
      labels[j],
      RandomInt(draws[b + 6], 5, 10),
      RandomInt(draws[b + 7], 7, 7),
      RandomInt(draws[b + 8], 10, 4))
  }

  /** The dataset the generator returns for the given draws and labels. */
  function MockSpec(draws: seq<real>, labels: seq<string>): (d: Dataset)
    requires |draws| == DrawCount && |labels| == Months
    ensures |d.vulnerabilityTrends| == Months && |d.mttrTrends| == Months
    ensures forall j :: 0 <= j < Months ==>
      d.vulnerabilityTrends[j].month == labels[j] && d.mttrTrends[j].month == labels[j]
    ensures |d.vulnerabilitiesBySeverity| == 4 && |d.vulnerabilitiesByApp| == 5
    ensures d.vulnerabilitiesBySeverity[0].name == "Critical"
    ensures d.vulnerabilitiesBySeverity[1].name == "High"
    ensures d.vulnerabilitiesBySeverity[2].name == "Medium"
    ensures d.vulnerabilitiesBySeverity[3].name == "Low"
  {
    Dataset(
      seq(Months, j requires 0 <= j < Months => VulnTrendAt(draws, labels, j)),
      seq(Months, j requires 0 <= j < Months => MttrTrendAt(draws, labels, j)),
      Coverage(draws),
      Severities(draws),
      Apps(draws),
      Some(RandomInt(draws[17], 10, 85)),
      Some(RandomInt(draws[18], 10, 88)))
  }

  // ---- The ranges the generated values lie in ----

  /** Bounds of the vulnerability-trend entry for month `j` (loop index `11 - j`). */
  ghost predicate TrendInRange(t: VulnTrend, j: int) {
    && 9 + j <= t.critical <= 28 + j
    && 39 + j <= t.high <= 68 + j
    && 89 + j <= t.medium <= 138 + j
    && 139 + j <= t.low <= 218 + j
    && 50 <= t.newVulns <= 89
    && 55 <= t.resolved <= 99
  }

  ghost predicate MttrInRange(t: MttrTrend) {
    && 10 <= t.critical <= 14
    && 7 <= t.high <= 13
    && 4 <= t.medium <= 13
  }

  ghost predicate AppInRange(a: AppEntry, name: string, kc: int, bc: int, kh: int, bh: int) {
    a.name == name && bc <= a.critical <= bc + kc - 1 && bh <= a.high <= bh + kh - 1
  }

  /** What every generated dataset satisfies: shape, labels and the range of every field. */
  ghost predicate GeneratorBounds(d: Dataset) {
    && |d.vulnerabilityTrends| == Months
    && |d.mttrTrends| == Months
    && (forall j :: 0 <= j < Months ==> d.vulnerabilityTrends[j].month == d.mttrTrends[j].month)
    && (forall j :: 0 <= j < Months ==>
          TrendInRange(d.vulnerabilityTrends[j], j) && MttrInRange(d.mttrTrends[j]))
    && 80 <= d.scanCoverage.sast <= 99
    && 70 <= d.scanCoverage.dast <= 89
    && 85 <= d.scanCoverage.sca <= 104
    && |d.vulnerabilitiesBySeverity| == 4
    && d.vulnerabilitiesBySeverity[0].name == "Critical"
    && 10 <= d.vulnerabilitiesBySeverity[0].value <= 59
    && d.vulnerabilitiesBySeverity[1].name == "High"
    && 50 <= d.vulnerabilitiesBySeverity[1].value <= 149
    && d.vulnerabilitiesBySeverity[2].name == "Medium"
    && 100 <= d.vulnerabilitiesBySeverity[2].value <= 299
    && d.vulnerabilitiesBySeverity[3].name == "Low"
    && 150 <= d.vulnerabilitiesBySeverity[3].value <= 449
    && |d.vulnerabilitiesByApp| == 5
    && AppInRange(d.vulnerabilitiesByApp[0], "App A", 10, 2, 20, 5)
    && AppInRange(d.vulnerabilitiesByApp[1], "App B", 8, 1, 15, 3)
    && AppInRange(d.vulnerabilitiesByApp[2], "App C", 12, 3, 25, 7)
    && AppInRange(d.vulnerabilitiesByApp[3], "App D", 5, 1, 10, 2)
    && AppInRange(d.vulnerabilitiesByApp[4], "App E", 7, 1, 18, 4)
    && d.securityGatePassRate.Some? && 85 <= d.securityGatePassRate.value <= 94
    && d.policyComplianceRate.Some? && 88 <= d.policyComplianceRate.value <= 97
  }

  lemma {:induction false} MockSpecInBounds(draws: seq<real>, labels: seq<string>)
    requires |draws| == DrawCount && IsRandomStream(draws) && |labels| == Months
    ensures GeneratorBounds(MockSpec(draws, labels))
  {
    var d := MockSpec(draws, labels);
    RandomIntBounds(draws[0], 20, 80);
    RandomIntBounds(draws[1], 20, 70);
    RandomIntBounds(draws[2], 20, 85);
    RandomIntBounds(draws[3], 50, 10);
    RandomIntBounds(draws[4], 100, 50);
    RandomIntBounds(draws[5], 200, 100);
    RandomIntBounds(draws[6], 300, 150);
    RandomIntBounds(draws[7], 10, 2);
    RandomIntBounds(draws[8], 20, 5);
    RandomIntBounds(draws[9], 8, 1);
    RandomIntBounds(draws[10], 15, 3);
    RandomIntBounds(draws[11], 12, 3);
    RandomIntBounds(draws[12], 25, 7);
    RandomIntBounds(draws[13], 5, 1);
    RandomIntBounds(draws[14], 10, 2);
    RandomIntBounds(draws[15], 7, 1);
    RandomIntBounds(draws[16], 18, 4);
    RandomIntBounds(draws[17], 10, 85);
    RandomIntBounds(draws[18], 10, 88);
    forall j | 0 <= j < Months
      ensures TrendInRange(d.vulnerabilityTrends[j], j) && MttrInRange(d.mttrTrends[j])
    {
      MonthInBounds(draws, labels, j);
    }
  }

  lemma MonthInBounds(draws: seq<real>, labels: seq<string>, j: nat)
    requires |draws| == DrawCount && IsRandomStream(draws) && |labels| == Months && j < Months
    ensures TrendInRange(VulnTrendAt(draws, labels, j), j)
    ensures MttrInRange(MttrTrendAt(draws, labels, j))
  {
    var i := Months - 1 - j;
    var b := HeaderDraws + DrawsPerMonth * j;
    RandomIntBounds(draws[b], 20, 20 - i);
    RandomIntBounds(draws[b + 1], 30, 50 - i);
    RandomIntBounds(draws[b + 2], 50, 100 - i);
    RandomIntBounds(draws[b + 3], 80, 150 - i);
    RandomIntBounds(draws[b + 4], 40, 50);
    RandomIntBounds(draws[b + 5], 45, 55);
    RandomIntBounds(draws[b + 6], 5, 10);
    RandomIntBounds(draws[b + 7], 7, 7);
    RandomIntBounds(draws[b + 8], 10, 4);
  }

  /** Every trend count of a generated dataset is non-negative; `critical` lies in 9..39. */
  lemma GeneratedCountsNonNegative(d: Dataset)
    requires GeneratorBounds(d)
    ensures forall j :: 0 <= j < |d.vulnerabilityTrends| ==>
      && 9 <= d.vulnerabilityTrends[j].critical <= 39
      && d.vulnerabilityTrends[j].high >= 0 && d.vulnerabilityTrends[j].medium >= 0
      && d.vulnerabilityTrends[j].low >= 0
  {
    forall j | 0 <= j < |d.vulnerabilityTrends|
      ensures 9 <= d.vulnerabilityTrends[j].critical <= 39
    {
      assert TrendInRange(d.vulnerabilityTrends[j], j);
    }
  }

  /** The SCA coverage is not bounded by 100: a draw close to 1 yields 104. */
  lemma ScaCoverageCanExceedHundred()
    ensures exists draws: seq<real> ::
      |draws| == DrawCount && IsRandomStream(draws) && Coverage(draws).sca == 104
  {
    var draws := seq(DrawCount, _ => 0.99);
    assert (0.99 * 20.0).Floor == 19;
    assert Coverage(draws).sca == 104;
  }

  // ---- The generator itself ----

  /**
   * Builds the dataset: the header fields, then a loop from `i == 11` down to `0`
   * that pushes one entry for month `11 - i` onto each trend.
   */
  method GenerateMockData(draws: seq<real>, labels: seq<string>) returns (d: Dataset)
    requires |draws| == DrawCount && IsRandomStream(draws) && |labels| == Months
    ensures d == MockSpec(draws, labels)
    ensures GeneratorBounds(d)
  {
    var vulnerabilityTrends: seq<VulnTrend> := [];
    var mttrTrends: seq<MttrTrend> := [];
    for i := Months downto 0
      invariant |vulnerabilityTrends| == Months - i && |mttrTrends| == Months - i
      invariant forall j :: 0 <= j < Months - i ==>
        vulnerabilityTrends[j] == VulnTrendAt(draws, labels, j)
      invariant forall j :: 0 <= j < Months - i ==>
        mttrTrends[j] == MttrTrendAt(draws, labels, j)
    {
      var j := Months - 1 - i;
      var b := HeaderDraws + DrawsPerMonth * j;
      var month := labels[j];
      vulnerabilityTrends := vulnerabilityTrends + [VulnTrend(
        month,
        RandomInt(draws[b], 20, 20 - i),
        RandomInt(draws[b + 1], 30, 50 - i),
        RandomInt(draws[b + 2], 50, 100 - i),
        RandomInt(draws[b + 3], 80, 150 - i),
        RandomInt(draws[b + 4], 40, 50),
        RandomInt(draws[b + 5], 45, 55))];
      mttrTrends := mttrTrends + [MttrTrend(
        month,
        RandomInt(draws[b + 6], 5, 10),
        RandomInt(draws[b + 7], 7, 7),
        RandomInt(draws[b + 8], 10, 4))];
    }
    d := Dataset(
      vulnerabilityTrends,
      mttrTrends,
      Coverage(draws),
      Severities(draws),
      Apps(draws),
      Some(RandomInt(draws[17], 10, 85)),
      Some(RandomInt(draws[18], 10, 88)));
    MockSpecInBounds(draws, labels);
  }
}
