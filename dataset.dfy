/**
 * The records the dashboard displays: one dataset, either generated mock data
 * or the object read from an uploaded JSON file.
 */
module Dataset {

  datatype Option<T> = None | Some(value: T)

  /** One month of the vulnerability trend. The JSON field `new` is called `newVulns` here. */
  datatype VulnTrend = VulnTrend(
    month: string,
    critical: int,
    high: int,
    medium: int,
    low: int,
    newVulns: int,
    resolved: int)

  /** One month of the mean-time-to-resolution trend, in days. */
  datatype MttrTrend = MttrTrend(month: string, critical: int, high: int, medium: int)

  /** Scan coverage percentages per kind of scan. */
  datatype ScanCoverage = ScanCoverage(sast: int, dast: int, sca: int)

  /** A slice of the severity pie chart. */
  datatype SeverityEntry = SeverityEntry(name: string, value: int)

  /** A bar of the per-application chart. */
  datatype AppEntry = AppEntry(name: string, critical: int, high: int)

  /**
   * The dashboard's dataset. The two rates are optional because an uploaded
   * file need not carry them (the upload check does not ask for them).
   */
  datatype Dataset = Dataset(
    vulnerabilityTrends: seq<VulnTrend>,
    mttrTrends: seq<MttrTrend>,
    scanCoverage: ScanCoverage,
    vulnerabilitiesBySeverity: seq<SeverityEntry>,
    vulnerabilitiesByApp: seq<AppEntry>,
    securityGatePassRate: Option<int>,
    policyComplianceRate: Option<int>)

  function Min(a: int, b: int): int { if a <= b then a else b }
  function Max(a: int, b: int): int { if a <= b then b else a }
}
