/**
 * The upload check: the content of a chosen file either fails to parse, or
 * parses into a record that is accepted when its five required keys are all
 * truthy. Accepted, the record itself becomes the dataset.
 */
module Upload {
  import opened Dataset

  /**
   * A parsed JSON object, key by key. For the five keys the upload check tests,
   * `None` stands for a key that is absent or holds a falsy value and `Some` for
   * a truthy value (an empty array is truthy). For the two rates, which are only
   * displayed, `None` stands for an absent key and `Some(0)` for a present 0.
   */
  datatype ParsedRecord = ParsedRecord(
    vulnerabilityTrends: Option<seq<VulnTrend>>,
    mttrTrends: Option<seq<MttrTrend>>,
    scanCoverage: Option<ScanCoverage>,
    vulnerabilitiesBySeverity: Option<seq<SeverityEntry>>,
    vulnerabilitiesByApp: Option<seq<AppEntry>>,
    securityGatePassRate: Option<int>,
    policyComplianceRate: Option<int>)

  /** What `JSON.parse` makes of the file's text. */
  datatype FileContent = Malformed(message: string) | Parsed(record: ParsedRecord)

  datatype UploadError = ParseError(message: string) | InvalidFormat

  datatype Result<T, E> = Success(value: T) | Failure(error: E)

  /** All five keys the upload check tests are truthy. */
  predicate HasRequiredKeys(p: ParsedRecord) {
    && p.vulnerabilityTrends.Some?
    && p.mttrTrends.Some?
    && p.scanCoverage.Some?
    && p.vulnerabilitiesBySeverity.Some?
    && p.vulnerabilitiesByApp.Some?
  }

  /** The record the check accepted, as the dataset the dashboard reads. */
  function AsDataset(p: ParsedRecord): Dataset
    requires HasRequiredKeys(p)
  {
    Dataset(
      p.vulnerabilityTrends.value,
      p.mttrTrends.value,
      p.scanCoverage.value,
      p.vulnerabilitiesBySeverity.value,
      p.vulnerabilitiesByApp.value,
      p.securityGatePassRate,
      p.policyComplianceRate)
  }

  /** The parse-then-check step of the upload handler. */
  function Validate(content: FileContent): (r: Result<Dataset, UploadError>)
    ensures content.Malformed? ==> r == Failure(ParseError(content.message))
    ensures content.Parsed? && !HasRequiredKeys(content.record) ==> r == Failure(InvalidFormat)
    ensures r.Success? <==> content.Parsed? && HasRequiredKeys(content.record)
    ensures r.Success? ==>
      && content.record.vulnerabilityTrends == Some(r.value.vulnerabilityTrends)
      && content.record.mttrTrends == Some(r.value.mttrTrends)
      && content.record.scanCoverage == Some(r.value.scanCoverage)
      && content.record.vulnerabilitiesBySeverity == Some(r.value.vulnerabilitiesBySeverity)
      && content.record.vulnerabilitiesByApp == Some(r.value.vulnerabilitiesByApp)
      && content.record.securityGatePassRate == r.value.securityGatePassRate
      && content.record.policyComplianceRate == r.value.policyComplianceRate
  {
    match content
    case Malformed(message) => Failure(ParseError(message))
    case Parsed(p) =>
      if HasRequiredKeys(p) then Success(AsDataset(p)) else Failure(InvalidFormat)
  }

  /** The JSON object a dataset is written as (every collection is truthy, even when empty). */
  function Serialize(d: Dataset): (p: ParsedRecord)
    ensures HasRequiredKeys(p)
  {
    ParsedRecord(
      Some(d.vulnerabilityTrends),
      Some(d.mttrTrends),
      Some(d.scanCoverage),
      Some(d.vulnerabilitiesBySeverity),
      Some(d.vulnerabilitiesByApp),
      d.securityGatePassRate,
      d.policyComplianceRate)
  }

  /** Any dataset, written out and uploaded again, is accepted and comes back field for field. */
  lemma SerializeRoundTrip(d: Dataset)
    ensures Validate(Parsed(Serialize(d))) == Success(d)
  {
  }

  /** An accepted record is exactly the serialization of the dataset it became. */
  lemma AcceptedIsSerialized(content: FileContent)
    requires Validate(content).Success?
    ensures content == Parsed(Serialize(Validate(content).value))
  {
  }

  /** Dropping any one of the five keys makes the upload fail with InvalidFormat. */
  lemma MissingKeyRejected(d: Dataset, key: nat)
    requires key < 5
    ensures
      var p := Serialize(d);
      var q :=
        if key == 0 then p.(vulnerabilityTrends := None)
        else if key == 1 then p.(mttrTrends := None)
        else if key == 2 then p.(scanCoverage := None)
        else if key == 3 then p.(vulnerabilitiesBySeverity := None)
        else p.(vulnerabilitiesByApp := None);
      Validate(Parsed(q)) == Failure(InvalidFormat)
  {
  }
}
