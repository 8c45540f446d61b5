/**
 * The dashboard's state: the generated dataset, an optional uploaded dataset
 * that takes its place, the selected tab, time range and theme, and whether
 * the time-range menu is open. Each handler replaces some of these fields.
 */
module Dashboard {
  import opened Dataset
  import opened MockData
  import opened TimeRange
  import opened Metrics
  import opened Upload

  datatype Tab = Overview | Vulnerabilities | Efficiency

  datatype Theme = Light | Dark

  /** `prevTheme === 'light' ? 'dark' : 'light'`. */
  function Toggled(t: Theme): (r: Theme)
    ensures r != t
  {
    if t == Light then Dark else Light
  }

  lemma ToggleTwiceRestores(t: Theme)
    ensures Toggled(Toggled(t)) == t
  {
  }

  /** Which of the upload handler's alerts is shown (or none, when no file was chosen). */
  datatype UploadStatus = NoFile | Uploaded | Rejected(error: UploadError)

  /** The outcome a file's content leads to: the dataset to install, or the error. */
  function UploadOutcome(content: FileContent): (r: (Option<Dataset>, UploadStatus))
    ensures r.0.Some? <==> r.1 == Uploaded
    ensures r.0.Some? ==> Validate(content) == Success(r.0.value)
    ensures r.0.None? ==> Validate(content).Failure? && r.1 == Rejected(Validate(content).error)
  {
    match Validate(content)
    case Success(d) => (Some(d), Uploaded)
    case Failure(e) => (None, Rejected(e))
  }

  /** A generated dataset keeps both series aligned and non-empty under every range. */
  lemma MockFilterAligned(d: Dataset, range: string)
    ensures GeneratorBounds(d) ==>
      var f := GetFilteredData(d, range);
      && |f.vulnerabilityTrends| == |f.mttrTrends| >= 1
      && forall j :: 0 <= j < |f.mttrTrends| ==>
           f.vulnerabilityTrends[j].month == f.mttrTrends[j].month
  {
    if GeneratorBounds(d) {
      FilterKeepsSeriesAligned(d, range);
    }
  }

  /** The metric bounds of a generated dataset, for every range. */
  lemma MockSummary(d: Dataset, range: string)
    ensures GeneratorBounds(d) ==>
      var m := Summarize(d, range);
      && m.avgMttrCritical.Mean? && 10.0 <= m.avgMttrCritical.days <= 14.0
      && m.avgMttrHigh.Mean? && 7.0 <= m.avgMttrHigh.days <= 13.0
      && 310 <= m.totalVulnerabilities <= 956
  {
    if GeneratorBounds(d) {
      GeneratedSummary(d, range);
    }
  }

  class App {
    var mockData: Dataset
    var uploadedData: Option<Dataset>
    var activeTab: Tab
    var timeRange: string
    var theme: Theme
    var isDropdownOpen: bool

    /** The mock dataset is always one the generator can produce. */
    ghost predicate Valid()
      reads this
    {
      GeneratorBounds(mockData)
    }

    /** `uploadedData || mockData`: the upload while there is one, the mock data otherwise. */
    function CurrentData(): (d: Dataset)
      reads this
      ensures uploadedData.Some? ==> d == uploadedData.value
      ensures uploadedData.None? ==> d == mockData
    {
      match uploadedData
      case Some(u) => u
      case None => mockData
    }

    /**
     * The series the charts show. While the mock data is active both series
     * are non-empty and line up month by month, whatever the range.
     */
    function FilteredData(): (r: Filtered)
      reads this
      ensures Valid() && uploadedData.None? ==>
        && |r.vulnerabilityTrends| == |r.mttrTrends| >= 1
        && forall j :: 0 <= j < |r.mttrTrends| ==>
             r.vulnerabilityTrends[j].month == r.mttrTrends[j].month
    {
      MockFilterAligned(CurrentData(), timeRange);
      GetFilteredData(CurrentData(), timeRange)
    }

    /**
     * The values on the metric cards. While the mock data is active both MTTR
     * averages are available and lie within the generator's per-month bounds,
     * and the total lies in 310..956.
     */
    function SummaryMetrics(): (r: Summary)
      reads this
      ensures Valid() && uploadedData.None? ==>
        && r.avgMttrCritical.Mean? && 10.0 <= r.avgMttrCritical.days <= 14.0
        && r.avgMttrHigh.Mean? && 7.0 <= r.avgMttrHigh.days <= 13.0
        && 310 <= r.totalVulnerabilities <= 956
    {
      MockSummary(CurrentData(), timeRange);
      Summarize(CurrentData(), timeRange)
    }

    /** The initial state: fresh mock data, no upload, Overview tab, 12 months, light theme, menu closed. */
    constructor (draws: seq<real>, labels: seq<string>)
      requires |draws| == DrawCount && IsRandomStream(draws) && |labels| == Months
      ensures Valid()
      ensures mockData == MockSpec(draws, labels) && uploadedData == None
      ensures activeTab == Overview && timeRange == "12m" && theme == Light && !isDropdownOpen
    {
      var d := GenerateMockData(draws, labels);
      mockData := d;
      uploadedData := None;
      activeTab := Overview;
      timeRange := "12m";
      theme := Light;
      isDropdownOpen := false;
    }

    /**
     * The upload handler once the file has been read. With no file nothing
     * happens. Otherwise an accepted record becomes the uploaded dataset, and a
     * parse error or a missing key clears the upload, so the mock data is shown
     * again (an earlier upload is not kept).
     */
    method HandleFileUpload(file: Option<FileContent>) returns (status: UploadStatus)
      requires Valid()
      modifies this`uploadedData
      ensures Valid()
      ensures file.None? ==> status == NoFile && uploadedData == old(uploadedData)
      ensures file.Some? ==> (uploadedData, status) == UploadOutcome(file.value)
      ensures file.Some? && Validate(file.value).Success? ==>
        CurrentData() == Validate(file.value).value
      ensures file.Some? && Validate(file.value).Failure? ==> CurrentData() == mockData
    {
      if file.None? {
        status := NoFile;
        return;
      }
      match Validate(file.value)
      case Success(parsed) =>
        uploadedData := Some(parsed);
        status := Uploaded;
      case Failure(e) =>
        uploadedData := None;
        status := Rejected(e);
    }

    /** Clears the upload and installs freshly generated mock data. */
    method ResetToMockData(draws: seq<real>, labels: seq<string>)
      requires |draws| == DrawCount && IsRandomStream(draws) && |labels| == Months
      modifies this`uploadedData, this`mockData
      ensures Valid()
      ensures uploadedData == None && mockData == MockSpec(draws, labels)
      ensures CurrentData() == MockSpec(draws, labels)
    {
      uploadedData := None;
      var d := GenerateMockData(draws, labels);
      mockData := d;
    }

    method ToggleTheme()
      requires Valid()
      modifies this`theme
      ensures Valid()
      ensures theme == Toggled(old(theme))
    {
      theme := Toggled(theme);
    }

    /** A menu item: selects the range and closes the menu. */
    method HandleTimeRangeSelect(range: string)
      requires Valid()
      modifies this`timeRange, this`isDropdownOpen
      ensures Valid()
      ensures timeRange == range && !isDropdownOpen
    {
      timeRange := range;
      isDropdownOpen := false;
    }

    /** A tab trigger. */
    method SelectTab(tab: Tab)
      requires Valid()
      modifies this`activeTab
      ensures Valid()
      ensures activeTab == tab
    {
      activeTab := tab;
    }

    /** The menu trigger. */
    method ToggleDropdown()
      requires Valid()
      modifies this`isDropdownOpen
      ensures Valid()
      ensures isDropdownOpen == !old(isDropdownOpen)
    {
      isDropdownOpen := !isDropdownOpen;
    }
  }

  /**
   * A good upload followed by a rejected one shows the mock data, not the good
   * upload; toggling the theme twice restores it; picking a range closes the menu.
   */
  method UploadScenario(app: App, good: FileContent, bad: FileContent)
    requires app.Valid()
    requires Validate(good).Success? && Validate(bad).Failure?
    modifies app
    ensures app.Valid()
    ensures app.CurrentData() == app.mockData == old(app.mockData)
    ensures app.theme == old(app.theme)
    ensures app.timeRange == "3m" && !app.isDropdownOpen
  {
    var s1 := app.HandleFileUpload(Some(good));
    assert app.CurrentData() == Validate(good).value;
    var s2 := app.HandleFileUpload(Some(bad));
    assert s2.Rejected?;
    app.ToggleTheme();
    app.ToggleTheme();
    app.ToggleDropdown();
    app.HandleTimeRangeSelect("3m");
  }
}
