# DevSecOps dashboard: data pipeline model

A Dafny model of the client-side data pipeline of a single-page DevSecOps
dashboard (`src/App.jsx`). The dashboard shows either randomly generated mock
data or a user-uploaded JSON dataset. It cuts the two monthly trend series to
the selected time range and derives the metric-card values from the result.

The model has six modules: one for the records and one per part of the pipeline.

- `Dataset` (`dataset.dfy`): the records. There are monthly vulnerability and
  MTTR (mean time to resolution) trends, scan coverage, severity slices,
  per-application counts and two rates. The JSON field `new` is called
  `newVulns` because `new` is a Dafny keyword.
- `MockData` (`mock_data.dfy`): the generator. It is a method with the
  source's 12-step loop. That loop runs from `i == 11` down to `0` and pushes
  one entry onto each trend. The method is proved equal to the specification
  function `MockSpec`.
  - Each `Math.random()` value becomes an injected draw `r` with
    `0.0 <= r < 1.0`. Each field is `RandomInt(r, k, b) == floor(r * k) + b`.
  - The draws are used in the order the source evaluates them: 19 header
    values, then 9 per month.
  - Lemmas prove the shape of the result (12 months with matching labels,
    four named severities, five apps) and the exact range of every field.
- `TimeRange` (`time_range.dfy`): `getFilteredData`, written with a model of
  `Array.prototype.slice(start)`. The lemmas cover trailing-window, suffix,
  idempotence and alignment properties.
- `Metrics` (`metrics.dfy`): the metric-card values.
  - `reduce` is modelled as a left fold whose contract equates it with a
    reference sum.
  - `find(...)?.value || 0` is modelled as a first-match lookup.
  - The two MTTR means return a `NotAvailable` sentinel standing for `'N/A'`.
  - The latest-month counts default to 0.
  - Lemmas cover the empty-upload scenario and generated datasets.
- `Upload` (`upload.dfy`): the validation step of the upload handler. It has
  a round-trip lemma: a dataset written out as JSON and read back in is
  accepted and comes back unchanged.
- `Dashboard` (`dashboard.dfy`): class `App` holds the six state fields
  (`mockData`, `uploadedData`, `activeTab`, `timeRange`, `theme`,
  `isDropdownOpen`). Each handler is a method whose `modifies` clause names
  exactly the fields its setter calls replace.
  - The object invariant `Valid()` says the mock dataset always lies within
    the generator's bounds.

Inputs that the source reads from the environment are parameters of the model:

- the `Math.random()` values: `draws`;
- the month labels built from `new Date()` and `toLocaleString`: the labels
  argument;
- the parsed file content: `FileContent`. It is either `Malformed(message)`
  for a `JSON.parse` failure or `Parsed(record)`. Each key of the record is
  `None` when absent or falsy, or `Some(value)` when truthy. An empty array is
  truthy. The two rates are not tested by the upload check and are only
  displayed, so for them `None` means absent and a present 0 is `Some(0)`.

## Behaviour worth noting

The model follows the code as written, including where it differs from what
its comments say:

- A rejected or unparseable upload sets `uploadedData` to `null`
  (src/App.jsx:229, 233). The dashboard therefore falls back to the mock data;
  a rejected upload does not keep an earlier upload. See
  `Dashboard.App.HandleFileUpload` and `Dashboard.UploadScenario`.
- Each generated field `floor(r * k) + b` lies in `b .. b + k - 1`.
  - SCA coverage therefore lies in 85..104 and can exceed 100%
    (`MockData.ScaCoverageCanExceedHundred`), although the source comment
    says 85-100 and the value is shown as a percentage.
  - The other commented ranges are one too wide at the top: sast is 80..99,
    dast 70..89, the gate pass rate 85..94 and policy compliance 88..97.
- Trend `critical` is `floor(r * 20) + 20 - i`, so month `j` (with `i == 11 - j`)
  lies in `9 + j .. 28 + j`. Over all months that is 9..39, never negative.
- The range menu offers four values. The code slices only for `'6m'`, `'3m'`
  and `'1m'`. Every other string, `'12m'` included, leaves both series whole.

## Model

| member | source | states |
|---|---|---|
| `MockData.RandomIntBounds` | src/App.jsx:15-55 | for a draw in [0,1) and k > 0, `floor(r*k)+b` lies in `b .. b+k-1` |
| `MockData.MockSpec` | src/App.jsx:11-57 | the generated dataset has 12 vulnerability and 12 MTTR entries labelled with the i-th month at both index i; four severity entries named Critical, High, Medium, Low in that order; five app entries |
| `MockData.MockSpecInBounds` | src/App.jsx:14-55 | every field of every generated dataset lies in its exact range (coverage, severities, apps and rates by name, each trend month including the `- i` offset, each MTTR month), and both trends have 12 entries with equal month labels |
| `MockData.GenerateMockData` | src/App.jsx:9-60 | the loop from i = 11 down to 0 pushes, on both trend arrays, the entry for month 11 - i; the result equals `MockSpec` of the draws and labels and satisfies the generator bounds |
| `MockData.GeneratedCountsNonNegative` | src/App.jsx:41-48 | in a generated dataset, trend `critical` lies in 9..39 and high, medium and low are non-negative |
| `MockData.ScaCoverageCanExceedHundred` | src/App.jsx:17 | some valid draws give an SCA coverage of 104, above the commented 85-100 |
| `TimeRange.Slice` | src/App.jsx:175-182 | `slice(-n)` returns `min(n, length)` elements, and these are the last elements of the array in order; a non-negative start drops that many elements |
| `TimeRange.GetFilteredData` | src/App.jsx:170-187 | for '6m', '3m' and '1m', each series is replaced by its trailing window of 6, 3 or 1 entries (the same n for both, the whole series if shorter); for any other range both series are unchanged |
| `TimeRange.TrailingWindowIsSuffix` | src/App.jsx:174-183 | a trailing window is a suffix: the series is its dropped prefix followed by the window |
| `TimeRange.FilterIdempotent` | src/App.jsx:170-187 | filtering the filtered series again with the same range gives the same series |
| `TimeRange.FilterKeepsLatest` | src/App.jsx:174-183 | for every range, each of the two series, when non-empty, keeps its most recent entry as its last element |
| `TimeRange.FilterKeepsSeriesAligned` | src/App.jsx:174-183 | if the two series have equal length and equal month labels index by index, so have the filtered series, for every range |
| `TimeRange.NarrowerWindowIsTailOfWider` | src/App.jsx:174-183 | for both series, the series filtered with a narrower range is the trailing window of the series filtered with a wider one |
| `Metrics.Reduce` | src/App.jsx:202-208 | the left fold `reduce((sum, item) => sum + f(item), acc)` (used for the total and both MTTR sums) equals acc plus the reference sum of f |
| `Metrics.TotalVulnerabilities` | src/App.jsx:202 | the total is the sum of `value` over the severity list (0 for an empty list) |
| `Metrics.FindByName` | src/App.jsx:200-201 | `find` by name returns the first index holding that name, or nothing exactly when no entry has it |
| `Metrics.SeverityValue` | src/App.jsx:200-201 | the Critical/High total is the value of the first entry with that name, and 0 when no entry has it |
| `Metrics.AverageMttr` | src/App.jsx:204-209 | the MTTR average is 'N/A' exactly when the filtered list is empty; otherwise the mean times the length equals the sum of the field |
| `Metrics.MeanBetween` | src/App.jsx:205-208 | a sum between `n * lo` and `n * hi`, divided by the count `n > 0`, lies between `lo` and `hi` |
| `Metrics.AverageWithinBounds` | src/App.jsx:204-209 | when every filtered entry's field lies in lo..hi, the average is available and lies in lo..hi |
| `Metrics.NewVulnsLastMonth` | src/App.jsx:211 | the `new` count of the last filtered trend entry, 0 for an empty list; its range independence is stated by `Metrics.LastMonthIgnoresRange` |
| `Metrics.ResolvedVulnsLastMonth` | src/App.jsx:212 | the `resolved` count of the last filtered trend entry, 0 for an empty list; its range independence is stated by `Metrics.LastMonthIgnoresRange` |
| `Metrics.LastMonthIgnoresRange` | src/App.jsx:211-212 | for every range, the latest month's new and resolved counts are those of the dataset's last trend entry, and 0 when the trend is empty |
| `Metrics.OverallScanCoverage` | src/App.jsx:748 | the mean of sast, dast and sca (before rounding) lies between the smallest and largest of the three |
| `Metrics.ScanCoverageWithinBounds` | src/App.jsx:748 | the overall scan coverage (mean of sast, dast and sca) lies between the smallest and largest bounds of the three |
| `Metrics.Summarize` | src/App.jsx:200-212 | the total is the sum of the severity values; each MTTR average is 'N/A' exactly when the dataset's MTTR trend is empty, for every range; the latest-month counts are the dataset's last trend entry's, or 0; the concrete cases are `Metrics.EmptyDatasetSummary` and `Metrics.GeneratedSummary` |
| `Metrics.EmptyDatasetSummary` | src/App.jsx:200-212 | a dataset with empty trends and four zero severities has total 0, both MTTR averages 'N/A' and latest-month counts 0, for every range |
| `Metrics.GeneratedSummary` | src/App.jsx:200-209 | for generated data: Critical and High come from the first two entries, the total is the sum of the four values and lies in 310..956, and both MTTR averages are available, critical in 10..14 and high in 7..13, for every range |
| `Upload.Validate` | src/App.jsx:222-234 | malformed text fails with ParseError carrying the message; a parsed record is accepted iff all five required keys are truthy, else InvalidFormat; an accepted record becomes the dataset field for field |
| `Upload.HasRequiredKeys` | src/App.jsx:224 | the five required keys are all truthy; `Upload.Validate` states that acceptance holds exactly when this does |
| `Upload.SerializeRoundTrip` | src/App.jsx:222-225 | any dataset written out as JSON and uploaded again is accepted and equals the original |
| `Upload.AcceptedIsSerialized` | src/App.jsx:224-225 | an accepted upload is exactly the JSON form of the dataset it becomes |
| `Upload.MissingKeyRejected` | src/App.jsx:224-229 | removing any one of the five required keys makes the upload fail with InvalidFormat |
| `Dashboard.Toggled` | src/App.jsx:247 | the toggled theme always differs from the current one |
| `Dashboard.ToggleTwiceRestores` | src/App.jsx:247 | toggling twice from either theme restores it |
| `Dashboard.UploadOutcome` | src/App.jsx:224-233 | a dataset is installed exactly when the handler reports success; on failure nothing is installed and the validation error is reported |
| `Dashboard.App.CurrentData` | src/App.jsx:162 | the active dataset is the upload while one is installed, otherwise the mock data |
| `Dashboard.MockFilterAligned` | src/App.jsx:170-189 | for a generated dataset and every range, the two filtered series are non-empty, of equal length and aligned by month |
| `Dashboard.MockSummary` | src/App.jsx:200-209 | for a generated dataset and every range, both MTTR averages are available, critical in 10..14 and high in 7..13, and the total lies in 310..956 |
| `Dashboard.App.FilteredData` | src/App.jsx:189 | the charts' series; while the mock data is active (no upload, invariant held) both are non-empty and aligned month by month |
| `Dashboard.App.SummaryMetrics` | src/App.jsx:200-212 | the card values; while the mock data is active both MTTR averages are available within the generator's bounds and the total lies in 310..956 |
| `Dashboard.App.constructor` | src/App.jsx:154-159 | the initial state is generated mock data, no upload, the overview tab, range '12m', light theme and the menu closed |
| `Dashboard.App.HandleFileUpload` | src/App.jsx:214-238 | with no file nothing changes; an accepted file becomes the active dataset; a rejected or unparseable file clears the upload so the mock data is active; only `uploadedData` is written |
| `Dashboard.App.ResetToMockData` | src/App.jsx:240-244 | the upload is cleared and fresh mock data installed, so the active dataset is the new mock; the invariant is kept |
| `Dashboard.App.ToggleTheme` | src/App.jsx:246-248 | light becomes dark and dark becomes light; only the theme changes; the invariant is kept |
| `Dashboard.App.HandleTimeRangeSelect` | src/App.jsx:250-253 | the time range becomes the selected one and the menu is closed; nothing else changes; the invariant is kept |
| `Dashboard.App.SelectTab` | src/App.jsx:689-691 | the active tab becomes the chosen one; nothing else changes; the invariant is kept |
| `Dashboard.App.ToggleDropdown` | src/App.jsx:695 | the menu's open flag is negated; nothing else changes; the invariant is kept |
| `Dashboard.UploadScenario` | src/App.jsx:224-233 | after a good upload and then a rejected upload, the active dataset is the mock data, not the earlier upload |

## Left out

- The JSX markup, the inlined CSS, and the `recharts` charts and tooltips
  (src/App.jsx:255-921): these are presentation and calls into a charting
  library.
- The style-only wrapper components (src/App.jsx:65-150) have no logic.
- `src/tailwind.config.js` is static build configuration.
- The `document.body.className` effect (src/App.jsx:165-167) and the
  `console.log` effect (src/App.jsx:192-196) are DOM and console output.
- `FileReader`, the asynchronous `onload` callback, `JSON.parse` and every
  `alert` are I/O. Reading and parsing become the `FileContent` input. The
  callback is taken to run whole, after the read. Two overlapping reads of
  different files are not modelled.
- Some JSON values are not objects whose keys are truthy datasets.
  - A `null` document makes the key test throw, so it ends in the same parse
    error path. The model treats it as `Malformed`.
  - Other non-object documents leave every key undefined and are rejected.
    The model treats them as a record with every key `None`.
  - A key may hold a truthy value of the wrong type, such as a string or a
    number. The code accepts it and later renders from it. The model does
    not represent such values.
- Numbers are integers in the model.
  - JavaScript numbers in uploads may be fractional, `NaN` or strings.
    `reduce` would then add floating point or concatenate strings, and
    `|| 0` would map `NaN` to 0. None of this is modelled.
  - `Metrics.AverageMttr` and `Metrics.OverallScanCoverage` give exact
    rational means. The `toFixed(1)` rounding to one decimal text is left out.
- `Math.random()` becomes the injected draws. `new Date()` and
  `toLocaleString` become the injected month labels, treated as opaque
  strings.
- `useState(generateMockData())` calls the generator again on every render
  and discards the result. The draws those calls consume are not modelled.
  Only the first result becomes state.
- `resetToMockData`'s alert is output and is not modelled.
