/**
 * The time-range filter: the two trend series cut to a trailing window chosen
 * by the range string ("6m", "3m", "1m"; "12m" and every other string keep
 * the series whole).
 */
module TimeRange {
  import opened Dataset

  /** The two filtered series the charts and metrics read. */
  datatype Filtered = Filtered(vulnerabilityTrends: seq<VulnTrend>, mttrTrends: seq<MttrTrend>)

  /** `Array.prototype.slice(start)` with one argument: a negative start counts back from the end. */
  function Slice<T>(s: seq<T>, start: int): (r: seq<T>)
    ensures |r| == if start < 0 then Min(-start, |s|) else Max(|s| - start, 0)
    ensures forall i :: 0 <= i < |r| ==> r[i] == s[|s| - |r| + i]
  {
    var from := if start < 0 then Max(|s| + start, 0) else Min(start, |s|);
    s[from..]
  }

  /** `r` is the last `min(n, |s|)` elements of `s`, in their original order. */
  ghost predicate IsTrailingWindow<T>(r: seq<T>, s: seq<T>, n: nat) {
    |r| == Min(n, |s|) && forall i :: 0 <= i < |r| ==> r[i] == s[|s| - |r| + i]
  }

  /** The window length a range string selects; None when nothing is cut off. */
  function WindowMonths(range: string): Option<nat> {
    if range == "6m" then Some(6)
    else if range == "3m" then Some(3)
    else if range == "1m" then Some(1)
    else None
  }

  function GetFilteredData(d: Dataset, range: string): (r: Filtered)
    ensures WindowMonths(range).Some? ==>
      && IsTrailingWindow(r.vulnerabilityTrends, d.vulnerabilityTrends, WindowMonths(range).value)
      && IsTrailingWindow(r.mttrTrends, d.mttrTrends, WindowMonths(range).value)
    ensures WindowMonths(range).None? ==>
      r.vulnerabilityTrends == d.vulnerabilityTrends && r.mttrTrends == d.mttrTrends
  {
    if range == "6m" then
      Filtered(Slice(d.vulnerabilityTrends, -6), Slice(d.mttrTrends, -6))
    else if range == "3m" then
      Filtered(Slice(d.vulnerabilityTrends, -3), Slice(d.mttrTrends, -3))
    else if range == "1m" then
      Filtered(Slice(d.vulnerabilityTrends, -1), Slice(d.mttrTrends, -1))
    else
      Filtered(d.vulnerabilityTrends, d.mttrTrends)
  }

  /** A trailing window is a suffix: dropping a prefix of `s` gives it back. */
  lemma TrailingWindowIsSuffix<T>(r: seq<T>, s: seq<T>, n: nat)
    requires IsTrailingWindow(r, s, n)
    ensures r == s[|s| - |r|..] && s == s[..|s| - |r|] + r
  {
    assert r == s[|s| - |r|..];
  }

  /** Filtering an already filtered dataset with the same range changes nothing. */
  lemma FilterIdempotent(d: Dataset, range: string)
    ensures
      var f := GetFilteredData(d, range);
      GetFilteredData(d.(vulnerabilityTrends := f.vulnerabilityTrends, mttrTrends := f.mttrTrends), range) == f
  {
    var f := GetFilteredData(d, range);
    var d' := d.(vulnerabilityTrends := f.vulnerabilityTrends, mttrTrends := f.mttrTrends);
    var g := GetFilteredData(d', range);
    if WindowMonths(range).Some? {
      TrailingWindowIsSuffix(g.vulnerabilityTrends, f.vulnerabilityTrends, WindowMonths(range).value);
      TrailingWindowIsSuffix(g.mttrTrends, f.mttrTrends, WindowMonths(range).value);
    }
  }

  /** Whatever the range, each non-empty series keeps its most recent entry last. */
  lemma FilterKeepsLatest(d: Dataset, range: string)
    ensures
      var f := GetFilteredData(d, range).vulnerabilityTrends;
      var s := d.vulnerabilityTrends;
      |s| > 0 ==> |f| > 0 && f[|f| - 1] == s[|s| - 1]
    ensures
      var g := GetFilteredData(d, range).mttrTrends;
      var s := d.mttrTrends;
      |s| > 0 ==> |g| > 0 && g[|g| - 1] == s[|s| - 1]
  {
    var f := GetFilteredData(d, range).vulnerabilityTrends;
    var g := GetFilteredData(d, range).mttrTrends;
    if WindowMonths(range).Some? {
      if |d.vulnerabilityTrends| > 0 {
        assert f[|f| - 1] == d.vulnerabilityTrends[|d.vulnerabilityTrends| - |f| + |f| - 1];
      }
      if |d.mttrTrends| > 0 {
        assert g[|g| - 1] == d.mttrTrends[|d.mttrTrends| - |g| + |g| - 1];
      }
    }
  }

  /**
   * Both series are cut by the same window: if the dataset's two series have
   * the same length and month labels index by index, so do the filtered ones.
   */
  lemma FilterKeepsSeriesAligned(d: Dataset, range: string)
    requires |d.vulnerabilityTrends| == |d.mttrTrends|
    requires forall j :: 0 <= j < |d.mttrTrends| ==>
      d.vulnerabilityTrends[j].month == d.mttrTrends[j].month
    ensures
      var f := GetFilteredData(d, range);
      && |f.vulnerabilityTrends| == |f.mttrTrends|
      && forall j :: 0 <= j < |f.mttrTrends| ==>
           f.vulnerabilityTrends[j].month == f.mttrTrends[j].month
  {
    var f := GetFilteredData(d, range);
    if WindowMonths(range).Some? {
      WindowsAligned(f.vulnerabilityTrends, d.vulnerabilityTrends,
                     f.mttrTrends, d.mttrTrends, WindowMonths(range).value);
    }
  }

  lemma WindowsAligned(rv: seq<VulnTrend>, sv: seq<VulnTrend>, rm: seq<MttrTrend>, sm: seq<MttrTrend>, n: nat)
    requires |sv| == |sm|
    requires forall j :: 0 <= j < |sm| ==> sv[j].month == sm[j].month
    requires IsTrailingWindow(rv, sv, n) && IsTrailingWindow(rm, sm, n)
    ensures |rv| == |rm| && forall j :: 0 <= j < |rm| ==> rv[j].month == rm[j].month
  {
    forall j | 0 <= j < |rm| ensures rv[j].month == rm[j].month {
      assert rv[j] == sv[|sv| - |rv| + j];
      assert rm[j] == sm[|sm| - |rm| + j];
    }
  }

  /** A narrower window is the tail of a wider one, for both series. */
  lemma NarrowerWindowIsTailOfWider(d: Dataset, narrow: string, wide: string)
    requires WindowMonths(narrow).Some?
    requires WindowMonths(wide).None? || WindowMonths(narrow).value <= WindowMonths(wide).value
    ensures
      var fn := GetFilteredData(d, narrow);
      var fw := GetFilteredData(d, wide);
      && IsTrailingWindow(fn.vulnerabilityTrends, fw.vulnerabilityTrends, WindowMonths(narrow).value)
      && IsTrailingWindow(fn.mttrTrends, fw.mttrTrends, WindowMonths(narrow).value)
  {
    var fn := GetFilteredData(d, narrow);
    var fw := GetFilteredData(d, wide);
    WindowOfWindow(fn.vulnerabilityTrends, fw.vulnerabilityTrends, d.vulnerabilityTrends,
                   WindowMonths(narrow).value);
    WindowOfWindow(fn.mttrTrends, fw.mttrTrends, d.mttrTrends, WindowMonths(narrow).value);
  }

  lemma WindowOfWindow<T>(rn: seq<T>, rw: seq<T>, s: seq<T>, n: nat)
    requires IsTrailingWindow(rn, s, n)
    requires |rn| <= |rw| <= |s|
    requires forall i :: 0 <= i < |rw| ==> rw[i] == s[|s| - |rw| + i]
    ensures IsTrailingWindow(rn, rw, n)
  {
    forall i | 0 <= i < |rn| ensures rn[i] == rw[|rw| - |rn| + i] {
      assert rn[i] == s[|s| - |rn| + i];
      assert rw[|rw| - |rn| + i] == s[|s| - |rw| + (|rw| - |rn| + i)];
    }
  }
}
