/**
 * The chart data of src/client/components/ClickStatsChart.tsx: the `links`
 * prop is sorted in place by clicks, most clicked first, and the first five
 * are projected to `{ name, clicks, color }`.
 */
module ClickStatsChart {
  import opened LinkModel
  import opened StatsDashboard

  /** The `slice(0, 5)` bound. */
  const MaxBars: nat := 5

  function Min(a: nat, b: nat): nat {
    if a <= b then a else b
  }

  /** `.slice(0, 5).map(...)`: the projection of the first five links, or of all when fewer. */
  function TopData(s: seq<Link>): (r: seq<ChartEntry>)
    ensures |r| == Min(MaxBars, |s|)
    ensures forall i :: 0 <= i < |r| ==> r[i] == ToEntry(s[i])
  {
    ChartData(s[..Min(MaxBars, |s|)])
  }

  /**
   * Over links sorted by clicks, the shown entries do not increase and no
   * link left out has more clicks than the last one shown.
   */
  lemma TopDataIsTop(s: seq<Link>)
    requires ClicksNonIncreasing(s)
    ensures EntriesNonIncreasing(TopData(s))
    ensures |s| > 0 ==> |TopData(s)| > 0
    ensures forall k :: |TopData(s)| <= k < |s| ==> s[k].clicks <= TopData(s)[|TopData(s)| - 1].clicks
  {
  }

  /** The `data` of the chart, computed from the `links` prop. */
  method TopLinksData(links: array<Link>) returns (data: seq<ChartEntry>)
    modifies links
    ensures ClicksNonIncreasing(links[..])
    ensures multiset(links[..]) == old(multiset(links[..]))
    ensures |data| == Min(MaxBars, links.Length)
    ensures forall i :: 0 <= i < |data| ==> data[i] == ToEntry(links[i])
    ensures EntriesNonIncreasing(data)
    ensures forall k :: |data| <= k < links.Length ==> links[k].clicks <= data[|data| - 1].clicks
  {
    SortByClicksDesc(links);
    data := TopData(links[..]);
    TopDataIsTop(links[..]);
  }
}
