/**
 * The chart data of src/client/components/StatsDashboard.tsx: the `links`
 * prop is sorted in place by clicks, most clicked first, and then each link
 * is projected to `{ name, clicks, color }`.
 */
module StatsDashboard {
  import opened LinkModel

  /** The `LinkStats` shape a chart is drawn from. */
  datatype ChartEntry = ChartEntry(name: string, clicks: int, color: string)

  /** No link has more clicks than one before it. */
  predicate ClicksNonIncreasing(s: seq<Link>) {
    forall i, j :: 0 <= i < j < |s| ==> s[i].clicks >= s[j].clicks
  }

  predicate EntriesNonIncreasing(s: seq<ChartEntry>) {
    forall i, j :: 0 <= i < j < |s| ==> s[i].clicks >= s[j].clicks
  }

  function ToEntry(l: Link): ChartEntry {
    ChartEntry(l.name, l.clicks, l.color)
  }

  /** The `.map` projection: one entry per link, in the same order. */
  function ChartData(s: seq<Link>): (r: seq<ChartEntry>)
    ensures |r| == |s|
    ensures forall i :: 0 <= i < |s| ==> r[i] == ToEntry(s[i])
  {
    if s == [] then [] else [ToEntry(s[0])] + ChartData(s[1..])
  }

  /** The total clicks shown by the chart entries. */
  function SumChartClicks(s: seq<ChartEntry>): int {
    if s == [] then 0 else s[0].clicks + SumChartClicks(s[1..])
  }

  /** The projection keeps the total number of clicks. */
  lemma {:induction false} ChartDataSum(s: seq<Link>)
    ensures SumChartClicks(ChartData(s)) == SumClicks(s)
  {
    if s != [] {
      assert ChartData(s)[1..] == ChartData(s[1..]);
      ChartDataSum(s[1..]);
    }
  }

  /** The projection of links sorted by clicks is sorted by clicks. */
  lemma ChartDataNonIncreasing(s: seq<Link>)
    requires ClicksNonIncreasing(s)
    ensures EntriesNonIncreasing(ChartData(s))
  {
  }

  /** Exchanges the links at j - 1 and j. */
  method SwapWithPrevious(a: array<Link>, j: int)
    requires 0 < j < a.Length
    modifies a
    ensures a[j - 1] == old(a[j]) && a[j] == old(a[j - 1])
    ensures forall k :: 0 <= k < a.Length && k != j - 1 && k != j ==> a[k] == old(a[k])
    ensures multiset(a[..]) == old(multiset(a[..]))
  {
    a[j - 1], a[j] := a[j], a[j - 1];
  }

  /** Moves a[i] left past every link with fewer clicks, so that a[..i + 1] is sorted. */
  method InsertAt(a: array<Link>, i: int)
    requires 0 <= i < a.Length
    requires forall p, q :: 0 <= p < q < i ==> a[p].clicks >= a[q].clicks
    modifies a
    ensures forall p, q :: 0 <= p < q <= i ==> a[p].clicks >= a[q].clicks
    ensures forall k :: i < k < a.Length ==> a[k] == old(a[k])
    ensures multiset(a[..]) == old(multiset(a[..]))
  {
    var j := i;
    while j > 0 && a[j - 1].clicks < a[j].clicks
      invariant 0 <= j <= i
      invariant forall k :: i < k < a.Length ==> a[k] == old(a[k])
      invariant multiset(a[..]) == old(multiset(a[..]))
      invariant forall p, q :: 0 <= p < q <= i && p != j && q != j ==> a[p].clicks >= a[q].clicks
      invariant forall q :: j < q <= i ==> a[j].clicks > a[q].clicks
    {
      SwapWithPrevious(a, j);
      j := j - 1;
    }
  }

  /**
   * `links.sort((a, b) => b.clicks - a.clicks)`: reorders the array in place
   * so that clicks never increase from first to last.
   */
  method SortByClicksDesc(a: array<Link>)
    modifies a
    ensures ClicksNonIncreasing(a[..])
    ensures multiset(a[..]) == old(multiset(a[..]))
  {
    var i := 0;
    while i < a.Length
      invariant 0 <= i <= a.Length
      invariant forall p, q :: 0 <= p < q < i ==> a[p].clicks >= a[q].clicks
      invariant multiset(a[..]) == old(multiset(a[..]))
    {
      InsertAt(a, i);
      i := i + 1;
    }
  }

  /** The `data` of the dashboard, computed from the `links` prop. */
  method DashboardData(links: array<Link>) returns (data: seq<ChartEntry>)
    modifies links
    ensures ClicksNonIncreasing(links[..])
    ensures multiset(links[..]) == old(multiset(links[..]))
    ensures data == ChartData(links[..])
    ensures |data| == links.Length
    ensures EntriesNonIncreasing(data)
    ensures SumChartClicks(data) == SumClicks(old(links[..]))
  {
    SortByClicksDesc(links);
    data := ChartData(links[..]);
    ChartDataNonIncreasing(links[..]);
    ChartDataSum(links[..]);
    SumClicksPermutation(links[..], old(links[..]));
  }
}
