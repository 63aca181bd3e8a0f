/**
 * The overall pie chart's data (components/OverallPieChart.tsx): the ten largest
 * entries by value, then one `Others` slice for the rest when that rest is positive,
 * every slice carrying the overall total.
 */
module PieChart {
  import opened Seqs

  /** One input entry; other fields of the record are carried along and not modelled. */
  datatype Item = Item(name: string, value: int)

  datatype Slice = Slice(name: string, value: int, totalOverall: int)

  datatype Chart = Chart(chartData: seq<Slice>, totalValue: int)

  /** The sort key of `(a, b) => b.value - a.value`: larger values first. */
  function Descending(it: Item): int {
    -it.value
  }

  function ValueOf(it: Item): int {
    it.value
  }

  function SliceValue(s: Slice): int {
    s.value
  }

  /** `[...data].sort(...)`: a sorted copy. */
  function Sorted(data: seq<Item>): seq<Item> {
    SortBy(data, Descending)
  }

  /** `sorted.slice(0, 10)`. */
  function Top(data: seq<Item>): seq<Item> {
    var sorted := Sorted(data);
    if |sorted| <= 10 then sorted else sorted[..10]
  }

  /** `sorted.slice(10)`. */
  function Rest(data: seq<Item>): seq<Item> {
    var sorted := Sorted(data);
    if |sorted| <= 10 then [] else sorted[10..]
  }

  /** `top10.map(item => ({ ...item, totalOverall: total }))`. */
  function WithTotal(items: seq<Item>, total: int): (r: seq<Slice>)
    ensures |r| == |items|
    ensures forall i :: 0 <= i < |items| ==> r[i] == Slice(items[i].name, items[i].value, total)
  {
    seq(|items|, i requires 0 <= i < |items| => Slice(items[i].name, items[i].value, total))
  }

  /** The `chartData` / `totalValue` computation. */
  function ChartOf(data: seq<Item>): Chart {
    var others := Sum(Rest(data), ValueOf);
    var total := Sum(data, ValueOf);
    var slices := WithTotal(Top(data), total);
    Chart(if others > 0 then slices + [Slice("Others", others, total)] else slices, total)
  }

  lemma SortedFacts(data: seq<Item>)
    ensures |Sorted(data)| == |data| && multiset(Sorted(data)) == multiset(data)
    ensures Top(data) + Rest(data) == Sorted(data)
    ensures |Top(data)| == (if |data| <= 10 then |data| else 10)
    ensures forall i, j :: 0 <= i < j < |Sorted(data)| ==> Sorted(data)[i].value >= Sorted(data)[j].value
  {
    var s := Sorted(data);
    if |s| > 10 {
      assert s[..10] + s[10..] == s;
    }
    forall i, j | 0 <= i < j < |s| ensures s[i].value >= s[j].value {
      assert Descending(s[i]) <= Descending(s[j]);
    }
  }

  /**
   * The top entries are a permutation of the input split with the rest, in
   * non-increasing order, each at least as large as every entry of the rest.
   */
  lemma TopIsLargest(data: seq<Item>)
    ensures multiset(Top(data)) + multiset(Rest(data)) == multiset(data)
    ensures |Top(data)| == (if |data| <= 10 then |data| else 10)
    ensures forall i, j :: 0 <= i < j < |Top(data)| ==> Top(data)[i].value >= Top(data)[j].value
    ensures forall i, j :: 0 <= i < |Top(data)| && 0 <= j < |Rest(data)| ==> Top(data)[i].value >= Rest(data)[j].value
  {
    SortedFacts(data);
    var s, t, r := Sorted(data), Top(data), Rest(data);
    assert multiset(t + r) == multiset(t) + multiset(r);
    forall i, j | 0 <= i < j < |t| ensures t[i].value >= t[j].value {
      assert t[i] == s[i] && t[j] == s[j];
    }
    forall i, j | 0 <= i < |t| && 0 <= j < |r| ensures t[i].value >= r[j].value {
      assert t[i] == s[i] && r[j] == s[|t| + j];
    }
  }

  /**
   * At most 11 slices: the top entries with the overall total, then `Others` exactly
   * when the rest sums to more than 0, carrying that sum.
   */
  lemma ChartShape(data: seq<Item>)
    ensures |ChartOf(data).chartData| <= 11
    ensures ChartOf(data).totalValue == Sum(data, ValueOf)
    ensures forall i :: 0 <= i < |ChartOf(data).chartData| ==> ChartOf(data).chartData[i].totalOverall == ChartOf(data).totalValue
    ensures forall i :: 0 <= i < |Top(data)| ==>
      ChartOf(data).chartData[i] == Slice(Top(data)[i].name, Top(data)[i].value, ChartOf(data).totalValue)
    ensures |ChartOf(data).chartData| == |Top(data)| + 1 <==> Sum(Rest(data), ValueOf) > 0
    ensures |ChartOf(data).chartData| > |Top(data)| ==>
      ChartOf(data).chartData[|Top(data)|] == Slice("Others", Sum(Rest(data), ValueOf), ChartOf(data).totalValue)
  {
    SortedFacts(data);
  }

  lemma {:induction false} WithTotalSum(items: seq<Item>, total: int)
    ensures Sum(WithTotal(items, total), SliceValue) == Sum(items, ValueOf)
  {
    if items != [] {
      WithTotalSum(items[1..], total);
      assert WithTotal(items, total)[1..] == WithTotal(items[1..], total);
    }
  }

  /** With no negative value, the slices add up to the overall total. */
  lemma ChartConserves(data: seq<Item>)
    requires forall it :: it in data ==> it.value >= 0
    ensures Sum(ChartOf(data).chartData, SliceValue) == ChartOf(data).totalValue
  {
    SortedFacts(data);
    var t, r := Top(data), Rest(data);
    var total := Sum(data, ValueOf);
    SortBySum(data, Descending, ValueOf);
    SumConcat(t, r, ValueOf);
    forall it | it in r ensures ValueOf(it) >= 0 {
      assert it in multiset(Sorted(data));
    }
    SumNonNegative(r, ValueOf);
    WithTotalSum(t, total);
    var others := Sum(r, ValueOf);
    if others > 0 {
      var slices := WithTotal(t, total);
      SumConcat(slices, [Slice("Others", others, total)], SliceValue);
    }
  }
}
