/**
 * The pie chart of the month's spending by category
 * (components/dashboard/CategoryDistributionChart.tsx): the five largest categories get their own
 * slice and the rest are folded into one "Other" slice.
 */
module CategoryDistribution {
  import opened Types
  import opened Sorting
  import opened Utils

  /** `chartData.reduce((sum, item) => sum + item.value, 0)`, the total shown with the chart. */
  function ChartTotal(chartData: seq<ChartData>): int {
    SumOf(chartData, Value)
  }

  /** The value of the "Other" slice: the sum over everything after the first five entries. */
  function OtherValue(chartData: seq<ChartData>): int
    requires |chartData| > 5
  {
    SumOf(chartData[5..], Value)
  }

  /**
   * `chartData.slice(0, 5)`, followed by an "Other" slice coloured `chart-5` when there are more
   * than five entries and the rest sum above zero: at most six slices, the first min(5, n)
   * entries unchanged, and nothing to draw only when there is no data.
   */
  function Grouped(chartData: seq<ChartData>): (r: seq<ChartData>)
    ensures r == [] <==> chartData == []
    ensures var k := if |chartData| <= 5 then |chartData| else 5;
            |r| <= 6 && k <= |r| && r[..k] == chartData[..k]
    ensures |r| == 6 <==> |chartData| > 5 && OtherValue(chartData) > 0
    ensures |r| == 6 ==> r[5] == ChartData("Other", OtherValue(chartData), Some("chart-5"))
  {
    var top := if |chartData| <= 5 then chartData else chartData[..5];
    if |chartData| > 5 && OtherValue(chartData) > 0
    then top + [ChartData("Other", OtherValue(chartData), Some("chart-5"))]
    else top
  }

  lemma {:induction false} SumOfConcat(a: seq<ChartData>, b: seq<ChartData>)
    ensures SumOf(a + b, Value) == SumOf(a, Value) + SumOf(b, Value)
    decreases |a|
  {
    if a != [] {
      assert (a + b)[1..] == a[1..] + b;
      SumOfConcat(a[1..], b);
    } else {
      assert a + b == b;
    }
  }

  /** A sum of values that are all at least 0 is at least 0, and above 0 when one of them is. */
  lemma {:induction false} SumOfSign(s: seq<ChartData>)
    requires forall x :: x in s ==> x.value >= 0
    ensures SumOf(s, Value) >= 0
    ensures (exists x :: x in s && x.value > 0) ==> SumOf(s, Value) > 0
    decreases |s|
  {
    if s != [] {
      assert s[0] in s;
      forall x | x in s[1..] ensures x.value >= 0 { assert x in s; }
      SumOfSign(s[1..]);
      forall x | x in s && x.value > 0 && x != s[0] ensures x in s[1..] {
        assert s == [s[0]] + s[1..];
      }
    }
  }

  /** When no value is negative the slices keep the total: dropping a zero "Other" loses nothing. */
  lemma {:induction false} GroupedKeepsTotal(chartData: seq<ChartData>)
    requires forall x :: x in chartData ==> x.value >= 0
    ensures ChartTotal(Grouped(chartData)) == ChartTotal(chartData)
  {
    if |chartData| > 5 {
      var top, rest := chartData[..5], chartData[5..];
      assert chartData == top + rest;
      SumOfConcat(top, rest);
      forall x | x in rest ensures x.value >= 0 { assert x in chartData; }
      SumOfSign(rest);
      var other := ChartData("Other", OtherValue(chartData), Some("chart-5"));
      SumOfConcat(top, [other]);
      assert SumOf([other], Value) == other.value;
    }
  }

  /** The pie of a month adds up to the month's expense total, and so does the total shown beside it. */
  lemma {:induction false} PieMatchesMonth(ts: seq<Transaction>, categories: seq<Category>, month: string)
    ensures ChartTotal(CategoryChartData(ts, categories, month)) == MonthlyExpenses(ts, month)
    ensures ChartTotal(Grouped(CategoryChartData(ts, categories, month))) == MonthlyExpenses(ts, month)
  {
    var data := CategoryChartData(ts, categories, month);
    CategoryChartSumsToMonthlyExpenses(ts, categories, month);
    CategoryChartShape(ts, categories, month);
    GroupedKeepsTotal(data);
  }

  /**
   * For the chart data of a month, the "Other" slice appears exactly when more than five
   * categories have spending, and every one of the five own slices is at least as large as every
   * category folded into "Other".
   */
  lemma {:induction false} OtherSliceOfMonth(ts: seq<Transaction>, categories: seq<Category>, month: string)
    ensures var data := CategoryChartData(ts, categories, month);
            (|Grouped(data)| == 6 <==> |SpendingTable(FilterByMonth(ts, month))| > 5)
            && forall i, j :: 0 <= i < 5 <= j < |data| ==> data[i].value >= data[j].value
  {
    var data := CategoryChartData(ts, categories, month);
    CategoryChartShape(ts, categories, month);
    assert |data| == |SpendingTable(FilterByMonth(ts, month))|;
    if |data| > 5 {
      var rest := data[5..];
      assert rest[0] in rest && rest[0] == data[5] && data[5] in data;
      forall x | x in rest ensures x.value >= 0 { assert x in data; }
      SumOfSign(rest);
    }
  }
}
