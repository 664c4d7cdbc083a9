/**
 * The chart data: which grouping a view selector picks, and the GROUP BY sums over the rows.
 * SQLite leaves the order of GROUP BY output open, so a grouping is a map from label to sum.
 */
module Aggregation {
  import opened Dates
  import opened Records

  /** The column, or derived column, a chart groups the rows by. */
  datatype GroupKey = ByMode | ByPayee | ByCategory | ByMonth

  /** What a chart shows: the grouping and the chart's title. */
  datatype ChartView = ChartView(key: GroupKey, title: string)

  /** The title of the pie chart, which always groups by category. */
  const PieTitle: string := "Expense Allocation by Category"

  /**
   * The bar chart's view selector: "Method", "Receiver" and "Category" pick their columns;
   * every other value, "Month" included, falls through to the month of the date.
   */
  function ViewFor(selection: string): (v: ChartView)
    ensures v.key == ByMode <==> selection == "Method"
    ensures v.key == ByPayee <==> selection == "Receiver"
    ensures v.key == ByCategory <==> selection == "Category"
    ensures v.key == ByMonth <==> selection !in {"Method", "Receiver", "Category"}
    ensures v.key == ByMode ==> v.title == "Expenses by Payment Method"
    ensures v.key == ByPayee ==> v.title == "Expenses by Payee"
    ensures v.key == ByCategory ==> v.title == "Expenses by Category"
    ensures v.key == ByMonth ==> v.title == "Monthly Expense Overview"
  {
    if selection == "Method" then ChartView(ByMode, "Expenses by Payment Method")
    else if selection == "Receiver" then ChartView(ByPayee, "Expenses by Payee")
    else if selection == "Category" then ChartView(ByCategory, "Expenses by Category")
    else ChartView(ByMonth, "Monthly Expense Overview")
  }

  /** The group label of a row under a grouping. */
  function KeyOf(r: Row, key: GroupKey): (k: string)
    ensures key == ByMode ==> k == r.mode
    ensures key == ByPayee ==> k == r.payee
    ensures key == ByCategory ==> k == r.category
    ensures key == ByMonth ==> k == MonthKey(r.date)
    ensures key == ByMonth && IsIsoDateText(r.date) ==>
              |k| == 7 && AllDigits(k[..4]) && k[4] == '-' && AllDigits(k[5..])
  {
    match key
    case ByMode => r.mode
    case ByPayee => r.payee
    case ByCategory => r.category
    case ByMonth => MonthKey(r.date)
  }

  /** The sum recorded for a label, 0 for a label with no group. */
  function Lookup(g: map<string, real>, k: string): real {
    if k in g then g[k] else 0.0
  }

  /** SELECT <key>, SUM(Amount) FROM ExpenseLog GROUP BY <key>. */
  function GroupSums(rows: seq<Row>, key: GroupKey): (g: map<string, real>)
    ensures forall i :: 0 <= i < |rows| ==> KeyOf(rows[i], key) in g
    ensures |g| <= |rows|
  {
    if rows == [] then map[]
    else
      var g := GroupSums(rows[1..], key);
      var k := KeyOf(rows[0], key);
      g[k := rows[0].amount + Lookup(g, k)]
  }

  /** Each distinct label of the rows is a key of the grouping, and there are no others. */
  lemma {:induction false} GroupKeys(rows: seq<Row>, key: GroupKey)
    ensures GroupSums(rows, key).Keys == set r | r in rows :: KeyOf(r, key)
  {
    if rows != [] {
      GroupKeys(rows[1..], key);
      assert rows == [rows[0]] + rows[1..];
    }
  }

  /** The rows that fall in the group labelled k, in table order. */
  function Matching(rows: seq<Row>, key: GroupKey, k: string): seq<Row> {
    if rows == [] then []
    else if KeyOf(rows[0], key) == k then [rows[0]] + Matching(rows[1..], key, k)
    else Matching(rows[1..], key, k)
  }

  /** Each label's sum is the total of exactly the rows carrying that label. */
  lemma {:induction false} GroupAt(rows: seq<Row>, key: GroupKey, k: string)
    ensures k in GroupSums(rows, key) <==> Matching(rows, key, k) != []
    ensures Lookup(GroupSums(rows, key), k) == Total(Matching(rows, key, k))
  {
    if rows != [] {
      GroupAt(rows[1..], key, k);
    }
  }

  /** An empty table is the no-data outcome: there is no group exactly when there is no row. */
  lemma {:induction false} GroupSumsEmpty(rows: seq<Row>, key: GroupKey)
    ensures GroupSums(rows, key) == map[] <==> rows == []
  {
    if rows != [] {
      assert KeyOf(rows[0], key) in GroupSums(rows, key);
    }
  }

  /** With positive amounts every group's sum is positive. */
  lemma {:induction false} GroupSumsPositive(rows: seq<Row>, key: GroupKey)
    requires forall r :: r in rows ==> r.amount > 0.0
    ensures forall k :: k in GroupSums(rows, key) ==> GroupSums(rows, key)[k] > 0.0
  {
    forall k | k in GroupSums(rows, key) ensures GroupSums(rows, key)[k] > 0.0 {
      GroupAt(rows, key, k);
      MatchingWithin(rows, key, k);
      TotalPositive(Matching(rows, key, k));
    }
  }

  lemma {:induction false} MatchingWithin(rows: seq<Row>, key: GroupKey, k: string)
    ensures forall r :: r in Matching(rows, key, k) ==> r in rows && KeyOf(r, key) == k
  {
    if rows != [] {
      MatchingWithin(rows[1..], key, k);
      assert rows == [rows[0]] + rows[1..];
    }
  }

  lemma {:induction false} MatchingConcat(a: seq<Row>, b: seq<Row>, key: GroupKey, k: string)
    ensures Matching(a + b, key, k) == Matching(a, key, k) + Matching(b, key, k)
  {
    if a == [] {
      assert a + b == b;
    } else {
      assert (a + b)[1..] == a[1..] + b;
      MatchingConcat(a[1..], b, key, k);
    }
  }

  /** Rearranging the rows rearranges each group's rows and nothing more. */
  lemma {:induction false} MatchingPerm(a: seq<Row>, b: seq<Row>, key: GroupKey, k: string)
    requires multiset(a) == multiset(b)
    ensures multiset(Matching(a, key, k)) == multiset(Matching(b, key, k))
    decreases |a|
  {
    if a == [] {
      assert |b| == |multiset(b)| == 0;
    } else {
      var x := a[0];
      var j := TakeOut(a, b);
      var rest := b[..j] + b[j + 1..];
      assert b == b[..j] + [x] + b[j + 1..];
      assert a == [x] + a[1..];
      MatchingPerm(a[1..], rest, key, k);
      var left, one, right := Matching(b[..j], key, k), Matching([x], key, k), Matching(b[j + 1..], key, k);
      MatchingConcat(b[..j], [x] + b[j + 1..], key, k);
      MatchingConcat([x], b[j + 1..], key, k);
      MatchingConcat(b[..j], b[j + 1..], key, k);
      MatchingConcat([x], a[1..], key, k);
      assert b == b[..j] + ([x] + b[j + 1..]);
      assert Matching(b, key, k) == left + (one + right);
      calc {
        multiset(Matching(a, key, k));
        multiset(one + Matching(a[1..], key, k));
        multiset(one) + multiset(Matching(rest, key, k));
        multiset(one) + multiset(left + right);
        multiset(left + (one + right));
      }
    }
  }

  /** The grouping does not depend on the order the rows were inserted in: any rearrangement of the rows gives the same sums. */
  lemma GroupSumsOrderFree(a: seq<Row>, b: seq<Row>, key: GroupKey)
    requires multiset(a) == multiset(b)
    ensures GroupSums(a, key) == GroupSums(b, key)
  {
    var g1, g2 := GroupSums(a, key), GroupSums(b, key);
    forall k ensures (k in g1 <==> k in g2) && Lookup(g1, k) == Lookup(g2, k) {
      GroupAt(a, key, k);
      GroupAt(b, key, k);
      MatchingPerm(a, b, key, k);
      TotalPerm(Matching(a, key, k), Matching(b, key, k));
      assert |Matching(a, key, k)| == |multiset(Matching(a, key, k))|;
      assert |Matching(b, key, k)| == |multiset(Matching(b, key, k))|;
    }
    assert g1.Keys == g2.Keys;
  }

  ghost function PickKey(m: map<string, real>): string
    requires m != map[]
  {
    assert exists k :: k in m by {
      var k :| k in m.Keys;
    }
    var k :| k in m; k
  }

  /** The sum of all the values of a map. */
  ghost function MapSum(m: map<string, real>): real
    decreases |m|
  {
    if m == map[] then 0.0
    else
      var k := PickKey(m);
      assert |m - {k}| < |m| by {
        assert m.Keys == (m - {k}).Keys + {k};
      }
      m[k] + MapSum(m - {k})
  }

  /** MapSum does not depend on which key it takes first. */
  lemma {:induction false} MapSumRemove(m: map<string, real>, k: string)
    requires k in m
    ensures MapSum(m) == m[k] + MapSum(m - {k})
    decreases |m|
  {
    var j := PickKey(m);
    if j != k {
      assert |m - {j}| < |m| by {
        assert m.Keys == (m - {j}).Keys + {j};
      }
      assert |m - {k}| < |m| by {
        assert m.Keys == (m - {k}).Keys + {k};
      }
      MapSumRemove(m - {j}, k);
      MapSumRemove(m - {k}, j);
      assert m - {j} - {k} == m - {k} - {j};
    }
  }

  lemma MapSumUpdate(m: map<string, real>, k: string, v: real)
    ensures MapSum(m[k := v]) == MapSum(m) - Lookup(m, k) + v
  {
    MapSumRemove(m[k := v], k);
    assert m[k := v] - {k} == m - {k};
    if k in m {
      MapSumRemove(m, k);
    } else {
      assert m - {k} == m;
    }
  }

  /** Adding an amount to one label's sum raises the sum of all values by that amount. */
  lemma MapSumAddTo(g: map<string, real>, k: string, amount: real)
    ensures MapSum(g[k := amount + Lookup(g, k)]) == MapSum(g) + amount
  {
    MapSumUpdate(g, k, amount + Lookup(g, k));
  }

  /** The chart's values add up to the total spent. */
  lemma {:induction false} GroupSumsAddUp(rows: seq<Row>, key: GroupKey)
    ensures MapSum(GroupSums(rows, key)) == Total(rows)
  {
    if rows != [] {
      GroupSumsAddUp(rows[1..], key);
      MapSumAddTo(GroupSums(rows[1..], key), KeyOf(rows[0], key), rows[0].amount);
    }
  }
}
