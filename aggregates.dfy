/**
 * The summary figures over the merged table: `calculate_kpis`, `average_outflow`,
 * `top_payees_count` and `top_payees_amount`.
 */
module Aggregates {
  import opened Tables
  import opened Sums
  import opened Merger

  datatype Totals = Totals(inflow: int, outflow: int)

  /** `calculate_kpis`: the totals of the Inflow and Outflow columns. */
  function CalculateKpis(rows: seq<Transaction>): (r: Totals)
    ensures r.inflow >= 0 && r.outflow >= 0
  {
    SumNonNegative(rows, TxnInflow);
    SumNonNegative(rows, TxnOutflow);
    Totals(Sum(rows, TxnInflow), Sum(rows, TxnOutflow))
  }

  /** `df[df['Outflow'] > 0]`: the rows with a positive Outflow, in order. */
  function OutflowRows(rows: seq<Transaction>): (out: seq<Transaction>)
    ensures |out| <= |rows|
    ensures forall k :: 0 <= k < |out| ==> out[k].outflow > 0 && out[k] in rows
    ensures forall k :: 0 <= k < |rows| && rows[k].outflow > 0 ==> rows[k] in out
    decreases |rows|
  {
    if rows == [] then []
    else (if rows[0].outflow > 0 then [rows[0]] else []) + OutflowRows(rows[1..])
  }

  /** The filter keeps each row with a positive Outflow as often as the table has it, and no other row. */
  lemma {:induction false} OutflowRowsMultiplicity(rows: seq<Transaction>)
    ensures forall t :: multiset(OutflowRows(rows))[t] == if t.outflow > 0 then multiset(rows)[t] else 0
    decreases |rows|
  {
    if rows != [] {
      OutflowRowsMultiplicity(rows[1..]);
      assert rows == [rows[0]] + rows[1..];
      assert multiset(rows) == multiset{rows[0]} + multiset(rows[1..]);
    }
  }

  /** The filter keeps the order of the table: filtering two parts one after the other is filtering the whole. */
  lemma {:induction false} OutflowRowsConcat(a: seq<Transaction>, b: seq<Transaction>)
    ensures OutflowRows(a + b) == OutflowRows(a) + OutflowRows(b)
    decreases |a|
  {
    if a != [] {
      var ab := a + b;
      assert ab[0] == a[0] && ab[1..] == a[1..] + b;
      OutflowRowsConcat(a[1..], b);
      assert OutflowRows(ab) == (if a[0].outflow > 0 then [a[0]] else []) + OutflowRows(a[1..] + b);
    } else {
      assert a + b == b;
    }
  }

  /** `average_outflow`: the mean of the positive Outflow values, 0 when there are none. */
  function AverageOutflow(rows: seq<Transaction>): real {
    var out := OutflowRows(rows);
    if out == [] then 0.0 else Sum(out, TxnOutflow) as real / |out| as real
  }

  /** The smallest Outflow among `out`. */
  function MinOutflow(out: seq<Transaction>): (m: int)
    requires out != []
    ensures exists k :: 0 <= k < |out| && out[k].outflow == m
    ensures forall k :: 0 <= k < |out| ==> m <= out[k].outflow
    decreases |out|
  {
    if |out| == 1 then out[0].outflow
    else
      var rest := MinOutflow(out[1..]);
      if out[0].outflow <= rest then out[0].outflow else rest
  }

  /** The largest Outflow among `out`. */
  function MaxOutflow(out: seq<Transaction>): (m: int)
    requires out != []
    ensures exists k :: 0 <= k < |out| && out[k].outflow == m
    ensures forall k :: 0 <= k < |out| ==> out[k].outflow <= m
    decreases |out|
  {
    if |out| == 1 then out[0].outflow
    else
      var rest := MaxOutflow(out[1..]);
      if out[0].outflow >= rest then out[0].outflow else rest
  }

  lemma {:induction false} SumBetween(out: seq<Transaction>, lo: int, hi: int)
    requires forall k :: 0 <= k < |out| ==> lo <= out[k].outflow <= hi
    ensures lo * |out| <= Sum(out, TxnOutflow) <= hi * |out|
    decreases |out|
  {
    if out != [] {
      SumBetween(out[1..], lo, hi);
      assert lo * |out| == lo + lo * |out[1..]|;
      assert hi * |out| == hi + hi * |out[1..]|;
    }
  }

  lemma MeanBetween(s: int, n: int, lo: int, hi: int)
    requires n > 0 && lo * n <= s <= hi * n
    ensures lo as real <= s as real / n as real <= hi as real
  {
    var q := s as real / n as real;
    assert q * n as real == s as real;
    assert (lo as real) * (n as real) == (lo * n) as real;
    assert (hi as real) * (n as real) == (hi * n) as real;
  }

  lemma {:induction false} NoOutflowRows(rows: seq<Transaction>)
    ensures OutflowRows(rows) == [] <==> forall k :: 0 <= k < |rows| ==> rows[k].outflow == 0
    decreases |rows|
  {
    if rows != [] {
      NoOutflowRows(rows[1..]);
      assert forall k :: 1 <= k < |rows| ==> rows[k] == rows[1..][k - 1];
    }
  }

  /** With some positive Outflow, the mean lies between the smallest and the largest of them. */
  lemma AverageBetweenExtremes(rows: seq<Transaction>)
    requires OutflowRows(rows) != []
    ensures MinOutflow(OutflowRows(rows)) as real <= AverageOutflow(rows) <= MaxOutflow(OutflowRows(rows)) as real
  {
    var out := OutflowRows(rows);
    var lo, hi := MinOutflow(out), MaxOutflow(out);
    SumBetween(out, lo, hi);
    MeanBetween(Sum(out, TxnOutflow), |out|, lo, hi);
  }

  /** Each filtered row is a row of the table with a positive Outflow. */
  lemma OutflowOfRow(rows: seq<Transaction>, i: nat)
    requires i < |OutflowRows(rows)|
    ensures exists a :: 0 <= a < |rows| && rows[a].outflow > 0 && rows[a].outflow == OutflowRows(rows)[i].outflow
  {
    var x := OutflowRows(rows)[i];
    assert x in rows;
    var a :| 0 <= a < |rows| && rows[a] == x;
  }

  /** The smallest and the largest positive Outflow are Outflows of rows of the table. */
  lemma ExtremesAreRows(rows: seq<Transaction>)
    requires OutflowRows(rows) != []
    ensures exists a :: 0 <= a < |rows| && rows[a].outflow > 0 && rows[a].outflow == MinOutflow(OutflowRows(rows))
    ensures exists b :: 0 <= b < |rows| && rows[b].outflow > 0 && rows[b].outflow == MaxOutflow(OutflowRows(rows))
  {
    var out := OutflowRows(rows);
    var i :| 0 <= i < |out| && out[i].outflow == MinOutflow(out);
    var j :| 0 <= j < |out| && out[j].outflow == MaxOutflow(out);
    OutflowOfRow(rows, i);
    OutflowOfRow(rows, j);
  }

  /**
   * The mean lies between the smallest and the largest positive Outflow, and is 0
   * when no row has a positive Outflow.
   */
  lemma AverageOutflowBounds(rows: seq<Transaction>)
    ensures (forall k :: 0 <= k < |rows| ==> rows[k].outflow == 0) ==> AverageOutflow(rows) == 0.0
    ensures (exists k :: 0 <= k < |rows| && rows[k].outflow > 0) ==>
              && (exists k :: 0 <= k < |rows| && rows[k].outflow > 0 && rows[k].outflow as real <= AverageOutflow(rows))
              && (exists k :: 0 <= k < |rows| && rows[k].outflow > 0 && AverageOutflow(rows) <= rows[k].outflow as real)
  {
    NoOutflowRows(rows);
    if OutflowRows(rows) != [] {
      AverageBetweenExtremes(rows);
      ExtremesAreRows(rows);
    }
  }

  /** One line of a ranking: a payee and its count or its summed Outflow. */
  datatype Ranked = Ranked(payee: Cell, value: int)

  predicate NonIncreasing(r: seq<Ranked>) {
    forall i, j :: 0 <= i < j < |r| ==> r[i].value >= r[j].value
  }

  predicate DistinctPayees(r: seq<Ranked>) {
    forall i, j :: 0 <= i < j < |r| ==> r[i].payee != r[j].payee
  }

  /**
   * The payees of `rows`, each once, in order of first appearance. NaN is not a payee:
   * `value_counts` and `groupby` drop missing keys.
   */
  function Payees(rows: seq<Transaction>): (ps: seq<Cell>)
    ensures forall i, j :: 0 <= i < j < |ps| ==> ps[i] != ps[j]
    ensures forall p :: p in ps <==> p != NaN && exists k :: 0 <= k < |rows| && rows[k].payee == p
    decreases |rows|
  {
    if rows == [] then []
    else
      var earlier := Payees(rows[..|rows| - 1]);
      var p := rows[|rows| - 1].payee;
      assert forall k :: 0 <= k < |rows| - 1 ==> rows[..|rows| - 1][k] == rows[k];
      if p == NaN || p in earlier then earlier else earlier + [p]
  }

  /** The number of rows whose payee is `p`. */
  function CountFor(rows: seq<Transaction>, p: Cell): nat
    decreases |rows|
  {
    if rows == [] then 0 else (if rows[0].payee == p then 1 else 0) + CountFor(rows[1..], p)
  }

  /** The summed Outflow of the rows whose payee is `p`. */
  function OutflowFor(rows: seq<Transaction>, p: Cell): int
    decreases |rows|
  {
    if rows == [] then 0 else (if rows[0].payee == p then rows[0].outflow else 0) + OutflowFor(rows[1..], p)
  }

  /** A payee with a row among positive-Outflow rows has a count of at least 1 and a positive summed Outflow. */
  lemma {:induction false} PayeeMeasuresPositive(out: seq<Transaction>, p: Cell, k: nat)
    requires k < |out| && out[k].payee == p
    requires forall i :: 0 <= i < |out| ==> out[i].outflow > 0
    ensures CountFor(out, p) >= 1 && OutflowFor(out, p) > 0
    decreases |out|
  {
    if k > 0 {
      PayeeMeasuresPositive(out[1..], p, k - 1);
    } else {
      PayeeMeasuresNonNegative(out[1..], p);
    }
  }

  lemma {:induction false} PayeeMeasuresNonNegative(out: seq<Transaction>, p: Cell)
    ensures OutflowFor(out, p) >= 0
    decreases |out|
  {
    if out != [] {
      PayeeMeasuresNonNegative(out[1..], p);
    }
  }

  /** `value_counts()` before sorting: each payee of `out` with its number of rows. */
  function CountTally(out: seq<Transaction>): (es: seq<Ranked>)
    ensures DistinctPayees(es)
    ensures forall p :: Listed(es, p) <==> p != NaN && exists t :: 0 <= t < |out| && out[t].payee == p
    ensures forall i :: 0 <= i < |es| ==> es[i].value == CountFor(out, es[i].payee)
    ensures |es| == |Payees(out)| && forall i :: 0 <= i < |es| ==> es[i].payee == Payees(out)[i]
  {
    var ps := Payees(out);
    var es := seq(|ps|, i requires 0 <= i < |ps| => Ranked(ps[i], CountFor(out, ps[i])));
    TallyListsPayees(out, es);
    es
  }

  /** `groupby('Payee')['Outflow'].sum()`: each payee of `out` with its summed Outflow. */
  function AmountTally(out: seq<Transaction>): (es: seq<Ranked>)
    ensures DistinctPayees(es)
    ensures forall p :: Listed(es, p) <==> p != NaN && exists t :: 0 <= t < |out| && out[t].payee == p
    ensures forall i :: 0 <= i < |es| ==> es[i].value == OutflowFor(out, es[i].payee)
    ensures |es| == |Payees(out)| && forall i :: 0 <= i < |es| ==> es[i].payee == Payees(out)[i]
  {
    var ps := Payees(out);
    var es := seq(|ps|, i requires 0 <= i < |ps| => Ranked(ps[i], OutflowFor(out, ps[i])));
    TallyListsPayees(out, es);
    es
  }

  /** A tally with one line per payee of `out`, in order, lists each payee of `out` once and nothing else. */
  lemma TallyListsPayees(out: seq<Transaction>, es: seq<Ranked>)
    requires |es| == |Payees(out)| && forall i :: 0 <= i < |es| ==> es[i].payee == Payees(out)[i]
    ensures DistinctPayees(es)
    ensures forall p :: Listed(es, p) <==> p != NaN && exists t :: 0 <= t < |out| && out[t].payee == p
  {
    var ps := Payees(out);
    forall p
      ensures Listed(es, p) <==> p in ps
    {
      if p in ps {
        var i :| 0 <= i < |ps| && ps[i] == p;
        assert es[i].payee == p;
      }
    }
  }

  /** Puts `e` before the first line whose value is not above its own. */
  function InsertDescending(e: Ranked, s: seq<Ranked>): (r: seq<Ranked>)
    ensures multiset(r) == multiset(s) + multiset{e}
    ensures |r| == |s| + 1
    decreases |s|
  {
    if s == [] || e.value >= s[0].value then [e] + s
    else
      assert s == [s[0]] + s[1..];
      [s[0]] + InsertDescending(e, s[1..])
  }

  /** The line `e` and the lines of `s` are what `InsertDescending(e, s)` holds beyond its head. */
  lemma InsertDescendingFrom(e: Ranked, s: seq<Ranked>, j: nat)
    requires j < |InsertDescending(e, s)|
    ensures InsertDescending(e, s)[j] == e || exists k :: 0 <= k < |s| && s[k] == InsertDescending(e, s)[j]
  {
    assert InsertDescending(e, s)[j] in multiset(s) + multiset{e};
  }

  lemma {:induction false} InsertDescendingSorted(e: Ranked, s: seq<Ranked>)
    requires NonIncreasing(s)
    ensures NonIncreasing(InsertDescending(e, s))
    decreases |s|
  {
    if s != [] && e.value < s[0].value {
      var tail := InsertDescending(e, s[1..]);
      InsertDescendingSorted(e, s[1..]);
      forall j | 0 <= j < |tail|
        ensures s[0].value >= tail[j].value
      {
        InsertDescendingFrom(e, s[1..], j);
      }
      assert InsertDescending(e, s) == [s[0]] + tail;
    }
  }

  lemma {:induction false} InsertDescendingDistinct(e: Ranked, s: seq<Ranked>)
    requires DistinctPayees(s)
    requires forall k :: 0 <= k < |s| ==> s[k].payee != e.payee
    ensures DistinctPayees(InsertDescending(e, s))
    decreases |s|
  {
    if s != [] && e.value < s[0].value {
      var tail := InsertDescending(e, s[1..]);
      InsertDescendingDistinct(e, s[1..]);
      forall j | 0 <= j < |tail|
        ensures s[0].payee != tail[j].payee
      {
        InsertDescendingFrom(e, s[1..], j);
      }
      assert InsertDescending(e, s) == [s[0]] + tail;
    }
  }

  /**
   * `sort_values(ascending=False)` by insertion. Lines of equal value keep their
   * order, a tie-break the model chooses: pandas does not order ties.
   */
  function SortDescending(es: seq<Ranked>): (r: seq<Ranked>)
    ensures multiset(r) == multiset(es)
    ensures NonIncreasing(r)
    decreases |es|
  {
    if es == [] then []
    else
      var rest := SortDescending(es[1..]);
      assert es == [es[0]] + es[1..];
      InsertDescendingSorted(es[0], rest);
      InsertDescending(es[0], rest)
  }

  lemma {:induction false} SortDescendingDistinct(es: seq<Ranked>)
    requires DistinctPayees(es)
    ensures DistinctPayees(SortDescending(es))
    decreases |es|
  {
    if es != [] {
      var rest := SortDescending(es[1..]);
      SortDescendingDistinct(es[1..]);
      forall k | 0 <= k < |rest|
        ensures rest[k].payee != es[0].payee
      {
        assert rest[k] in multiset(es[1..]);
        var i :| 0 <= i < |es[1..]| && es[1..][i] == rest[k];
        assert es[i + 1] == rest[k];
      }
      InsertDescendingDistinct(es[0], rest);
    }
  }

  /** `.head(5)` of the descending ranking. */
  function TopFive(es: seq<Ranked>): seq<Ranked> {
    var s := SortDescending(es);
    s[..if |s| < 5 then |s| else 5]
  }

  /** The lines of `s[..n]` are lines of `es`, a line at position `j` of `s`. */
  lemma PrefixLinesFrom(es: seq<Ranked>, s: seq<Ranked>, n: nat)
    requires multiset(s) == multiset(es)
    requires n <= |s|
    ensures forall k :: 0 <= k < n ==> s[..n][k] in es
  {
    forall k | 0 <= k < n
      ensures s[..n][k] in es
    {
      assert s[..n][k] == s[k] && s[k] in multiset(es);
    }
  }

  /** A line of `es` outside `s[..n]` sits at or after position `n` of `s`, so it is no larger than `s[n - 1]`. */
  lemma PrefixBoundsRest(es: seq<Ranked>, s: seq<Ranked>, n: nat)
    requires multiset(s) == multiset(es) && NonIncreasing(s)
    requires 0 < n <= |s|
    ensures forall i :: 0 <= i < |es| ==> es[i] in s[..n] || (n < |s| && es[i].value <= s[n - 1].value)
  {
    forall i | 0 <= i < |es|
      ensures es[i] in s[..n] || (n < |s| && es[i].value <= s[n - 1].value)
    {
      assert es[i] in multiset(s);
      var j :| 0 <= j < |s| && s[j] == es[i];
      if j < n {
        assert s[..n][j] == es[i];
      }
    }
  }

  /** A prefix of a non-increasing ranking of distinct payees is one too. */
  lemma PrefixKeepsOrder(s: seq<Ranked>, n: nat)
    requires NonIncreasing(s) && DistinctPayees(s) && n <= |s|
    ensures NonIncreasing(s[..n]) && DistinctPayees(s[..n])
  {
    assert forall k :: 0 <= k < n ==> s[..n][k] == s[k];
  }

  /**
   * The first five of a ranking of distinct payees are its largest values: at most
   * five lines, in non-increasing order, each taken from the ranking, and every line
   * left out is no larger than the fifth.
   */
  lemma TopFiveSelects(es: seq<Ranked>)
    requires DistinctPayees(es)
    ensures var r := TopFive(es);
      && |r| == (if |es| < 5 then |es| else 5)
      && NonIncreasing(r)
      && DistinctPayees(r)
      && (forall k :: 0 <= k < |r| ==> r[k] in es)
      && (forall i :: 0 <= i < |es| ==> es[i] in r || (|r| == 5 && es[i].value <= r[4].value))
  {
    var s := SortDescending(es);
    SortDescendingDistinct(es);
    assert |s| == |multiset(s)| == |multiset(es)| == |es|;
    var n := if |s| < 5 then |s| else 5;
    assert TopFive(es) == s[..n];
    PrefixKeepsOrder(s, n);
    PrefixLinesFrom(es, s, n);
    if es != [] {
      PrefixBoundsRest(es, s, n);
    }
  }

  /** `top_payees_count`: the five payees with the most positive-Outflow rows, with their counts. */
  function TopPayeesCount(rows: seq<Transaction>): seq<Ranked> {
    TopFive(CountTally(OutflowRows(rows)))
  }

  /** `top_payees_amount`: the five payees with the largest summed positive Outflow, with their sums. */
  function TopPayeesAmount(rows: seq<Transaction>): seq<Ranked> {
    TopFive(AmountTally(OutflowRows(rows)))
  }

  /** Every payee a ranking over `OutflowRows(rows)` lists has a positive-Outflow row in `rows`. */
  lemma PayeeHasOutflowRow(rows: seq<Transaction>, p: Cell)
    requires p in Payees(OutflowRows(rows))
    ensures p != NaN
    ensures exists t :: 0 <= t < |rows| && rows[t].outflow > 0 && rows[t].payee == p
    ensures CountFor(OutflowRows(rows), p) >= 1 && OutflowFor(OutflowRows(rows), p) > 0
  {
    var out := OutflowRows(rows);
    var k :| 0 <= k < |out| && out[k].payee == p;
    assert out[k] in rows;
    PayeeMeasuresPositive(out, p, k);
  }

  /** A payee `rows[t]` with a positive Outflow is among the payees the rankings consider. */
  lemma OutflowPayeeRanked(rows: seq<Transaction>, t: nat)
    requires t < |rows| && rows[t].outflow > 0 && rows[t].payee != NaN
    ensures rows[t].payee in Payees(OutflowRows(rows))
  {
    var out := OutflowRows(rows);
    assert rows[t] in out;
    var k :| 0 <= k < |out| && out[k] == rows[t];
  }

  /** Some row of `rows` has a positive Outflow and payee `p`. */
  predicate HasOutflowRow(rows: seq<Transaction>, p: Cell) {
    exists t :: 0 <= t < |rows| && rows[t].outflow > 0 && rows[t].payee == p
  }

  /** Payee `p` has a line in ranking `r`. */
  predicate Listed(r: seq<Ranked>, p: Cell) {
    exists k :: 0 <= k < |r| && r[k].payee == p
  }

  /**
   * What both rankings promise, for a tally `es` of the positive-Outflow rows: at most
   * five payees, each once, in non-increasing order; each listed payee has a
   * positive-Outflow row and its line of the tally; and a payee with such a row that is
   * not listed has five listed payees ahead of it, none with a smaller value.
   */
  lemma RankingOfTally(rows: seq<Transaction>, es: seq<Ranked>)
    requires |es| == |Payees(OutflowRows(rows))|
    requires forall i :: 0 <= i < |es| ==> es[i].payee == Payees(OutflowRows(rows))[i]
    ensures var r := TopFive(es);
      && |r| == (if |es| < 5 then |es| else 5)
      && NonIncreasing(r)
      && DistinctPayees(r)
      && (forall k :: 0 <= k < |r| ==> r[k] in es && r[k].payee != NaN && HasOutflowRow(rows, r[k].payee))
      && (forall p :: p != NaN && HasOutflowRow(rows, p) && !Listed(r, p) ==>
            exists i :: 0 <= i < |es| && es[i].payee == p && |r| == 5 && es[i].value <= r[4].value)
  {
    var r := TopFive(es);
    TopFiveSelects(es);
    ListedHaveOutflowRows(rows, es, r);
    UnlistedRankLower(rows, es, r);
  }

  /** Lines taken from a tally of the positive-Outflow rows name payees that have such a row. */
  lemma ListedHaveOutflowRows(rows: seq<Transaction>, es: seq<Ranked>, r: seq<Ranked>)
    requires |es| == |Payees(OutflowRows(rows))|
    requires forall i :: 0 <= i < |es| ==> es[i].payee == Payees(OutflowRows(rows))[i]
    requires forall k :: 0 <= k < |r| ==> r[k] in es
    ensures forall k :: 0 <= k < |r| ==> r[k].payee != NaN && HasOutflowRow(rows, r[k].payee)
  {
    forall k | 0 <= k < |r|
      ensures r[k].payee != NaN && HasOutflowRow(rows, r[k].payee)
    {
      var i :| 0 <= i < |es| && es[i] == r[k];
      PayeeHasOutflowRow(rows, Payees(OutflowRows(rows))[i]);
    }
  }

  /** A payee with a positive-Outflow row whose tally line is below the fifth listed line. */
  lemma UnlistedRankLower(rows: seq<Transaction>, es: seq<Ranked>, r: seq<Ranked>)
    requires |es| == |Payees(OutflowRows(rows))|
    requires forall i :: 0 <= i < |es| ==> es[i].payee == Payees(OutflowRows(rows))[i]
    requires forall i :: 0 <= i < |es| ==> es[i] in r || (|r| == 5 && es[i].value <= r[4].value)
    ensures forall p :: p != NaN && HasOutflowRow(rows, p) && !Listed(r, p) ==>
              exists i :: 0 <= i < |es| && es[i].payee == p && |r| == 5 && es[i].value <= r[4].value
  {
    var ps := Payees(OutflowRows(rows));
    forall p | p != NaN && HasOutflowRow(rows, p) && !Listed(r, p)
      ensures exists i :: 0 <= i < |es| && es[i].payee == p && |r| == 5 && es[i].value <= r[4].value
    {
      var t :| 0 <= t < |rows| && rows[t].outflow > 0 && rows[t].payee == p;
      OutflowPayeeRanked(rows, t);
      var i :| 0 <= i < |ps| && ps[i] == p;
      assert es[i].payee == p;
    }
  }

  /** Lines taken from the count tally carry their payee's measure over the positive-Outflow rows. */
  lemma CountLinesMeasured(rows: seq<Transaction>, r: seq<Ranked>)
    requires forall k :: 0 <= k < |r| ==> r[k] in CountTally(OutflowRows(rows))
    ensures forall k :: 0 <= k < |r| ==> r[k].value == CountFor(OutflowRows(rows), r[k].payee) >= 1
  {
    var out := OutflowRows(rows);
    var es := CountTally(out);
    forall k | 0 <= k < |r|
      ensures r[k].value == CountFor(out, r[k].payee) >= 1
    {
      var i :| 0 <= i < |es| && es[i] == r[k];
      PayeeHasOutflowRow(rows, Payees(out)[i]);
    }
  }

  /** Each payee `top_payees_count` lists has a positive-Outflow row and is listed with the number of them. */
  lemma TopPayeesCountValues(rows: seq<Transaction>)
    ensures var out := OutflowRows(rows);
      var r := TopPayeesCount(rows);
      forall k :: 0 <= k < |r| ==>
        r[k].payee != NaN && HasOutflowRow(rows, r[k].payee) && r[k].value == CountFor(out, r[k].payee) >= 1
  {
    var out := OutflowRows(rows);
    var es := CountTally(out);
    var r := TopPayeesCount(rows);
    RankingOfTally(rows, es);
    CountLinesMeasured(rows, r);
  }

  /** A payee with a positive-Outflow row that `top_payees_count` leaves out has no more rows than the fifth. */
  lemma TopPayeesCountUnlisted(rows: seq<Transaction>)
    ensures var out := OutflowRows(rows);
      var r := TopPayeesCount(rows);
      forall p :: p != NaN && HasOutflowRow(rows, p) && !Listed(r, p) ==> |r| == 5 && CountFor(out, p) <= r[4].value
  {
    var out := OutflowRows(rows);
    var es := CountTally(out);
    var r := TopPayeesCount(rows);
    RankingOfTally(rows, es);
    forall p | p != NaN && HasOutflowRow(rows, p) && !Listed(r, p)
      ensures |r| == 5 && CountFor(out, p) <= r[4].value
    {
      var i :| 0 <= i < |es| && es[i].payee == p && |r| == 5 && es[i].value <= r[4].value;
    }
  }

  /**
   * `top_payees_count`: at most five payees, each once, in non-increasing order of
   * count; each listed payee has a positive-Outflow row and is listed with the number
   * of such rows; a payee with such a row that is not listed has five listed payees
   * ahead of it, none with a smaller count.
   */
  lemma TopPayeesCountSpec(rows: seq<Transaction>)
    ensures var out := OutflowRows(rows);
      var r := TopPayeesCount(rows);
      && |r| == (if |Payees(out)| < 5 then |Payees(out)| else 5)
      && NonIncreasing(r)
      && DistinctPayees(r)
      && (forall k :: 0 <= k < |r| ==>
            r[k].payee != NaN && HasOutflowRow(rows, r[k].payee) && r[k].value == CountFor(out, r[k].payee) >= 1)
      && (forall p :: p != NaN && HasOutflowRow(rows, p) && !Listed(r, p) ==>
            |r| == 5 && CountFor(out, p) <= r[4].value)
  {
    RankingOfTally(rows, CountTally(OutflowRows(rows)));
    TopPayeesCountValues(rows);
    TopPayeesCountUnlisted(rows);
  }

  /** Lines taken from the amount tally carry their payee's measure over the positive-Outflow rows. */
  lemma AmountLinesMeasured(rows: seq<Transaction>, r: seq<Ranked>)
    requires forall k :: 0 <= k < |r| ==> r[k] in AmountTally(OutflowRows(rows))
    ensures forall k :: 0 <= k < |r| ==> r[k].value == OutflowFor(OutflowRows(rows), r[k].payee) > 0
  {
    var out := OutflowRows(rows);
    var es := AmountTally(out);
    forall k | 0 <= k < |r|
      ensures r[k].value == OutflowFor(out, r[k].payee) > 0
    {
      var i :| 0 <= i < |es| && es[i] == r[k];
      PayeeHasOutflowRow(rows, Payees(out)[i]);
    }
  }

  /** Each payee `top_payees_amount` lists has a positive-Outflow row and is listed with their summed Outflow. */
  lemma TopPayeesAmountValues(rows: seq<Transaction>)
    ensures var out := OutflowRows(rows);
      var r := TopPayeesAmount(rows);
      forall k :: 0 <= k < |r| ==>
        r[k].payee != NaN && HasOutflowRow(rows, r[k].payee) && r[k].value == OutflowFor(out, r[k].payee) > 0
  {
    var out := OutflowRows(rows);
    var es := AmountTally(out);
    var r := TopPayeesAmount(rows);
    RankingOfTally(rows, es);
    AmountLinesMeasured(rows, r);
  }

  /** A payee with a positive-Outflow row that `top_payees_amount` leaves out has summed no more than the fifth. */
  lemma TopPayeesAmountUnlisted(rows: seq<Transaction>)
    ensures var out := OutflowRows(rows);
      var r := TopPayeesAmount(rows);
      forall p :: p != NaN && HasOutflowRow(rows, p) && !Listed(r, p) ==> |r| == 5 && OutflowFor(out, p) <= r[4].value
  {
    var out := OutflowRows(rows);
    var es := AmountTally(out);
    var r := TopPayeesAmount(rows);
    RankingOfTally(rows, es);
    forall p | p != NaN && HasOutflowRow(rows, p) && !Listed(r, p)
      ensures |r| == 5 && OutflowFor(out, p) <= r[4].value
    {
      var i :| 0 <= i < |es| && es[i].payee == p && |r| == 5 && es[i].value <= r[4].value;
    }
  }

  /**
   * `top_payees_amount`: at most five payees, each once, in non-increasing order of
   * summed Outflow; each listed payee has a positive-Outflow row and is listed with the
   * sum over such rows; a payee with such a row that is not listed has five listed
   * payees ahead of it, none with a smaller sum.
   */
  lemma TopPayeesAmountSpec(rows: seq<Transaction>)
    ensures var out := OutflowRows(rows);
      var r := TopPayeesAmount(rows);
      && |r| == (if |Payees(out)| < 5 then |Payees(out)| else 5)
      && NonIncreasing(r)
      && DistinctPayees(r)
      && (forall k :: 0 <= k < |r| ==>
            r[k].payee != NaN && HasOutflowRow(rows, r[k].payee) && r[k].value == OutflowFor(out, r[k].payee) > 0)
      && (forall p :: p != NaN && HasOutflowRow(rows, p) && !Listed(r, p) ==>
            |r| == 5 && OutflowFor(out, p) <= r[4].value)
  {
    RankingOfTally(rows, AmountTally(OutflowRows(rows)));
    TopPayeesAmountValues(rows);
    TopPayeesAmountUnlisted(rows);
  }
}
