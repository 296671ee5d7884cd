/**
 * Lines 127-137: the mapped tables of all uploaded files are concatenated in
 * upload order, their dates coerced, the rows sorted by date ascending with
 * unparseable dates (NaT) last, and the rows renumbered from 1.
 */
module Merger {
  import opened Wrappers
  import opened Tables
  import opened Mapper
  import opened Sums

  /** A row of the merged table: its 1-based index, its date (`None` for NaT) and the mapped fields. */
  datatype Transaction = Transaction(index: nat, date: Option<int>, payee: Cell, memo: Cell, inflow: nat, outflow: nat)

  function TxnInflow(r: Transaction): int { r.inflow }
  function TxnOutflow(r: Transaction): int { r.outflow }

  /** `pd.concat(all_transactions, ignore_index=True)`: every file's rows, files in upload order. */
  function Concat(tables: seq<seq<MappedRow>>): seq<MappedRow>
    decreases |tables|
  {
    if tables == [] then [] else tables[0] + Concat(tables[1..])
  }

  lemma {:induction false} ConcatAppend(tables: seq<seq<MappedRow>>, rows: seq<MappedRow>)
    ensures Concat(tables + [rows]) == Concat(tables) + rows
    decreases |tables|
  {
    if tables == [] {
      assert [rows][1..] == [];
    } else {
      assert (tables + [rows])[1..] == tables[1..] + [rows];
      ConcatAppend(tables[1..], rows);
    }
  }

  /** Sorting ascending with `na_position='last'`: date `a` goes strictly before date `b`. */
  predicate DateBefore(a: Option<int>, b: Option<int>) {
    a.Some? && (b.None? || a.value < b.value)
  }

  /** A concatenated row with its position in the concatenation and its coerced date. */
  datatype Keyed = Keyed(position: nat, date: Option<int>, row: MappedRow)

  function KeyedInflow(x: Keyed): int { x.row.inflow }
  function KeyedOutflow(x: Keyed): int { x.row.outflow }

  /**
   * The order the merge sorts by: date first, then position in the concatenation.
   * The second key makes the sort stable, a guarantee the model adds.
   */
  predicate Precedes(x: Keyed, y: Keyed) {
    DateBefore(x.date, y.date) || (x.date == y.date && x.position < y.position)
  }

  predicate StrictlySorted(s: seq<Keyed>) {
    forall i, j :: 0 <= i < j < |s| ==> Precedes(s[i], s[j])
  }

  /** The concatenated rows, each with its position and its coerced date. */
  function Labeled(rows: seq<MappedRow>, toDatetime: Cell -> Option<int>): (s: seq<Keyed>)
    ensures |s| == |rows|
    ensures forall j :: 0 <= j < |rows| ==> s[j] == Keyed(j, toDatetime(rows[j].date), rows[j])
  {
    seq(|rows|, j requires 0 <= j < |rows| => Keyed(j, toDatetime(rows[j].date), rows[j]))
  }

  /** Puts `x` before the first element it precedes. */
  function Insert(x: Keyed, s: seq<Keyed>): (r: seq<Keyed>)
    ensures multiset(r) == multiset(s) + multiset{x}
    ensures |r| == |s| + 1
    decreases |s|
  {
    if s == [] || Precedes(x, s[0]) then [x] + s
    else
      assert s == [s[0]] + s[1..];
      [s[0]] + Insert(x, s[1..])
  }

  lemma {:induction false} InsertPositionsBelow(x: Keyed, s: seq<Keyed>, n: nat)
    requires x.position < n
    requires forall k :: 0 <= k < |s| ==> s[k].position < n
    ensures forall k :: 0 <= k < |s| + 1 ==> Insert(x, s)[k].position < n
    decreases |s|
  {
    if s != [] && !Precedes(x, s[0]) {
      InsertPositionsBelow(x, s[1..], n);
    }
  }

  lemma {:induction false} InsertSorted(x: Keyed, s: seq<Keyed>)
    requires StrictlySorted(s)
    requires forall k :: 0 <= k < |s| ==> s[k].position != x.position
    ensures StrictlySorted(Insert(x, s))
    decreases |s|
  {
    if s != [] && !Precedes(x, s[0]) {
      var tail := Insert(x, s[1..]);
      InsertSorted(x, s[1..]);
      assert Precedes(s[0], x);
      forall j | 0 <= j < |tail|
        ensures Precedes(s[0], tail[j])
      {
        assert tail[j] in multiset(s[1..]) + multiset{x};
        if tail[j] != x {
          assert tail[j] in s[1..];
          var k :| 0 <= k < |s[1..]| && s[1..][k] == tail[j];
          assert Precedes(s[0], s[k + 1]);
        }
      }
      assert Insert(x, s) == [s[0]] + tail;
    }
  }

  function ToTransaction(index: nat, x: Keyed): Transaction {
    Transaction(index, x.date, x.row.payee, x.row.memo, x.row.inflow, x.row.outflow)
  }

  /** Row `row` of the concatenation as it lands at 1-based position `index` of the merged table. */
  function Merged(index: nat, row: MappedRow, toDatetime: Cell -> Option<int>): Transaction {
    Transaction(index, toDatetime(row.date), row.payee, row.memo, row.inflow, row.outflow)
  }

  /**
   * What the sorted rows give once renumbered: each row is a concatenated row at its
   * own position, no position is used twice or left out, dates are in order with NaT
   * last, and rows with equal dates keep their concatenation order.
   */
  lemma SortedDataset(rows: seq<MappedRow>, toDatetime: Cell -> Option<int>, sorted: seq<Keyed>)
    requires StrictlySorted(sorted)
    requires multiset(sorted) == multiset(Labeled(rows, toDatetime))
    ensures |sorted| == |rows|
    ensures forall k :: 0 <= k < |sorted| ==>
              sorted[k].position < |rows| && ToTransaction(k + 1, sorted[k]) == Merged(k + 1, rows[sorted[k].position], toDatetime)
    ensures forall k, l :: 0 <= k < l < |sorted| ==> sorted[k].position != sorted[l].position
    ensures forall j :: 0 <= j < |rows| ==> Labeled(rows, toDatetime)[j] in sorted
  {
    var labeled := Labeled(rows, toDatetime);
    assert |sorted| == |multiset(sorted)| == |multiset(labeled)| == |rows|;
    forall k | 0 <= k < |sorted|
      ensures sorted[k].position < |rows| && sorted[k] == labeled[sorted[k].position]
    {
      assert sorted[k] in multiset(labeled);
      var j :| 0 <= j < |labeled| && labeled[j] == sorted[k];
    }
    forall j | 0 <= j < |rows|
      ensures labeled[j] in sorted
    {
      assert labeled[j] in multiset(sorted);
    }
  }

  /** The renumbered table carries the concatenation's Inflow and Outflow totals. */
  lemma DatasetSums(rows: seq<MappedRow>, toDatetime: Cell -> Option<int>, sorted: seq<Keyed>, dataset: seq<Transaction>)
    requires multiset(sorted) == multiset(Labeled(rows, toDatetime))
    requires |dataset| == |sorted|
    requires forall k :: 0 <= k < |sorted| ==> dataset[k] == ToTransaction(k + 1, sorted[k])
    ensures Sum(dataset, TxnInflow) == Sum(rows, Inflow)
    ensures Sum(dataset, TxnOutflow) == Sum(rows, Outflow)
  {
    var labeled := Labeled(rows, toDatetime);
    SumPermutation(sorted, labeled, KeyedInflow);
    SumPointwise(labeled, rows, KeyedInflow, Inflow);
    SumPointwise(dataset, sorted, TxnInflow, KeyedInflow);
    SumPermutation(sorted, labeled, KeyedOutflow);
    SumPointwise(labeled, rows, KeyedOutflow, Outflow);
    SumPointwise(dataset, sorted, TxnOutflow, KeyedOutflow);
  }

  /** Renumbering a strictly sorted sequence keeps its dates in order, NaT last, and equal dates in position order. */
  lemma RenumberedInOrder(sorted: seq<Keyed>, dataset: seq<Transaction>, origin: seq<nat>)
    requires StrictlySorted(sorted)
    requires |dataset| == |sorted| == |origin|
    requires forall k :: 0 <= k < |sorted| ==> dataset[k].date == sorted[k].date && origin[k] == sorted[k].position
    ensures forall k, l :: 0 <= k < l < |dataset| && dataset[l].date.Some? ==>
              dataset[k].date.Some? && dataset[k].date.value <= dataset[l].date.value
    ensures forall k, l :: 0 <= k < l < |dataset| && dataset[k].date == dataset[l].date ==> origin[k] < origin[l]
  {
    forall k, l | 0 <= k < l < |dataset|
      ensures dataset[l].date.Some? ==> dataset[k].date.Some? && dataset[k].date.value <= dataset[l].date.value
      ensures dataset[k].date == dataset[l].date ==> origin[k] < origin[l]
    {
      assert Precedes(sorted[k], sorted[l]);
    }
  }

  /**
   * Line 133, `sort_values(by='Date')` after the coercion of line 130: inserts each
   * concatenated row, in order, into a sorted prefix.
   */
  method SortByDate(rows: seq<MappedRow>, toDatetime: Cell -> Option<int>) returns (sorted: seq<Keyed>)
    ensures StrictlySorted(sorted)
    ensures multiset(sorted) == multiset(Labeled(rows, toDatetime))
  {
    ghost var labeled := Labeled(rows, toDatetime);
    sorted := [];
    var i := 0;
    while i < |rows|
      invariant 0 <= i <= |rows|
      invariant StrictlySorted(sorted)
      invariant multiset(sorted) == multiset(labeled[..i])
      invariant forall k :: 0 <= k < |sorted| ==> sorted[k].position < i
    {
      var x := Keyed(i, toDatetime(rows[i].date), rows[i]);
      InsertSorted(x, sorted);
      InsertPositionsBelow(x, sorted, i + 1);
      assert labeled[..i + 1] == labeled[..i] + [x];
      sorted := Insert(x, sorted);
      i := i + 1;
    }
    assert labeled[..i] == labeled;
  }

  /**
   * `dataset` is `rows` merged by date: row `k` is the concatenated row `origin[k]`
   * renumbered `k + 1`, every concatenated row lands exactly once, parseable dates are
   * non-decreasing with NaT after them, and rows with equal dates keep upload order.
   */
  predicate MergeOf(rows: seq<MappedRow>, toDatetime: Cell -> Option<int>, dataset: seq<Transaction>, origin: seq<nat>) {
    && |dataset| == |rows| == |origin|
    && (forall k :: 0 <= k < |dataset| ==>
          origin[k] < |rows| && dataset[k] == Merged(k + 1, rows[origin[k]], toDatetime))
    && (forall k, l :: 0 <= k < l < |dataset| ==> origin[k] != origin[l])
    && (forall j :: 0 <= j < |rows| ==> j in origin)
    && (forall k, l :: 0 <= k < l < |dataset| && dataset[l].date.Some? ==>
          dataset[k].date.Some? && dataset[k].date.value <= dataset[l].date.value)
    && (forall k, l :: 0 <= k < l < |dataset| && dataset[k].date == dataset[l].date ==> origin[k] < origin[l])
  }

  /** A merged table has no parseable date exactly when no concatenated row's date parses. */
  lemma MergeOfAllNaT(rows: seq<MappedRow>, toDatetime: Cell -> Option<int>, dataset: seq<Transaction>, origin: seq<nat>)
    requires MergeOf(rows, toDatetime, dataset, origin)
    ensures (forall k :: 0 <= k < |dataset| ==> dataset[k].date.None?) <==>
            (forall j :: 0 <= j < |rows| ==> toDatetime(rows[j].date).None?)
  {
    if forall k :: 0 <= k < |dataset| ==> dataset[k].date.None? {
      forall j | 0 <= j < |rows|
        ensures toDatetime(rows[j].date).None?
      {
        assert j in origin;
        var k :| 0 <= k < |origin| && origin[k] == j;
        assert dataset[k].date.None?;
      }
    }
  }

  /**
   * Lines 127-137. `toDatetime` is `pd.to_datetime(..., errors='coerce')` on one cell:
   * a timestamp, or `None` (NaT) for a cell that does not parse. The `origin` of
   * position `k` is the position in the concatenation the row came from.
   */
  method MergeTables(tables: seq<seq<MappedRow>>, toDatetime: Cell -> Option<int>) returns (dataset: seq<Transaction>, ghost origin: seq<nat>)
    ensures MergeOf(Concat(tables), toDatetime, dataset, origin)
    ensures Sum(dataset, TxnInflow) == Sum(Concat(tables), Inflow)
    ensures Sum(dataset, TxnOutflow) == Sum(Concat(tables), Outflow)
  {
    var rows := Concat(tables);
    var sorted := SortByDate(rows, toDatetime);
    SortedDataset(rows, toDatetime, sorted);
    // Lines 136-137: renumber from 1.
    dataset := seq(|sorted|, k requires 0 <= k < |sorted| => ToTransaction(k + 1, sorted[k]));
    origin := seq(|sorted|, k requires 0 <= k < |sorted| => sorted[k].position);
    forall j | 0 <= j < |rows|
      ensures j in origin
    {
      ghost var labeled := Labeled(rows, toDatetime);
      assert labeled[j] in sorted;
      var k :| 0 <= k < |sorted| && sorted[k] == labeled[j];
      assert origin[k] == j;
    }
    RenumberedInOrder(sorted, dataset, origin);
    DatasetSums(rows, toDatetime, sorted, dataset);
  }
}
