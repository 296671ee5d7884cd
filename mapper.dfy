/**
 * `apply_mappings`: builds the import frame field by field from a parsed file and
 * a column map, then splits the signed Amount into Inflow and Outflow.
 */
module Mapper {
  import opened Wrappers
  import opened Tables
  import opened Registry
  import opened Sums

  /** One row of the frame `apply_mappings` returns; the signed Amount is already dropped. */
  datatype MappedRow = MappedRow(date: Cell, payee: Cell, memo: Cell, inflow: nat, outflow: nat)

  datatype Flow = Flow(inflow: nat, outflow: nat)

  /** Comparing a text Amount cell with 0 raises TypeError, which ends the whole run. */
  datatype MapError = AmountNotComparable

  function Inflow(r: MappedRow): int { r.inflow }
  function Outflow(r: MappedRow): int { r.outflow }
  function NetFlow(r: MappedRow): int { r.inflow - r.outflow }

  /** The signed amount a cell stands for: its cents, or 0 for NaN, which is neither above nor below 0. */
  function SignedAmount(a: Cell): int {
    if a.Number? then a.cents else 0
  }

  /**
   * Lines 57-58 on one Amount cell: Inflow is the amount when it is above 0, Outflow its
   * negation when it is below 0, each 0 otherwise. The two together determine the flow:
   * one of them is 0 and their difference is the amount.
   */
  function SplitAmount(a: Cell): (r: Result<Flow, MapError>)
    ensures r.Err? <==> a.Text?
    ensures r.Ok? ==> r.value.inflow - r.value.outflow == SignedAmount(a)
    ensures r.Ok? ==> r.value.inflow == 0 || r.value.outflow == 0
  {
    match a
    case Number(c) => Ok(Flow(if c > 0 then c else 0, if c < 0 then -c else 0))
    case NaN => Ok(Flow(0, 0))
    case Text(_) => Err(AmountNotComparable)
  }

  /** `if source_col:` — `None` and the empty name both leave a field unmapped. */
  predicate IsMapped(source: Option<string>) {
    source.Some? && source.value != ""
  }

  /** Field `j` is copied from a column of `t`: it is mapped and its source column exists. */
  predicate Present(t: RawTable, m: ColumnMap, j: nat)
    requires IsComplete(m) && j < |Fields|
  {
    IsMapped(m[Fields[j]]) && m[Fields[j]].value in t.columns
  }

  /** Some field before position `k` is copied from a column of `t`. */
  predicate PresentBefore(t: RawTable, m: ColumnMap, k: nat)
    requires IsComplete(m) && k <= |Fields|
  {
    exists j :: 0 <= j < k && Present(t, m, j)
  }

  lemma PresentBeforeStep(t: RawTable, m: ColumnMap, k: nat)
    requires IsComplete(m) && k < |Fields|
    ensures PresentBefore(t, m, k + 1) <==> PresentBefore(t, m, k) || Present(t, m, k)
  {
    if PresentBefore(t, m, k + 1) && !Present(t, m, k) {
      var j :| 0 <= j < k + 1 && Present(t, m, j);
      assert j < k;
    }
  }

  /**
   * The height of the frame after the first `k` fields: a scalar assigned to a frame
   * without rows adds a column of no rows, and the first copied column gives the
   * frame its rows.
   */
  function HeightAfter(t: RawTable, m: ColumnMap, k: nat): (h: nat)
    requires IsComplete(m) && k <= |Fields|
    ensures h <= |t.rows|
  {
    if PresentBefore(t, m, k) then |t.rows| else 0
  }

  function Height(t: RawTable, m: ColumnMap): (h: nat)
    requires IsComplete(m)
    ensures h <= |t.rows|
  {
    HeightAfter(t, m, |Fields|)
  }

  /**
   * Row `i` of field `j` in the finished frame: the source cell when the field is
   * copied; "" when it is blank and the frame already had rows; NaN when it is blank
   * and was assigned before the frame had rows (pandas fills it in when a later
   * column gives the frame its rows).
   */
  function FieldCell(t: RawTable, m: ColumnMap, j: nat, i: nat): Cell
    requires IsComplete(m) && j < |Fields| && i < |t.rows|
  {
    if Present(t, m, j) then CellAt(t, i, m[Fields[j]].value)
    else if PresentBefore(t, m, j) then Text("")
    else NaN
  }

  function FieldColumn(t: RawTable, m: ColumnMap, j: nat, h: nat): (col: seq<Cell>)
    requires IsComplete(m) && j < |Fields| && h <= |t.rows|
    ensures |col| == h
  {
    seq(h, i requires 0 <= i < h => FieldCell(t, m, j, i))
  }

  /** The Amount column of the finished frame. */
  function AmountColumn(t: RawTable, m: ColumnMap): (col: seq<Cell>)
    requires IsComplete(m)
    ensures |col| == Height(t, m)
  {
    FieldColumn(t, m, 3, Height(t, m))
  }

  /** Some Amount cell of the frame is text, so the split raises. */
  predicate HasTextAmount(t: RawTable, m: ColumnMap)
    requires IsComplete(m)
  {
    exists i :: 0 <= i < Height(t, m) && AmountColumn(t, m)[i].Text?
  }

  /** Row `i` of the result, when its Amount cell is not text. */
  function NormalizedRow(t: RawTable, m: ColumnMap, i: nat): MappedRow
    requires IsComplete(m) && i < Height(t, m) && !AmountColumn(t, m)[i].Text?
  {
    var flow := SplitAmount(AmountColumn(t, m)[i]).value;
    MappedRow(FieldCell(t, m, 0, i), FieldCell(t, m, 1, i), FieldCell(t, m, 2, i), flow.inflow, flow.outflow)
  }

  /** What `apply_mappings(t, m)` returns, or the error it raises. */
  function Normalize(t: RawTable, m: ColumnMap): Result<seq<MappedRow>, MapError>
    requires IsComplete(m)
  {
    if HasTextAmount(t, m) then Err(AmountNotComparable)
    else Ok(seq(Height(t, m), i requires 0 <= i < Height(t, m) => NormalizedRow(t, m, i)))
  }

  /** The source columns warned about as missing, among the first `k` fields, in field order. */
  function MissingUpTo(t: RawTable, m: ColumnMap, k: nat): seq<string>
    requires IsComplete(m) && k <= |Fields|
  {
    if k == 0 then []
    else
      var source := m[Fields[k - 1]];
      MissingUpTo(t, m, k - 1) + if IsMapped(source) && source.value !in t.columns then [source.value] else []
  }

  function MissingColumns(t: RawTable, m: ColumnMap): seq<string>
    requires IsComplete(m)
  {
    MissingUpTo(t, m, |Fields|)
  }

  /** The column a copied field gets is its finished column. */
  lemma CopiedColumn(t: RawTable, m: ColumnMap, k: nat)
    requires IsComplete(m) && k < |Fields| && Present(t, m, k)
    ensures Column(t, m[Fields[k]].value) == FieldColumn(t, m, k, |t.rows|)
  {
  }

  /** The column a blank field gets is its finished column at the frame's current height. */
  lemma BlankColumn(t: RawTable, m: ColumnMap, k: nat)
    requires IsComplete(m) && k < |Fields| && !Present(t, m, k)
    ensures Repeat(Text(""), HeightAfter(t, m, k)) == FieldColumn(t, m, k, HeightAfter(t, m, k))
  {
  }

  /** Before the first copied field, every finished column is NaN. */
  lemma BackfilledColumn(t: RawTable, m: ColumnMap, k: nat, j: nat)
    requires IsComplete(m) && j < k <= |Fields| && !PresentBefore(t, m, k)
    ensures Repeat(NaN, |t.rows|) == FieldColumn(t, m, j, |t.rows|)
  {
    assert !Present(t, m, j);
  }

  /**
   * Lines 43-55 of `apply_mappings`: one pass over the four fields builds the frame
   * (`ynab_df`) column by column, warning about each mapped column the file lacks.
   */
  method BuildFrame(t: RawTable, m: ColumnMap) returns (frame: map<string, seq<Cell>>, height: nat, missing: seq<string>)
    requires IsComplete(m)
    ensures height == Height(t, m)
    ensures forall j :: 0 <= j < |Fields| ==> Fields[j] in frame && frame[Fields[j]] == FieldColumn(t, m, j, height)
    ensures missing == MissingColumns(t, m)
  {
    frame := map[];
    height := 0;
    missing := [];
    var k := 0;
    while k < |Fields|
      invariant 0 <= k <= |Fields|
      invariant height == HeightAfter(t, m, k)
      invariant forall j :: 0 <= j < k ==> Fields[j] in frame && frame[Fields[j]] == FieldColumn(t, m, j, height)
      invariant missing == MissingUpTo(t, m, k)
    {
      var field := Fields[k];
      var source := m[field];
      PresentBeforeStep(t, m, k);
      if IsMapped(source) && source.value in t.columns {
        var column := Column(t, source.value);
        CopiedColumn(t, m, k);
        if height == 0 && |column| > 0 {
          // The first column with rows gives the frame its index; the blank columns already there become NaN.
          forall j | 0 <= j < k
            ensures Repeat(NaN, |column|) == FieldColumn(t, m, j, |t.rows|)
          {
            BackfilledColumn(t, m, k, j);
          }
          frame := map c | c in frame :: Repeat(NaN, |column|);
          height := |column|;
        }
        frame := frame[field := column];
      } else {
        BlankColumn(t, m, k);
        if IsMapped(source) {
          missing := missing + [source.value];
        }
        frame := frame[field := Repeat(Text(""), height)];
      }
      k := k + 1;
    }
  }

  /**
   * `apply_mappings`: builds the frame, then (lines 57-59) splits each Amount cell into
   * Inflow and Outflow and leaves Amount out of the rows.
   */
  method ApplyMappings(t: RawTable, m: ColumnMap) returns (result: Result<seq<MappedRow>, MapError>, missing: seq<string>)
    requires IsComplete(m)
    ensures result == Normalize(t, m)
    ensures missing == MissingColumns(t, m)
  {
    var frame, height;
    frame, height, missing := BuildFrame(t, m);
    assert Fields[0] == DateField && Fields[1] == PayeeField && Fields[2] == MemoField && Fields[3] == AmountField;
    var dates, payees, memos, amounts := frame[DateField], frame[PayeeField], frame[MemoField], frame[AmountField];
    assert amounts == AmountColumn(t, m);
    var rows: seq<MappedRow> := [];
    var i := 0;
    while i < height
      invariant 0 <= i <= height
      invariant forall l :: 0 <= l < i ==> !amounts[l].Text?
      invariant |rows| == i
      invariant forall l :: 0 <= l < i ==> rows[l] == NormalizedRow(t, m, l)
    {
      var split := SplitAmount(amounts[i]);
      if split.Err? {
        assert HasTextAmount(t, m);
        result := Err(AmountNotComparable);
        return;
      }
      rows := rows + [MappedRow(dates[i], payees[i], memos[i], split.value.inflow, split.value.outflow)];
      i := i + 1;
    }
    assert !HasTextAmount(t, m);
    assert rows == seq(Height(t, m), l requires 0 <= l < Height(t, m) => NormalizedRow(t, m, l));
    result := Ok(rows);
  }

  /** Field `j` (Date, Payee or Memo) of a result row. */
  function FieldOf(r: MappedRow, j: nat): Cell
    requires j < 3
  {
    if j == 0 then r.date else if j == 1 then r.payee else r.memo
  }

  /**
   * The result has one row per file row when some mapped column exists in the file,
   * and no rows when none does; a file without rows gives no rows either way.
   */
  lemma NormalizeRowCount(t: RawTable, m: ColumnMap)
    requires IsComplete(m)
    ensures Normalize(t, m).Ok? ==>
              |Normalize(t, m).value| == if PresentBefore(t, m, |Fields|) then |t.rows| else 0
  {
  }

  /**
   * Each of Date, Payee and Memo is copied row for row from its source column when
   * that column exists; otherwise it is "" when a copied field precedes it, and NaN
   * when none does.
   */
  lemma NormalizeFields(t: RawTable, m: ColumnMap, j: nat)
    requires IsComplete(m) && j < 3 && Normalize(t, m).Ok?
    ensures var rs := Normalize(t, m).value;
      forall i :: 0 <= i < |rs| ==>
        && (Present(t, m, j) ==> FieldOf(rs[i], j) == CellAt(t, i, m[Fields[j]].value))
        && (!Present(t, m, j) && PresentBefore(t, m, j) ==> FieldOf(rs[i], j) == Text(""))
        && (!PresentBefore(t, m, j + 1) ==> FieldOf(rs[i], j) == NaN)
  {
    PresentBeforeStep(t, m, j);
  }

  /**
   * In both registry formats Date comes first: when the file has the Date column,
   * the row count is kept, Date is copied, Memo is "" in every row, and Payee is
   * copied when its column exists and "" when it does not.
   */
  lemma RegisteredFormatRows(fileType: string, t: RawTable)
    requires fileType in ColumnMappings
    requires ColumnMappings[fileType][DateField].value in t.columns
    ensures IsComplete(ColumnMappings[fileType])
    ensures var m := ColumnMappings[fileType];
      Normalize(t, m).Ok? ==>
        var rs := Normalize(t, m).value;
        && |rs| == |t.rows|
        && forall i :: 0 <= i < |rs| ==>
             && rs[i].date == CellAt(t, i, m[DateField].value)
             && rs[i].memo == Text("")
             && rs[i].payee == if m[PayeeField].value in t.columns then CellAt(t, i, m[PayeeField].value) else Text("")
  {
    RegistryEntriesComplete(fileType);
    var m := ColumnMappings[fileType];
    assert Fields[0] == DateField && Fields[1] == PayeeField && Fields[2] == MemoField;
    assert Present(t, m, 0);
    if Normalize(t, m).Ok? {
      NormalizeFields(t, m, 0);
      NormalizeFields(t, m, 1);
      NormalizeFields(t, m, 2);
    }
  }

  /**
   * When the file lacks its Date column, nothing precedes Date in the frame, so the
   * blank Date column is back-filled with NaN in every row.
   */
  lemma MissingDateColumnIsNaN(fileType: string, t: RawTable)
    requires fileType in ColumnMappings
    requires ColumnMappings[fileType][DateField].value !in t.columns
    requires Normalize(t, ColumnMappings[fileType]).Ok?
    ensures forall i :: 0 <= i < |Normalize(t, ColumnMappings[fileType]).value| ==>
              Normalize(t, ColumnMappings[fileType]).value[i].date == NaN
  {
    RegistryEntriesComplete(fileType);
    var m := ColumnMappings[fileType];
    assert Fields[0] == DateField;
    assert !Present(t, m, 0);
    PresentBeforeStep(t, m, 0);
    NormalizeFields(t, m, 0);
  }

  /**
   * The split of lines 57-58, row by row: the run fails exactly when some Amount cell
   * is text; otherwise Inflow is the amount when positive and Outflow its negation
   * when negative, each 0 otherwise (NaN gives two zeros).
   */
  lemma NormalizeSplitsSign(t: RawTable, m: ColumnMap)
    requires IsComplete(m)
    ensures Normalize(t, m).Err? <==> exists i :: 0 <= i < Height(t, m) && AmountColumn(t, m)[i].Text?
    ensures Normalize(t, m).Ok? ==>
      var rs := Normalize(t, m).value;
      forall i :: 0 <= i < |rs| ==>
        var a := AmountColumn(t, m)[i];
        && rs[i].inflow == (if a.Number? && a.cents > 0 then a.cents else 0)
        && rs[i].outflow == (if a.Number? && a.cents < 0 then -a.cents else 0)
  {
  }

  /** Conservation across the split: total Inflow minus total Outflow is the total signed Amount. */
  lemma NormalizeConserves(t: RawTable, m: ColumnMap)
    requires IsComplete(m) && Normalize(t, m).Ok?
    ensures var rs := Normalize(t, m).value;
      Sum(rs, Inflow) - Sum(rs, Outflow) == Sum(AmountColumn(t, m), SignedAmount)
  {
    var rs := Normalize(t, m).value;
    SumDifference(rs, Inflow, Outflow, NetFlow);
    SumPointwise(rs, AmountColumn(t, m), NetFlow, SignedAmount);
  }
}
