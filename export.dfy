/**
 * Shaping the merged dataset for the editor and the exported file: zero amounts shown
 * blank and the rest with two decimals, rows marked "Remove" dropped, and the number of
 * exported rows written into the file name.
 */
module Export {
  import opened Wrappers
  import opened Tables
  import opened Decimal
  import opened Merger

  /** `"" if x == 0 else f"{x:.2f}"` for a non-negative amount held in cents. */
  function FormatAmount(cents: nat): (s: string)
    ensures s == "" <==> cents == 0
    ensures cents > 0 ==> |s| >= 4 && s[|s| - 3] == '.' && AllDigits(s[..|s| - 3]) && AllDigits(s[|s| - 2..])
  {
    if cents == 0 then ""
    else NatToString(cents / 100) + "." + [DigitChar(cents % 100 / 10), DigitChar(cents % 10)]
  }

  /** Reads an amount cell of the editor back into cents: "" is 0, otherwise `<digits>.<two digits>`. */
  function ParseAmount(s: string): Option<nat> {
    if s == "" then Some(0)
    else if |s| >= 4 && s[|s| - 3] == '.' && AllDigits(s[..|s| - 3]) && AllDigits(s[|s| - 2..]) then
      Some(ParseNat(s[..|s| - 3]) * 100 + DigitValue(s[|s| - 2]) * 10 + DigitValue(s[|s| - 1]))
    else None
  }

  /** A non-zero rendered amount is the whole units, a point, then the tens and units of cents. */
  lemma FormatAmountParts(cents: nat)
    requires cents > 0
    ensures var s := FormatAmount(cents);
      && s[..|s| - 3] == NatToString(cents / 100)
      && s[|s| - 3] == '.'
      && s[|s| - 2] == DigitChar(cents % 100 / 10)
      && s[|s| - 1] == DigitChar(cents % 10)
  {
    var whole := NatToString(cents / 100);
    assert FormatAmount(cents) == whole + ['.', DigitChar(cents % 100 / 10), DigitChar(cents % 10)];
  }

  /** The rendered amount reads back as the amount it came from, so no cent is lost. */
  lemma FormatAmountRoundTrip(cents: nat)
    ensures ParseAmount(FormatAmount(cents)) == Some(cents)
  {
    if cents > 0 {
      FormatAmountParts(cents);
      ParseNatToString(cents / 100);
    }
  }

  /** A row as the editor shows it: amounts as text, and the "Remove" check box. */
  datatype EditorRow = EditorRow(index: nat, date: Option<int>, payee: Cell, memo: Cell,
                                 inflow: string, outflow: string, remove: bool)

  /** A row of the exported file: the editor row without "Remove" and without the index. */
  datatype ExportRow = ExportRow(date: Option<int>, payee: Cell, memo: Cell, inflow: string, outflow: string)

  /** Adds `Remove = False` and renders both amounts of one row of the dataset. */
  function EditorRowOf(t: Transaction): EditorRow {
    EditorRow(t.index, t.date, t.payee, t.memo, FormatAmount(t.inflow), FormatAmount(t.outflow), false)
  }

  /** Lines 182-186 applied to the whole dataset. */
  function ShapeForEditor(dataset: seq<Transaction>): (rows: seq<EditorRow>)
    ensures |rows| == |dataset|
    ensures forall k :: 0 <= k < |rows| ==> rows[k] == EditorRowOf(dataset[k])
  {
    seq(|dataset|, k requires 0 <= k < |dataset| => EditorRowOf(dataset[k]))
  }

  /**
   * Every row offered to the editor is unchecked, keeps its index, date, payee and memo,
   * shows a zero amount as "" and any other amount as digits with two decimals that
   * read back as that amount.
   */
  lemma ShapeForEditorSpec(dataset: seq<Transaction>)
    ensures var rows := ShapeForEditor(dataset);
      && |rows| == |dataset|
      && forall k :: 0 <= k < |rows| ==>
           && !rows[k].remove
           && rows[k].index == dataset[k].index && rows[k].date == dataset[k].date
           && rows[k].payee == dataset[k].payee && rows[k].memo == dataset[k].memo
           && (rows[k].inflow == "" <==> dataset[k].inflow == 0)
           && (rows[k].outflow == "" <==> dataset[k].outflow == 0)
           && ParseAmount(rows[k].inflow) == Some(dataset[k].inflow)
           && ParseAmount(rows[k].outflow) == Some(dataset[k].outflow)
  {
    var rows := ShapeForEditor(dataset);
    forall k | 0 <= k < |rows|
      ensures ParseAmount(rows[k].inflow) == Some(dataset[k].inflow)
      ensures ParseAmount(rows[k].outflow) == Some(dataset[k].outflow)
    {
      FormatAmountRoundTrip(dataset[k].inflow);
      FormatAmountRoundTrip(dataset[k].outflow);
    }
  }

  function Strip(e: EditorRow): ExportRow {
    ExportRow(e.date, e.payee, e.memo, e.inflow, e.outflow)
  }

  /** `edited_df[edited_df['Remove'] == False].drop(columns=['Remove'])`. */
  function FinalRows(edited: seq<EditorRow>): seq<ExportRow>
    decreases |edited|
  {
    if edited == [] then []
    else
      var earlier := FinalRows(edited[..|edited| - 1]);
      var last := edited[|edited| - 1];
      if last.remove then earlier else earlier + [Strip(last)]
  }

  /** The positions of the editor rows whose "Remove" box is not checked, in order. */
  function KeptPositions(edited: seq<EditorRow>): (ks: seq<nat>)
    ensures forall j :: 0 <= j < |ks| ==> ks[j] < |edited|
    decreases |edited|
  {
    if edited == [] then []
    else
      var earlier := KeptPositions(edited[..|edited| - 1]);
      if edited[|edited| - 1].remove then earlier else earlier + [|edited| - 1]
  }

  /** The kept positions are increasing and point at unchecked rows. */
  lemma {:induction false} KeptPositionsIncreasing(edited: seq<EditorRow>)
    ensures var ks := KeptPositions(edited);
      && (forall i, j :: 0 <= i < j < |ks| ==> ks[i] < ks[j])
      && (forall j :: 0 <= j < |ks| ==> !edited[ks[j]].remove)
    decreases |edited|
  {
    if edited != [] {
      var init := edited[..|edited| - 1];
      KeptPositionsIncreasing(init);
      var ks0 := KeptPositions(init);
      assert forall j :: 0 <= j < |ks0| ==> KeptPositions(init)[j] == ks0[j] && init[ks0[j]] == edited[ks0[j]];
      assert KeptPositions(edited) == if edited[|edited| - 1].remove then ks0 else ks0 + [|edited| - 1];
    }
  }

  /** The `j`-th exported row is the editor row at the `j`-th kept position, stripped. */
  lemma {:induction false} FinalRowsAtKept(edited: seq<EditorRow>)
    ensures var ks := KeptPositions(edited);
      && |FinalRows(edited)| == |ks|
      && (forall j :: 0 <= j < |ks| ==> FinalRows(edited)[j] == Strip(edited[ks[j]]))
    decreases |edited|
  {
    if edited != [] {
      var init := edited[..|edited| - 1];
      FinalRowsAtKept(init);
      var ks0 := KeptPositions(init);
      assert forall j :: 0 <= j < |ks0| ==> init[ks0[j]] == edited[ks0[j]];
    }
  }

  /**
   * The exported rows are the unchecked editor rows, each stripped of its "Remove"
   * box, in their original relative order.
   */
  lemma FinalRowsInOrder(edited: seq<EditorRow>)
    ensures var ks := KeptPositions(edited);
      && |FinalRows(edited)| == |ks|
      && (forall i, j :: 0 <= i < j < |ks| ==> ks[i] < ks[j])
      && (forall j :: 0 <= j < |ks| ==> !edited[ks[j]].remove && FinalRows(edited)[j] == Strip(edited[ks[j]]))
  {
    KeptPositionsIncreasing(edited);
    FinalRowsAtKept(edited);
  }

  /** No unchecked editor row is left out of the export. */
  lemma {:induction false} FinalRowsComplete(edited: seq<EditorRow>)
    ensures forall k :: 0 <= k < |edited| && !edited[k].remove ==> k in KeptPositions(edited)
    decreases |edited|
  {
    if edited != [] {
      var init := edited[..|edited| - 1];
      FinalRowsComplete(init);
      assert forall k :: 0 <= k < |init| ==> init[k] == edited[k];
    }
  }

  /** `f"ynab_import_{transaction_count}_{timestamp}.csv"`; the timestamp is a parameter. */
  function ExportFileName(count: nat, timestamp: string): string {
    "ynab_import_" + NatToString(count) + "_" + timestamp + ".csv"
  }

  /** Reads the row count back out of an export file name, when it has the export's prefix. */
  function CountInFileName(name: string): Option<nat> {
    var prefix := "ynab_import_";
    if |name| >= |prefix| && name[..|prefix|] == prefix then
      var digits := LeadingDigits(name[|prefix|..]);
      if digits == [] then None else Some(ParseNat(digits))
    else None
  }

  /** The count written into the file name is the one read back from it, for any timestamp. */
  lemma ExportFileNameCount(count: nat, timestamp: string)
    ensures CountInFileName(ExportFileName(count, timestamp)) == Some(count)
  {
    var prefix := "ynab_import_";
    var name := ExportFileName(count, timestamp);
    var digits := NatToString(count);
    var rest := "_" + timestamp + ".csv";
    assert name == prefix + (digits + rest);
    assert name[..|prefix|] == prefix;
    assert name[|prefix|..] == digits + rest;
    LeadingDigitsOf(digits, rest);
    ParseNatToString(count);
  }

  /** The file name of an export of the editor's rows. */
  function ExportName(edited: seq<EditorRow>, timestamp: string): string {
    ExportFileName(|FinalRows(edited)|, timestamp)
  }

  /** The count in the file name is the number of unchecked editor rows, which are the exported rows. */
  lemma ExportNameCountsRows(edited: seq<EditorRow>, timestamp: string)
    ensures CountInFileName(ExportName(edited, timestamp)) == Some(|KeptPositions(edited)|)
    ensures |KeptPositions(edited)| == |FinalRows(edited)|
  {
    FinalRowsInOrder(edited);
    ExportFileNameCount(|FinalRows(edited)|, timestamp);
  }
}
