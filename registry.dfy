/**
 * The fixed table of supported export formats: for each format name, which
 * source column feeds each field of the import schema, and how the file is read.
 */
module Registry {
  import opened Wrappers

  const DateField := "Date"
  const PayeeField := "Payee"
  const MemoField := "Memo"
  const AmountField := "Amount"

  /** The mapped fields, in the order every registry entry lists them. */
  const Fields: seq<string> := [DateField, PayeeField, MemoField, AmountField]

  /** Field name to source column; `None` leaves the field blank by design. */
  type ColumnMap = map<string, Option<string>>

  /** A column map names a source (or `None`) for exactly the four fields. */
  predicate IsComplete(m: ColumnMap) {
    m.Keys == {DateField, PayeeField, MemoField, AmountField}
  }

  const SwedbankCsv := "Swedbank (csv)"
  const CoopMastercard := "Coop Mastercard (xls & xlsx)"

  const ColumnMappings: map<string, ColumnMap> := map[
    SwedbankCsv := map[
      DateField := Some("Transaktionsdag"),
      PayeeField := Some("Beskrivning"),
      MemoField := None,
      AmountField := Some("Belopp")],
    CoopMastercard := map[
      DateField := Some("Datum"),
      PayeeField := Some("Detaljer"),
      MemoField := None,
      AmountField := Some("Fakturabelopp")]]

  /** Every registered format maps all four fields, leaves Memo blank and maps the other three. */
  lemma RegistryEntriesComplete(fileType: string)
    requires fileType in ColumnMappings
    ensures IsComplete(ColumnMappings[fileType])
    ensures ColumnMappings[fileType][MemoField] == None
    ensures forall f :: f in {DateField, PayeeField, AmountField} ==>
              ColumnMappings[fileType][f].Some? && ColumnMappings[fileType][f].value != ""
  {
  }

  /** How a file of a format is read: delimited text in an encoding, or a spreadsheet; both skip leading rows. */
  datatype ParseMode =
    | DelimitedText(encoding: string, skipRows: nat)
    | Spreadsheet(skipRows: nat)

  /** The reader a format name selects; `None` for a name the converter does not support. */
  function ParseModeFor(fileType: string): (r: Option<ParseMode>)
    ensures r.Some? <==> fileType in ColumnMappings
    ensures fileType == SwedbankCsv ==> r == Some(DelimitedText("windows-1252", 1))
    ensures fileType == CoopMastercard ==> r == Some(Spreadsheet(2))
  {
    if fileType == SwedbankCsv then Some(DelimitedText("windows-1252", 1))
    else if fileType == CoopMastercard then Some(Spreadsheet(2))
    else None
  }
}
