/**
 * The script's data path: read each upload in the chosen format, map it to the YNAB
 * columns, merge the results by date, and compute the dashboard figures and the rows
 * offered to the editor.
 */
module Pipeline {
  import opened Wrappers
  import opened Tables
  import opened Registry
  import opened Mapper
  import opened Merger
  import opened Aggregates
  import opened Export
  import opened Sums

  /**
   * An uploaded file: its name, and what the spreadsheet or CSV reader yields for it in
   * a given mode (None when the reader raises).
   */
  datatype Upload = Upload(name: string, read: ParseMode -> Option<RawTable>)

  /** The messages the page shows while processing uploads. */
  datatype Diagnostic =
    | UnsupportedFileType
    | ReadFailed(file: string)
    | ColumnNotFound(column: string)

  /** `parse_transaction_file`: the table read from `upload` in the format's mode, or the error shown. */
  function ParseTransactionFile(upload: Upload, fileType: string): (r: Result<RawTable, Diagnostic>)
    ensures fileType !in ColumnMappings ==> r == Err(UnsupportedFileType)
    ensures fileType in ColumnMappings ==>
      match upload.read(ParseModeFor(fileType).value)
      case None => r == Err(ReadFailed(upload.name))
      case Some(t) => r == Ok(t)
  {
    match ParseModeFor(fileType)
    case None => Err(UnsupportedFileType)
    case Some(mode) =>
      match upload.read(mode)
      case None => Err(ReadFailed(upload.name))
      case Some(t) => Ok(t)
  }

  function Warnings(missing: seq<string>): (ds: seq<Diagnostic>)
    ensures |ds| == |missing|
    ensures forall i :: 0 <= i < |ds| ==> ds[i] == ColumnNotFound(missing[i])
  {
    seq(|missing|, i requires 0 <= i < |missing| => ColumnNotFound(missing[i]))
  }

  /** What the upload loop has collected: the mapped tables in upload order, and the messages shown. */
  datatype Batch = Batch(tables: seq<seq<MappedRow>>, diagnostics: seq<Diagnostic>)

  /** The upload loop of lines 114-123 as a function of the uploads, or the error that aborts it. */
  function MapUploads(fileType: string, uploads: seq<Upload>): Result<Batch, MapError>
    decreases |uploads|
  {
    if uploads == [] then Ok(Batch([], []))
    else
      match MapUploads(fileType, uploads[..|uploads| - 1])
      case Err(e) => Err(e)
      case Ok(b) =>
        match ParseTransactionFile(uploads[|uploads| - 1], fileType)
        case Err(d) => Ok(Batch(b.tables, b.diagnostics + [d]))
        case Ok(t) =>
          RegistryEntriesComplete(fileType);
          var m := ColumnMappings[fileType];
          match Normalize(t, m)
          case Err(e) => Err(e)
          case Ok(rs) => Ok(Batch(b.tables + [rs], b.diagnostics + Warnings(MissingColumns(t, m))))
  }

  /** Once the loop has aborted, later uploads change nothing. */
  lemma {:induction false} MapUploadsAborts(fileType: string, uploads: seq<Upload>, i: nat)
    requires i <= |uploads| && MapUploads(fileType, uploads[..i]).Err?
    ensures MapUploads(fileType, uploads) == MapUploads(fileType, uploads[..i])
    decreases |uploads|
  {
    if i < |uploads| {
      var init := uploads[..|uploads| - 1];
      assert init[..i] == uploads[..i];
      MapUploadsAborts(fileType, init, i);
    } else {
      assert uploads[..i] == uploads;
    }
  }

  /** Lines 114-123: parse and map each upload in turn, collecting the tables. */
  method ProcessUploads(fileType: string, uploads: seq<Upload>) returns (result: Result<Batch, MapError>)
    ensures result == MapUploads(fileType, uploads)
  {
    var tables: seq<seq<MappedRow>> := [];
    var diagnostics: seq<Diagnostic> := [];
    for i := 0 to |uploads|
      invariant MapUploads(fileType, uploads[..i]) == Ok(Batch(tables, diagnostics))
    {
      assert uploads[..i + 1][..i] == uploads[..i];
      var parsed := ParseTransactionFile(uploads[i], fileType);
      match parsed
      case Err(d) =>
        diagnostics := diagnostics + [d];
      case Ok(t) =>
        RegistryEntriesComplete(fileType);
        var mapped, missing := ApplyMappings(t, ColumnMappings[fileType]);
        if mapped.Err? {
          MapUploadsAborts(fileType, uploads, i + 1);
          return Err(mapped.error);
        }
        tables := tables + [mapped.value];
        diagnostics := diagnostics + Warnings(missing);
    }
    assert uploads[..|uploads|] == uploads;
    return Ok(Batch(tables, diagnostics));
  }

  /** With an unsupported format every upload is refused and no table is collected. */
  lemma {:induction false} UnsupportedFormatYieldsNothing(fileType: string, uploads: seq<Upload>)
    requires fileType !in ColumnMappings
    ensures MapUploads(fileType, uploads).Ok?
    ensures MapUploads(fileType, uploads).value.tables == []
    ensures |MapUploads(fileType, uploads).value.diagnostics| == |uploads|
    ensures forall i :: 0 <= i < |uploads| ==> MapUploads(fileType, uploads).value.diagnostics[i] == UnsupportedFileType
    decreases |uploads|
  {
    if uploads != [] {
      UnsupportedFormatYieldsNothing(fileType, uploads[..|uploads| - 1]);
    }
  }

  /** The signed Amount cells of every upload that could be read, summed. */
  function SignedTotal(fileType: string, uploads: seq<Upload>): int
    decreases |uploads|
  {
    if uploads == [] then 0
    else
      SignedTotal(fileType, uploads[..|uploads| - 1]) +
        match ParseTransactionFile(uploads[|uploads| - 1], fileType)
        case Err(_) => 0
        case Ok(t) =>
          RegistryEntriesComplete(fileType);
          Sum(AmountColumn(t, ColumnMappings[fileType]), SignedAmount)
  }

  /** Across the collected tables, Inflow minus Outflow is the sum of the signed amounts read. */
  lemma {:induction false} BatchConserves(fileType: string, uploads: seq<Upload>)
    requires MapUploads(fileType, uploads).Ok?
    ensures var rows := Concat(MapUploads(fileType, uploads).value.tables);
      Sum(rows, Inflow) - Sum(rows, Outflow) == SignedTotal(fileType, uploads)
    decreases |uploads|
  {
    if uploads != [] {
      var init := uploads[..|uploads| - 1];
      BatchConserves(fileType, init);
      var b := MapUploads(fileType, init).value;
      match ParseTransactionFile(uploads[|uploads| - 1], fileType)
      case Err(_) =>
      case Ok(t) =>
        RegistryEntriesComplete(fileType);
        var m := ColumnMappings[fileType];
        var rs := Normalize(t, m).value;
        NormalizeConserves(t, m);
        ConcatAppend(b.tables, rs);
        SumConcat(Concat(b.tables), rs, Inflow);
        SumConcat(Concat(b.tables), rs, Outflow);
    }
  }

  /**
   * With a coercion that turns NaN into NaT, as `pd.to_datetime(errors='coerce')` does,
   * uploads that were read without their Date column leave no parseable date, so `Run`
   * stops at the date range whenever it collected a table.
   */
  lemma {:induction false} MissingDateColumnsLeaveNoDate(fileType: string, uploads: seq<Upload>, toDatetime: Cell -> Option<int>)
    requires fileType in ColumnMappings && toDatetime(NaN).None?
    requires forall i :: 0 <= i < |uploads| && ParseTransactionFile(uploads[i], fileType).Ok? ==>
               ColumnMappings[fileType][DateField].value !in ParseTransactionFile(uploads[i], fileType).value.columns
    requires MapUploads(fileType, uploads).Ok?
    ensures forall k :: 0 <= k < |Concat(MapUploads(fileType, uploads).value.tables)| ==>
              toDatetime(Concat(MapUploads(fileType, uploads).value.tables)[k].date).None?
    decreases |uploads|
  {
    if uploads != [] {
      var init := uploads[..|uploads| - 1];
      assert forall i :: 0 <= i < |init| ==> init[i] == uploads[i];
      MissingDateColumnsLeaveNoDate(fileType, init, toDatetime);
      var b := MapUploads(fileType, init).value;
      match ParseTransactionFile(uploads[|uploads| - 1], fileType)
      case Err(_) =>
      case Ok(t) =>
        var rs := Normalize(t, ColumnMappings[fileType]).value;
        MissingDateColumnIsNaN(fileType, t);
        ConcatAppend(b.tables, rs);
        var all := Concat(b.tables) + rs;
        forall k | 0 <= k < |all|
          ensures toDatetime(all[k].date).None?
        {
          if k >= |Concat(b.tables)| {
            assert all[k] == rs[k - |Concat(b.tables)|];
          }
        }
    }
  }

  /** `combined_df['Date'].min()`: the earliest parseable date, None when every date is NaT. */
  function EarliestDate(dataset: seq<Transaction>): (d: Option<int>)
    ensures d.None? <==> forall k :: 0 <= k < |dataset| ==> dataset[k].date.None?
    ensures d.Some? ==>
      && (exists k :: 0 <= k < |dataset| && dataset[k].date == d)
      && forall k :: 0 <= k < |dataset| && dataset[k].date.Some? ==> d.value <= dataset[k].date.value
    decreases |dataset|
  {
    if dataset == [] then None
    else
      var rest := EarliestDate(dataset[1..]);
      var first := dataset[0].date;
      assert forall k :: 1 <= k < |dataset| ==> dataset[1..][k - 1] == dataset[k];
      if first.None? then rest
      else if rest.None? || first.value <= rest.value then first
      else rest
  }

  /** `combined_df['Date'].max()`: the latest parseable date, None when every date is NaT. */
  function LatestDate(dataset: seq<Transaction>): (d: Option<int>)
    ensures d.None? <==> forall k :: 0 <= k < |dataset| ==> dataset[k].date.None?
    ensures d.Some? ==>
      && (exists k :: 0 <= k < |dataset| && dataset[k].date == d)
      && forall k :: 0 <= k < |dataset| && dataset[k].date.Some? ==> dataset[k].date.value <= d.value
    decreases |dataset|
  {
    if dataset == [] then None
    else
      var rest := LatestDate(dataset[1..]);
      var first := dataset[0].date;
      assert forall k :: 1 <= k < |dataset| ==> dataset[1..][k - 1] == dataset[k];
      if first.None? then rest
      else if rest.None? || first.value >= rest.value then first
      else rest
  }

  /** Why a run stops before the editor is shown. */
  datatype Failure =
    | MappingFailed(error: MapError)
    | DateRangeOfNaT

  /** What one run of the page produces from the uploads. */
  datatype Outcome =
    | Crashed(diagnostics: seq<Diagnostic>, failure: Failure)
    | NoTransactions(diagnostics: seq<Diagnostic>)
    | Processed(diagnostics: seq<Diagnostic>, dataset: seq<Transaction>, totals: Totals, average: real,
                topByCount: seq<Ranked>, topByAmount: seq<Ranked>, firstDate: int, lastDate: int,
                editorRows: seq<EditorRow>)

  /**
   * Lines 113-186: process the uploads; when some table was collected, merge, compute
   * the dashboard figures and the date range (which fails when no date parses), and
   * shape the rows for the editor. `toDatetime` stands for `pd.to_datetime(errors='coerce')`.
   */
  method Run(fileType: string, uploads: seq<Upload>, toDatetime: Cell -> Option<int>)
    returns (outcome: Outcome, ghost origin: seq<nat>)
    ensures MapUploads(fileType, uploads).Err? <==> outcome.Crashed? && outcome.failure.MappingFailed?
    ensures MapUploads(fileType, uploads).Err? ==> outcome.failure.error == MapUploads(fileType, uploads).error
    ensures outcome.NoTransactions? <==> MapUploads(fileType, uploads).Ok? && MapUploads(fileType, uploads).value.tables == []
    ensures !outcome.Crashed? || outcome.failure.DateRangeOfNaT? ==>
      outcome.diagnostics == MapUploads(fileType, uploads).value.diagnostics
    ensures outcome.Crashed? && outcome.failure.DateRangeOfNaT? <==>
      && MapUploads(fileType, uploads).Ok?
      && MapUploads(fileType, uploads).value.tables != []
      && forall k :: 0 <= k < |Concat(MapUploads(fileType, uploads).value.tables)| ==>
           toDatetime(Concat(MapUploads(fileType, uploads).value.tables)[k].date).None?
    ensures outcome.Processed? ==>
      var rows := Concat(MapUploads(fileType, uploads).value.tables);
      var ds := outcome.dataset;
      && MergeOf(rows, toDatetime, ds, origin)
      && outcome.totals == CalculateKpis(ds)
      && outcome.totals.inflow - outcome.totals.outflow == SignedTotal(fileType, uploads)
      && outcome.average == AverageOutflow(ds)
      && outcome.topByCount == TopPayeesCount(ds)
      && outcome.topByAmount == TopPayeesAmount(ds)
      && Some(outcome.firstDate) == EarliestDate(ds)
      && Some(outcome.lastDate) == LatestDate(ds)
      && outcome.firstDate <= outcome.lastDate
      && outcome.editorRows == ShapeForEditor(ds)
  {
    origin := [];
    var batch := ProcessUploads(fileType, uploads);
    if batch.Err? {
      return Crashed([], MappingFailed(batch.error)), origin;
    }
    var b := batch.value;
    if b.tables == [] {
      return NoTransactions(b.diagnostics), origin;
    }
    var dataset;
    dataset, origin := MergeTables(b.tables, toDatetime);
    var totals := CalculateKpis(dataset);
    BatchConserves(fileType, uploads);
    var first := EarliestDate(dataset);
    var last := LatestDate(dataset);
    MergeOfAllNaT(Concat(b.tables), toDatetime, dataset, origin);
    if first.None? {
      return Crashed(b.diagnostics, DateRangeOfNaT), origin;
    }
    outcome := Processed(b.diagnostics, dataset, totals, AverageOutflow(dataset),
                         TopPayeesCount(dataset), TopPayeesAmount(dataset), first.value, last.value,
                         ShapeForEditor(dataset));
  }
}
