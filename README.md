# YNAB Converter, modelled in Dafny

The YNAB Converter is a one-page Streamlit tool. It reads bank exports and turns them into the five-column import format of the budgeting tool YNAB: Date, Payee, Memo, Inflow and Outflow. Two formats are supported: "Swedbank (csv)" and "Coop Mastercard (xls & xlsx)".

For each uploaded file the tool:
- picks a reader for the chosen format;
- copies the mapped columns;
- splits the signed Amount into non-negative Inflow and Outflow.

It then:
- concatenates the files in upload order;
- coerces the dates and sorts by date, with unparseable dates (NaT) last;
- renumbers the rows from 1;
- shows totals, the mean outflow and two top-five payee rankings;
- offers the rows in an editor, with zero amounts blank and the rest to two decimals;
- exports the rows not marked "Remove" under a file name that carries their count.

This project models that data path. It does not model the page.

Modules, one file each:

- **`Wrappers`**: Option and Result.
- **`Tables`**: cells (text, number or NaN) and the parsed file as a set of columns with rows.
- **`Sums`**: sums over sequences, with lemmas for concatenation, pointwise equality and permutation.
- **`Decimal`**: decimal digits and the string of a natural number, with its reader.
- **`Registry`**: `COLUMN_MAPPINGS` and the reader each format selects.
- **`Mapper`**: `apply_mappings`, as a method with loops, proved equal to a specification function.
- **`Merger`**: concatenation, the date sort (an insertion sort with loop invariants) and renumbering.
- **`Aggregates`**: the KPI totals, the mean outflow and the two rankings, as functions with lemmas.
- **`Export`**: zero-blank two-decimal amounts, the Remove filter and the export file name.
- **`Pipeline`**: `parse_transaction_file`, the upload loop and the whole run up to the editor.

Modelling conventions:

- **Amounts** are integer cents. Rounding to two decimals is then the identity.
- **Dates** after coercion are `Option<int>`, where `None` is NaT. The coercion itself, `pd.to_datetime(errors='coerce')`, is a parameter `toDatetime: Cell -> Option<int>`.
- **Reading a file** in a mode is a parameter of each upload, `read: ParseMode -> Option<RawTable>`. `None` stands for a reader that raises.
- **The export timestamp** is a string parameter.

### What the code does on its edge cases (the model follows the code)

- **A text Amount aborts the run.** Line 57 evaluates `x > 0` on each Amount cell, which raises `TypeError` in Python 3 for a string. This includes the `""` that a missing Amount column receives. The exception is not caught, so the run stops. The model returns `Err(AmountNotComparable)`, and `Pipeline.Run` returns `Crashed`.
- **Blank columns assigned first become NaN.** `apply_mappings` builds its frame one column at a time, starting from an empty frame:
  - While the frame has no rows, `ynab_df[col] = ""` adds a column of no rows.
  - The first copied column then gives the frame its rows, and the blank columns already there become NaN.
  - If no mapped column exists in the file, the result has no rows.

  The model follows this (`Mapper.FieldCell`, `Mapper.Height`). In both registered formats Date is mapped first, so whenever the file has its Date column, every row is kept and a blank field is `""` (`Mapper.RegisteredFormatRows`).
- **Unparseable dates sort last.** They become NaT and go to the end of the sort, since `na_position='last'` is pandas' default.
- **A missing date range stops the run.** When every date is NaT, or the collected tables have no rows at all (a file that is only a header, or one with none of the mapped columns), the date-range metric on line 175 calls `strftime` on NaT. That raises, so the page stops before the editor. `Pipeline.Run` returns `Crashed(…, DateRangeOfNaT)` exactly in that case. When the coercion turns NaN into NaT, as pandas' does, files read without their Date column lead there (`Pipeline.MissingDateColumnsLeaveNoDate`).

## Model

| member | source | states |
|---|---|---|
| Registry.RegistryEntriesComplete | YNAB.py:10-23 | every registered format maps exactly Date, Payee, Memo and Amount; Memo is `None`; the other three name a source column |
| Registry.ParseModeFor | YNAB.py:25-35 | a format name selects a reader exactly when it is registered; Swedbank selects windows-1252 text skipping 1 row, Coop a spreadsheet skipping 2 rows |
| Pipeline.ParseTransactionFile | YNAB.py:25-39 | an unregistered format gives "Unsupported file type"; otherwise the table read in the format's mode, or a read error naming the file when the reader raises |
| Mapper.SplitAmount | YNAB.py:57-58 | a text cell fails; otherwise Inflow − Outflow is the signed amount and at least one of them is 0 |
| Mapper.BuildFrame | YNAB.py:43-54 | the loop over the four fields builds each column as copied, `""` or NaN-back-filled, gets the frame's height, and collects the missing source columns in field order |
| Mapper.ApplyMappings | YNAB.py:41-60 | the method (frame loop, then split loop) returns exactly `Normalize`, or its error, and the warned-about columns |
| Mapper.NormalizeRowCount | YNAB.py:43-54 | the result has one row per file row when some mapped column exists, else no rows |
| Mapper.NormalizeFields | YNAB.py:45-54 | a field whose column exists is copied row for row; an unmapped or missing one is `""` in every row, or NaN when no copied field precedes it |
| Mapper.RegisteredFormatRows | YNAB.py:45-54 | for a registered format with its Date column present: row count kept, Date copied, Memo `""`, Payee copied or `""` |
| Mapper.MissingDateColumnIsNaN | YNAB.py:44-51 | for a registered format whose Date column is missing from the file, every mapped row's Date is NaN |
| Mapper.NormalizeSplitsSign | YNAB.py:57-58 | the run fails iff some Amount cell is text; otherwise per row Inflow is the positive amount or 0 and Outflow the negated negative amount or 0 |
| Mapper.NormalizeConserves | YNAB.py:57-59 | total Inflow minus total Outflow equals the total signed Amount |
| Merger.ConcatAppend | YNAB.py:127 | concatenating one more table appends its rows after the earlier ones |
| Merger.SortByDate | YNAB.py:130-133 | the sorted rows are a permutation of the labelled concatenation, strictly ordered by (date with NaT last, position) |
| Merger.SortedDataset | YNAB.py:133-137 | each renumbered row is the concatenated row at its own position; no position is used twice or left out |
| Merger.DatasetSums | YNAB.py:127-137 | the merged table has the concatenation's Inflow and Outflow totals |
| Merger.MergeTables | YNAB.py:127-137 | `MergeOf`: a bijection back to the concatenation, rows renumbered from 1, parseable dates non-decreasing with NaT after them, equal dates keep upload order; totals kept |
| Merger.MergeOfAllNaT | YNAB.py:130-133 | a merged table has no parseable date exactly when no concatenated row's date parses |
| Aggregates.CalculateKpis | YNAB.py:62-67 | total Inflow and total Outflow, both non-negative |
| Aggregates.OutflowRows | YNAB.py:71 | the filtered rows all have Outflow > 0 and are rows of the table, and every such row is kept |
| Aggregates.OutflowRowsMultiplicity | YNAB.py:71 | each row with Outflow > 0 is kept as many times as the table has it, and no other row is kept |
| Aggregates.OutflowRowsConcat | YNAB.py:71 | filtering two parts one after the other is filtering the whole, so the filter keeps the table's order |
| Aggregates.AverageOutflowBounds | YNAB.py:82-85 | 0 when no row has a positive Outflow; otherwise between the smallest and the largest positive Outflow |
| Aggregates.Payees | YNAB.py:72 | the distinct non-NaN payees of the rows, each once |
| Aggregates.CountTally | YNAB.py:72 | one line per distinct non-NaN payee of the rows and no other, each with its number of rows, in order of first appearance |
| Aggregates.AmountTally | YNAB.py:76 | one line per distinct non-NaN payee of the rows and no other, each with its summed Outflow, in order of first appearance |
| Aggregates.SortDescending | YNAB.py:76 | a permutation of the tally in non-increasing order of value |
| Aggregates.TopFiveSelects | YNAB.py:72 | `head(5)` of the sorted tally: min(5, n) lines, non-increasing, distinct, taken from the tally, and no unlisted line has a larger value than the fifth |
| Aggregates.RankingOfTally | YNAB.py:69-80 | what both rankings share: at most five payees, ordered, each with a positive-Outflow row, and an unlisted such payee ranks no higher than the fifth |
| Aggregates.TopPayeesCountSpec | YNAB.py:69-72 | at most 5 payees, each once, in non-increasing count; each has a positive-Outflow row and is listed with its count of them; an unlisted such payee has a count no larger than the fifth |
| Aggregates.TopPayeesAmountSpec | YNAB.py:74-80 | the same for the summed Outflow of each payee's positive-Outflow rows |
| Export.FormatAmount | YNAB.py:185-186 | `""` exactly for 0; otherwise digits, a point and two digits |
| Export.FormatAmountRoundTrip | YNAB.py:185-186 | reading the rendered amount back gives the amount in cents |
| Export.ShapeForEditorSpec | YNAB.py:182-186 | every editor row is unchecked, keeps index, date, payee and memo, and shows both amounts blank iff 0 and readable back exactly |
| Export.FinalRowsInOrder | YNAB.py:206 | the exported rows are the unchecked editor rows without "Remove", in their original relative order |
| Export.FinalRowsComplete | YNAB.py:206 | every unchecked editor row is exported |
| Export.ExportFileNameCount | YNAB.py:212-214 | the count read back from `ynab_import_<count>_<timestamp>.csv` is the count, whatever the timestamp |
| Export.ExportNameCountsRows | YNAB.py:206-214 | the count in the export's file name is the number of unchecked rows, which is the number of exported rows |
| Pipeline.MapUploadsAborts | YNAB.py:114-123 | once a file's mapping fails, later uploads change nothing |
| Pipeline.ProcessUploads | YNAB.py:114-123 | the upload loop returns exactly `MapUploads`: the mapped tables in upload order with the messages shown, or the error that stops it |
| Pipeline.UnsupportedFormatYieldsNothing | YNAB.py:25-35 | with an unregistered format, each upload gives one "Unsupported file type" message and no table is collected |
| Pipeline.BatchConserves | YNAB.py:114-123 | across the collected tables, Inflow minus Outflow is the sum of the signed Amount cells of every file read |
| Pipeline.MissingDateColumnsLeaveNoDate | YNAB.py:44-51 | when NaN coerces to NaT and every file read lacks its Date column, no collected row has a parseable date |
| Pipeline.EarliestDate | YNAB.py:175 | None iff every date is NaT; otherwise a date of some row and no later than any parseable date |
| Pipeline.LatestDate | YNAB.py:175 | None iff every date is NaT; otherwise a date of some row and no earlier than any parseable date |
| Pipeline.Run | YNAB.py:113-186 | a failed mapping crashes; no table gives nothing; it crashes at the date range exactly when tables were collected and no concatenated date parses; otherwise the dataset is `MergeOf` the concatenated rows (bijection, date order with NaT last, stability), total Inflow − Outflow equals the signed amounts read, the figures are those of the merged rows, first ≤ last date, and the editor rows are the shaped dataset |

## Left out

- The Streamlit page (YNAB.py:88-224 apart from the data logic above) is display and I/O: page setup, format select box, uploader, metrics, `st.write` of the rankings, `data_editor`, CSV download. The user's edits are an input of `Export.FinalRows`.
- The "Processing …" lines written for each upload are display only. They are not among the modelled messages.
- `pd.read_csv(encoding="windows-1252", skiprows=1)` and `pd.read_excel(skiprows=2)` are foreign parsers. Each upload carries what its reader yields in a mode, so only the dispatch and the error handling are modelled.
- `pd.to_datetime(errors='coerce')` is a per-cell parameter. pandas infers a format for the whole column, and that inference is not modelled.
- `strftime` and `to_csv`: exported dates stay `Option<int>` and the CSV text is not produced.
- `datetime.now()` is nondeterministic, so the timestamp in the file name is a parameter.
- Floating point is not modelled: amounts are integer cents and the mean is an exact rational. Binary rounding and the thousands-separated rendering of the metrics are left out.
- Aggregates.TopPayeesCountSpec: pandas does not fix the order of payees with equal counts. The model takes the first appearance among positive-Outflow rows as a chosen tie-break.
- Aggregates.TopPayeesAmountSpec: the same chosen tie-break for equal sums, since `sort_values` is not stable.
- Merger.MergeTables: pandas' default sort is not stable. Keeping upload order among equal dates is a guarantee the model adds.
- Pipeline.Run: on a mapping failure it returns no messages. The page had already shown the messages for the earlier files.
- An Amount cell that a reader returns as text, such as a Swedish "1 234,56" left unconverted, is a text cell. It fails like any text amount, and the conversion a reader might do is not modelled.
