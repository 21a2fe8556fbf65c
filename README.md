# CFDI 4.0 batch extraction and reconciliation, modelled in Dafny

This project models the data logic of a Streamlit tool for Mexican CFDI 4.0
electronic invoices. The tool reads ZIP archives of received (*Recibidos*)
and issued (*Emitidos*) invoices, turns each parsed XML document into one
flat record, and merges new batches into a session dataset. The merge keeps
the dataset free of repeated fiscal-stamp UUIDs. The user can audit and
remove duplicates, flag rows as deductible or selected, and view one
period (`YYYY-MM`) at a time with column totals. The data can be exported
to workbooks with one sheet per period, or per period and deductibility.

The modules follow the program's structure:

- `frames.dfy` (`Frames`): a table (`Frame`) is a set of column names plus a sequence of rows. A row maps column names to cells: text, an exact number, a boolean, or `Missing` (pandas' NaN).
- `amounts.dfy` (`Amounts`): decimal amounts (an optional '+' or '-' sign, digits, an optional point and more digits, at least one digit in all) are parsed to exact reals.
- `catalogs.dfy` (`Catalogs`): the payment-form and CFDI-use tables, and the `code-label` rendering. The payment-form table is kept twice: as the program writes it, with the key "8", which the extractor uses; and with the catalogue key "08", which `Extraction.CorrectedRecordOf` uses (see "## Findings").
- `extraction.dfy` (`Extraction`): a parsed document becomes a record. It includes the tax aggregation: the transferred total with its fallback, the withheld total, the tax names and the VAT-16% amount.
- `archive.dfy` (`Archive`): batch processing of an archive's members.
- `dedup.dfy` (`Dedup`): the batch filter by UUID, the append-after-filter merge, keep-first deduplication, the duplicate audit and removal of the selected rows.
- `periods.dfy` (`Periods`): the period key, the sorted period list, the default period, the period view and the True/False flag splits.
- `summary.dfy` (`Summary`): column sums that skip cells which do not convert to a number.
- `workbook.dfy` (`Workbook`): column letters, number cleaning, sheet-name truncation, and the sheets of the two workbook exports.
- `session.dfy` (`Session`): the session state as a class, `AppState`. Its methods handle uploads, "Aplicar cambios" flag edits, the stored period views and checkpoint loading. It also holds the export-scope choice.

Procedures that work step by step are Dafny methods.

- `procesar_zip`'s member loop, its tax loops and the field-by-field record are methods proved equal to pure specification functions. The lemmas are stated about those functions.
- The same applies to `mostrar_sumatorias` and `colnum_to_excel`.
- The session's in-place updates are methods of `AppState`, each specified by the new state it produces.

The rest of the code consists of pandas expression pipelines, which are functions.

The model follows the code as written, including these behaviours of it:

- **Empty UUIDs.** `filtrar_duplicados_por_uuid` compares UUIDs by plain equality (funciones_utiles.py:42-46). A CFDI without a stamp, whose UUID is empty, is therefore dropped only when an empty UUID is already stored. Stamp-less CFDIs arriving in one upload are all kept, like any rows of one batch that share a UUID (`Dedup.MergeKeepsBatchRepeats`). When the stored dataset has no UUID column the filter passes the batch unchanged (`Dedup.FilterNew`).
- **Repeats inside one batch.** The upload filter drops only rows whose UUID is already stored. Two rows of one batch that share a fresh UUID are both appended, so an upload can introduce a repeated UUID (`Dedup.MergeKeepsBatchRepeats`). A merge keeps the dataset free of repeats only when the batch itself has none (`Dedup.MergeKeepsUnique`).
- **Non-text dates.** A row whose date is not text gets the empty period, and the period list keeps that empty period (main.py:77-78).
- **"Tabla Actual" export.** The stored Emitidos view is initialised to an empty table when the session starts (main.py:18-19). So the "Tabla Actual" export never falls back to the whole dataset (`Session.FreshSessionExportsEmptyView`).
- **Payment form "08".** The extractor renders the payment form through the table as written, so "8" gets the "Vales de Despensa" label and the catalogue code "08" stays bare (`Extraction.PaymentFormAsWritten`).

## Model

| member | source | states |
|---|---|---|
| Frames.UuidsOf | funciones_utiles.py:45 | every row's UUID is among the dataset's UUIDs |
| Frames.UuidsOfMember | funciones_utiles.py:45 | every UUID in the set is the UUID of some row |
| Frames.UuidsOfConcat | recibidos.py:27 | the UUIDs of a concatenation are the union of both parts' UUIDs |
| Frames.Without | funciones_utiles.py:46 | `~isin`: an ordered selection of the rows, holding exactly those whose UUID is not dropped |
| Frames.Keeping | funciones_utiles.py:68 | `isin`: an ordered selection holding exactly the rows whose UUID is kept |
| Frames.WithoutCounts | funciones_utiles.py:46 | `~isin` keeps each row's multiplicity when its UUID is not dropped, and drops every copy otherwise |
| Frames.KeepingWithoutSplit | funciones_utiles.py:68 | `isin` and `~isin` split the rows: their multisets add up to the input |
| Frames.KeepingCounts | funciones_utiles.py:68 | `isin` keeps every copy of a row whose UUID is kept and no copy of any other |
| Frames.WithoutAll | funciones_utiles.py:46 | when every UUID of the rows is dropped, nothing remains |
| Frames.UuidsOfWithout | funciones_utiles.py:95 | after dropping, the UUIDs left are the old ones minus the dropped ones |
| Frames.Append | recibidos.py:27 | `pd.concat(ignore_index=True)`: the first table's rows, then the second's; the columns are the union |
| Amounts.PlainDecimal | funciones_utiles.py:182 | `digits.digits` parses to its exact decimal value |
| Amounts.PlainInteger | funciones_utiles.py:182 | a plain digit string parses to its integer value |
| Catalogs.Describe | funciones_utiles.py:134-139 | `code-label` when the code has a non-empty label, the bare code when it is not in the table; always starts with the code |
| Catalogs.PaymentLabelsNonEmpty | funciones_utiles.py:9-17 | every payment-form entry, in the table as written and in the corrected one, has a non-empty label, so every listed code is rendered as `code-label` |
| Catalogs.AsWrittenValesEntry | funciones_utiles.py:12 | the table as written maps "8" to "Vales de Despensa" |
| Catalogs.UseLabelsNonEmpty | funciones_utiles.py:20-30 | every CFDI-use entry has a non-empty label, so every listed code is rendered as `code-label` |
| Catalogs.EmptyCodeUncatalogued | funciones_utiles.py:134-139 | "" is in neither payment-form table, so an absent code is rendered as "" |
| Catalogs.EmptyUseUncatalogued | funciones_utiles.py:160-165 | "" is not in the CFDI-use table |
| Catalogs.AsWrittenMissesVales | funciones_utiles.py:12 | the table as written has a key that is not two digits, and renders the catalogue code "08" bare |
| Catalogs.CorrectedKeysTwoDigit | funciones_utiles.py:9-17 | every key of the corrected payment-form table is a two-digit code |
| Catalogs.CorrectedLabelsVales | funciones_utiles.py:12 | the corrected table renders "08" as "08-Vales de Despensa" |
| Catalogs.CorrectionIsOneKey | funciones_utiles.py:9-17 | the corrected table has the keys of the table as written with "8" replaced by "08" |
| Catalogs.CorrectionKeepsLabels | funciones_utiles.py:9-17 | the correction moves the "8" label to "08" and leaves every other label as written |
| Catalogs.ValesEntry | funciones_utiles.py:12 | the corrected table maps "08" to "Vales de Despensa" |
| Extraction.ScanTransfers | funciones_utiles.py:172-196 | the transfer loop gives the summary string verbatim when present and the exact itemised sum otherwise; both branches give the same tax names and VAT-16% amount |
| Extraction.SumWithheld | funciones_utiles.py:198-203 | the withholding loop gives the sum of the parsable Retencion amounts |
| Extraction.ImporteSumConcat | funciones_utiles.py:180-184 | the itemised sum is additive over concatenated lines |
| Extraction.UnparsableContributesNothing | funciones_utiles.py:181-184 | a line whose amount does not parse adds nothing, wherever it sits |
| Extraction.TaxNamesAreCodes | funciones_utiles.py:185-187 | the tax names are pairwise distinct, non-empty, and exactly the set of non-empty Impuesto codes |
| Extraction.Iva16IsLastMatch | funciones_utiles.py:188-189 | the VAT-16% field is "" when no line has Impuesto 002 at 0.160000, else the Importe of the last such line |
| Extraction.FallbackAgreesWithSummary | funciones_utiles.py:173-179 | a summary of "160.00" and a single itemised line of 160.00 give the same total, once as text and once as the number it parses to |
| Amounts.HundredSixtyParses | funciones_utiles.py:182 | "160.00" parses to 160 |
| Amounts.HundredParses | funciones_utiles.py:223 | "100.00" parses to 100 |
| Amounts.FiftyParses | funciones_utiles.py:223 | "50.00" parses to 50 |
| Extraction.ToRow | funciones_utiles.py:116-125 | the row has exactly the 33 schema columns and names its archive member |
| Extraction.AbsentPartsLeaveDefaults | funciones_utiles.py:148-169 | a missing Emisor, Receptor or stamp element leaves its fields "" |
| Extraction.AbsentAttributesLeaveDefaults | funciones_utiles.py:128-139 | a missing Fecha, SubTotal, Descuento, Total, MetodoPago or FormaPago attribute leaves its field "" |
| Extraction.AbsentIdentityLeavesDefaults | funciones_utiles.py:141-146 | a missing Moneda, TipoCambio, Version, Serie, Folio or TipoDeComprobante attribute leaves its field "" |
| Extraction.UnfilledColumnsStayEmpty | funciones_utiles.py:116-125 | the status, relation and related-document columns the extraction never fills stay "" |
| Extraction.PaymentFormDescribed | funciones_utiles.py:134-139 | the payment form is `code-label` for a code in the program's table, the bare code otherwise |
| Extraction.PaymentFormAsWritten | funciones_utiles.py:134-139 | a document with FormaPago "08" gets the bare "08"; one with "8" gets "8-Vales de Despensa" |
| Extraction.CorrectedRecordRendersVales | funciones_utiles.py:134-139 | the record with the corrected table renders "08" as "08-Vales de Despensa" and differs from the program's record in the payment form alone |
| Extraction.CfdiUseDescribed | funciones_utiles.py:160-165 | the CFDI use is `code-label` for a catalogued code, the bare code otherwise |
| Extraction.ReadEmisor | funciones_utiles.py:148-152 | the emisor's Rfc, Nombre and RegimenFiscal, each "" when the element or the attribute is absent |
| Extraction.ReadReceptor | funciones_utiles.py:154-165 | the receptor's fields, each "" when the element or the attribute is absent, the use as the catalogue describes it |
| Extraction.ReadStamp | funciones_utiles.py:167-169 | the stamp's UUID, "" when the timbre or the attribute is absent |
| Extraction.BuildRecord | funciones_utiles.py:116-214 | filling the record field by field, with the tax loops, yields the record of the document |
| Archive.Lower | funciones_utiles.py:107 | lower-casing keeps the length and maps each character |
| Archive.XmlNameExactly | funciones_utiles.py:107 | a member is taken exactly when its name ends in '.', x/X, m/M, l/L |
| Archive.AcceptedEntries | funciones_utiles.py:106-114 | the taken members are an ordered selection holding exactly the `.xml` members that parse |
| Archive.ProcessArchive | funciones_utiles.py:100-217 | the member loop yields the rows of the taken members |
| Archive.AcceptedConcat | funciones_utiles.py:106 | selecting members distributes over concatenated listings |
| Archive.BatchMatchesAccepted | funciones_utiles.py:106-216 | one row per taken member, in listing order, the i-th row being the record of the i-th taken member |
| Archive.RowsNameTheirMembers | funciones_utiles.py:117 | the i-th row's XML is the name of the i-th taken member |
| Archive.CollectMatchesAccepted | funciones_utiles.py:106-216 | for any row builder, one row per taken member, in listing order, built from that member |
| Archive.CollectConcat | funciones_utiles.py:106-216 | for any row builder, collecting a concatenated listing collects both parts, in order |
| Archive.BatchRowsConcat | funciones_utiles.py:106-216 | the rows of a concatenated listing are the rows of both parts, in order |
| Archive.SkippedMemberAddsNothing | funciones_utiles.py:109-114 | a non-XML or malformed member adds no row, and processing goes on past it |
| Archive.BatchRowsCarrySchema | funciones_utiles.py:116-125 | every row of a batch has exactly the schema's columns |
| Archive.SchemaHasKeyColumns | funciones_utiles.py:119-121 | the schema contains UUID and Fecha |
| Dedup.FilterNew | funciones_utiles.py:42-46 | the batch unchanged when the dataset has no UUID column; otherwise an ordered selection of the batch in which each row keeps its multiplicity when its UUID is not stored and is absent when it is, so repeats inside the batch are kept; a KeyError when only the dataset has the column |
| Dedup.MergeKeepsOldPrefix | recibidos.py:25-28 | after a merge the old rows are an unchanged prefix, and the count is the number of rows appended |
| Dedup.MergeAddsOnlyNew | recibidos.py:25-27 | every appended row comes from the batch and carries a UUID absent from the dataset |
| Dedup.RefilterIsEmpty | funciones_utiles.py:42-46 | filtering the same batch against the merged dataset leaves no rows |
| Dedup.MergeIdempotent | recibidos.py:20-30 | merging the same batch a second time changes nothing and reports 0 |
| Dedup.MergeUuids | recibidos.py:25-27 | the merged UUIDs are the union of the dataset's and the batch's |
| Dedup.MergeOrderIrrelevantForUuids | recibidos.py:25-27 | merging two batches in either order gives the same UUID set |
| Dedup.UniqueSubseq | funciones_utiles.py:52 | a selection of rows with distinct UUIDs has distinct UUIDs |
| Dedup.UniqueConcat | recibidos.py:25-27 | two repeat-free lists with no UUID in common concatenate into a repeat-free list |
| Dedup.MergeKeepsBatchRepeats | recibidos.py:25-27 | a batch of two rows sharing a fresh UUID is appended whole, leaving the dataset with a repeated UUID |
| Dedup.MergeKeepsUnique | recibidos.py:25-27 | merging a duplicate-free batch into a duplicate-free dataset keeps it duplicate-free |
| Dedup.KeepFirst | funciones_utiles.py:52 | keep-first never lengthens the rows |
| Dedup.KeepFirstShape | funciones_utiles.py:52 | keep-first is an ordered selection with distinct UUIDs, covering every UUID not seen before |
| Dedup.KeepFirstKeepsFirstOccurrences | funciones_utiles.py:52 | the first row carrying each UUID stays |
| Dedup.UniqueCount | funciones_utiles.py:51-54 | rows with distinct UUIDs number as many as their UUIDs |
| Dedup.DropDuplicatesSpec | funciones_utiles.py:48-55 | distinct UUIDs, the same UUID set, exactly the rows `FirstOnes` keeps (each row with no earlier row of its UUID, in order), the count of dropped rows; identity and 0 without a UUID column |
| Dedup.KeepFirstSnoc | funciones_utiles.py:52 | one more row at the end of the scan is kept exactly when its UUID was not seen before |
| Dedup.KeepFirstIsFirstOnes | funciones_utiles.py:52 | `keep='first'` read left to right equals the right-end definition `FirstOnes`, position for position |
| Dedup.DropDuplicatesIdempotent | funciones_utiles.py:48-55 | deduplicating twice drops nothing the second time |
| Dedup.KeepFirstOfUnique | funciones_utiles.py:52 | rows that already have distinct UUIDs are left as they are |
| Dedup.OccursWhenCounted | funciones_utiles.py:66-67 | a UUID that is counted belongs to some row |
| Dedup.DuplicateAuditExactly | funciones_utiles.py:61-71 | the audit shows, in order, exactly the rows whose UUID occurs at least twice, every copy of each; nothing when there is no UUID column or no repeat |
| Dedup.RemoveSelectedExactly | funciones_utiles.py:89-97 | removal keeps, in order and with their multiplicity, exactly the rows sharing no UUID with the selection, and removes every copy of the others, first copy included; an empty selection removes nothing |
| Periods.PeriodIsDatePrefix | main.py:77 | the period is the first min(7, len) characters of a text date, and "" otherwise |
| Periods.InsertElems | main.py:78 | inserting a period adds exactly that period to the elements |
| Periods.InsertSorted | main.py:78 | inserting a period keeps the list strictly ascending and adds exactly that period |
| Periods.PeriodListSpec | main.py:78 | the period list is strictly ascending and holds exactly the rows' periods |
| Periods.SortedListUnique | main.py:78 | two strictly ascending lists of the same periods are equal, so the list is determined by the set |
| Periods.DefaultIsLatest | recibidos.py:42-51 | for a non-empty dataset the default period is one of its periods and above every other |
| Periods.EffectiveSelection | main.py:92-93 | an empty selection means all available periods; any other selection is kept |
| Periods.TaggedKeepsColumns | recibidos.py:41 | adding the Periodo column changes no other column |
| Periods.RowsInPeriodExactly | recibidos.py:41-52 | the view holds exactly the tagged rows of the chosen period, each with that Periodo; the default period's view is not empty |
| Periods.RowsInPeriodConcat | recibidos.py:41-52 | the view is an order-keeping filter: one row gives itself tagged or nothing, and two blocks give their two views in order |
| Periods.WithFlag | recibidos.py:114 | an ordered selection holding exactly the rows whose flag reads True (or False) |
| Periods.MissingFlagSelectsNothing | recibidos.py:114-120 | where no row has the flag column, neither side gets a row and every row is unflagged |
| Periods.Unflagged | recibidos.py:59-61 | exactly the rows whose flag reads neither True nor False |
| Periods.ThreeWaySplit | recibidos.py:59-61 | the True, False and other rows together are the view, as a multiset |
| Periods.FlagPartition | recibidos.py:59-61 | the True and False rows are disjoint; their counts add up to at most the total, with equality exactly when every flag is boolean |
| Periods.PeriodSplit | main.py:237-240 | per period, Deducibles and No Deducibles are disjoint, and each holds only that period's rows with the matching flag |
| Summary.ColumnSums | funciones_utiles.py:220-224 | the totals loop gives each listed column's sum; a KeyError exactly when a listed column is missing |
| Summary.ColumnSumConcat | funciones_utiles.py:223 | a column total is additive over concatenated rows |
| Summary.NonNumericSkipped | funciones_utiles.py:223 | a cell that does not convert adds nothing |
| Summary.NothingConvertsSumsZero | funciones_utiles.py:223 | an empty column, or one where nothing converts, totals 0 |
| Summary.UnreadableExamples | funciones_utiles.py:223 | "abc" and "" add nothing |
| Summary.SumExample | funciones_utiles.py:223 | "100.00", "abc", "", "50.00" total 150 |
| Summary.SplitSums | recibidos.py:114-123 | the True, False and unflagged totals add up to the period total |
| Summary.SplitSumsAllFlagged | recibidos.py:114-123 | with every flag boolean, the Deducibles and No Deducibles totals add up to the period total |
| Workbook.ColumnLetters | main.py:67-72 | the loop yields the bijective base-26 letters of n |
| Workbook.LettersShape | main.py:67-72 | only 'A'..'Z', and empty exactly for 0 |
| Workbook.DecodeLetters | main.py:67-72 | decoding the letters gives back n |
| Workbook.LettersDecode | main.py:67-72 | every upper-case string is the letters of some number |
| Workbook.LettersInjective | main.py:67-72 | different numbers get different letters |
| Workbook.LettersExamples | main.py:67-72 | 1→A, 26→Z, 27→AA, 52→AZ, 53→BA |
| Workbook.Clean | main.py:96 | keeps exactly the digits, '.' and '-', in their order |
| Workbook.CleanKeepsNumber | main.py:96 | a string of only digits, '.' and '-' comes through unchanged |
| Workbook.CleanIdentity | main.py:96 | a string is left unchanged exactly when it has only those characters |
| Workbook.CleanIdempotent | main.py:96 | cleaning twice is cleaning once |
| Workbook.CleanConcat | main.py:96 | cleaning distributes over concatenation |
| Workbook.ExportRow | main.py:138-140 | the listed numeric columns present are converted, and every other cell is kept |
| Workbook.ExportNumberIsNumeric | main.py:95-97 | a converted cell is a number or NaN, and a text whose cleaned form parses becomes that number |
| Workbook.SheetNameBounds | main.py:141 | at most 31 characters, a prefix of the requested name, unchanged when that fits |
| Workbook.DeductibleSheets | main.py:236-252 | two sheets per selected period |
| Workbook.DeductibleSheetNames | main.py:249-251 | for `YYYY-MM` periods the names are not truncated and no two sheets share a name |
| Workbook.FlattenAt | main.py:236-252 | the k-th pair of sheets sits at positions 2k and 2k+1 of the export |
| Workbook.DeductibleSheetsSplit | main.py:236-252 | period k gives sheet 2k, "… - Deducibles", and sheet 2k+1, "… - No Deducibles" |
| Workbook.ExportRowsKeep | main.py:138-140 | export conversion keeps the row count and every non-numeric column |
| Workbook.PeriodSheetsSpec | main.py:134-142 | one sheet per period, named after it when it fits, holding only rows of that period |
| Workbook.DeductibleSheetRows | main.py:237-240 | period k's two sheets hold that period's True rows and its False rows |
| Session.UploadSpec | recibidos.py:20-28 | an upload keeps the old rows as a prefix, flags every appended row True, and reports the number appended |
| Session.UploadAppendsFreshBatchRows | recibidos.py:20-28 | the appended rows are an ordered selection of the flagged batch, and none has a UUID already stored |
| Session.ArchiveUploadsMerge | recibidos.py:21-25 | rows from an archive always carry a UUID, so an upload never hits the KeyError |
| Session.FlagUpdatesLastWins | recibidos.py:89 | each XML in the grid maps to the flag of its last grid row |
| Session.FlagUpdatesKeys | recibidos.py:89 | the update table has entries only for XMLs in the grid |
| Session.FlagEditsSpec | recibidos.py:90-92 | same rows in the same order; a row takes its XML's non-NaN grid flag, any other row keeps its flag; no other column changes |
| Session.CheckpointMergeSpec | main.py:44-49 | a checkpoint load keeps the old rows as a prefix and appends an ordered selection of the sheet; when the dataset has a UUID column, no appended row carries a stored UUID |
| Session.UnreadableCheckpointChangesNothing | main.py:54-61 | an unreadable checkpoint leaves both datasets as they were |
| Session.ExportSource | emitidos.py:19-23 | nothing to export for an empty dataset; "Toda la Sección" exports the dataset; "Tabla Actual" exports the stored view when there is one, else the dataset |
| Session.FreshSessionExportsEmptyView | main.py:18-19 | with the view initialised empty, "Tabla Actual" exports that empty view |
| Session.ViewTotals | recibidos.py:59-61 | the True and False counts add up to at most the total, with equality exactly when every flag is boolean |
| Session.AppState.constructor | main.py:12-19 | a new session has empty datasets and empty stored views |
| Session.AppState.UploadRecibidos | recibidos.py:20-32 | an empty archive changes nothing; otherwise the batch flagged Deducible merged into the dataset; nothing else changes |
| Session.AppState.UploadEmitidos | emitidos.py:48-60 | an empty archive changes nothing; otherwise the batch flagged Seleccionar merged into the dataset; nothing else changes |
| Session.AppState.ApplyFlagEdits | recibidos.py:88-92 | the Deducible column rewritten from the edited grid; a KeyError, with nothing changed, when XML or Deducible is missing |
| Session.AppState.StoreRecibidosView | recibidos.py:96-99 | the stored view is the chosen period's view of the updated dataset |
| Session.AppState.StoreEmitidosView | emitidos.py:104 | the stored Emitidos view is the chosen period's view |
| Session.AppState.LoadCheckpoint | main.py:41-52 | Recibidos then Emitidos each appended after filtering; a KeyError stops the load where it occurs, so Recibidos may already have changed |

## Left out

- XML parsing, ZIP reading and namespace resolution are not modelled. A member arrives already parsed, with `None` standing for a parse error.
- The Streamlit widgets, messages and tabs, and the AgGrid editing widgets, are not modelled. The grid's edited data and the user's selections arrive as parameters.
- Python float arithmetic is not modelled. Amounts are exact reals: sums carry no rounding, and `float`/`pd.to_numeric` accept only an optional sign, digits, an optional point and more digits.
  - Exponents, surrounding whitespace, `_` digit separators and `inf`/`nan` fall outside the model.
  - `pd.to_numeric` on a boolean cell is modelled as NaN.
- Amounts.PlainDecimal: Python's `float` rounds the value, so the model is exact where the program may be off in the last binary digit.
- Archive.Lower: lower-casing covers ASCII letters only, not the whole of Unicode.
- The Python `set` of tax names is iterated in hash order, so "Nombre Impuesto" has no defined order in the program. The model joins the names in first-appearance order, and its lemmas state the set and the distinctness.
- WithFlag: a dataset without the flag column raises a KeyError at `df_rec_filtrado["Deducible"]` (recibidos.py:60, 103, 114, 120; emitidos.py:109, 115; main.py:239). That can happen after loading a checkpoint sheet without the column into an empty dataset. The model reads the missing flag as NaN, so the True and False sides are empty (`Periods.MissingFlagSelectsNothing`) instead of an error.
- A dataset without a Fecha column raises a KeyError in the period step. The model reads that date as NaN, which gives the empty period.
- `colnum_to_excel` loops forever for a negative argument. The model takes natural numbers.
- Workbook.ExportNumber: `astype(str)` of a float is not modelled; a number cell is kept as it is.
- `pd.to_datetime` conversion of the Fecha column is not modelled.
- The xlsxwriter formatting is not modelled: widths, formats, autofilter and the red conditional format.
- The CSV/Excel/ZIP writers, the PDF option, the `guardar_avance` stub and the unused RFC input are not modelled.
- emitidos.py:101 replaces the whole Emitidos dataset with the grid's contents. That depends on the grid widget and is not modelled.
- The widget re-run cycle of Streamlit is not modelled; each session method is one interaction. `Dedup.MergeIdempotent` states why re-running an upload on the same archive adds nothing.

## Findings

| source | as written | input that shows it | evidently intended | confidence | as-written member | corrected member |
|---|---|---|---|---|---|---|
| funciones_utiles.py:12 | the payment-form table has the key "8" for "Vales de Despensa" | a CFDI with `FormaPago="08"`, the c_FormaPago code of CFDI 4.0 Annex 20, is rendered "08" with no label | the key "08", giving "08-Vales de Despensa" | high (not executed) | Extraction.PaymentFormAsWritten | Extraction.CorrectedRecordRendersVales |
