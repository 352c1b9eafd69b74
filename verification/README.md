# Invoice mark-as-sent pass, modelled in Dafny

The invoicing script reads a billing worksheet and walks its rows once, in
sheet order. Row 1 is the header, which gives every record its keys. For each
record whose "Sent" field is exactly "N", the script does two things:

1. It writes an invoice to `<invoice directory>/Faktura-<Invoice Number>.pdf`.
2. It sets that record's "Sent" cell to "Y". The cell is at sheet row
   (record position + 2), in the 1-based column where the keys hold "Sent".

Any other value of "Sent" ("Y", "n", "", ...) skips the record. A field that
the pass or the invoice renderer needs and the record lacks raises KeyError.
That ends the pass, and what was already done stays done.

The model has four modules:

- `Sheet`: the worksheet as a rectangular grid of text cells.
  - `ReadRecords` models `get_all_records`.
  - `Worksheet.UpdateCell` models `update_cell`, an in-place write into a
    1-based grid held by the `Worksheet` class.
- `Invoice`: the output path of an invoice (POSIX `os.path.join`) and its
  inverse. It also lists the fields the renderer reads, in order.
- `MarkSent`: the pass itself.
  - `StepOf` gives the decision for one record.
  - `Fold`/`Pass` define the whole pass: its failure and
    the effects it performs, in order. An effect is an invoice emitted or a
    cell written.
  - `MarkUnsentUpTo`/`MarkUnsent` give the table after the pass.
  - `MarkRecords` is the loop, and `SendUnsentInvoices` is the block around
    it. Both are proved to follow those functions.
- `PassProperties`: what one pass does to a sheet, stated about the sheet:
  - which records are invoiced, in which order and under which file name;
  - which cells are written;
  - what a stopped pass leaves behind;
  - that a second run does nothing.

The invoice renderer is modelled only as the event `Emitted(file, record)`.
That event happens after every field the renderer reads has been found.

## Model

| member | source | states |
|---|---|---|
| Sheet.IndexOf | main.py:127 | `list.index`: found exactly when the key is present; the found position holds the key and no earlier position does |
| Sheet.Get | main.py:122-124 | `record[key]` gives a value exactly when the key is present, and that value is the one stored under the key |
| Sheet.ReadRecords | main.py:119 | `get_all_records`: refused exactly when the header names a column twice; otherwise one record per row below the header, record i keyed by the header with row i + 2's values |
| Sheet.FieldIsCell | main.py:119-127 | field `key` of record i is the sheet cell at row i + 2, in the column where the header holds `key`; a key not in the header is missing from every record |
| Sheet.SetCell | main.py:127 | writing one cell at a 1-based address keeps the row count and the row widths; the cell reads the new value; every other cell is unchanged |
| Sheet.Worksheet.UpdateCell | main.py:127 | `update_cell(row, col, value)` replaces the worksheet's table by the table with exactly that one cell overwritten |
| Invoice.Join | main.py:124 | POSIX `os.path.join`: an absolute name replaces the directory; otherwise the path starts with the directory and ends with the name, at most one character longer than both together, and that extra character is a separator |
| Invoice.FileName | main.py:124 | the base name `Faktura-<number>.pdf`; no contract of its own, characterised by `InvoicePathShape` and the two round-trip lemmas |
| Invoice.JoinRelative | main.py:124 | for a relative name the path is exactly the directory prefix followed by the name; a separator is added if and only if the directory is non-empty and does not already end in one |
| Invoice.InvoicePath | main.py:124 | the output path starts with the invoice directory and ends with `Faktura-<number>.pdf` |
| Invoice.InvoicePathShape | main.py:124 | the output path is the directory prefix, then `Faktura-`, the number and `.pdf` |
| Invoice.ParseInvoicePathOfInvoicePath | main.py:124 | the invoice number can be read back from the output path built for it |
| Invoice.InvoicePathOfParseInvoicePath | main.py:124 | a path from which an invoice number can be read back is the output path built for that number |
| Invoice.InvoicePathInjective | main.py:124 | two invoice numbers get the same output path under one directory if and only if they are equal (paths compared as strings) |
| Invoice.FirstMissing | main.py:53-111 | where reading the renderer's fields in order first raises KeyError: nothing is missing exactly when every field is present; otherwise the result names a missing field, and every field before it is present |
| MarkSent.StepOf | main.py:122-127 | the decision for one record (skip, process with path, row and column, or stop on a missing key); no contract of its own, characterised by `StepOfDecides` |
| MarkSent.StepOfDecides | main.py:121-127 | a record is skipped if and only if "Sent" is present and not exactly "N". It is processed if and only if "Sent" is "N" and every field needed is present. A processed record writes its invoice to the path built from its number and marks row idx + 2 in the column `index("Sent") + 1`. A stopping record lacks the key it names, and that key is "Sent", or "Sent" is "N" and the key is one the invoice needs |
| MarkSent.Steps | main.py:121-127 | the decision for every record, each with its 0-based position from `enumerate`; no contract of its own, characterised through `StepOfDecides` by `StepsDecideLikePass` and `SharedKeysStopBeforeWriting` |
| MarkSent.Fold | main.py:121-128 | the loop over the first n decisions: the effects in order and the first KeyError, which ends it; no contract of its own, characterised by `FailureSticks`, `StopsAt`, `FailureOrigin` and `EffectsInOrder` |
| MarkSent.Pass | main.py:119-128 | the whole pass over the records read; no contract of its own, characterised by `EmitsInSheetOrder`, `FailureWritesNothing`, `WritesMarkInvoicedRows` and `RerunIsNoOp` |
| MarkSent.FailureSticks | main.py:121-128 | once the pass has raised, later records change neither its failure nor its effects |
| MarkSent.StopsAt | main.py:121-128 | a record that raises decides the outcome: the failure names it and its key, and the effects of the records before it stand (no rollback) |
| MarkSent.FailureOrigin | main.py:121-128 | a pass that raised did so at one record, the first that raised; the effects are those done before it |
| MarkSent.QuietPassSkipsAll | main.py:121-127 | a pass that neither raised nor did anything skipped every record |
| MarkSent.AllSkippedIsQuiet | main.py:121-127 | a pass in which every record is skipped raises nothing and does nothing |
| MarkSent.StopsBeforeWriting | main.py:121-127 | if the decisions agree on one key set, then a pass that did anything had every needed key, and a pass that raised did nothing |
| MarkSent.SharedKeysStopBeforeWriting | main.py:119-127 | records with the same keys, as read from one sheet, are never half-processed: a pass that raised did nothing, and a pass that did something met records with every key it needs |
| MarkSent.MarkUnsentUpTo | main.py:122-127 | the table after marking the first n records has the same rows, the same widths and the same header |
| MarkSent.MarkUnsent | main.py:121-127 | the table after a completed pass; no contract of its own, characterised by `MarkedCells` and `MarkedAll` |
| MarkSent.MarkedCells | main.py:122-127 | marking changes only "Sent" cells of handled rows that read "N", each to "Y", and changes every such cell |
| MarkSent.MarkedAll | main.py:121 | once every record is handled, nothing is left to mark |
| MarkSent.MarkNext | main.py:122-127 | one more row: if its "Sent" cell is not "N" the table is unchanged; if it is "N", the single write at that row in the "Sent" column gives the next table |
| MarkSent.MarkStep | main.py:121-127 | handling record idx: a skip keeps the table; processing is the single in-grid write at the step's row and column, and it gives the table with one more row handled |
| MarkSent.LoopStep | main.py:121-127 | one turn of the loop moves the run and the table on by one record, or stops the run with its final outcome and the table as it was |
| MarkSent.ApplyStep | main.py:122-127 | the body of the loop performs exactly the record's decision: nothing for a skip; KeyMissing and nothing done for a missing key; otherwise the invoice, then the one in-grid "Y" write |
| MarkSent.HandleRecord | main.py:121-127 | handling record idx keeps the loop tied to `Fold`: the run equals `Fold` over one more record and the table is marked one row further, or the run is final and the table unchanged |
| MarkSent.MarkRecords | main.py:121-128 | the loop's failure and effects are those of `Fold` over every record. A completed loop leaves every handled "N" row marked. A stopped loop leaves the rows before the failing record marked and nothing after |
| MarkSent.SendUnsentInvoices | main.py:119-128 | a refused read does nothing. Otherwise the result is `Pass` over the records read. A completed run leaves every "N" row reading "Y" and every other cell as it was; a failed one leaves only the rows before the failing record marked |
| PassProperties.UnsentBefore | main.py:121-122 | lists the positions of the records whose "Sent" is exactly "N", in increasing order, with none left out |
| PassProperties.ProcessedBefore | main.py:121-122 | lists the positions of the processed decisions, in increasing order, with none left out |
| PassProperties.NoFailureNoAbort | main.py:121-127 | a pass that did not raise met no record that raises |
| PassProperties.EffectsInOrder | main.py:121-127 | until it raises, the pass does two effects per processed record, in sheet order: its invoice, then its cell write with "Y" |
| PassProperties.ProcessedMatchUnsent | main.py:122 | decisions that process exactly the records reading "N" process the positions `UnsentBefore` lists |
| PassProperties.EmitsInSheetOrderFor | main.py:121-127 | for any decisions made as the pass makes them, the effects are, for each "N" record in sheet order, its invoice under the path built from its number, then the "Y" write at its row + 2 and "Sent" column |
| PassProperties.StepsDecideLikePass | main.py:121-127 | until it raises, the pass processes exactly the records reading "N", each with its own invoice path, row and "Sent" column |
| PassProperties.EmitsInSheetOrder | main.py:121-127 | until it raises, the pass writes exactly one invoice per "N" record, in sheet order, named `Faktura-<number>.pdf` under the directory, and each record's "Sent" cell (row position + 2, column of "Sent") is written with "Y" right after its invoice |
| PassProperties.SkippedRowsUnmarked | main.py:122 | handling only skipped records leaves the table as it was |
| PassProperties.FailureWritesNothing | main.py:119-127 | on a worksheet, a pass that raises KeyError does so before its first invoice: it has done nothing, and the table is unchanged |
| PassProperties.OrderedWritesMarkUnsent | main.py:122-127 | effects in sheet order write only the "Sent" cells, under the header's "Sent", of rows reading "N"; each write is "Y" and comes right after the invoice for that row |
| PassProperties.WritesMarkInvoicedRows | main.py:122-127 | every cell the pass writes is the "Sent" cell of a row that read "N"; it is set to "Y", right after that row's invoice |
| PassProperties.RerunIsNoOp | main.py:122-127 | running the pass again on the table a completed pass left behind reads the sheet without error, raises nothing, emits no invoice and writes no cell |

A missing field raises KeyError at its first lookup. That lookup is in the
loop ("Sent", "Invoice Number") or in the renderer, in the order it reads the
fields. A "Sent" value other than "N" is skipped.

## Left out

- Configuration loading (`load_config`, main.py:10-14): the invoice directory is a parameter.
- Spreadsheet authorisation and the network client (main.py:17-23): the worksheet is an in-memory grid, and every read and write succeeds.
- The page layout of the invoice (main.py:26-110): the renderer becomes the `Emitted` event, after its field reads.
- Totals arithmetic and `:.2f` formatting (main.py:97-109): floating point is out of scope. So is the ValueError that formatting raises for a non-numeric "Hours Worked" or "Hourly Rate".
- The renderer's file output (main.py:111): an unwritable path is not modelled. Neither is the file's content.
- Number conversion of cell values by `get_all_records`: cells are kept as text. The model therefore does not capture an invoice number written as a number losing leading zeros in the file name.
- The `expected_headers` and `head` options of `get_all_records`: the header is always row 1.
- Blank trailing rows and cells outside the used range: the worksheet is its used range, a rectangular grid.
- Windows path semantics of `os.path.join` (drive letters, backslash): only the POSIX behaviour is modelled.
- `datetime.now()` (main.py:123): its value is unused.
- The `print` calls (main.py:112, main.py:128): console output only.
- The header check of `get_all_records`: the model refuses a header that names a column twice, as gspread 5.4 and later do when `expected_headers` is not given. Older gspread versions keep only one of the duplicated keys. Then `index("Sent") + 1` can name a different column from the one the value was read from, and the model does not capture that.
- Renderer failures on fields that are present: for example, the core "Arial" font refuses text outside Latin-1. A record is processed whenever its nine fields exist, and the renderer is assumed to succeed then.
- File identity: output paths are compared as strings, not resolved against a file system. Two different path strings can still name one file, for example with a repeated separator ("a//b" and "a/b") or on a case-insensitive file system.
