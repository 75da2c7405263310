# Bank-notification emails to a CSV ledger

A Dafny model of `banorte_records_csv.py`. The script reads archived Banorte notification emails, one JSON file each. It scrapes every email body into a financial record and tries to write one CSV ledger row per record that is not an account operation. As written, every such write raises and the email is quarantined (see Findings). The ledger row carries the record's total amount: the principal plus, for an expense, every extra charge and its tax, added exactly. Account-operation notices are skipped and get no row. When anything goes wrong while scraping or writing an email, its decoded body is quarantined under the email's id and the batch goes on. When the email file itself cannot be read, the run stops.

Modules, leaf first:

- `Wrappers`: `Option` and `Result`.
- `Records`: the scraped record (`Record`, `ExtraAmount`, `RecordType`).
- `TotalAmount`: `extra_amount_total` and `calculate_total_amount`, on exact reals.
- `Csv`: the part of Python's `csv.DictWriter` the script relies on. It is a class whose `WriteRow` refuses a row with keys outside the header. Otherwise it appends the row's cells in header order. A `DictReader`-style read-back states that nothing is lost.
- `Email`: reading one email file. The JSON parser and the base64/UTF-8 decoder are parameters (`Decoders`).
- `Ledger`: classification, the row dictionary and the two headers. `Fieldnames` is the script's header. `CorrectedFieldnames` also names the row's `inbox_date` and `from` keys (see Findings).
- `Batch`: the per-email loop. `Run` is the specification, a left fold of `Step` over the files in enumeration order. `ProcessEmails` is the loop with a `while` and invariants, proved against `Run`; each pass is `ProcessFile`, whose `try` block is `TryEmail`. The scraper and the JSON dump of a record are parameters (`Collaborators`).

## Model

| member | source | states |
|---|---|---|
| `TotalAmount.ExtraAmountTotal` | banorte_records_csv.py:13-14 | one charge line contributes exactly its amount plus its tax: the reference sums of the one-line list |
| `TotalAmount.ExtrasTotal` | banorte_records_csv.py:19 | summing `amount + tax` line by line, left to right from 0 as `sum` does, equals the sum of all amounts plus the sum of all taxes, with no rounding |
| `TotalAmount.CalculateTotalAmount` | banorte_records_csv.py:17-22 | a non-EXPENSE record totals exactly its amount whatever its extras hold; `extra_amounts` being None or an empty list also gives exactly the amount; an EXPENSE record with a charge list totals amount + Σ charge amounts + Σ charge taxes |
| `TotalAmount.ExtrasTotalAppend` | banorte_records_csv.py:19 | the charges of a concatenated list add up to the charges of each part |
| `TotalAmount.ChargesOnlyAdd` | banorte_records_csv.py:17-22 | for every record, when every charge amount and tax it carries is non-negative, the total is at least the principal |
| `Csv.WrongFields` | banorte_records_csv.py:59 | the keys `writerow` objects to are exactly the row keys outside the header; there are none iff the row's keys are all header fields |
| `Csv.ToLine` | banorte_records_csv.py:59 | the written line has one cell per header field: the row's value for that field, or the fill value when the row lacks it |
| `Csv.DictToList` | banorte_records_csv.py:43-59 | a row is refused iff some key is not a header field, and the refusal names all such keys; an accepted row gives exactly its cells in header order, the fill value for fields it lacks |
| `Csv.ReadLineInvertsToLine` | banorte_records_csv.py:59 | reading a written line back against the header gives each header field its row value or the fill value, and nothing else |
| `Csv.AcceptedRowRoundTrips` | banorte_records_csv.py:59 | every cell of an accepted row is recovered from its written line |
| `Csv.DictWriter.constructor` | banorte_records_csv.py:43 | a new writer has the given header and fill value and no lines |
| `Csv.DictWriter.WriteRow` | banorte_records_csv.py:59-69 | appends exactly the laid-out row when it is accepted; a refused row leaves the written lines unchanged |
| `Email.Lookup` | banorte_records_csv.py:50-53 | `content[key]` succeeds iff the document is an object holding the key; otherwise it raises KeyError or TypeError |
| `Email.DecodeEnvelope` | banorte_records_csv.py:49-53 | reading succeeds iff the JSON parses to an object with id, from, internal_date and body, and the body is an ASCII string that decodes; it then yields those values; a missing key is the first missing one in that order |
| `Ledger.BuildRow` | banorte_records_csv.py:59-69 | the row's keys are the nine of the dictionary, including 'inbox_date' and 'from'; `total_amount` is the calculator's total (so a non-EXPENSE row's total is its amount); `application_date` is the record's own only for EXPENSE, else None; type, source, note and operation_date come from the record, inbox_date and from from the email, raw is the record's dump |
| `Ledger.SourceHeaderRejectsEveryRow` | banorte_records_csv.py:34-69 | under the script's header every built row has exactly the wrong fields {'inbox_date', 'from'}, so `writerow` raises |
| `Ledger.CorrectedHeaderAcceptsEveryRow` | banorte_records_csv.py:59-69 | under the full header every built row is accepted and laid out in header order |
| `Ledger.CorrectedLineColumns` | banorte_records_csv.py:59-69 | under the full header the written line is exactly the row's nine cells in header order, never the blank fill: type, source, the calculator's total, note, inbox_date, operation_date, application_date (the record's only for EXPENSE, else None), from, raw |
| `Batch.TryRecord` | banorte_records_csv.py:55-69 | an email is skipped iff it scrapes to an ACCOUNT_OPERATION; a line is written iff the scrape and dump succeed, the record is kept and the header names every row key; the line is then the row in header order; a refused write names keys outside the header |
| `Batch.Step` | banorte_records_csv.py:48-74 | an unreadable file stops the run and changes nothing else; a readable one leaves exactly one trace: nothing (skipped), its body quarantined under its id (overwriting an earlier entry), or one new line |
| `Batch.Run` | banorte_records_csv.py:47-74 | a run writes at most one line per file, each as wide as the header |
| `Batch.TryEmail` | banorte_records_csv.py:55-69 | the `try` block's outcome is `TryRecord`'s, and the writer gains exactly its line when it writes one and nothing otherwise |
| `Batch.ProcessFile` | banorte_records_csv.py:48-74 | one pass of the loop body moves the writer's lines, the quarantine and the uncaught error exactly as `Step` says |
| `Batch.ProcessEmails` | banorte_records_csv.py:47-74 | the loop appends to the writer exactly the lines of `Run` and returns its quarantine map and uncaught error |
| `Batch.ConvertRecords` | banorte_records_csv.py:33-76 | the whole script with the full header yields the lines, quarantine and uncaught error of `Run` |
| `Batch.AbortIsFinal` | banorte_records_csv.py:49-53 | once reading a file has raised, the files after it change nothing |
| `Batch.AccountOperationLeavesNoTrace` | banorte_records_csv.py:58 | a scraped ACCOUNT_OPERATION email produces no line and no quarantine entry |
| `Batch.SourceNeverWrites` | banorte_records_csv.py:58-69 | under the script's header the `try` block never writes a line, and every kept record raises |
| `Batch.SourceRunWritesNoLines` | banorte_records_csv.py:47-74 | a whole run under the script's header writes no data line |
| `Batch.FailuresComeFromInputs` | banorte_records_csv.py:70-74 | every quarantine entry is the decoded body of an input email with that id that raised inside the `try` |
| `Batch.StepTracesFailures` | banorte_records_csv.py:70-74 | one more email keeps every quarantine entry traced to an input email with that id that raised |
| `Batch.FailureIdsPersist` | banorte_records_csv.py:70-74 | later emails never remove a quarantine entry |
| `Batch.RaisedEmailIsQuarantined` | banorte_records_csv.py:55-74 | an email that was reached and raised is quarantined under its id, and the run is still going after it |
| `Batch.CorrectedStepWritesLedgerLine` | banorte_records_csv.py:55-69 | under the full header, an email that does not stop the run appends exactly its reference ledger line: one line when it is kept and dumps, none otherwise |
| `Batch.CorrectedRunWritesEveryLedgerEmail` | banorte_records_csv.py:47-74 | a completed run under the full header writes exactly one line per readable, kept, dumpable email, in input order, with no other lines |

## Findings

| source | as written | input that shows it | evidently intended | confidence | as-written member | corrected member |
|---|---|---|---|---|---|---|
| banorte_records_csv.py:59-69 | the row dictionary has keys 'inbox_date' and 'from' that the header of lines 34-42 lacks. `csv.DictWriter` defaults to `extrasaction='raise'`, so `writerow` raises ValueError. The `except` at line 70 catches it. Every kept email goes to `failures/` and the CSV holds only its header | any email whose body scrapes to a record that is not ACCOUNT_OPERATION | the header names every key the row carries (`Ledger.CorrectedFieldnames`, the header `Batch.ConvertRecords` uses), so each kept record becomes a CSV line | high; not executed | `Batch.SourceRunWritesNoLines` | `Batch.CorrectedRunWritesEveryLedgerEmail` |

## Left out

- TotalAmount.CalculateTotalAmount: adds exactly. Python's default decimal context rounds each addition to 28 significant digits, which only matters for sums needing more digits than that.
- Record fields are taken as already-exact decimals, dates and strings. The `Decimal(...)` conversions at lines 14 and 22 are not modelled, nor the InvalidOperation (malformed decimal text) or TypeError (unsupported type such as None) they would raise inside the `try`. The record module is not part of this model.
- `Batch.ConvertRecords` opens the writer on the full header, following the finding above. The script's own header is covered by the as-written lemmas on `Run`, `TryRecord` and `Step`, which work over any header.
- The JSON parser, the base64 and UTF-8 decoding, the scraper and the JSON dump of the record for `raw` (lines 49, 53, 56, 68) are library or external calls. They are parameters that return a value or fail. JSON numbers are integers only.
- Filesystem work is input/output and is not modelled: `sys.argv`, the `glob` enumeration, `os.mkdir`, opening and closing `records.csv`, opening and reading each email file (line 48), and writing the `.html` files. An error while opening or reading an email file is uncaught and would end the run; the model takes each file as text already read. The files are given as a sequence in enumeration order, and the quarantine is a map from email id to decoded body. A failure while writing a quarantine file is not modelled either.
- The header line written by `writeheader`, the CSV text encoding and quoting, and the rendering of cells as text are not modelled.
- The `print` of each failure (line 71) is a log line and is not modelled.
- The quarantine is keyed by the JSON value of the id. The script names the file by its text, so two distinct values with the same text (1 and "1") share a file there. Here they are separate keys.
- The identity test `is not` at line 58 is modelled as inequality of record types.
- When a file cannot be read, the uncaught exception ends the run. The lines written before it stay in the writer. Flushing of the unclosed file is not modelled.
- The script writes a single `records.csv`; its rows carry `inbox_date` and `from`, which its header lacks (see Findings), and the model follows it.
- Decode errors do not go to the quarantine. In this source they happen outside the `try` and end the run, and the model follows the source.
