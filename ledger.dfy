/**
 * Classification and row building: which records become ledger rows, what
 * each row holds, and which header the CSV writer is given.
 */
module Ledger {
  import opened Wrappers
  import opened Records
  import opened Email
  import TotalAmount
  import Csv

  /** A value in a ledger row. `Null` is Python's None. */
  datatype Cell =
    | Tag(recordType: RecordType)
    | Text(text: string)
    | Decimal(value: real)
    | Date(date: DateTime)
    | Json(json: JsonValue)
    | Null

  /** The keys of the row dictionary of lines 59-69. */
  const TypeKey: string := "type"
  const SourceKey: string := "source"
  const TotalAmountKey: string := "total_amount"
  const NoteKey: string := "note"
  const InboxDateKey: string := "inbox_date"
  const OperationDateKey: string := "operation_date"
  const ApplicationDateKey: string := "application_date"
  const FromKey: string := "from"
  const RawKey: string := "raw"

  /** DictWriter's default `restval`, the empty string. */
  const RestVal: Cell := Text("")

  /** The header the script gives the CSV writer (lines 34-42). */
  const Fieldnames: seq<string> :=
    ["type", "source", "total_amount", "note", "operation_date", "application_date", "raw"]

  /** The header that names every key of a built row, in the row's own order. */
  const CorrectedFieldnames: seq<string> :=
    ["type", "source", "total_amount", "note", "inbox_date", "operation_date", "application_date", "from", "raw"]

  /** The keys of a built row that the script's header lacks. */
  const ExtraKeys: set<string> := {"inbox_date", "from"}

  /** Only account-operation notices are kept out of the ledger (line 58). */
  predicate IsLedgerRecord(r: Record)
  {
    r.recordType != AccountOperation
  }

  function OptionalText(o: Option<string>): (cell: Cell)
  {
    if o.Some? then Text(o.value) else Null
  }

  function OptionalDate(o: Option<DateTime>): (cell: Cell)
  {
    if o.Some? then Date(o.value) else Null
  }

  /** The row dictionary of lines 59-69; `raw` is the record's JSON dump. */
  function BuildRow(r: Record, env: Envelope, raw: string): (row: map<string, Cell>)
    ensures row.Keys == RowKeys
    ensures row[ApplicationDateKey] == if r.recordType == Expense then OptionalDate(r.applicationDate) else Null
    ensures r.recordType != Expense ==> row[TotalAmountKey] == Decimal(r.amount)
    ensures row[TotalAmountKey] == Decimal(TotalAmount.CalculateTotalAmount(r))
    ensures row[TypeKey] == Tag(r.recordType) && row[SourceKey] == Text(r.source)
    ensures row[NoteKey] == OptionalText(r.note) && row[OperationDateKey] == OptionalDate(r.operationDate)
    ensures row[InboxDateKey] == Json(env.internalDate) && row[FromKey] == Json(env.sender)
    ensures row[RawKey] == Text(raw)
  {
    RecordCells(r, env, raw);
    EnvelopeCells(r, env, raw);
    RowCells(r, env, raw)
  }

  /** The keys of the row dictionary of lines 59-69, as written there. */
  const RowKeys: set<string> :=
    {TypeKey, SourceKey, TotalAmountKey, NoteKey, InboxDateKey, OperationDateKey, ApplicationDateKey, FromKey, RawKey}

  /** The full header names exactly the keys of the row dictionary. */
  lemma RowKeysAreCorrectedHeader()
    ensures Csv.FieldSet(CorrectedFieldnames) == RowKeys
  {
  }

  /** Every key of lines 59-69 paired with its value. */
  function RowCells(r: Record, env: Envelope, raw: string): (row: map<string, Cell>)
    ensures row.Keys == RowKeys
  {
    map[TypeKey := Tag(r.recordType),
        SourceKey := Text(r.source),
        TotalAmountKey := Decimal(TotalAmount.CalculateTotalAmount(r)),
        NoteKey := OptionalText(r.note),
        InboxDateKey := Json(env.internalDate),
        OperationDateKey := OptionalDate(r.operationDate),
        ApplicationDateKey := if r.recordType == Expense then OptionalDate(r.applicationDate) else Null,
        FromKey := Json(env.sender),
        RawKey := Text(raw)]
  }

  /** The cells lines 60-63, 65 and 66 take from the record. */
  lemma RecordCells(r: Record, env: Envelope, raw: string)
    ensures var row := RowCells(r, env, raw);
            && row[TypeKey] == Tag(r.recordType) && row[SourceKey] == Text(r.source)
            && row[TotalAmountKey] == Decimal(TotalAmount.CalculateTotalAmount(r))
            && row[NoteKey] == OptionalText(r.note) && row[OperationDateKey] == OptionalDate(r.operationDate)
            && row[ApplicationDateKey] == if r.recordType == Expense then OptionalDate(r.applicationDate) else Null
  {
  }

  /** The cells lines 64, 67 and 68 take from the envelope and the record's dump. */
  lemma EnvelopeCells(r: Record, env: Envelope, raw: string)
    ensures var row := RowCells(r, env, raw);
            row[InboxDateKey] == Json(env.internalDate) && row[FromKey] == Json(env.sender) && row[RawKey] == Text(raw)
  {
  }

  /** As written: the script's header rejects every row it builds, naming 'inbox_date' and 'from'. */
  lemma SourceHeaderRejectsEveryRow(r: Record, env: Envelope, raw: string)
    ensures Csv.WrongFields(Fieldnames, BuildRow(r, env, raw)) == ExtraKeys
    ensures Csv.DictToList(Fieldnames, BuildRow(r, env, raw), RestVal) == Failure(ExtraKeys)
  {
    var row := BuildRow(r, env, raw);
    RowKeysAreCorrectedHeader();
    assert InboxDateKey !in Fieldnames && FromKey !in Fieldnames;
    assert Csv.FieldSet(CorrectedFieldnames) == Csv.FieldSet(Fieldnames) + ExtraKeys;
  }

  /** Corrected: the full header accepts every built row, laid out in header order. */
  lemma CorrectedHeaderAcceptsEveryRow(r: Record, env: Envelope, raw: string)
    ensures Csv.DictToList(CorrectedFieldnames, BuildRow(r, env, raw), RestVal)
            == Success(Csv.ToLine(CorrectedFieldnames, BuildRow(r, env, raw), RestVal))
  {
    var row := BuildRow(r, env, raw);
    RowKeysAreCorrectedHeader();
  }

  /** Under the full header no cell falls back to the blank fill value: the line is the row's nine cells in header order. */
  lemma CorrectedLineColumns(r: Record, env: Envelope, raw: string)
    ensures Csv.ToLine(CorrectedFieldnames, BuildRow(r, env, raw), RestVal)
            == [Tag(r.recordType), Text(r.source), Decimal(TotalAmount.CalculateTotalAmount(r)),
                OptionalText(r.note), Json(env.internalDate), OptionalDate(r.operationDate),
                if r.recordType == Expense then OptionalDate(r.applicationDate) else Null,
                Json(env.sender), Text(raw)]
  {
    var row := BuildRow(r, env, raw);
    var line := Csv.ToLine(CorrectedFieldnames, row, RestVal);
    assert line[0] == row[TypeKey] by { assert CorrectedFieldnames[0] == TypeKey; }
    assert line[1] == row[SourceKey] by { assert CorrectedFieldnames[1] == SourceKey; }
    assert line[2] == row[TotalAmountKey] by { assert CorrectedFieldnames[2] == TotalAmountKey; }
    assert line[3] == row[NoteKey] by { assert CorrectedFieldnames[3] == NoteKey; }
    assert line[4] == row[InboxDateKey] by { assert CorrectedFieldnames[4] == InboxDateKey; }
    assert line[5] == row[OperationDateKey] by { assert CorrectedFieldnames[5] == OperationDateKey; }
    assert line[6] == row[ApplicationDateKey] by { assert CorrectedFieldnames[6] == ApplicationDateKey; }
    assert line[7] == row[FromKey] by { assert CorrectedFieldnames[7] == FromKey; }
    assert line[8] == row[RawKey] by { assert CorrectedFieldnames[8] == RawKey; }
  }
}
