/**
 * The per-email loop: read each email file, scrape its body, and either
 * write a ledger line, skip an account operation, or quarantine the body
 * under the email's id when anything inside the `try` raises. An error
 * while reading the file itself is not caught and ends the run.
 *
 * `Run` is the specification: a left fold of `Step` over the files in the
 * order they are enumerated. `ProcessEmails` is the loop, proved against it.
 */
module Batch {
  import opened Wrappers
  import opened Records
  import opened Email
  import opened Ledger
  import Csv

  /** The code the batch calls but does not contain: file decoding, the scraper, and the JSON dump of a record. */
  datatype Collaborators = Collaborators(
    decoders: Decoders,
    scrape: string -> Result<Record, string>,
    dumpRaw: Record -> Result<string, string>)

  /** The exceptions the `try` block catches. */
  datatype EmailError =
    | ScrapeError(message: string)
    | SerializationError(message: string)
    | ValueError(fields: set<string>)  // DictWriter's refusal of keys outside the header

  /** What the `try` block does with one email. */
  datatype Attempt = Written(line: seq<Cell>) | Skipped | Raised(error: EmailError)

  /** The scraper accepts the body, the record is kept, its dump succeeds and the header names every key of its row. */
  predicate Emittable(fieldnames: seq<string>, c: Collaborators, env: Envelope)
  {
    && c.scrape(env.body).Success?
    && IsLedgerRecord(c.scrape(env.body).value)
    && c.dumpRaw(c.scrape(env.body).value).Success?
    && BuildRow(c.scrape(env.body).value, env, c.dumpRaw(c.scrape(env.body).value).value).Keys
       <= Csv.FieldSet(fieldnames)
  }

  /** Lines 55-69: scrape, classify, build the row and write it. */
  function TryRecord(fieldnames: seq<string>, c: Collaborators, env: Envelope): (a: Attempt)
    ensures a.Skipped? <==> c.scrape(env.body).Success? && c.scrape(env.body).value.recordType == AccountOperation
    ensures a.Written? <==> Emittable(fieldnames, c, env)
    ensures a.Written? ==>
              var r := c.scrape(env.body).value;
              a.line == Csv.ToLine(fieldnames, BuildRow(r, env, c.dumpRaw(r).value), RestVal)
    ensures a.Raised? && a.error.ValueError? ==> a.error.fields != {} && a.error.fields !! Csv.FieldSet(fieldnames)
  {
    match c.scrape(env.body)
    case Failure(message) => Raised(ScrapeError(message))
    case Success(r) =>
      if !IsLedgerRecord(r) then Skipped
      else match c.dumpRaw(r)
        case Failure(message) => Raised(SerializationError(message))
        case Success(raw) =>
          match Csv.DictToList(fieldnames, BuildRow(r, env, raw), RestVal)
          case Failure(wrong) => Raised(ValueError(wrong))
          case Success(line) => Written(line)
  }

  /** What the run has produced so far: the data lines written, the quarantined bodies by email id, and the uncaught error, if any. */
  datatype RunState = RunState(lines: seq<seq<Cell>>, failures: map<JsonValue, string>, aborted: Option<EnvelopeError>)

  /** One iteration of the loop over a run that has not stopped, given what reading the email file gave. */
  function Step(fieldnames: seq<string>, c: Collaborators, s: RunState, decoded: Result<Envelope, EnvelopeError>): (next: RunState)
    requires s.aborted.None?
    ensures decoded.Failure? ==> next == s.(aborted := Some(decoded.error))
    ensures decoded.Success? ==>
              var env := decoded.value;
              var a := TryRecord(fieldnames, c, env);
              && next.aborted.None?
              && ((next.lines == s.lines && next.failures == s.failures && a.Skipped?)
                  || (next.lines == s.lines && next.failures == s.failures[env.id := env.body] && a.Raised?)
                  || (a.Written? && next.lines == s.lines + [a.line] && next.failures == s.failures))
  {
    match decoded
    case Failure(e) => s.(aborted := Some(e))
    case Success(env) => Apply(s, env, TryRecord(fieldnames, c, env))
  }

  /** What the outcome of the `try` block for `env` leaves in the run: a new line, a quarantined body, or nothing. */
  function Apply(s: RunState, env: Envelope, a: Attempt): (next: RunState)
  {
    match a
    case Written(line) => s.(lines := s.lines + [line])
    case Skipped => s
    case Raised(_) => s.(failures := s.failures[env.id := env.body])
  }

  /** The state after the loop has gone over `files`, stopping at the first unreadable one. */
  function Run(fieldnames: seq<string>, c: Collaborators, files: seq<string>): (s: RunState)
    ensures |s.lines| <= |files|
    ensures forall i :: 0 <= i < |s.lines| ==> |s.lines[i]| == |fieldnames|
    decreases |files|
  {
    if files == [] then RunState([], map[], None)
    else
      var before := Run(fieldnames, c, files[..|files| - 1]);
      if before.aborted.Some? then before
      else Step(fieldnames, c, before, DecodeEnvelope(c.decoders, files[|files| - 1]))
  }

  /** Lines 55-69, the `try` block for one readable email: the writer gains the attempt's line, if any, and the outcome is returned. */
  method TryEmail(writer: Csv.DictWriter<Cell>, c: Collaborators, env: Envelope) returns (attempt: Attempt)
    requires writer.restval == RestVal
    modifies writer
    ensures attempt == TryRecord(writer.fieldnames, c, env)
    ensures writer.lines == old(writer.lines) + (if attempt.Written? then [attempt.line] else [])
  {
    var scraped := c.scrape(env.body);
    if scraped.Failure? {
      attempt := Raised(ScrapeError(scraped.error));
    } else if !IsLedgerRecord(scraped.value) {
      attempt := Skipped;
    } else {
      var raw := c.dumpRaw(scraped.value);
      if raw.Failure? {
        attempt := Raised(SerializationError(raw.error));
      } else {
        var written := writer.WriteRow(BuildRow(scraped.value, env, raw.value));
        attempt := if written.Success? then Written(written.value) else Raised(ValueError(written.error));
      }
    }
  }

  /** One pass of the loop body (lines 48-72) over a run that has not stopped: the writer and the quarantine move as `Step` says. */
  method ProcessFile(writer: Csv.DictWriter<Cell>, c: Collaborators, ghost s: RunState, ghost written: seq<seq<Cell>>,
                     failures: map<JsonValue, string>, decoded: Result<Envelope, EnvelopeError>)
      returns (failures': map<JsonValue, string>, aborted: Option<EnvelopeError>)
    requires writer.restval == RestVal && s.aborted.None?
    requires writer.lines == written + s.lines && failures == s.failures
    modifies writer
    ensures var next := Step(writer.fieldnames, c, s, decoded);
            writer.lines == written + next.lines && failures' == next.failures && aborted == next.aborted
  {
    failures', aborted := failures, None;
    if decoded.Failure? {
      aborted := Some(decoded.error);
    } else {
      var env := decoded.value;
      var attempt := TryEmail(writer, c, env);
      if attempt.Raised? {
        failures' := failures[env.id := env.body];
      }
    }
  }

  /** Lines 47-74 over an open writer: its lines grow as `Run` says; the quarantine and the uncaught error are returned. */
  method ProcessEmails(writer: Csv.DictWriter<Cell>, c: Collaborators, files: seq<string>)
      returns (failures: map<JsonValue, string>, aborted: Option<EnvelopeError>)
    requires writer.restval == RestVal
    modifies writer
    ensures var s := Run(writer.fieldnames, c, files);
            writer.lines == old(writer.lines) + s.lines && failures == s.failures && aborted == s.aborted
  {
    failures, aborted := map[], None;
    var i := 0;
    while i < |files| && aborted.None?
      invariant 0 <= i <= |files|
      invariant var s := Run(writer.fieldnames, c, files[..i]);
                writer.lines == old(writer.lines) + s.lines && failures == s.failures && aborted == s.aborted
    {
      ghost var before := Run(writer.fieldnames, c, files[..i]);
      var decoded := DecodeEnvelope(c.decoders, files[i]);
      assert Run(writer.fieldnames, c, files[..i + 1]) == Step(writer.fieldnames, c, before, decoded) by {
        assert files[..i + 1][..i] == files[..i];
      }
      failures, aborted := ProcessFile(writer, c, before, old(writer.lines), failures, decoded);
      i := i + 1;
    }
    if aborted.Some? {
      AbortIsFinal(writer.fieldnames, c, files, i);
    } else {
      assert files[..i] == files;
    }
  }

  /** Lines 33-45 and 76: open a writer on the full header and run the loop over every email file. */
  method ConvertRecords(c: Collaborators, files: seq<string>)
      returns (lines: seq<seq<Cell>>, failures: map<JsonValue, string>, aborted: Option<EnvelopeError>)
    ensures var s := Run(CorrectedFieldnames, c, files);
            lines == s.lines && failures == s.failures && aborted == s.aborted
  {
    var writer := new Csv.DictWriter(CorrectedFieldnames, RestVal);
    failures, aborted := ProcessEmails(writer, c, files);
    lines := writer.lines;
  }

  /** An uncaught error ends the run: the files after it change nothing. */
  lemma {:induction false} AbortIsFinal(fieldnames: seq<string>, c: Collaborators, files: seq<string>, k: nat)
    requires k <= |files|
    requires Run(fieldnames, c, files[..k]).aborted.Some?
    ensures Run(fieldnames, c, files) == Run(fieldnames, c, files[..k])
  {
    if k == |files| {
      assert files[..k] == files;
    } else {
      var init := files[..|files| - 1];
      assert init[..k] == files[..k];
      AbortIsFinal(fieldnames, c, init, k);
    }
  }

  /** A scraped account operation leaves no line and no quarantine entry. */
  lemma AccountOperationLeavesNoTrace(fieldnames: seq<string>, c: Collaborators, s: RunState, file: string)
    requires s.aborted.None?
    requires DecodeEnvelope(c.decoders, file).Success?
    requires var body := DecodeEnvelope(c.decoders, file).value.body;
             c.scrape(body).Success? && c.scrape(body).value.recordType == AccountOperation
    ensures Step(fieldnames, c, s, DecodeEnvelope(c.decoders, file)) == s
  {
  }

  /** As written: under the script's header the `try` block never writes; every kept record raises. */
  lemma SourceNeverWrites(c: Collaborators, env: Envelope)
    ensures !TryRecord(Fieldnames, c, env).Written?
    ensures c.scrape(env.body).Success? && IsLedgerRecord(c.scrape(env.body).value) ==>
              TryRecord(Fieldnames, c, env).Raised?
  {
    if c.scrape(env.body).Success? && IsLedgerRecord(c.scrape(env.body).value) {
      var r := c.scrape(env.body).value;
      if c.dumpRaw(r).Success? {
        SourceHeaderRejectsEveryRow(r, env, c.dumpRaw(r).value);
      }
    }
  }

  /** As written: a run under the script's header writes no data line at all. */
  lemma {:induction false} SourceRunWritesNoLines(c: Collaborators, files: seq<string>)
    ensures Run(Fieldnames, c, files).lines == []
  {
    if files != [] {
      var init := files[..|files| - 1];
      SourceRunWritesNoLines(c, init);
      var decoded := DecodeEnvelope(c.decoders, files[|files| - 1]);
      if decoded.Success? {
        SourceNeverWrites(c, decoded.value);
      }
    }
  }

  /** Email `file` was read, raised inside the `try`, and was quarantined under `id` with `body`. */
  predicate Quarantined(fieldnames: seq<string>, c: Collaborators, file: string, id: JsonValue, body: string)
  {
    && DecodeEnvelope(c.decoders, file).Success?
    && DecodeEnvelope(c.decoders, file).value.id == id
    && DecodeEnvelope(c.decoders, file).value.body == body
    && TryRecord(fieldnames, c, DecodeEnvelope(c.decoders, file).value).Raised?
  }

  /** Every entry of `failures` is the body of one of `files` that was quarantined under that id. */
  predicate FailuresTraced(fieldnames: seq<string>, c: Collaborators, files: seq<string>, failures: map<JsonValue, string>)
  {
    forall id :: id in failures ==>
      exists j :: 0 <= j < |files| && Quarantined(fieldnames, c, files[j], id, failures[id])
  }

  /** Every quarantine entry is the decoded body of an input email with that id that raised. */
  lemma {:induction false} FailuresComeFromInputs(fieldnames: seq<string>, c: Collaborators, files: seq<string>)
    ensures FailuresTraced(fieldnames, c, files, Run(fieldnames, c, files).failures)
  {
    if files != [] {
      var n := |files| - 1;
      FailuresComeFromInputs(fieldnames, c, files[..n]);
      var before := Run(fieldnames, c, files[..n]);
      if before.aborted.None? {
        StepTracesFailures(fieldnames, c, files[..n], before, files[n]);
      }
      assert files == files[..n] + [files[n]];
    }
  }

  /** One more email keeps every quarantine entry traced to an input. */
  lemma StepTracesFailures(fieldnames: seq<string>, c: Collaborators, init: seq<string>, before: RunState, file: string)
    requires before.aborted.None? && FailuresTraced(fieldnames, c, init, before.failures)
    ensures FailuresTraced(fieldnames, c, init + [file], Step(fieldnames, c, before, DecodeEnvelope(c.decoders, file)).failures)
  {
    var files := init + [file];
    var failures := Step(fieldnames, c, before, DecodeEnvelope(c.decoders, file)).failures;
    forall id | id in failures
      ensures exists j :: 0 <= j < |files| && Quarantined(fieldnames, c, files[j], id, failures[id])
    {
      if id in before.failures && failures[id] == before.failures[id] {
        var j :| 0 <= j < |init| && Quarantined(fieldnames, c, init[j], id, before.failures[id]);
        assert files[j] == init[j];
      } else {
        assert files[|init|] == file;
      }
    }
  }

  /** Quarantine entries are never removed by later emails. */
  lemma {:induction false} FailureIdsPersist(fieldnames: seq<string>, c: Collaborators, files: seq<string>, k: nat)
    requires k <= |files|
    ensures Run(fieldnames, c, files[..k]).failures.Keys <= Run(fieldnames, c, files).failures.Keys
  {
    if k < |files| {
      var init := files[..|files| - 1];
      assert init[..k] == files[..k];
      FailureIdsPersist(fieldnames, c, init, k);
    } else {
      assert files[..k] == files;
    }
  }

  /** An email that was reached and raised inside the `try` ends up quarantined under its id; processing went on past it. */
  lemma RaisedEmailIsQuarantined(fieldnames: seq<string>, c: Collaborators, files: seq<string>, j: nat)
    requires j < |files|
    requires Run(fieldnames, c, files[..j]).aborted.None?
    requires DecodeEnvelope(c.decoders, files[j]).Success?
    requires TryRecord(fieldnames, c, DecodeEnvelope(c.decoders, files[j]).value).Raised?
    ensures DecodeEnvelope(c.decoders, files[j]).value.id in Run(fieldnames, c, files).failures
    ensures Run(fieldnames, c, files[..j + 1]).aborted.None?
  {
    assert files[..j + 1][..j] == files[..j];
    FailureIdsPersist(fieldnames, c, files, j + 1);
  }

  /** Reference: the line a readable email should yield under the full header, if its record is kept and dumps. */
  function LedgerLine(c: Collaborators, file: string): (lines: seq<seq<Cell>>)
  {
    match DecodeEnvelope(c.decoders, file)
    case Failure(_) => []
    case Success(env) =>
      match c.scrape(env.body)
      case Failure(_) => []
      case Success(r) =>
        if r.recordType == AccountOperation then []
        else match c.dumpRaw(r)
          case Failure(_) => []
          case Success(raw) => [Csv.ToLine(CorrectedFieldnames, BuildRow(r, env, raw), RestVal)]
  }

  /** Reference: the ledger lines of `files`, in input order. */
  function LedgerLines(c: Collaborators, files: seq<string>): (lines: seq<seq<Cell>>)
    decreases |files|
  {
    if files == [] then [] else LedgerLines(c, files[..|files| - 1]) + LedgerLine(c, files[|files| - 1])
  }

  /** Under the full header, a run that reads `file` appends exactly that email's ledger line, if any. */
  lemma CorrectedStepWritesLedgerLine(c: Collaborators, s: RunState, file: string)
    requires s.aborted.None? && Step(CorrectedFieldnames, c, s, DecodeEnvelope(c.decoders, file)).aborted.None?
    ensures Step(CorrectedFieldnames, c, s, DecodeEnvelope(c.decoders, file)).lines == s.lines + LedgerLine(c, file)
  {
    var env := DecodeEnvelope(c.decoders, file).value;
    var scraped := c.scrape(env.body);
    if scraped.Success? && IsLedgerRecord(scraped.value) && c.dumpRaw(scraped.value).Success? {
      CorrectedHeaderAcceptsEveryRow(scraped.value, env, c.dumpRaw(scraped.value).value);
    }
  }

  /** Corrected: a completed run under the full header writes exactly the ledger lines, one per kept email, in order. */
  lemma {:induction false} CorrectedRunWritesEveryLedgerEmail(c: Collaborators, files: seq<string>)
    requires Run(CorrectedFieldnames, c, files).aborted.None?
    ensures Run(CorrectedFieldnames, c, files).lines == LedgerLines(c, files)
  {
    if files != [] {
      var init := files[..|files| - 1];
      CorrectedRunWritesEveryLedgerEmail(c, init);
      CorrectedStepWritesLedgerLine(c, Run(CorrectedFieldnames, c, init), files[|files| - 1]);
    }
  }
}
