/**
 * The part of Python's `csv.DictWriter` the ledger relies on: with the
 * default `extrasaction='raise'`, a row whose keys are not all header
 * fields is refused with a ValueError before anything is written; otherwise
 * the row is laid out in header order, `restval` filling the fields the row
 * lacks. `csv.DictReader`'s zip of header and line is the inverse used to
 * state that nothing is lost.
 */
module Csv {
  import opened Wrappers

  function FieldSet(fieldnames: seq<string>): (fields: set<string>)
  {
    set f | f in fieldnames
  }

  /** The keys of `row` that the header does not name (`wrong_fields`). */
  function WrongFields<V>(fieldnames: seq<string>, row: map<string, V>): (wrong: set<string>)
    ensures wrong <= row.Keys
    ensures wrong == {} <==> row.Keys <= FieldSet(fieldnames)
    ensures forall k :: k in wrong ==> k !in fieldnames
    ensures forall k :: k in row && k !in fieldnames ==> k in wrong
  {
    var wrong := row.Keys - FieldSet(fieldnames);
    assert wrong == {} ==> row.Keys <= FieldSet(fieldnames) by {
      if wrong == {} {
        forall k | k in row.Keys ensures k in FieldSet(fieldnames) {
          assert k !in wrong;
        }
      }
    }
    wrong
  }

  /** `rowdict.get(key, restval)`. */
  function Get<V>(row: map<string, V>, key: string, restval: V): (cell: V)
  {
    if key in row then row[key] else restval
  }

  /** The cells of `row` in header order, one per header field. */
  function ToLine<V>(fieldnames: seq<string>, row: map<string, V>, restval: V): (line: seq<V>)
    ensures |line| == |fieldnames|
    ensures forall i :: 0 <= i < |fieldnames| ==> line[i] == Get(row, fieldnames[i], restval)
  {
    if fieldnames == [] then [] else [Get(row, fieldnames[0], restval)] + ToLine(fieldnames[1..], row, restval)
  }

  /** `_dict_to_list`: refuse a row with extra keys, otherwise lay it out. */
  function DictToList<V>(fieldnames: seq<string>, row: map<string, V>, restval: V): (r: Result<seq<V>, set<string>>)
    ensures r.Failure? <==> !(row.Keys <= FieldSet(fieldnames))
    ensures r.Failure? ==> r.error != {} && r.error == WrongFields(fieldnames, row)
    ensures r.Success? ==> |r.value| == |fieldnames| && r.value == ToLine(fieldnames, row, restval)
  {
    var wrong := WrongFields(fieldnames, row);
    if wrong != {} then Failure(wrong) else Success(ToLine(fieldnames, row, restval))
  }

  /** `dict(zip(fieldnames, line))` as `csv.DictReader` reads a line back; a later duplicate field wins. */
  function ReadLine<V>(fieldnames: seq<string>, line: seq<V>): (read: map<string, V>)
    requires |line| == |fieldnames|
    decreases |fieldnames|
  {
    if fieldnames == [] then map[]
    else
      var n := |fieldnames| - 1;
      ReadLine(fieldnames[..n], line[..n])[fieldnames[n] := line[n]]
  }

  /** The fields of a non-empty header are those of all but its last name, plus the last. */
  lemma FieldSetLast(fieldnames: seq<string>)
    requires fieldnames != []
    ensures FieldSet(fieldnames) == FieldSet(fieldnames[..|fieldnames| - 1]) + {fieldnames[|fieldnames| - 1]}
  {
    var n := |fieldnames| - 1;
    forall k | k in FieldSet(fieldnames) ensures k in FieldSet(fieldnames[..n]) + {fieldnames[n]} {
      var i :| 0 <= i <= n && fieldnames[i] == k;
      if i < n {
        assert fieldnames[..n][i] == k;
      }
    }
  }

  /** Reading a written line back gives every header field its cell from the row, or `restval`. */
  lemma {:induction false} ReadLineInvertsToLine<V>(fieldnames: seq<string>, row: map<string, V>, restval: V)
    ensures var read := ReadLine(fieldnames, ToLine(fieldnames, row, restval));
            read.Keys == FieldSet(fieldnames) &&
            forall k :: k in read ==> read[k] == Get(row, k, restval)
  {
    if fieldnames != [] {
      var n := |fieldnames| - 1;
      var line := ToLine(fieldnames, row, restval);
      assert line[..n] == ToLine(fieldnames[..n], row, restval) by {
        assert |line[..n]| == n;
      }
      ReadLineInvertsToLine(fieldnames[..n], row, restval);
      var before := ReadLine(fieldnames[..n], line[..n]);
      var read := ReadLine(fieldnames, line);
      assert read == before[fieldnames[n] := line[n]];
      FieldSetLast(fieldnames);
      forall k | k in read ensures read[k] == Get(row, k, restval) {
        if k != fieldnames[n] {
          assert k in before;
        }
      }
    }
  }

  /** A row the writer accepts can be read back from its line without loss. */
  lemma AcceptedRowRoundTrips<V>(fieldnames: seq<string>, row: map<string, V>, restval: V)
    requires DictToList(fieldnames, row, restval).Success?
    ensures var read := ReadLine(fieldnames, DictToList(fieldnames, row, restval).value);
            row.Keys <= read.Keys && forall k :: k in row ==> read[k] == row[k]
  {
    ReadLineInvertsToLine(fieldnames, row, restval);
  }

  /** The writer: its header, its fill value, and the data lines written so far (the header line is not modelled). */
  class DictWriter<V> {
    const fieldnames: seq<string>
    const restval: V
    var lines: seq<seq<V>>

    constructor (fieldnames: seq<string>, restval: V)
      ensures this.fieldnames == fieldnames && this.restval == restval
      ensures lines == []
    {
      this.fieldnames := fieldnames;
      this.restval := restval;
      lines := [];
    }

    /** `writerow`: appends the laid-out row, or raises (returns the wrong fields) and writes nothing. */
    method WriteRow(row: map<string, V>) returns (result: Result<seq<V>, set<string>>)
      modifies this
      ensures result == DictToList(fieldnames, row, restval)
      ensures lines == if result.Success? then old(lines) + [result.value] else old(lines)
    {
      result := DictToList(fieldnames, row, restval);
      if result.Success? {
        lines := lines + [result.value];
      }
    }
  }
}
