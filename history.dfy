/** The `reports` table of web_app.py and the functions that read and
    change it. The SQLite table becomes a sequence of records in rowid order
    plus the AUTOINCREMENT counter; the connection, commits and durability
    are not modelled. */
module History {

  /** One row of `reports`: (id, name, age, gender, heart, diabetes, hyper,
      score, date). `date` is the already formatted timestamp. */
  datatype Record = Record(
    id: int, name: string, age: int, gender: string,
    heart: real, diabetes: real, hyper: real,
    score: real, date: string)

  /** Rows are kept in insertion order, which is ascending id order. */
  predicate IdsAscending(recs: seq<Record>)
  {
    forall i, j :: 0 <= i < j < |recs| ==> recs[i].id < recs[j].id
  }

  /** Some row carries this patient name. */
  predicate HasPatient(recs: seq<Record>, name: string)
  {
    exists i :: 0 <= i < |recs| && recs[i].name == name
  }

  predicate NoDuplicates(names: seq<string>)
  {
    forall i, j :: 0 <= i < j < |names| ==> names[i] != names[j]
  }

  /** `SELECT * FROM reports WHERE name=?`: the rows of one patient, in
      table order. */
  function ForPatient(recs: seq<Record>, name: string): (out: seq<Record>)
    ensures forall r :: r in out <==> r in recs && r.name == name
    ensures |out| <= |recs|
    ensures IdsAscending(recs) ==> IdsAscending(out)
  {
    if recs == [] then []
    else if recs[0].name == name then
      var rest := ForPatient(recs[1..], name);
      assert forall r :: r in rest ==> r in recs[1..];
      [recs[0]] + rest
    else ForPatient(recs[1..], name)
  }

  /** The distinct patient names of the table, each at its first
      occurrence. The query promises only that every stored name comes back
      once and that no other name comes back. */
  function DistinctNames(recs: seq<Record>): (names: seq<string>)
    ensures forall n :: n in names <==> HasPatient(recs, n)
    ensures NoDuplicates(names)
    ensures |names| <= |recs|
  {
    if recs == [] then []
    else
      var init := recs[..|recs| - 1];
      var rest := DistinctNames(init);
      var last := recs[|recs| - 1].name;
      assert forall n :: HasPatient(recs, n) <==> HasPatient(init, n) || n == last by {
        forall n ensures HasPatient(recs, n) ==> HasPatient(init, n) || n == last {
          if HasPatient(recs, n) {
            var i :| 0 <= i < |recs| && recs[i].name == n;
            if i < |recs| - 1 { assert init[i] == recs[i]; }
          }
        }
        forall n ensures HasPatient(init, n) ==> HasPatient(recs, n) {
          if HasPatient(init, n) {
            var i :| 0 <= i < |init| && init[i].name == n;
            assert recs[i] == init[i];
          }
        }
      }
      if last in rest then rest else rest + [last]
  }

  /** The table after `DELETE FROM reports WHERE name=?`: every other row,
      in table order. */
  function Without(recs: seq<Record>, name: string): (out: seq<Record>)
    ensures forall r :: r in out <==> r in recs && r.name != name
    ensures |out| <= |recs|
    ensures IdsAscending(recs) ==> IdsAscending(out)
  {
    if recs == [] then []
    else if recs[0].name != name then
      var rest := Without(recs[1..], name);
      assert forall r :: r in rest ==> r in recs[1..];
      [recs[0]] + rest
    else Without(recs[1..], name)
  }

  /** Appending a row adds it to the end of its own patient's history and
      leaves every other patient's history as it was. */
  lemma {:induction false} ForPatientAppend(recs: seq<Record>, r: Record, name: string)
    ensures ForPatient(recs + [r], name)
         == ForPatient(recs, name) + (if r.name == name then [r] else [])
  {
    if recs == [] {
      assert recs + [r] == [r];
    } else {
      assert (recs + [r])[1..] == recs[1..] + [r];
      ForPatientAppend(recs[1..], r, name);
    }
  }

  /** After deleting a patient, that patient has no history. */
  lemma DeletedPatientHasNoHistory(recs: seq<Record>, name: string)
    ensures ForPatient(Without(recs, name), name) == []
  {
  }

  /** Deleting one patient leaves every other patient's history unchanged,
      order included. */
  lemma {:induction false} DeleteKeepsOthers(recs: seq<Record>, name: string, other: string)
    requires other != name
    ensures ForPatient(Without(recs, name), other) == ForPatient(recs, other)
  {
    if recs != [] {
      DeleteKeepsOthers(recs[1..], name, other);
    }
  }

  /** Deleting a patient removes exactly that patient's rows: the rows kept
      and the rows removed add up to the table. */
  lemma {:induction false} DeletePartitions(recs: seq<Record>, name: string)
    ensures |Without(recs, name)| + |ForPatient(recs, name)| == |recs|
  {
    if recs != [] {
      DeletePartitions(recs[1..], name);
    }
  }

  /** The `reports` table. `records` is the table in rowid order and
      `nextId` the AUTOINCREMENT counter: the id the next insert receives.
      Deletions never lower the counter, so ids are never reused. */
  class HistoryStore {
    var records: seq<Record>
    var nextId: int

    ghost predicate Valid()
      reads this
    {
      && 1 <= nextId
      && IdsAscending(records)
      && (forall i :: 0 <= i < |records| ==> 1 <= records[i].id < nextId)
    }

    /** `CREATE TABLE IF NOT EXISTS reports` on a fresh database. */
    constructor ()
      ensures Valid()
      ensures records == [] && nextId == 1
    {
      records := [];
      nextId := 1;
    }

    /** `save_report`: insert one row with a fresh id and the given values;
        the timestamp is a parameter. */
    method SaveReport(name: string, age: int, gender: string,
                      h: real, d: real, hy: real, score: real, date: string)
      requires Valid()
      modifies this
      ensures Valid()
      ensures records == old(records) + [Record(old(nextId), name, age, gender, h, d, hy, score, date)]
      ensures forall r :: r in old(records) ==> r.id < records[|records| - 1].id
      ensures nextId == old(nextId) + 1
    {
      records := records + [Record(nextId, name, age, gender, h, d, hy, score, date)];
      nextId := nextId + 1;
    }

    /** `get_all_patients`: `SELECT DISTINCT name FROM reports`. */
    method GetAllPatients() returns (names: seq<string>)
      ensures forall n :: n in names <==> HasPatient(records, n)
      ensures NoDuplicates(names)
      ensures |names| <= |records|
    {
      names := DistinctNames(records);
    }

    /** `get_history(name)`: every row of that patient, in table order. */
    method GetHistory(name: string) returns (hist: seq<Record>)
      ensures hist == ForPatient(records, name)
    {
      hist := ForPatient(records, name);
    }

    /** `delete_patient(name)`: remove every row of that patient. */
    method DeletePatient(name: string)
      requires Valid()
      modifies this
      ensures Valid()
      ensures records == Without(old(records), name)
      ensures nextId == old(nextId)
    {
      records := Without(records, name);
    }

    /** `delete_all`: empty the table; the AUTOINCREMENT counter survives. */
    method DeleteAll()
      requires Valid()
      modifies this
      ensures Valid()
      ensures records == [] && nextId == old(nextId)
    {
      records := [];
    }
  }
}
