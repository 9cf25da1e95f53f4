/**
 The database as a session sees it. `committed` is what other sessions read, `working`
 is the view inside the open transaction. The reference sequence and the supply of
 fresh row ids stand outside the transaction: no rollback gives a value back.
 */
module Database {
  import opened Wrappers
  import opened Tables

  datatype DbError = StatementFailed | CommitFailed

  class Session {
    var committed: Tables
    var working: Tables
    var sequence: nat
    var ids: nat
    var step: nat
    // What befalls the i-th statement.
    const faults: nat -> Fault

    constructor (tables: Tables, sequence: nat, ids: nat, faults: nat -> Fault)
      ensures committed == working == tables
      ensures this.sequence == sequence && this.ids == ids && step == 0 && this.faults == faults
    {
      committed, working := tables, tables;
      this.sequence, this.ids, step, this.faults := sequence, ids, 0, faults;
    }

    /** No statement from `from` up to `to` met a fault. */
    ghost predicate Clean(from: nat, to: nat) {
      forall i | from <= i < to :: faults(i) == Fine
    }

    lemma CleanStep(from: nat, to: nat)
      requires from <= to
      ensures Clean(from, to + 1) <==> Clean(from, to) && faults(to) == Fine
    {
    }

    method Begin()
      modifies this`working
      ensures working == committed
    {
      working := committed;
    }

    /** One statement or flush; what it does to the tables is up to the caller. */
    method Execute() returns (ok: bool)
      modifies this`step
      ensures step == old(step) + 1
      ensures ok <==> faults(old(step)) == Fine
    {
      ok := faults(step) == Fine;
      step := step + 1;
    }

    /** `SELECT nextval('alert_ref_seq')`. */
    method NextVal() returns (r: Result<nat, DbError>)
      modifies this`step, this`sequence
      ensures step == old(step) + 1
      ensures sequence == old(sequence) + if faults(old(step)) == FailBefore then 0 else 1
      ensures r == if faults(old(step)) == Fine then Success(sequence) else Failure(StatementFailed)
    {
      var fault := faults(step);
      step := step + 1;
      if fault == FailBefore {
        return Failure(StatementFailed);
      }
      sequence := sequence + 1;
      r := if fault == Fine then Success(sequence) else Failure(StatementFailed);
    }

    /** `uuid4()`: an id never handed out before. */
    method NewId() returns (id: nat)
      modifies this`ids
      ensures id == old(ids) && ids == old(ids) + 1
    {
      id := ids;
      ids := ids + 1;
    }

    method Commit() returns (ok: bool)
      modifies this`step, this`committed
      ensures step == old(step) + 1
      ensures ok <==> faults(old(step)) == Fine
      ensures committed == if faults(old(step)) == FailBefore then old(committed) else working
    {
      var fault := faults(step);
      step := step + 1;
      if fault != FailBefore {
        committed := working;
      }
      ok := fault == Fine;
    }
  }
}
