/** Storing transactions: one row per external id, and the first write wins. */
module TransactionRepository {
  import opened Wrappers
  import opened Tables
  import opened Database

  function Find(rows: seq<Transaction>, externalId: string): (r: Option<Transaction>)
    ensures r.Some? ==> r.value in rows && r.value.externalId == externalId
    ensures r.None? ==> forall t | t in rows :: t.externalId != externalId
  {
    if rows == [] then None
    else if rows[0].externalId == externalId then Some(rows[0])
    else Find(rows[1..], externalId)
  }

  function NewRow(request: Request, id: nat, received: int): Transaction {
    Transaction(id, request.externalId, request.details,
                if request.transactionTime.Some? then request.transactionTime.value else received)
  }

  /** The row that stands for the request after the upsert. */
  function UpsertedRow(rows: seq<Transaction>, request: Request, id: nat, received: int): Transaction {
    var existing := Find(rows, request.externalId);
    if existing.Some? then existing.value else NewRow(request, id, received)
  }

  /** INSERT .. ON CONFLICT (external_id) DO UPDATE SET external_id = external_id. */
  function UpsertRows(rows: seq<Transaction>, request: Request, id: nat, received: int): seq<Transaction> {
    if Find(rows, request.externalId).Some? then rows else rows + [NewRow(request, id, received)]
  }

  predicate UniqueExternalIds(rows: seq<Transaction>) {
    forall i, j | 0 <= i < j < |rows| :: rows[i].externalId != rows[j].externalId
  }

  lemma {:induction false} FindAppend(rows: seq<Transaction>, row: Transaction, externalId: string)
    ensures Find(rows + [row], externalId) ==
            if Find(rows, externalId).Some? then Find(rows, externalId)
            else if row.externalId == externalId then Some(row) else None
  {
    if rows != [] {
      assert (rows + [row])[1..] == rows[1..] + [row];
      FindAppend(rows[1..], row, externalId);
    } else {
      assert ([row] + [])[1..] == [];
    }
  }

  /** One upsert: the answer is now the stored row, every other external id keeps its own. */
  lemma UpsertStep(rows: seq<Transaction>, request: Request, id: nat, received: int)
    requires UniqueExternalIds(rows)
    ensures var after := UpsertRows(rows, request, id, received);
      && UniqueExternalIds(after)
      && Find(after, request.externalId) == Some(UpsertedRow(rows, request, id, received))
      && (forall e | Find(rows, e).Some? :: Find(after, e) == Find(rows, e))
      && (forall e | e != request.externalId :: Find(after, e) == Find(rows, e))
  {
    var row := NewRow(request, id, received);
    forall e
      ensures Find(rows + [row], e) == if Find(rows, e).Some? then Find(rows, e)
                                       else if row.externalId == e then Some(row) else None
    {
      FindAppend(rows, row, e);
    }
  }

  /** The columns of the row a first write makes: those of the request, with the time of receipt if it has none. */
  lemma FirstWriteFields(rows: seq<Transaction>, request: Request, id: nat, received: int)
    requires forall t | t in rows :: t.externalId != request.externalId
    ensures var after := UpsertRows(rows, request, id, received);
      && |after| == |rows| + 1 && after[..|rows|] == rows
      && var row := after[|rows|];
         && row == UpsertedRow(rows, request, id, received)
         && row.id == id && row.externalId == request.externalId
         && row.details.customerId == request.details.customerId && row.details.columns == request.details.columns
         && row.transactionTime == match request.transactionTime case Some(time) => time case None => received
  {
  }

  datatype Write = Write(request: Request, id: nat, received: int)

  function UpsertAll(rows: seq<Transaction>, writes: seq<Write>): seq<Transaction> {
    if writes == [] then rows
    else
      var w := writes[|writes| - 1];
      UpsertRows(UpsertAll(rows, writes[..|writes| - 1]), w.request, w.id, w.received)
  }

  /** The first write for an external id, if any. */
  function FirstWrite(writes: seq<Write>, externalId: string): Option<Write> {
    if writes == [] then None
    else if writes[0].request.externalId == externalId then Some(writes[0])
    else FirstWrite(writes[1..], externalId)
  }

  lemma {:induction false} FirstWriteAppend(writes: seq<Write>, w: Write, externalId: string)
    ensures FirstWrite(writes + [w], externalId) ==
            if FirstWrite(writes, externalId).Some? then FirstWrite(writes, externalId)
            else if w.request.externalId == externalId then Some(w) else None
  {
    if writes != [] {
      assert (writes + [w])[1..] == writes[1..] + [w];
      FirstWriteAppend(writes[1..], w, externalId);
    } else {
      assert ([w] + [])[1..] == [];
    }
  }

  /**
   After any sequence of upserts external ids are unique, and each external id is
   answered with the row its first write made: same id, same fields.
   */
  lemma {:induction false} FirstWriteWins(writes: seq<Write>)
    ensures UniqueExternalIds(UpsertAll([], writes))
    ensures forall e :: Find(UpsertAll([], writes), e) ==
                        var first := FirstWrite(writes, e);
                        if first.None? then None
                        else Some(NewRow(first.value.request, first.value.id, first.value.received))
  {
    if writes != [] {
      var earlier, w := writes[..|writes| - 1], writes[|writes| - 1];
      assert writes == earlier + [w];
      FirstWriteWins(earlier);
      UpsertStep(UpsertAll([], earlier), w.request, w.id, w.received);
      forall e
        ensures FirstWrite(writes, e) == if FirstWrite(earlier, e).Some? then FirstWrite(earlier, e)
                                         else if w.request.externalId == e then Some(w) else None
      {
        FirstWriteAppend(earlier, w, e);
      }
    }
  }

  class Repository {
    const session: Session

    constructor (session: Session)
      ensures this.session == session
    {
      this.session := session;
    }

    method Upsert(request: Request, received: int) returns (r: Result<Transaction, DbError>)
      modifies session`working, session`ids, session`step
      ensures session.step > old(session.step) && session.ids == old(session.ids) + 1
      ensures r.Success? <==> session.Clean(old(session.step), session.step)
      ensures r.Success? ==>
        && r.value == UpsertedRow(old(session.working.transactions), request, old(session.ids), received)
        && session.working == old(session.working).(transactions :=
             UpsertRows(old(session.working.transactions), request, old(session.ids), received))
    {
      var id := session.NewId();
      var ok := session.Execute();
      if !ok { return Failure(StatementFailed); }
      var rows := session.working.transactions;
      var existing := Find(rows, request.externalId);
      var row;
      if existing.Some? {
        row := existing.value;
      } else {
        row := NewRow(request, id, received);
        session.working := session.working.(transactions := rows + [row]);
      }
      ok := session.Execute();
      if !ok { return Failure(StatementFailed); }
      r := Success(row);
    }
  }
}
