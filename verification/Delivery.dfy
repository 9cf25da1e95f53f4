/**
 Handling one message as a function: the calls of its processor, what they do to the
 database, and the answer the consumer loop gets.
 */
module Delivery {
  import opened Wrappers
  import opened Redis
  import opened Protocol
  import opened Tables
  import opened FraudDetector
  import Base = BaseConsumer
  import Decimal
  import Evaluation
  import DatabaseRuns

  const MESSAGE_TYPE: string := "transaction"

  function KeyFor(externalId: string): string {
    MakeKey(MESSAGE_TYPE, externalId)
  }

  // A message as the consumer sees it. Malformed text is not JSON, or not an object; a
  // payload whose data the request schema rejects has no request.
  datatype RawMessage =
    | Malformed
    | NoExternalId
    | Payload(externalId: string, request: Option<Request>)

  // The request keeps the external id of the payload it is made from.
  type Message = m: RawMessage |
    m.Payload? && m.request.Some? ==> m.request.value.externalId == m.externalId
    witness Malformed

  function DecisionName(d: Decision): string {
    match d
    case Approve => "approve"
    case Review => "review"
    case Flag => "flag"
  }

  /** The dictionary `_process_transaction` returns. */
  function ResultDict(r: Evaluation.EvaluationResult): Dict
    requires r.riskScore >= 0
  {
    var base := map[
      "transaction_id" := Decimal.Print(r.transactionId), "external_id" := r.externalId,
      "risk_score" := Decimal.Print(r.riskScore), "decision" := DecisionName(r.decision)];
    if r.alertId.Some? then base["alert_id" := Decimal.Print(r.alertId.value)] else base
  }

  // What an attempted evaluation comes to: it leaves nothing but used up sequence values
  // and ids, or it is committed, and then the caller is told its result or sees an error.
  datatype Work =
    | Fails(numbers: nat, ids: nat)
    | Lands(input: Evaluation.Input, told: bool)

  // One attempt at one message: the Redis calls it may make, and its evaluation.
  datatype Job = Job(
    externalId: string, check: Call, next: Call, duration: nat, work: Work, mark: Call, release: Call)

  datatype World = World(system: System, db: Evaluation.Db, next: nat)

  function FaultOf(work: Work): Fault {
    match work
    case Fails(_, _) => FailBefore
    case Lands(_, told) => if told then Fine else FailAfter
  }

  /** The result the marker will hold, if the evaluation tells one. */
  function TextOf(d: Evaluation.Db, work: Work): Dict {
    if work.Lands? && work.told then ResultDict(Evaluation.ResultOf(d, work.input)) else map[]
  }

  /** What an attempted evaluation does to the database. */
  function EvaluateOn(d: Evaluation.Db, work: Work): Evaluation.Db {
    match work
    case Fails(numbers, ids) => DatabaseRuns.Apply(d, DatabaseRuns.RolledBack(numbers, ids))
    case Lands(input, _) => DatabaseRuns.Apply(d, DatabaseRuns.Evaluation(input))
  }

  predicate InPhase(s: System, pid: nat, phase: Phase) {
    pid in s.processors && s.processors[pid].phase == phase
  }

  predicate HasEnded(s: System, pid: nat) {
    pid in s.processors && s.processors[pid].phase.Finished?
  }

  /** A Redis call of the processor. */
  function Calling(s: System, pid: nat, call: Call): System {
    Step(s, pid, call.elapsed, call.fault, map[])
  }

  /** Reading the marker; unless that fails, fetching the result or asking for the lock. */
  function Entered(s: System, pid: nat, check: Call, next: Call): System {
    var checked := Calling(s, pid, check);
    if HasEnded(checked, pid) then checked else Calling(checked, pid, next)
  }

  /** Marking, if the body ended well, and releasing the lock. */
  function Left(s: System, pid: nat, mark: Call, release: Call): System {
    Calling(if InPhase(s, pid, Marking) then Calling(s, pid, mark) else s, pid, release)
  }

  function Admitted(w: World, job: Job): System {
    Entered(Do(w.system, Start(w.next, MESSAGE_TYPE, job.externalId)), w.next, job.check, job.next)
  }

  function Worked(w: World, job: Job): System {
    Step(Admitted(w, job), w.next, job.duration, FaultOf(job.work), TextOf(w.db, job.work))
  }

  /** Enter the guard, evaluate if it lets the message through, leave the guard. */
  function Deliver(w: World, job: Job): World {
    if InPhase(Admitted(w, job), w.next, Evaluating)
    then World(Left(Worked(w, job), w.next, job.mark, job.release), EvaluateOn(w.db, job.work), w.next + 1)
    else World(Admitted(w, job), w.db, w.next + 1)
  }

  function DeliverAll(w: World, jobs: seq<Job>): World {
    if jobs == [] then w else Deliver(DeliverAll(w, jobs[..|jobs| - 1]), jobs[|jobs| - 1])
  }

  // ----- handling a message -----

  // How an evaluation would go: not at all, or with this score at these instants.
  datatype Trial =
    | NotMade(numbers: nat, ids: nat)
    | Made(score: Score, at: Evaluation.Instants, told: bool)

  // The circumstances of one call of `process`: those of the calls it makes, what an
  // exception would say, and after how many calls the consumer is killed, if it is.
  datatype Attempt = Attempt(
    check: Call, next: Call, duration: nat, trial: Trial, mark: Call, release: Call,
    error: string, killedAfter: Option<nat>)

  // What a call of `process` that returns normally stands for. A skip for a held lock
  // notes when it was told so and how much had happened by then.
  datatype Answer = Evaluated | MarkedDuplicate | LockHeldSkip(at: nat, logged: nat) | MissingId

  /** Invalid data is not evaluated. */
  function WorkFor(request: Option<Request>, trial: Trial): Work {
    match trial
    case NotMade(numbers, ids) => Fails(numbers, ids)
    case Made(score, at, told) =>
      if request.Some? then Lands(Evaluation.Input(request.value, score, at), told) else Fails(0, 0)
  }

  function JobFor(message: Message, a: Attempt): Job
    requires message.Payload?
  {
    Job(message.externalId, a.check, a.next, a.duration, WorkFor(message.request, a.trial), a.mark, a.release)
  }

  /** The delivery cut off after so many of its calls, the processor killed there. */
  function Interrupted(w: World, job: Job, calls: nat): World {
    var started := Do(w.system, Start(w.next, MESSAGE_TYPE, job.externalId));
    if calls == 0 then Slain(started, w.db, w.next)
    else if calls == 1 then Slain(Calling(started, w.next, job.check), w.db, w.next)
    else if calls == 2 || !InPhase(Admitted(w, job), w.next, Evaluating) then Slain(Admitted(w, job), w.db, w.next)
    else if calls == 3 then Slain(Worked(w, job), EvaluateOn(w.db, job.work), w.next)
    else if calls == 4 && InPhase(Worked(w, job), w.next, Marking) then
      Slain(Calling(Worked(w, job), w.next, job.mark), EvaluateOn(w.db, job.work), w.next)
    else Slain(Deliver(w, job).system, Deliver(w, job).db, w.next)
  }

  function Slain(s: System, d: Evaluation.Db, pid: nat): World {
    World(Do(s, Kill(pid)), d, pid + 1)
  }

  /** What the end of its processor tells the consumer loop. */
  function Reading(s: System, pid: nat, error: string): Base.Processing<Answer> {
    if InPhase(s, pid, Finished(Completed)) then Base.Ended(Evaluated)
    else if InPhase(s, pid, Finished(Duplicate)) then Base.Ended(MarkedDuplicate)
    else if InPhase(s, pid, Finished(LockHeld)) then Base.Ended(LockHeldSkip(s.now, |s.log|))
    else Base.Raised(error)
  }

  /** What a marker holds of an evaluation. */
  lemma ResultDictFields(d: Evaluation.Db, input: Evaluation.Input)
    ensures var dict, r := ResultDict(Evaluation.ResultOf(d, input)), Evaluation.ResultOf(d, input);
      && dict.Keys == {"transaction_id", "external_id", "risk_score", "decision"}
                      + (if input.score >= 40 then {"alert_id"} else {})
      && dict["external_id"] == input.request.externalId
      && dict["risk_score"] == Decimal.Print(input.score)
      && dict["transaction_id"] == Decimal.Print(r.transactionId)
      && dict["decision"] == (if input.score < 40 then "approve" else if input.score < 80 then "review" else "flag")
      && (input.score >= 40 ==> dict["alert_id"] == Decimal.Print(d.ids + 1))
  {
    assert "alert_id"[0] == 'a' && "transaction_id"[0] == 't' && "external_id"[0] == 'e';
    assert "risk_score"[0] == 'r' && "decision"[0] == 'd';
  }

  /** A message without id returns normally and touches nothing; malformed text raises and touches nothing. */
  lemma PlainMessages(w: World, message: Message, a: Attempt)
    requires !message.Payload? && a.killedAfter == None
    ensures Handled(w, message, a).0 == w
    ensures Handled(w, message, a).1.Ended? <==> message.NoExternalId?
    ensures message.Malformed? ==> Handled(w, message, a).1.Raised?
  {
  }

  /** `process`, as the consumer loop sees it. */
  function Handled(w: World, message: Message, a: Attempt): (World, Base.Processing<Answer>) {
    match message
    case Payload(_, _) =>
      if a.killedAfter.Some? then (Interrupted(w, JobFor(message, a), a.killedAfter.value), Base.Killed)
      else (Deliver(w, JobFor(message, a)), Reading(Deliver(w, JobFor(message, a)).system, w.next, a.error))
    case Malformed => (w, if a.killedAfter.Some? then Base.Killed else Base.Raised(a.error))
    case NoExternalId => (w, if a.killedAfter.Some? then Base.Killed else Base.Ended(MissingId))
  }

  /** A call is cut short exactly if the consumer is killed in it; a kill leaves the delivery interrupted there. */
  lemma KillsEndTheCall(w: World, message: Message, a: Attempt)
    ensures Handled(w, message, a).1 == Base.Killed <==> a.killedAfter.Some?
    ensures message.Payload? && a.killedAfter.Some? ==>
      Handled(w, message, a).0 == Interrupted(w, JobFor(message, a), a.killedAfter.value)
  {
  }
}
