/**
 Kafka, Redis and the database together: the consumer loop over a log of messages whose
 `process` is the handling of one message, with everything that can fail in any of them,
 kills anywhere and any number of restarts.
 */
module Pipeline {
  import opened Wrappers
  import opened Redis
  import opened Protocol
  import opened ChargedDuplicates
  import opened SingleConsumer
  import opened CommitOrigins
  import opened TransactionRepository
  import opened DatabaseRuns
  import opened Delivery
  import opened TransactionConsumer
  import opened AlertAccounting
  import Deduplication
  import Evaluation
  import Base = BaseConsumer

  // ----- handling a message is a joint run, killed or not -----

  lemma SlayMoves(o: Joint, moves: seq<Move>, w: Joint, pid: nat, input: Evaluation.Input) returns (later: seq<Move>)
    requires Leads(o, moves, w, pid)
    ensures Rests(o, later, Slain(w.system, w.db, pid))
  {
    var m := Consuming(Kill(pid), input, 0, 0);
    var t := Do(w.system, Kill(pid));
    later := moves + [m];
    Halves(o, moves);
    AppendMove(o, moves, m);
    RunAppend(o.system, ActionsOf(moves), m.action);
    forall p ensures !Underway(t, p) {
      KeyStays(w.system, m.action, p);
      if p != pid {
        OneProcessorMoves(w.system, m.action, p);
        assert !Underway(w.system, p);
      }
    }
    SoloAppend(o.system, ActionsOf(moves), m.action);
    forall p | p in t.processors ensures p <= pid {
      KeyStays(w.system, m.action, p);
    }
    assert Apply(w.db, RolledBack(0, 0)) == w.db;
  }

  /** The cases in which the processor is killed before its work. */
  lemma KilledEarlyMoves(o: Joint, moves: seq<Move>, w: World, job: Job, calls: nat, input: Evaluation.Input)
    returns (later: seq<Move>)
    requires Rests(o, moves, w) && calls <= 1
    ensures Rests(o, later, Interrupted(w, job, calls))
  {
    var started := Do(w.system, Start(w.next, MESSAGE_TYPE, job.externalId));
    later := StartMoves(o, moves, w, job.externalId, input);
    hide Leads, Rests, Do, Protocol.Step;
    if calls == 0 {
      later := SlayMoves(o, later, Joint(started, w.db), w.next, input);
    } else {
      later := CallMoves(o, later, Joint(started, w.db), w.next, job.check, input);
      later := SlayMoves(o, later, Joint(Calling(started, w.next, job.check), w.db), w.next, input);
    }
  }

  lemma InterruptedMoves(o: Joint, moves: seq<Move>, w: World, job: Job, calls: nat, input: Evaluation.Input)
    returns (later: seq<Move>)
    requires Rests(o, moves, w) && FittingJob(job) && (job.work.Lands? ==> input == job.work.input)
    ensures Rests(o, later, Interrupted(w, job, calls))
  {
    hide Leads, Rests, Admitted, Protocol.Step, Left, EvaluateOn, KeyFor, Do;
    if calls <= 1 {
      later := KilledEarlyMoves(o, moves, w, job, calls, input);
      return;
    }
    var pid, admitted, worked := w.next, Admitted(w, job), Worked(w, job);
    later := AdmitMoves(o, moves, w, job, input);
    if calls == 2 || !InPhase(admitted, pid, Evaluating) {
      later := SlayMoves(o, later, Joint(admitted, w.db), pid, input);
    } else if calls == 3 {
      later := WorkMoves(o, later, Joint(admitted, w.db), pid, job.duration, job.work, input);
      later := SlayMoves(o, later, Joint(worked, EvaluateOn(w.db, job.work)), pid, input);
    } else if calls == 4 && InPhase(worked, pid, Marking) {
      later := WorkMoves(o, later, Joint(admitted, w.db), pid, job.duration, job.work, input);
      later := CallMoves(o, later, Joint(worked, EvaluateOn(w.db, job.work)), pid, job.mark, input);
      later := SlayMoves(o, later, Joint(Calling(worked, pid, job.mark), EvaluateOn(w.db, job.work)), pid, input);
    } else {
      later := FinishMoves(o, later, Joint(admitted, w.db), pid, job, input);
      later := SlayMoves(o, later, Joint(Left(worked, pid, job.mark, job.release), EvaluateOn(w.db, job.work)),
          pid, input);
    }
  }

  /** Some joint run of this consumer alone leads here, with no message in hand. */
  ghost predicate Reached(o: Joint, w: World) {
    exists moves :: Rests(o, moves, w)
  }

  lemma HandlingReaches(o: Joint, w: World, message: Message, a: Attempt)
    requires Reached(o, w)
    ensures Reached(o, Handled(w, message, a).0)
  {
    var moves :| Rests(o, moves, w);
    hide Rests, Deliver, Interrupted;
    if message.Payload? {
      var job := JobFor(message, a);
      var other: Evaluation.Input :| true;
      var input := if job.work.Lands? then job.work.input else other;
      var later;
      if a.killedAfter.Some? {
        later := InterruptedMoves(o, moves, w, job, a.killedAfter.value, input);
      } else {
        later := DeliverMoves(o, moves, w, job, input);
      }
    }
  }

  // ----- what holds wherever the consumer got to -----

  /** A database and a Redis nothing has happened to yet; other callers may have stored rows. */
  ghost predicate Beginning(o: Joint) {
    Initial(o.system) && UniqueExternalIds(o.db.tables.transactions)
  }

  predicate IsStored(d: Evaluation.Db, externalId: string) {
    Find(d.tables.transactions, externalId).Some?
  }

  /** An evaluation of the transaction was committed, and its row is there. */
  ghost predicate Processed(w: World, externalId: string) {
    HasCommit(w.system.log, KeyFor(externalId)) && IsStored(w.db, externalId)
  }

  lemma {:induction false} EvaluatedIsStored(d: Evaluation.Db, steps: seq<DatabaseRuns.Step>, externalId: string)
    requires UniqueExternalIds(d.tables.transactions)
    ensures UniqueExternalIds(Replay(d, steps).tables.transactions)
    ensures EvaluationsOf(steps, externalId) > 0 ==> IsStored(Replay(d, steps), externalId)
  {
    if steps != [] {
      var earlier, s := Replay(d, steps[..|steps| - 1]), steps[|steps| - 1];
      EvaluatedIsStored(d, steps[..|steps| - 1], externalId);
      if s.Evaluation? {
        UpsertStep(earlier.tables.transactions, s.input.request, earlier.ids, s.input.at.received);
        assert Evaluation.Evaluated(earlier, s.input).tables.transactions
            == UpsertRows(earlier.tables.transactions, s.input.request, earlier.ids, s.input.at.received);
      }
    }
  }

  lemma WhereReached(o: Joint, w: World, externalId: string)
    requires Beginning(o) && Reached(o, w)
    ensures var key := KeyFor(externalId);
      && Founded(w.system, key) && LocksExplained(w.system, key) && Idle(w.system)
      && (HasCommit(w.system.log, key) ==> IsStored(w.db, externalId))
      && UniqueExternalIds(w.db.tables.transactions)
      && w.next !in w.system.processors
  {
    var key := KeyFor(externalId);
    var moves :| Rests(o, moves, w);
    NextIsFree(o, moves, w);
    MadeKeysAreMarkers(MESSAGE_TYPE, externalId);
    Halves(o, moves);
    hide Run, Replay, IsStored;
    AlwaysFounded(o.system, ActionsOf(moves), key);
    LocksAlwaysExplained(o.system, ActionsOf(moves), key);
    EvaluatedIsStored(o.db, StepsOf(o, moves), externalId);
    CommitsAreEvaluations(o, moves, externalId);
    NoneCounted(w.system.log, key);
  }

  lemma WorkKeepsRows(d: Evaluation.Db, work: Work, externalId: string)
    requires UniqueExternalIds(d.tables.transactions)
    ensures IsStored(d, externalId) ==> IsStored(EvaluateOn(d, work), externalId)
  {
    if work.Lands? {
      UpsertStep(d.tables.transactions, work.input.request, d.ids, work.input.at.received);
      assert Evaluation.Evaluated(d, work.input).tables.transactions
          == UpsertRows(d.tables.transactions, work.input.request, d.ids, work.input.at.received);
    }
  }

  lemma InterruptedGrows(w: World, job: Job, calls: nat)
    ensures w.system.log <= Interrupted(w, job, calls).system.log
  {
    var started := Do(w.system, Start(w.next, MESSAGE_TYPE, job.externalId));
    LogGrows(w.system, Start(w.next, MESSAGE_TYPE, job.externalId));
    hide Do, Protocol.Step, Entered, Left;
    Deduplication.DeliverGrowsLog(w, job);
    var checked, worked := Calling(started, w.next, job.check), Worked(w, job);
    Deduplication.StepGrowsLog(started, w.next, job.check.elapsed, job.check.fault, map[]);
    Deduplication.StepGrowsLog(Admitted(w, job), w.next, job.duration, FaultOf(job.work), TextOf(w.db, job.work));
    Deduplication.StepGrowsLog(worked, w.next, job.mark.elapsed, job.mark.fault, map[]);
    forall s: System ensures s.log <= Do(s, Kill(w.next)).log {
      LogGrows(s, Kill(w.next));
    }
  }

  lemma HandlingGrowsLog(w: World, message: Message, a: Attempt)
    ensures w.system.log <= Handled(w, message, a).0.system.log
  {
    hide Deliver, Interrupted;
    if message.Payload? {
      InterruptedGrows(w, JobFor(message, a), if a.killedAfter.Some? then a.killedAfter.value else 0);
      Deduplication.DeliverGrowsLog(w, JobFor(message, a));
    }
  }

  /** Handling a message only adds to the past, and loses no row. */
  lemma HandlingGrows(w: World, message: Message, a: Attempt, externalId: string)
    requires UniqueExternalIds(w.db.tables.transactions)
    ensures var v := Handled(w, message, a).0;
      w.system.log <= v.system.log && (IsStored(w.db, externalId) ==> IsStored(v.db, externalId))
  {
    hide Do, Protocol.Step, Admitted, Left, IsStored, EvaluateOn;
    HandlingGrowsLog(w, message, a);
    if message.Payload? {
      WorkKeepsRows(w.db, JobFor(message, a).work, externalId);
    }
  }

  // ----- how handling a message ends, exactly -----

  /** By then some lock left behind on the key has not run out. */
  ghost predicate LeftUntil(log: seq<Event>, key: string, at: nat) {
    exists i, until: nat | 0 <= i < |log| && at < until :: LeavesLock(log[i], key, until)
  }

  /** Between messages a lock is live exactly if it was left behind. */
  lemma LockAtRest(o: Joint, w: World, externalId: string, at: nat)
    requires Beginning(o) && Reached(o, w) && at >= w.system.now
    ensures var key := KeyFor(externalId);
      Live(w.system.store, at, LockKey(key)) <==> LeftUntil(w.system.log, key, at)
  {
    var s, key := w.system, KeyFor(externalId);
    WhereReached(o, w, externalId);
    assert !Holder(s, key) by {
      if Holder(s, key) {
        var p :| MutualExclusion.InCritical(s, p, key);
        assert Underway(s, p);
      }
    }
    if Live(s.store, at, LockKey(key)) {
      assert Live(s.store, s.now, LockKey(key));
      var i :| 0 <= i < |s.log| && LeavesLock(s.log[i], key, LockEnd(s, key));
      assert at < LockEnd(s, key);
    }
    if LeftUntil(s.log, key, at) {
      var i, until: nat :| 0 <= i < |s.log| && at < until && LeavesLock(s.log[i], key, until);
      assert LockEnd(s, key) >= until;
    }
  }

  /** Entering the guard: a failed call, a live marker, a live lock, or the way in. */
  lemma AdmittedPhase(w: World, job: Job)
    requires w.next !in w.system.processors
    ensures var s, t, key := w.system, Admitted(w, job), KeyFor(job.externalId);
      var read := s.now + job.check.elapsed;
      var asked := read + job.next.elapsed;
      && w.next in t.processors && t.processors[w.next].key == key && !t.processors[w.next].raised
      && t.processors[w.next].phase ==
           (if job.check.fault != Fine || job.next.fault != Fine then Finished(Raised)
            else if Live(s.store, read, key) then Finished(Duplicate)
            else if Live(s.store, asked, LockKey(key)) then Finished(LockHeld)
            else Evaluating)
  {
    var key := KeyFor(job.externalId);
    var started := Do(w.system, Start(w.next, MESSAGE_TYPE, job.externalId));
    assert started.processors[w.next] == Processor(key, Checking, false, 0, None, map[]);
    CheckStep(started, w.next, key, job.check);
    hide Do, Protocol.Step, KeyFor;
    var checked := Calling(started, w.next, job.check);
    if checked.processors[w.next].phase == Fetching {
      FetchStep(checked, w.next, key, job.next);
    } else if checked.processors[w.next].phase == Locking {
      LockingStep(checked, w.next, key, job.next);
    }
  }

  lemma MarkPhase(s: System, pid: nat, call: Call)
    requires InPhase(s, pid, Marking)
    ensures var t := Calling(s, pid, call);
      InPhase(t, pid, Releasing) && t.processors[pid].raised == (call.fault != Fine)
          && t.processors[pid].key == s.processors[pid].key
  {
  }

  /** From the work to the end. */
  lemma FinishedPhase(s: System, pid: nat, duration: nat, fault: Fault, result: Dict, mark: Call, release: Call)
    requires InPhase(s, pid, Evaluating) && !s.processors[pid].raised
    ensures var t := Left(Protocol.Step(s, pid, duration, fault, result), pid, mark, release);
      && InPhase(t, pid, Finished(if fault == mark.fault == release.fault == Fine then Completed else Raised))
      && t.processors[pid].key == s.processors[pid].key
  {
    var key := s.processors[pid].key;
    EvaluatingStep(s, pid, key, duration, fault, result);
    hide Protocol.Step;
    var worked := Protocol.Step(s, pid, duration, fault, result);
    if InPhase(worked, pid, Marking) {
      MarkPhase(worked, pid, mark);
      ReleasingStep(Calling(worked, pid, mark), pid, key, release);
    } else {
      ReleasingStep(worked, pid, key, release);
    }
  }

  lemma EnteredStandsStill(s: System, pid: nat, check: Call, next: Call)
    requires InPhase(s, pid, Checking)
    requires InPhase(Entered(s, pid, check, next), pid, Finished(LockHeld))
    ensures Entered(s, pid, check, next).now == s.now + check.elapsed + next.elapsed
  {
  }

  /** How the processor of an undisturbed delivery ends, by the state before it. */
  lemma DeliveredPhase(w: World, job: Job)
    requires w.next !in w.system.processors
    ensures var s, v, key := w.system, Deliver(w, job), KeyFor(job.externalId);
      var read := s.now + job.check.elapsed;
      var asked := read + job.next.elapsed;
      && w.next in v.system.processors && v.system.processors[w.next].key == key
      && if job.check.fault != Fine || job.next.fault != Fine then
           InPhase(v.system, w.next, Finished(Raised)) && v.db == w.db
         else if Live(s.store, read, key) then
           InPhase(v.system, w.next, Finished(Duplicate)) && v.db == w.db
         else if Live(s.store, asked, LockKey(key)) then
           InPhase(v.system, w.next, Finished(LockHeld)) && v.db == w.db && v.system.now == asked
         else
           var well := FaultOf(job.work) == job.mark.fault == job.release.fault == Fine;
           && v.db == EvaluateOn(w.db, job.work)
           && InPhase(v.system, w.next, Finished(if well then Completed else Raised))
  {
    AdmittedPhase(w, job);
    var started := Do(w.system, Start(w.next, MESSAGE_TYPE, job.externalId));
    assert InPhase(started, w.next, Checking) && started.now == w.system.now;
    hide Do, Protocol.Step, Entered, Left, KeyFor, EvaluateOn, TextOf;
    if InPhase(Admitted(w, job), w.next, Evaluating) {
      FinishedPhase(Admitted(w, job), w.next, job.duration, FaultOf(job.work), TextOf(w.db, job.work), job.mark,
          job.release);
    } else if InPhase(Admitted(w, job), w.next, Finished(LockHeld)) {
      EnteredStandsStill(started, w.next, job.check, job.next);
    }
  }

  /**
   Wherever the consumer got to, and whatever befalls this call short of a kill, the state
   before it decides the answer: an exception if reading the marker or the call after it
   fails; else a duplicate exactly if the marker is live; else a skip for a held lock
   exactly if a lock left behind has not run out; else the evaluation is made, and the
   answer is its success exactly if it told a result and marking and releasing worked.
   */
  lemma AnswerExactly(o: Joint, w: World, message: Message, a: Attempt)
    requires Beginning(o) && Reached(o, w) && message.Payload? && a.killedAfter == None
    ensures var (v, r) := Handled(w, message, a);
      var key := KeyFor(message.externalId);
      var read := w.system.now + a.check.elapsed;
      var asked := read + a.next.elapsed;
      if a.check.fault != Fine || a.next.fault != Fine then r == Base.Raised(a.error) && v.db == w.db
      else if Live(w.system.store, read, key) then r == Base.Ended(MarkedDuplicate) && v.db == w.db
      else if LeftUntil(w.system.log, key, asked) then
        r.Ended? && r.answer.LockHeldSkip? && r.answer.at == asked && v.db == w.db
      else
        var told := message.request.Some? && a.trial.Made? && a.trial.told;
        && v.db == EvaluateOn(w.db, WorkFor(message.request, a.trial))
        && r == (if told && a.mark.fault == a.release.fault == Fine then Base.Ended(Answer.Evaluated)
                 else Base.Raised(a.error))
  {
    hide Deliver, KeyFor, EvaluateOn, LeftUntil, Reached, Beginning;
    WhereReached(o, w, message.externalId);
    LockAtRest(o, w, message.externalId, w.system.now + a.check.elapsed + a.next.elapsed);
    DeliveredPhase(w, JobFor(message, a));
  }

  // ----- the consumer loop over the log -----

  // What the pipeline runs in: the log, how its texts read as messages, and what befalls
  // each call of `process`, each commit and each send.
  datatype Surroundings = Surroundings(
    log: (nat, nat) -> Base.Envelope, read: string -> Message, attempts: nat -> Attempt,
    commit: nat -> Base.Commit, send: nat -> Base.Send)

  function MessageAt(c: Surroundings, partition: nat, offset: nat): Message {
    c.read(c.log(partition, offset).value)
  }

  /** The consumer's surroundings, with `process` handling the message at that offset. */
  function EnvOf(c: Surroundings): Base.Env<World, Answer> {
    Base.Env(c.log,
        (w: World, partition, offset, call) => Handled(w, MessageAt(c, partition, offset), c.attempts(call)),
             c.commit, c.send)
  }

  function FirstState(w: World): Base.State<World, Answer> {
    Base.State(w, map[], map[], {}, [], Base.Calls(0, 0, 0), 0, 0)
  }

  /** Everything after any number of runs of the consumer. */
  function Outcome(c: Surroundings, cfg: Base.Settings, w: World, runs: seq<Base.Lifetime>): Base.State<World, Answer> {
    Base.Live(EnvOf(c), cfg, FirstState(w), runs)
  }

  // ----- what each answer stands for -----

  /** At that instant, with so much in the log, a lock left behind on the key had not run out. */
  ghost predicate SkippedForLock(w: World, externalId: string, at: nat, logged: nat) {
    logged <= |w.system.log| && LeftUntil(w.system.log[..logged], KeyFor(externalId), at)
  }

  ghost predicate Meant(w: World, message: Message, answer: Answer) {
    match answer
    case Evaluated => message.Payload? && Processed(w, message.externalId)
    case MarkedDuplicate => message.Payload? && Processed(w, message.externalId)
    case LockHeldSkip(at, logged) => message.Payload? && SkippedForLock(w, message.externalId, at, logged)
    case MissingId => message.NoExternalId?
  }

  lemma LeftUntilGrows(log: seq<Event>, longer: seq<Event>, key: string, at: nat)
    requires log <= longer && LeftUntil(log, key, at)
    ensures LeftUntil(longer, key, at)
  {
    var i, until: nat :| 0 <= i < |log| && at < until && LeavesLock(log[i], key, until);
    assert longer[i] == log[i];
  }

  /** What an answer stood for once it stands for always. */
  lemma MeaningLasts(w: World, v: World, message: Message, answer: Answer)
    requires Meant(w, message, answer) && w.system.log <= v.system.log
    requires message.Payload? && IsStored(w.db, message.externalId) ==> IsStored(v.db, message.externalId)
    ensures Meant(v, message, answer)
  {
    match answer
    case LockHeldSkip(at, logged) => assert v.system.log[..logged] == w.system.log[..logged];
    case MissingId =>
    case _ => HasCommitGrows(w.system.log, v.system.log, KeyFor(message.externalId));
  }

  lemma ProcessedIsMeant(o: Joint, w: World, message: Message, a: Attempt)
    requires Beginning(o) && Reached(o, w) && message.Payload?
    requires var r := Handled(w, message, a).1; r.Ended? && (r.answer.Evaluated? || r.answer.MarkedDuplicate?)
    ensures Processed(Handled(w, message, a).0, message.externalId)
  {
    var v := Handled(w, message, a).0;
    WhereReached(o, w, message.externalId);
    hide Deliver, KeyFor, EvaluateOn, Reached, Beginning, LocksExplained, HasCommit, IsStored, Founded,
        Interrupted, LockKey;
    HandlingReaches(o, w, message, a);
    DeliveredPhase(w, JobFor(message, a));
    WhereReached(o, v, message.externalId);
    AssuredHasCommit(v.system, w.next);
  }

  lemma AssuredHasCommit(s: System, pid: nat)
    requires pid in s.processors && Founded(s, s.processors[pid].key) && Assured(s.processors[pid])
    ensures HasCommit(s.log, s.processors[pid].key)
  {
  }

  lemma SkipIsMeant(o: Joint, w: World, message: Message, a: Attempt)
    requires Beginning(o) && Reached(o, w) && message.Payload?
    requires var r := Handled(w, message, a).1; r.Ended? && r.answer.LockHeldSkip?
    ensures var (v, r) := Handled(w, message, a); SkippedForLock(v, message.externalId, r.answer.at, r.answer.logged)
  {
    var (v, r) := Handled(w, message, a);
    WhereReached(o, w, "");
    hide Deliver, KeyFor, EvaluateOn, Reached, Beginning, LeftUntil, Interrupted;
    AnswerExactly(o, w, message, a);
    HandlingGrows(w, message, a, message.externalId);
    LeftUntilGrows(w.system.log, v.system.log, KeyFor(message.externalId), r.answer.at);
    assert v.system.log[..|v.system.log|] == v.system.log;
  }

  /** An answer stands for what it claims when it is given. */
  lemma AnswerIsMeant(o: Joint, w: World, message: Message, a: Attempt)
    requires Beginning(o) && Reached(o, w) && Handled(w, message, a).1.Ended?
    ensures Meant(Handled(w, message, a).0, message, Handled(w, message, a).1.answer)
  {
    hide Deliver, Interrupted, Reached, Beginning, Processed, SkippedForLock;
    if message.Payload? {
      if Handled(w, message, a).1.answer.LockHeldSkip? {
        SkipIsMeant(o, w, message, a);
      } else {
        ProcessedIsMeant(o, w, message, a);
      }
    }
  }

  /** What handling keeps, and what its answers mean, in the terms of the consumer loop. */
  ghost function Keeping(o: Joint): World -> bool {
    w => Reached(o, w)
  }

  ghost function Meaning(c: Surroundings): (World, nat, nat, Answer) -> bool {
    (w: World, partition: nat, offset: nat, answer: Answer) => Meant(w, MessageAt(c, partition, offset), answer)
  }

  lemma HandlingUpholds(c: Surroundings, o: Joint)
    requires Beginning(o)
    ensures Base.Upheld(EnvOf(c), Keeping(o), Meaning(c))
  {
    forall w: World, p: nat, n: nat, call: nat | Reached(o, w)
      ensures var (v, r) := EnvOf(c).process(w, p, n, call);
        && Reached(o, v)
        && (r.Ended? ==> Meant(v, MessageAt(c, p, n), r.answer))
        && forall q, m, answer | Meant(w, MessageAt(c, q, m), answer) :: Meant(v, MessageAt(c, q, m), answer)
    {
      var (v, r) := EnvOf(c).process(w, p, n, call);
      HandlingReaches(o, w, MessageAt(c, p, n), c.attempts(call));
      if r.Ended? {
        AnswerIsMeant(o, w, MessageAt(c, p, n), c.attempts(call));
      }
      WhereReached(o, w, "");
      hide Reached, Handled, Meant, IsStored;
      forall q, m, answer | Meant(w, MessageAt(c, q, m), answer) ensures Meant(v, MessageAt(c, q, m), answer) {
        var id := if MessageAt(c, q, m).Payload? then MessageAt(c, q, m).externalId else "";
        HandlingGrows(w, MessageAt(c, p, n), c.attempts(call), id);
        MeaningLasts(w, v, MessageAt(c, q, m), answer);
      }
    }
  }

  // ----- the main results -----

  /** A letter with this message was sent. */
  ghost predicate HasLetter(c: Surroundings, s: Base.State<World, Answer>, partition: nat, offset: nat) {
    Base.HasLetter(EnvOf(c), s, partition, offset)
  }

  /** All attempts at the message failed, and Kafka refused its letter. */
  ghost predicate LetterRefused(c: Surroundings, s: Base.State<World, Answer>, partition: nat, offset: nat) {
    exists send | (partition, offset, Base.DeadLettered(send)) in s.outcomes :: c.send(send) == Base.KafkaFailure
  }

  /** Where the consumer begins. */
  function Origin(w: World): Joint {
    Joint(w.system, w.db)
  }

  lemma PipelineIsTruthful(c: Surroundings, cfg: Base.Settings, w: World, runs: seq<Base.Lifetime>)
    requires Beginning(Origin(w))
    ensures Base.Truthful(EnvOf(c), cfg, Outcome(c, cfg, w, runs), Keeping(Origin(w)), Meaning(c))
  {
    assert Rests(Origin(w), [], w);
    HandlingUpholds(c, Origin(w));
    hide Meant, Base.Upheld, Handled;
    Base.OutcomesAreTruthful(EnvOf(c), cfg, FirstState(w), runs, Keeping(Origin(w)), Meaning(c));
  }

  /**
   From a fresh Redis, over any log, any number of runs, crashes, kills and restarts, with
   anything failing anywhere: every message below a committed offset either has no
   external id, or has a letter, or had its letter refused by Kafka, or has a committed
   evaluation and its stored row, or was skipped at an instant at which a lock left behind
   on its key had not run out. Without a dead-letter topic it may also have been discarded.
   */
  lemma EveryCommittedMessageIsAccountedFor(
      c: Surroundings, cfg: Base.Settings, w: World, runs: seq<Base.Lifetime>, partition: nat, offset: nat)
    requires Beginning(Origin(w))
    requires offset < Base.At(Outcome(c, cfg, w, runs).committed, partition)
    ensures var s, message := Outcome(c, cfg, w, runs), MessageAt(c, partition, offset);
      || message.NoExternalId?
      || HasLetter(c, s, partition, offset) || LetterRefused(c, s, partition, offset)
      || (!cfg.deadLetters && (partition, offset, Base.Discarded) in s.outcomes)
      || (message.Payload? && Processed(s.world, message.externalId))
      || (message.Payload? && exists at: nat, logged: nat :: SkippedForLock(s.world, message.externalId, at, logged))
  {
    var s := Outcome(c, cfg, w, runs);
    Base.CommittedOffsetsAreSafe(EnvOf(c), cfg, FirstState(w), runs);
    PipelineIsTruthful(c, cfg, w, runs);
    hide Base.Live, Reached, Processed, SkippedForLock, Base.Attempted;
    assert Base.HasOutcome(s, partition, offset);
    var x :| x in s.outcomes && x.0 == partition && x.1 == offset;
    match x.2
    case Returned(answer) =>
      assert (partition, offset, Base.Returned(answer)) in s.outcomes;
      assert Meant(s.world, MessageAt(c, partition, offset), answer);
    case DeadLettered(send) =>
      assert (partition, offset, Base.DeadLettered(send)) in s.outcomes;
      assert Base.Attempted(EnvOf(c), s, partition, offset, send);
    case Discarded =>
      assert (partition, offset, Base.Discarded) in s.outcomes;
  }

  /**
   So with a dead-letter topic there are two ways to lose a committed message with an
   external id and no others: Kafka refused its letter, or a lock was left behind on its
   key. Else it was processed or has a letter.
   */
  lemma LostOnlyByRefusedLettersOrLeftLocks(
      c: Surroundings, cfg: Base.Settings, w: World, runs: seq<Base.Lifetime>, partition: nat, offset: nat)
    requires Beginning(Origin(w)) && cfg.deadLetters
    requires offset < Base.At(Outcome(c, cfg, w, runs).committed, partition) && MessageAt(c, partition, offset).Payload?
    ensures var s, id := Outcome(c, cfg, w, runs), MessageAt(c, partition, offset).externalId;
      || Processed(s.world, id) || HasLetter(c, s, partition, offset)
      || LetterRefused(c, s, partition, offset)
      || LeftUntil(s.world.system.log, KeyFor(id), 0)
  {
    var s, id := Outcome(c, cfg, w, runs), MessageAt(c, partition, offset).externalId;
    EveryCommittedMessageIsAccountedFor(c, cfg, w, runs, partition, offset);
    hide Outcome, Processed, HasLetter, LetterRefused, SkippedForLock, LeftUntil;
    forall at: nat, logged: nat | SkippedForLock(s.world, id, at, logged)
      ensures LeftUntil(s.world.system.log, KeyFor(id), 0)
    {
      SkipsComeFromLeftLocks(s.world, id, at, logged);
    }
  }

  lemma SkipsComeFromLeftLocks(w: World, externalId: string, at: nat, logged: nat)
    requires SkippedForLock(w, externalId, at, logged)
    ensures LeftUntil(w.system.log, KeyFor(externalId), 0)
  {
    var log, key := w.system.log, KeyFor(externalId);
    var i, until: nat :| 0 <= i < logged && at < until && LeavesLock(log[..logged][i], key, until);
    assert LeavesLock(log[i], key, until);
  }

  /**
   The alerts of a transaction, over everything the consumer ever does: at most one more
   than before, plus one for each failure or kill between a commit and its mark and each
   expiry of the marker.
   */
  lemma PipelineAlertsAreCharged(
      c: Surroundings, cfg: Base.Settings, w: World, runs: seq<Base.Lifetime>, externalId: string)
    requires Initial(w.system) && Sound(w.db)
    ensures var v := Outcome(c, cfg, w, runs).world;
      AlertsUnder(v.db, externalId) <= AlertsUnder(w.db, externalId) + 1 + Charges(v.system.log, KeyFor(externalId))
  {
    var o, v := Origin(w), Outcome(c, cfg, w, runs).world;
    PipelineIsTruthful(c, cfg, w, runs);
    assert Reached(o, v) by { assert Keeping(o)(v); }
    var moves :| Rests(o, moves, v);
    NothingElsewhere(moves, externalId);
    AlertsAreCharged(o, moves, externalId);
  }

  // ----- a message that is lost -----

  lemma TakesTheLock(w: World, job: Job)
    requires w.next !in w.system.processors && job.check.fault == job.next.fault == Fine
    requires var s, key := w.system, KeyFor(job.externalId);
      var read := s.now + job.check.elapsed;
      !Live(s.store, read, key) && !Live(s.store, read + job.next.elapsed, LockKey(key))
    ensures var s, t, key := w.system, Admitted(w, job), KeyFor(job.externalId);
      && InPhase(t, w.next, Evaluating) && t.processors[w.next].key == key && !t.processors[w.next].raised
      && t.now == s.now + job.check.elapsed + job.next.elapsed
      && t.store == s.store[LockKey(key) := Entry(One, t.now + LOCK_TTL)]
  {
    var key, pid := KeyFor(job.externalId), w.next;
    var started := Do(w.system, Start(pid, MESSAGE_TYPE, job.externalId));
    assert started.processors[pid] == Processor(key, Checking, false, 0, None, map[]);
    assert started.store == w.system.store && started.now == w.system.now;
    CheckStep(started, pid, key, job.check);
    hide Do, Protocol.Step, KeyFor;
    LockingStep(Calling(started, pid, job.check), pid, key, job.next);
  }

  // A delivery whose marker is not set, whose lock is free, and whose calls so far work.
  predicate LetThrough(w: World, job: Job) {
    var s, key := w.system, KeyFor(job.externalId);
    var read := s.now + job.check.elapsed;
    && w.next !in s.processors && job.check.fault == job.next.fault == job.mark.fault == FaultOf(job.work) == Fine
    && !Live(s.store, read, key) && !Live(s.store, read + job.next.elapsed, LockKey(key))
  }

  function LockRunsOut(w: World, job: Job): nat {
    w.system.now + job.check.elapsed + job.next.elapsed + LOCK_TTL
  }

  /** A kill before the work leaves the database and the marker as they were, and the lock until it runs out. */
  lemma KilledBeforeTheWork(w: World, job: Job)
    requires LetThrough(w, job)
    ensures var v, key := Interrupted(w, job, 2), KeyFor(job.externalId);
      && v.db == w.db && SameEntry(w.system, v.system, key)
      && KilledWith(v.system, w.next, key, LockRunsOut(w, job), false)
  {
    Stages(w, job);
    KeyApartFromLock(job.externalId);
    hide Admitted, Worked, KeyFor, LockKey, Do, KilledWith;
    KillLogs(Admitted(w, job), w.next);
  }

  /** A kill between commit and mark leaves the evaluation committed, the marker not set, and its charge in the log. */
  lemma KilledBeforeTheMark(w: World, job: Job)
    requires LetThrough(w, job)
    ensures var v, key := Interrupted(w, job, 3), KeyFor(job.externalId);
      && v.db == EvaluateOn(w.db, job.work) && SameEntry(w.system, v.system, key)
      && KilledWith(v.system, w.next, key, LockRunsOut(w, job), true)
  {
    Stages(w, job);
    KeyApartFromLock(job.externalId);
    hide Admitted, Worked, KeyFor, LockKey, Do, KilledWith, EvaluateOn;
    KillLogs(Worked(w, job), w.next);
  }

  /** A kill after the mark leaves the evaluation committed and the marker set. */
  lemma KilledAfterTheMark(w: World, job: Job)
    requires LetThrough(w, job)
    ensures var v, key := Interrupted(w, job, 4), KeyFor(job.externalId);
      && v.db == EvaluateOn(w.db, job.work) && Live(v.system.store, v.system.now, key)
      && KilledWith(v.system, w.next, key, LockRunsOut(w, job), false)
  {
    Stages(w, job);
    KeyApartFromLock(job.externalId);
    hide Admitted, Worked, Calling, KeyFor, LockKey, Do, KilledWith, EvaluateOn, Live;
    KillLogs(Calling(Worked(w, job), w.next, job.mark), w.next);
  }

  // Killed while it held the lock, which runs out at `until`.
  ghost predicate KilledWith(s: System, pid: nat, key: string, until: nat, unmarked: bool) {
    && InPhase(s, pid, Finished(Killed))
    && LockKey(key) in s.store && s.store[LockKey(key)].expires == until
    && s.log != [] && s.log[|s.log| - 1] == Died(key, unmarked, until)
  }

  // The processor and Redis after two, three and four calls that work.
  lemma Stages(w: World, job: Job)
    requires LetThrough(w, job)
    ensures var s, key := w.system, KeyFor(job.externalId);
      var locked := s.store[LockKey(key) := Entry(One, LockRunsOut(w, job))];
      && InStage(Admitted(w, job), w.next, Evaluating, key) && Admitted(w, job).store == locked
      && InStage(Worked(w, job), w.next, Marking, key) && Worked(w, job).store == locked
      && var marked := Calling(Worked(w, job), w.next, job.mark);
         && InStage(marked, w.next, Releasing, key) && Live(marked.store, marked.now, key)
         && (LockKey(key) != key ==> LockKey(key) in marked.store && marked.store[LockKey(key)] == locked[LockKey(key)])
  {
    var key, pid := KeyFor(job.externalId), w.next;
    TakesTheLock(w, job);
    hide Admitted, Protocol.Step, KeyFor, LockKey, TextOf, Encode;
    EvaluatingStep(Admitted(w, job), pid, key, job.duration, Fine, TextOf(w.db, job.work));
    MarkSetsMarker(Worked(w, job), pid, job.mark.elapsed);
  }

  predicate InStage(s: System, pid: nat, phase: Phase, key: string) {
    InPhase(s, pid, phase) && s.processors[pid].key == key
  }

  lemma MarkSetsMarker(s: System, pid: nat, elapsed: nat)
    requires InPhase(s, pid, Marking) && !s.processors[pid].raised
    ensures var t, key := Calling(s, pid, Call(elapsed, Fine)), s.processors[pid].key;
      && t.now == s.now + elapsed && InPhase(t, pid, Releasing) && t.processors[pid].key == key
      && t.store == s.store[key := Entry(Encode(Some(s.processors[pid].result)), t.now + s.ttl)]
  {
    Deduplication.MarkSets(s, pid, s.processors[pid].key, elapsed);
  }

  lemma KillLogs(s: System, pid: nat)
    requires pid in s.processors && Critical(s.processors[pid])
    ensures var t, p := Do(s, Kill(pid)), s.processors[pid];
      && t.store == s.store && t.now == s.now
      && (LockKey(p.key) in s.store ==> KilledWith(t, pid, p.key, s.store[LockKey(p.key)].expires, p.phase == Marking))
  {
  }

  /** A failed evaluation whose release fails too leaves its lock, and nothing else, in Redis. */
  lemma FailedReleaseLeavesLock(w: World, job: Job)
    requires w.next !in w.system.processors
    requires job.check.fault == job.next.fault == Fine && job.work.Fails? && job.release.fault == FailBefore
    requires var s, key := w.system, KeyFor(job.externalId);
      var read := s.now + job.check.elapsed;
      !Live(s.store, read, key) && !Live(s.store, read + job.next.elapsed, LockKey(key))
    ensures var s, v, key := w.system, Deliver(w, job).system, KeyFor(job.externalId);
      var asked := s.now + job.check.elapsed + job.next.elapsed;
      && v.store == s.store[LockKey(key) := Entry(One, asked + LOCK_TTL)]
      && v.now == asked + job.duration + job.release.elapsed
  {
    var key, pid := KeyFor(job.externalId), w.next;
    TakesTheLock(w, job);
    hide Admitted, Protocol.Step, KeyFor, LockKey;
    EvaluatingStep(Admitted(w, job), pid, key, job.duration, FailBefore, map[]);
    ReleasingStep(Worked(w, job), pid, key, job.release);
  }

  /**
   When an evaluation fails and the release after it fails too, the next attempt at the
   message is told the lock is held exactly if it asks within the five minutes the lock
   was taken for. It then ends as if all were well, with nothing evaluated.
   */
  lemma FailedReleaseLosesMessage(o: Joint, w: World, message: Message, a: Attempt, b: Attempt)
    requires Beginning(o) && Reached(o, w) && message.Payload?
    requires a.killedAfter == b.killedAfter == None
    requires a.check.fault == a.next.fault == b.check.fault == b.next.fault == Fine
    requires WorkFor(message.request, a.trial).Fails? && a.release.fault == FailBefore
    requires var key := KeyFor(message.externalId);
      var read := w.system.now + a.check.elapsed;
      !Live(w.system.store, read, key) && !LeftUntil(w.system.log, key, read + a.next.elapsed)
    ensures var v := Handled(w, message, a).0;
      var taken := w.system.now + a.check.elapsed + a.next.elapsed;
      var again := Handled(v, message, b);
      && Handled(w, message, a).1 == Base.Raised(a.error)
      && v.db.tables == w.db.tables
      && (again.1.Ended? && again.1.answer.LockHeldSkip? <==>
            v.system.now + b.check.elapsed + b.next.elapsed < taken + LOCK_TTL)
      && (again.1.Ended? && again.1.answer.LockHeldSkip? ==> again.0.db == v.db)
  {
    var job, key := JobFor(message, a), KeyFor(message.externalId);
    var v := Handled(w, message, a).0;
    WhereReached(o, w, message.externalId);
    AnswerExactly(o, w, message, a);
    LockAtRest(o, w, message.externalId, w.system.now + a.check.elapsed + a.next.elapsed);
    FailedReleaseLeavesLock(w, job);
    KeyApartFromLock(message.externalId);
    HandlingReaches(o, w, message, a);
    assert v.db.tables == w.db.tables;
    hide Deliver, KeyFor, EvaluateOn, Reached, Beginning, LeftUntil;
    AnswerExactly(o, v, message, b);
    LockAtRest(o, v, message.externalId, v.system.now + b.check.elapsed + b.next.elapsed);
  }

  lemma KeyApartFromLock(externalId: string)
    ensures LockKey(KeyFor(externalId)) != KeyFor(externalId)
  {
    MadeKeysAreMarkers(MESSAGE_TYPE, externalId);
    KeysApart(KeyFor(externalId), KeyFor(externalId));
  }

  // The body fails before its commit, and so does the release: its lock is left.
  predicate FailsAndLeavesLock(message: Message, a: Attempt)
    requires message.Payload?
  {
    && a.killedAfter == None && a.check.fault == a.next.fault == Fine
    && WorkFor(message.request, a.trial).Fails? && a.release.fault == FailBefore
  }

  // Comes after the first pause of the loop, and asks for the lock before that one runs out.
  predicate AsksTooEarly(a: Attempt, b: Attempt) {
    && b.killedAfter == None && b.check.fault == b.next.fault == Fine
    && b.check.elapsed >= 1000 * Base.Pause(1)
    && a.duration + a.release.elapsed + b.check.elapsed + b.next.elapsed < LOCK_TTL
  }

  lemma FailsThenSkips(w: World, message: Message, a: Attempt, b: Attempt)
    requires Initial(w.system) && UniqueExternalIds(w.db.tables.transactions) && message.Payload?
    requires FailsAndLeavesLock(message, a) && AsksTooEarly(a, b)
    ensures var (v, r) := Handled(w, message, a);
      var (u, q) := Handled(v, message, b);
      r.Raised? && q.Ended? && u.db.tables == w.db.tables
  {
    assert Rests(Origin(w), [], w);
    WhereReached(Origin(w), w, message.externalId);
    assert !LeftUntil(w.system.log, KeyFor(message.externalId), w.system.now + a.check.elapsed + a.next.elapsed);
    FailedReleaseLeavesLock(w, JobFor(message, a));
    hide Deliver, LeftUntil, KeyFor, Reached, Beginning;
    FailedReleaseLosesMessage(Origin(w), w, message, a, b);
  }

  /**
   So the loop can lose a message for good: one evaluation and the release after it fail,
   nothing else does, and the offset is committed with no letter written and no table
   changed, whatever the log and the message.
   */
  lemma LoopLosesMessage(c: Surroundings, cfg: Base.Settings, w: World)
    requires Initial(w.system) && UniqueExternalIds(w.db.tables.transactions) && MessageAt(c, 0, 0).Payload?
    requires FailsAndLeavesLock(MessageAt(c, 0, 0), c.attempts(0)) && AsksTooEarly(c.attempts(0), c.attempts(1))
    requires cfg.maxRetries >= 2 && c.commit(0) == Base.Acknowledged
    ensures var s := Outcome(c, cfg, w, [Base.Lifetime(Base.Started, [Base.Arrival(0, false)], true)]);
      && Base.At(s.committed, 0) == 1 && s.letters == []
      && s.world.db.tables == w.db.tables
  {
    var env, s, message := EnvOf(c), FirstState(w), MessageAt(c, 0, 0);
    var life := Base.Lifetime(Base.Started, [Base.Arrival(0, false)], true);
    FailsThenSkips(w, message, c.attempts(0), c.attempts(1));
    var v := Handled(w, message, c.attempts(0)).0;
    assert env.process(w, 0, 0, 0) == Handled(w, message, c.attempts(0));
    assert env.process(v, 0, 0, 1) == Handled(v, message, c.attempts(1));
    hide EnvOf, Handled, Initial, Base.RunOnce, MessageAt;
    Base.AnsweredOnSecondAttempt(env, cfg, Base.Restart(s), 0);
    assert [life][..0] == [];
    assert Base.Live(env, cfg, s, [life]) == Base.RunOnce(env, cfg, Base.Restart(s), life).0;
  }

  /** No call reaches the marker. */
  ghost predicate RedisDown(c: Surroundings) {
    forall call :: c.attempts(call).check.fault != Fine && c.attempts(call).killedAfter == None
  }

  lemma FailedCheckChangesNothing(w: World, job: Job)
    requires w.next !in w.system.processors && job.check.fault != Fine
    ensures Deliver(w, job).system.store == w.system.store && Deliver(w, job).db == w.db
  {
    var key := KeyFor(job.externalId);
    var started := Do(w.system, Start(w.next, MESSAGE_TYPE, job.externalId));
    assert started.processors[w.next] == Processor(key, Checking, false, 0, None, map[]);
    CheckStep(started, w.next, key, job.check);
  }

  lemma FailedCheckRaises(o: Joint, w: World, message: Message, a: Attempt)
    requires Beginning(o) && Reached(o, w) && message.Payload?
    requires a.check.fault != Fine && a.killedAfter == None
    ensures var (v, r) := Handled(w, message, a);
      Reached(o, v) && r.Raised? && v.db == w.db && v.system.store == w.system.store
  {
    WhereReached(o, w, message.externalId);
    hide Reached, Deliver, Beginning, LeftUntil, EvaluateOn;
    AnswerExactly(o, w, message, a);
    HandlingReaches(o, w, message, a);
    FailedCheckChangesNothing(w, JobFor(message, a));
  }

  // As the consumer first found it, but for processors and the log.
  ghost function Unchanged(w: World): World -> bool {
    v => Reached(Origin(w), v) && v.db == w.db && v.system.store == w.system.store
  }

  lemma RedisDownFails(c: Surroundings, w: World, partition: nat, offset: nat, n: nat)
    requires Beginning(Origin(w)) && RedisDown(c) && MessageAt(c, partition, offset).Payload?
    ensures var g := Base.Progress(w, Base.Calls(0, 0, 0));
      && Base.AllFail(EnvOf(c), g, partition, offset, n)
      && Unchanged(w)(Base.AfterAll(EnvOf(c), g, partition, offset, n).world)
  {
    assert Rests(Origin(w), [], w);
    hide Reached, Handled, Beginning;
    forall v, call: nat | Unchanged(w)(v)
      ensures var (u, r) := EnvOf(c).process(v, partition, offset, call); r.Raised? && Unchanged(w)(u)
    {
      FailedCheckRaises(Origin(w), v, MessageAt(c, partition, offset), c.attempts(call));
    }
    hide EnvOf, Unchanged;
    Base.RaisingFails(EnvOf(c), Base.Progress(w, Base.Calls(0, 0, 0)), partition, offset, n, Unchanged(w));
  }

  /**
   The other loss needs no lock: while Redis is down every attempt fails, Kafka refuses the
   letter, the refusal is swallowed and the offset committed, with no table and no key of
   Redis changed.
   */
  lemma RefusedLetterLosesMessage(c: Surroundings, cfg: Base.Settings, w: World)
    requires Initial(w.system) && UniqueExternalIds(w.db.tables.transactions) && MessageAt(c, 0, 0).Payload?
    requires RedisDown(c) && cfg.deadLetters && c.send(0) == Base.KafkaFailure
    requires forall n :: c.commit(n) == Base.Acknowledged
    ensures var s := Outcome(c, cfg, w, [Base.Lifetime(Base.Started, [Base.Arrival(0, false)], true)]);
      && Base.At(s.committed, 0) == 1 && s.letters == []
      && s.world.db == w.db && s.world.system.store == map[]
  {
    var env, s := EnvOf(c), FirstState(w);
    var life := Base.Lifetime(Base.Started, [Base.Arrival(0, false)], true);
    RedisDownFails(c, w, 0, 0, Base.Left(cfg, 1));
    hide EnvOf, Base.RunOnce, MessageAt, Base.AllFail, Base.AfterAll;
    assert Base.Now(Base.Restart(s)) == Base.Now(s);
    Base.CommittedWithoutLetter(env, cfg, Base.Restart(s), 0);
    assert [life][..0] == [];
    assert Base.Live(env, cfg, s, [life]) == Base.RunOnce(env, cfg, Base.Restart(s), life).0;
  }

  // ----- without faults: a set of seen ids -----

  /** No Redis call of any attempt meets a fault, and no attempt is killed. */
  ghost predicate FaultlessAttempts(c: Surroundings) {
    forall call ::
      var a := c.attempts(call);
      a.check.fault == a.next.fault == a.mark.fault == a.release.fault == Fine && a.killedAfter == None
  }

  /** The delivery of some message of the log in some call of `process`. */
  ghost predicate IsDelivery(c: Surroundings, job: Job) {
    exists p: nat, n: nat, call: nat :: MessageAt(c, p, n).Payload?
        && job == JobFor(MessageAt(c, p, n), c.attempts(call))
  }

  ghost predicate DeliveriesOf(c: Surroundings, jobs: seq<Job>) {
    forall job | job in jobs :: IsDelivery(c, job)
  }

  /** These deliveries, one after another, lead here. */
  ghost predicate Delivered(c: Surroundings, w: World, jobs: seq<Job>, v: World) {
    v == DeliverAll(w, jobs) && DeliveriesOf(c, jobs)
  }

  /** The answer is no skip for a held lock. */
  predicate NoSkip(answer: Answer) {
    !answer.LockHeldSkip?
  }

  lemma DeliveriesAreFaultless(c: Surroundings, jobs: seq<Job>)
    requires FaultlessAttempts(c) && DeliveriesOf(c, jobs)
    ensures forall job | job in jobs :: Deduplication.Faultless(job)
  {
    forall job | job in jobs ensures Deduplication.Faultless(job) {
      assert IsDelivery(c, job);
    }
  }

  /** Handling a message adds at most one delivery. */
  lemma HandlingDelivers(c: Surroundings, w: World, jobs: seq<Job>, v: World, p: nat, n: nat, call: nat)
    returns (more: seq<Job>)
    requires FaultlessAttempts(c) && Delivered(c, w, jobs, v)
    ensures Delivered(c, w, more, Handled(v, MessageAt(c, p, n), c.attempts(call)).0)
    ensures MessageAt(c, p, n).Payload? ==> more == jobs + [JobFor(MessageAt(c, p, n), c.attempts(call))]
  {
    hide Deliver;
    var message, a := MessageAt(c, p, n), c.attempts(call);
    more := jobs;
    if message.Payload? {
      var job := JobFor(message, a);
      assert IsDelivery(c, job);
      more := jobs + [job];
      assert more[..|more| - 1] == jobs;
    }
  }

  // The last delivery of a faultless sequence has not ended blocked.
  lemma LastIsNotBlocked(w: World, jobs: seq<Job>)
    requires Initial(w.system) && w.next == 0
    requires jobs != [] && forall job | job in jobs :: Deduplication.Faultless(job)
    requires Deduplication.NothingLapsed(DeliverAll(w, jobs).system.log)
    ensures var v, u := DeliverAll(w, jobs[..|jobs| - 1]), DeliverAll(w, jobs);
      !InPhase(u.system, v.next, Finished(LockHeld)) && v.next !in v.system.processors
  {
    var earlier, job := jobs[..|jobs| - 1], jobs[|jobs| - 1];
    Deduplication.DeliverGrowsLog(DeliverAll(w, earlier), job);
    hide Deliver, Deduplication.NothingLapsed, Initial;
    Deduplication.PrefixLapsedLess(DeliverAll(w, earlier).system.log, DeliverAll(w, jobs).system.log);
    Deduplication.RefinesDeduplication(w, earlier);
    Deduplication.RefinesDeduplication(w, jobs);
  }

  /** With nothing expired, no message is ever answered with a skip for a held lock. */
  lemma NoSkipAfterDeliveries(c: Surroundings, w: World, jobs: seq<Job>, v: World, p: nat, n: nat, call: nat)
    requires Initial(w.system) && w.next == 0 && FaultlessAttempts(c) && Delivered(c, w, jobs, v)
    requires var (u, r) := Handled(v, MessageAt(c, p, n), c.attempts(call));
      r.Ended? && Deduplication.NothingLapsed(u.system.log)
    ensures NoSkip(Handled(v, MessageAt(c, p, n), c.attempts(call)).1.answer)
  {
    hide Deliver, Deduplication.NothingLapsed, Initial;
    if MessageAt(c, p, n).Payload? {
      var more := HandlingDelivers(c, w, jobs, v, p, n, call);
      DeliveriesAreFaultless(c, more);
      assert more[..|more| - 1] == jobs;
      LastIsNotBlocked(w, more);
    }
  }

  // Reached by deliveries of messages of the log.
  ghost function ReachedByDeliveries(c: Surroundings, w: World): World -> bool {
    v => exists jobs :: Delivered(c, w, jobs, v)
  }

  // Unless some marker expired by now, the answer was no skip for a held lock.
  ghost function NoSkipUnlessLapsed(): (World, nat, nat, Answer) -> bool {
    (v: World, partition: nat, offset: nat, answer: Answer) =>
      Deduplication.NothingLapsed(v.system.log) ==> NoSkip(answer)
  }

  lemma FaultlessHandlingUpholds(c: Surroundings, w: World)
    requires Initial(w.system) && w.next == 0 && FaultlessAttempts(c)
    ensures Base.Upheld(EnvOf(c), ReachedByDeliveries(c, w), NoSkipUnlessLapsed())
  {
    hide Handled, FaultlessAttempts, Deduplication.NothingLapsed, NoSkip, Delivered;
    forall v: World, p: nat, n: nat, call: nat | ReachedByDeliveries(c, w)(v)
      ensures var (u, r) := EnvOf(c).process(v, p, n, call);
        && ReachedByDeliveries(c, w)(u)
        && (r.Ended? ==> NoSkipUnlessLapsed()(u, p, n, r.answer))
        && forall q, m, answer | NoSkipUnlessLapsed()(v, q, m, answer) :: NoSkipUnlessLapsed()(u, q, m, answer)
    {
      var jobs :| Delivered(c, w, jobs, v);
      var (u, r) := Handled(v, MessageAt(c, p, n), c.attempts(call));
      var more := HandlingDelivers(c, w, jobs, v, p, n, call);
      if r.Ended? && Deduplication.NothingLapsed(u.system.log) {
        NoSkipAfterDeliveries(c, w, jobs, v, p, n, call);
      }
      HandlingGrowsLog(v, MessageAt(c, p, n), c.attempts(call));
      if Deduplication.NothingLapsed(u.system.log) {
        Deduplication.PrefixLapsedLess(v.system.log, u.system.log);
      }
    }
  }

  /**
   From a fresh Redis, with no Redis fault, no kill inside `process` and no expiry, and
   with whatever happens to evaluations, commits and sends over any number of runs: the
   consumer has made some deliveries of messages of the log, the database is what a set of
   seen ids makes of them, and no message was ever skipped for a held lock.
   */
  lemma PipelineRefinesDeduplication(c: Surroundings, cfg: Base.Settings, w: World, runs: seq<Base.Lifetime>)
    returns (jobs: seq<Job>)
    requires Initial(w.system) && w.next == 0 && FaultlessAttempts(c)
    requires Deduplication.NothingLapsed(Outcome(c, cfg, w, runs).world.system.log)
    ensures var s := Outcome(c, cfg, w, runs);
      && DeliveriesOf(c, jobs) && s.world == DeliverAll(w, jobs)
      && s.world.db == Deduplication.DedupAll(Deduplication.Seen({}, w.db), jobs).db
      && forall p: nat, n: nat, answer: Answer | (p, n, Base.Returned(answer)) in s.outcomes :: NoSkip(answer)
  {
    var s := Outcome(c, cfg, w, runs);
    FaultlessHandlingUpholds(c, w);
    assert Delivered(c, w, [], w);
    hide Delivered, Base.Upheld, Handled, Base.Live;
    Base.OutcomesAreTruthful(EnvOf(c), cfg, FirstState(w), runs, ReachedByDeliveries(c, w), NoSkipUnlessLapsed());
    assert ReachedByDeliveries(c, w)(s.world);
    jobs :| Delivered(c, w, jobs, s.world);
    DeliveredMeans(c, w, jobs, s.world);
    DeliveriesAreFaultless(c, jobs);
    hide Deduplication.NothingLapsed;
    Deduplication.RefinesDeduplication(w, jobs);
    forall p: nat, n: nat, answer: Answer | (p, n, Base.Returned(answer)) in s.outcomes ensures NoSkip(answer) {
      assert NoSkipUnlessLapsed()(s.world, p, n, answer);
    }
  }

  lemma DeliveredMeans(c: Surroundings, w: World, jobs: seq<Job>, v: World)
    requires Delivered(c, w, jobs, v)
    ensures v == DeliverAll(w, jobs) && DeliveriesOf(c, jobs)
  {
  }
}
