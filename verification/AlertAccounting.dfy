/**
 Redis and the database together: every unit of work a processor commits is one committed
 evaluation, so what bounds the commits of a key bounds the alerts of its transaction.
 */
module AlertAccounting {
  import opened Wrappers
  import opened Redis
  import opened Protocol
  import opened MutualExclusion
  import opened ChargedDuplicates
  import opened SingleConsumer
  import opened DatabaseRuns
  import Evaluation
  import opened Delivery
  import opened TransactionConsumer

  datatype Joint = Joint(system: System, db: Evaluation.Db)

  // A processor's action, with what its unit of work is about if it carries one out and
  // what it uses up if not; or something that happens to the database elsewhere: an
  // evaluation for another caller, a review, a change of configuration.
  datatype Move =
    | Consuming(action: Action, input: Evaluation.Input, numbers: nat, ids: nat)
    | Elsewhere(step: DatabaseRuns.Step)

  /** This action commits a unit of work. */
  predicate CarriesOut(s: System, a: Action) {
    a.Perform? && a.pid in s.processors && s.processors[a.pid].phase == Evaluating && a.fault != FailBefore
  }

  function WorkOf(s: System, m: Move): DatabaseRuns.Step {
    match m
    case Elsewhere(step) => step
    case Consuming(a, input, numbers, ids) => if CarriesOut(s, a) then Evaluation(input) else RolledBack(numbers, ids)
  }

  function Moved(w: Joint, m: Move): Joint {
    Joint(if m.Consuming? then Do(w.system, m.action) else w.system, Apply(w.db, WorkOf(w.system, m)))
  }

  function MoveAll(w: Joint, moves: seq<Move>): Joint {
    if moves == [] then w else Moved(MoveAll(w, moves[..|moves| - 1]), moves[|moves| - 1])
  }

  /** A unit of work is about the transaction its processor was started for. */
  predicate Fitting(s: System, m: Move) {
    m.Consuming? && CarriesOut(s, m.action) ==> s.processors[m.action.pid].key == KeyFor(m.input.request.externalId)
  }

  predicate FittingThroughout(w: Joint, moves: seq<Move>) {
    moves != [] ==>
      FittingThroughout(w, moves[..|moves| - 1]) && Fitting(MoveAll(w, moves[..|moves| - 1]).system, moves[|moves| - 1])
  }

  // ----- the two halves of a joint run -----

  function ActionsOf(moves: seq<Move>): seq<Action> {
    if moves == [] then []
    else ActionsOf(moves[..|moves| - 1]) + if moves[|moves| - 1].Consuming? then [moves[|moves| - 1].action] else []
  }

  function StepsOf(w: Joint, moves: seq<Move>): seq<DatabaseRuns.Step> {
    if moves == [] then []
    else StepsOf(w, moves[..|moves| - 1]) + [WorkOf(MoveAll(w, moves[..|moves| - 1]).system, moves[|moves| - 1])]
  }

  /** A joint run is a run of the processors beside a history of the database. */
  lemma {:induction false} Halves(w: Joint, moves: seq<Move>)
    ensures MoveAll(w, moves) == Joint(Run(w.system, ActionsOf(moves)), Replay(w.db, StepsOf(w, moves)))
  {
    if moves != [] {
      var before, m := moves[..|moves| - 1], moves[|moves| - 1];
      Halves(w, before);
      hide Do, Apply, WorkOf;
      if m.Consuming? {
        RunAppend(w.system, ActionsOf(before), m.action);
      } else {
        assert ActionsOf(moves) == ActionsOf(before);
      }
      var step := WorkOf(MoveAll(w, before).system, m);
      assert (StepsOf(w, before) + [step])[..|StepsOf(w, before)|] == StepsOf(w, before);
    }
  }

  // ----- commits are evaluations -----

  predicate IsEvaluationOf(s: DatabaseRuns.Step, externalId: string) {
    s.Evaluation? && s.input.request.externalId == externalId
  }

  function EvaluationsOf(steps: seq<DatabaseRuns.Step>, externalId: string): nat {
    if steps == [] then 0
    else
      EvaluationsOf(steps[..|steps| - 1], externalId)
      + if IsEvaluationOf(steps[|steps| - 1], externalId) then 1 else 0
  }

  /** Evaluations of an external id made for other callers. */
  function EvaluationsElsewhere(moves: seq<Move>, externalId: string): nat {
    if moves == [] then 0
    else
      var m := moves[|moves| - 1];
      EvaluationsElsewhere(moves[..|moves| - 1], externalId)
      + if m.Elsewhere? && IsEvaluationOf(m.step, externalId) then 1 else 0
  }

  lemma CommitsAfter(s: System, a: Action, key: string)
    requires WellKeyed(s)
    ensures Commits(Do(s, a).log, key) ==
            Commits(s.log, key) + if CarriesOut(s, a) && s.processors[a.pid].key == key then 1 else 0
  {
    var t := Do(s, a);
    LogGrows(s, a);
    if t.log != s.log {
      var e := t.log[|s.log|];
      assert t.log[..|s.log|] == s.log;
      assert t.log == s.log + [e];
      if !a.Tick? {
        EventsAreAboutOwnKey(s, a);
      }
    }
    if a.Perform? && a.pid in s.processors {
      OwnStepOnMarker(s, a.pid, a.fault, a.result);
    }
  }

  /** The commits of a key are the evaluations of its transaction that were not made elsewhere. */
  lemma {:induction false} CommitsAreEvaluations(w: Joint, moves: seq<Move>, externalId: string)
    requires Initial(w.system) && FittingThroughout(w, moves)
    ensures EvaluationsOf(StepsOf(w, moves), externalId) ==
            Commits(MoveAll(w, moves).system.log, KeyFor(externalId)) + EvaluationsElsewhere(moves, externalId)
  {
    if moves != [] {
      var before, m := moves[..|moves| - 1], moves[|moves| - 1];
      var earlier := MoveAll(w, before).system;
      CommitsAreEvaluations(w, before, externalId);
      Halves(w, before);
      RunKeepsWellKeyed(w.system, ActionsOf(before));
      assert StepsOf(w, moves)[..|before|] == StepsOf(w, before) by { StepsLength(w, before); }
      hide Do, Apply, Run, Replay, CarriesOut;
      StepsLength(w, before);
      if m.Consuming? {
        CommitsAfter(earlier, m.action, KeyFor(externalId));
        KeyDeterminesId(MESSAGE_TYPE, m.input.request.externalId, externalId);
      }
    }
  }

  lemma {:induction false} StepsLength(w: Joint, moves: seq<Move>)
    ensures |StepsOf(w, moves)| == |moves|
  {
    if moves != [] {
      StepsLength(w, moves[..|moves| - 1]);
    }
  }

  lemma {:induction false} AlertingAreEvaluations(steps: seq<DatabaseRuns.Step>, externalId: string)
    ensures AlertingEvaluations(steps, externalId) <= EvaluationsOf(steps, externalId)
  {
    if steps != [] {
      AlertingAreEvaluations(steps[..|steps| - 1], externalId);
    }
  }

  // ----- the bounds -----

  lemma AlertsAtMostCommits(w: Joint, moves: seq<Move>, externalId: string)
    requires Initial(w.system) && Sound(w.db) && FittingThroughout(w, moves)
    ensures AlertsUnder(MoveAll(w, moves).db, externalId) <=
            AlertsUnder(w.db, externalId) + Commits(Run(w.system, ActionsOf(moves)).log, KeyFor(externalId))
            + EvaluationsElsewhere(moves, externalId)
  {
    hide AlertsUnder, Sound, Run, Replay, Commits;
    Halves(w, moves);
    CommitsAreEvaluations(w, moves, externalId);
    AlertingAreEvaluations(StepsOf(w, moves), externalId);
    AlertsMatchEvaluations(w.db, StepsOf(w, moves), externalId);
  }

  /**
   One consumer, whatever fails, redelivers, crashes or restarts: the alerts of a
   transaction grow by at most one, plus one for each failure or kill between a commit and
   its mark, each expiry of the marker and each evaluation made elsewhere.
   */
  lemma AlertsAreCharged(w: Joint, moves: seq<Move>, externalId: string)
    requires Initial(w.system) && Sound(w.db) && FittingThroughout(w, moves)
    requires SoloThroughout(w.system, ActionsOf(moves))
    ensures AlertsUnder(MoveAll(w, moves).db, externalId) <=
            AlertsUnder(w.db, externalId) + 1 + Charges(MoveAll(w, moves).system.log, KeyFor(externalId))
            + EvaluationsElsewhere(moves, externalId)
  {
    MadeKeysAreMarkers(MESSAGE_TYPE, externalId);
    Halves(w, moves);
    AlertsAtMostCommits(w, moves, externalId);
    hide AlertsUnder, Sound, Run, MoveAll, Commits, Charges;
    DuplicatesAreCharged(w.system, ActionsOf(moves), KeyFor(externalId));
  }

  /** The same for any number of consumers, as long as no critical section outlives the lock. */
  lemma ConcurrentAlertsAreCharged(w: Joint, moves: seq<Move>, externalId: string)
    requires Initial(w.system) && Sound(w.db) && FittingThroughout(w, moves)
    requires TimelyThroughout(w.system, ActionsOf(moves), KeyFor(externalId))
    ensures AlertsUnder(MoveAll(w, moves).db, externalId) <=
            AlertsUnder(w.db, externalId) + 1 + Charges(MoveAll(w, moves).system.log, KeyFor(externalId))
            + StaleCommits(MoveAll(w, moves).system.log, KeyFor(externalId))
            + EvaluationsElsewhere(moves, externalId)
  {
    MadeKeysAreMarkers(MESSAGE_TYPE, externalId);
    Halves(w, moves);
    AlertsAtMostCommits(w, moves, externalId);
    hide AlertsUnder, Sound, Run, MoveAll, Commits, Charges, StaleCommits;
    ConcurrentDuplicatesAreCharged(w.system, ActionsOf(moves), KeyFor(externalId));
  }

  // ----- deliveries are joint runs -----

  predicate FittingJob(job: Job) {
    job.work.Lands? ==> job.work.input.request.externalId == job.externalId
  }

  // A joint run of this consumer alone that has led to this state, with one processor under way.
  ghost predicate Leads(o: Joint, moves: seq<Move>, w: Joint, pid: nat) {
    && MoveAll(o, moves) == w && FittingThroughout(o, moves)
    && (forall m | m in moves :: m.Consuming?)
    && Proceeding(o.system, ActionsOf(moves), pid)
    && forall p | p in w.system.processors :: p <= pid
  }

  // The same between messages.
  ghost predicate Rests(o: Joint, moves: seq<Move>, w: World) {
    && MoveAll(o, moves) == Joint(w.system, w.db) && FittingThroughout(o, moves)
    && (forall m | m in moves :: m.Consuming?)
    && Initial(o.system) && SoloThroughout(o.system, ActionsOf(moves)) && Idle(w.system)
    && forall p | p in w.system.processors :: p < w.next
  }

  lemma {:induction false} NothingElsewhere(moves: seq<Move>, externalId: string)
    requires forall m | m in moves :: m.Consuming?
    ensures EvaluationsElsewhere(moves, externalId) == 0
  {
    if moves != [] {
      NothingElsewhere(moves[..|moves| - 1], externalId);
      assert moves[|moves| - 1] in moves;
    }
  }

  lemma AppendMove(o: Joint, moves: seq<Move>, m: Move)
    requires m.Consuming?
    ensures MoveAll(o, moves + [m]) == Moved(MoveAll(o, moves), m)
    ensures ActionsOf(moves + [m]) == ActionsOf(moves) + [m.action]
    ensures FittingThroughout(o, moves) && Fitting(MoveAll(o, moves).system, m) ==> FittingThroughout(o, moves + [m])
  {
    assert (moves + [m])[..|moves + [m]| - 1] == moves;
  }

  /** Time passes and the processor makes its next call, which carries out its unit of work or none. */
  lemma StepMoves(o: Joint, moves: seq<Move>, w: Joint, pid: nat, elapsed: nat, fault: Fault, result: Dict,
                  input: Evaluation.Input, numbers: nat, ids: nat) returns (later: seq<Move>)
    requires Leads(o, moves, w, pid)
    requires InPhase(w.system, pid, Evaluating) && fault != FailBefore ==>
               w.system.processors[pid].key == KeyFor(input.request.externalId)
    ensures Leads(o, later, Joint(Protocol.Step(w.system, pid, elapsed, fault, result),
              if InPhase(w.system, pid, Evaluating) && fault != FailBefore then Apply(w.db, Evaluation(input))
              else Apply(w.db, RolledBack(numbers, ids))), pid)
  {
    var tick := Consuming(Tick(elapsed), input, 0, 0);
    var call := Consuming(Perform(pid, fault, result), input, numbers, ids);
    Halves(o, moves);
    AppendMove(o, moves, tick);
    AppendMove(o, moves + [tick], call);
    later := moves + [tick] + [call];
    hide Run, SoloThroughout, FittingThroughout;
    Proceed(o.system, ActionsOf(moves), pid, elapsed, fault, result);
    hide Proceeding, Advance;
    assert Apply(w.db, RolledBack(0, 0)) == w.db;
  }

  /** A Redis call does nothing to the database. */
  lemma CallMoves(o: Joint, moves: seq<Move>, w: Joint, pid: nat, call: Call, input: Evaluation.Input)
    returns (later: seq<Move>)
    requires Leads(o, moves, w, pid) && !InPhase(w.system, pid, Evaluating)
    ensures Leads(o, later, Joint(Calling(w.system, pid, call), w.db), pid)
  {
    later := StepMoves(o, moves, w, pid, call.elapsed, call.fault, map[], input, 0, 0);
    assert Apply(w.db, RolledBack(0, 0)) == w.db;
  }

  /** Where one step can lead a processor. */
  lemma PhaseAfter(s: System, pid: nat, elapsed: nat, fault: Fault, result: Dict)
    requires pid in s.processors
    ensures var t := Protocol.Step(s, pid, elapsed, fault, result);
      pid in t.processors &&
      match s.processors[pid].phase
      case Checking => HasEnded(t, pid) || InPhase(t, pid, Fetching) || InPhase(t, pid, Locking)
      case Locking => HasEnded(t, pid) || InPhase(t, pid, Evaluating)
      case Evaluating => InPhase(t, pid, Marking) || InPhase(t, pid, Releasing)
      case Marking => InPhase(t, pid, Releasing)
      case _ => HasEnded(t, pid)
  {
  }

  /** The unit of work, as one call, changes the database as `EvaluateOn` says. */
  lemma WorkMoves(o: Joint, moves: seq<Move>, w: Joint, pid: nat, duration: nat, work: Work, input: Evaluation.Input)
    returns (later: seq<Move>)
    requires Leads(o, moves, w, pid) && InPhase(w.system, pid, Evaluating)
    requires work.Lands? ==> input == work.input && w.system.processors[pid].key == KeyFor(input.request.externalId)
    ensures Leads(o, later, Joint(Protocol.Step(w.system, pid, duration, FaultOf(work), TextOf(w.db, work)),
                                  EvaluateOn(w.db, work)), pid)
  {
    hide Leads, Protocol.Step;
    later := StepMoves(o, moves, w, pid, duration, FaultOf(work), TextOf(w.db, work), input,
                       if work.Fails? then work.numbers else 0, if work.Fails? then work.ids else 0);
  }

  lemma StartMoves(o: Joint, moves: seq<Move>, w: World, externalId: string, input: Evaluation.Input)
    returns (later: seq<Move>)
    requires Rests(o, moves, w)
    ensures var t := Do(w.system, Start(w.next, MESSAGE_TYPE, externalId));
      && Leads(o, later, Joint(t, w.db), w.next)
      && InPhase(t, w.next, Checking)
  {
    var m := Consuming(Start(w.next, MESSAGE_TYPE, externalId), input, 0, 0);
    later := moves + [m];
    Halves(o, moves);
    AppendMove(o, moves, m);
    hide Run, SoloThroughout, FittingThroughout;
    Begin(o.system, ActionsOf(moves), w.next, externalId);
    assert Apply(w.db, RolledBack(0, 0)) == w.db;
  }

  lemma EnterMoves(o: Joint, moves: seq<Move>, w: Joint, pid: nat, check: Call, next: Call, input: Evaluation.Input)
    returns (later: seq<Move>)
    requires Leads(o, moves, w, pid) && InPhase(w.system, pid, Checking)
    ensures var t := Entered(w.system, pid, check, next);
      Leads(o, later, Joint(t, w.db), pid) && (HasEnded(t, pid) || InPhase(t, pid, Evaluating))
  {
    hide Leads, Protocol.Step;
    var checked := Calling(w.system, pid, check);
    PhaseAfter(w.system, pid, check.elapsed, check.fault, map[]);
    later := CallMoves(o, moves, w, pid, check, input);
    if !HasEnded(checked, pid) {
      PhaseAfter(checked, pid, next.elapsed, next.fault, map[]);
      later := CallMoves(o, later, Joint(checked, w.db), pid, next, input);
    }
  }

  lemma LeaveMoves(o: Joint, moves: seq<Move>, w: Joint, pid: nat, mark: Call, release: Call, input: Evaluation.Input)
    returns (later: seq<Move>)
    requires Leads(o, moves, w, pid) && (InPhase(w.system, pid, Marking) || InPhase(w.system, pid, Releasing))
    ensures var t := Left(w.system, pid, mark, release);
      Leads(o, later, Joint(t, w.db), pid) && HasEnded(t, pid)
  {
    hide Leads, Protocol.Step;
    later := moves;
    var marked := w.system;
    if InPhase(w.system, pid, Marking) {
      marked := Calling(w.system, pid, mark);
      PhaseAfter(w.system, pid, mark.elapsed, mark.fault, map[]);
      later := CallMoves(o, later, w, pid, mark, input);
    }
    PhaseAfter(marked, pid, release.elapsed, release.fault, map[]);
    later := CallMoves(o, later, Joint(marked, w.db), pid, release, input);
  }

  lemma EndedRests(o: Joint, moves: seq<Move>, w: World)
    requires w.next > 0 && Leads(o, moves, Joint(w.system, w.db), w.next - 1) && HasEnded(w.system, w.next - 1)
    ensures Rests(o, moves, w)
  {
    Halves(o, moves);
    AloneAndFinishedIsIdle(w.system, w.next - 1);
  }

  lemma NextIsFree(o: Joint, moves: seq<Move>, w: World)
    requires Rests(o, moves, w)
    ensures w.next !in w.system.processors
  {
  }

  lemma AdmitMoves(o: Joint, moves: seq<Move>, w: World, job: Job, input: Evaluation.Input) returns (later: seq<Move>)
    requires Rests(o, moves, w)
    ensures var t := Admitted(w, job);
      && Leads(o, later, Joint(t, w.db), w.next)
      && (HasEnded(t, w.next) || InPhase(t, w.next, Evaluating))
      && w.next in t.processors && t.processors[w.next].key == KeyFor(job.externalId)
  {
    hide Leads, Rests, Do, Entered, KeyFor, MakeKey, Fresh;
    NextIsFree(o, moves, w);
    AdmittedKey(w, job);
    later := StartMoves(o, moves, w, job.externalId, input);
    var started := Do(w.system, Start(w.next, MESSAGE_TYPE, job.externalId));
    later := EnterMoves(o, later, Joint(started, w.db), w.next, job.check, job.next, input);
  }

  lemma DeliverMoves(o: Joint, moves: seq<Move>, w: World, job: Job, input: Evaluation.Input) returns (later: seq<Move>)
    requires Rests(o, moves, w) && FittingJob(job) && (job.work.Lands? ==> input == job.work.input)
    ensures Rests(o, later, Deliver(w, job))
  {
    hide Leads, Rests, Admitted, Protocol.Step, Left, EvaluateOn, KeyFor;
    var pid, admitted := w.next, Admitted(w, job);
    later := AdmitMoves(o, moves, w, job, input);
    if InPhase(admitted, pid, Evaluating) {
      later := FinishMoves(o, later, Joint(admitted, w.db), pid, job, input);
      EndedRests(o, later,
          World(Left(Worked(w, job), pid, job.mark, job.release), EvaluateOn(w.db, job.work), pid + 1));
    } else {
      EndedRests(o, later, World(admitted, w.db, pid + 1));
    }
  }

  lemma FinishMoves(o: Joint, moves: seq<Move>, w: Joint, pid: nat, job: Job, input: Evaluation.Input)
    returns (later: seq<Move>)
    requires Leads(o, moves, w, pid) && InPhase(w.system, pid, Evaluating)
    requires w.system.processors[pid].key == KeyFor(job.externalId)
    requires FittingJob(job) && (job.work.Lands? ==> input == job.work.input)
    ensures var left := Left(Protocol.Step(w.system, pid, job.duration, FaultOf(job.work),
        TextOf(w.db, job.work)), pid, job.mark, job.release);
      Leads(o, later, Joint(left, EvaluateOn(w.db, job.work)), pid) && HasEnded(left, pid)
  {
    hide Leads, Protocol.Step, Left, EvaluateOn, KeyFor;
    var worked := Protocol.Step(w.system, pid, job.duration, FaultOf(job.work), TextOf(w.db, job.work));
    PhaseAfter(w.system, pid, job.duration, FaultOf(job.work), TextOf(w.db, job.work));
    later := WorkMoves(o, moves, w, pid, job.duration, job.work, input);
    later := LeaveMoves(o, later, Joint(worked, EvaluateOn(w.db, job.work)), pid, job.mark, job.release, input);
  }

  lemma AdmittedKey(w: World, job: Job)
    requires w.next !in w.system.processors
    ensures var s := Admitted(w, job); w.next in s.processors && s.processors[w.next].key == KeyFor(job.externalId)
  {
    var s := Do(w.system, Start(w.next, MESSAGE_TYPE, job.externalId));
    StepKeepsKey(s, w.next, job.check);
    StepKeepsKey(Calling(s, w.next, job.check), w.next, job.next);
  }

  lemma StepKeepsKey(s: System, pid: nat, call: Call)
    requires pid in s.processors
    ensures pid in Calling(s, pid, call).processors
        && Calling(s, pid, call).processors[pid].key == s.processors[pid].key
  {
    KeyStays(s, Tick(call.elapsed), pid);
    KeyStays(Do(s, Tick(call.elapsed)), Perform(pid, call.fault, map[]), pid);
  }

  /** Any sequence of deliveries is a joint run of one consumer. */
  lemma {:induction false} DeliveriesAreMoves(
      w: World, jobs: seq<Job>, input: Evaluation.Input)
    returns (moves: seq<Move>)
    requires Initial(w.system) && forall job | job in jobs :: FittingJob(job)
    ensures Rests(Joint(w.system, w.db), moves, DeliverAll(w, jobs))
  {
    if jobs == [] {
      moves := [];
    } else {
      var job := jobs[|jobs| - 1];
      moves := DeliveriesAreMoves(w, jobs[..|jobs| - 1], input);
      hide Rests, Deliver;
      moves := DeliverMoves(Joint(w.system, w.db), moves, DeliverAll(w, jobs[..|jobs| - 1]), job,
                            if job.work.Lands? then job.work.input else input);
    }
  }

  /**
   Whatever Redis and the database do to a sequence of deliveries, the alerts of a
   transaction grow by at most one plus one for each charge of its key.
   */
  lemma DeliveredAlertsAreCharged(w: World, jobs: seq<Job>, externalId: string)
    requires Initial(w.system) && Sound(w.db) && forall job | job in jobs :: FittingJob(job)
    ensures var after := DeliverAll(w, jobs);
      AlertsUnder(after.db, externalId) <= AlertsUnder(w.db, externalId) + 1 + Charges(after.system.log,
          KeyFor(externalId))
  {
    var o := Joint(w.system, w.db);
    var input: Evaluation.Input :| true;
    var moves := DeliveriesAreMoves(w, jobs, input);
    NothingElsewhere(moves, externalId);
    AlertsAreCharged(o, moves, externalId);
  }
}
