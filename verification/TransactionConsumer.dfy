/**
 Processing one transaction message: the guard, the evaluation under it, and what the
 two leave behind in Redis and in the database.
 */
module TransactionConsumer {
  import opened Wrappers
  import opened Redis
  import opened Protocol
  import opened Idempotency
  import opened SingleConsumer
  import opened Tables
  import opened Database
  import opened FraudDetector
  import opened Delivery
  import Base = BaseConsumer
  import Evaluation

  datatype Status = Processed | Skipped | Invalid

  datatype ProcessError =
    | BadMessage | GuardFailed | InvalidData | NoDetector
    | EvaluationFailed(error: Evaluation.EvaluationError)

  // ----- one processor alone on the shared state -----

  ghost predicate Alone(s: System, pid: nat) {
    pid in s.processors && forall p | Underway(s, p) :: p == pid
  }

  ghost predicate Idle(s: System) {
    forall p :: !Underway(s, p)
  }

  // A history of single processors that has led to a state where only this one is under way.
  ghost predicate Proceeding(origin: System, history: seq<Action>, pid: nat) {
    && Initial(origin) && SoloThroughout(origin, history) && Alone(Run(origin, history), pid)
    && WellKeyed(Run(origin, history))
  }

  lemma SoloAppend(origin: System, history: seq<Action>, a: Action)
    requires SoloThroughout(origin, history) && Solo(Run(origin, history + [a]))
    ensures SoloThroughout(origin, history + [a])
  {
    assert (history + [a])[..|history + [a]| - 1] == history;
  }

  lemma Begin(origin: System, history: seq<Action>, pid: nat, externalId: string)
    requires Initial(origin) && SoloThroughout(origin, history) && Idle(Run(origin, history))
    requires pid !in Run(origin, history).processors
    ensures var a := Start(pid, MESSAGE_TYPE, externalId);
      && Proceeding(origin, history + [a], pid)
      && Run(origin, history + [a]) == Do(Run(origin, history), a)
      && Do(Run(origin, history), a) == Put(Run(origin, history), pid, Fresh(MESSAGE_TYPE, externalId))
  {
    var a := Start(pid, MESSAGE_TYPE, externalId);
    RunAppend(origin, history, a);
    var s, t := Run(origin, history), Run(origin, history + [a]);
    forall p | Underway(t, p) ensures p == pid {
      assert p != pid ==> Underway(s, p);
    }
    SoloAppend(origin, history, a);
    assert WellKeyed(origin);
    RunKeepsWellKeyed(origin, history + [a]);
  }

  // Time passes or the lone processor makes a call: it stays the only one under way.
  lemma Extend(origin: System, history: seq<Action>, pid: nat, a: Action)
    requires Proceeding(origin, history, pid)
    requires a.Tick? || (a.Perform? && a.pid == pid)
    ensures Proceeding(origin, history + [a], pid)
    ensures Run(origin, history + [a]) == Do(Run(origin, history), a)
    ensures Do(Run(origin, history), a).processors.Keys == Run(origin, history).processors.Keys
    ensures Do(Run(origin, history), a).ttl == Run(origin, history).ttl
  {
    var s := Run(origin, history);
    RunAppend(origin, history, a);
    forall p ensures p in Do(s, a).processors <==> p in s.processors {
      KeyStays(s, a, p);
    }
    hide Do;
    forall p | p != pid ensures Underway(Do(s, a), p) ==> Underway(s, p) {
      OneProcessorMoves(s, a, p);
    }
    SoloAppend(origin, history, a);
    TtlStays(origin, history);
    TtlStays(origin, history + [a]);
    DoKeepsWellKeyed(s, a);
  }

  lemma Proceed(origin: System, history: seq<Action>, pid: nat, elapsed: nat, fault: Fault, result: Dict)
    requires Proceeding(origin, history, pid)
    ensures var later := history + [Tick(elapsed)] + [Perform(pid, fault, result)];
      && Proceeding(origin, later, pid)
      && Run(origin, later) == Step(Run(origin, history), pid, elapsed, fault, result)
      && Run(origin, later).processors.Keys == Run(origin, history).processors.Keys
      && Run(origin, later).ttl == Run(origin, history).ttl
  {
    hide Run, Do, Proceeding;
    Extend(origin, history, pid, Tick(elapsed));
    Extend(origin, history + [Tick(elapsed)], pid, Perform(pid, fault, result));
  }

  // ----- the calls of one processor, with what they leave behind -----

  lemma CheckStep(s: System, pid: nat, key: string, call: Call)
    requires pid in s.processors && s.processors[pid] == Processor(key, Checking, false, 0, None, map[])
    ensures var t := Step(s, pid, call.elapsed, call.fault, map[]);
      && t.now == s.now + call.elapsed && t.store == s.store && pid in t.processors && t.processors[pid].key == key
      && t.processors[pid].phase == (if call.fault != Fine then Finished(Raised)
                                     else if Live(s.store, t.now, key) then Fetching else Locking)
      && !t.processors[pid].raised
  {
  }

  lemma FetchStep(s: System, pid: nat, key: string, call: Call)
    requires pid in s.processors && s.processors[pid].key == key && s.processors[pid].phase == Fetching
    ensures var t := Step(s, pid, call.elapsed, call.fault, map[]);
      && t.now == s.now + call.elapsed && t.store == s.store && pid in t.processors && t.processors[pid].key == key
      && t.processors[pid].phase == Finished(if call.fault == Fine then Duplicate else Raised)
      && t.processors[pid].raised == s.processors[pid].raised
  {
  }

  lemma LockingStep(s: System, pid: nat, key: string, call: Call)
    requires pid in s.processors && s.processors[pid].key == key && s.processors[pid].phase == Locking
    requires !s.processors[pid].raised
    ensures var t := Step(s, pid, call.elapsed, call.fault, map[]);
      && t.now == s.now + call.elapsed && pid in t.processors && t.processors[pid].key == key
      && t.store == AfterSetNx(s.store, t.now, LockKey(key), LOCK_TTL / 1000, call.fault)
      && t.processors[pid].phase == (if call.fault != Fine then Finished(Raised)
                                     else if Live(s.store, t.now, LockKey(key)) then Finished(LockHeld) else Evaluating)
      && !t.processors[pid].raised
  {
  }

  lemma EvaluatingStep(s: System, pid: nat, key: string, elapsed: nat, fault: Fault, result: Dict)
    requires pid in s.processors && s.processors[pid].key == key && s.processors[pid].phase == Evaluating
    requires !s.processors[pid].raised
    ensures var t := Step(s, pid, elapsed, fault, result);
      && t.now == s.now + elapsed && t.store == s.store && pid in t.processors && t.processors[pid].key == key
      && t.processors[pid].phase == (if fault == Fine then Marking else Releasing)
      && t.processors[pid].raised == (fault != Fine)
      && (fault == Fine ==> t.processors[pid].result == result)
  {
  }

  lemma MarkingStep(s: System, pid: nat, key: string, call: Call)
    requires pid in s.processors && s.processors[pid].key == key && s.processors[pid].phase == Marking
    requires !s.processors[pid].raised
    requires s.ttl % 1000 == 0
    ensures var t := Step(s, pid, call.elapsed, call.fault, map[]);
      && t.now == s.now + call.elapsed && pid in t.processors && t.processors[pid].key == key
      && t.store == AfterSetEx(s.store, t.now, key, s.ttl / 1000, Encode(Some(s.processors[pid].result)), call.fault)
      && t.processors[pid].phase == Releasing && t.processors[pid].raised == (call.fault != Fine)
  {
    assert s.ttl == 1000 * (s.ttl / 1000);
  }

  lemma ReleasingStep(s: System, pid: nat, key: string, call: Call)
    requires pid in s.processors && s.processors[pid].key == key && s.processors[pid].phase == Releasing
    ensures var t := Step(s, pid, call.elapsed, call.fault, map[]);
      && t.now == s.now + call.elapsed && t.store == AfterDelete(s.store, LockKey(key), call.fault)
      && pid in t.processors && t.processors[pid].key == key
      && t.processors[pid].phase ==
           Finished(if s.processors[pid].raised || call.fault != Fine then Raised else Completed)
  {
  }

  function State(s: System, pid: nat): (Phase, bool)
    requires pid in s.processors
  {
    (s.processors[pid].phase, s.processors[pid].raised)
  }

  lemma FirstCall(origin: System, history: seq<Action>, pid: nat, key: string, call: Call) returns (later: seq<Action>)
    requires Proceeding(origin, history, pid)
    requires Run(origin, history).processors[pid] == Processor(key, Checking, false, 0, None, map[])
    ensures history <= later && Proceeding(origin, later, pid)
    ensures var s, t := Run(origin, history), Run(origin, later);
      && t == Calling(s, pid, call)
      && t.processors.Keys == s.processors.Keys && t.ttl == s.ttl
      && t.processors[pid].key == key && !t.processors[pid].raised
      && t.now == s.now + call.elapsed && t.store == s.store
      && t.processors[pid].phase == (if call.fault != Fine then Finished(Raised)
                                     else if Live(s.store, t.now, key) then Fetching else Locking)
  {
    hide Run, Step;
    var s := Run(origin, history);
    CheckStep(s, pid, key, call);
    Proceed(origin, history, pid, call.elapsed, call.fault, map[]);
    later := history + [Tick(call.elapsed)] + [Perform(pid, call.fault, map[])];
  }

  lemma SecondCall(origin: System, history: seq<Action>, pid: nat, key: string, call: Call) returns (later: seq<Action>)
    requires Proceeding(origin, history, pid)
    requires Run(origin, history).processors[pid].key == key && !Run(origin, history).processors[pid].raised
    requires Run(origin, history).processors[pid].phase == Fetching
        || Run(origin, history).processors[pid].phase == Locking
    ensures history <= later && Proceeding(origin, later, pid)
    ensures var s, t := Run(origin, history), Run(origin, later);
      && t == Calling(s, pid, call)
      && t.processors.Keys == s.processors.Keys && t.ttl == s.ttl
      && t.processors[pid].key == key && !t.processors[pid].raised
      && t.now == s.now + call.elapsed
      && if s.processors[pid].phase == Fetching then
           t.store == s.store && t.processors[pid].phase == Finished(if call.fault == Fine then Duplicate else Raised)
         else
           && t.store == AfterSetNx(s.store, t.now, LockKey(key), LOCK_TTL / 1000, call.fault)
           && t.processors[pid].phase == (if call.fault != Fine then Finished(Raised)
                else if Live(s.store, t.now, LockKey(key)) then Finished(LockHeld) else Evaluating)
  {
    hide Run, Step;
    var s := Run(origin, history);
    if s.processors[pid].phase == Fetching {
      FetchStep(s, pid, key, call);
    } else {
      LockingStep(s, pid, key, call);
    }
    Proceed(origin, history, pid, call.elapsed, call.fault, map[]);
    later := history + [Tick(call.elapsed)] + [Perform(pid, call.fault, map[])];
  }

  /** The history of `Guard.Enter`. */
  lemma EnterHistory(origin: System, history: seq<Action>, pid: nat, key: string, first: Call, second: Call)
    returns (later: seq<Action>)
    requires Proceeding(origin, history, pid)
    requires Run(origin, history).processors[pid] == Processor(key, Checking, false, 0, None, map[])
    ensures history <= later && Proceeding(origin, later, pid)
    ensures var s, t := Run(origin, history), Run(origin, later);
      var read := s.now + first.elapsed;
      && t == Entered(s, pid, first, second)
      && t.processors.Keys == s.processors.Keys && t.ttl == s.ttl
      && t.processors[pid].key == key && !t.processors[pid].raised
      && if first.fault != Fine then
           t.now == read && t.store == s.store && t.processors[pid].phase == Finished(Raised)
         else if Live(s.store, read, key) then
           && t.now == read + second.elapsed && t.store == s.store
           && t.processors[pid].phase == Finished(if second.fault == Fine then Duplicate else Raised)
         else
           && t.now == read + second.elapsed
           && t.store == AfterSetNx(s.store, t.now, LockKey(key), LOCK_TTL / 1000, second.fault)
           && t.processors[pid].phase == (if second.fault != Fine then Finished(Raised)
                else if Live(s.store, t.now, LockKey(key)) then Finished(LockHeld) else Evaluating)
  {
    hide Run, Step;
    later := FirstCall(origin, history, pid, key, first);
    if first.fault == Fine {
      later := SecondCall(origin, later, pid, key, second);
    }
  }

  /** The history of `Guard.Exit` once the lock was taken. */
  lemma ExitHistory(origin: System, history: seq<Action>, pid: nat, key: string, mark: Call, release: Call)
    returns (later: seq<Action>)
    requires Proceeding(origin, history, pid)
    requires Run(origin, history).processors[pid].key == key && Run(origin, history).ttl % 1000 == 0
    requires State(Run(origin, history), pid) in {(Marking, false), (Releasing, true)}
    ensures history <= later && Proceeding(origin, later, pid)
    ensures var s, t := Run(origin, history), Run(origin, later);
      var marks := s.processors[pid].phase == Marking;
      var marked := s.now + if marks then mark.elapsed else 0;
      var text := Encode(Some(s.processors[pid].result));
      var store := if marks then AfterSetEx(s.store, marked, key, s.ttl / 1000, text, mark.fault) else s.store;
      && t == Left(s, pid, mark, release)
      && t.now == marked + release.elapsed && t.store == AfterDelete(store, LockKey(key), release.fault)
      && t.processors.Keys == s.processors.Keys && t.ttl == s.ttl
      && t.processors[pid].key == key
      && t.processors[pid].phase ==
           Finished(if marks && mark.fault == Fine && release.fault == Fine then Completed else Raised)
  {
    hide Run, Step;
    later := history;
    if Run(origin, history).processors[pid].phase == Marking {
      MarkingStep(Run(origin, history), pid, key, mark);
      Proceed(origin, history, pid, mark.elapsed, mark.fault, map[]);
      later := history + [Tick(mark.elapsed)] + [Perform(pid, mark.fault, map[])];
    }
    ReleasingStep(Run(origin, later), pid, key, release);
    Proceed(origin, later, pid, release.elapsed, release.fault, map[]);
    later := later + [Tick(release.elapsed)] + [Perform(pid, release.fault, map[])];
  }

  /** The history of the body: the evaluation, seen from outside as one call. */
  lemma BodyHistory(
      origin: System, history: seq<Action>, pid: nat, key: string, elapsed: nat, fault: Fault, result: Dict)
    returns (later: seq<Action>)
    requires Proceeding(origin, history, pid)
    requires Run(origin, history).processors[pid].key == key
    requires State(Run(origin, history), pid) == (Evaluating, false)
    ensures history <= later && Proceeding(origin, later, pid)
    ensures var s, t := Run(origin, history), Run(origin, later);
      && t == Step(s, pid, elapsed, fault, result)
      && t.processors.Keys == s.processors.Keys && t.ttl == s.ttl
      && t.now == s.now + elapsed && t.store == s.store && t.processors[pid].key == key
      && State(t, pid) == (if fault == Fine then (Marking, false) else (Releasing, true))
      && (fault == Fine ==> t.processors[pid].result == result)
  {
    hide Run, Step;
    EvaluatingStep(Run(origin, history), pid, key, elapsed, fault, result);
    Proceed(origin, history, pid, elapsed, fault, result);
    later := history + [Tick(elapsed)] + [Perform(pid, fault, result)];
  }

  lemma AloneAndFinishedIsIdle(s: System, pid: nat)
    requires Alone(s, pid) && s.processors[pid].phase.Finished?
    ensures Idle(s)
  {
    assert !Underway(s, pid);
  }

  // How the evaluation of one message goes: the engine's score, what the clocks show, and
  // how long the whole unit of work takes.
  datatype Circumstances = Circumstances(engine: Option<Score>, at: Evaluation.Instants, duration: nat)

  function TrialOf(work: Delivery.Work): Trial {
    match work
    case Fails(numbers, ids) => NotMade(numbers, ids)
    case Lands(input, told) => Made(input.score, input.at, told)
  }

  // What a message meets at the guard.
  datatype Way = CallFailed | AlreadyMarked | Locked | Free

  lemma TakingAFreeLock(data: Store, now: nat, lock: string)
    requires !Live(data, now, lock)
    ensures AfterSetNx(data, now, lock, LOCK_TTL / 1000, Fine) == data[lock := Entry(One, now + LOCK_TTL)]
  {
  }

  lemma MarkingAndReleasing(data: Store, marked: nat, key: string, seconds: nat, text: Text)
    ensures AfterDelete(AfterSetEx(data, marked, key, seconds, text, Fine), LockKey(key), Fine) ==
            data[key := Entry(text, marked + 1000 * seconds)] - {LockKey(key)}
  {
  }

  lemma KeyApartFromItsLock(messageType: string, externalId: string)
    ensures LockKey(MakeKey(messageType, externalId)) != MakeKey(messageType, externalId)
  {
    MadeKeysAreMarkers(messageType, externalId);
    KeysApart(MakeKey(messageType, externalId), MakeKey(messageType, externalId));
  }

  class Consumer {
    const redis: Server
    const idempotency: Service
    const session: Session
    var detectorReady: bool
    // The interleaving this consumer's calls amount to, and the processors used so far.
    ghost const origin: System
    ghost var history: seq<Action>
    ghost var started: nat

    ghost predicate Valid()
      reads this, redis, session
    {
      && idempotency.redis == redis && idempotency.ttl > 0
      && origin.ttl == 1000 * idempotency.ttl
      && Initial(origin) && SoloThroughout(origin, history)
      && Idle(Run(origin, history))
      && (forall p | p in Run(origin, history).processors :: p < started)
      && Run(origin, history).now == redis.now && Run(origin, history).store == redis.data
      && Evaluation.FreshIds(Evaluation.Snapshot(session))
    }

    constructor (redis: Server, session: Session)
      requires redis.data == map[] && Evaluation.FreshIds(Evaluation.Snapshot(session))
      ensures Valid() && this.redis == redis && this.session == session && history == [] && !detectorReady
    {
      this.redis, this.session, detectorReady := redis, session, false;
      var service := new Service(redis, None);
      idempotency := service;
      origin := System(redis.now, map[], 1000 * service.ttl, map[], []);
      history, started := [], 0;
    }

    /** `start` ends with the detector ready. */
    method Start()
      requires Valid()
      modifies this`detectorReady
      ensures Valid() && detectorReady
    {
      detectorReady := true;
    }

    /** The processors' view after the history so far. */
    ghost function View(): System
      reads this
    {
      Run(origin, history)
    }

    /** What stands between messages: Redis with its processors, and the database. */
    ghost function Between(): World
      reads this, session
    {
      World(View(), Evaluation.Snapshot(session), started)
    }

    // What the processor of a message came to, as the processors' view has it.
    ghost predicate Ended(pid: nat, key: string, ending: Ending)
      reads this
    {
      var t := Run(origin, history);
      pid in t.processors && t.processors[pid].key == key && t.processors[pid].phase == Finished(ending)
    }

    /**
     `_process_transaction`: validate, then evaluate in a session of its own. `landed` tells
     whether the unit of work was committed, whatever the caller is told.
     */
    method ProcessTransaction(request: Option<Request>, engine: Option<Score>, at: Evaluation.Instants)
      returns (r: Result<Dict, ProcessError>, ghost landed: bool)
      requires Evaluation.FreshIds(Evaluation.Snapshot(session))
      modifies session
      ensures Evaluation.FreshIds(Evaluation.Snapshot(session))
      ensures r.Success? <==>
        request.Some? && detectorReady && engine.Some? && session.Clean(old(session.step), session.step)
      ensures request.None? ==> r == Failure(InvalidData) && unchanged(session)
      ensures request.Some? && !detectorReady ==> r == Failure(NoDetector) && unchanged(session)
      ensures request.Some? && detectorReady ==>
        session.step > old(session.step) && (r.Failure? ==> r.error.EvaluationFailed?)
      ensures r.Success? ==>
        landed && r.value != map[] && r.value == ResultDict(Evaluation.ResultOf(old(Evaluation.Snapshot(session)),
                                                            Evaluation.Input(request.value, engine.value, at)))
      ensures landed ==>
        && request.Some? && engine.Some?
        && Evaluation.Snapshot(session) == Evaluation.Evaluated(old(Evaluation.Snapshot(session)),
                                                                Evaluation.Input(request.value, engine.value, at))
      ensures !landed ==>
        && session.committed == old(session.committed)
        && session.sequence >= old(session.sequence) && session.ids >= old(session.ids)
    {
      if request.None? { return Failure(InvalidData), false; }
      if !detectorReady { return Failure(NoDetector), false; }
      ghost var before := Evaluation.Snapshot(session);
      var evaluated := Evaluation.Evaluate(session, request.value, engine, at);
      if engine.Some? {
        Evaluation.EvaluationKeepsFreshIds(before, Evaluation.Input(request.value, engine.value, at));
      }
      if evaluated.Failure? {
        return Failure(EvaluationFailed(evaluated.error)),
               evaluated.error == Evaluation.DatabaseError(CommitFailed)
                   && session.faults(session.step - 1) != FailBefore;
      }
      r, landed := Success(ResultDict(evaluated.value)), true;
      assert "external_id" in r.value;
    }

    // One processor is under way, and Redis is as the shared protocol has it.
    ghost predicate InFlight(pid: nat, key: string)
      reads this, redis
    {
      && idempotency.redis == redis && idempotency.ttl > 0
      && Proceeding(origin, history, pid)
      && (forall p | p in View().processors :: p < started)
      && View().now == redis.now && View().store == redis.data
      && View().ttl == origin.ttl == 1000 * idempotency.ttl
      && pid in View().processors && View().processors[pid].key == key
    }

    ghost predicate Phased(pid: nat, phase: Phase, raised: bool)
      reads this
    {
      pid in View().processors && State(View(), pid) == (phase, raised)
    }

    /** When the second of two planned calls is made. */
    ghost function Asked(now: nat, first: nat): nat {
      now + redis.plan(first).elapsed + redis.plan(first + 1).elapsed
    }

    /**
     What a message with this key meets, by the state of Redis before and the next two
     planned calls: reading the marker, and fetching its result or asking for the lock.
     */
    ghost function WayIn(data: Store, now: nat, first: nat, key: string): Way {
      if redis.plan(first).fault != Fine || redis.plan(first + 1).fault != Fine then CallFailed
      else if Live(data, now + redis.plan(first).elapsed, key) then AlreadyMarked
      else if Live(data, Asked(now, first), LockKey(key)) then Locked
      else Free
    }

    /** Entering a fresh guard makes the first one or two calls of its processor. */
    method Enter(guard: Guard, ghost pid: nat) returns (r: Result<(), RedisError>)
      requires InFlight(pid, guard.Key()) && guard.service == idempotency
      requires guard.shouldProcess && !guard.lockAcquired
      requires View().processors[pid] == Processor(guard.Key(), Checking, false, 0, None, map[])
      modifies this`history, guard, redis`now, redis`calls, redis`data
      ensures old(history) <= history && InFlight(pid, guard.Key()) && guard.result == old(guard.result)
      ensures View() == Entered(old(View()), pid, redis.plan(old(redis.calls)), redis.plan(old(redis.calls) + 1))
      ensures r.Failure? ==> Phased(pid, Finished(Raised), false)
      ensures r.Success? && !guard.shouldProcess ==>
        && !guard.lockAcquired
        && (Phased(pid, Finished(Duplicate), false) || Phased(pid, Finished(LockHeld), false))
      ensures r.Success? ==>
        && redis.calls == old(redis.calls) + 2
        && redis.now == Asked(old(redis.now), old(redis.calls))
      ensures r.Success? && guard.shouldProcess ==> guard.lockAcquired && Phased(pid, Evaluating, false)
      ensures var way := WayIn(old(redis.data), old(redis.now), old(redis.calls), guard.Key());
        && (r.Failure? <==> way == CallFailed)
        && (r.Success? ==> (guard.shouldProcess <==> way == Free))
        && (way == Free ==> redis.data == old(redis.data)[LockKey(guard.Key()) := Entry(One, redis.now + LOCK_TTL)])
    {
      hide Run, SoloThroughout, Proceeding, MakeKey, LockKey, Do, Step, Entered, Left;
      hide AfterSetEx, AfterSetNx, AfterDelete, Encode;
      ghost var first, data := redis.calls, redis.data;
      r := guard.Enter();
      if WayIn(data, old(redis.now), first, guard.Key()) == Free {
        TakingAFreeLock(data, redis.now, LockKey(guard.Key()));
      }
      history := EnterHistory(origin, history, pid, guard.Key(), redis.plan(first), redis.plan(first + 1));
    }

    /** The guard of one message, entered. */
    method Admit(externalId: string) returns (guard: Guard, r: Result<(), RedisError>)
      requires Valid()
      modifies this`history, this`started, redis`now, redis`calls, redis`data
      ensures fresh(guard) && guard.service == idempotency && guard.Key() == MakeKey(MESSAGE_TYPE, externalId)
      ensures guard.result == None
      ensures View() == Entered(Do(old(View()), Action.Start(old(started), MESSAGE_TYPE, externalId)), old(started),
                                redis.plan(old(redis.calls)), redis.plan(old(redis.calls) + 1))
      ensures started == old(started) + 1 && old(history) <= history
      ensures InFlight(old(started), guard.Key())
      ensures r.Failure? ==> Phased(old(started), Finished(Raised), false)
      ensures r.Success? && !guard.shouldProcess ==>
        && !guard.lockAcquired
        && (Phased(old(started), Finished(Duplicate), false) || Phased(old(started), Finished(LockHeld), false))
      ensures r.Success? ==>
        && redis.calls == old(redis.calls) + 2
        && redis.now == Asked(old(redis.now), old(redis.calls))
      ensures r.Success? && guard.shouldProcess ==> guard.lockAcquired && Phased(old(started), Evaluating, false)
      ensures var way := WayIn(old(redis.data), old(redis.now), old(redis.calls), guard.Key());
        && (r.Failure? <==> way == CallFailed)
        && (r.Success? ==> (guard.shouldProcess <==> way == Free))
        && (way == Free ==> redis.data == old(redis.data)[LockKey(guard.Key()) := Entry(One, redis.now + LOCK_TTL)])
    {
      guard := new Guard(idempotency, MESSAGE_TYPE, externalId);
      ghost var pid := started;
      TtlStays(origin, history);
      hide Run, SoloThroughout, Proceeding, MakeKey, LockKey, Do, Entered, Step, Evaluation.FreshIds;
      Begin(origin, history, pid, externalId);
      history := history + [Action.Start(pid, MESSAGE_TYPE, externalId)];
      started := started + 1;
      r := Enter(guard, pid);
    }

    /** The guard left after its body ran. */
    method Leave(guard: Guard, raised: bool, ghost pid: nat) returns (r: Result<(), RedisError>)
      requires InFlight(pid, guard.Key()) && guard.service == idempotency
      requires guard.shouldProcess && guard.lockAcquired
      requires raised ==> Phased(pid, Releasing, true)
      requires !raised ==> Phased(pid, Marking, false) && guard.result == Some(View().processors[pid].result)
      modifies this`history, redis`now, redis`calls, redis`data
      ensures old(history) <= history
      ensures InFlight(pid, guard.Key())
      ensures View().processors[pid].phase == Finished(if !raised && r.Success? then Completed else Raised)
      ensures var first := old(redis.calls);
        View() == Left(old(View()), pid, redis.plan(first), redis.plan(if raised then first else first + 1))
      ensures var mark, release := redis.plan(old(redis.calls)), redis.plan(old(redis.calls) + 1);
        var marked := old(redis.now) + mark.elapsed;
        !raised ==>
          && (r.Success? <==> mark.fault == release.fault == Fine)
          && (r.Success? ==>
                var marker := Entry(Encode(guard.result), marked + 1000 * idempotency.ttl);
                redis.data == old(redis.data)[guard.Key() := marker] - {LockKey(guard.Key())})
    {
      hide Run, SoloThroughout, Proceeding, MakeKey, LockKey, Do, Step, Entered, Left;
      hide AfterSetEx, AfterSetNx, AfterDelete, Encode;
      ghost var first, data := redis.calls, redis.data;
      r := guard.Exit(raised);
      MarkingAndReleasing(data, old(redis.now) + redis.plan(first).elapsed, guard.Key(), idempotency.ttl,
                          Encode(guard.result));
      history := ExitHistory(origin, history, pid, guard.Key(), redis.plan(first),
                             redis.plan(if raised then first else first + 1));
    }

    // Between messages again.
    lemma Settled(pid: nat, key: string)
      requires InFlight(pid, key) && View().processors[pid].phase.Finished?
      requires Evaluation.FreshIds(Evaluation.Snapshot(session))
      ensures Valid() && Ended(pid, key, View().processors[pid].phase.ending)
    {
      AloneAndFinishedIsIdle(View(), pid);
    }

    // The work of a delivery is the evaluation of this request.
    ghost predicate Concerns(work: Delivery.Work, request: Option<Request>, c: Circumstances) {
      work.Lands? ==>
        request.Some? && c.engine.Some? && work.input == Evaluation.Input(request.value, c.engine.value, c.at)
    }

    /** What the body needs to succeed, the statements made from `from` to `to` being its own. */
    ghost predicate GoesWell(request: Option<Request>, c: Circumstances, from: nat, to: nat)
      reads this
    {
      request.Some? && detectorReady && c.engine.Some? && session.Clean(from, to)
    }

    /** The marker left by a message that was processed: the result, from that instant for the configured time. */
    ghost predicate Marked(data: Store, key: string, at: nat, before: Evaluation.Db, request: Request, c: Circumstances)
      requires c.engine.Some?
    {
      && key in data && LockKey(key) !in data
      && var result := Evaluation.ResultOf(before, Evaluation.Input(request, c.engine.value, c.at));
         data[key] == Entry(Json(ResultDict(result)), at + 1000 * idempotency.ttl)
    }

    lemma MarkedSo(
        data: Store, guard: Guard, at: nat, before: Evaluation.Db, request: Request, c: Circumstances, result: Dict)
      requires c.engine.Some? && result != map[]
      requires result == ResultDict(Evaluation.ResultOf(before, Evaluation.Input(request, c.engine.value, c.at)))
      ensures var key := guard.Key();
        Marked(data[key := Entry(Encode(Some(result)), at + 1000 * idempotency.ttl)] - {LockKey(key)},
               key, at, before, request, c)
    {
      hide ResultDict;
      KeyApartFromItsLock(guard.messageType, guard.externalId);
    }

    /**
     The body under the guard. The unit of work is committed and told exactly if the data is
     valid, the detector is there, the engine gives a score and no statement fails.
     */
    method Work(guard: Guard, request: Option<Request>, c: Circumstances, ghost pid: nat)
      returns (r: Result<Dict, ProcessError>, ghost work: Delivery.Work)
      requires InFlight(pid, guard.Key()) && guard.service == idempotency
      requires guard.shouldProcess && Phased(pid, Evaluating, false)
      requires Evaluation.FreshIds(Evaluation.Snapshot(session))
      modifies this`history, guard`result, session, redis`now
      ensures old(history) <= history && InFlight(pid, guard.Key()) && redis.now == old(redis.now) + c.duration
      ensures Evaluation.FreshIds(Evaluation.Snapshot(session))
      ensures Concerns(work, request, c)
      ensures Evaluation.Snapshot(session) == EvaluateOn(old(Evaluation.Snapshot(session)), work)
      ensures var text := TextOf(old(Evaluation.Snapshot(session)), work);
        View() == Step(old(View()), pid, c.duration, FaultOf(work), text)
      ensures r.Failure? ==> Phased(pid, Releasing, true)
      ensures r.Success? ==>
        && Phased(pid, Marking, false) && r.value != map[]
        && guard.result == Some(View().processors[pid].result) == Some(r.value)
        && work == Lands(Evaluation.Input(request.value, c.engine.value, c.at), true)
        && r.value == ResultDict(Evaluation.ResultOf(old(Evaluation.Snapshot(session)), work.input))
        && Evaluation.Snapshot(session) == Evaluation.Evaluated(old(Evaluation.Snapshot(session)), work.input)
      ensures r.Success? <==> GoesWell(request, c, old(session.step), session.step)
      ensures r.Success? <==> FaultOf(work) == Fine
      ensures request.None? ==> r == Failure(InvalidData) && unchanged(session)
      ensures request.Some? && !detectorReady ==> r == Failure(NoDetector) && unchanged(session)
      ensures request.Some? && detectorReady ==> session.step > old(session.step)
    {
      ghost var before := Evaluation.Snapshot(session);
      hide Run, Proceeding, SoloThroughout, MakeKey, LockKey, Evaluation.Evaluated, Evaluation.ResultOf;
      hide Step, Do, ResultDict, Evaluation.FreshIds;
      ghost var landed;
      r, landed := ProcessTransaction(request, c.engine, c.at);
      redis.Elapse(c.duration);
      work := if landed then Lands(Evaluation.Input(request.value, c.engine.value, c.at), r.Success?)
              else Fails(session.sequence - before.sequence, session.ids - before.ids);
      history := BodyHistory(origin, history, pid, guard.Key(), c.duration, FaultOf(work), TextOf(before, work));
      if r.Success? {
        guard.SetResult(r.value);
      }
    }

    /**
     What a message let through at `now` comes to, `calls` being the number of its next
     Redis call: processed exactly if the body goes well and these two calls work;
     evaluated whenever the body goes well.
     */
    ghost predicate AsItGoes(
        key: string, request: Option<Request>, c: Circumstances, r: Result<Status, ProcessError>,
        calls: nat, now: nat, before: Evaluation.Db, step: nat)
      reads this, redis, session
    {
      var good := GoesWell(request, c, step, session.step);
      var mark, release := redis.plan(calls), redis.plan(calls + 1);
      && (r == Success(Processed) <==> good && mark.fault == release.fault == Fine)
      && (good ==> Evaluation.Snapshot(session) ==
                   Evaluation.Evaluated(before, Evaluation.Input(request.value, c.engine.value, c.at)))
      && (good && r != Success(Processed) ==> r == Failure(GuardFailed))
      && (r == Success(Processed) ==>
            Marked(redis.data, key, now + c.duration + mark.elapsed, before, request.value, c))
      && (request.None? ==> r == Failure(InvalidData))
      && (request.Some? && !detectorReady ==> r == Failure(NoDetector))
    }

    /** The body, and the way out: the call succeeds exactly if the body goes well and marking and releasing work. */
    method Evaluate(guard: Guard, request: Option<Request>, c: Circumstances, ghost pid: nat)
      returns (r: Result<Status, ProcessError>, ghost work: Delivery.Work)
      requires InFlight(pid, guard.Key()) && guard.service == idempotency
      requires guard.shouldProcess && guard.lockAcquired && Phased(pid, Evaluating, false) && guard.result == None
      requires Evaluation.FreshIds(Evaluation.Snapshot(session))
      modifies this`history, guard`result, session, redis`now, redis`calls, redis`data
      ensures old(history) <= history && InFlight(pid, guard.Key())
      ensures Evaluation.FreshIds(Evaluation.Snapshot(session))
      ensures Concerns(work, request, c)
      ensures Evaluation.Snapshot(session) == EvaluateOn(old(Evaluation.Snapshot(session)), work)
      ensures var first := old(redis.calls);
        var text := TextOf(old(Evaluation.Snapshot(session)), work);
        var worked := Step(old(View()), pid, c.duration, FaultOf(work), text);
        View() == Left(worked, pid,
                       redis.plan(first), redis.plan(if FaultOf(work) == Fine then first + 1 else first))
      ensures View().processors[pid].phase == Finished(if r.Success? then Completed else Raised)
      ensures r.Success? ==> r == Success(Processed)
      ensures GoesWell(request, c, old(session.step), session.step) ==>
        work == Lands(Evaluation.Input(request.value, c.engine.value, c.at), true)
      ensures AsItGoes(guard.Key(), request, c, r, old(redis.calls), old(redis.now),
                       old(Evaluation.Snapshot(session)), old(session.step))
      ensures request.None? || !detectorReady ==> unchanged(session)
    {
      hide Run, Proceeding, SoloThroughout, MakeKey, LockKey, Evaluation.Evaluated, Evaluation.ResultOf;
      hide Step, Left, Do, ResultDict, Marked, Encode, Evaluation.FreshIds, EvaluateOn, TextOf;
      ghost var data, now, mark := redis.data, redis.now, redis.plan(redis.calls);
      ghost var before := Evaluation.Snapshot(session);
      var result;
      result, work := Work(guard, request, c, pid);
      var left := Leave(guard, result.Failure?, pid);
      if result.Failure? { return Failure(result.error), work; }
      if left.Failure? { return Failure(GuardFailed), work; }
      MarkedSo(data, guard, now + c.duration + mark.elapsed, before, request.value, c, result.value);
      r := Success(Processed);
    }

    // The answer tells how the processor of the message ended.
    ghost predicate Answers(r: Result<Status, ProcessError>, pid: nat, key: string)
      reads this
    {
      && (r == Success(Processed) <==> Ended(pid, key, Completed))
      && (r == Success(Skipped) <==> Ended(pid, key, Duplicate) || Ended(pid, key, LockHeld))
      && (r.Failure? <==> Ended(pid, key, Raised))
    }

    // The delivery whose Redis calls are those planned from `first` on.
    ghost function Planned(first: nat, externalId: string, duration: nat, work: Delivery.Work): Job {
      Job(externalId, redis.plan(first), redis.plan(first + 1), duration, work,
          redis.plan(first + 2), redis.plan(if FaultOf(work) == Fine then first + 3 else first + 2))
    }

    /** A message with an external id: the guard, and the evaluation if it lets the message through. */
    method Handle(externalId: string, request: Option<Request>, c: Circumstances)
      returns (r: Result<Status, ProcessError>, ghost work: Delivery.Work)
      requires Valid()
      modifies this`history, this`started, session, redis`now, redis`calls, redis`data
      ensures Valid() && old(history) <= history
      ensures Between() == Deliver(old(Between()), Planned(old(redis.calls), externalId, c.duration, work))
      ensures Concerns(work, request, c)
      ensures Answers(r, old(started), KeyFor(externalId)) && r != Success(Invalid)
      ensures var way := WayIn(old(redis.data), old(redis.now), old(redis.calls), KeyFor(externalId));
        && (way == CallFailed ==> r == Failure(GuardFailed) && unchanged(session))
        && (way == AlreadyMarked || way == Locked ==> r == Success(Skipped) && unchanged(session))
        && (way == Free ==> AsItGoes(KeyFor(externalId), request, c, r, old(redis.calls) + 2,
                                     Asked(old(redis.now), old(redis.calls)),
                                     old(Evaluation.Snapshot(session)), old(session.step)))
    {
      hide Run, Proceeding, SoloThroughout, MakeKey, LockKey, Step, Entered, Left, Do, EvaluateOn, TextOf;
      hide Marked, Live, Evaluation.Evaluated, Evaluation.ResultOf, Evaluation.FreshIds;
      hide WayIn, GoesWell, AsItGoes, AfterSetEx, AfterDelete, Encode;
      ghost var pid := started;
      work := Fails(0, 0);
      var guard, entered := Admit(externalId);
      if entered.Failure? {
        r := Failure(GuardFailed);
      } else if !guard.shouldProcess {
        var left := guard.Exit(false);
        r := Success(Skipped);
      } else {
        r, work := Evaluate(guard, request, c, pid);
      }
      Settled(pid, KeyFor(externalId));
    }

    // The attempt whose Redis calls are those planned from `first` on, with an evaluation
    // in these circumstances if one is made.
    ghost predicate Happened(a: Attempt, first: nat, c: Circumstances) {
      && a.check == redis.plan(first) && a.next == redis.plan(first + 1) && a.duration == c.duration
      && a.mark == redis.plan(first + 2) && a.killedAfter == None
      && a.release == redis.plan(if a.trial.Made? && a.trial.told then first + 3 else first + 2)
      && (a.trial.Made? ==> c.engine == Some(a.trial.score) && c.at == a.trial.at)
    }

    // The answer in the terms of the consumer loop.
    ghost predicate Tells(r: Result<Status, ProcessError>, p: Base.Processing<Answer>) {
      match r
      case Success(Processed) => p == Base.Ended(Answer.Evaluated)
      case Success(Skipped) => p.Ended? && (p.answer.MarkedDuplicate? || p.answer.LockHeldSkip?)
      case Success(Invalid) => p == Base.Ended(MissingId)
      case Failure(_) => p.Raised?
    }

    lemma AnswersTell(r: Result<Status, ProcessError>, pid: nat, key: string, error: string)
      requires Answers(r, pid, key) && r != Success(Invalid)
      ensures Tells(r, Reading(View(), pid, error))
    {
    }

    /**
     `process`. Whatever fails, it does to Redis and to the database what handling the
     message in the planned circumstances does, and answers accordingly. What it comes to
     is decided by the message, the state of Redis before, the planned calls and how the
     body goes.
     */
    method Process(message: Message, c: Circumstances) returns (r: Result<Status, ProcessError>, ghost a: Attempt)
      requires Valid()
      modifies this`history, this`started, session, redis`now, redis`calls, redis`data
      ensures Valid() && old(history) <= history
      ensures message.Malformed? ==> r == Failure(BadMessage)
      ensures message.NoExternalId? ==> r == Success(Invalid)
      ensures message.Payload? ==>
        var way := WayIn(old(redis.data), old(redis.now), old(redis.calls), KeyFor(message.externalId));
        && (way == CallFailed ==> r == Failure(GuardFailed) && unchanged(session))
        && (way == AlreadyMarked || way == Locked ==> r == Success(Skipped) && unchanged(session))
        && (way == Free ==> AsItGoes(KeyFor(message.externalId), message.request, c, r, old(redis.calls) + 2,
                                     Asked(old(redis.now), old(redis.calls)),
                                     old(Evaluation.Snapshot(session)), old(session.step)))
      ensures !message.Payload? ==> history == old(history) && unchanged(session) && unchanged(redis)
      ensures Happened(a, old(redis.calls), c)
      ensures Between() == Handled(old(Between()), message, a).0
      ensures Tells(r, Handled(old(Between()), message, a).1)
    {
      hide Deliver, Answers, Run, Proceeding, SoloThroughout, AsItGoes, WayIn;
      ghost var first, pid, before := redis.calls, started, Between();
      a := Attempt(redis.plan(first), redis.plan(first + 1), c.duration, NotMade(0, 0),
                   redis.plan(first + 2), redis.plan(first + 2), "", None);
      match message
      case Malformed => return Failure(BadMessage), a;
      case NoExternalId => return Success(Invalid), a;
      case Payload(externalId, request) =>
        ghost var work;
        r, work := Handle(externalId, request, c);
        a := a.(trial := TrialOf(work), release := redis.plan(if FaultOf(work) == Fine then first + 3 else first + 2));
        assert JobFor(message, a) == Planned(first, externalId, c.duration, work);
        AnswersTell(r, pid, KeyFor(externalId), a.error);
    }
  }
}
