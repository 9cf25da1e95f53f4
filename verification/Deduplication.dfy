/**
 A single consumer whose Redis works and whose markers do not expire does to the database
 what a set of seen ids would make it do: evaluate each id until its first success.
 Evaluations may still fail, before or after their commit, and take any time.
 */
module Deduplication {
  import opened Wrappers
  import opened Redis
  import opened Protocol
  import opened Delivery
  import opened TransactionConsumer
  import Evaluation

  /** No Redis call of this attempt meets a fault. */
  predicate Faultless(job: Job) {
    job.check.fault == job.next.fault == job.mark.fault == job.release.fault == Fine
  }

  predicate Succeeds(job: Job) {
    FaultOf(job.work) == Fine
  }

  // ----- the simple form -----

  datatype Seen = Seen(ids: set<string>, db: Evaluation.Db)

  function Dedup(d: Seen, job: Job): Seen {
    if job.externalId in d.ids then d
    else Seen(if Succeeds(job) then d.ids + {job.externalId} else d.ids, EvaluateOn(d.db, job.work))
  }

  function DedupAll(d: Seen, jobs: seq<Job>): Seen {
    if jobs == [] then d else Dedup(DedupAll(d, jobs[..|jobs| - 1]), jobs[|jobs| - 1])
  }

  // ----- the relation between the two -----

  /** Live markers are exactly those of the ids seen. */
  ghost predicate Knows(s: System, seen: set<string>) {
    forall e :: e in seen <==> Live(s.store, s.now, KeyFor(e))
  }

  ghost predicate Unlocked(s: System, but: Option<string>) {
    forall e | Some(e) != but :: LockKey(KeyFor(e)) !in s.store
  }

  /** No marker ever expired. */
  ghost predicate NothingLapsed(log: seq<Event>) {
    forall i, e | 0 <= i < |log| && log[i].Lapsed? :: KeyFor(e) !in log[i].keys
  }

  // Processors of this run: all ended, and none because it found a lock held.
  ghost predicate NeverBlocked(s: System, first: nat, next: nat) {
    forall p | p in s.processors && first <= p ::
      p < next && s.processors[p].phase.Finished? && s.processors[p].phase.ending != LockHeld
  }

  ghost predicate Calm(w: World, seen: set<string>, first: nat) {
    && w.next >= first && w.next !in w.system.processors
    && Knows(w.system, seen) && Unlocked(w.system, None)
    && NeverBlocked(w.system, first, w.next)
    && forall p | p in w.system.processors :: p < w.next
  }

  lemma PrefixLapsedLess(log: seq<Event>, longer: seq<Event>)
    requires log <= longer && NothingLapsed(longer)
    ensures NothingLapsed(log)
  {
    forall i, e | 0 <= i < |log| && log[i].Lapsed? ensures KeyFor(e) !in log[i].keys {
      assert longer[i] == log[i];
    }
  }

  lemma StepGrowsLog(s: System, pid: nat, elapsed: nat, fault: Fault, result: Dict)
    ensures s.log <= Step(s, pid, elapsed, fault, result).log
  {
    LogGrows(s, Tick(elapsed));
    LogGrows(Do(s, Tick(elapsed)), Perform(pid, fault, result));
  }

  /** With nothing lapsing, liveness outlasts the time a step takes. */
  lemma LivenessOutlastsTime(s: System, pid: nat, elapsed: nat, fault: Fault, result: Dict, e: string)
    requires NothingLapsed(Step(s, pid, elapsed, fault, result).log)
    ensures Live(s.store, s.now + elapsed, KeyFor(e)) <==> Live(s.store, s.now, KeyFor(e))
  {
    var t := Do(s, Tick(elapsed));
    LogGrows(t, Perform(pid, fault, result));
    PrefixLapsedLess(t.log, Step(s, pid, elapsed, fault, result).log);
    assert t.log[|s.log|].Lapsed?;
  }

  lemma KeysOf(x: string, y: string)
    ensures KeyFor(x) == KeyFor(y) <==> x == y
    ensures LockKey(KeyFor(x)) != KeyFor(y)
    ensures LockKey(KeyFor(x)) == LockKey(KeyFor(y)) <==> x == y
    ensures IsMarkerKey(KeyFor(x))
  {
    KeyDeterminesId(MESSAGE_TYPE, x, y);
    MadeKeysAreMarkers(MESSAGE_TYPE, x);
    MadeKeysAreMarkers(MESSAGE_TYPE, y);
    KeysApart(KeyFor(x), KeyFor(y));
  }

  // From here on a step is only known by the store and the instant it leads to.
  lemma KnownAfter(s: System, t: System, elapsed: nat, seen: set<string>, added: Option<string>)
    requires Knows(s, seen) && t.now == s.now + elapsed
    requires forall e :: Live(s.store, t.now, KeyFor(e)) <==> Live(s.store, s.now, KeyFor(e))
    requires forall e | Some(e) != added :: SameEntry(s, t, KeyFor(e))
    requires added.Some? ==> Live(t.store, t.now, KeyFor(added.value))
    ensures Knows(t, if added.Some? then seen + {added.value} else seen)
  {
    forall e
      ensures e in (if added.Some? then seen + {added.value} else seen) <==> Live(t.store, t.now, KeyFor(e))
    {
      if Some(e) != added {
        assert SameEntry(s, t, KeyFor(e));
      }
    }
  }

  lemma OutlastAll(s: System, pid: nat, elapsed: nat, fault: Fault, result: Dict)
    requires NothingLapsed(Step(s, pid, elapsed, fault, result).log)
    ensures forall e :: Live(s.store, s.now + elapsed, KeyFor(e)) <==> Live(s.store, s.now, KeyFor(e))
  {
    forall e ensures Live(s.store, s.now + elapsed, KeyFor(e)) <==> Live(s.store, s.now, KeyFor(e)) {
      LivenessOutlastsTime(s, pid, elapsed, fault, result, e);
    }
  }

  // The processor under way and everything a step of it needs to know.
  ghost predicate At(
      s: System, pid: nat, id: string, phase: Phase, raised: bool, seen: set<string>, but: Option<string>)
  {
    && pid in s.processors && s.processors[pid].key == KeyFor(id)
    && s.processors[pid].phase == phase && s.processors[pid].raised == raised
    && Knows(s, seen) && Unlocked(s, but)
  }

  lemma CheckAt(s: System, pid: nat, id: string, elapsed: nat, seen: set<string>)
    requires At(s, pid, id, Checking, false, seen, None) && s.processors[pid] == Fresh(MESSAGE_TYPE, id)
    requires NothingLapsed(Step(s, pid, elapsed, Fine, map[]).log)
    ensures At(Step(s, pid, elapsed, Fine, map[]), pid, id, if id in seen then Fetching else Locking, false, seen, None)
  {
    var t := Step(s, pid, elapsed, Fine, map[]);
    CheckStep(s, pid, KeyFor(id), Call(elapsed, Fine));
    OutlastAll(s, pid, elapsed, Fine, map[]);
    hide Step;
    KnownAfter(s, t, elapsed, seen, None);
  }

  lemma FetchAt(s: System, pid: nat, id: string, elapsed: nat, seen: set<string>)
    requires At(s, pid, id, Fetching, false, seen, None)
    requires NothingLapsed(Step(s, pid, elapsed, Fine, map[]).log)
    ensures At(Step(s, pid, elapsed, Fine, map[]), pid, id, Finished(Duplicate), false, seen, None)
  {
    var t := Step(s, pid, elapsed, Fine, map[]);
    FetchStep(s, pid, KeyFor(id), Call(elapsed, Fine));
    OutlastAll(s, pid, elapsed, Fine, map[]);
    hide Step;
    KnownAfter(s, t, elapsed, seen, None);
  }

  lemma LockAt(s: System, pid: nat, id: string, elapsed: nat, seen: set<string>)
    requires At(s, pid, id, Locking, false, seen, None)
    requires NothingLapsed(Step(s, pid, elapsed, Fine, map[]).log)
    ensures At(Step(s, pid, elapsed, Fine, map[]), pid, id, Evaluating, false, seen, Some(id))
  {
    var t := Step(s, pid, elapsed, Fine, map[]);
    LockingStep(s, pid, KeyFor(id), Call(elapsed, Fine));
    OutlastAll(s, pid, elapsed, Fine, map[]);
    hide Step;
    forall e ensures SameEntry(s, t, KeyFor(e)) && (e != id ==> LockKey(KeyFor(e)) !in t.store) {
      KeysOf(id, e);
    }
    KnownAfter(s, t, elapsed, seen, None);
  }

  lemma WorkAt(s: System, pid: nat, id: string, elapsed: nat, fault: Fault, result: Dict, seen: set<string>)
    requires At(s, pid, id, Evaluating, false, seen, Some(id))
    requires NothingLapsed(Step(s, pid, elapsed, fault, result).log)
    ensures At(Step(s, pid, elapsed, fault, result), pid, id, if fault == Fine then Marking else Releasing,
               fault != Fine, seen, Some(id))
  {
    var t := Step(s, pid, elapsed, fault, result);
    EvaluatingStep(s, pid, KeyFor(id), elapsed, fault, result);
    OutlastAll(s, pid, elapsed, fault, result);
    hide Step;
    KnownAfter(s, t, elapsed, seen, None);
  }

  lemma MarkAt(s: System, pid: nat, id: string, elapsed: nat, seen: set<string>)
    requires At(s, pid, id, Marking, false, seen, Some(id))
    requires NothingLapsed(Step(s, pid, elapsed, Fine, map[]).log)
    ensures At(Step(s, pid, elapsed, Fine, map[]), pid, id, Releasing, false, seen + {id}, Some(id))
  {
    var t := Step(s, pid, elapsed, Fine, map[]);
    MarkSets(s, pid, KeyFor(id), elapsed);
    OutlastAll(s, pid, elapsed, Fine, map[]);
    hide Step;
    forall e
      ensures e != id ==> SameEntry(s, t, KeyFor(e))
      ensures LockKey(KeyFor(e)) in t.store <==> LockKey(KeyFor(e)) in s.store
    {
      KeysOf(e, id);
    }
    KnownAfter(s, t, elapsed, seen, Some(id));
  }

  lemma MarkSets(s: System, pid: nat, key: string, elapsed: nat)
    requires pid in s.processors && s.processors[pid].key == key && s.processors[pid].phase == Marking
    requires !s.processors[pid].raised
    ensures var t := Step(s, pid, elapsed, Fine, map[]);
      && t.now == s.now + elapsed && pid in t.processors && t.processors[pid].key == key
      && t.store == s.store[key := Entry(Encode(Some(s.processors[pid].result)), t.now + s.ttl)]
      && t.processors[pid].phase == Releasing && !t.processors[pid].raised
  {
  }

  lemma ReleaseAt(s: System, pid: nat, id: string, elapsed: nat, raised: bool, seen: set<string>)
    requires At(s, pid, id, Releasing, raised, seen, Some(id))
    requires NothingLapsed(Step(s, pid, elapsed, Fine, map[]).log)
    ensures At(Step(s, pid, elapsed, Fine, map[]), pid, id,
               Finished(if raised then Raised else Completed), raised, seen, None)
  {
    var t := Step(s, pid, elapsed, Fine, map[]);
    ReleasingStep(s, pid, KeyFor(id), Call(elapsed, Fine));
    OutlastAll(s, pid, elapsed, Fine, map[]);
    assert t.processors[pid].raised == raised;
    hide Step;
    forall e ensures SameEntry(s, t, KeyFor(e)) && LockKey(KeyFor(e)) !in t.store {
      KeysOf(id, e);
    }
    KnownAfter(s, t, elapsed, seen, None);
  }

  /** A step leaves every other processor alone. */
  ghost predicate Framed(s: System, t: System, pid: nat) {
    && t.processors.Keys == s.processors.Keys + {pid}
    && (forall p | p in s.processors && p != pid :: t.processors[p] == s.processors[p])
    && s.log <= t.log
  }

  lemma StepIsFramed(s: System, pid: nat, elapsed: nat, fault: Fault, result: Dict)
    requires pid in s.processors
    ensures Framed(s, Step(s, pid, elapsed, fault, result), pid)
  {
    StepGrowsLog(s, pid, elapsed, fault, result);
  }

  lemma StartAt(s: System, pid: nat, id: string, seen: set<string>)
    requires pid !in s.processors && Knows(s, seen) && Unlocked(s, None)
    ensures var t := Do(s, Start(pid, MESSAGE_TYPE, id));
      At(t, pid, id, Checking, false, seen, None) && t.processors[pid] == Fresh(MESSAGE_TYPE, id) && Framed(s, t, pid)
  {
  }

  lemma FramesChain(s: System, t: System, u: System, pid: nat)
    requires Framed(s, t, pid) && Framed(t, u, pid)
    ensures Framed(s, u, pid)
  {
  }

  /** A known id: two calls, no lock, nothing evaluated. */
  lemma KnownIdIsSkipped(w: World, job: Job, seen: set<string>)
    requires w.next !in w.system.processors && Knows(w.system, seen) && Unlocked(w.system, None)
    requires Faultless(job) && job.externalId in seen && NothingLapsed(Admitted(w, job).log)
    ensures At(Admitted(w, job), w.next, job.externalId, Finished(Duplicate), false, seen, None)
    ensures Framed(w.system, Admitted(w, job), w.next)
  {
    var zero := Do(w.system, Start(w.next, MESSAGE_TYPE, job.externalId));
    var one := Calling(zero, w.next, job.check);
    var two := Calling(one, w.next, job.next);
    StartAt(w.system, w.next, job.externalId, seen);
    hide Step, Do;
    StepIsFramed(zero, w.next, job.check.elapsed, Fine, map[]);
    EnteredGrows(zero, w.next, job);
    PrefixLapsedLess(one.log, Admitted(w, job).log);
    CheckAt(zero, w.next, job.externalId, job.check.elapsed, seen);
    StepIsFramed(one, w.next, job.next.elapsed, Fine, map[]);
    FetchAt(one, w.next, job.externalId, job.next.elapsed, seen);
    FramesChain(w.system, zero, one, w.next);
    FramesChain(w.system, one, two, w.next);
  }

  lemma EnteredGrows(s: System, pid: nat, job: Job)
    ensures s.log <= Calling(s, pid, job.check).log <= Entered(s, pid, job.check, job.next).log
  {
    hide Step;
    StepGrowsLog(s, pid, job.check.elapsed, job.check.fault, map[]);
    StepGrowsLog(Calling(s, pid, job.check), pid, job.next.elapsed, job.next.fault, map[]);
  }

  /** An unknown id: the lock is free, and the body runs. */
  lemma UnknownIdIsAdmitted(w: World, job: Job, seen: set<string>)
    requires w.next !in w.system.processors && Knows(w.system, seen) && Unlocked(w.system, None)
    requires Faultless(job) && job.externalId !in seen && NothingLapsed(Admitted(w, job).log)
    ensures At(Admitted(w, job), w.next, job.externalId, Evaluating, false, seen, Some(job.externalId))
    ensures Framed(w.system, Admitted(w, job), w.next)
  {
    var zero := Do(w.system, Start(w.next, MESSAGE_TYPE, job.externalId));
    var one := Calling(zero, w.next, job.check);
    var two := Calling(one, w.next, job.next);
    StartAt(w.system, w.next, job.externalId, seen);
    hide Step, Do;
    StepIsFramed(zero, w.next, job.check.elapsed, Fine, map[]);
    EnteredGrows(zero, w.next, job);
    PrefixLapsedLess(one.log, Admitted(w, job).log);
    CheckAt(zero, w.next, job.externalId, job.check.elapsed, seen);
    StepIsFramed(one, w.next, job.next.elapsed, Fine, map[]);
    LockAt(one, w.next, job.externalId, job.next.elapsed, seen);
    FramesChain(w.system, zero, one, w.next);
    FramesChain(w.system, one, two, w.next);
  }

  /** The body and the way out: marked on success only, and unlocked again either way. */
  lemma AdmittedIdIsSettled(s: System, pid: nat, job: Job, result: Dict, seen: set<string>)
    requires At(s, pid, job.externalId, Evaluating, false, seen, Some(job.externalId)) && Faultless(job)
    requires var worked := Step(s, pid, job.duration, FaultOf(job.work), result);
      NothingLapsed(Left(worked, pid, job.mark, job.release).log)
    ensures var seen' := if Succeeds(job) then seen + {job.externalId} else seen;
      var worked := Step(s, pid, job.duration, FaultOf(job.work), result);
      var left := Left(worked, pid, job.mark, job.release);
      && At(left, pid, job.externalId,
            Finished(if Succeeds(job) then Completed else Raised), !Succeeds(job), seen', None)
      && Framed(s, left, pid)
  {
    var worked := Step(s, pid, job.duration, FaultOf(job.work), result);
    var left := Left(worked, pid, job.mark, job.release);
    var seen' := if Succeeds(job) then seen + {job.externalId} else seen;
    hide Step;
    StepIsFramed(s, pid, job.duration, FaultOf(job.work), result);
    LeftGrows(worked, pid, job);
    PrefixLapsedLess(worked.log, left.log);
    WorkAt(s, pid, job.externalId, job.duration, FaultOf(job.work), result, seen);
    if Succeeds(job) {
      var noted := Calling(worked, pid, job.mark);
      PrefixLapsedLess(noted.log, left.log);
      MarkAt(worked, pid, job.externalId, job.mark.elapsed, seen);
      StepIsFramed(worked, pid, job.mark.elapsed, Fine, map[]);
      FramesChain(s, worked, noted, pid);
      ReleaseAt(noted, pid, job.externalId, job.release.elapsed, false, seen');
      StepIsFramed(noted, pid, job.release.elapsed, Fine, map[]);
      FramesChain(s, noted, left, pid);
    } else {
      ReleaseAt(worked, pid, job.externalId, job.release.elapsed, true, seen');
      StepIsFramed(worked, pid, job.release.elapsed, Fine, map[]);
      FramesChain(s, worked, left, pid);
    }
  }

  lemma LeftGrows(s: System, pid: nat, job: Job)
    ensures s.log <= Left(s, pid, job.mark, job.release).log
    ensures InPhase(s, pid, Marking) ==> Calling(s, pid, job.mark).log <= Left(s, pid, job.mark, job.release).log
  {
    hide Step;
    StepGrowsLog(s, pid, job.mark.elapsed, job.mark.fault, map[]);
    StepGrowsLog(s, pid, job.release.elapsed, job.release.fault, map[]);
    StepGrowsLog(Calling(s, pid, job.mark), pid, job.release.elapsed, job.release.fault, map[]);
  }

  lemma CalmCarriesOver(
      w: World, v: World, seen: set<string>, first: nat, id: string, ending: Ending, raised: bool,
      after: set<string>)
    requires Calm(w, seen, first) && v.next == w.next + 1 && ending != LockHeld
    requires At(v.system, w.next, id, Finished(ending), raised, after, None) && Framed(w.system, v.system, w.next)
    ensures Calm(v, after, first)
  {
  }

  /** One delivery does what one step of the simple form does. */
  lemma DeliverIsDedup(w: World, job: Job, seen: set<string>, first: nat)
    requires Calm(w, seen, first) && Faultless(job) && NothingLapsed(Deliver(w, job).system.log)
    ensures var d := Dedup(Seen(seen, w.db), job);
      Deliver(w, job).db == d.db && Calm(Deliver(w, job), d.ids, first)
  {
    hide Step, Do, Entered, Left, EvaluateOn, Admitted;
    var admitted := Admitted(w, job);
    DeliverGrowsLog(w, job);
    PrefixLapsedLess(admitted.log, Deliver(w, job).system.log);
    if job.externalId in seen {
      KnownIdIsSkipped(w, job, seen);
      CalmCarriesOver(w, Deliver(w, job), seen, first, job.externalId, Duplicate, false, seen);
    } else {
      UnknownIdIsAdmitted(w, job, seen);
      AdmittedIdIsSettled(admitted, w.next, job, TextOf(w.db, job.work), seen);
      FramesChain(w.system, admitted, Deliver(w, job).system, w.next);
      CalmCarriesOver(w, Deliver(w, job), seen, first, job.externalId, if Succeeds(job) then Completed else Raised,
                      !Succeeds(job), if Succeeds(job) then seen + {job.externalId} else seen);
    }
  }

  lemma DeliverGrowsLog(w: World, job: Job)
    ensures w.system.log <= Admitted(w, job).log <= Deliver(w, job).system.log
  {
    var zero := Do(w.system, Start(w.next, MESSAGE_TYPE, job.externalId));
    LogGrows(w.system, Start(w.next, MESSAGE_TYPE, job.externalId));
    EnteredGrows(zero, w.next, job);
    hide Step, Do, Entered, Left;
    StepGrowsLog(Admitted(w, job), w.next, job.duration, FaultOf(job.work), TextOf(w.db, job.work));
    LeftGrows(Worked(w, job), w.next, job);
  }

  /**
   Start with no markers, no locks and no processors. Over any sequence of attempts with
   no Redis fault, kill or expiry, the database is after each of them what the simple form
   makes it, the live markers are the ids it has seen, every lock is free between
   messages, and no message is ever skipped because of a lock.
   */
  lemma {:induction false} RefinesDeduplication(w: World, jobs: seq<Job>)
    requires Initial(w.system) && w.next == 0 && (forall job | job in jobs :: Faultless(job))
    requires NothingLapsed(DeliverAll(w, jobs).system.log)
    ensures var d := DedupAll(Seen({}, w.db), jobs);
      DeliverAll(w, jobs).db == d.db && Calm(DeliverAll(w, jobs), d.ids, 0)
  {
    if jobs != [] {
      var before, job := DeliverAll(w, jobs[..|jobs| - 1]), jobs[|jobs| - 1];
      DeliverGrowsLog(before, job);
      hide Deliver, Dedup;
      PrefixLapsedLess(before.system.log, Deliver(before, job).system.log);
      RefinesDeduplication(w, jobs[..|jobs| - 1]);
      DeliverIsDedup(before, job, DedupAll(Seen({}, w.db), jobs[..|jobs| - 1]).ids, 0);
    }
  }

  // ----- what the simple form guarantees -----

  /** Attempts of an id whose evaluation succeeded. */
  function Successes(d: Seen, jobs: seq<Job>, id: string): nat {
    if jobs == [] then 0
    else
      var before, job := DedupAll(d, jobs[..|jobs| - 1]), jobs[|jobs| - 1];
      Successes(d, jobs[..|jobs| - 1], id)
      + if job.externalId == id && id !in before.ids && Succeeds(job) then 1 else 0
  }

  /** Each id is evaluated with success at most once, and exactly once if it is seen. */
  lemma {:induction false} OneSuccessPerId(d: Seen, jobs: seq<Job>, id: string)
    requires id !in d.ids
    ensures Successes(d, jobs, id) == if id in DedupAll(d, jobs).ids then 1 else 0
  {
    if jobs != [] {
      OneSuccessPerId(d, jobs[..|jobs| - 1], id);
    }
  }
}
