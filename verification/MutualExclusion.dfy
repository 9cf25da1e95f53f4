/** The lock keeps critical sections apart as long as none of them outlives it. */
module MutualExclusion {
  import opened Wrappers
  import opened Redis
  import opened Protocol

  ghost predicate InCritical(s: System, pid: nat, key: string) {
    pid in s.processors && s.processors[pid].key == key && Critical(s.processors[pid])
  }

  /** At most one processor is between acquiring and releasing the lock of this key. */
  ghost predicate Exclusive(s: System, key: string) {
    forall p, q | InCritical(s, p, key) && InCritical(s, q, key) :: p == q
  }

  /** No critical section of this key has lasted as long as the lock lives. */
  ghost predicate Timely(s: System, key: string) {
    forall p | InCritical(s, p, key) && s.processors[p].acquired.Some? ::
      s.now < s.processors[p].acquired.value + LOCK_TTL
  }

  ghost predicate TimelyThroughout(s: System, actions: seq<Action>, key: string) {
    && Timely(Run(s, actions), key)
    && (actions != [] ==> TimelyThroughout(s, actions[..|actions| - 1], key))
  }

  // The lock on the key is the one its only critical processor took.
  ghost predicate Guarded(s: System, key: string) {
    && Exclusive(s, key)
    && forall p | InCritical(s, p, key) ::
         && s.processors[p].acquired.Some?
         && LockKey(key) in s.store
         && s.store[LockKey(key)].expires == s.processors[p].acquired.value + LOCK_TTL
  }

  /** Only a call of a processor of this key can make a processor of this key critical. */
  lemma NobodyEnters(s: System, a: Action, p: nat, key: string)
    requires KeyOf(s, a) != Some(key) || a.Kill?
    requires InCritical(Do(s, a), p, key)
    ensures InCritical(s, p, key) && Do(s, a).processors[p] == s.processors[p]
  {
    if a.Tick? || a.pid != p {
      OneProcessorMoves(s, a, p);
    }
  }

  lemma GuardFrame(s: System, t: System, key: string)
    requires Guarded(s, key) && SameEntry(s, t, LockKey(key))
    requires forall p | InCritical(t, p, key) :: InCritical(s, p, key) && t.processors[p] == s.processors[p]
    ensures Guarded(t, key)
  {
  }

  /** A call of a processor of this key, with its outcome described and no longer computed. */
  lemma GuardCarriesOver(s: System, t: System, pid: nat, key: string)
    requires Guarded(s, key) && Timely(s, key)
    requires pid in s.processors && pid in t.processors
    requires s.processors[pid].key == key == t.processors[pid].key
    requires forall p | p != pid ::
      (p in t.processors <==> p in s.processors) && (p in s.processors ==> t.processors[p] == s.processors[p])
    requires var p, q, lock := s.processors[pid], t.processors[pid], LockKey(key);
      && (Critical(p) && Critical(q) ==> q.acquired == p.acquired && SameEntry(s, t, lock))
      && (!Critical(p) && Critical(q) ==>
            && !Live(s.store, s.now, lock) && q.acquired == Some(s.now)
            && lock in t.store && t.store[lock].expires == s.now + LOCK_TTL)
      && (!Critical(p) && !Critical(q) ==> SameEntry(s, t, lock) || !Live(s.store, s.now, lock))
    ensures Guarded(t, key)
  {
    var lock := LockKey(key);
    forall p | InCritical(t, p, key) && p != pid ensures InCritical(s, p, key) {
    }
    if Critical(s.processors[pid]) {
      assert InCritical(s, pid, key);
      assert forall p | InCritical(t, p, key) :: p == pid;
    } else if !Live(s.store, s.now, lock) {
      // Anyone critical would hold a live lock.
      assert forall p :: !InCritical(s, p, key);
      assert forall p | InCritical(t, p, key) :: p == pid;
    }
  }

  lemma StepKeepsGuard(s: System, a: Action, key: string)
    requires WellKeyed(s) && IsMarkerKey(key) && Guarded(s, key) && Timely(s, key)
    ensures Guarded(Do(s, a), key)
  {
    var t := Do(s, a);
    if KeyOf(s, a) == Some(key) && a.Perform? {
      OwnStep(s, a.pid, a.fault, a.result);
      forall p | p != a.pid
        ensures p in t.processors <==> p in s.processors
        ensures p in s.processors ==> t.processors[p] == s.processors[p]
      {
        OneProcessorMoves(s, a, p);
      }
      GuardCarriesOver(s, t, a.pid, key);
    } else {
      if KeyOf(s, a) != Some(key) {
        OtherKeysUntouched(s, a, key);
      }
      forall p | InCritical(t, p, key) ensures InCritical(s, p, key) && t.processors[p] == s.processors[p] {
        NobodyEnters(s, a, p, key);
      }
      GuardFrame(s, t, key);
    }
  }

  lemma {:induction false} GuardThroughout(s: System, actions: seq<Action>, key: string)
    requires Initial(s) && IsMarkerKey(key) && TimelyThroughout(s, actions, key)
    ensures Guarded(Run(s, actions), key)
  {
    if actions != [] {
      var before := actions[..|actions| - 1];
      GuardThroughout(s, before, key);
      RunKeepsWellKeyed(s, before);
      StepKeepsGuard(Run(s, before), actions[|actions| - 1], key);
    }
  }

  /**
   For any number of interleaved processors, with any failed calls, lost replies and
   kills: while no critical section of a key outlives the lock, at most one processor is
   between acquire and release, and the lock key is present as long as it is.
   */
  lemma MutualExclusion(s: System, actions: seq<Action>, key: string)
    requires Initial(s) && IsMarkerKey(key) && TimelyThroughout(s, actions, key)
    ensures Exclusive(Run(s, actions), key)
    ensures forall p | InCritical(Run(s, actions), p, key) ::
              Live(Run(s, actions).store, Run(s, actions).now, LockKey(key))
  {
    GuardThroughout(s, actions, key);
  }

  // ----- when exclusion breaks -----

  ghost predicate ExclusiveThroughout(s: System, actions: seq<Action>, key: string) {
    && Exclusive(Run(s, actions), key)
    && (actions != [] ==> ExclusiveThroughout(s, actions[..|actions| - 1], key))
  }

  /** A processor takes the lock, which has run out or was deleted, while another is inside. */
  ghost predicate Intrudes(s: System, a: Action, key: string) {
    && a.Perform? && a.fault == Fine && KeyOf(s, a) == Some(key) && s.processors[a.pid].phase == Locking
    && !Live(s.store, s.now, LockKey(key))
    && exists p :: InCritical(s, p, key)
  }

  ghost predicate NobodyIntrudes(s: System, actions: seq<Action>, key: string) {
    actions != [] ==>
      && NobodyIntrudes(s, actions[..|actions| - 1], key)
      && !Intrudes(Run(s, actions[..|actions| - 1]), actions[|actions| - 1], key)
  }

  /** Becoming critical is taking a free lock. */
  lemma EntersOnlyByTheLock(s: System, a: Action, p: nat, key: string)
    requires WellKeyed(s) && InCritical(Do(s, a), p, key) && !InCritical(s, p, key)
    ensures a.Perform? && a.pid == p && a.fault == Fine && KeyOf(s, a) == Some(key)
    ensures s.processors[p].phase == Locking && !Live(s.store, s.now, LockKey(key))
  {
    KeyStays(s, a, p);
    if KeyOf(s, a) != Some(key) || a.Kill? {
      NobodyEnters(s, a, p, key);
    } else if a.pid != p {
      OneProcessorMoves(s, a, p);
    } else {
      OwnStep(s, p, a.fault, a.result);
    }
  }

  /** One action breaks exclusion exactly if it intrudes. */
  lemma BrokenExactlyByIntruding(s: System, a: Action, key: string)
    requires WellKeyed(s) && Exclusive(s, key)
    ensures Exclusive(Do(s, a), key) <==> !Intrudes(s, a, key)
  {
    var t := Do(s, a);
    if Intrudes(s, a, key) {
      var p :| InCritical(s, p, key);
      OneProcessorMoves(s, a, p);
      assert InCritical(t, p, key) && InCritical(t, a.pid, key);
    } else {
      forall p, q | InCritical(t, p, key) && InCritical(t, q, key) ensures p == q {
        if !InCritical(s, p, key) {
          EntersOnlyByTheLock(s, a, p, key);
        }
        if !InCritical(s, q, key) {
          EntersOnlyByTheLock(s, a, q, key);
        }
      }
    }
  }

  /**
   In every run: exclusion holds throughout exactly if nobody ever takes the lock, run out
   or deleted, while another processor is inside.
   */
  lemma {:induction false} ExclusiveExactlyWithoutIntruders(s: System, actions: seq<Action>, key: string)
    requires Initial(s)
    ensures ExclusiveThroughout(s, actions, key) <==> NobodyIntrudes(s, actions, key)
  {
    if actions != [] {
      var before, a := actions[..|actions| - 1], actions[|actions| - 1];
      ExclusiveExactlyWithoutIntruders(s, before, key);
      RunKeepsWellKeyed(s, before);
      if ExclusiveThroughout(s, before, key) {
        BrokenExactlyByIntruding(Run(s, before), a, key);
      }
    }
  }

  /**
   In every state reached in time: while one processor is inside, another that asks for
   the lock breaks exclusion exactly when it asks no earlier than the lock runs out.
   */
  lemma ExclusionLastsExactlyAsTheLock(s: System, actions: seq<Action>, key: string, p: nat, q: nat, elapsed: nat)
    requires Initial(s) && IsMarkerKey(key) && TimelyThroughout(s, actions, key)
    requires InCritical(Run(s, actions), p, key)
    requires q in Run(s, actions).processors && Run(s, actions).processors[q].key == key
    requires Run(s, actions).processors[q].phase == Locking
    ensures var t := Run(s, actions);
      && t.processors[p].acquired.Some?
      && (Exclusive(Step(t, q, elapsed, Fine, map[]), key) <==>
            t.now + elapsed < t.processors[p].acquired.value + LOCK_TTL)
  {
    var t := Run(s, actions);
    GuardThroughout(s, actions, key);
    var later := Do(t, Tick(elapsed));
    var u := Do(later, Perform(q, Fine, map[]));
    assert Live(t.store, later.now, LockKey(key)) <==> t.now + elapsed < t.processors[p].acquired.value + LOCK_TTL;
    OneProcessorMoves(later, Perform(q, Fine, map[]), p);
    assert InCritical(u, p, key);
    if Live(t.store, later.now, LockKey(key)) {
      forall r | InCritical(u, r, key) ensures InCritical(t, r, key) {
        OneProcessorMoves(later, Perform(q, Fine, map[]), r);
      }
    } else {
      assert InCritical(u, q, key);
    }
  }

  /** Such a run: the first takes the lock, five minutes pass, the second takes it too. */
  lemma OverrunBreaksExclusion(s: System) returns (actions: seq<Action>)
    requires Initial(s)
    ensures actions == Entering(0, "transaction", "T") + [Tick(LOCK_TTL)] + Entering(1, "transaction", "T")
    ensures !Exclusive(Run(s, actions), MakeKey("transaction", "T"))
  {
    var key := MakeKey("transaction", "T");
    MadeKeysAreMarkers("transaction", "T");
    KeysApart(key, key);
    actions := Entering(0, "transaction", "T") + [Tick(LOCK_TTL)] + Entering(1, "transaction", "T");
    RunConcat(s, Entering(0, "transaction", "T") + [Tick(LOCK_TTL)], Entering(1, "transaction", "T"));
    RunAppend(s, Entering(0, "transaction", "T"), Tick(LOCK_TTL));
    EnteringState(s, 0, "transaction", "T");
    var late := Do(Run(s, Entering(0, "transaction", "T")), Tick(LOCK_TTL));
    assert late.now == s.now + LOCK_TTL && late.store == map[LockKey(key) := Entry(One, s.now + LOCK_TTL)];
    assert late.processors == map[0 := Processor(key, Evaluating, false, 0, Some(s.now), map[])];
    EnteringState(late, 1, "transaction", "T");
    assert InCritical(Run(s, actions), 0, key) && InCritical(Run(s, actions), 1, key);
  }
}
