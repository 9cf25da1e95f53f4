/**
 Runs in which one processor at a time is under way: a single consumer with its retries,
 redeliveries, crashes and restarts. No assumption is made about how long anything takes.
 */
module SingleConsumer {
  import opened Wrappers
  import opened Redis
  import opened Protocol
  import opened MutualExclusion
  import opened ChargedDuplicates

  ghost predicate Underway(s: System, p: nat) {
    p in s.processors && !s.processors[p].phase.Finished?
  }

  ghost predicate Solo(s: System) {
    forall p, q | Underway(s, p) && Underway(s, q) :: p == q
  }

  ghost predicate SoloThroughout(s: System, actions: seq<Action>) {
    && Solo(Run(s, actions))
    && (actions != [] ==> SoloThroughout(s, actions[..|actions| - 1]))
  }

  lemma {:induction false} SoloIsExclusive(s: System, actions: seq<Action>, key: string)
    requires SoloThroughout(s, actions)
    ensures ExclusiveThroughout(s, actions, key)
  {
    forall p, q | InCritical(Run(s, actions), p, key) && InCritical(Run(s, actions), q, key) ensures p == q {
      assert Underway(Run(s, actions), p) && Underway(Run(s, actions), q);
    }
    if actions != [] {
      SoloIsExclusive(s, actions[..|actions| - 1], key);
    }
  }

  // ----- nobody reads the marker too early -----

  ghost predicate NoStaleCommit(log: seq<Event>, key: string) {
    forall j | 0 <= j < |log| && IsCommit(log[j], key) :: !StaleCommit(log, j, key)
  }

  ghost predicate UpToDate(s: System, key: string) {
    && NoStaleCommit(s.log, key)
    && forall p | BeforeMark(s, p, key) ::
         s.processors[p].read <= |s.log| && !Outdated(s.log, s.processors[p].read, key)
  }

  lemma NoStaleAppend(log: seq<Event>, e: Event, key: string)
    requires NoStaleCommit(log, key)
    requires IsCommit(e, key) ==> !Outdated(log, e.read, key)
    ensures NoStaleCommit(log + [e], key)
  {
    var grown := log + [e];
    forall j | 0 <= j < |grown| && IsCommit(grown[j], key) ensures !StaleCommit(grown, j, key) {
      assert grown[..j] == log[..j];
      if j < |log| {
        assert grown[j] == log[j] && !StaleCommit(log, j, key);
      } else {
        assert log[..j] == log;
      }
    }
  }

  // The step, described: the log grows by at most one event, which is a mark only when
  // nobody is left before the mark.
  lemma UpToDateCarriesOver(s: System, t: System, key: string)
    requires UpToDate(s, key)
    requires t.log == s.log || (|t.log| == |s.log| + 1 && t.log == s.log + [t.log[|s.log|]])
    requires |t.log| > |s.log| && IsCommit(t.log[|s.log|], key) ==> !Outdated(s.log, t.log[|s.log|].read, key)
    requires |t.log| > |s.log| && t.log[|s.log|].Marked? && t.log[|s.log|].key == key ==>
          forall p :: !BeforeMark(t, p, key)
    requires forall p | BeforeMark(t, p, key) ::
      || (t.processors[p].read == |s.log| && t.log == s.log)
      || (BeforeMark(s, p, key) && t.processors[p].read == s.processors[p].read)
    ensures UpToDate(t, key)
  {
    if t.log != s.log {
      NoStaleAppend(s.log, t.log[|s.log|], key);
    }
    forall p | BeforeMark(t, p, key)
      ensures t.processors[p].read <= |t.log| && !Outdated(t.log, t.processors[p].read, key)
    {
      if t.log != s.log {
        OutdatedAppend(s.log, t.log[|s.log|], t.processors[p].read, key);
      }
    }
  }

  lemma OwnCallStaysUpToDate(s: System, a: Action, key: string)
    requires WellKeyed(s) && UpToDate(s, key) && Solo(s)
    requires a.Perform? && KeyOf(s, a) == Some(key)
    ensures UpToDate(Do(s, a), key)
  {
    var t, pid := Do(s, a), a.pid;
    OwnStep(s, pid, a.fault, a.result);
    OwnStepOnMarker(s, pid, a.fault, a.result);
    LogGrows(s, a);
    assert BeforeMark(s, pid, key) <==> s.processors[pid].phase in {Locking, Evaluating, Marking};
    forall p | BeforeMark(t, p, key) && p != pid ensures BeforeMark(s, p, key) && t.processors[p] == s.processors[p] {
      OneProcessorMoves(s, a, p);
    }
    if s.processors[pid].phase == Marking {
      forall p | BeforeMark(t, p, key) ensures false {
        if p != pid {
          assert Underway(s, p) && Underway(s, pid);
        }
      }
    }
    UpToDateCarriesOver(s, t, key);
  }

  lemma OtherActionStaysUpToDate(s: System, a: Action, key: string)
    requires UpToDate(s, key)
    requires a.Kill? || KeyOf(s, a) != Some(key)
    ensures UpToDate(Do(s, a), key)
  {
    var t := Do(s, a);
    LogGrows(s, a);
    if !a.Tick? {
      EventsAreAboutOwnKey(s, a);
    }
    forall p | BeforeMark(t, p, key) ensures BeforeMark(s, p, key) && t.processors[p] == s.processors[p] {
      KeyStays(s, a, p);
      if a.Tick? || a.pid != p {
        OneProcessorMoves(s, a, p);
      }
    }
    assert a.Kill? && t.log != s.log ==> t.log[|s.log|].Died?;
    hide Do, NoStaleCommit, Outdated;
    UpToDateCarriesOver(s, t, key);
  }

  lemma {:induction false} UpToDateThroughout(s: System, actions: seq<Action>, key: string)
    requires Initial(s) && IsMarkerKey(key) && SoloThroughout(s, actions)
    ensures UpToDate(Run(s, actions), key)
  {
    if actions != [] {
      var before, a := actions[..|actions| - 1], actions[|actions| - 1];
      UpToDateThroughout(s, before, key);
      RunKeepsWellKeyed(s, before);
      if a.Perform? && KeyOf(Run(s, before), a) == Some(key) {
        OwnCallStaysUpToDate(Run(s, before), a, key);
      } else {
        OtherActionStaysUpToDate(Run(s, before), a, key);
      }
    }
  }

  lemma {:induction false} NoStaleCount(log: seq<Event>, key: string)
    requires NoStaleCommit(log, key)
    ensures StaleCommits(log, key) == 0
  {
    if log != [] {
      var n := |log| - 1;
      forall j | 0 <= j < n && IsCommit(log[..n][j], key) ensures !StaleCommit(log[..n], j, key) {
        assert log[..n][..j] == log[..j] && !StaleCommit(log, j, key);
      }
      NoStaleCount(log[..n], key);
      assert IsCommit(log[n], key) ==> !StaleCommit(log, n, key);
    }
  }

  /**
   In every run of a single consumer, the committed evaluations of a key are at most one
   plus the failures and kills between commit and mark plus the expiries of the marker,
   and between any two of them lies such an event.
   */
  lemma DuplicatesAreCharged(s: System, actions: seq<Action>, key: string)
    requires Initial(s) && IsMarkerKey(key) && SoloThroughout(s, actions)
    ensures var log := Run(s, actions).log;
      && Commits(log, key) <= 1 + Charges(log, key)
      && forall i, j | 0 <= i < j < |log| && IsCommit(log[i], key) && IsCommit(log[j], key) ::
           exists c | i <= c < j :: IsCharge(log[c], key)
  {
    var log := Run(s, actions).log;
    SoloIsExclusive(s, actions, key);
    LedgerThroughout(s, actions, key);
    UpToDateThroughout(s, actions, key);
    CountsAddUp(log, key);
    NoStaleCount(log, key);
    forall i, j | 0 <= i < j < |log| && IsCommit(log[i], key) && IsCommit(log[j], key)
      ensures exists c | i <= c < j :: IsCharge(log[c], key)
    {
      ChargedBetween(log, i, j, key);
      assert !StaleCommit(log, j, key);
    }
  }

  // ----- when a free consumer finds the lock taken -----

  ghost predicate LeftBehind(s: System, key: string) {
    exists i, until: nat | 0 <= i < |s.log| && s.now < until :: LeavesLock(s.log[i], key, until)
  }

  ghost predicate Holder(s: System, key: string) {
    exists p :: InCritical(s, p, key)
  }

  // A live lock has a holder or was left behind, and a lock left behind has no holder.
  ghost predicate LocksExplained(s: System, key: string) {
    && (Live(s.store, s.now, LockKey(key)) ==>
          Holder(s, key) || exists i | 0 <= i < |s.log| :: LeavesLock(s.log[i], key, LockEnd(s, key)))
    && (forall i, until: nat | 0 <= i < |s.log| && LeavesLock(s.log[i], key, until) && s.now < until ::
          !Holder(s, key) && LockEnd(s, key) >= until)
  }

  // A step that keeps, takes, leaves behind or deletes the lock, with its outcome described.
  lemma LocksCarryOver(s: System, t: System, key: string)
    requires LocksExplained(s, key) && s.now <= t.now && s.log <= t.log && |t.log| <= |s.log| + 1
    requires
      var lock := LockKey(key);
      var silent := |t.log| > |s.log| ==> forall until: nat | LeavesLock(t.log[|s.log|], key, until) :: until <= t.now;
      || (silent && SameEntry(s, t, lock) && (Holder(s, key) <==> Holder(t, key)))
      || (silent && !Live(s.store, s.now, lock) && Holder(t, key))
      || (!Holder(t, key) && |t.log| > |s.log|
            && (forall until: nat :: LeavesLock(t.log[|s.log|], key, until) <==> until == LockEnd(t, key))
            && (Holder(s, key) || !Live(s.store, s.now, lock)))
      || (silent && Holder(s, key) && !Holder(t, key) && lock !in t.store)
    ensures LocksExplained(t, key)
  {
    forall i | 0 <= i < |s.log| ensures t.log[i] == s.log[i] {
    }
    if Live(t.store, t.now, LockKey(key)) && !Holder(t, key) && |t.log| > |s.log|
        && LeavesLock(t.log[|s.log|], key, LockEnd(t, key)) {
      assert exists i | 0 <= i < |t.log| :: LeavesLock(t.log[i], key, LockEnd(t, key));
    } else if Live(t.store, t.now, LockKey(key)) && !Holder(t, key) {
      var i :| 0 <= i < |s.log| && LeavesLock(s.log[i], key, LockEnd(s, key));
      assert LeavesLock(t.log[i], key, LockEnd(t, key));
    }
    forall i, until: nat | 0 <= i < |t.log| && LeavesLock(t.log[i], key, until) && t.now < until
      ensures !Holder(t, key) && LockEnd(t, key) >= until
    {
      if i < |s.log| {
        assert LeavesLock(s.log[i], key, until);
      }
    }
  }

  lemma HolderIsTheOneUnderway(s: System, p: nat, key: string)
    requires Solo(s) && Underway(s, p) && s.processors[p].key == key
    ensures Holder(s, key) <==> Critical(s.processors[p])
  {
    if Critical(s.processors[p]) {
      assert InCritical(s, p, key);
    }
    forall q | InCritical(s, q, key) ensures q == p {
      assert Underway(s, q);
    }
  }

  lemma HolderAfterOwnStep(s: System, a: Action, key: string)
    requires Solo(s) && (a.Perform? || a.Kill?) && Underway(s, a.pid) && s.processors[a.pid].key == key
    ensures Holder(Do(s, a), key) <==> Critical(Do(s, a).processors[a.pid])
  {
    var t := Do(s, a);
    KeyStays(s, a, a.pid);
    if Critical(t.processors[a.pid]) {
      assert InCritical(t, a.pid, key);
    }
    forall q | InCritical(t, q, key) ensures q == a.pid {
      if q != a.pid {
        OneProcessorMoves(s, a, q);
        assert Underway(s, q);
      }
    }
  }

  lemma OwnStepKeepsLocks(s: System, a: Action, key: string)
    requires WellKeyed(s) && LocksExplained(s, key) && Solo(s)
    requires (a.Perform? || a.Kill?) && Underway(s, a.pid) && s.processors[a.pid].key == key
    ensures LocksExplained(Do(s, a), key)
  {
    var t := Do(s, a);
    HolderIsTheOneUnderway(s, a.pid, key);
    HolderAfterOwnStep(s, a, key);
    LogGrows(s, a);
    if a.Perform? {
      OwnStepOnLock(s, a.pid, a.fault, a.result);
      assert t.now == s.now by { OwnStep(s, a.pid, a.fault, a.result); }
    } else {
      assert SameEntry(s, t, LockKey(key)) && t.now == s.now;
      assert t.log[|s.log|].Died? && LockEnd(t, key) == LockEnd(s, key);
    }
    LocksCarryOver(s, t, key);
  }

  lemma OtherStepKeepsLocks(s: System, a: Action, key: string)
    requires WellKeyed(s) && IsMarkerKey(key) && LocksExplained(s, key)
    requires KeyOf(s, a) != Some(key)
    ensures LocksExplained(Do(s, a), key)
  {
    var t := Do(s, a);
    LogGrows(s, a);
    OtherKeysUntouched(s, a, key);
    if !a.Tick? {
      EventsAreAboutOwnKey(s, a);
    }
    forall p ensures InCritical(t, p, key) <==> InCritical(s, p, key) {
      if InCritical(t, p, key) {
        NobodyEnters(s, a, p, key);
      } else if InCritical(s, p, key) && (a.Tick? || a.pid != p) {
        OneProcessorMoves(s, a, p);
      }
    }
    assert Holder(t, key) <==> Holder(s, key);
    LocksCarryOver(s, t, key);
  }

  lemma {:induction false} LocksAlwaysExplained(s: System, actions: seq<Action>, key: string)
    requires Initial(s) && IsMarkerKey(key) && SoloThroughout(s, actions)
    ensures LocksExplained(Run(s, actions), key)
  {
    if actions != [] {
      var before, a := actions[..|actions| - 1], actions[|actions| - 1];
      LocksAlwaysExplained(s, before, key);
      RunKeepsWellKeyed(s, before);
      if KeyOf(Run(s, before), a) != Some(key) {
        OtherStepKeepsLocks(Run(s, before), a, key);
      } else if Underway(Run(s, before), a.pid) {
        OwnStepKeepsLocks(Run(s, before), a, key);
      }
    }
  }

  /**
   The guard answers "another consumer is processing this message" to a single consumer
   exactly while a lock left behind by a lost reply, a failed release or a kill has not
   run out. Only then is a message neither evaluated nor known to be processed skipped.
   */
  lemma SkipsExactlyOnLeftLocks(s: System, actions: seq<Action>, pid: nat)
    requires Initial(s) && SoloThroughout(s, actions)
    requires pid in Run(s, actions).processors && Run(s, actions).processors[pid].phase == Locking
    ensures var t := Run(s, actions);
      Do(t, Perform(pid, Fine, map[])).processors[pid].phase == Finished(LockHeld)
      <==> LeftBehind(t, t.processors[pid].key)
  {
    var t := Run(s, actions);
    var key := t.processors[pid].key;
    assert Initial(s) ==> WellKeyed(s);
    RunKeepsWellKeyed(s, actions);
    LocksAlwaysExplained(s, actions, key);
    HolderIsTheOneUnderway(t, pid, key);
    assert Do(t, Perform(pid, Fine, map[])).processors[pid].phase == Finished(LockHeld)
      <==> Live(t.store, t.now, LockKey(key));
    if LeftBehind(t, key) {
      var i, until: nat :| 0 <= i < |t.log| && t.now < until && LeavesLock(t.log[i], key, until);
      assert LockEnd(t, key) >= until;
    }
  }

  /**
   The skip does lose messages: an evaluation fails, the release after it fails too, and
   the retry is told the lock is held. It ends as if all were well, with nothing committed.
   */
  lemma LeftLockLosesMessage(s: System) returns (actions: seq<Action>)
    requires Initial(s)
    ensures actions == Entering(0, "transaction", "T") + [Perform(0, FailBefore, map[]), Perform(0, FailBefore, map[])]
                       + Entering(1, "transaction", "T")
    ensures 1 in Run(s, actions).processors && Run(s, actions).processors[1].phase == Finished(LockHeld)
    ensures Commits(Run(s, actions).log, MakeKey("transaction", "T")) == 0
  {
    var key := MakeKey("transaction", "T");
    MadeKeysAreMarkers("transaction", "T");
    KeysApart(key, key);
    var failing := [Perform(0, FailBefore, map[]), Perform(0, FailBefore, map[])];
    actions := Entering(0, "transaction", "T") + failing + Entering(1, "transaction", "T");
    RunConcat(s, Entering(0, "transaction", "T") + failing, Entering(1, "transaction", "T"));
    RunConcat(s, Entering(0, "transaction", "T"), failing);
    EnteringState(s, 0, "transaction", "T");
    var inside := Run(s, Entering(0, "transaction", "T"));
    RunTwo(inside, failing[0], failing[1]);
    var failed := Do(Do(inside, failing[0]), failing[1]);
    assert failed.store == inside.store && failed.now == s.now && 1 !in failed.processors;
    assert failed.log == [LockLeft(key, s.now + LOCK_TTL)];
    EnteringState(failed, 1, "transaction", "T");
    assert Run(s, actions).log == failed.log && failed.log[..0] == [];
  }
}
