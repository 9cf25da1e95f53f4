/**
 Every committed evaluation of a key after the first is accounted for: by a failure or
 kill between a commit and its mark, by an expiry of the marker, or by a processor that
 read the marker before it was set.
 */
module ChargedDuplicates {
  import opened Wrappers
  import opened Redis
  import opened Protocol
  import opened MutualExclusion

  predicate IsCommit(e: Event, key: string) {
    e.Committed? && e.key == key
  }

  /** A failure or kill after a commit and before its mark, or an expiry of the marker. */
  predicate IsCharge(e: Event, key: string) {
    match e
    case Lapsed(keys) => key in keys
    case Committed(_, k, _, lost) => k == key && lost
    case MarkFailed(_, k) => k == key
    case Died(k, unmarked, _) => k == key && unmarked
    case _ => false
  }

  /** A commit was made since the last charge. */
  function Open(log: seq<Event>, key: string): bool {
    if log == [] then false
    else
      var e := log[|log| - 1];
      if IsCharge(e, key) then false
      else if IsCommit(e, key) then true
      else Open(log[..|log| - 1], key)
  }

  lemma OpenAppend(log: seq<Event>, e: Event, key: string)
    ensures Open(log + [e], key) == if IsCharge(e, key) then false else if IsCommit(e, key) then true
        else Open(log, key)
  {
    assert (log + [e])[..|log|] == log;
  }

  /** The marker was set after the log had reached `read`: whoever read it then is out of date. */
  ghost predicate Outdated(log: seq<Event>, read: nat, key: string) {
    exists m | read <= m < |log| :: log[m].Marked? && log[m].key == key
  }

  lemma OutdatedAppend(log: seq<Event>, e: Event, read: nat, key: string)
    requires read <= |log|
    ensures Outdated(log + [e], read, key) <==> Outdated(log, read, key) || (e.Marked? && e.key == key)
  {
    var grown := log + [e];
    if Outdated(log, read, key) {
      var m :| read <= m < |log| && log[m].Marked? && log[m].key == key;
      assert grown[m] == log[m];
    }
    assert grown[|log|] == e;
    if Outdated(grown, read, key) && !(e.Marked? && e.key == key) {
      var m :| read <= m < |grown| && grown[m].Marked? && grown[m].key == key;
      assert m < |log| && grown[m] == log[m];
    }
  }

  /** The commit at `j` was made by a processor whose read came before an earlier mark. */
  ghost predicate StaleCommit(log: seq<Event>, j: nat, key: string)
    requires j < |log| && IsCommit(log[j], key)
  {
    Outdated(log[..j], log[j].read, key)
  }

  // Every commit made while an earlier one is uncharged is stale.
  ghost predicate Accounted(log: seq<Event>, key: string) {
    forall j | 0 <= j < |log| && IsCommit(log[j], key) && Open(log[..j], key) :: StaleCommit(log, j, key)
  }

  lemma AccountedAppend(log: seq<Event>, e: Event, key: string)
    requires Accounted(log, key)
    requires IsCommit(e, key) && Open(log, key) ==> Outdated(log, e.read, key)
    ensures Accounted(log + [e], key)
  {
    var grown := log + [e];
    forall j | 0 <= j < |grown| && IsCommit(grown[j], key) && Open(grown[..j], key)
      ensures StaleCommit(grown, j, key)
    {
      assert grown[..j] == log[..j];
      if j < |log| {
        assert grown[j] == log[j] && StaleCommit(log, j, key);
      } else {
        assert log[..j] == log;
      }
    }
  }

  // ----- counting -----

  function Commits(log: seq<Event>, key: string): nat {
    if log == [] then 0
    else Commits(log[..|log| - 1], key) + if IsCommit(log[|log| - 1], key) then 1 else 0
  }

  function Charges(log: seq<Event>, key: string): nat {
    if log == [] then 0
    else Charges(log[..|log| - 1], key) + if IsCharge(log[|log| - 1], key) then 1 else 0
  }

  ghost function StaleCommits(log: seq<Event>, key: string): nat {
    if log == [] then 0
    else
      var e := log[|log| - 1];
      StaleCommits(log[..|log| - 1], key)
      + if IsCommit(e, key) && Outdated(log[..|log| - 1], e.read, key) then 1 else 0
  }

  lemma {:induction false} CountsAddUp(log: seq<Event>, key: string)
    requires Accounted(log, key)
    ensures Commits(log, key) <= Charges(log, key) + StaleCommits(log, key) + if Open(log, key) then 1 else 0
  {
    if log != [] {
      var n := |log| - 1;
      forall j | 0 <= j < n && IsCommit(log[..n][j], key) && Open(log[..n][..j], key)
        ensures StaleCommit(log[..n], j, key)
      {
        assert log[..n][..j] == log[..j] && StaleCommit(log, j, key);
      }
      CountsAddUp(log[..n], key);
      assert IsCommit(log[n], key) && Open(log[..n], key) ==> StaleCommit(log, n, key);
    }
  }

  lemma {:induction false} OpenUntilCharged(log: seq<Event>, i: nat, j: nat, key: string)
    requires i < j <= |log| && IsCommit(log[i], key)
    requires forall c | i <= c < j :: !IsCharge(log[c], key)
    ensures Open(log[..j], key)
  {
    assert log[..j] == log[..j - 1] + [log[j - 1]];
    OpenAppend(log[..j - 1], log[j - 1], key);
    if i < j - 1 {
      OpenUntilCharged(log, i, j - 1, key);
    }
  }

  /** Between two commits of a key lies a charge, or the later one is stale. */
  lemma ChargedBetween(log: seq<Event>, i: nat, j: nat, key: string)
    requires Accounted(log, key)
    requires i < j < |log| && IsCommit(log[i], key) && IsCommit(log[j], key)
    ensures (exists c | i <= c < j :: IsCharge(log[c], key)) || StaleCommit(log, j, key)
  {
    if forall c | i <= c < j :: !IsCharge(log[c], key) {
      OpenUntilCharged(log, i, j, key);
    }
  }

  // ----- the invariant -----

  ghost predicate InMarking(s: System, p: nat, key: string) {
    p in s.processors && s.processors[p].key == key && s.processors[p].phase == Marking
  }

  /** Has read the marker as absent and has not yet set it. */
  ghost predicate BeforeMark(s: System, p: nat, key: string) {
    && p in s.processors && s.processors[p].key == key
    && (s.processors[p].phase == Locking || s.processors[p].phase == Evaluating || s.processors[p].phase == Marking)
  }

  ghost predicate Explained(s: System, key: string) {
    Open(s.log, key) ==> Live(s.store, s.now, key) || exists p :: InMarking(s, p, key)
  }

  ghost predicate ReadersKnown(s: System, key: string) {
    forall p | BeforeMark(s, p, key) ::
      s.processors[p].read <= |s.log| && (Live(s.store, s.now, key) ==> Outdated(s.log, s.processors[p].read, key))
  }

  ghost predicate Ledger(s: System, key: string) {
    Accounted(s.log, key) && Explained(s, key) && ReadersKnown(s, key)
  }

  lemma TickKeepsLedger(s: System, elapsed: nat, key: string)
    requires Ledger(s, key)
    ensures Ledger(Elapse(s, elapsed), key)
  {
    var t := Elapse(s, elapsed);
    var e := t.log[|s.log|];
    OpenAppend(s.log, e, key);
    AccountedAppend(s.log, e, key);
    assert forall p | InMarking(s, p, key) :: InMarking(t, p, key);
    forall p | BeforeMark(t, p, key)
      ensures t.processors[p].read <= |t.log| && (Live(t.store, t.now, key) ==>
            Outdated(t.log, t.processors[p].read, key))
    {
      assert BeforeMark(s, p, key);
      OutdatedAppend(s.log, e, t.processors[p].read, key);
    }
  }

  // An action that is not about this key.
  lemma ForeignStepKeepsLedger(s: System, t: System, key: string)
    requires Ledger(s, key) && SameEntry(s, t, key) && t.now == s.now
    requires t.log == s.log
      || (|t.log| == |s.log| + 1 && t.log == s.log + [t.log[|s.log|]]
            && Subject(t.log[|s.log|]).Some? && Subject(t.log[|s.log|]) != Some(key))
    requires forall p | BeforeMark(t, p, key) :: BeforeMark(s, p, key) && t.processors[p] == s.processors[p]
    requires forall p | InMarking(s, p, key) :: InMarking(t, p, key)
    ensures Ledger(t, key)
  {
    if t.log != s.log {
      var e := t.log[|s.log|];
      OpenAppend(s.log, e, key);
      AccountedAppend(s.log, e, key);
      forall p | BeforeMark(t, p, key)
        ensures t.processors[p].read <= |t.log| && (Live(t.store, t.now, key) ==>
              Outdated(t.log, t.processors[p].read, key))
      {
        OutdatedAppend(s.log, e, t.processors[p].read, key);
      }
    }
  }

  // A call of a processor of this key that neither commits nor marks.
  lemma QuietStepKeepsLedger(s: System, t: System, pid: nat, key: string)
    requires Ledger(s, key) && SameEntry(s, t, key) && t.now == s.now
    requires pid in s.processors && !InMarking(s, pid, key) && pid in t.processors && t.processors[pid].key == key
    requires forall p | p != pid ::
      (p in t.processors <==> p in s.processors) && (p in s.processors ==> t.processors[p] == s.processors[p])
    requires t.log == s.log || exists until :: t.log == s.log + [LockLeft(key, until)]
    requires var q := t.processors[pid];
      && (q.phase == Locking ==> !Live(s.store, s.now, key) && q.read <= |s.log|)
      && (q.phase == Evaluating ==> BeforeMark(s, pid, key) && q.read == s.processors[pid].read)
      && q.phase != Marking
    ensures Ledger(t, key)
  {
    if t.log != s.log {
      var until :| t.log == s.log + [LockLeft(key, until)];
      var e := LockLeft(key, until);
      OpenAppend(s.log, e, key);
      AccountedAppend(s.log, e, key);
      forall read: nat | read <= |s.log| ensures Outdated(t.log, read, key) <==> Outdated(s.log, read, key) {
        OutdatedAppend(s.log, e, read, key);
      }
    }
    assert forall p | InMarking(s, p, key) :: InMarking(t, p, key);
    forall p | BeforeMark(t, p, key)
      ensures t.processors[p].read <= |t.log| && (Live(t.store, t.now, key) ==>
            Outdated(t.log, t.processors[p].read, key))
    {
      if p != pid {
        assert BeforeMark(s, p, key);
      }
    }
  }

  // The commit of a processor of this key.
  lemma CommitKeepsLedger(s: System, t: System, pid: nat, lost: bool, key: string)
    requires Ledger(s, key) && Exclusive(s, key) && SameEntry(s, t, key) && t.now == s.now
    requires pid in s.processors && s.processors[pid].key == key && s.processors[pid].phase == Evaluating
    requires pid in t.processors && t.processors[pid].key == key && t.processors[pid].read == s.processors[pid].read
    requires t.processors[pid].phase == if lost then Releasing else Marking
    requires forall p | p != pid ::
      (p in t.processors <==> p in s.processors) && (p in s.processors ==> t.processors[p] == s.processors[p])
    requires t.log == s.log + [Committed(pid, key, s.processors[pid].read, lost)]
    ensures Ledger(t, key)
  {
    var e := Committed(pid, key, s.processors[pid].read, lost);
    assert BeforeMark(s, pid, key) && InCritical(s, pid, key);
    forall p | InMarking(s, p, key) ensures false {
      assert InCritical(s, p, key) && p != pid;
    }
    OpenAppend(s.log, e, key);
    AccountedAppend(s.log, e, key);
    assert !lost ==> InMarking(t, pid, key);
    forall p | BeforeMark(t, p, key)
      ensures t.processors[p].read <= |t.log| && (Live(t.store, t.now, key) ==>
            Outdated(t.log, t.processors[p].read, key))
    {
      assert BeforeMark(s, p, key);
      OutdatedAppend(s.log, e, t.processors[p].read, key);
    }
  }

  // The mark of a processor of this key, or its failure.
  lemma MarkKeepsLedger(s: System, t: System, pid: nat, key: string)
    requires Ledger(s, key) && t.now == s.now
    requires InMarking(s, pid, key) && pid in t.processors && t.processors[pid].phase == Releasing
    requires forall p | p != pid ::
      (p in t.processors <==> p in s.processors) && (p in s.processors ==> t.processors[p] == s.processors[p])
    requires (SameEntry(s, t, key) && t.log == s.log + [MarkFailed(pid, key)])
          || (Live(t.store, t.now, key) && t.log == s.log + [Marked(pid, key)])
    ensures Ledger(t, key)
  {
    var e := t.log[|s.log|];
    OpenAppend(s.log, e, key);
    AccountedAppend(s.log, e, key);
    forall p | BeforeMark(t, p, key)
      ensures t.processors[p].read <= |t.log| && (Live(t.store, t.now, key) ==>
            Outdated(t.log, t.processors[p].read, key))
    {
      assert BeforeMark(s, p, key);
      OutdatedAppend(s.log, e, t.processors[p].read, key);
    }
  }

  // The kill of a processor of this key.
  lemma KillKeepsLedger(s: System, pid: nat, key: string)
    requires Ledger(s, key) && pid in s.processors && s.processors[pid].key == key
    ensures Ledger(KillOne(s, pid), key)
  {
    var t := KillOne(s, pid);
    if t != s {
      var e := t.log[|s.log|];
      OpenAppend(s.log, e, key);
      AccountedAppend(s.log, e, key);
      assert forall p | InMarking(s, p, key) && p != pid :: InMarking(t, p, key);
      forall p | BeforeMark(t, p, key)
        ensures t.processors[p].read <= |t.log| && (Live(t.store, t.now, key) ==>
              Outdated(t.log, t.processors[p].read, key))
      {
        assert BeforeMark(s, p, key);
        OutdatedAppend(s.log, e, t.processors[p].read, key);
      }
    }
  }

  lemma OwnCallKeepsLedger(s: System, a: Action, key: string)
    requires WellKeyed(s) && IsMarkerKey(key) && Ledger(s, key) && Exclusive(s, key)
    requires a.Perform? && KeyOf(s, a) == Some(key)
    ensures Ledger(Do(s, a), key)
  {
    var t, pid := Do(s, a), a.pid;
    OwnStep(s, pid, a.fault, a.result);
    OwnStepOnMarker(s, pid, a.fault, a.result);
    forall p | p != pid
      ensures p in t.processors <==> p in s.processors
      ensures p in s.processors ==> t.processors[p] == s.processors[p]
    {
      OneProcessorMoves(s, a, p);
    }
    assert s.processors[pid].phase == Locking || s.processors[pid].phase == Evaluating ==> BeforeMark(s, pid, key);
    if s.processors[pid].phase == Marking {
      MarkKeepsLedger(s, t, pid, key);
    } else if s.processors[pid].phase == Evaluating && t.log != s.log {
      CommitKeepsLedger(s, t, pid, t.processors[pid].phase != Marking, key);
    } else {
      QuietStepKeepsLedger(s, t, pid, key);
    }
  }

  lemma OtherActionKeepsLedger(s: System, a: Action, key: string)
    requires WellKeyed(s) && IsMarkerKey(key) && Ledger(s, key)
    requires !a.Tick? && KeyOf(s, a) != Some(key)
    ensures Ledger(Do(s, a), key)
  {
    var t := Do(s, a);
    OtherKeysUntouched(s, a, key);
    EventsAreAboutOwnKey(s, a);
    LogGrows(s, a);
    forall p | BeforeMark(t, p, key) ensures BeforeMark(s, p, key) && t.processors[p] == s.processors[p] {
      KeyStays(s, a, p);
      if a.pid != p {
        OneProcessorMoves(s, a, p);
      }
    }
    forall p | InMarking(s, p, key) ensures InMarking(t, p, key) {
      if a.pid != p {
        OneProcessorMoves(s, a, p);
      }
    }
    assert t.now == s.now;
    ForeignStepKeepsLedger(s, t, key);
  }

  lemma StepKeepsLedger(s: System, a: Action, key: string)
    requires WellKeyed(s) && IsMarkerKey(key) && Ledger(s, key) && Exclusive(s, key)
    ensures Ledger(Do(s, a), key)
  {
    if a.Tick? {
      TickKeepsLedger(s, a.elapsed, key);
    } else if KeyOf(s, a) != Some(key) {
      OtherActionKeepsLedger(s, a, key);
    } else if a.Kill? {
      KillKeepsLedger(s, a.pid, key);
    } else {
      OwnCallKeepsLedger(s, a, key);
    }
  }

  lemma {:induction false} LedgerThroughout(s: System, actions: seq<Action>, key: string)
    requires Initial(s) && IsMarkerKey(key) && ExclusiveThroughout(s, actions, key)
    ensures Ledger(Run(s, actions), key)
  {
    if actions != [] {
      var before := actions[..|actions| - 1];
      LedgerThroughout(s, before, key);
      RunKeepsWellKeyed(s, before);
      StepKeepsLedger(Run(s, before), actions[|actions| - 1], key);
    }
  }

  lemma {:induction false} TimelyIsExclusive(s: System, actions: seq<Action>, key: string)
    requires Initial(s) && IsMarkerKey(key) && TimelyThroughout(s, actions, key)
    ensures ExclusiveThroughout(s, actions, key)
  {
    MutualExclusion.MutualExclusion(s, actions, key);
    if actions != [] {
      TimelyIsExclusive(s, actions[..|actions| - 1], key);
    }
  }

  /**
   Any number of concurrent processors, no critical section outliving the lock: the
   committed evaluations of a key exceed one by at most the failures and kills between
   commit and mark, the expiries of the marker, and the commits of processors that had
   read the marker before it was set. Between any two commits lies one of the first two,
   or the later commit is of the third kind.
   */
  lemma ConcurrentDuplicatesAreCharged(s: System, actions: seq<Action>, key: string)
    requires Initial(s) && IsMarkerKey(key) && TimelyThroughout(s, actions, key)
    ensures var log := Run(s, actions).log;
      && Commits(log, key) <= 1 + Charges(log, key) + StaleCommits(log, key)
      && forall i, j | 0 <= i < j < |log| && IsCommit(log[i], key) && IsCommit(log[j], key) ::
           (exists c | i <= c < j :: IsCharge(log[c], key)) || StaleCommit(log, j, key)
  {
    var log := Run(s, actions).log;
    TimelyIsExclusive(s, actions, key);
    LedgerThroughout(s, actions, key);
    CountsAddUp(log, key);
    forall i, j | 0 <= i < j < |log| && IsCommit(log[i], key) && IsCommit(log[j], key)
      ensures (exists c | i <= c < j :: IsCharge(log[c], key)) || StaleCommit(log, j, key)
    {
      ChargedBetween(log, i, j, key);
    }
  }
}
