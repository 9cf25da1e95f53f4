/**
 What a marker, a duplicate and a repeated commit prove about the past: an evaluation of
 the key was committed before. Nothing here depends on how long anything takes.
 */
module CommitOrigins {
  import opened Wrappers
  import opened Redis
  import opened Protocol
  import opened MutualExclusion
  import opened ChargedDuplicates
  import opened SingleConsumer

  /** An evaluation of this key was committed. */
  ghost predicate HasCommit(log: seq<Event>, key: string) {
    exists i | 0 <= i < |log| :: IsCommit(log[i], key)
  }

  lemma HasCommitGrows(log: seq<Event>, longer: seq<Event>, key: string)
    requires log <= longer && HasCommit(log, key)
    ensures HasCommit(longer, key)
  {
    var i :| 0 <= i < |log| && IsCommit(log[i], key);
    assert longer[i] == log[i];
  }

  /** Found the marker, or has committed and not failed since. */
  predicate Assured(p: Processor) {
    match p.phase
    case Fetching => true
    case Marking => true
    case Releasing => !p.raised
    case Finished(ending) => ending == Duplicate || ending == Completed
    case _ => false
  }

  predicate IsMark(e: Event, key: string) {
    e.Marked? && e.key == key
  }

  // Marks and charges of a key come no earlier than its first commit.
  ghost predicate Ordered(log: seq<Event>, key: string) {
    forall c | 0 <= c < |log| && (IsCharge(log[c], key) || IsMark(log[c], key)) :: HasCommit(log[..c + 1], key)
  }

  ghost predicate Founded(s: System, key: string) {
    && (key in s.store ==> HasCommit(s.log, key))
    && (forall p | p in s.processors && s.processors[p].key == key && Assured(s.processors[p]) :: HasCommit(s.log, key))
    && Ordered(s.log, key)
  }

  lemma OrderedAppend(log: seq<Event>, e: Event, key: string)
    requires Ordered(log, key)
    requires IsCharge(e, key) || IsMark(e, key) ==> HasCommit(log + [e], key)
    ensures Ordered(log + [e], key)
  {
    var grown := log + [e];
    forall c | 0 <= c < |grown| && (IsCharge(grown[c], key) || IsMark(grown[c], key))
      ensures HasCommit(grown[..c + 1], key)
    {
      if c < |log| {
        assert grown[c] == log[c] && grown[..c + 1] == log[..c + 1];
      } else {
        assert grown[..c + 1] == grown;
      }
    }
  }

  // The step, described: what is new in it has a commit behind it.
  lemma FoundedCarriesOver(s: System, t: System, key: string)
    requires Founded(s, key)
    requires t.log == s.log || (|t.log| == |s.log| + 1 && t.log == s.log + [t.log[|s.log|]])
    requires key in t.store ==> key in s.store || HasCommit(t.log, key)
    requires forall p | p in t.processors && t.processors[p].key == key && Assured(t.processors[p]) ::
      (p in s.processors && s.processors[p].key == key && Assured(s.processors[p])) || HasCommit(t.log, key)
    requires |t.log| > |s.log| && (IsCharge(t.log[|s.log|], key) || IsMark(t.log[|s.log|], key)) ==>
          HasCommit(t.log, key)
    ensures Founded(t, key)
  {
    if HasCommit(s.log, key) {
      HasCommitGrows(s.log, t.log, key);
    }
    if t.log != s.log {
      OrderedAppend(s.log, t.log[|s.log|], key);
    }
  }

  lemma TickKeepsFounded(s: System, elapsed: nat, key: string)
    requires Founded(s, key)
    ensures Founded(Elapse(s, elapsed), key)
  {
    var t := Elapse(s, elapsed);
    if HasCommit(s.log, key) {
      HasCommitGrows(s.log, t.log, key);
    }
    FoundedCarriesOver(s, t, key);
  }

  /** Where one call can make a processor assured, and what it writes to the log then. */
  lemma OwnStepAssures(s: System, pid: nat, fault: Fault, result: Dict)
    requires pid in s.processors
    ensures var t, p := Advance(s, pid, fault, result), s.processors[pid];
      var q := t.processors[pid];
      Assured(q) ==>
        || Assured(p)
        || (p.phase == Checking && p.key in s.store)
        || (p.phase == Evaluating && t.log == s.log + [Committed(pid, p.key, p.read, false)])
  {
  }

  lemma OwnCallKeepsFounded(s: System, a: Action, key: string)
    requires WellKeyed(s) && IsMarkerKey(key) && Founded(s, key)
    requires a.Perform? && KeyOf(s, a) == Some(key)
    ensures Founded(Do(s, a), key)
  {
    var t, pid := Do(s, a), a.pid;
    OwnStepOnMarker(s, pid, a.fault, a.result);
    OwnStepAssures(s, pid, a.fault, a.result);
    LogGrows(s, a);
    KeyStays(s, a, pid);
    forall p | p != pid && p in t.processors ensures p in s.processors && t.processors[p] == s.processors[p] {
      OneProcessorMoves(s, a, p);
    }
    if t.log != s.log {
      var e := t.log[|s.log|];
      assert IsCommit(e, key) ==> HasCommit(t.log, key);
    }
    if HasCommit(s.log, key) {
      HasCommitGrows(s.log, t.log, key);
    }
    assert s.processors[pid].phase == Marking ==> HasCommit(s.log, key);
    hide Do, HasCommit;
    FoundedCarriesOver(s, t, key);
  }

  lemma ForeignActionKeepsFounded(s: System, a: Action, key: string)
    requires WellKeyed(s) && IsMarkerKey(key) && Founded(s, key)
    requires !a.Tick? && KeyOf(s, a) != Some(key)
    ensures Founded(Do(s, a), key)
  {
    var t := Do(s, a);
    LogGrows(s, a);
    EventsAreAboutOwnKey(s, a);
    OtherKeysUntouched(s, a, key);
    forall p | p in t.processors && t.processors[p].key == key && Assured(t.processors[p])
      ensures p in s.processors && s.processors[p].key == key && Assured(s.processors[p])
    {
      KeyStays(s, a, p);
      if a.pid != p {
        OneProcessorMoves(s, a, p);
      }
    }
    hide Do, HasCommit;
    FoundedCarriesOver(s, t, key);
  }

  lemma KillKeepsFounded(s: System, pid: nat, key: string)
    requires Founded(s, key) && pid in s.processors && s.processors[pid].key == key
    ensures Founded(KillOne(s, pid), key)
  {
    var t := KillOne(s, pid);
    if t != s {
      if HasCommit(s.log, key) {
        HasCommitGrows(s.log, t.log, key);
      }
      FoundedCarriesOver(s, t, key);
    }
  }

  lemma {:induction false} AlwaysFounded(s: System, actions: seq<Action>, key: string)
    requires Initial(s) && IsMarkerKey(key)
    ensures Founded(Run(s, actions), key)
  {
    if actions != [] {
      var before, a := actions[..|actions| - 1], actions[|actions| - 1];
      AlwaysFounded(s, before, key);
      RunKeepsWellKeyed(s, before);
      if a.Tick? {
        TickKeepsFounded(Run(s, before), a.elapsed, key);
      } else if a.Perform? && KeyOf(Run(s, before), a) == Some(key) {
        OwnCallKeepsFounded(Run(s, before), a, key);
      } else if KeyOf(Run(s, before), a) == Some(key) {
        KillKeepsFounded(Run(s, before), a.pid, key);
      } else {
        ForeignActionKeepsFounded(Run(s, before), a, key);
      }
    }
  }

  /**
   Any number of processors, anything failing, nothing about time: a message recognised as
   a duplicate or processed to the end has a committed evaluation, and so has a live marker.
   */
  lemma DuplicatesAndCompletionsWereCommitted(s: System, actions: seq<Action>, pid: nat)
    requires Initial(s) && pid in Run(s, actions).processors
    ensures var t := Run(s, actions);
      var p := t.processors[pid];
      p.phase == Finished(Duplicate) || p.phase == Finished(Completed) || p.key in t.store ==> HasCommit(t.log, p.key)
  {
    assert WellKeyed(s);
    RunKeepsWellKeyed(s, actions);
    AlwaysFounded(s, actions, Run(s, actions).processors[pid].key);
  }

  // ----- when a commit is a repeat -----

  /** An earlier commit of the same key. */
  ghost predicate Repeats(log: seq<Event>, j: nat, key: string)
    requires j <= |log|
  {
    exists i | 0 <= i < j :: IsCommit(log[i], key)
  }

  ghost predicate ChargedBefore(log: seq<Event>, j: nat, key: string)
    requires j <= |log|
  {
    exists c | 0 <= c < j :: IsCharge(log[c], key)
  }

  /** Whatever comes after a charge or a mark comes after a commit. */
  lemma AfterChargeOrMark(log: seq<Event>, c: nat, j: nat, key: string)
    requires Ordered(log, key) && c < j <= |log| && (IsCharge(log[c], key) || IsMark(log[c], key))
    ensures Repeats(log, j, key)
  {
    var i :| 0 <= i < |log[..c + 1]| && IsCommit(log[..c + 1][i], key);
    assert log[i] == log[..c + 1][i];
  }

  /**
   Any number of processors, no critical section outliving the lock: a commit repeats an
   earlier one exactly when a charge came before it or it was made on an outdated reading.
   */
  lemma RepeatsExactly(s: System, actions: seq<Action>, key: string, j: nat)
    requires Initial(s) && IsMarkerKey(key) && TimelyThroughout(s, actions, key)
    requires j < |Run(s, actions).log| && IsCommit(Run(s, actions).log[j], key)
    ensures var log := Run(s, actions).log;
      Repeats(log, j, key) <==> ChargedBefore(log, j, key) || StaleCommit(log, j, key)
  {
    var log := Run(s, actions).log;
    AlwaysFounded(s, actions, key);
    ConcurrentDuplicatesAreCharged(s, actions, key);
    if Repeats(log, j, key) {
      var i :| 0 <= i < j && IsCommit(log[i], key);
      assert (exists c | i <= c < j :: IsCharge(log[c], key)) || StaleCommit(log, j, key);
    }
    if ChargedBefore(log, j, key) {
      var c :| 0 <= c < j && IsCharge(log[c], key);
      AfterChargeOrMark(log, c, j, key);
    }
    if StaleCommit(log, j, key) {
      var m :| log[j].read <= m < |log[..j]| && log[..j][m].Marked? && log[..j][m].key == key;
      assert log[..j][m] == log[m];
      AfterChargeOrMark(log, m, j, key);
    }
  }

  /** One consumer: a commit repeats an earlier one exactly when a charge came before it. */
  lemma SoloRepeatsExactly(s: System, actions: seq<Action>, key: string, j: nat)
    requires Initial(s) && IsMarkerKey(key) && SoloThroughout(s, actions)
    requires j < |Run(s, actions).log| && IsCommit(Run(s, actions).log[j], key)
    ensures Repeats(Run(s, actions).log, j, key) <==> ChargedBefore(Run(s, actions).log, j, key)
  {
    var log := Run(s, actions).log;
    AlwaysFounded(s, actions, key);
    DuplicatesAreCharged(s, actions, key);
    if Repeats(log, j, key) {
      var i :| 0 <= i < j && IsCommit(log[i], key);
      assert exists c | i <= c < j :: IsCharge(log[c], key);
    }
    if ChargedBefore(log, j, key) {
      var c :| 0 <= c < j && IsCharge(log[c], key);
      AfterChargeOrMark(log, c, j, key);
    }
  }

  // ----- when a key is evaluated at most once -----

  lemma RepeatsMeansCommitBefore(log: seq<Event>, j: nat, key: string)
    requires j <= |log|
    ensures Repeats(log, j, key) <==> HasCommit(log[..j], key)
  {
    if Repeats(log, j, key) {
      var i :| 0 <= i < j && IsCommit(log[i], key);
      assert log[..j][i] == log[i];
    }
    if HasCommit(log[..j], key) {
      var i :| 0 <= i < j && IsCommit(log[..j][i], key);
      assert log[i] == log[..j][i];
    }
  }

  lemma HasCommitAppend(log: seq<Event>, e: Event, key: string)
    ensures HasCommit(log + [e], key) <==> HasCommit(log, key) || IsCommit(e, key)
  {
    assert (log + [e])[|log|] == e;
    if HasCommit(log, key) {
      HasCommitGrows(log, log + [e], key);
    }
    if HasCommit(log + [e], key) && !IsCommit(e, key) {
      var i :| 0 <= i < |log + [e]| && IsCommit((log + [e])[i], key);
      assert log[i] == (log + [e])[i];
    }
  }

  lemma {:induction false} NoneCounted(log: seq<Event>, key: string)
    ensures Commits(log, key) == 0 <==> !HasCommit(log, key)
  {
    if log != [] {
      var n := |log| - 1;
      NoneCounted(log[..n], key);
      assert log == log[..n] + [log[n]];
      HasCommitAppend(log[..n], log[n], key);
    }
  }

  // Some commit of the key is not the first.
  ghost predicate SomeRepeat(log: seq<Event>, key: string) {
    exists j :: 0 <= j < |log| && IsCommit(log[j], key) && Repeats(log, j, key)
  }

  lemma SomeRepeatAppend(log: seq<Event>, e: Event, key: string)
    ensures SomeRepeat(log + [e], key) <==> SomeRepeat(log, key) || (IsCommit(e, key) && HasCommit(log, key))
  {
    var grown := log + [e];
    assert grown[..|log|] == log && grown[|log|] == e;
    RepeatsMeansCommitBefore(grown, |log|, key);
    forall j | 0 <= j < |log| ensures grown[j] == log[j] && (Repeats(grown, j, key) <==> Repeats(log, j, key)) {
      RepeatsMeansCommitBefore(grown, j, key);
      RepeatsMeansCommitBefore(log, j, key);
      assert grown[..j] == log[..j];
    }
    hide Repeats, HasCommit;
    if SomeRepeat(log, key) {
      var j :| 0 <= j < |log| && IsCommit(log[j], key) && Repeats(log, j, key);
      assert IsCommit(grown[j], key) && Repeats(grown, j, key);
    }
  }

  lemma {:induction false} RepeatsCounted(log: seq<Event>, key: string)
    ensures Commits(log, key) >= 2 <==> SomeRepeat(log, key)
  {
    if log != [] {
      var n := |log| - 1;
      RepeatsCounted(log[..n], key);
      NoneCounted(log[..n], key);
      assert log == log[..n] + [log[n]];
      hide HasCommit, SomeRepeat;
      SomeRepeatAppend(log[..n], log[n], key);
    }
  }

  /** A single consumer evaluates a key at most once exactly when no commit of it follows a charge. */
  lemma OnceExactly(s: System, actions: seq<Action>, key: string)
    requires Initial(s) && IsMarkerKey(key) && SoloThroughout(s, actions)
    ensures var log := Run(s, actions).log;
      Commits(log, key) <= 1 <==> forall j | 0 <= j < |log| && IsCommit(log[j], key) :: !ChargedBefore(log, j, key)
  {
    var log := Run(s, actions).log;
    RepeatsCounted(log, key);
    hide Repeats, ChargedBefore, StaleCommit;
    forall j: nat | j < |log| && IsCommit(log[j], key)
      ensures Repeats(log, j, key) <==> ChargedBefore(log, j, key)
    {
      SoloRepeatsExactly(s, actions, key, j);
    }
  }

  /** Any number of consumers in time: the same, or on an outdated reading. */
  lemma ConcurrentOnceExactly(s: System, actions: seq<Action>, key: string)
    requires Initial(s) && IsMarkerKey(key) && TimelyThroughout(s, actions, key)
    ensures var log := Run(s, actions).log;
      Commits(log, key) <= 1 <==>
      forall j | 0 <= j < |log| && IsCommit(log[j], key) :: !ChargedBefore(log, j, key) && !StaleCommit(log, j, key)
  {
    var log := Run(s, actions).log;
    RepeatsCounted(log, key);
    hide Repeats, ChargedBefore, StaleCommit;
    forall j: nat | j < |log| && IsCommit(log[j], key)
      ensures Repeats(log, j, key) <==> ChargedBefore(log, j, key) || StaleCommit(log, j, key)
    {
      RepeatsExactly(s, actions, key, j);
    }
  }
}
