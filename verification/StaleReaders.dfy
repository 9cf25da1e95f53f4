/** What a set marker still lets through: processors that had read it before it was set. */
module StaleReaders {
  import opened Wrappers
  import opened Redis
  import opened Protocol
  import opened ChargedDuplicates

  /** Has taken the lock, so its evaluation has started. */
  predicate Began(s: System, p: nat, key: string) {
    p in s.processors && s.processors[p].key == key && s.processors[p].acquired.Some?
  }

  /** Is between reading the marker and asking for the lock. */
  predicate Waiting(s: System, p: nat, key: string) {
    p in s.processors && s.processors[p].key == key && s.processors[p].phase == Locking
  }

  function Beginners(s: System, t: System, key: string): set<nat> {
    set p | p in t.processors && Began(t, p, key) && !Began(s, p, key)
  }

  function Waiters(s: System, key: string): set<nat> {
    set p | p in s.processors && Waiting(s, p, key)
  }

  lemma {:induction false} TimeMovesOn(s: System, actions: seq<Action>)
    ensures s.now <= Run(s, actions).now && Run(s, actions).ttl == s.ttl
  {
    if actions != [] {
      TimeMovesOn(s, actions[..|actions| - 1]);
    }
  }

  /** A live marker stays, and is only ever extended. */
  lemma MarkerStays(s: System, a: Action, key: string, until: nat)
    requires WellKeyed(s) && IsMarkerKey(key)
    requires key in s.store && until <= s.store[key].expires && until <= s.now + s.ttl
    ensures key in Do(s, a).store && until <= Do(s, a).store[key].expires
  {
    if KeyOf(s, a) != Some(key) {
      OtherKeysUntouched(s, a, key);
    } else if a.Perform? {
      OwnStepOnMarker(s, a.pid, a.fault, a.result);
    }
  }

  /** Under a live marker nobody starts waiting, and only who waited begins. */
  lemma OnlyWaitersBegin(s: System, a: Action, key: string, p: nat)
    requires Live(s.store, s.now, key)
    ensures Waiting(Do(s, a), p, key) ==> Waiting(s, p, key)
    ensures Began(Do(s, a), p, key) ==> Began(s, p, key) || Waiting(s, p, key)
  {
    KeyStays(s, a, p);
    if a.Tick? || a.pid != p {
      OneProcessorMoves(s, a, p);
    }
  }

  /** The marker is live at every instant something happens, set again or not. */
  ghost predicate LiveBeforeEach(s: System, actions: seq<Action>, key: string) {
    actions != [] ==>
      && LiveBeforeEach(s, actions[..|actions| - 1], key)
      && var t := Run(s, actions[..|actions| - 1]); Live(t.store, t.now, key)
  }

  lemma {:induction false} NoNewReaders(s: System, actions: seq<Action>, key: string)
    requires LiveBeforeEach(s, actions, key)
    ensures forall p | Waiting(Run(s, actions), p, key) :: Waiting(s, p, key)
    ensures forall p | Began(Run(s, actions), p, key) :: Began(s, p, key) || Waiting(s, p, key)
  {
    if actions != [] {
      var before, a := actions[..|actions| - 1], actions[|actions| - 1];
      var u := Run(s, before);
      NoNewReaders(s, before, key);
      forall p
        ensures Waiting(Do(u, a), p, key) ==> Waiting(u, p, key)
        ensures Began(Do(u, a), p, key) ==> Began(u, p, key) || Waiting(u, p, key)
      {
        OnlyWaitersBegin(u, a, key, p);
      }
    }
  }

  lemma SubsetSize(a: set<nat>, b: set<nat>)
    requires a <= b
    ensures |a| <= |b|
  {
    assert b == a + (b - a);
  }

  /** In every reachable state no marker outlasts the time to live counted from now. */
  lemma {:induction false} MarkersWithinTtl(s: System, actions: seq<Action>, key: string)
    requires Initial(s) && IsMarkerKey(key)
    ensures var t := Run(s, actions); key in t.store ==> t.store[key].expires <= t.now + t.ttl
  {
    if actions != [] {
      var before, a := actions[..|actions| - 1], actions[|actions| - 1];
      var u := Run(s, before);
      MarkersWithinTtl(s, before, key);
      RunKeepsWellKeyed(s, before);
      TtlStays(u, [a]);
      if KeyOf(u, a) != Some(key) {
        OtherKeysUntouched(u, a, key);
      } else if a.Perform? {
        OwnStepOnMarker(u, a.pid, a.fault, a.result);
      }
    }
  }

  /** A marker that has not reached the expiry it had at the start was live all along. */
  lemma {:induction false} LiveUntilExpiry(s: System, earlier: seq<Action>, later: seq<Action>, key: string)
    requires Initial(s) && IsMarkerKey(key)
    requires var t := Run(s, earlier); key in t.store && Run(t, later).now < t.store[key].expires
    ensures LiveBeforeEach(Run(s, earlier), later, key)
    ensures key in Run(Run(s, earlier), later).store
    ensures Run(s, earlier).store[key].expires <= Run(Run(s, earlier), later).store[key].expires
  {
    var t := Run(s, earlier);
    if later != [] {
      var before, a := later[..|later| - 1], later[|later| - 1];
      var u := Run(t, before);
      TimeMovesOn(u, [a]);
      RunAppend(u, [], a);
      assert [] + [a] == [a];
      LiveUntilExpiry(s, earlier, before, key);
      RunKeepsWellKeyed(s, earlier);
      RunKeepsWellKeyed(t, before);
      MarkersWithinTtl(s, earlier, key);
      TimeMovesOn(t, before);
      MarkerStays(u, a, key, t.store[key].expires);
    }
  }

  /**
   From any state on, for as long as the marker of a key stays live, through every time it
   is set again: every evaluation of the key that starts belongs to a processor that was
   already between its read and the lock, so there are at most as many as those.
   */
  lemma StaleReaderBound(s: System, actions: seq<Action>, key: string)
    requires LiveBeforeEach(s, actions, key)
    ensures Beginners(s, Run(s, actions), key) <= Waiters(s, key)
    ensures |Beginners(s, Run(s, actions), key)| <= |Waiters(s, key)|
  {
    NoNewReaders(s, actions, key);
    SubsetSize(Beginners(s, Run(s, actions), key), Waiters(s, key));
  }

  // ----- the marker is not read again under the lock -----

  const COMPLETE: seq<Action> := [Perform(0, Fine, map[]), Perform(0, Fine, map[]), Perform(0, Fine, map[])]

  /** From evaluating to done, with every call working. */
  lemma CompleteState(s: System, read: nat, key: string)
    requires 0 in s.processors && IsMarkerKey(key)
    requires s.processors[0] == Processor(key, Evaluating, false, read, Some(s.now), map[])
    ensures var t := Run(s, COMPLETE);
      && t.now == s.now && t.log == s.log + [Committed(0, key, read, false), Marked(0, key)]
      && LockKey(key) !in t.store
      && forall p | p != 0 && p in s.processors :: p in t.processors && t.processors[p] == s.processors[p]
  {
    KeysApart(key, key);
    var a := Perform(0, Fine, map[]);
    assert COMPLETE == [a, a] + [a];
    RunAppend(s, [a, a], a);
    RunTwo(s, a, a);
    var marking := Do(s, a);
    assert marking.processors[0].phase == Marking && marking.log == s.log + [Committed(0, key, read, false)];
    var releasing := Do(marking, a);
    assert releasing.processors[0].phase == Releasing && !releasing.processors[0].raised;
    assert releasing.log == s.log + [Committed(0, key, read, false), Marked(0, key)];
  }

  /**
   Two processors read the absent marker; one then runs to its end, and only after that
   does the other take the free lock and evaluate again. Nothing failed, expired or
   overran: the third kind of charge cannot be left out of the concurrent bound.
   */
  lemma BothReadersEvaluate(s: System) returns (actions: seq<Action>)
    requires Initial(s)
    ensures actions == [Start(1, "transaction", "T"), Perform(1, Fine, map[])] + Entering(0, "transaction", "T")
                       + COMPLETE + [Perform(1, Fine, map[]), Perform(1, Fine, map[])]
    ensures Commits(Run(s, actions).log, MakeKey("transaction", "T")) == 2
    ensures Charges(Run(s, actions).log, MakeKey("transaction", "T")) == 0
  {
    var key := MakeKey("transaction", "T");
    MadeKeysAreMarkers("transaction", "T");
    KeysApart(key, key);
    hide MakeKey, LockKey;
    var early := [Start(1, "transaction", "T"), Perform(1, Fine, map[])];
    var repeats := [Perform(1, Fine, map[]), Perform(1, Fine, map[])];
    actions := early + Entering(0, "transaction", "T") + COMPLETE + repeats;
    RunConcat(s, early + Entering(0, "transaction", "T") + COMPLETE, repeats);
    RunConcat(s, early + Entering(0, "transaction", "T"), COMPLETE);
    RunConcat(s, early, Entering(0, "transaction", "T"));
    RunTwo(s, early[0], early[1]);
    var read := Run(s, early);
    assert read.processors == map[1 := Processor(key, Locking, false, 0, None, map[])] && read.store == map[]
        && read.log == [];
    EnteringState(read, 0, "transaction", "T");
    var inside := Run(read, Entering(0, "transaction", "T"));
    CompleteState(inside, 0, key);
    var done := Run(inside, COMPLETE);
    assert done.log == [Committed(0, key, 0, false), Marked(0, key)];
    RunTwo(done, repeats[0], repeats[1]);
    var late := Do(done, repeats[0]);
    assert late.processors[1].phase == Evaluating && late.log == done.log;
    assert Run(s, actions).log == done.log + [Committed(1, key, 0, false)];
    CountThree(Committed(0, key, 0, false), Marked(0, key), Committed(1, key, 0, false), key);
  }

  lemma CountThree(a: Event, b: Event, c: Event, key: string)
    requires IsCommit(a, key) && !IsCommit(b, key) && IsCommit(c, key)
    requires !IsCharge(a, key) && !IsCharge(b, key) && !IsCharge(c, key)
    ensures Commits([a, b] + [c], key) == 2 && Charges([a, b] + [c], key) == 0
  {
    assert ([a, b] + [c])[..2] == [a, b] && [a, b][..1] == [a] && [a][..0] == [];
    assert Commits([a], key) == 1 && Charges([a], key) == 0;
    assert Commits([a, b], key) == 1 && Charges([a, b], key) == 0;
  }
}
