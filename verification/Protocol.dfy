/**
 Any number of idempotent processors sharing one Redis and one database, interleaved at
 the granularity of single remote calls. Time may pass between any two calls, every call
 may fail before or after taking effect, and a processor may be killed at any point.
 */
module Protocol {
  import opened Wrappers
  import opened Redis

  // The lock's default time to live: five minutes.
  const LOCK_TTL: nat := 300_000

  type Ttl = x: nat | x > 0 witness 1

  // What the processor does next. Checking, Fetching, Locking, Marking and Releasing are
  // single Redis calls; Evaluating is the unit of work, seen from outside as one call.
  datatype Phase = Checking | Fetching | Locking | Evaluating | Marking | Releasing | Finished(ending: Ending)

  datatype Ending = Duplicate | LockHeld | Completed | Raised | Killed

  datatype Processor = Processor(
    key: string,
    phase: Phase,
    raised: bool,               // an exception is on its way out
    read: nat,                  // how much of the log was written when the marker was read
    acquired: Option<nat>,      // when the lock was taken
    result: Dict)

  // The facts a history keeps.
  datatype Event =
    | Lapsed(keys: set<string>)                                   // keys that expired together
    | Committed(pid: nat, key: string, read: nat, lost: bool)     // lost: the evaluation raised after its commit
    | Marked(pid: nat, key: string)
    | MarkFailed(pid: nat, key: string)
    | LockLeft(key: string, until: nat)                           // a lock its owner will not delete
    | Died(key: string, unmarked: bool, until: nat)               // unmarked: committed but not yet marked

  datatype System = System(
    now: nat, store: Store, ttl: Ttl, processors: map<nat, Processor>, log: seq<Event>)

  datatype Action =
    | Tick(elapsed: nat)
    | Start(pid: nat, messageType: string, externalId: string)
    | Perform(pid: nat, fault: Fault, result: Dict)
    | Kill(pid: nat)

  /** `json.dumps(result) if result else "1"`. */
  function Encode(result: Option<Dict>): Text {
    if result.Some? && result.value != map[] then Json(result.value) else One
  }

  /** `get_result` on the stored text, if any. */
  function Decode(text: Option<Text>): Option<Dict> {
    match text
    case Some(Json(result)) => Some(result)
    case _ => None
  }

  /** A stored result reads back; the empty or missing one reads as None. */
  lemma ResultRoundTrip(result: Option<Dict>)
    ensures Decode(Some(Encode(result))) == if result == Some(map[]) then None else result
    ensures Encode(result) == One <==> result == None || result == Some(map[])
    ensures Decode(None) == Decode(Some(NotJson)) == None
  {
  }

  function Fresh(messageType: string, externalId: string): Processor {
    Processor(MakeKey(messageType, externalId), Checking, false, 0, None, map[])
  }

  function Put(s: System, pid: nat, p: Processor): System {
    s.(processors := s.processors[pid := p])
  }

  function End(s: System, pid: nat, p: Processor, ending: Ending): System {
    Put(s, pid, p.(phase := Finished(ending)))
  }

  function Note(s: System, e: Event): System {
    s.(log := s.log + [e])
  }

  /** When the lock on a key runs out; 0 when it is not there. */
  function LockEnd(s: System, key: string): nat {
    if LockKey(key) in s.store then s.store[LockKey(key)].expires else 0
  }

  function Check(s: System, pid: nat, p: Processor, fault: Fault): System {
    if fault != Fine then End(s, pid, p, Raised)
    else Put(s, pid, p.(read := |s.log|, phase := if Live(s.store, s.now, p.key) then Fetching else Locking))
  }

  function Lock(s: System, pid: nat, p: Processor, fault: Fault): System {
    if fault == FailBefore then End(s, pid, p, Raised)
    else if Live(s.store, s.now, LockKey(p.key)) then
      End(s, pid, p, if fault == Fine then LockHeld else Raised)
    else
      var t := s.(store := s.store[LockKey(p.key) := Entry(One, s.now + LOCK_TTL)]);
      if fault == Fine then Put(t, pid, p.(phase := Evaluating, acquired := Some(s.now)))
      else Note(End(t, pid, p, Raised), LockLeft(p.key, s.now + LOCK_TTL))
  }

  function Evaluate(s: System, pid: nat, p: Processor, fault: Fault, result: Dict): System {
    match fault
    case FailBefore => Put(s, pid, p.(phase := Releasing, raised := true))
    case FailAfter => Note(Put(s, pid, p.(phase := Releasing, raised := true)), Committed(pid, p.key, p.read, true))
    case Fine => Note(Put(s, pid, p.(phase := Marking, result := result)), Committed(pid, p.key, p.read, false))
  }

  function Mark(s: System, pid: nat, p: Processor, fault: Fault): System {
    if fault == FailBefore then Note(Put(s, pid, p.(phase := Releasing, raised := true)), MarkFailed(pid, p.key))
    else
      var t := s.(store := s.store[p.key := Entry(Encode(Some(p.result)), s.now + s.ttl)]);
      Note(Put(t, pid, p.(phase := Releasing, raised := fault == FailAfter)), Marked(pid, p.key))
  }

  function Release(s: System, pid: nat, p: Processor, fault: Fault): System {
    if fault == FailBefore then Note(End(s, pid, p, Raised), LockLeft(p.key, LockEnd(s, p.key)))
    else
      End(s.(store := s.store - {LockKey(p.key)}), pid, p, if p.raised || fault == FailAfter then Raised else Completed)
  }

  /** The next remote call of one processor. */
  function Advance(s: System, pid: nat, fault: Fault, result: Dict): System
    requires pid in s.processors
  {
    var p := s.processors[pid];
    match p.phase
    case Checking => Check(s, pid, p, fault)
    case Fetching => End(s, pid, p, if fault == Fine then Duplicate else Raised)
    case Locking => Lock(s, pid, p, fault)
    case Evaluating => Evaluate(s, pid, p, fault, result)
    case Marking => Mark(s, pid, p, fault)
    case Releasing => Release(s, pid, p, fault)
    case Finished(_) => s
  }

  predicate Critical(p: Processor) {
    p.phase == Evaluating || p.phase == Marking || p.phase == Releasing
  }

  function KillOne(s: System, pid: nat): System
    requires pid in s.processors
  {
    var p := s.processors[pid];
    if p.phase.Finished? then s
    else Note(End(s, pid, p, Killed), Died(p.key, p.phase == Marking, if Critical(p) then LockEnd(s, p.key) else 0))
  }

  function Elapse(s: System, elapsed: nat): System {
    var later := s.now + elapsed;
    Note(s.(now := later), Lapsed(set k | k in s.store && s.now < s.store[k].expires <= later))
  }

  /** One action; an action that does not apply changes nothing. */
  function Do(s: System, a: Action): System {
    match a
    case Tick(elapsed) => Elapse(s, elapsed)
    case Start(pid, messageType, externalId) =>
      if pid in s.processors then s else Put(s, pid, Fresh(messageType, externalId))
    case Perform(pid, fault, result) =>
      if pid in s.processors then Advance(s, pid, fault, result) else s
    case Kill(pid) =>
      if pid in s.processors then KillOne(s, pid) else s
  }

  function Run(s: System, actions: seq<Action>): System {
    if actions == [] then s else Do(Run(s, actions[..|actions| - 1]), actions[|actions| - 1])
  }

  /** Time passes, then one processor makes its next call. */
  function Step(s: System, pid: nat, elapsed: nat, fault: Fault, result: Dict): System {
    Do(Do(s, Tick(elapsed)), Perform(pid, fault, result))
  }

  lemma RunAppend(s: System, actions: seq<Action>, a: Action)
    ensures Run(s, actions + [a]) == Do(Run(s, actions), a)
  {
    assert (actions + [a])[..|actions|] == actions;
  }

  /** Nothing happened yet: no marker, no lock, no processor. */
  predicate Initial(s: System) {
    s.store == map[] && s.processors == map[] && s.log == []
  }

  /** Keys of processors are marker keys. */
  predicate WellKeyed(s: System) {
    forall pid | pid in s.processors :: IsMarkerKey(s.processors[pid].key)
  }

  /** Processors stay, keep their key, and begin by checking. */
  lemma KeyStays(s: System, a: Action, pid: nat)
    ensures pid in s.processors ==> pid in Do(s, a).processors && Do(s, a).processors[pid].key == s.processors[pid].key
    ensures pid !in s.processors && pid in Do(s, a).processors ==>
              a.Start? && a.pid == pid && Do(s, a).processors[pid] == Fresh(a.messageType, a.externalId)
  {
  }

  lemma DoKeepsWellKeyed(s: System, a: Action)
    requires WellKeyed(s)
    ensures WellKeyed(Do(s, a))
  {
    forall pid | pid in Do(s, a).processors ensures IsMarkerKey(Do(s, a).processors[pid].key) {
      KeyStays(s, a, pid);
      if a.Start? {
        MadeKeysAreMarkers(a.messageType, a.externalId);
      }
    }
  }

  lemma {:induction false} RunKeepsWellKeyed(s: System, actions: seq<Action>)
    requires WellKeyed(s)
    ensures WellKeyed(Run(s, actions))
  {
    if actions != [] {
      RunKeepsWellKeyed(s, actions[..|actions| - 1]);
      DoKeepsWellKeyed(Run(s, actions[..|actions| - 1]), actions[|actions| - 1]);
    }
  }

  lemma {:induction false} TtlStays(s: System, actions: seq<Action>)
    ensures Run(s, actions).ttl == s.ttl
  {
    if actions != [] {
      TtlStays(s, actions[..|actions| - 1]);
    }
  }

  // ----- what one action can touch -----

  /** The key an action works on, if it works on one. */
  function KeyOf(s: System, a: Action): Option<string> {
    if (a.Perform? || a.Kill?) && a.pid in s.processors then Some(s.processors[a.pid].key) else None
  }

  predicate SameEntry(s: System, t: System, key: string) {
    (key in t.store <==> key in s.store) && (key in s.store ==> t.store[key] == s.store[key])
  }

  /** Actions on other keys leave the marker and the lock of this one alone. */
  lemma OtherKeysUntouched(s: System, a: Action, key: string)
    requires WellKeyed(s) && IsMarkerKey(key) && KeyOf(s, a) != Some(key)
    ensures SameEntry(s, Do(s, a), key) && SameEntry(s, Do(s, a), LockKey(key))
  {
    if KeyOf(s, a).Some? {
      KeysApart(KeyOf(s, a).value, key);
      KeysApart(key, KeyOf(s, a).value);
    }
  }

  /** An action changes at most the one processor it names; the log only grows. */
  lemma OneProcessorMoves(s: System, a: Action, pid: nat)
    requires a.Tick? || a.pid != pid
    ensures pid in Do(s, a).processors <==> pid in s.processors
    ensures pid in s.processors ==> Do(s, a).processors[pid] == s.processors[pid]
  {
  }

  lemma LogGrows(s: System, a: Action)
    ensures |s.log| <= |Do(s, a).log| <= |s.log| + 1
    ensures s.log <= Do(s, a).log
  {
  }

  /** What one call does to its own processor and to the lock of its key. */
  lemma OwnStep(s: System, pid: nat, fault: Fault, result: Dict)
    requires pid in s.processors && IsMarkerKey(s.processors[pid].key)
    ensures var t := Advance(s, pid, fault, result);
      var p, lock := s.processors[pid], LockKey(s.processors[pid].key);
      && t.now == s.now && t.ttl == s.ttl
      && t.processors.Keys == s.processors.Keys && t.processors[pid].key == p.key
      && (Critical(p) && Critical(t.processors[pid]) ==>
            t.processors[pid].acquired == p.acquired && SameEntry(s, t, lock))
      && (!Critical(p) && Critical(t.processors[pid]) ==>
            && p.phase == Locking && !Live(s.store, s.now, lock)
            && t.processors[pid].acquired == Some(s.now)
            && lock in t.store && t.store[lock].expires == s.now + LOCK_TTL)
      && (!Critical(p) && !Critical(t.processors[pid]) ==>
            SameEntry(s, t, lock) || (p.phase == Locking && !Live(s.store, s.now, lock)))
  {
    KeysApart(s.processors[pid].key, s.processors[pid].key);
    match s.processors[pid].phase {
      case Locking => assert Advance(s, pid, fault, result) == Lock(s, pid, s.processors[pid], fault);
      case _ =>
    }
  }

  /** What one call does to the marker of its key and to the log, by the phase it leads to. */
  lemma OwnStepOnMarker(s: System, pid: nat, fault: Fault, result: Dict)
    requires pid in s.processors && IsMarkerKey(s.processors[pid].key)
    ensures var t, p := Advance(s, pid, fault, result), s.processors[pid];
      var q := t.processors[pid];
      && (q.phase == Checking ==> t == s)
      && (q.phase == Locking ==>
            p.phase == Checking && !Live(s.store, s.now, p.key) && q.read == |s.log| && t.log == s.log)
      && (q.phase == Evaluating ==> p.phase == Locking && q.read == p.read && t.log == s.log)
      && (q.phase == Marking ==>
            p.phase == Evaluating && q.read == p.read && t.log == s.log + [Committed(pid, p.key, p.read, false)])
      && (p.phase != Marking ==> SameEntry(s, t, p.key))
      && (p.phase == Marking ==>
            || (SameEntry(s, t, p.key) && t.log == s.log + [MarkFailed(pid, p.key)])
            || (p.key in t.store && t.store[p.key].expires == s.now + s.ttl && t.log == s.log + [Marked(pid, p.key)]))
      && (p.phase == Evaluating ==>
            t.log == s.log || t.log == s.log + [Committed(pid, p.key, p.read, q.phase != Marking)])
      && (p.phase != Evaluating && p.phase != Marking ==>
            t.log == s.log || exists until :: t.log == s.log + [LockLeft(p.key, until)])
  {
    KeysApart(s.processors[pid].key, s.processors[pid].key);
    if s.processors[pid].phase == Locking {
      assert Advance(s, pid, fault, result).log == s.log
          || Advance(s, pid, fault, result).log == s.log + [LockLeft(s.processors[pid].key, s.now + LOCK_TTL)];
    }
    if s.processors[pid].phase == Releasing {
      assert Advance(s, pid, fault, result).log == s.log
          || Advance(s, pid, fault, result).log ==
             s.log + [LockLeft(s.processors[pid].key, LockEnd(s, s.processors[pid].key))];
    }
  }

  /** The key an event is about; a lapse is about time only. */
  function Subject(e: Event): Option<string> {
    match e
    case Lapsed(_) => None
    case Committed(_, key, _, _) => Some(key)
    case Marked(_, key) => Some(key)
    case MarkFailed(_, key) => Some(key)
    case LockLeft(key, _) => Some(key)
    case Died(key, _, _) => Some(key)
  }

  /** Whatever an action writes to the log is about the key it works on. */
  lemma EventsAreAboutOwnKey(s: System, a: Action)
    requires !a.Tick?
    ensures var t := Do(s, a);
      t.log == s.log
          || (|t.log| == |s.log| + 1 && Subject(t.log[|s.log|]).Some? && Subject(t.log[|s.log|]) == KeyOf(s, a))
  {
  }

  /** A lock nobody will delete was left behind and runs out at `until`. */
  predicate LeavesLock(e: Event, key: string, until: nat) {
    match e
    case LockLeft(k, u) => k == key && u == until
    case Died(k, _, u) => k == key && u == until
    case _ => false
  }

  predicate SettlesNothing(s: System, t: System) {
    t.log == s.log || (|t.log| == |s.log| + 1 && !t.log[|s.log|].LockLeft? && !t.log[|s.log|].Died?)
  }

  /** What one call does to the lock of its key: keep, take, leave behind or delete it. */
  lemma OwnStepOnLock(s: System, pid: nat, fault: Fault, result: Dict)
    requires pid in s.processors && IsMarkerKey(s.processors[pid].key)
    ensures var t, p, lock := Advance(s, pid, fault, result), s.processors[pid], LockKey(s.processors[pid].key);
      var before, after := Critical(p), Critical(t.processors[pid]);
      || (before == after && SameEntry(s, t, lock) && SettlesNothing(s, t))
      || (!before && after && !Live(s.store, s.now, lock) && t.log == s.log)
      || (!after && t.processors[pid].phase.Finished? && t.log == s.log + [LockLeft(p.key, LockEnd(t, p.key))]
            && (if before then SameEntry(s, t, lock) else !Live(s.store, s.now, lock)))
      || (before && !after && lock !in t.store && t.log == s.log)
  {
    KeysApart(s.processors[pid].key, s.processors[pid].key);
    match s.processors[pid].phase {
      case Locking => assert Advance(s, pid, fault, result) == Lock(s, pid, s.processors[pid], fault);
      case _ =>
    }
  }

  // ----- short runs, for examples -----

  lemma {:induction false} RunConcat(s: System, first: seq<Action>, then_: seq<Action>)
    ensures Run(s, first + then_) == Run(Run(s, first), then_)
  {
    if then_ == [] {
      assert first + then_ == first;
    } else {
      var n := |then_| - 1;
      RunConcat(s, first, then_[..n]);
      assert (first + then_)[..|first + then_| - 1] == first + then_[..n];
    }
  }

  lemma RunTwo(s: System, a: Action, b: Action)
    ensures Run(s, [a, b]) == Do(Do(s, a), b)
  {
    assert [a, b] == [] + [a] + [b];
    RunAppend(s, [] + [a], b);
    RunAppend(s, [], a);
  }

  /** A new processor starts, reads the marker and asks for the lock. */
  function Entering(pid: nat, messageType: string, externalId: string): seq<Action> {
    [Start(pid, messageType, externalId), Perform(pid, Fine, map[]), Perform(pid, Fine, map[])]
  }

  lemma PutTwice(s: System, pid: nat, p: Processor, q: Processor)
    ensures Put(Put(s, pid, p), pid, q) == Put(s, pid, q)
  {
    assert s.processors[pid := p][pid := q] == s.processors[pid := q];
  }

  lemma EnteringState(s: System, pid: nat, messageType: string, externalId: string)
    requires pid !in s.processors && !Live(s.store, s.now, MakeKey(messageType, externalId))
    ensures var key := MakeKey(messageType, externalId);
      Run(s, Entering(pid, messageType, externalId)) ==
      if Live(s.store, s.now, LockKey(key))
      then Put(s, pid, Processor(key, Finished(LockHeld), false, |s.log|, None, map[]))
      else Put(s.(store := s.store[LockKey(key) := Entry(One, s.now + LOCK_TTL)]), pid,
               Processor(key, Evaluating, false, |s.log|, Some(s.now), map[]))
  {
    var key := MakeKey(messageType, externalId);
    var a, b := Start(pid, messageType, externalId), Perform(pid, Fine, map[]);
    assert Entering(pid, messageType, externalId) == [a, b] + [b];
    RunAppend(s, [a, b], b);
    RunTwo(s, a, b);
    var started := Fresh(messageType, externalId);
    var waiting := Processor(key, Locking, false, |s.log|, None, map[]);
    assert Check(Do(s, a), pid, started, Fine) == Put(Do(s, a), pid, waiting);
    PutTwice(s, pid, started, waiting);
    LockStep(s, pid, waiting);
  }

  lemma LockStep(s: System, pid: nat, p: Processor)
    requires p.phase == Locking
    ensures Lock(Put(s, pid, p), pid, p, Fine) ==
      if Live(s.store, s.now, LockKey(p.key)) then Put(s, pid, p.(phase := Finished(LockHeld)))
      else Put(s.(store := s.store[LockKey(p.key) := Entry(One, s.now + LOCK_TTL)]), pid,
               p.(phase := Evaluating, acquired := Some(s.now)))
  {
    if Live(s.store, s.now, LockKey(p.key)) {
      PutTwice(s, pid, p, p.(phase := Finished(LockHeld)));
    } else {
      PutTwice(s.(store := s.store[LockKey(p.key) := Entry(One, s.now + LOCK_TTL)]), pid, p,
          p.(phase := Evaluating, acquired := Some(s.now)));
    }
  }
}
