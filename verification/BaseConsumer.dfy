/**
 The consumer loop: retries with backoff, dead letters and offset commits over any
 number of partitions. `process` is abstract in the source: here it is any function of
 the world it works on, a message and the number of the call, which may return, raise or
 be killed. Oracles say how each commit and each send goes, and any of these calls may be
 the one the process is killed in.
 */
module BaseConsumer {
  import opened Wrappers

  // How one call of `process` ends; one that returns stands for an answer.
  datatype Processing<+O> = Ended(answer: O) | Raised(error: string) | Killed

  // What became of a message. The dead-letter step, once over, notes which send it made.
  datatype Outcome<+O> = Returned(answer: O) | DeadLettered(send: nat) | Discarded

  // A commit may be acknowledged, fail before or after it takes effect, or be cut short.
  datatype Commit = Acknowledged | Refused(error: string) | ReplyLost(error: string) | KilledBefore | KilledAfter

  // A KafkaError is logged and swallowed; any other exception propagates.
  datatype Send = Sent | KafkaFailure | OtherFailure | SendKilled

  // A message as Kafka delivers it.
  datatype Envelope = Envelope(topic: string, timestamp: int, value: string)

  datatype DeadLetter = DeadLetter(
    originalTopic: string, originalPartition: nat, originalOffset: nat,
    originalTimestamp: int, originalValue: string, error: string)

  datatype Env<!W, !O> = Env(
    log: (nat, nat) -> Envelope,                       // by partition and offset
    process: (W, nat, nat, nat) -> (W, Processing<O>), // world, partition, offset, number of the call
    commit: nat -> Commit,
    send: nat -> Send)

  datatype Settings = Settings(maxRetries: int, deadLetters: bool)

  datatype Calls = Calls(process: nat, commit: nat, send: nat)

  type Offsets = map<nat, nat>

  datatype State<W, O(==)> = State(
    world: W,                 // what `process` works on
    position: Offsets,        // next offset the iterator hands out
    committed: Offsets,       // what the broker would resume from
    outcomes: set<(nat, nat, Outcome<O>)>,
    letters: seq<DeadLetter>,
    calls: Calls,
    acknowledged: nat,        // commits that returned normally
    slept: nat)               // seconds

  datatype Exit = Done | Failed | Dead

  function At(offsets: Offsets, partition: nat): nat {
    if partition in offsets then offsets[partition] else 0
  }

  function Pow2(k: nat): nat {
    if k == 0 then 1 else 2 * Pow2(k - 1)
  }

  /** `min(2**attempt, 30)`. */
  function Pause(attempt: nat): nat {
    if Pow2(attempt) < 30 then Pow2(attempt) else 30
  }

  function Record<W, O(==)>(s: State<W, O>, partition: nat, offset: nat, outcome: Outcome<O>): State<W, O> {
    s.(outcomes := s.outcomes + {(partition, offset, outcome)})
  }

  /** `commit()` without arguments commits the position of every partition. */
  function CommitOnce<W, O(==)>(s: State<W, O>, how: Commit): State<W, O> {
    var counted := s.(calls := s.calls.(commit := s.calls.commit + 1));
    match how
    case Acknowledged => counted.(committed := s.position, acknowledged := s.acknowledged + 1)
    case ReplyLost(_) => counted.(committed := s.position)
    case KilledAfter => counted.(committed := s.position)
    case Refused(_) => counted
    case KilledBefore => counted
  }

  function CommitExit(how: Commit): Exit {
    match how
    case Acknowledged => Done
    case Refused(_) => Failed
    case ReplyLost(_) => Failed
    case KilledBefore => Dead
    case KilledAfter => Dead
  }

  /** The letter `_send_to_dlq` writes; `str` of no exception at all is "None". */
  function LetterFor<W, O>(env: Env<W, O>, partition: nat, offset: nat, error: Option<string>): DeadLetter {
    var message := env.log(partition, offset);
    DeadLetter(message.topic, partition, offset, message.timestamp, message.value,
               if error.Some? then error.value else "None")
  }

  /** All retries used up: dead-letter if that is configured, then commit regardless. */
  function GiveUp<W, O(==)>(
      env: Env<W, O>, cfg: Settings, s: State<W, O>, partition: nat, offset: nat, error: Option<string>)
    : (State<W, O>, Exit)
  {
    if !cfg.deadLetters then
      var how := env.commit(s.calls.commit);
      (CommitOnce(Record(s, partition, offset, Discarded), how), CommitExit(how))
    else
      var sent := env.send(s.calls.send);
      var tried := s.(calls := s.calls.(send := s.calls.send + 1));
      var done := Record(tried, partition, offset, DeadLettered(s.calls.send));
      match sent
      case OtherFailure => (tried, Failed)
      case SendKilled => (tried, Dead)
      case KafkaFailure =>
        var how := env.commit(s.calls.commit);
        (CommitOnce(done, how), CommitExit(how))
      case Sent =>
        var how := env.commit(s.calls.commit);
        (CommitOnce(done.(letters := s.letters + [LetterFor(env, partition, offset, error)]), how), CommitExit(how))
  }

  function Sleep<W, O(==)>(cfg: Settings, s: State<W, O>, attempt: nat): State<W, O> {
    if attempt < cfg.maxRetries then s.(slept := s.slept + Pause(attempt)) else s
  }

  /** The world after the next call of `process`, and the call counted. */
  function Called<W, O(==)>(env: Env<W, O>, s: State<W, O>, partition: nat, offset: nat): State<W, O> {
    s.(world := env.process(s.world, partition, offset, s.calls.process).0,
       calls := s.calls.(process := s.calls.process + 1))
  }

  /** One attempt: process, then commit. */
  function Attempt<W, O(==)>(env: Env<W, O>, s: State<W, O>, partition: nat, offset: nat): (State<W, O>, Exit) {
    var called := Called(env, s, partition, offset);
    match env.process(s.world, partition, offset, s.calls.process).1
    case Killed => (called, Dead)
    case Raised(_) => (called, Failed)
    case Ended(answer) =>
      var how := env.commit(s.calls.commit);
      (CommitOnce(Record(called, partition, offset, Returned(answer)), how), CommitExit(how))
  }

  // Where the attempts at a message stand: the world, and the calls made so far.
  datatype Progress<W> = Progress(world: W, calls: Calls)

  function Now<W, O(==)>(s: State<W, O>): Progress<W> {
    Progress(s.world, s.calls)
  }

  /** What the exception of a failed attempt says. */
  function Reason<W, O>(env: Env<W, O>, g: Progress<W>, partition: nat, offset: nat): string {
    match env.process(g.world, partition, offset, g.calls.process).1
    case Raised(error) => error
    case _ =>
      match env.commit(g.calls.commit)
      case Refused(error) => error
      case ReplyLost(error) => error
      case _ => ""
  }

  /** `_process_with_retry_inner`, from the given attempt on. */
  function Retry<W, O(==)>(
      env: Env<W, O>, cfg: Settings, s: State<W, O>, partition: nat, offset: nat, attempt: nat,
      error: Option<string>)
    : (State<W, O>, Exit)
    decreases cfg.maxRetries - attempt
  {
    if attempt > cfg.maxRetries then GiveUp(env, cfg, s, partition, offset, error)
    else
      var (t, e) := Attempt(env, s, partition, offset);
      if e != Failed then (t, e)
      else
        var reason := Reason(env, Now(s), partition, offset);
        Retry(env, cfg, Sleep(cfg, t, attempt), partition, offset, attempt + 1, Some(reason))
  }

  // ----- the retry contract -----

  /** The next attempt fails, in process or in commit. */
  predicate Fails<W, O>(env: Env<W, O>, g: Progress<W>, partition: nat, offset: nat) {
    match env.process(g.world, partition, offset, g.calls.process).1
    case Killed => false
    case Raised(_) => true
    case Ended(_) => env.commit(g.calls.commit).Refused? || env.commit(g.calls.commit).ReplyLost?
  }

  /** Where a failed attempt leads; only an attempt that got through process commits. */
  function AfterFailure<W, O>(env: Env<W, O>, g: Progress<W>, partition: nat, offset: nat): Progress<W> {
    var (world, r) := env.process(g.world, partition, offset, g.calls.process);
    var commits := if r.Ended? then g.calls.commit + 1 else g.calls.commit;
    Progress(world, g.calls.(process := g.calls.process + 1, commit := commits))
  }

  /** The next `n` attempts all fail. */
  predicate AllFail<W, O>(env: Env<W, O>, g: Progress<W>, partition: nat, offset: nat, n: nat)
    decreases n
  {
    n == 0
    || (Fails(env, g, partition, offset)
        && AllFail(env, AfterFailure(env, g, partition, offset), partition, offset, n - 1))
  }

  /** What the last of `n` failing attempts says. */
  function LastReason<W, O>(env: Env<W, O>, g: Progress<W>, partition: nat, offset: nat, n: nat): Option<string>
    decreases n
  {
    if n == 0 then None
    else if n == 1 then Some(Reason(env, g, partition, offset))
    else LastReason(env, AfterFailure(env, g, partition, offset), partition, offset, n - 1)
  }

  /** What is slept from an attempt to the last one, if all fail. */
  function Backoff(attempt: nat, maxRetries: int): nat
    decreases maxRetries - attempt
  {
    if attempt >= maxRetries then 0 else Pause(attempt) + Backoff(attempt + 1, maxRetries)
  }

  function Left(cfg: Settings, attempt: nat): nat {
    if attempt > cfg.maxRetries then 0 else cfg.maxRetries - attempt + 1
  }

  lemma AttemptEffect<W, O>(env: Env<W, O>, s: State<W, O>, partition: nat, offset: nat)
    ensures var (t, e) := Attempt(env, s, partition, offset);
      && (e == Failed <==> Fails(env, Now(s), partition, offset))
      && (e == Failed ==> Now(t) == AfterFailure(env, Now(s), partition, offset))
      && t.calls.process == s.calls.process + 1 && t.calls.send == s.calls.send
      && s.calls.commit <= t.calls.commit <= s.calls.commit + 1
      && t.letters == s.letters && t.slept == s.slept && t.position == s.position
      && t.acknowledged == s.acknowledged + (if e == Done then 1 else 0)
      && (e == Done ==> t.committed == t.position)
      && (t.committed == s.committed || t.committed == s.position)
  {
  }

  /**
   One attempt, by what its calls did. It fails if process raised or the commit did; it is
   cut short if one of the two was killed; else it returned and the commit was
   acknowledged. The broker has the positions if the commit took effect, whatever came of it.
   */
  lemma AttemptExactly<W, O>(env: Env<W, O>, s: State<W, O>, p: nat, o: nat)
    ensures var (t, e) := Attempt(env, s, p, o);
      var (v, r) := env.process(s.world, p, o, s.calls.process);
      var how := env.commit(s.calls.commit);
      && t.world == v && t.position == s.position && t.letters == s.letters
      && (e == Failed <==> r.Raised? || (r.Ended? && (how.Refused? || how.ReplyLost?)))
      && (e == Dead <==> r.Killed? || (r.Ended? && (how.KilledBefore? || how.KilledAfter?)))
      && (e == Done <==> r.Ended? && how.Acknowledged?)
      && t.committed == (if r.Ended? && (how.Acknowledged? || how.ReplyLost? || how.KilledAfter?) then s.position
                         else s.committed)
      && t.outcomes == (if r.Ended? then s.outcomes + {(p, o, Returned(r.answer))} else s.outcomes)
  {
  }

  /** What a failed attempt says is what its exception said. */
  lemma ReasonExactly<W, O>(env: Env<W, O>, g: Progress<W>, p: nat, o: nat)
    requires Fails(env, g, p, o)
    ensures var r, how := env.process(g.world, p, o, g.calls.process).1, env.commit(g.calls.commit);
      && (r.Raised? ==> Reason(env, g, p, o) == r.error)
      && (r.Ended? && how.Refused? ==> Reason(env, g, p, o) == how.error)
      && (r.Ended? && how.ReplyLost? ==> Reason(env, g, p, o) == how.error)
  {
  }

  /** The letter carries where the message came from, what it was, and the error. */
  lemma LetterFields<W, O>(env: Env<W, O>, p: nat, o: nat, error: Option<string>)
    ensures var letter, message := LetterFor(env, p, o, error), env.log(p, o);
      && letter.originalTopic == message.topic && letter.originalPartition == p && letter.originalOffset == o
      && letter.originalTimestamp == message.timestamp && letter.originalValue == message.value
      && letter.error == match error case Some(text) => text case None => "None"
  {
  }

  /** Attempt number k + 1 is made exactly if the k before it failed. */
  lemma {:induction false} RetryCounts<W, O>(
      env: Env<W, O>, cfg: Settings, s: State<W, O>, partition: nat, offset: nat, attempt: nat,
      error: Option<string>, k: nat)
    requires attempt >= 1 && k < Left(cfg, attempt)
    ensures var t := Retry(env, cfg, s, partition, offset, attempt, error).0;
      t.calls.process > s.calls.process + k <==> AllFail(env, Now(s), partition, offset, k)
    decreases cfg.maxRetries - attempt
  {
    AttemptEffect(env, s, partition, offset);
    RetryCalls(env, cfg, s, partition, offset, attempt, error);
    hide Attempt, Fails, AfterFailure, Reason;
    var (t, e) := Attempt(env, s, partition, offset);
    if e == Failed {
      var next, reason := Sleep(cfg, t, attempt), Some(Reason(env, Now(s), partition, offset));
      RetryCalls(env, cfg, next, partition, offset, attempt + 1, reason);
      if k > 0 {
        RetryCounts(env, cfg, next, partition, offset, attempt + 1, reason, k - 1);
      }
    }
  }

  /** Among the attempts made is one whose process was killed. */
  predicate ProcessKilled<W, O>(env: Env<W, O>, g: Progress<W>, partition: nat, offset: nat, n: nat)
    decreases n
  {
    n > 0 &&
    (env.process(g.world, partition, offset, g.calls.process).1.Killed?
     || (Fails(env, g, partition, offset)
         && ProcessKilled(env, AfterFailure(env, g, partition, offset), partition, offset, n - 1)))
  }

  predicate CommitKilled(how: Commit) {
    how.KilledBefore? || how.KilledAfter?
  }

  // Between these calls a commit or a send was killed.
  ghost predicate CallKilled<W, O>(env: Env<W, O>, from: Calls, to: Calls) {
    || (exists c | from.commit <= c < to.commit :: CommitKilled(env.commit(c)))
    || (exists d | from.send <= d < to.send :: env.send(d) == SendKilled)
  }

  lemma GiveUpDies<W, O>(
      env: Env<W, O>, cfg: Settings, s: State<W, O>, partition: nat, offset: nat, error: Option<string>)
    ensures var (t, e) := GiveUp(env, cfg, s, partition, offset, error);
      e == Dead <==> CallKilled(env, s.calls, t.calls)
  {
    var t := GiveUp(env, cfg, s, partition, offset, error).0;
    assert t.calls.commit == s.calls.commit || t.calls.commit == s.calls.commit + 1;
    assert t.calls.commit > s.calls.commit && CommitKilled(env.commit(s.calls.commit)) ==>
        CallKilled(env, s.calls, t.calls);
    assert t.calls.send > s.calls.send && env.send(s.calls.send) == SendKilled ==> CallKilled(env, s.calls, t.calls);
  }

  lemma AttemptDies<W, O>(env: Env<W, O>, s: State<W, O>, partition: nat, offset: nat)
    ensures var (t, e) := Attempt(env, s, partition, offset);
      && (e == Dead <==> env.process(s.world, partition, offset, s.calls.process).1.Killed?
                         || CallKilled(env, s.calls, t.calls))
      && s.calls.commit <= t.calls.commit && s.calls.send == t.calls.send
  {
    var t := Attempt(env, s, partition, offset).0;
    assert t.calls.commit > s.calls.commit && CommitKilled(env.commit(s.calls.commit)) ==>
        CallKilled(env, s.calls, t.calls);
  }

  lemma CallsKilledJoin<W, O>(env: Env<W, O>, a: Calls, b: Calls, c: Calls)
    requires a.commit <= b.commit <= c.commit && a.send <= b.send <= c.send
    ensures CallKilled(env, a, c) <==> CallKilled(env, a, b) || CallKilled(env, b, c)
  {
  }

  /** A delivery is cut short exactly if one of the calls it made was killed. */
  lemma {:induction false} RetryDies<W, O>(
      env: Env<W, O>, cfg: Settings, s: State<W, O>, partition: nat, offset: nat, attempt: nat, error: Option<string>)
    requires attempt >= 1
    ensures var (t, e) := Retry(env, cfg, s, partition, offset, attempt, error);
      && s.calls.commit <= t.calls.commit && s.calls.send <= t.calls.send
      && (e == Dead <==> ProcessKilled(env, Now(s), partition, offset, Left(cfg, attempt))
                         || CallKilled(env, s.calls, t.calls))
    decreases cfg.maxRetries - attempt
  {
    if attempt > cfg.maxRetries {
      GiveUpDies(env, cfg, s, partition, offset, error);
    } else {
      AttemptEffect(env, s, partition, offset);
      AttemptDies(env, s, partition, offset);
      var killed := env.process(s.world, partition, offset, s.calls.process).1.Killed?;
      assert killed ==> !Fails(env, Now(s), partition, offset);
      hide Attempt, Fails, AfterFailure, Reason, CallKilled;
      var (t, e) := Attempt(env, s, partition, offset);
      if e == Failed {
        var next, reason := Sleep(cfg, t, attempt), Some(Reason(env, Now(s), partition, offset));
        RetryDies(env, cfg, next, partition, offset, attempt + 1, reason);
        CallsKilledJoin(env, s.calls, t.calls, Retry(env, cfg, next, partition, offset, attempt + 1, reason).0.calls);
      }
    }
  }

  lemma {:induction false} RetryCalls<W, O>(
      env: Env<W, O>, cfg: Settings, s: State<W, O>, partition: nat, offset: nat, attempt: nat,
      error: Option<string>)
    requires attempt >= 1
    ensures var (t, e) := Retry(env, cfg, s, partition, offset, attempt, error);
      var n := Left(cfg, attempt);
      && s.calls.process <= t.calls.process <= s.calls.process + n
      && s.calls.commit <= t.calls.commit <= s.calls.commit + n + 1
    decreases cfg.maxRetries - attempt
  {
    if attempt <= cfg.maxRetries {
      AttemptEffect(env, s, partition, offset);
      hide Attempt, Fails, AfterFailure, Reason;
      var (t, e) := Attempt(env, s, partition, offset);
      if e == Failed {
        RetryCalls(env, cfg, Sleep(cfg, t, attempt), partition, offset, attempt + 1,
            Some(Reason(env, Now(s), partition, offset)));
      }
    }
  }

  lemma {:induction false} RetryGivesUp<W, O>(
      env: Env<W, O>, cfg: Settings, s: State<W, O>, partition: nat, offset: nat, attempt: nat,
      error: Option<string>)
    requires attempt >= 1
    ensures var (t, e) := Retry(env, cfg, s, partition, offset, attempt, error);
      var n := Left(cfg, attempt);
      var failed := AllFail(env, Now(s), partition, offset, n);
      && t.calls.send == s.calls.send + (if failed && cfg.deadLetters then 1 else 0)
      && (failed ==> t.calls.process == s.calls.process + n)
    decreases cfg.maxRetries - attempt
  {
    if attempt <= cfg.maxRetries {
      AttemptEffect(env, s, partition, offset);
      hide Attempt, Fails, AfterFailure, Reason;
      var (t, e) := Attempt(env, s, partition, offset);
      if e == Failed {
        RetryGivesUp(env, cfg, Sleep(cfg, t, attempt), partition, offset, attempt + 1,
            Some(Reason(env, Now(s), partition, offset)));
      }
    }
  }

  lemma {:induction false} RetrySleeps<W, O>(
      env: Env<W, O>, cfg: Settings, s: State<W, O>, partition: nat, offset: nat, attempt: nat,
      error: Option<string>)
    requires attempt >= 1
    ensures var (t, e) := Retry(env, cfg, s, partition, offset, attempt, error);
      var failed := AllFail(env, Now(s), partition, offset, Left(cfg, attempt));
      && (failed ==> t.slept == s.slept + Backoff(attempt, cfg.maxRetries))
      && t.slept <= s.slept + Backoff(attempt, cfg.maxRetries)
    decreases cfg.maxRetries - attempt
  {
    if attempt <= cfg.maxRetries {
      AttemptEffect(env, s, partition, offset);
      hide Attempt, Fails, AfterFailure, Reason;
      var (t, e) := Attempt(env, s, partition, offset);
      if e == Failed {
        RetrySleeps(env, cfg, Sleep(cfg, t, attempt), partition, offset, attempt + 1,
            Some(Reason(env, Now(s), partition, offset)));
      }
    }
  }

  lemma {:induction false} RetryLetters<W, O>(
      env: Env<W, O>, cfg: Settings, s: State<W, O>, partition: nat, offset: nat, attempt: nat,
      error: Option<string>)
    requires attempt >= 1
    ensures var (t, e) := Retry(env, cfg, s, partition, offset, attempt, error);
      var n := Left(cfg, attempt);
      var last := if n == 0 then error else LastReason(env, Now(s), partition, offset, n);
      t.letters == if AllFail(env, Now(s), partition, offset, n) && cfg.deadLetters && env.send(s.calls.send) == Sent
        then s.letters + [LetterFor(env, partition, offset, last)]
        else s.letters
    decreases cfg.maxRetries - attempt
  {
    if attempt <= cfg.maxRetries {
      AttemptEffect(env, s, partition, offset);
      hide Attempt, Fails, AfterFailure, Reason;
      var (t, e) := Attempt(env, s, partition, offset);
      if e == Failed {
        RetryLetters(env, cfg, Sleep(cfg, t, attempt), partition, offset, attempt + 1,
            Some(Reason(env, Now(s), partition, offset)));
      }
    }
  }

  lemma {:induction false} RetryCommits<W, O>(
      env: Env<W, O>, cfg: Settings, s: State<W, O>, partition: nat, offset: nat, attempt: nat,
      error: Option<string>)
    requires attempt >= 1
    ensures var (t, e) := Retry(env, cfg, s, partition, offset, attempt, error);
      && t.acknowledged == s.acknowledged + (if e == Done then 1 else 0)
      && t.position == s.position
      && (e == Done ==> t.committed == t.position)
      && (t.committed == s.committed || t.committed == s.position)
    decreases cfg.maxRetries - attempt
  {
    if attempt <= cfg.maxRetries {
      AttemptEffect(env, s, partition, offset);
      hide Attempt, Fails, AfterFailure, Reason;
      var (t, e) := Attempt(env, s, partition, offset);
      if e == Failed {
        RetryCommits(env, cfg, Sleep(cfg, t, attempt), partition, offset, attempt + 1,
            Some(Reason(env, Now(s), partition, offset)));
      }
    }
  }

  /** Where `n` failing attempts lead. */
  function AfterAll<W, O>(env: Env<W, O>, g: Progress<W>, partition: nat, offset: nat, n: nat): Progress<W>
    decreases n
  {
    if n == 0 then g else AfterAll(env, AfterFailure(env, g, partition, offset), partition, offset, n - 1)
  }

  /** While `process` always raises, all attempts fail, and the world keeps what it always keeps. */
  lemma {:induction false} RaisingFails<W(!new), O>(
      env: Env<W, O>, g: Progress<W>, partition: nat, offset: nat, n: nat, keeps: W -> bool)
    requires keeps(g.world)
    requires forall w, call | keeps(w) ::
      var (v, r) := env.process(w, partition, offset, call); r.Raised? && keeps(v)
    ensures AllFail(env, g, partition, offset, n) && keeps(AfterAll(env, g, partition, offset, n).world)
    decreases n
  {
    if n > 0 {
      RaisingFails(env, AfterFailure(env, g, partition, offset), partition, offset, n - 1, keeps);
    }
  }

  // The number of the last commit made.
  function LastCommit<W, O(==)>(s: State<W, O>): nat {
    if s.calls.commit == 0 then 0 else s.calls.commit - 1
  }

  lemma {:induction false} RetryResigns<W, O>(
      env: Env<W, O>, cfg: Settings, s: State<W, O>, partition: nat, offset: nat, attempt: nat,
      error: Option<string>)
    requires attempt >= 1
    ensures var (t, e) := Retry(env, cfg, s, partition, offset, attempt, error);
      AllFail(env, Now(s), partition, offset, Left(cfg, attempt)) ==>
        && t.world == AfterAll(env, Now(s), partition, offset, Left(cfg, attempt)).world
        && e == (if cfg.deadLetters && env.send(s.calls.send) == OtherFailure then Failed
                 else if cfg.deadLetters && env.send(s.calls.send) == SendKilled then Dead
                 else CommitExit(env.commit(LastCommit(t))))
    decreases cfg.maxRetries - attempt
  {
    if attempt <= cfg.maxRetries {
      AttemptEffect(env, s, partition, offset);
      hide Attempt, Fails, AfterFailure, Reason;
      var (t, e) := Attempt(env, s, partition, offset);
      if e == Failed {
        RetryResigns(env, cfg, Sleep(cfg, t, attempt), partition, offset, attempt + 1,
            Some(Reason(env, Now(s), partition, offset)));
      }
    }
  }

  /**
   Per delivery: `process` runs at most once per attempt left, the next time exactly if
   every time before it or the commit after it failed, and commit at most once more; the
   dead-letter step is reached exactly when all of these attempts fail, then
   all were made, at most one letter is sent, carrying the message and the last failure,
   and the sleeps add up to the full backoff; and the call returns normally exactly when
   one commit was acknowledged, and is cut short exactly when one of its calls was killed.
   */
  lemma RetryContract<W, O>(env: Env<W, O>, cfg: Settings, s: State<W, O>, partition: nat, offset: nat)
    ensures var (t, e) := Retry(env, cfg, s, partition, offset, 1, None);
      var n := if cfg.maxRetries < 0 then 0 else cfg.maxRetries;
      var failed := AllFail(env, Now(s), partition, offset, n);
      && s.calls.process <= t.calls.process <= s.calls.process + n
      && s.calls.commit <= t.calls.commit <= s.calls.commit + n + 1
      && t.calls.send == s.calls.send + (if failed && cfg.deadLetters then 1 else 0)
      && (forall k: nat | k < n ::
            t.calls.process > s.calls.process + k <==> AllFail(env, Now(s), partition, offset, k))
      && (failed ==> t.calls.process == s.calls.process + n)
      && (failed ==> t.slept == s.slept + Backoff(1, cfg.maxRetries))
      && t.slept <= s.slept + Backoff(1, cfg.maxRetries)
      && t.letters == (if failed && cfg.deadLetters && env.send(s.calls.send) == Sent
           then s.letters + [LetterFor(env, partition, offset, LastReason(env, Now(s), partition, offset, n))]
           else s.letters)
      && t.acknowledged == s.acknowledged + (if e == Done then 1 else 0)
      && t.position == s.position
      && (e == Done ==> t.committed == t.position)
      && (t.committed == s.committed || t.committed == s.position)
      && (e == Dead <==> ProcessKilled(env, Now(s), partition, offset, n) || CallKilled(env, s.calls, t.calls))
  {
    assert Left(cfg, 1) == if cfg.maxRetries < 0 then 0 else cfg.maxRetries;
    hide Retry, AllFail, Backoff, ProcessKilled, CallKilled;
    RetryCalls(env, cfg, s, partition, offset, 1, None);
    forall k: nat | k < Left(cfg, 1)
      ensures Retry(env, cfg, s, partition, offset, 1, None).0.calls.process > s.calls.process + k
              <==> AllFail(env, Now(s), partition, offset, k)
    {
      RetryCounts(env, cfg, s, partition, offset, 1, None, k);
    }
    RetryDies(env, cfg, s, partition, offset, 1, None);
    RetryGivesUp(env, cfg, s, partition, offset, 1, None);
    RetrySleeps(env, cfg, s, partition, offset, 1, None);
    RetryLetters(env, cfg, s, partition, offset, 1, None);
    RetryCommits(env, cfg, s, partition, offset, 1, None);
  }

  /**
   A delivery whose attempts all fail and that still commits normally leaves no letter
   exactly when Kafka refused the send; else the letter with the last failure.
   */
  lemma LetterExactly<W, O>(env: Env<W, O>, cfg: Settings, s: State<W, O>, partition: nat, offset: nat)
    requires cfg.deadLetters && Retry(env, cfg, s, partition, offset, 1, None).1 == Done
    requires AllFail(env, Now(s), partition, offset, Left(cfg, 1))
    ensures var t := Retry(env, cfg, s, partition, offset, 1, None).0;
      && (t.letters == s.letters <==> env.send(s.calls.send) == KafkaFailure)
      && (t.letters != s.letters ==>
            t.letters ==
                s.letters + [LetterFor(env, partition, offset,
                    LastReason(env, Now(s), partition, offset, Left(cfg, 1)))])
  {
    hide Retry, AllFail;
    RetryLetters(env, cfg, s, partition, offset, 1, None);
    RetryResigns(env, cfg, s, partition, offset, 1, None);
  }

  // ----- backoff in closed form -----

  lemma {:induction false} PauseCapped(attempt: nat)
    requires attempt >= 5
    ensures Pow2(attempt) >= 32 && Pause(attempt) == 30
  {
    if attempt == 5 {
      assert Pow2(2) == 4;
      assert Pow2(4) == 16;
    } else {
      PauseCapped(attempt - 1);
    }
  }

  lemma {:induction false} BackoffSplit(attempt: nat, n: nat)
    requires attempt <= n
    ensures Backoff(attempt, n + 1) == Backoff(attempt, n) + Pause(n)
    decreases n - attempt
  {
    if attempt < n {
      BackoffSplit(attempt + 1, n);
    } else {
      assert Backoff(attempt + 1, n + 1) == 0;
    }
  }

  /** n failing attempts sleep 2^n - 2 seconds up to n = 5, then 30 more for each further one. */
  lemma {:induction false} BackoffClosedForm(n: nat)
    requires n >= 1
    ensures n <= 5 ==> Backoff(1, n) == Pow2(n) - 2
    ensures n >= 5 ==> Backoff(1, n) == 30 * (n - 4)
    ensures Backoff(1, n) <= 30 * (n - 1)
  {
    assert Pow2(2) == 4 && Pow2(1) == 2;
    assert Pow2(4) == 16 && Pow2(3) == 8;
    assert Pow2(5) == 32;
    if n > 1 {
      BackoffClosedForm(n - 1);
      BackoffSplit(1, n - 1);
      if n > 5 {
        PauseCapped(n - 1);
      }
    }
  }

  // ----- the loop and its restarts -----

  // The iterator hands out the next message of a partition; by then a stop may be asked for.
  datatype Arrival = Arrival(partition: nat, stopRequested: bool)

  datatype RunEnd = Ran | Stopped(partition: nat, offset: nat) | Propagated | KilledMidway

  // `start` may raise before the consumer is up, or in what a subclass adds after that.
  datatype Starting = Started | NotStarted | HalfStarted

  // One run of a consumer: how it starts, what arrives, and whether it stops without an
  // exception.
  datatype Lifetime = Lifetime(start: Starting, arrivals: seq<Arrival>, stops: bool)

  function Take<W, O(==)>(s: State<W, O>, partition: nat): State<W, O> {
    s.(position := s.position[partition := At(s.position, partition) + 1])
  }

  /** The loop of `run`, over the messages that arrive. */
  function RunLoop<W, O(==)>(
      env: Env<W, O>, cfg: Settings, s: State<W, O>, arrivals: seq<Arrival>): (State<W, O>, RunEnd)
    decreases |arrivals|
  {
    if arrivals == [] then (s, Ran)
    else
      var p := arrivals[0].partition;
      var offset := At(s.position, p);
      if arrivals[0].stopRequested then (Take(s, p), Stopped(p, offset))
      else
        var (t, e) := Retry(env, cfg, Take(s, p), p, offset, 1, None);
        if e == Done then RunLoop(env, cfg, t, arrivals[1..])
        else (t, if e == Failed then Propagated else KilledMidway)
  }

  /** `run`: start, loop, and stop in every case but a kill; either end may raise. */
  function RunOnce<W, O(==)>(env: Env<W, O>, cfg: Settings, s: State<W, O>, life: Lifetime): (State<W, O>, RunEnd) {
    if life.start != Started then (s, Propagated)
    else
      var (t, end) := RunLoop(env, cfg, s, life.arrivals);
      (t, if end == KilledMidway || life.stops then end else Propagated)
  }

  /** A new consumer resumes from the committed offsets. */
  function Restart<W, O(==)>(s: State<W, O>): State<W, O> {
    s.(position := s.committed)
  }

  /** One run after another, each starting from what the one before left on the broker. */
  function Live<W, O(==)>(env: Env<W, O>, cfg: Settings, s: State<W, O>, runs: seq<Lifetime>): State<W, O> {
    if runs == [] then s
    else RunOnce(env, cfg, Restart(Live(env, cfg, s, runs[..|runs| - 1])), runs[|runs| - 1]).0
  }

  ghost predicate HasOutcome<W, O>(s: State<W, O>, partition: nat, offset: nat) {
    exists x | x in s.outcomes :: x.0 == partition && x.1 == offset
  }

  /** Every message below a partition's committed offset has reached an outcome. */
  ghost predicate Safe<W, O>(s: State<W, O>) {
    forall p: nat, o: nat | o < At(s.committed, p) :: HasOutcome(s, p, o)
  }

  // All messages handed out have reached an outcome, save the one in hand.
  ghost predicate Settled<W, O>(s: State<W, O>, inHand: Option<(nat, nat)>) {
    && (forall p: nat :: At(s.committed, p) <= At(s.position, p))
    && (forall p: nat, o: nat | o < At(s.position, p) && inHand != Some((p, o)) :: HasOutcome(s, p, o))
  }

  lemma OutcomesGrow<W, O>(s: State<W, O>, t: State<W, O>)
    requires s.outcomes <= t.outcomes
    ensures forall p, o | HasOutcome(s, p, o) :: HasOutcome(t, p, o)
  {
    forall p, o | HasOutcome(s, p, o) ensures HasOutcome(t, p, o) {
      var x :| x in s.outcomes && x.0 == p && x.1 == o;
      assert x in t.outcomes;
    }
  }

  // What counts as progress of a message in hand: the outcomes only grow.
  lemma CountersDoNotMatter<W, O>(s: State<W, O>, t: State<W, O>, inHand: Option<(nat, nat)>)
    requires Settled(s, inHand) && Safe(s)
    requires t.position == s.position && t.committed == s.committed && s.outcomes <= t.outcomes
    ensures Settled(t, inHand) && Safe(t)
  {
    OutcomesGrow(s, t);
    hide HasOutcome;
  }

  lemma RecordSettles<W, O>(s: State<W, O>, p: nat, o: nat, outcome: Outcome<O>)
    requires Settled(s, Some((p, o))) && Safe(s)
    ensures Settled(Record(s, p, o, outcome), None) && Safe(Record(s, p, o, outcome))
  {
    CountersDoNotMatter(s, Record(s, p, o, outcome), Some((p, o)));
    assert (p, o, outcome) in Record(s, p, o, outcome).outcomes;
    assert HasOutcome(Record(s, p, o, outcome), p, o);
    hide HasOutcome;
  }

  lemma CommitSettled<W, O>(s: State<W, O>, how: Commit)
    requires Settled(s, None) && Safe(s)
    ensures Settled(CommitOnce(s, how), None) && Safe(CommitOnce(s, how))
    ensures CommitOnce(s, how).position == s.position
  {
    OutcomesGrow(s, CommitOnce(s, how));
    hide HasOutcome;
  }

  lemma GiveUpIsSafe<W, O>(env: Env<W, O>, cfg: Settings, s: State<W, O>, p: nat, o: nat, error: Option<string>)
    requires Settled(s, Some((p, o))) && Safe(s)
    ensures var (t, e) := GiveUp(env, cfg, s, p, o, error);
      Safe(t) && t.position == s.position && Settled(t, Some((p, o))) && (e == Done ==> Settled(t, None))
  {
    var how := env.commit(s.calls.commit);
    if !cfg.deadLetters {
      RecordSettles(s, p, o, Discarded);
      hide Settled, Safe, CommitOnce;
      CommitSettled(Record(s, p, o, Discarded), how);
      StillInHand(CommitOnce(Record(s, p, o, Discarded), how), (p, o));
    } else {
      var tried := s.(calls := s.calls.(send := s.calls.send + 1));
      var done := Record(tried, p, o, DeadLettered(s.calls.send));
      var sent := done.(letters := s.letters + [LetterFor(env, p, o, error)]);
      CountersDoNotMatter(s, tried, Some((p, o)));
      RecordSettles(tried, p, o, DeadLettered(s.calls.send));
      CountersDoNotMatter(done, sent, None);
      hide Settled, Safe, CommitOnce;
      CommitSettled(done, how);
      CommitSettled(sent, how);
      StillInHand(CommitOnce(done, how), (p, o));
      StillInHand(CommitOnce(sent, how), (p, o));
    }
  }

  lemma {:induction false} RetryIsSafe<W, O>(
      env: Env<W, O>, cfg: Settings, s: State<W, O>, p: nat, o: nat, attempt: nat, error: Option<string>)
    requires Settled(s, Some((p, o))) && Safe(s)
    ensures var (t, e) := Retry(env, cfg, s, p, o, attempt, error);
      Safe(t) && t.position == s.position && Settled(t, Some((p, o))) && (e == Done ==> Settled(t, None))
    decreases cfg.maxRetries - attempt
  {
    hide Settled, Safe, CommitOnce, Record;
    if attempt > cfg.maxRetries {
      GiveUpIsSafe(env, cfg, s, p, o, error);
    } else {
      AttemptIsSafe(env, s, p, o);
      hide Attempt;
      var (t, e) := Attempt(env, s, p, o);
      if e == Failed {
        CountersDoNotMatter(t, Sleep(cfg, t, attempt), Some((p, o)));
        RetryIsSafe(env, cfg, Sleep(cfg, t, attempt), p, o, attempt + 1, Some(Reason(env, Now(s), p, o)));
      }
    }
  }

  lemma AttemptIsSafe<W, O>(env: Env<W, O>, s: State<W, O>, p: nat, o: nat)
    requires Settled(s, Some((p, o))) && Safe(s)
    ensures var (t, e) := Attempt(env, s, p, o);
      Safe(t) && t.position == s.position && Settled(t, Some((p, o))) && (e == Done ==> Settled(t, None))
  {
    hide Settled, Safe, CommitOnce, Record;
    var called := Called(env, s, p, o);
    CountersDoNotMatter(s, called, Some((p, o)));
    match env.process(s.world, p, o, s.calls.process).1 {
      case Killed =>
      case Raised(_) =>
      case Ended(answer) =>
        var how := env.commit(s.calls.commit);
        RecordSettles(called, p, o, Returned(answer));
        CommitSettled(Record(called, p, o, Returned(answer)), how);
        RecordKeepsPosition(called, p, o, Returned(answer));
        StillInHand(CommitOnce(Record(called, p, o, Returned(answer)), how), (p, o));
    }
  }

  lemma StillInHand<W, O>(s: State<W, O>, message: (nat, nat))
    requires Settled(s, None)
    ensures Settled(s, Some(message))
  {
  }

  lemma RecordKeepsPosition<W, O>(s: State<W, O>, p: nat, o: nat, outcome: Outcome<O>)
    ensures Record(s, p, o, outcome).position == s.position
  {
  }

  lemma TakeSettles<W, O>(s: State<W, O>, p: nat)
    requires Settled(s, None) && Safe(s)
    ensures Settled(Take(s, p), Some((p, At(s.position, p)))) && Safe(Take(s, p))
  {
    OutcomesGrow(s, Take(s, p));
    hide HasOutcome;
  }

  /** A message dropped because of a stop stays above its partition's committed offset. */
  lemma {:induction false} RunIsSafe<W, O>(env: Env<W, O>, cfg: Settings, s: State<W, O>, arrivals: seq<Arrival>)
    requires Settled(s, None) && Safe(s)
    ensures var (t, e) := RunLoop(env, cfg, s, arrivals);
      && Safe(t)
      && (e == Ran ==> Settled(t, None))
      && (e.Stopped? ==> At(t.committed, e.partition) <= e.offset < At(t.position, e.partition))
    decreases |arrivals|
  {
    if arrivals != [] {
      var p := arrivals[0].partition;
      var taken := Take(s, p);
      TakeSettles(s, p);
      hide HasOutcome;
      if !arrivals[0].stopRequested {
        RetryIsSafe(env, cfg, taken, p, At(s.position, p), 1, None);
        var (t, e) := Retry(env, cfg, taken, p, At(s.position, p), 1, None);
        if e == Done {
          RunIsSafe(env, cfg, t, arrivals[1..]);
        }
      }
    }
  }

  /**
   In every state a consumer can be left in, whatever fails, stops, crashes or is killed
   and however often it restarts, each offset below a partition's committed offset has
   reached an outcome: an answer of `process`, the dead-letter step or, where no
   dead-letter topic is configured, being discarded.
   */
  lemma {:induction false} CommittedOffsetsAreSafe<W, O>(
      env: Env<W, O>, cfg: Settings, s: State<W, O>, runs: seq<Lifetime>)
    requires Safe(s)
    ensures Safe(Live(env, cfg, s, runs))
  {
    if runs != [] {
      CommittedOffsetsAreSafe(env, cfg, s, runs[..|runs| - 1]);
      var before := Restart(Live(env, cfg, s, runs[..|runs| - 1]));
      OutcomesGrow(Live(env, cfg, s, runs[..|runs| - 1]), before);
      hide HasOutcome, RunLoop;
      RunIsSafe(env, cfg, before, runs[|runs| - 1].arrivals);
    }
  }

  // ----- how a run ends, and what it has done by then -----

  /** The next message is taken, not stopped for, and its delivery returns normally. */
  ghost predicate Returns<W, O>(env: Env<W, O>, cfg: Settings, s: State<W, O>, a: Arrival, t: State<W, O>) {
    !a.stopRequested
    && Retry(env, cfg, Take(s, a.partition), a.partition, At(s.position, a.partition), 1, None) == (t, Done)
  }

  /** From one state to the next every delivery in turn returned normally. */
  ghost predicate ReturnInTurn<W, O>(
      env: Env<W, O>, cfg: Settings, arrivals: seq<Arrival>, states: seq<State<W, O>>)
  {
    && 1 <= |states| <= |arrivals| + 1
    && forall i | 0 <= i < |states| - 1 :: Returns(env, cfg, states[i], arrivals[i], states[i + 1])
  }

  // Why a run goes no further than this message, and what it leaves.
  ghost predicate EndsAt<W, O>(
      env: Env<W, O>, cfg: Settings, s: State<W, O>, a: Arrival, t: State<W, O>, end: RunEnd)
  {
    var o := At(s.position, a.partition);
    var (u, e) := Retry(env, cfg, Take(s, a.partition), a.partition, o, 1, None);
    if a.stopRequested then t == Take(s, a.partition) && end == Stopped(a.partition, o)
    else t == u && ((e == Failed && end == Propagated) || (e == Dead && end == KilledMidway))
  }

  /**
   A run handles its messages one after another, as long as no stop is asked for and each
   delivery returns normally; it ends where one of the two fails, or with the last message.
   */
  lemma {:induction false} RunTrace<W, O>(env: Env<W, O>, cfg: Settings, s: State<W, O>, arrivals: seq<Arrival>)
    returns (states: seq<State<W, O>>)
    ensures ReturnInTurn(env, cfg, arrivals, states) && states[0] == s
    ensures var (t, end) := RunLoop(env, cfg, s, arrivals);
      var k := |states| - 1;
      if k == |arrivals| then t == states[k] && end == Ran
      else EndsAt(env, cfg, states[k], arrivals[k], t, end)
    decreases |arrivals|
  {
    states := [s];
    if arrivals != [] && !arrivals[0].stopRequested {
      var p := arrivals[0].partition;
      var (t, e) := Retry(env, cfg, Take(s, p), p, At(s.position, p), 1, None);
      hide Retry;
      if e == Done {
        var later := RunTrace(env, cfg, t, arrivals[1..]);
        states := [s] + later;
        forall i | 0 <= i < |states| - 1 ensures Returns(env, cfg, states[i], arrivals[i], states[i + 1]) {
          if i > 0 {
            assert Returns(env, cfg, later[i - 1], arrivals[1..][i - 1], later[i]);
          }
        }
      }
    }
  }

  lemma {:induction false} ReturnsAreOne<W, O>(
      env: Env<W, O>, cfg: Settings, arrivals: seq<Arrival>, a: seq<State<W, O>>, b: seq<State<W, O>>, k: nat)
    requires ReturnInTurn(env, cfg, arrivals, a) && ReturnInTurn(env, cfg, arrivals, b)
    requires a[0] == b[0] && k < |a| && k < |b|
    ensures a[k] == b[k]
  {
    if k > 0 {
      ReturnsAreOne(env, cfg, arrivals, a, b, k - 1);
      hide Retry;
      assert Returns(env, cfg, a[k - 1], arrivals[k - 1], a[k]) && Returns(env, cfg, b[k - 1], arrivals[k - 1], b[k]);
    }
  }

  lemma EndingIsNotReturning<W, O>(
      env: Env<W, O>, cfg: Settings, s: State<W, O>, a: Arrival, t: State<W, O>, end: RunEnd, u: State<W, O>)
    requires EndsAt(env, cfg, s, a, t, end)
    ensures !Returns(env, cfg, s, a, u)
  {
  }

  /**
   A run takes all messages that arrive exactly if none of them finds a stop asked for and
   every delivery in turn returns normally.
   */
  lemma RunsToTheEndExactly<W, O>(env: Env<W, O>, cfg: Settings, s: State<W, O>, arrivals: seq<Arrival>)
    ensures RunLoop(env, cfg, s, arrivals).1 == Ran <==>
      exists states: seq<State<W, O>> | ReturnInTurn(env, cfg, arrivals, states) ::
        states[0] == s && |states| == |arrivals| + 1
  {
    var mine := RunTrace(env, cfg, s, arrivals);
    hide Retry;
    forall states: seq<State<W, O>> |
      ReturnInTurn(env, cfg, arrivals, states) && states[0] == s && |states| == |arrivals| + 1
      ensures |mine| == |arrivals| + 1
    {
      var k := |mine| - 1;
      if k < |arrivals| {
        ReturnsAreOne(env, cfg, arrivals, mine, states, k);
        var (t, end) := RunLoop(env, cfg, s, arrivals);
        EndingIsNotReturning(env, cfg, mine[k], arrivals[k], t, end, states[k + 1]);
      }
    }
  }

  /** How many messages of a partition arrive. */
  function CountOf(arrivals: seq<Arrival>, p: nat): nat {
    if arrivals == [] then 0 else (if arrivals[0].partition == p then 1 else 0) + CountOf(arrivals[1..], p)
  }

  lemma {:induction false} OutcomesStay<W, O>(
      env: Env<W, O>, cfg: Settings, s: State<W, O>, p: nat, o: nat, attempt: nat, error: Option<string>)
    ensures var (t, e) := Retry(env, cfg, s, p, o, attempt, error);
      s.outcomes <= t.outcomes && t.position == s.position && (e == Done ==> HasOutcome(t, p, o))
    decreases cfg.maxRetries - attempt
  {
    if attempt > cfg.maxRetries {
      var t := GiveUp(env, cfg, s, p, o, error).0;
      assert (p, o, DeadLettered(s.calls.send)) in t.outcomes || (p, o, Discarded) in t.outcomes
             || GiveUp(env, cfg, s, p, o, error).1 != Done;
    } else {
      AttemptExactly(env, s, p, o);
      var r := env.process(s.world, p, o, s.calls.process).1;
      hide Attempt;
      var (t, e) := Attempt(env, s, p, o);
      assert r.Ended? ==> (p, o, Returned(r.answer)) in t.outcomes;
      if e == Failed {
        OutcomesStay(env, cfg, Sleep(cfg, t, attempt), p, o, attempt + 1, Some(Reason(env, Now(s), p, o)));
      }
    }
  }

  /**
   When a run has taken all messages that arrived, every partition has moved on by as many
   as arrived of it, and each message it moved past has an outcome.
   */
  lemma {:induction false} RunHandlesAll<W, O>(
      env: Env<W, O>, cfg: Settings, s: State<W, O>, arrivals: seq<Arrival>, p: nat)
    requires RunLoop(env, cfg, s, arrivals).1 == Ran
    ensures var t := RunLoop(env, cfg, s, arrivals).0;
      && s.outcomes <= t.outcomes
      && At(t.position, p) == At(s.position, p) + CountOf(arrivals, p)
      && forall o: nat | At(s.position, p) <= o < At(t.position, p) :: HasOutcome(t, p, o)
    decreases |arrivals|
  {
    if arrivals != [] {
      var q := arrivals[0].partition;
      var o := At(s.position, q);
      OutcomesStay(env, cfg, Take(s, q), q, o, 1, None);
      hide Retry, HasOutcome;
      var t := Retry(env, cfg, Take(s, q), q, o, 1, None).0;
      RunHandlesAll(env, cfg, t, arrivals[1..], p);
      OutcomesGrow(t, RunLoop(env, cfg, t, arrivals[1..]).0);
    }
  }

  /** A run, by its parts: nothing without a start; an exception of `stop` replaces the end, a kill leaves no `stop`. */
  lemma RunOnceExactly<W, O>(env: Env<W, O>, cfg: Settings, s: State<W, O>, life: Lifetime)
    ensures var (t, end) := RunOnce(env, cfg, s, life);
      && (life.start != Started ==> t == s && end == Propagated)
      && (life.start == Started ==> t == RunLoop(env, cfg, s, life.arrivals).0)
      && (end == Ran <==> life.start == Started && life.stops && RunLoop(env, cfg, s, life.arrivals).1 == Ran)
      && (end == KilledMidway <==> life.start == Started && RunLoop(env, cfg, s, life.arrivals).1 == KilledMidway)
  {
  }

  /**
   A run after others picks up where the broker stands: having taken all that arrived, it
   has moved every partition on from its committed offset, with an outcome for each
   message in between.
   */
  lemma RestartsFromCommitted<W, O>(
      env: Env<W, O>, cfg: Settings, s: State<W, O>, runs: seq<Lifetime>, life: Lifetime, p: nat)
    requires life.start == Started
    requires RunLoop(env, cfg, Restart(Live(env, cfg, s, runs)), life.arrivals).1 == Ran
    ensures var before, after := Live(env, cfg, s, runs), Live(env, cfg, s, runs + [life]);
      && At(after.position, p) == At(before.committed, p) + CountOf(life.arrivals, p)
      && forall o: nat | At(before.committed, p) <= o < At(after.position, p) :: HasOutcome(after, p, o)
  {
    assert (runs + [life])[..|runs|] == runs;
    hide RunLoop, HasOutcome;
    RunHandlesAll(env, cfg, Restart(Live(env, cfg, s, runs)), life.arrivals, p);
  }

  /** One message that fails in `process` once and is answered the next time: its offset is committed. */
  lemma AnsweredOnSecondAttempt<W, O>(env: Env<W, O>, cfg: Settings, s: State<W, O>, p: nat)
    requires cfg.maxRetries >= 2 && env.commit(s.calls.commit) == Acknowledged
    requires var (v, r) := env.process(s.world, p, At(s.position, p), s.calls.process);
      r.Raised? && env.process(v, p, At(s.position, p), s.calls.process + 1).1.Ended?
    ensures var (t, end) := RunOnce(env, cfg, s, Lifetime(Started, [Arrival(p, false)], true));
      var v := env.process(s.world, p, At(s.position, p), s.calls.process).0;
      && end == Ran && At(t.committed, p) == At(s.position, p) + 1 && t.letters == s.letters
      && t.world == env.process(v, p, At(s.position, p), s.calls.process + 1).0
  {
    var o := At(s.position, p);
    var arrivals := [Arrival(p, false)];
    var taken := Take(s, p);
    var once := Sleep(cfg, Attempt(env, taken, p, o).0, 1);
    var (twice, e) := Attempt(env, once, p, o);
    assert e == Done;
    assert Retry(env, cfg, once, p, o, 2, Some(Reason(env, Now(taken), p, o))) == (twice, Done);
    assert Retry(env, cfg, taken, p, o, 1, None) == (twice, Done);
    assert arrivals[1..] == [] && arrivals[0] == Arrival(p, false);
    assert RunLoop(env, cfg, twice, []) == (twice, Ran);
    assert RunLoop(env, cfg, s, arrivals) == (twice, Ran);
  }

  /** One message whose attempts all fail and whose letter Kafka refuses: its offset is committed. */
  lemma CommittedWithoutLetter<W, O>(env: Env<W, O>, cfg: Settings, s: State<W, O>, p: nat)
    requires cfg.deadLetters && env.send(s.calls.send) == KafkaFailure && forall n :: env.commit(n) == Acknowledged
    requires AllFail(env, Now(s), p, At(s.position, p), Left(cfg, 1))
    ensures var (t, end) := RunOnce(env, cfg, s, Lifetime(Started, [Arrival(p, false)], true));
      && end == Ran && At(t.committed, p) == At(s.position, p) + 1 && t.letters == s.letters
      && t.world == AfterAll(env, Now(s), p, At(s.position, p), Left(cfg, 1)).world
  {
    var o, taken, arrivals := At(s.position, p), Take(s, p), [Arrival(p, false)];
    assert Now(taken) == Now(s);
    hide Retry, AllFail, AfterAll;
    RetryResigns(env, cfg, taken, p, o, 1, None);
    RetryLetters(env, cfg, taken, p, o, 1, None);
    RetryCommits(env, cfg, taken, p, o, 1, None);
    var (t, e) := Retry(env, cfg, taken, p, o, 1, None);
    assert arrivals[1..] == [] && arrivals[0] == Arrival(p, false);
    assert RunLoop(env, cfg, t, []) == (t, Ran);
    assert RunLoop(env, cfg, s, arrivals) == (t, Ran);
  }

  // ----- what an outcome is worth -----

  /**
   `holds` is kept by every call of `process`; what `justified` says of an answer is true
   when it is given, and stays true whatever `process` does later.
   */
  ghost predicate Upheld<W(!new), O(!new)>(env: Env<W, O>, holds: W -> bool, justified: (W, nat, nat, O) -> bool) {
    forall w, p, o, c | holds(w) ::
      var (v, r) := env.process(w, p, o, c);
      && holds(v)
      && (r.Ended? ==> justified(v, p, o, r.answer))
      && forall q, n, answer | justified(w, q, n, answer) :: justified(v, q, n, answer)
  }

  /** A letter with this message in it. */
  predicate IsLetterOf<W, O>(env: Env<W, O>, letter: DeadLetter, partition: nat, offset: nat) {
    letter == LetterFor(env, partition, offset, Some(letter.error))
  }

  ghost predicate HasLetter<W, O>(env: Env<W, O>, s: State<W, O>, partition: nat, offset: nat) {
    exists i :: 0 <= i < |s.letters| && IsLetterOf(env, s.letters[i], partition, offset)
  }

  // The dead-letter step made that send for the message: it left a letter, or Kafka refused it.
  ghost predicate Attempted<W, O>(env: Env<W, O>, s: State<W, O>, partition: nat, offset: nat, send: nat) {
    && send < s.calls.send
    && (env.send(send) == KafkaFailure || (env.send(send) == Sent && HasLetter(env, s, partition, offset)))
  }

  lemma LettersStay<W, O>(env: Env<W, O>, s: State<W, O>, t: State<W, O>, partition: nat, offset: nat, send: nat)
    requires Attempted(env, s, partition, offset, send)
    requires s.letters <= t.letters && s.calls.send <= t.calls.send
    ensures Attempted(env, t, partition, offset, send)
  {
    if HasLetter(env, s, partition, offset) {
      var i :| 0 <= i < |s.letters| && IsLetterOf(env, s.letters[i], partition, offset);
      assert t.letters[i] == s.letters[i];
    }
  }

  /** Every outcome recorded is what it claims to be. */
  ghost predicate Truthful<W(!new), O(!new)>(
      env: Env<W, O>, cfg: Settings, s: State<W, O>, holds: W -> bool, justified: (W, nat, nat, O) -> bool)
  {
    && holds(s.world)
    && (forall p, o, answer | (p, o, Returned(answer)) in s.outcomes :: justified(s.world, p, o, answer))
    && (forall p, o, send | (p, o, DeadLettered(send)) in s.outcomes :: Attempted(env, s, p, o, send))
    && (forall p, o, q, n, send |
          (p, o, DeadLettered(send)) in s.outcomes && (q, n, DeadLettered(send)) in s.outcomes ::
          p == q && o == n)
    && (cfg.deadLetters ==> forall p, o :: (p, o, Discarded) !in s.outcomes)
  }

  // Offsets and counters change nothing, nor do further letters and sends.
  lemma TruthCarriesOver<W(!new), O(!new)>(
      env: Env<W, O>, cfg: Settings, s: State<W, O>, t: State<W, O>, holds: W -> bool,
      justified: (W, nat, nat, O) -> bool)
    requires Truthful(env, cfg, s, holds, justified)
    requires t.world == s.world && t.outcomes == s.outcomes && s.letters <= t.letters && s.calls.send <= t.calls.send
    ensures Truthful(env, cfg, t, holds, justified)
  {
    forall p, o, send | (p, o, DeadLettered(send)) in t.outcomes ensures Attempted(env, t, p, o, send) {
      LettersStay(env, s, t, p, o, send);
    }
  }

  lemma AttemptIsTruthful<W(!new), O(!new)>(
      env: Env<W, O>, cfg: Settings, s: State<W, O>, p: nat, o: nat, holds: W -> bool,
      justified: (W, nat, nat, O) -> bool)
    requires Upheld(env, holds, justified) && Truthful(env, cfg, s, holds, justified)
    ensures Truthful(env, cfg, Attempt(env, s, p, o).0, holds, justified)
  {
    var called := Called(env, s, p, o);
    var (v, r) := env.process(s.world, p, o, s.calls.process);
    assert holds(v) && forall q, n, answer | justified(s.world, q, n, answer) :: justified(v, q, n, answer);
    forall q, n, send | (q, n, DeadLettered(send)) in called.outcomes ensures Attempted(env, called, q, n, send) {
      assert Attempted(env, s, q, n, send);
    }
    assert Truthful(env, cfg, called, holds, justified);
    if r.Ended? {
      var recorded := Record(called, p, o, Returned(r.answer));
      forall q, n, send | (q, n, DeadLettered(send)) in recorded.outcomes ensures Attempted(env, recorded, q, n, send) {
        assert Attempted(env, called, q, n, send);
      }
      TruthCarriesOver(env, cfg, recorded, Attempt(env, s, p, o).0, holds, justified);
    }
  }

  lemma GiveUpIsTruthful<W(!new), O(!new)>(
      env: Env<W, O>, cfg: Settings, s: State<W, O>, p: nat, o: nat, error: Option<string>, holds: W -> bool,
      justified: (W, nat, nat, O) -> bool)
    requires Truthful(env, cfg, s, holds, justified)
    ensures Truthful(env, cfg, GiveUp(env, cfg, s, p, o, error).0, holds, justified)
  {
    var t := GiveUp(env, cfg, s, p, o, error).0;
    forall q, n, send: nat | (q, n, DeadLettered(send)) in s.outcomes ensures send < s.calls.send {
      assert Attempted(env, s, q, n, send);
    }
    forall q, n, send | (q, n, DeadLettered(send)) in t.outcomes ensures Attempted(env, t, q, n, send) {
      if (q, n, DeadLettered(send)) in s.outcomes {
        LettersStay(env, s, t, q, n, send);
      } else if env.send(send) == Sent {
        assert IsLetterOf(env, t.letters[|s.letters|], p, o);
      }
    }
  }

  lemma {:induction false} RetryIsTruthful<W(!new), O(!new)>(
      env: Env<W, O>, cfg: Settings, s: State<W, O>, p: nat, o: nat, attempt: nat, error: Option<string>,
      holds: W -> bool, justified: (W, nat, nat, O) -> bool)
    requires Upheld(env, holds, justified) && Truthful(env, cfg, s, holds, justified)
    ensures Truthful(env, cfg, Retry(env, cfg, s, p, o, attempt, error).0, holds, justified)
    decreases cfg.maxRetries - attempt
  {
    hide Upheld, Truthful;
    if attempt > cfg.maxRetries {
      GiveUpIsTruthful(env, cfg, s, p, o, error, holds, justified);
    } else {
      AttemptIsTruthful(env, cfg, s, p, o, holds, justified);
      hide Attempt;
      var (t, e) := Attempt(env, s, p, o);
      if e == Failed {
        TruthCarriesOver(env, cfg, t, Sleep(cfg, t, attempt), holds, justified);
        RetryIsTruthful(env, cfg, Sleep(cfg, t, attempt), p, o, attempt + 1, Some(Reason(env, Now(s), p, o)),
            holds, justified);
      }
    }
  }

  lemma {:induction false} RunIsTruthful<W(!new), O(!new)>(
      env: Env<W, O>, cfg: Settings, s: State<W, O>, arrivals: seq<Arrival>, holds: W -> bool,
      justified: (W, nat, nat, O) -> bool)
    requires Upheld(env, holds, justified) && Truthful(env, cfg, s, holds, justified)
    ensures Truthful(env, cfg, RunLoop(env, cfg, s, arrivals).0, holds, justified)
    decreases |arrivals|
  {
    hide Upheld, Truthful, Retry;
    if arrivals != [] {
      var p := arrivals[0].partition;
      TruthCarriesOver(env, cfg, s, Take(s, p), holds, justified);
      if !arrivals[0].stopRequested {
        RetryIsTruthful(env, cfg, Take(s, p), p, At(s.position, p), 1, None, holds, justified);
        var (t, e) := Retry(env, cfg, Take(s, p), p, At(s.position, p), 1, None);
        if e == Done {
          RunIsTruthful(env, cfg, t, arrivals[1..], holds, justified);
        }
      }
    }
  }

  /**
   Over any number of runs, crashes and restarts: what `process` keeps holds of the world,
   every answer recorded stands for what it claims, a dead-lettered message had a send of
   its own, which left a letter or failed, and nothing is discarded where a dead-letter
   topic is configured.
   */
  lemma {:induction false} OutcomesAreTruthful<W(!new), O(!new)>(
      env: Env<W, O>, cfg: Settings, s: State<W, O>, runs: seq<Lifetime>, holds: W -> bool,
      justified: (W, nat, nat, O) -> bool)
    requires Upheld(env, holds, justified) && Truthful(env, cfg, s, holds, justified)
    ensures Truthful(env, cfg, Live(env, cfg, s, runs), holds, justified)
  {
    if runs != [] {
      OutcomesAreTruthful(env, cfg, s, runs[..|runs| - 1], holds, justified);
      var before := Live(env, cfg, s, runs[..|runs| - 1]);
      hide Upheld, Truthful, RunLoop;
      TruthCarriesOver(env, cfg, before, Restart(before), holds, justified);
      RunIsTruthful(env, cfg, Restart(before), runs[|runs| - 1].arrivals, holds, justified);
    }
  }

  // ----- the consumer itself -----

  class Consumer<W, O(==)> {
    const env: Env<W, O>
    const cfg: Settings
    var world: W
    var position: Offsets
    var committed: Offsets
    ghost var outcomes: set<(nat, nat, Outcome<O>)>
    var letters: seq<DeadLetter>
    var calls: Calls
    var acknowledged: nat
    var slept: nat
    var stopRequested: bool
    var healthy: bool

    constructor (env: Env<W, O>, cfg: Settings, world: W)
      ensures this.env == env && this.cfg == cfg && !healthy && !stopRequested
      ensures Snapshot() == State(world, map[], map[], {}, [], Calls(0, 0, 0), 0, 0)
    {
      this.env, this.cfg, this.world := env, cfg, world;
      position, committed, outcomes, letters := map[], map[], {}, [];
      calls, acknowledged, slept, stopRequested, healthy := Calls(0, 0, 0), 0, 0, false, false;
    }

    ghost function Snapshot(): State<W, O>
      reads this
    {
      State(world, position, committed, outcomes, letters, calls, acknowledged, slept)
    }

    /** `_process_message`: the subclass's `process`, whatever it is. */
    method ProcessMessage(partition: nat, offset: nat) returns (r: Processing<O>)
      modifies this`world, this`calls, this`outcomes
      ensures r == env.process(old(world), partition, offset, old(calls.process)).1
      ensures Snapshot() == (var called := Called(env, old(Snapshot()), partition, offset);
        if r.Ended? then Record(called, partition, offset, Returned(r.answer)) else called)
    {
      var (after, ended) := env.process(world, partition, offset, calls.process);
      world, r := after, ended;
      calls := calls.(process := calls.process + 1);
      if r.Ended? {
        outcomes := outcomes + {(partition, offset, Returned(r.answer))};
      }
    }

    method CommitOffsets() returns (e: Exit, error: string)
      modifies this`calls, this`committed, this`acknowledged
      ensures var how := env.commit(old(calls.commit));
        && Snapshot() == CommitOnce(old(Snapshot()), how)
        && committed == (if how.Refused? || how.KilledBefore? then old(committed) else position)
        && (e == Failed <==> how.Refused? || how.ReplyLost?)
        && (e == Dead <==> how.KilledBefore? || how.KilledAfter?)
        && (how.Refused? || how.ReplyLost? ==> error == how.error)
    {
      var how := env.commit(calls.commit);
      calls := calls.(commit := calls.commit + 1);
      if how.Acknowledged? || how.ReplyLost? || how.KilledAfter? {
        committed := position;
      }
      if how.Acknowledged? {
        acknowledged := acknowledged + 1;
      }
      e, error := CommitExit(how), if how.Refused? || how.ReplyLost? then how.error else "";
    }

    /** `_send_to_dlq`: a KafkaError is swallowed. */
    method SendToDeadLetters(partition: nat, offset: nat, error: Option<string>) returns (e: Exit)
      modifies this`calls, this`letters, this`outcomes
      ensures var how := env.send(old(calls.send));
        && e == (match how case OtherFailure => Failed case SendKilled => Dead case _ => Done)
        && (how == Sent ==>
              && |letters| == old(|letters|) + 1
              && var letter, message := letters[old(|letters|)], env.log(partition, offset);
                 && letter.originalTopic == message.topic && letter.originalPartition == partition
                 && letter.originalOffset == offset && letter.originalTimestamp == message.timestamp
                 && letter.originalValue == message.value && (error.Some? ==> letter.error == error.value))
        && var tried := old(Snapshot()).(calls := old(calls).(send := old(calls).send + 1));
           var done := Record(tried, partition, offset, DeadLettered(old(calls.send)));
           Snapshot() == match how
             case Sent => done.(letters := old(letters) + [LetterFor(env, partition, offset, error)])
             case KafkaFailure => done
             case _ => tried
    {
      var message := env.log(partition, offset);
      var text := if error.Some? then error.value else "None";
      var how := env.send(calls.send);
      if how == Sent || how == KafkaFailure {
        outcomes := outcomes + {(partition, offset, DeadLettered(calls.send))};
      }
      calls := calls.(send := calls.send + 1);
      if how == Sent {
        letters := letters + [DeadLetter(message.topic, partition, offset, message.timestamp, message.value, text)];
      }
      e := match how case OtherFailure => Failed case SendKilled => Dead case _ => Done;
    }

    /** The body of the `try`: process, then commit; `error` is what an exception says. */
    method TryMessage(partition: nat, offset: nat) returns (e: Exit, error: string)
      modifies this`world, this`calls, this`outcomes, this`committed, this`acknowledged
      ensures (Snapshot(), e) == Attempt(env, old(Snapshot()), partition, offset)
      ensures e == Failed ==> error == Reason(env, Now(old(Snapshot())), partition, offset)
    {
      var r := ProcessMessage(partition, offset);
      match r
      case Killed => e, error := Dead, "";
      case Raised(text) => e, error := Failed, text;
      case Ended(_) => e, error := CommitOffsets();
    }

    /** Once all retries are used up: the dead letter, if configured, and the commit. */
    method Resign(partition: nat, offset: nat, lastError: Option<string>) returns (e: Exit)
      modifies this`calls, this`letters, this`outcomes, this`committed, this`acknowledged
      ensures (Snapshot(), e) == GiveUp(env, cfg, old(Snapshot()), partition, offset, lastError)
    {
      if cfg.deadLetters {
        e := SendToDeadLetters(partition, offset, lastError);
        if e != Done {
          return;
        }
      } else {
        outcomes := outcomes + {(partition, offset, Discarded)};
      }
      var error;
      e, error := CommitOffsets();
    }

    /** Attempts in a loop; the first one whose process and commit both work ends it. */
    method ProcessWithRetry(partition: nat, offset: nat) returns (e: Exit)
      modifies this`world, this`calls, this`letters, this`outcomes, this`committed, this`acknowledged, this`slept
      ensures (Snapshot(), e) == Retry(env, cfg, old(Snapshot()), partition, offset, 1, None)
    {
      hide Attempt, GiveUp, Reason;
      var lastError := None;
      var attempt: nat := 1;
      while attempt <= cfg.maxRetries
        invariant attempt >= 1
        invariant Retry(env, cfg, Snapshot(), partition, offset, attempt, lastError)
               == Retry(env, cfg, old(Snapshot()), partition, offset, 1, None)
        decreases cfg.maxRetries - attempt
      {
        var error;
        e, error := TryMessage(partition, offset);
        if e != Failed {
          return;
        }
        lastError := Some(error);
        if attempt < cfg.maxRetries {
          slept := slept + Pause(attempt);
        }
        attempt := attempt + 1;
      }
      e := Resign(partition, offset, lastError);
    }

    /** `run`: start, take messages until a stop or a failure, and stop in every case but a kill. */
    method Run(life: Lifetime) returns (end: RunEnd)
      modifies this
      ensures (Snapshot(), end) == RunOnce(env, cfg, old(Snapshot()), life)
      ensures life.start == NotStarted ==> healthy == old(healthy) && stopRequested == old(stopRequested)
      ensures life.start == HalfStarted ==> healthy && !stopRequested
      ensures life.start == Started && end != KilledMidway ==> !healthy && stopRequested
      ensures end == Ran ==> forall p: nat :: At(position, p) == At(old(position), p) + CountOf(life.arrivals, p)
      ensures end.Stopped? ==> exists i :: 0 <= i < |life.arrivals| && life.arrivals[i].stopRequested
    {
      if life.start == NotStarted {
        return Propagated;
      }
      stopRequested, healthy := false, true;
      if life.start == HalfStarted {
        return Propagated;                       // outside the `try`: nothing stops the consumer
      }
      end := Loop(life.arrivals);
      if end != KilledMidway {
        // `stop` sets these before anything in it can raise.
        stopRequested, healthy := true, false;
        end := if life.stops then end else Propagated;
      }
      ghost var before := old(Snapshot());
      ghost var states := RunTrace(env, cfg, before, life.arrivals);
      if end == Ran {
        forall p: nat ensures At(position, p) == At(old(position), p) + CountOf(life.arrivals, p) {
          RunHandlesAll(env, cfg, before, life.arrivals, p);
        }
      }
    }

    method Loop(arrivals: seq<Arrival>) returns (end: RunEnd)
      requires !stopRequested
      modifies this
      ensures (Snapshot(), end) == RunLoop(env, cfg, old(Snapshot()), arrivals)
    {
      hide Retry;
      var i := 0;
      while i < |arrivals|
        invariant 0 <= i <= |arrivals| && !stopRequested
        invariant RunLoop(env, cfg, Snapshot(), arrivals[i..]) == RunLoop(env, cfg, old(Snapshot()), arrivals)
      {
        assert arrivals[i..][0] == arrivals[i] && arrivals[i..][1..] == arrivals[i + 1..];
        var partition := arrivals[i].partition;
        var offset := At(position, partition);
        position := position[partition := offset + 1];
        stopRequested := arrivals[i].stopRequested;
        if stopRequested {
          return Stopped(partition, offset);
        }
        var e := ProcessWithRetry(partition, offset);
        if e != Done {
          return if e == Failed then Propagated else KilledMidway;
        }
        i := i + 1;
      }
      end := Ran;
    }
  }
}
