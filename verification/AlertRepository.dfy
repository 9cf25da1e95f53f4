/** Creating and reviewing alerts, and the figures derived from them. */
module AlertRepository {
  import opened Wrappers
  import opened AlertState
  import opened Tables
  import opened Database
  import ReferenceNumbers

  const SYSTEM_REVIEWER: Reviewer := Reviewer("system:auto-escalation", "System")

  // What the evaluation hands over for a new alert.
  datatype Draft = Draft(
    transactionId: nat, customerId: string, riskScore: int,
    decision: Decision, decisionTier: string, decisionTierDescription: string)

  function NewAlert(id: nat, number: nat, draft: Draft, createdAt: int): Alert {
    Alert(id, draft.transactionId, ReferenceNumbers.Format(number), draft.customerId,
          draft.riskScore, draft.decision, draft.decisionTier, draft.decisionTierDescription,
          Pending, None, None, None, None, createdAt)
  }

  function IndexOf(alerts: seq<Alert>, id: nat): (r: Option<nat>)
    ensures r.Some? ==> r.value < |alerts| && alerts[r.value].id == id
    ensures r.None? ==> forall a | a in alerts :: a.id != id
  {
    if alerts == [] then None
    else if alerts[0].id == id then Some(0)
    else
      var later := IndexOf(alerts[1..], id);
      if later.None? then None else Some(later.value + 1)
  }

  predicate DistinctIds(alerts: seq<Alert>) {
    forall i, j | 0 <= i < j < |alerts| :: alerts[i].id != alerts[j].id
  }

  function Stamp(a: Alert, status: Status, reviewer: Reviewer, notes: Option<string>, at: int): Alert {
    a.(status := status, reviewedBy := Some(reviewer.id), reviewedByUsername := Some(reviewer.username),
       reviewedAt := Some(at), reviewNotes := notes)
  }

  datatype ReviewOutcome =
    | NotFound
    | Rejected(error: ReviewError)
    | Reviewed(index: nat, alert: Alert)

  /** What `review` answers, and the row it writes when it accepts. */
  function ReviewOf(
      alerts: seq<Alert>, id: nat, status: Status, reviewer: Reviewer, notes: Option<string>, at: int)
    : (r: ReviewOutcome)
    ensures r.Reviewed? ==> r.index < |alerts| && alerts[r.index].id == id
  {
    var found := IndexOf(alerts, id);
    if found.None? then NotFound
    else
      var current := alerts[found.value];
      var refusal := ValidateTransition(current.status, status);
      if refusal.Some? then Rejected(refusal.value)
      else Reviewed(found.value, Stamp(current, status, reviewer, notes, at))
  }

  function ReviewRows(
      alerts: seq<Alert>, id: nat, status: Status, reviewer: Reviewer, notes: Option<string>, at: int): seq<Alert>
  {
    match ReviewOf(alerts, id, status, reviewer, notes, at)
    case Reviewed(index, alert) => alerts[index := alert]
    case _ => alerts
  }

  /** Reviewer and time are recorded exactly on alerts that left PENDING. */
  predicate AuditConsistent(a: Alert) {
    && (a.status != Pending <==> a.reviewedBy.Some?)
    && (a.status != Pending <==> a.reviewedByUsername.Some?)
    && (a.status != Pending <==> a.reviewedAt.Some?)
    && (a.status == Pending ==> a.reviewNotes == None)
  }

  // The columns no review ever writes.
  predicate SameOrigin(a: Alert, b: Alert) {
    a == b.(status := a.status, reviewedBy := a.reviewedBy, reviewedByUsername := a.reviewedByUsername,
            reviewedAt := a.reviewedAt, reviewNotes := a.reviewNotes)
  }

  /**
   A review touches at most the one alert it names, and of that alert only status and
   audit columns; the status moves along the lifecycle, or nothing at all changes.
   */
  lemma ReviewStep(alerts: seq<Alert>, id: nat, status: Status, reviewer: Reviewer, notes: Option<string>, at: int)
    ensures var after := ReviewRows(alerts, id, status, reviewer, notes, at);
      && |after| == |alerts|
      && (forall i | 0 <= i < |alerts| :: SameOrigin(after[i], alerts[i]))
      && (forall i | 0 <= i < |alerts| && alerts[i].id != id :: after[i] == alerts[i])
      && (forall i | 0 <= i < |alerts| && AuditConsistent(alerts[i]) :: AuditConsistent(after[i]))
      && (forall i | 0 <= i < |alerts| && after[i] != alerts[i] ::
            after[i].status == status && status in AllowedTransitions(alerts[i].status))
      && (!ReviewOf(alerts, id, status, reviewer, notes, at).Reviewed? ==> after == alerts)
  {
    RankFalls(Pending, status);
    RankFalls(Escalated, status);
  }

  /** The columns an accepted review writes, and that it writes no others. */
  predicate ReviewedRow(
      before: Alert, after: Alert, status: Status, reviewer: Reviewer, notes: Option<string>, at: int)
  {
    && after.status == status
    && after.reviewedBy == Some(reviewer.id) && after.reviewedByUsername == Some(reviewer.username)
    && after.reviewedAt == Some(at) && after.reviewNotes == notes
    && after.id == before.id && after.transactionId == before.transactionId
    && after.referenceNumber == before.referenceNumber && after.customerId == before.customerId
    && after.riskScore == before.riskScore && after.decision == before.decision
    && after.decisionTier == before.decisionTier
    && after.decisionTierDescription == before.decisionTierDescription && after.createdAt == before.createdAt
  }

  lemma {:induction false} IndexOfDistinct(alerts: seq<Alert>, i: nat)
    requires DistinctIds(alerts) && i < |alerts|
    ensures IndexOf(alerts, alerts[i].id) == Some(i)
  {
    if i > 0 {
      assert alerts[0].id != alerts[i].id;
      IndexOfDistinct(alerts[1..], i - 1);
    }
  }

  /**
   A review of a stored alert is accepted exactly if the lifecycle allows the move; the
   row then has the new status, the reviewer's id and name, the time and the notes. It is
   answered with that row, a refusal with what would have been allowed.
   */
  lemma ReviewWrites(alerts: seq<Alert>, i: nat, status: Status, reviewer: Reviewer, notes: Option<string>, at: int)
    requires DistinctIds(alerts) && i < |alerts|
    ensures var row := alerts[i];
      var r := ReviewOf(alerts, row.id, status, reviewer, notes, at);
      var after := ReviewRows(alerts, row.id, status, reviewer, notes, at);
      if (row.status == Pending && status != Pending) || (row.status == Escalated && status in {Confirmed, Dismissed})
      then
        && r.Reviewed? && r.index == i && |after| == |alerts| && after[i] == r.alert
        && ReviewedRow(row, after[i], status, reviewer, notes, at)
      else r == Rejected(NotAllowed(row.status, status, AllowedTransitions(row.status))) && after == alerts
  {
    IndexOfDistinct(alerts, i);
    TransitionsExactly(alerts[i].status, status);
  }

  /** The columns of a new alert. */
  lemma NewAlertFields(id: nat, number: nat, draft: Draft, createdAt: int)
    ensures var a := NewAlert(id, number, draft, createdAt);
      && a.id == id && a.referenceNumber == ReferenceNumbers.Format(number) && a.createdAt == createdAt
      && a.transactionId == draft.transactionId && a.customerId == draft.customerId
      && a.riskScore == draft.riskScore && a.decision == draft.decision
      && a.decisionTier == draft.decisionTier && a.decisionTierDescription == draft.decisionTierDescription
      && a.status == Pending && a.reviewedBy == None && a.reviewedByUsername == None
      && a.reviewedAt == None && a.reviewNotes == None
  {
  }

  // ----- derived figures -----

  function CountStatus(alerts: seq<Alert>, s: Status): nat {
    if alerts == [] then 0
    else CountStatus(alerts[..|alerts| - 1], s) + if alerts[|alerts| - 1].status == s then 1 else 0
  }

  /** SELECT status, count(*) GROUP BY status: only statuses that occur have a bucket. */
  function ByStatus(alerts: seq<Alert>): map<Status, nat> {
    map s | s in {Pending, Escalated, Confirmed, Dismissed} && CountStatus(alerts, s) > 0 :: CountStatus(alerts, s)
  }

  function Bucket(buckets: map<Status, nat>, s: Status): nat {
    if s in buckets then buckets[s] else 0
  }

  /** `sum(by_status.values())`. */
  function Total(buckets: map<Status, nat>): nat {
    Bucket(buckets, Pending) + Bucket(buckets, Escalated) + Bucket(buckets, Confirmed) + Bucket(buckets, Dismissed)
  }

  function PendingCount(alerts: seq<Alert>): nat {
    |set i | 0 <= i < |alerts| && alerts[i].status == Pending|
  }

  lemma {:induction false} StatusCountsAddUp(alerts: seq<Alert>)
    ensures CountStatus(alerts, Pending) + CountStatus(alerts, Escalated) +
            CountStatus(alerts, Confirmed) + CountStatus(alerts, Dismissed) == |alerts|
  {
    if alerts != [] {
      StatusCountsAddUp(alerts[..|alerts| - 1]);
    }
  }

  lemma {:induction false} CountIsCardinality(alerts: seq<Alert>, s: Status)
    ensures CountStatus(alerts, s) == |set i | 0 <= i < |alerts| && alerts[i].status == s|
  {
    var all := set i | 0 <= i < |alerts| && alerts[i].status == s;
    if alerts != [] {
      var n := |alerts| - 1;
      var front := alerts[..n];
      CountIsCardinality(front, s);
      var less := set i | 0 <= i < |front| && front[i].status == s;
      if alerts[n].status == s {
        assert all == less + {n};
      } else {
        assert all == less;
      }
    }
  }

  /** The buckets sum to the number of alerts, and the pending count is its bucket. */
  lemma StatsConserve(alerts: seq<Alert>)
    ensures Total(ByStatus(alerts)) == |alerts|
    ensures PendingCount(alerts) == Bucket(ByStatus(alerts), Pending)
    ensures forall s :: Bucket(ByStatus(alerts), s) == CountStatus(alerts, s)
  {
    StatusCountsAddUp(alerts);
    CountIsCardinality(alerts, Pending);
  }

  lemma {:induction false} CountAfterUpdate(alerts: seq<Alert>, i: nat, a: Alert, s: Status)
    requires i < |alerts|
    ensures CountStatus(alerts[i := a], s) ==
            CountStatus(alerts, s) - (if alerts[i].status == s then 1 else 0) + (if a.status == s then 1 else 0)
  {
    var n := |alerts| - 1;
    if i == n {
      assert alerts[i := a][..n] == alerts[..n];
    } else {
      CountAfterUpdate(alerts[..n], i, a, s);
      assert alerts[i := a][..n] == alerts[..n][i := a];
    }
  }

  /** An accepted review moves exactly one unit from the old status's bucket to the new one's. */
  lemma ReviewMovesOneUnit(
      alerts: seq<Alert>, id: nat, status: Status, reviewer: Reviewer, notes: Option<string>, at: int)
    requires ReviewOf(alerts, id, status, reviewer, notes, at).Reviewed?
    ensures var before := alerts[ReviewOf(alerts, id, status, reviewer, notes, at).index].status;
      var after := ReviewRows(alerts, id, status, reviewer, notes, at);
      && before != status
      && forall s :: CountStatus(after, s) ==
                     CountStatus(alerts, s) - (if s == before then 1 else 0) + (if s == status then 1 else 0)
  {
    var r := ReviewOf(alerts, id, status, reviewer, notes, at);
    forall s
      ensures CountStatus(alerts[r.index := r.alert], s) == CountStatus(alerts, s)
                - (if s == alerts[r.index].status then 1 else 0) + (if s == status then 1 else 0)
    {
      CountAfterUpdate(alerts, r.index, r.alert, s);
    }
  }

  // ----- daily volume; times are microseconds since the epoch, UTC -----

  const DAY: int := 86_400_000_000

  function DateOf(t: int): int {
    t / DAY
  }

  /** A date is the 24 hours of one UTC day, dates being counted from 1 January 1970. */
  lemma DatesAreDays(t: int, date: int)
    ensures DateOf(t) == date <==> date * 24 * 60 * 60 * 1_000_000 <= t < (date + 1) * 24 * 60 * 60 * 1_000_000
  {
    assert t == DateOf(t) * DAY + t % DAY;
    assert DateOf(t) < date ==> (DateOf(t) + 1) * DAY <= date * DAY;
    assert DateOf(t) > date ==> DateOf(t) * DAY >= (date + 1) * DAY;
  }

  function CountOn(alerts: seq<Alert>, cutoff: int, day: int): nat {
    |set i | 0 <= i < |alerts| && alerts[i].createdAt >= cutoff && DateOf(alerts[i].createdAt) == day|
  }

  /** SELECT date, count(*) WHERE created_at >= cutoff GROUP BY date. */
  function VolumeByDay(alerts: seq<Alert>, cutoff: int): map<int, nat> {
    var days := set a | a in alerts && a.createdAt >= cutoff :: DateOf(a.createdAt);
    map d | d in days :: CountOn(alerts, cutoff, d)
  }

  datatype DayCount = DayCount(date: int, alerts: nat)

  /** `get_daily_volume(days)`: the clock reads `now` for the cutoff and `later` for today's date. */
  function DailyVolume(alerts: seq<Alert>, now: int, later: int, days: int): seq<DayCount> {
    var volume := VolumeByDay(alerts, now - days * DAY);
    var today := DateOf(later);
    seq(if days < 0 then 0 else days, i requires i >= 0 =>
      var date := today - (days - 1 - i);
      DayCount(date, if date in volume then volume[date] else 0))
  }

  lemma CutoffBeforeFirstDay(now: int, later: int, days: int, t: int)
    requires now <= later && DateOf(t) > DateOf(later) - days
    ensures t >= now - days * DAY
  {
    assert now < (DateOf(later) + 1) * DAY;
    assert t >= DateOf(t) * DAY >= (DateOf(later) - days + 1) * DAY;
  }

  /**
   The series has one entry for each of the last `days` dates, ascending and ending
   today, and each entry counts all alerts of its date: the cutoff never cuts into a
   displayed day, even when midnight passes between the two clock reads.
   */
  lemma DailyVolumeIsExact(alerts: seq<Alert>, now: int, later: int, days: int)
    requires now <= later
    ensures var series := DailyVolume(alerts, now, later, days);
      && |series| == (if days < 0 then 0 else days)
      && (forall i | 0 <= i < |series| :: series[i].date == DateOf(later) - (|series| - 1 - i))
      && (forall i | 0 <= i < |series| ::
            series[i].alerts == |set k | 0 <= k < |alerts| && DateOf(alerts[k].createdAt) == series[i].date|)
  {
    var series := DailyVolume(alerts, now, later, days);
    var cutoff := now - days * DAY;
    forall i | 0 <= i < |series|
      ensures series[i].alerts == |set k | 0 <= k < |alerts| && DateOf(alerts[k].createdAt) == series[i].date|
    {
      var date := series[i].date;
      var counted := set k | 0 <= k < |alerts| && alerts[k].createdAt >= cutoff && DateOf(alerts[k].createdAt) == date;
      var all := set k | 0 <= k < |alerts| && DateOf(alerts[k].createdAt) == date;
      forall k | k in all ensures k in counted {
        CutoffBeforeFirstDay(now, later, days, alerts[k].createdAt);
      }
      assert counted == all;
      if counted != {} {
        var k :| k in counted;
        assert alerts[k] in alerts;
        assert date in VolumeByDay(alerts, cutoff);
      }
    }
  }

  class Repository {
    const session: Session

    constructor (session: Session)
      ensures this.session == session
    {
      this.session := session;
    }

    method Create(draft: Draft, createdAt: int) returns (r: Result<Alert, DbError>)
      modifies session`working, session`ids, session`step, session`sequence
      ensures session.step > old(session.step)
      ensures old(session.ids) <= session.ids <= old(session.ids) + 1
      ensures old(session.sequence) <= session.sequence <= old(session.sequence) + 1
      ensures r.Success? <==> session.Clean(old(session.step), session.step)
      ensures r.Success? ==>
        && session.sequence == old(session.sequence) + 1 && session.ids == old(session.ids) + 1
        && r.value == NewAlert(old(session.ids), session.sequence, draft, createdAt)
        && session.working == old(session.working).(alerts := old(session.working.alerts) + [r.value])
    {
      var number := session.NextVal();
      if number.Failure? { return Failure(StatementFailed); }
      var id := session.NewId();
      var alert := NewAlert(id, number.value, draft, createdAt);
      session.working := session.working.(alerts := session.working.alerts + [alert]);
      var ok := session.Execute();                       // flush
      if ok { ok := session.Execute(); }                 // refresh
      if !ok { return Failure(StatementFailed); }
      r := Success(alert);
    }

    method Review(id: nat, status: Status, reviewer: Reviewer, notes: Option<string>, at: int)
      returns (r: Result<ReviewOutcome, DbError>)
      modifies session`working, session`step
      ensures session.step > old(session.step)
      ensures r.Success? <==> session.Clean(old(session.step), session.step)
      ensures r.Success? ==>
        && r.value == ReviewOf(old(session.working.alerts), id, status, reviewer, notes, at)
        && session.working == old(session.working).(alerts :=
             ReviewRows(old(session.working.alerts), id, status, reviewer, notes, at))
    {
      var ok := session.Execute();                       // get_by_id
      if !ok { return Failure(StatementFailed); }
      var alerts := session.working.alerts;
      var found := IndexOf(alerts, id);
      if found.None? {
        return Success(NotFound);
      }
      var refusal := ValidateTransition(alerts[found.value].status, status);
      if refusal.Some? {
        return Success(Rejected(refusal.value));
      }
      var alert := Stamp(alerts[found.value], status, reviewer, notes, at);
      session.working := session.working.(alerts := alerts[found.value := alert]);
      ok := session.Execute();                           // flush
      if ok { ok := session.Execute(); }                 // refresh
      if !ok { return Failure(StatementFailed); }
      r := Success(Reviewed(found.value, alert));
    }
  }
}
