/**
 Whole histories of the database: committed evaluations, evaluations that were rolled
 back, analyst reviews and configuration updates, in any order.
 */
module DatabaseRuns {
  import opened Wrappers
  import opened AlertState
  import opened Tables
  import opened FraudDetector
  import opened TransactionRepository
  import opened Evaluation
  import Alerts = AlertRepository
  import Config = ConfigStore
  import ReferenceNumbers
  import Decimal

  datatype Step =
    | Evaluation(input: Input)
    | RolledBack(numbers: nat, ids: nat)    // the sequence values and ids it used up
    | AnalystReview(id: nat, status: Status, reviewer: Reviewer, notes: Option<string>, at: int)
    | Configuration(body: Config.UpdateRequest)

  function Apply(d: Db, s: Step): Db {
    match s
    case Evaluation(input) => Evaluated(d, input)
    case RolledBack(numbers, ids) => Db(d.tables, d.sequence + numbers, d.ids + ids)
    case AnalystReview(id, status, reviewer, notes, at) =>
      d.(tables := d.tables.(alerts := Alerts.ReviewRows(d.tables.alerts, id, status, reviewer, notes, at)))
    case Configuration(body) => d.(tables := d.tables.(config := Config.Updated(d.tables.config, body)))
  }

  function Replay(d: Db, steps: seq<Step>): Db {
    if steps == [] then d else Apply(Replay(d, steps[..|steps| - 1]), steps[|steps| - 1])
  }

  // ----- integrity of the tables -----

  predicate DistinctTransactionIds(rows: seq<Transaction>) {
    forall i, j | 0 <= i < j < |rows| :: rows[i].id != rows[j].id
  }

  predicate HasRow(rows: seq<Transaction>, id: nat) {
    exists j :: 0 <= j < |rows| && rows[j].id == id
  }

  /** Each alert belongs to a stored transaction. */
  predicate References(rows: seq<Transaction>, alerts: seq<Alert>) {
    forall i | 0 <= i < |alerts| :: HasRow(rows, alerts[i].transactionId)
  }

  /** The sequence value an alert's reference number was made from. */
  function NumberOf(a: Alert): nat {
    var n := ReferenceNumbers.Parse(a.referenceNumber);
    if n.Some? then n.value else 0
  }

  predicate Numbered(alerts: seq<Alert>, sequence: nat) {
    forall i | 0 <= i < |alerts| ::
      1 <= NumberOf(alerts[i]) <= sequence && alerts[i].referenceNumber == ReferenceNumbers.Format(NumberOf(alerts[i]))
  }

  predicate DistinctNumbers(alerts: seq<Alert>) {
    forall i, j | 0 <= i < j < |alerts| :: NumberOf(alerts[i]) != NumberOf(alerts[j])
  }

  predicate Audited(alerts: seq<Alert>) {
    forall i | 0 <= i < |alerts| :: Alerts.AuditConsistent(alerts[i])
  }

  // An alert exists only for a score its decision calls for.
  predicate Justified(alerts: seq<Alert>) {
    forall i | 0 <= i < |alerts| ::
      && 40 <= alerts[i].riskScore <= 100
      && alerts[i].decision == DecisionFor(alerts[i].riskScore)
  }

  predicate Sound(d: Db) {
    && FreshIds(d)
    && UniqueExternalIds(d.tables.transactions) && DistinctTransactionIds(d.tables.transactions)
    && References(d.tables.transactions, d.tables.alerts)
    && Alerts.DistinctIds(d.tables.alerts)
    && Numbered(d.tables.alerts, d.sequence) && DistinctNumbers(d.tables.alerts)
    && Audited(d.tables.alerts) && Justified(d.tables.alerts)
  }

  /** A database without transactions and alerts is sound. */
  lemma EmptyIsSound(d: Db)
    requires d.tables.transactions == [] && d.tables.alerts == []
    ensures Sound(d) && forall e :: AlertsUnder(d, e) == 0
  {
  }

  lemma UpsertKeepsTransactions(d: Db, input: Input)
    requires FreshIds(d) && UniqueExternalIds(d.tables.transactions) && DistinctTransactionIds(d.tables.transactions)
    ensures var rows := UpsertRows(d.tables.transactions, input.request, d.ids, input.at.received);
      && UniqueExternalIds(rows) && DistinctTransactionIds(rows)
      && d.tables.transactions <= rows
      && UpsertedRow(d.tables.transactions, input.request, d.ids, input.at.received) in rows
  {
    UpsertStep(d.tables.transactions, input.request, d.ids, input.at.received);
  }

  lemma FinalAlertFields(d: Db, input: Input)
    ensures FinalAlert(d, input).referenceNumber == ReferenceNumbers.Format(d.sequence + 1)
    ensures FinalAlert(d, input).id == d.ids + 1
    ensures FinalAlert(d, input).riskScore == input.score && FinalAlert(d, input).decision == DecisionFor(input.score)
    ensures FinalAlert(d, input).transactionId ==
            UpsertedRow(d.tables.transactions, input.request, d.ids, input.at.received).id
  {
    hide ReferenceNumbers.Format, UpsertedRow, DecisionFor;
  }

  lemma FinalAlertIsNumbered(d: Db, input: Input)
    ensures NumberOf(FinalAlert(d, input)) == d.sequence + 1
    ensures FinalAlert(d, input).referenceNumber == ReferenceNumbers.Format(d.sequence + 1)
    ensures FinalAlert(d, input).id == d.ids + 1
    ensures FinalAlert(d, input).riskScore == input.score && FinalAlert(d, input).decision == DecisionFor(input.score)
    ensures FinalAlert(d, input).transactionId ==
            UpsertedRow(d.tables.transactions, input.request, d.ids, input.at.received).id
  {
    hide ReferenceNumbers.Format, ReferenceNumbers.Parse, UpsertedRow, FinalAlert, DecisionFor;
    FinalAlertFields(d, input);
    ReferenceNumbers.ParseFormat(d.sequence + 1);
  }

  lemma AppendKeepsSound(rows: seq<Transaction>, alerts: seq<Alert>, a: Alert, sequence: nat, ids: nat)
    requires forall b | b in alerts :: b.id < ids
    requires References(rows, alerts) && Alerts.DistinctIds(alerts)
    requires Numbered(alerts, sequence) && DistinctNumbers(alerts) && Audited(alerts) && Justified(alerts)
    requires HasRow(rows, a.transactionId)
    requires a.id >= ids && NumberOf(a) == sequence + 1
    requires a.referenceNumber == ReferenceNumbers.Format(sequence + 1) && Alerts.AuditConsistent(a)
    requires 40 <= a.riskScore <= 100 && a.decision == DecisionFor(a.riskScore)
    ensures References(rows, alerts + [a]) && Alerts.DistinctIds(alerts + [a])
    ensures Numbered(alerts + [a], sequence + 1) && DistinctNumbers(alerts + [a])
    ensures Audited(alerts + [a]) && Justified(alerts + [a])
  {
    var grown := alerts + [a];
    forall i, j | 0 <= i < j < |grown|
      ensures grown[i].id != grown[j].id && NumberOf(grown[i]) != NumberOf(grown[j])
    {
      assert alerts[i] in alerts;
    }
  }

  lemma MoreRowsKeepReferences(rows: seq<Transaction>, more: seq<Transaction>, alerts: seq<Alert>)
    requires References(rows, alerts) && rows <= more
    ensures References(more, alerts)
  {
    forall i | 0 <= i < |alerts|
      ensures HasRow(more, alerts[i].transactionId)
    {
      assert HasRow(rows, alerts[i].transactionId);
      var j :| 0 <= j < |rows| && rows[j].id == alerts[i].transactionId;
      assert more[j] == rows[j];
    }
  }

  lemma EvaluationKeepsSound(d: Db, input: Input)
    requires Sound(d)
    ensures Sound(Evaluated(d, input))
  {
    OutcomeOfEvaluation(d, input);
    EvaluationKeepsFreshIds(d, input);
    UpsertKeepsTransactions(d, input);
    FinalAlertIsNumbered(d, input);
    var rows := UpsertRows(d.tables.transactions, input.request, d.ids, input.at.received);
    MoreRowsKeepReferences(d.tables.transactions, rows, d.tables.alerts);
    if input.score >= 40 {
      var row := UpsertedRow(d.tables.transactions, input.request, d.ids, input.at.received);
      var j :| 0 <= j < |rows| && rows[j] == row;
      assert rows[j].id == FinalAlert(d, input).transactionId;
      AppendKeepsSound(rows, d.tables.alerts, FinalAlert(d, input), d.sequence, d.ids);
    }
  }

  lemma SameOriginKeepsSound(alerts: seq<Alert>, after: seq<Alert>, rows: seq<Transaction>, sequence: nat, ids: nat)
    requires |after| == |alerts| && forall i | 0 <= i < |alerts| :: Alerts.SameOrigin(after[i], alerts[i])
    requires forall i | 0 <= i < |alerts| :: Alerts.AuditConsistent(after[i])
    requires forall b | b in alerts :: b.id < ids
    requires References(rows, alerts) && Alerts.DistinctIds(alerts)
    requires Numbered(alerts, sequence) && DistinctNumbers(alerts) && Justified(alerts)
    ensures forall b | b in after :: b.id < ids
    ensures References(rows, after) && Alerts.DistinctIds(after)
    ensures Numbered(after, sequence) && DistinctNumbers(after) && Audited(after) && Justified(after)
  {
    forall b | b in after ensures b.id < ids {
      var i :| 0 <= i < |after| && after[i] == b;
      assert alerts[i] in alerts && Alerts.SameOrigin(after[i], alerts[i]);
    }
    forall i | 0 <= i < |after|
      ensures after[i].transactionId == alerts[i].transactionId && after[i].id == alerts[i].id
      ensures NumberOf(after[i]) == NumberOf(alerts[i]) && after[i].riskScore == alerts[i].riskScore
    {
      assert Alerts.SameOrigin(after[i], alerts[i]);
    }
  }

  lemma ReviewKeepsSound(d: Db, s: Step)
    requires Sound(d) && s.AnalystReview?
    ensures Sound(Apply(d, s))
  {
    Alerts.ReviewStep(d.tables.alerts, s.id, s.status, s.reviewer, s.notes, s.at);
    SameOriginKeepsSound(d.tables.alerts, Apply(d, s).tables.alerts, d.tables.transactions, d.sequence, d.ids);
  }

  /**
   In every state reachable from a sound one: external ids, row ids and reference numbers are unique,
   every alert refers to a stored transaction, has a score of at least 40 with the matching
   decision, and carries reviewer and time exactly when it is no longer PENDING.
   */
  lemma {:induction false} AlwaysSound(d: Db, steps: seq<Step>)
    requires Sound(d)
    ensures Sound(Replay(d, steps))
  {
    if steps != [] {
      var earlier, s := Replay(d, steps[..|steps| - 1]), steps[|steps| - 1];
      AlwaysSound(d, steps[..|steps| - 1]);
      match s {
        case Evaluation(input) => EvaluationKeepsSound(earlier, input);
        case RolledBack(_, _) =>
        case AnalystReview(_, _, _, _, _) => ReviewKeepsSound(earlier, s);
        case Configuration(_) =>
      }
    }
  }

  /** Reference numbers, compared as text, are pairwise distinct in every reachable state. */
  lemma ReferencesDistinct(d: Db, steps: seq<Step>, i: nat, j: nat)
    requires Sound(d) && i < j < |Replay(d, steps).tables.alerts|
    ensures Replay(d, steps).tables.alerts[i].referenceNumber != Replay(d, steps).tables.alerts[j].referenceNumber
  {
    AlwaysSound(d, steps);
    var alerts := Replay(d, steps).tables.alerts;
    assert NumberOf(alerts[i]) != NumberOf(alerts[j]);
    ReferenceNumbers.FormatInjective(NumberOf(alerts[i]), NumberOf(alerts[j]));
  }

  // ----- conservation: alerts against evaluations -----

  function AlertsFor(alerts: seq<Alert>, transactionId: nat): nat {
    if alerts == [] then 0
    else AlertsFor(alerts[..|alerts| - 1], transactionId)
         + if alerts[|alerts| - 1].transactionId == transactionId then 1 else 0
  }

  // Does this step commit an evaluation of the id that calls for an alert?
  predicate CallsForAlert(s: Step, externalId: string) {
    s.Evaluation? && s.input.request.externalId == externalId && DecisionFor(s.input.score) != Approve
  }

  /** Committed evaluations of an external id that called for an alert. */
  function AlertingEvaluations(steps: seq<Step>, externalId: string): nat {
    if steps == [] then 0
    else
      AlertingEvaluations(steps[..|steps| - 1], externalId)
      + if CallsForAlert(steps[|steps| - 1], externalId) then 1 else 0
  }

  lemma {:induction false} AlertsForSameOrigin(alerts: seq<Alert>, after: seq<Alert>, id: nat)
    requires |after| == |alerts| && forall i | 0 <= i < |alerts| :: after[i].transactionId == alerts[i].transactionId
    ensures AlertsFor(after, id) == AlertsFor(alerts, id)
  {
    if alerts != [] {
      AlertsForSameOrigin(alerts[..|alerts| - 1], after[..|alerts| - 1], id);
    }
  }

  lemma {:induction false} AlertsForAppend(alerts: seq<Alert>, a: Alert, id: nat)
    ensures AlertsFor(alerts + [a], id) == AlertsFor(alerts, id) + if a.transactionId == id then 1 else 0
  {
    assert (alerts + [a])[..|alerts|] == alerts;
  }

  lemma {:induction false} NoAlertsForUnknown(alerts: seq<Alert>, id: nat)
    requires forall a | a in alerts :: a.transactionId != id
    ensures AlertsFor(alerts, id) == 0
  {
    if alerts != [] {
      NoAlertsForUnknown(alerts[..|alerts| - 1], id);
    }
  }

  /** The alerts of the transaction stored under an external id. */
  function AlertsUnder(d: Db, externalId: string): nat {
    var row := Find(d.tables.transactions, externalId);
    if row.None? then 0 else AlertsFor(d.tables.alerts, row.value.id)
  }

  lemma EvaluationCounts(d: Db, input: Input, externalId: string)
    requires Sound(d)
    ensures AlertsUnder(Evaluated(d, input), externalId) ==
            AlertsUnder(d, externalId) + if input.request.externalId == externalId && input.score >= 40 then 1 else 0
  {
    var rows := d.tables.transactions;
    OutcomeOfEvaluation(d, input);
    UpsertStep(rows, input.request, d.ids, input.at.received);
    FinalAlertIsNumbered(d, input);
    var row := UpsertedRow(rows, input.request, d.ids, input.at.received);
    var mine := Find(rows, externalId);
    if mine.None? && input.request.externalId == externalId {
      forall a | a in d.tables.alerts ensures a.transactionId != row.id {
        var i :| 0 <= i < |d.tables.alerts| && d.tables.alerts[i] == a;
        assert HasRow(rows, d.tables.alerts[i].transactionId);
        var j :| 0 <= j < |rows| && rows[j].id == d.tables.alerts[i].transactionId;
        assert rows[j] in rows;
      }
      NoAlertsForUnknown(d.tables.alerts, row.id);
    }
    if mine.Some? && input.request.externalId != externalId {
      assert mine.value.id != row.id by {
        if Find(rows, input.request.externalId).Some? {
          var i :| 0 <= i < |rows| && rows[i] == mine.value;
          var j :| 0 <= j < |rows| && rows[j] == row;
          assert i != j;
        }
      }
    }
    if mine.Some? {
      AlertsForAppend(d.tables.alerts, FinalAlert(d, input), mine.value.id);
    }
    AlertsForAppend(d.tables.alerts, FinalAlert(d, input), row.id);
  }

  lemma StepCounts(d: Db, s: Step, externalId: string)
    requires Sound(d)
    ensures AlertsUnder(Apply(d, s), externalId) == AlertsUnder(d, externalId) + if CallsForAlert(s, externalId)
        then 1 else 0
  {
    match s {
      case Evaluation(input) => EvaluationCounts(d, input, externalId);
      case RolledBack(_, _) =>
      case Configuration(_) =>
      case AnalystReview(id, status, reviewer, notes, at) =>
        Alerts.ReviewStep(d.tables.alerts, id, status, reviewer, notes, at);
        var row := Find(d.tables.transactions, externalId);
        if row.Some? {
          AlertsForSameOrigin(d.tables.alerts, Apply(d, s).tables.alerts, row.value.id);
        }
    }
  }

  /**
   Over every history, the alerts stored for a transaction grow by exactly the committed
   evaluations of its external id that were not approved: none is lost, none doubled,
   and rolled back evaluations leave none.
   */
  lemma {:induction false} AlertsMatchEvaluations(d: Db, steps: seq<Step>, externalId: string)
    requires Sound(d)
    ensures AlertsUnder(Replay(d, steps), externalId) ==
            AlertsUnder(d, externalId) + AlertingEvaluations(steps, externalId)
  {
    if steps != [] {
      var earlier := steps[..|steps| - 1];
      AlwaysSound(d, earlier);
      AlertsMatchEvaluations(d, earlier, externalId);
      hide Apply, AlertsUnder, Sound;
      StepCounts(Replay(d, earlier), steps[|steps| - 1], externalId);
    }
  }

  /** Once stored, the row of an external id never changes. */
  lemma {:induction false} StoredRowIsForever(d: Db, steps: seq<Step>, externalId: string)
    requires UniqueExternalIds(d.tables.transactions) && Find(d.tables.transactions, externalId).Some?
    ensures UniqueExternalIds(Replay(d, steps).tables.transactions)
    ensures Find(Replay(d, steps).tables.transactions, externalId) == Find(d.tables.transactions, externalId)
  {
    if steps != [] {
      var earlier, s := Replay(d, steps[..|steps| - 1]), steps[|steps| - 1];
      StoredRowIsForever(d, steps[..|steps| - 1], externalId);
      if s.Evaluation? {
        UpsertStep(earlier.tables.transactions, s.input.request, earlier.ids, s.input.at.received);
        assert Evaluated(earlier, s.input).tables.transactions
            == UpsertRows(earlier.tables.transactions, s.input.request, earlier.ids, s.input.at.received);
      }
    }
  }

  // ----- the life of one alert -----

  function StatusOf(d: Db, id: nat): Option<Status> {
    var i := Alerts.IndexOf(d.tables.alerts, id);
    if i.None? then None else Some(d.tables.alerts[i.value].status)
  }

  function RankOf(d: Db, id: nat): nat {
    var s := StatusOf(d, id);
    if s.None? then 2 else Rank(s.value)
  }

  /** How often the alert's stored status changed after it was first stored. */
  function StatusChanges(d: Db, steps: seq<Step>, id: nat): nat {
    if steps == [] then 0
    else
      var before := StatusOf(Replay(d, steps[..|steps| - 1]), id);
      StatusChanges(d, steps[..|steps| - 1], id) + if before.Some? && StatusOf(Replay(d, steps), id) != before
          then 1 else 0
  }

  lemma {:induction false} IndexOfAppend(alerts: seq<Alert>, a: Alert, id: nat)
    ensures Alerts.IndexOf(alerts + [a], id) ==
            if Alerts.IndexOf(alerts, id).Some? then Alerts.IndexOf(alerts, id)
            else if a.id == id then Some(|alerts|) else None
  {
    if alerts != [] {
      assert (alerts + [a])[1..] == alerts[1..] + [a];
      IndexOfAppend(alerts[1..], a, id);
    } else {
      assert ([a] + [])[1..] == [];
    }
  }

  lemma {:induction false} IndexOfSameIds(alerts: seq<Alert>, after: seq<Alert>, id: nat)
    requires |after| == |alerts| && forall i | 0 <= i < |alerts| :: after[i].id == alerts[i].id
    ensures Alerts.IndexOf(after, id) == Alerts.IndexOf(alerts, id)
  {
    if alerts != [] {
      IndexOfSameIds(alerts[1..], after[1..], id);
    }
  }

  /** One step moves a stored status along the lifecycle or leaves it. */
  lemma StatusStep(d: Db, s: Step, id: nat)
    requires FreshIds(d)
    ensures var before, after := StatusOf(d, id), StatusOf(Apply(d, s), id);
      before.Some? ==> after.Some? && (after == before || after.value in AllowedTransitions(before.value))
  {
    match s {
      case Evaluation(input) =>
        OutcomeOfEvaluation(d, input);
        IndexOfAppend(d.tables.alerts, FinalAlert(d, input), id);
      case AnalystReview(reviewed, status, reviewer, notes, at) =>
        Alerts.ReviewStep(d.tables.alerts, reviewed, status, reviewer, notes, at);
        var after := Apply(d, s).tables.alerts;
        forall i | 0 <= i < |after| ensures after[i].id == d.tables.alerts[i].id {
          assert Alerts.SameOrigin(after[i], d.tables.alerts[i]);
        }
        IndexOfSameIds(d.tables.alerts, after, id);
      case RolledBack(_, _) =>
      case Configuration(_) =>
    }
  }

  lemma TransitionLowersRank(s: Status, t: Status)
    requires t in AllowedTransitions(s)
    ensures Rank(t) < Rank(s) && t != Pending
  {
  }

  /**
   Over every history of evaluations, system and analyst reviews, each alert changes
   status at most twice, never comes back to PENDING and never leaves CONFIRMED or DISMISSED.
   */
  lemma {:induction false} AlertLifecycle(d: Db, steps: seq<Step>, id: nat)
    requires Sound(d)
    ensures RankOf(Replay(d, steps), id) + StatusChanges(d, steps, id) <= RankOf(d, id) <= 2
    ensures var first, last := StatusOf(d, id), StatusOf(Replay(d, steps), id);
      first.Some? ==> last.Some? && (last.value == Pending ==> first.value == Pending)
                      && (Terminal(first.value) ==> last == first)
  {
    if steps != [] {
      var earlier, s := Replay(d, steps[..|steps| - 1]), steps[|steps| - 1];
      AlwaysSound(d, steps[..|steps| - 1]);
      AlertLifecycle(d, steps[..|steps| - 1], id);
      StatusStep(earlier, s, id);
      var before, after := StatusOf(earlier, id), StatusOf(Apply(earlier, s), id);
      if before.Some? && after != before {
        TransitionLowersRank(before.value, after.value);
      }
    }
  }

  /**
   In every reachable state an analyst's review of a stored alert takes effect exactly if
   the lifecycle allows it, with the reviewer, the time and the notes in the row; every
   other alert stays as it was.
   */
  lemma ReviewTakesEffect(
      d: Db, steps: seq<Step>, i: nat, status: Status, reviewer: Reviewer, notes: Option<string>, at: int)
    requires Sound(d) && i < |Replay(d, steps).tables.alerts|
    ensures var before := Replay(d, steps).tables.alerts;
      var after := Apply(Replay(d, steps), AnalystReview(before[i].id, status, reviewer, notes, at)).tables.alerts;
      var allowed := (before[i].status == Pending && status != Pending)
                     || (before[i].status == Escalated && status in {Confirmed, Dismissed});
      && |after| == |before| && (forall j | 0 <= j < |before| && j != i :: after[j] == before[j])
      && (allowed ==> Alerts.ReviewedRow(before[i], after[i], status, reviewer, notes, at))
      && (!allowed ==> after[i] == before[i])
  {
    var before := Replay(d, steps).tables.alerts;
    AlwaysSound(d, steps);
    Alerts.ReviewWrites(before, i, status, reviewer, notes, at);
    Alerts.ReviewStep(before, before[i].id, status, reviewer, notes, at);
  }

  // ----- configuration -----

  function Bodies(steps: seq<Step>): seq<Config.UpdateRequest> {
    if steps == [] then []
    else Bodies(steps[..|steps| - 1]) + if steps[|steps| - 1].Configuration? then [steps[|steps| - 1].body] else []
  }

  lemma {:induction false} ConfigFollowsUpdates(d: Db, steps: seq<Step>)
    requires FreshIds(d)
    ensures Replay(d, steps).tables.config == Config.UpdatedAll(d.tables.config, Bodies(steps))
  {
    if steps != [] {
      var before, s := steps[..|steps| - 1], steps[|steps| - 1];
      ConfigFollowsUpdates(d, before);
      if s.Configuration? {
        assert Bodies(steps)[..|Bodies(before)|] == Bodies(before);
      } else {
        assert Bodies(steps) == Bodies(before);
      }
    }
  }

  /**
   After any history from any store, a new evaluation from score 40 up to 99 escalates its
   alert exactly when the score reaches the last configured threshold, or the one the
   store began with if none was set.
   */
  lemma EscalationUsesLastThreshold(d: Db, steps: seq<Step>, input: Input, retentionDays: int)
    requires Sound(d) && 40 <= input.score < 100
    ensures var after := Evaluated(Replay(d, steps), input).tables.alerts;
      && |after| == |Replay(d, steps).tables.alerts| + 1
      && (after[|after| - 1].status == Escalated <==>
            input.score >= Config.LastSet(Bodies(steps),
                Config.Response(Threshold(d.tables.config), retentionDays)).threshold)
      && (after[|after| - 1].status != Escalated ==> after[|after| - 1].status == Pending)
  {
    AlwaysSound(d, steps);
    Config.LastThresholdWins(d.tables.config, Bodies(steps), DEFAULT_THRESHOLD, retentionDays);
    ConfigFollowsUpdates(d, steps);
    OutcomeOfEvaluation(Replay(d, steps), input);
  }

  /** A stored threshold that is no integer counts as 90. */
  lemma UnreadableThreshold(config: Config.Rows, i: nat)
    requires Config.THRESHOLD in config && i < |config[Config.THRESHOLD].value|
    requires Decimal.IsLetterLike(config[Config.THRESHOLD].value[i])
    ensures Threshold(config) == 90
  {
    Decimal.LettersAreNoNumber(config[Config.THRESHOLD].value, i);
  }

  /** A store without rows, or with the ones the migration seeds, begins with a threshold of 90. */
  lemma FirstThreshold(d: Db)
    requires forall key | key in d.tables.config :: d.tables.config[key].value == "90"
    ensures Threshold(d.tables.config) == 90
  {
    Config.InitialStoresRead(d.tables.config);
  }
}
