/** The evaluation of one transaction as a unit of work: upsert, score, alert, escalate, commit. */
module Evaluation {
  import opened Wrappers
  import opened AlertState
  import opened Tables
  import opened Database
  import opened FraudDetector
  import opened TransactionRepository
  import Alerts = AlertRepository
  import Config = ConfigStore
  import ReferenceNumbers

  const DEFAULT_THRESHOLD: int := 90

  // The instants the clocks show while an evaluation runs.
  datatype Instants = Instants(received: int, started: int, reviewed: int)

  datatype Input = Input(request: Request, score: Score, at: Instants)

  // The database between transactions.
  datatype Db = Db(tables: Tables, sequence: nat, ids: nat)

  function Snapshot(session: Session): Db
    reads session
  {
    Db(session.committed, session.sequence, session.ids)
  }

  function DraftFor(transactionId: nat, input: Input): Alerts.Draft {
    var decision := DecisionFor(input.score);
    var tier := DECISION_TIERS[TierIndex(decision)];
    Alerts.Draft(transactionId, input.request.details.customerId, input.score, decision, tier.name, tier.description)
  }

  function Threshold(config: Config.Rows): int {
    Config.GetInt(config, Config.THRESHOLD, DEFAULT_THRESHOLD)
  }

  /** `_auto_escalate` on the alert of that id. */
  function AutoEscalated(t: Tables, id: nat, score: Score, at: int): Tables {
    if score >= 100 then
      t.(alerts := Alerts.ReviewRows(t.alerts, id, Confirmed, Alerts.SYSTEM_REVIEWER, None, at))
    else if score >= Threshold(t.config) then
      t.(alerts := Alerts.ReviewRows(t.alerts, id, Escalated, Alerts.SYSTEM_REVIEWER, None, at))
    else t
  }

  /** The tables after the upsert. */
  function Stored(d: Db, input: Input): Tables {
    d.tables.(transactions := UpsertRows(d.tables.transactions, input.request, d.ids, input.at.received))
  }

  /** The alert as created, before the system looks at it. */
  function CreatedAlert(d: Db, input: Input): Alert {
    var txn := UpsertedRow(d.tables.transactions, input.request, d.ids, input.at.received);
    Alerts.NewAlert(d.ids + 1, d.sequence + 1, DraftFor(txn.id, input), input.at.started)
  }

  /** The database after a committed evaluation. */
  function Evaluated(d: Db, input: Input): Db {
    var stored := Stored(d, input);
    if DecisionFor(input.score) == Approve then Db(stored, d.sequence, d.ids + 1)
    else
      var alert := CreatedAlert(d, input);
      Db(AutoEscalated(stored.(alerts := stored.alerts + [alert]), alert.id, input.score, input.at.reviewed),
         d.sequence + 1, d.ids + 2)
  }

  // Ids are never handed out twice.
  predicate FreshIds(d: Db) {
    && (forall a | a in d.tables.alerts :: a.id < d.ids)
    && (forall t | t in d.tables.transactions :: t.id < d.ids)
  }

  lemma {:induction false} IndexOfLast(alerts: seq<Alert>, a: Alert)
    requires forall b | b in alerts :: b.id != a.id
    ensures Alerts.IndexOf(alerts + [a], a.id) == Some(|alerts|)
  {
    if alerts != [] {
      assert alerts[0] in alerts;
      assert (alerts + [a])[1..] == alerts[1..] + [a];
      IndexOfLast(alerts[1..], a);
    }
  }

  /** The status the new alert ends the evaluation with. */
  function ExpectedStatus(score: Score, threshold: int): Status {
    if score == 100 then Confirmed else if score >= threshold then Escalated else Pending
  }

  /** An alert once the system has had its say. */
  function Escalation(a: Alert, score: Score, threshold: int, at: int): Alert {
    var status := ExpectedStatus(score, threshold);
    if status == Pending then a else Alerts.Stamp(a, status, Alerts.SYSTEM_REVIEWER, None, at)
  }

  /** The alert an evaluation leaves behind. */
  function FinalAlert(d: Db, input: Input): Alert {
    Escalation(CreatedAlert(d, input), input.score, Threshold(d.tables.config), input.at.reviewed)
  }

  /** The system's review of a fresh alert is accepted. */
  lemma FreshAlertAccepts(alerts: seq<Alert>, a: Alert, status: Status, at: int)
    requires a.status == Pending && status in {Confirmed, Escalated}
    requires forall b | b in alerts :: b.id != a.id
    ensures var r := Alerts.ReviewOf(alerts + [a], a.id, status, Alerts.SYSTEM_REVIEWER, None, at);
      && r == Alerts.Reviewed(|alerts|, Alerts.Stamp(a, status, Alerts.SYSTEM_REVIEWER, None, at))
      && Alerts.ReviewRows(alerts + [a], a.id, status, Alerts.SYSTEM_REVIEWER, None, at) == alerts + [r.alert]
  {
    IndexOfLast(alerts, a);
    assert status in AllowedTransitions(Pending);
  }

  lemma AutoEscalatedFresh(t: Tables, a: Alert, score: Score, at: int)
    requires a.status == Pending
    requires forall b | b in t.alerts :: b.id != a.id
    ensures AutoEscalated(t.(alerts := t.alerts + [a]), a.id, score, at) ==
            t.(alerts := t.alerts + [Escalation(a, score, Threshold(t.config), at)])
  {
    FreshAlertAccepts(t.alerts, a, Confirmed, at);
    FreshAlertAccepts(t.alerts, a, Escalated, at);
  }

  lemma AlertingEvaluation(d: Db, input: Input)
    requires FreshIds(d) && input.score >= 40
    ensures Evaluated(d, input) ==
            Db(Stored(d, input).(alerts := d.tables.alerts + [FinalAlert(d, input)]), d.sequence + 1, d.ids + 2)
  {
    AutoEscalatedFresh(Stored(d, input), CreatedAlert(d, input), input.score, input.at.reviewed);
  }

  /**
   A committed evaluation adds at most one alert and changes no other: one exactly from
   score 40 on, CONFIRMED at 100, ESCALATED from the configured threshold on, else
   PENDING, with audit fields in step. The system's review is never refused.
   */
  lemma OutcomeOfEvaluation(d: Db, input: Input)
    requires FreshIds(d)
    ensures var after := Evaluated(d, input);
      && after.tables.config == d.tables.config
      && after.tables.transactions == UpsertRows(d.tables.transactions, input.request, d.ids, input.at.received)
      && (input.score < 40 ==>
            after.tables.alerts == d.tables.alerts && after.sequence == d.sequence && after.ids == d.ids + 1)
      && (input.score >= 40 ==> after.tables.alerts == d.tables.alerts + [FinalAlert(d, input)]
                                && after.sequence == d.sequence + 1 && after.ids == d.ids + 2)
    ensures FinalAlert(d, input).status == ExpectedStatus(input.score, Threshold(d.tables.config))
    ensures Alerts.AuditConsistent(FinalAlert(d, input))
  {
    if input.score >= 40 {
      AlertingEvaluation(d, input);
    }
  }

  lemma EvaluationKeepsFreshIds(d: Db, input: Input)
    requires FreshIds(d)
    ensures FreshIds(Evaluated(d, input))
  {
    OutcomeOfEvaluation(d, input);
  }

  datatype EvaluationResult = EvaluationResult(
    transactionId: nat, externalId: string, riskScore: int, decision: Decision,
    decisionTier: string, decisionTierDescription: string, alertId: Option<nat>)

  datatype EvaluationError = DatabaseError(error: DbError) | EngineFailed | UnknownDecision | ReviewRefused

  /** `_auto_escalate`, answering whether it went through. */
  method AutoEscalate(
      alerts: Alerts.Repository, id: nat, score: Score, at: int)
    returns (r: Result<(), EvaluationError>)
    modifies alerts.session`working, alerts.session`step
    ensures alerts.session.step >= old(alerts.session.step)
    ensures alerts.session.Clean(old(alerts.session.step), alerts.session.step) ==>
      && (r == Failure(ReviewRefused) <==>
           (score >= 100 || score >= Threshold(old(alerts.session.working.config)))
           && Alerts.ReviewOf(old(alerts.session.working.alerts), id, if score >= 100 then Confirmed else Escalated,
                              Alerts.SYSTEM_REVIEWER, None, at).Rejected?)
      && (r.Failure? ==> r.error == ReviewRefused)
      && alerts.session.working == AutoEscalated(old(alerts.session.working), id, score, at)
    ensures !alerts.session.Clean(old(alerts.session.step), alerts.session.step) ==>
          r == Failure(DatabaseError(StatementFailed))
  {
    var target := Confirmed;
    if score < 100 {
      var config := new Config.Repository(alerts.session);
      var threshold := config.ReadInt(Config.THRESHOLD, DEFAULT_THRESHOLD);
      if threshold.Failure? { return Failure(DatabaseError(StatementFailed)); }
      if score < threshold.value {
        return Success(());
      }
      target := Escalated;
    }
    var reviewed := alerts.Review(id, target, Alerts.SYSTEM_REVIEWER, None, at);
    if reviewed.Failure? { return Failure(DatabaseError(StatementFailed)); }
    if reviewed.value.Rejected? { return Failure(ReviewRefused); }
    r := Success(());
  }

  /** Decision, tier and description of a score, as the detector answers them. */
  method Classify(score: Score) returns (decision: Option<Decision>, tier: string, description: string)
    ensures decision == Some(DecisionFor(score))
    ensures tier == DECISION_TIERS[TierIndex(DecisionFor(score))].name
    ensures description == DECISION_TIERS[TierIndex(DecisionFor(score))].description
  {
    var assessment := Assess(score);
    TiersPartitionScores(score);
    decision, tier := ToDecision(assessment.decision), GetDecisionTier(assessment);
    description := GetDecisionTierDescription(assessment);
  }

  /** Steps 6 and 7 of the evaluation: create the alert, then escalate it. */
  method RaiseAlert(session: Session, draft: Alerts.Draft, score: Score, at: Instants)
    returns (r: Result<nat, EvaluationError>)
    requires forall a | a in session.working.alerts :: a.id < session.ids
    modifies session`working, session`ids, session`step, session`sequence
    ensures session.step > old(session.step)
    ensures r.Success? <==> session.Clean(old(session.step), session.step)
    ensures r.Success? ==>
      && r.value == old(session.ids) && session.ids == old(session.ids) + 1
      && session.sequence == old(session.sequence) + 1
      && session.working == old(session.working).(alerts := old(session.working.alerts) +
           [Escalation(Alerts.NewAlert(old(session.ids), session.sequence, draft, at.started),
                       score, Threshold(old(session.working.config)), at.reviewed)])
    ensures r.Failure? ==> r.error == DatabaseError(StatementFailed)
    ensures old(session.sequence) <= session.sequence <= old(session.sequence) + 1
    ensures session.ids >= old(session.ids)
  {
    ghost var before := session.working;
    var alerts := new Alerts.Repository(session);
    var created := alerts.Create(draft, at.started);
    if created.Failure? { return Failure(DatabaseError(StatementFailed)); }
    var alert := created.value;
    FreshAlertAccepts(before.alerts, alert, Confirmed, at.reviewed);
    FreshAlertAccepts(before.alerts, alert, Escalated, at.reviewed);
    AutoEscalatedFresh(before, alert, score, at.reviewed);
    var escalated := AutoEscalate(alerts, alert.id, score, at.reviewed);
    if escalated.Failure? { return Failure(escalated.error); }
    r := Success(alert.id);
  }

  /** The answer a committed evaluation gives. */
  function ResultOf(d: Db, input: Input): EvaluationResult {
    var decision := DecisionFor(input.score);
    var tier := DECISION_TIERS[TierIndex(decision)];
    EvaluationResult(
      UpsertedRow(d.tables.transactions, input.request, d.ids, input.at.received).id,
      input.request.externalId, input.score, decision, tier.name, tier.description,
      if decision == Approve then None else Some(d.ids + 1))
  }

  /** Decision, tier and description that belong to a score, by the bounds of the tiers. */
  predicate Tiered(score: int, decision: Decision, tier: string, description: string) {
    if score < 40 then
      decision == Approve && tier == "APPROVE" && description == "Low risk - approve transaction"
    else if score < 80 then
      decision == Review && tier == "REVIEW" && description == "Medium risk - requires manual review"
    else
      decision == Flag && tier == "FLAG" && description == "High risk - flag for investigation"
  }

  /** The columns of the alert an evaluation stores, the system's review included. */
  predicate AlertOf(a: Alert, request: Request, score: Score, at: Instants, threshold: int) {
    && a.customerId == request.details.customerId && a.riskScore == score && a.createdAt == at.started
    && Tiered(score, a.decision, a.decisionTier, a.decisionTierDescription)
    && a.reviewNotes == None
    && if score < 100 && score < threshold then
         a.status == Pending && a.reviewedBy == None && a.reviewedByUsername == None && a.reviewedAt == None
       else
         && a.status == (if score == 100 then Confirmed else Escalated)
         && a.reviewedBy == Some("system:auto-escalation") && a.reviewedByUsername == Some("System")
         && a.reviewedAt == Some(at.reviewed)
  }

  /** The alert of a committed evaluation, column by column. */
  lemma StoredAlertFields(d: Db, input: Input)
    requires FreshIds(d) && input.score >= 40
    ensures var after := Evaluated(d, input).tables.alerts;
      && |after| == |d.tables.alerts| + 1 && after[..|d.tables.alerts|] == d.tables.alerts
      && var a := after[|d.tables.alerts|];
         && AlertOf(a, input.request, input.score, input.at, Threshold(d.tables.config))
         && a.id == d.ids + 1 && a.referenceNumber == ReferenceNumbers.Format(d.sequence + 1)
         && a.transactionId == UpsertedRow(d.tables.transactions, input.request, d.ids, input.at.received).id
  {
    hide ReferenceNumbers.Format, UpsertedRow;
    OutcomeOfEvaluation(d, input);
    TierByBounds(input.score);
    var draft := DraftFor(UpsertedRow(d.tables.transactions, input.request, d.ids, input.at.received).id, input);
    Alerts.NewAlertFields(d.ids + 1, d.sequence + 1, draft, input.at.started);
  }

  /**
   The answer is about the request and the engine's score; from score 40 on its score,
   decision, tier and ids are those of the stored alert.
   */
  predicate AnswerFits(r: EvaluationResult, request: Request, score: Score, before: seq<Alert>, after: Tables) {
    && r.externalId == request.externalId && r.riskScore == score
    && Tiered(score, r.decision, r.decisionTier, r.decisionTierDescription)
    && (exists t :: t in after.transactions && t.externalId == request.externalId && t.id == r.transactionId)
    && (r.alertId == None <==> score < 40)
    && (score < 40 ==> after.alerts == before)
    && (score >= 40 ==>
          && |after.alerts| == |before| + 1
          && var a := after.alerts[|before|];
             && r.alertId == Some(a.id) && r.transactionId == a.transactionId && r.riskScore == a.riskScore
             && r.decision == a.decision && r.decisionTier == a.decisionTier
             && r.decisionTierDescription == a.decisionTierDescription)
  }

  lemma AnswerIsOfStoredRows(d: Db, input: Input)
    requires FreshIds(d)
    ensures AnswerFits(ResultOf(d, input), input.request, input.score, d.tables.alerts, Evaluated(d, input).tables)
  {
    ResultNamesStoredRows(d, input);
    TierByBounds(input.score);
    OutcomeOfEvaluation(d, input);
    if input.score >= 40 {
      StoredAlertFields(d, input);
    }
    hide ResultOf, Evaluated, FinalAlert, DecisionFor, UpsertedRow;
    var t := Find(Evaluated(d, input).tables.transactions, input.request.externalId).value;
    assert t in Evaluated(d, input).tables.transactions;
  }

  /** The answer names the stored transaction and, from score 40 on, the stored alert. */
  lemma ResultNamesStoredRows(d: Db, input: Input)
    requires FreshIds(d)
    ensures var after, r := Evaluated(d, input).tables, ResultOf(d, input);
      && Find(after.transactions, input.request.externalId).Some?
      && Find(after.transactions, input.request.externalId).value.id == r.transactionId
      && (r.alertId.Some? <==> input.score >= 40)
      && (r.alertId.Some? ==>
            && after.alerts == d.tables.alerts + [FinalAlert(d, input)]
            && FinalAlert(d, input).id == r.alertId.value
            && FinalAlert(d, input).transactionId == r.transactionId)
  {
    OutcomeOfEvaluation(d, input);
    FindAppend(d.tables.transactions, NewRow(input.request, d.ids, input.at.received), input.request.externalId);
  }

  /** Steps 1 to 7 of the evaluation: all the writes, still uncommitted. */
  method Write(session: Session, request: Request, engine: Option<Score>, at: Instants)
    returns (r: Result<EvaluationResult, EvaluationError>)
    requires FreshIds(Snapshot(session)) && session.working == session.committed
    modifies session`working, session`ids, session`step, session`sequence
    ensures session.step > old(session.step)
    ensures r.Success? <==> engine.Some? && session.Clean(old(session.step), session.step)
    ensures r.Success? ==>
      var before, input := old(Snapshot(session)), Input(request, engine.value, at);
      && Db(session.working, session.sequence, session.ids) == Evaluated(before, input)
      && r.value == ResultOf(before, input)
      && AnswerFits(r.value, request, engine.value, before.tables.alerts, session.working)
    ensures r == Failure(EngineFailed) <==> engine.None? && session.Clean(old(session.step), session.step)
    ensures r.Failure? && r.error != EngineFailed ==> r.error == DatabaseError(StatementFailed)
    ensures old(session.sequence) <= session.sequence <= old(session.sequence) + 1
    ensures session.ids >= old(session.ids)
  {
    ghost var before := Snapshot(session);
    var transactions := new TransactionRepository.Repository(session);
    var upserted := transactions.Upsert(request, at.received);
    if upserted.Failure? { return Failure(DatabaseError(StatementFailed)); }
    var txn := upserted.value;
    if engine.None? { return Failure(EngineFailed); }
    var score := engine.value;
    var decision, tier, description := Classify(score);
    if decision.None? { return Failure(UnknownDecision); }
    ghost var input := Input(request, score, at);
    assert session.working == Stored(before, input);
    var alertId := None;
    if decision.value != Approve {
      var draft := Alerts.Draft(txn.id, request.details.customerId, score, decision.value, tier, description);
      assert draft == DraftFor(txn.id, input);
      var raised := RaiseAlert(session, draft, score, at);
      if raised.Failure? { return Failure(raised.error); }
      alertId := Some(raised.value);
      assert raised.value == before.ids + 1 && session.sequence == before.sequence + 1;
      assert Alerts.NewAlert(raised.value, session.sequence, draft, at.started) == CreatedAlert(before, input);
      assert session.working.alerts == before.tables.alerts + [FinalAlert(before, input)];
      AlertingEvaluation(before, input);
    }
    assert Db(session.working, session.sequence, session.ids) == Evaluated(before, input);
    AnswerIsOfStoredRows(before, input);
    r := Success(EvaluationResult(txn.id, request.externalId, score, decision.value, tier, description, alertId));
  }

  /**
   `FraudEvaluationService.evaluate` on the consumer's path. `engine` is the score the rules
   engine gives, or None when it raises. Whatever fails before the commit, the stored
   tables stay as they were; only sequence values and ids are used up.
   */
  method Evaluate(session: Session, request: Request, engine: Option<Score>, at: Instants)
    returns (r: Result<EvaluationResult, EvaluationError>)
    requires FreshIds(Snapshot(session))
    modifies session
    ensures session.step > old(session.step)
    ensures r.Success? <==> engine.Some? && session.Clean(old(session.step), session.step)
    ensures r.Success? ==>
      && Snapshot(session) == Evaluated(old(Snapshot(session)), Input(request, engine.value, at))
      && r.value == ResultOf(old(Snapshot(session)), Input(request, engine.value, at))
      && AnswerFits(r.value, request, engine.value, old(session.committed.alerts), session.committed)
    ensures r.Failure? ==> r.error.DatabaseError? || r.error.EngineFailed?
    ensures r == Failure(EngineFailed) <==> engine.None? && session.Clean(old(session.step), session.step)
    ensures r.Failure? && r.error != DatabaseError(CommitFailed) ==> session.committed == old(session.committed)
    ensures r == Failure(DatabaseError(CommitFailed)) ==>
      engine.Some? &&
      var after := Evaluated(old(Snapshot(session)), Input(request, engine.value, at));
      && session.sequence == after.sequence && session.ids == after.ids
      && session.committed == if session.faults(session.step - 1) == FailBefore then old(session.committed)
          else after.tables
    ensures old(session.sequence) <= session.sequence <= old(session.sequence) + 1
    ensures session.ids >= old(session.ids)
  {
    ghost var before, start := Snapshot(session), session.step;
    session.Begin();
    assert Snapshot(session) == before;
    r := Write(session, request, engine, at);
    if r.Failure? { return; }
    session.CleanStep(start, session.step);
    var committed := session.Commit();
    if !committed {
      return Failure(DatabaseError(CommitFailed));
    }
  }
}
