/** Decision tiers: from a risk score to a tier and a decision. */
module FraudDetector {
  import opened Wrappers
  import opened Tables

  // The engine caps its total at 100.
  type Score = x: int | 0 <= x <= 100

  datatype DecisionTier = DecisionTier(name: string, min: int, max: int, description: string)

  const DECISION_TIERS: seq<DecisionTier> := [
    DecisionTier("APPROVE", 0, 40, "Low risk - approve transaction"),
    DecisionTier("REVIEW", 40, 80, "Medium risk - requires manual review"),
    DecisionTier("FLAG", 80, 101, "High risk - flag for investigation")
  ]

  // What the rules engine returns: the total and the name of the tier it falls in.
  datatype Assessment = Assessment(totalScore: Score, decision: Option<string>)

  predicate InTier(t: DecisionTier, score: int) {
    t.min <= score < t.max
  }

  function TierOf(tiers: seq<DecisionTier>, score: int): Option<string> {
    if tiers == [] then None
    else if InTier(tiers[0], score) then Some(tiers[0].name)
    else TierOf(tiers[1..], score)
  }

  /** The engine's answer for a score, tiers being half-open intervals. */
  function Assess(score: Score): Assessment {
    Assessment(score, TierOf(DECISION_TIERS, score))
  }

  function LowerChar(c: char): char {
    if 'A' <= c <= 'Z' then (c as int + 32) as char else c
  }

  function Lower(s: string): string {
    seq(|s|, i requires 0 <= i < |s| => LowerChar(s[i]))
  }

  function UpperChar(c: char): char {
    if 'a' <= c <= 'z' then (c as int - 32) as char else c
  }

  function Upper(s: string): string {
    seq(|s|, i requires 0 <= i < |s| => UpperChar(s[i]))
  }

  /** `Decision(value)`: None stands for the ValueError. */
  function DecisionNamed(value: string): Option<Decision> {
    if value == "approve" then Some(Approve)
    else if value == "review" then Some(Review)
    else if value == "flag" then Some(Flag)
    else None
  }

  /** Python's `text or default`, with None and "" both falsy. */
  function Or(text: Option<string>, default: string): string {
    if text == None || text == Some("") then default else text.value
  }

  /** `PylitmusAdapter.to_decision`. */
  function ToDecision(decision: Option<string>): Option<Decision> {
    DecisionNamed(Lower(Or(decision, "approve")))
  }

  function GetDecisionTier(a: Assessment): string {
    Or(a.decision, "APPROVE")
  }

  /** The description of the first tier of that name. */
  function DescriptionIn(tiers: seq<DecisionTier>, name: string): string {
    if tiers == [] then "Unknown tier"
    else if tiers[0].name == name then Or(Some(tiers[0].description), "Unknown tier")
    else DescriptionIn(tiers[1..], name)
  }

  function DescriptionOf(a: Assessment): string {
    DescriptionIn(DECISION_TIERS, Upper(Or(a.decision, "APPROVE")))
  }

  /** `get_decision_tier_description`, with the loop of the source. */
  method GetDecisionTierDescription(a: Assessment) returns (description: string)
    ensures description == DescriptionOf(a)
  {
    var name := Upper(Or(a.decision, "APPROVE"));
    for i := 0 to |DECISION_TIERS|
      invariant DescriptionIn(DECISION_TIERS[i..], name) == DescriptionOf(a)
    {
      if DECISION_TIERS[i].name == name {
        return Or(Some(DECISION_TIERS[i].description), "Unknown tier");
      }
    }
    description := "Unknown tier";
  }

  function DecisionFor(score: Score): Decision {
    if score < 40 then Approve else if score < 80 then Review else Flag
  }

  function TierIndex(d: Decision): nat {
    match d
    case Approve => 0
    case Review => 1
    case Flag => 2
  }

  /** The tier of a score by its bounds: under 40, under 80, and from 80 on. */
  lemma TierByBounds(score: Score)
    ensures var tier := DECISION_TIERS[TierIndex(DecisionFor(score))];
      && (score < 40 ==> DecisionFor(score) == Approve && tier.name == "APPROVE"
                         && tier.description == "Low risk - approve transaction")
      && (40 <= score < 80 ==> DecisionFor(score) == Review && tier.name == "REVIEW"
                               && tier.description == "Medium risk - requires manual review")
      && (80 <= score ==> DecisionFor(score) == Flag && tier.name == "FLAG"
                          && tier.description == "High risk - flag for investigation")
  {
  }

  lemma TierNames()
    ensures Lower("APPROVE") == "approve" && Lower("REVIEW") == "review" && Lower("FLAG") == "flag"
    ensures Upper("APPROVE") == "APPROVE" && Upper("REVIEW") == "REVIEW" && Upper("FLAG") == "FLAG"
  {
  }

  /** Texts that are no tier's name: no decision, and the description for an unknown tier. */
  lemma OtherNames(text: Option<string>)
    ensures (text == None || text == Some("")) ==>
      ToDecision(text) == Some(Approve) && DescriptionOf(Assessment(0, text)) == "Low risk - approve transaction"
    ensures text.Some? && Upper(text.value) !in {"", "APPROVE", "REVIEW", "FLAG"} ==>
      DescriptionOf(Assessment(0, text)) == "Unknown tier"
    ensures text.Some? && Lower(text.value) !in {"", "approve", "review", "flag"} ==> ToDecision(text) == None
  {
    var tiers := DECISION_TIERS;
    TierNames();
    assert Lower("approve") == "approve";
    assert tiers[1..][0] == tiers[1] && tiers[1..][1..][0] == tiers[2] && tiers[1..][1..][1..] == [];
    if text.Some? && Upper(text.value) !in {"", "APPROVE", "REVIEW", "FLAG"} {
      var name := Upper(text.value);
      assert text.value != "" by { assert Upper("") == ""; }
      assert DescriptionIn(tiers, name) == DescriptionIn(tiers[1..], name);
      assert DescriptionIn(tiers[1..], name) == DescriptionIn(tiers[1..][1..], name);
      assert DescriptionIn(tiers[1..][1..], name) == DescriptionIn(tiers[1..][1..][1..], name);
    }
    if text.Some? && Lower(text.value) !in {"", "approve", "review", "flag"} {
      assert text.value != "" by { assert Lower("") == ""; }
    }
  }

  /**
   Every score of the engine lies in exactly one tier; the adapter turns that tier's
   name into a decision without raising; and name, decision and description all belong
   to that one tier.
   */
  lemma TiersPartitionScores(score: Score)
    ensures var d := DecisionFor(score);
      && (forall i | 0 <= i < 3 :: InTier(DECISION_TIERS[i], score) <==> i == TierIndex(d))
      && ToDecision(Assess(score).decision) == Some(d)
      && GetDecisionTier(Assess(score)) == DECISION_TIERS[TierIndex(d)].name
      && DescriptionOf(Assess(score)) == DECISION_TIERS[TierIndex(d)].description
  {
    TierNames();
    var tiers := DECISION_TIERS;
    assert tiers[1..][0] == tiers[1] && tiers[1..][1..][0] == tiers[2];
    assert Assess(score).decision == Some(tiers[TierIndex(DecisionFor(score))].name) by {
      if score >= 40 {
        assert TierOf(tiers, score) == TierOf(tiers[1..], score);
        if score >= 80 {
          assert TierOf(tiers[1..], score) == TierOf(tiers[1..][1..], score);
        }
      }
    }
    assert "APPROVE"[0] != "REVIEW"[0] && "REVIEW"[0] != "FLAG"[0] && "APPROVE"[0] != "FLAG"[0];
    assert "approve"[0] != "review"[0] && "review"[0] != "flag"[0] && "approve"[0] != "flag"[0];
  }
}
