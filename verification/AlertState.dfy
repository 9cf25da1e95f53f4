/** The alert lifecycle: which status may follow which. */
module AlertState {
  import opened Wrappers

  datatype Status = Pending | Escalated | Confirmed | Dismissed

  datatype ReviewError =
    | UnknownStatus(name: string)
    | NotAllowed(current: Status, target: Status, allowed: set<Status>)

  function AllowedTransitions(s: Status): set<Status> {
    match s
    case Pending => {Confirmed, Dismissed, Escalated}
    case Escalated => {Confirmed, Dismissed}
    case Confirmed => {}
    case Dismissed => {}
  }

  /** `validate_transition`: None when the move is allowed, else the ValueError. */
  function ValidateTransition(current: Status, target: Status): Option<ReviewError> {
    var allowed := AllowedTransitions(current);
    if target in allowed then None else Some(NotAllowed(current, target, allowed))
  }

  function Name(s: Status): string {
    match s
    case Pending => "pending"
    case Escalated => "escalated"
    case Confirmed => "confirmed"
    case Dismissed => "dismissed"
  }

  /** `AlertStateMachine.get_state`: the registry is keyed by status name. */
  function GetState(key: string): Result<Status, ReviewError> {
    if key == "pending" then Success(Pending)
    else if key == "escalated" then Success(Escalated)
    else if key == "confirmed" then Success(Confirmed)
    else if key == "dismissed" then Success(Dismissed)
    else Failure(UnknownStatus(key))
  }

  /** The registry answers exactly the four status names, each with its own state. */
  lemma RegistryIsExact(key: string, s: Status)
    ensures GetState(key) == Success(s) <==> key == Name(s)
    ensures Name(s) == if s == Pending then "pending" else if s == Escalated then "escalated"
                       else if s == Confirmed then "confirmed" else "dismissed"
  {
    assert "pending"[0] != "escalated"[0] && "confirmed"[0] != "dismissed"[0];
  }

  predicate Terminal(s: Status) {
    AllowedTransitions(s) == {}
  }

  /** How many status changes an alert can still see. */
  function Rank(s: Status): nat {
    match s
    case Pending => 2
    case Escalated => 1
    case Confirmed => 0
    case Dismissed => 0
  }

  /** A review attempt on a status: a rejected one leaves it as it was. */
  function Attempt(s: Status, target: Status): Status {
    if ValidateTransition(s, target) == None then target else s
  }

  /** The rank falls on every accepted review, and only on those. */
  lemma RankFalls(s: Status, target: Status)
    ensures ValidateTransition(s, target) == None <==> Rank(Attempt(s, target)) < Rank(s)
    ensures ValidateTransition(s, target) != None ==> Attempt(s, target) == s
    ensures Terminal(s) <==> Rank(s) == 0
  {
    assert Confirmed in AllowedTransitions(Pending) && Confirmed in AllowedTransitions(Escalated);
  }

  /** From PENDING everywhere, from ESCALATED to the two ends, from these nowhere; a refusal names what is allowed. */
  lemma TransitionsExactly(s: Status, target: Status)
    ensures ValidateTransition(s, target) ==
            if (s == Pending && target != Pending) || (s == Escalated && target in {Confirmed, Dismissed}) then None
            else Some(NotAllowed(s, target, AllowedTransitions(s)))
    ensures target in AllowedTransitions(s) <==> ValidateTransition(s, target) == None
  {
  }

  function AttemptAll(s: Status, targets: seq<Status>): Status {
    if targets == [] then s
    else Attempt(AttemptAll(s, targets[..|targets| - 1]), targets[|targets| - 1])
  }

  function Changes(s: Status, targets: seq<Status>): nat {
    if targets == [] then 0
    else
      var before := AttemptAll(s, targets[..|targets| - 1]);
      Changes(s, targets[..|targets| - 1]) + if Attempt(before, targets[|targets| - 1]) != before then 1 else 0
  }

  /**
   Over every sequence of review attempts an alert changes status at most as often as
   its rank allows (so at most twice), never comes back to PENDING once it left it, and
   stays in a terminal status.
   */
  lemma {:induction false} Lifecycle(s: Status, targets: seq<Status>)
    ensures Rank(AttemptAll(s, targets)) + Changes(s, targets) <= Rank(s) <= 2
    ensures Terminal(s) ==> AttemptAll(s, targets) == s
    ensures AttemptAll(s, targets) == Pending ==> s == Pending && Changes(s, targets) == 0
  {
    if targets != [] {
      var earlier := targets[..|targets| - 1];
      Lifecycle(s, earlier);
      RankFalls(AttemptAll(s, earlier), targets[|targets| - 1]);
    }
  }
}
