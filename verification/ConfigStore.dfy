/** System configuration: stored text values over built-in defaults. */
module ConfigStore {
  import opened Wrappers
  import opened Decimal
  import opened Tables
  import opened Database

  type Rows = map<string, ConfigRow>

  const THRESHOLD: string := "auto_escalation_threshold"
  const RETENTION: string := "data_retention_days"
  const CONFIG_DEFAULTS: map<string, string> := map[THRESHOLD := "90", RETENTION := "90"]

  function DefaultOf(key: string): Option<string> {
    if key in CONFIG_DEFAULTS then Some(CONFIG_DEFAULTS[key]) else None
  }

  function Get(rows: Rows, key: string): Option<string> {
    if key in rows then Some(rows[key].value) else DefaultOf(key)
  }

  /** `get_int`: a missing or non-integer value gives the caller's default. */
  function GetInt(rows: Rows, key: string, default: int): int {
    var value := Get(rows, key);
    if value.None? then default
    else
      var n := ParseInt(value.value);
      if n.Some? then n.value else default
  }

  /** A stored value is read, else the default of its key; as an integer if it is one, else as the caller's default. */
  lemma ReadsExactly(rows: Rows, key: string, default: int)
    ensures key in rows ==> Get(rows, key) == Some(rows[key].value)
    ensures key !in rows && key in {THRESHOLD, RETENTION} ==> Get(rows, key) == Some("90")
    ensures key !in rows && key !in {THRESHOLD, RETENTION} ==> Get(rows, key) == None
    ensures Get(rows, key) == None ==> GetInt(rows, key, default) == default
    ensures Get(rows, key).Some? && ParseInt(Get(rows, key).value) == None ==> GetInt(rows, key, default) == default
    ensures Get(rows, key).Some? && ParseInt(Get(rows, key).value).Some? ==>
      GetInt(rows, key, default) == ParseInt(Get(rows, key).value).value
  {
  }

  /** `get_all`: the stored values laid over the defaults. */
  function GetAll(rows: Rows): map<string, string> {
    CONFIG_DEFAULTS + map key | key in rows :: rows[key].value
  }

  /** Insert or update; an update without description keeps the old one. */
  function Put(rows: Rows, key: string, value: string, description: Option<string>): Rows {
    if key !in rows then rows[key := ConfigRow(value, description)]
    else rows[key := ConfigRow(value, if description.Some? then description else rows[key].description)]
  }

  /** What a write leaves: the value, the description given or else the one before, and every other key. */
  lemma PutWrites(rows: Rows, key: string, value: string, description: Option<string>)
    ensures var after := Put(rows, key, value, description);
      && key in after && after[key].value == value
      && after[key].description ==
           (if description.Some? then description else if key in rows then rows[key].description else None)
      && forall other | other != key ::
           (other in after <==> other in rows) && (other in rows ==> after[other] == rows[other])
  {
  }

  // A partial update, within the bounds the request schema enforces.
  datatype UpdateRequest = UpdateRequest(threshold: Option<nat>, retentionDays: Option<nat>)

  predicate Validated(body: UpdateRequest) {
    && (body.threshold.Some? ==> body.threshold.value <= 100)
    && (body.retentionDays.Some? ==> 1 <= body.retentionDays.value <= 3650)
  }

  datatype Response = Response(threshold: int, retentionDays: int)

  function ValueIn(values: map<string, string>, key: string): string
    requires key in CONFIG_DEFAULTS
  {
    if key in values then values[key] else CONFIG_DEFAULTS[key]
  }

  /** `_build_response`: None stands for the ValueError of `int`. */
  function BuildResponse(values: map<string, string>): Option<Response> {
    var threshold := ParseInt(ValueIn(values, THRESHOLD));
    var retention := ParseInt(ValueIn(values, RETENTION));
    if threshold.Some? && retention.Some? then Some(Response(threshold.value, retention.value)) else None
  }

  const THRESHOLD_NOTE: string := "Risk score above which alerts auto-escalate"
  const RETENTION_NOTE: string := "Days to retain reviewed alerts before archiving"

  function Updated(rows: Rows, body: UpdateRequest): Rows {
    var first := if body.threshold.Some?
        then Put(rows, THRESHOLD, Print(body.threshold.value), Some(THRESHOLD_NOTE)) else rows;
    if body.retentionDays.Some? then Put(first, RETENTION, Print(body.retentionDays.value), Some(RETENTION_NOTE))
        else first
  }

  function UpdatedAll(rows: Rows, bodies: seq<UpdateRequest>): Rows {
    if bodies == [] then rows
    else Updated(UpdatedAll(rows, bodies[..|bodies| - 1]), bodies[|bodies| - 1])
  }

  /** The last threshold and retention the updates set, else the ones before them. */
  function LastSet(bodies: seq<UpdateRequest>, initial: Response): Response {
    if bodies == [] then initial
    else
      var before := LastSet(bodies[..|bodies| - 1], initial);
      var body := bodies[|bodies| - 1];
      Response(if body.threshold.Some? then body.threshold.value else before.threshold,
               if body.retentionDays.Some? then body.retentionDays.value else before.retentionDays)
  }

  lemma KeysDiffer()
    ensures THRESHOLD != RETENTION
  {
    assert THRESHOLD[0] != RETENTION[0];
  }

  /** For every store at all, one lookup agrees with the merged view. */
  lemma GetAgreesWithGetAll(rows: Rows, key: string)
    ensures Get(rows, key) == if key in GetAll(rows) then Some(GetAll(rows)[key]) else None
    ensures key in CONFIG_DEFAULTS ==> Get(rows, key) == Some(ValueIn(GetAll(rows), key))
  {
  }

  /** The integer a key reads as, if it has a value and the value parses. */
  function ReadKey(rows: Rows, key: string): Option<int> {
    var value := Get(rows, key);
    if value.None? then None else ParseInt(value.value)
  }

  predicate Reads(rows: Rows, r: Response) {
    && ReadKey(rows, THRESHOLD) == Some(r.threshold)
    && ReadKey(rows, RETENTION) == Some(r.retentionDays)
  }

  lemma PutThenRead(rows: Rows, key: string, n: nat, note: string, other: string)
    ensures ReadKey(Put(rows, key, Print(n), Some(note)), key) == Some(n)
    ensures other != key ==> ReadKey(Put(rows, key, Print(n), Some(note)), other) == ReadKey(rows, other)
  {
    ParsePrint(n);
  }

  lemma NinetyParses()
    ensures ParseInt("90") == Some(90)
  {
    assert Print(90) == "90";
    ParsePrint(90);
  }

  lemma DefaultsAreNinety(key: string)
    requires key in CONFIG_DEFAULTS
    ensures CONFIG_DEFAULTS[key] == "90"
  {
  }

  /** Without stored rows, or with the rows the migration seeds, both keys read 90. */
  lemma InitialStoresRead(rows: Rows)
    requires forall key | key in rows :: rows[key].value == "90"
    ensures Reads(rows, Response(90, 90))
  {
    NinetyParses();
    DefaultsAreNinety(THRESHOLD);
    DefaultsAreNinety(RETENTION);
  }

  lemma UpdateReadsBack(rows: Rows, body: UpdateRequest, r: Response)
    requires Reads(rows, r)
    ensures Reads(Updated(rows, body), LastSet([body], r))
  {
    KeysDiffer();
    assert LastSet([body][..0], r) == r;
    var first := if body.threshold.Some?
        then Put(rows, THRESHOLD, Print(body.threshold.value), Some(THRESHOLD_NOTE)) else rows;
    if body.threshold.Some? {
      PutThenRead(rows, THRESHOLD, body.threshold.value, THRESHOLD_NOTE, RETENTION);
    }
    if body.retentionDays.Some? {
      PutThenRead(first, RETENTION, body.retentionDays.value, RETENTION_NOTE, THRESHOLD);
    }
  }

  /** An update writes the rows of the given keys, with their texts and notes, and no other row. */
  lemma UpdateWrites(rows: Rows, body: UpdateRequest)
    ensures var after := Updated(rows, body);
      && (body.threshold.Some? ==>
            THRESHOLD in after
            && after[THRESHOLD] == ConfigRow(Print(body.threshold.value),
                                             Some("Risk score above which alerts auto-escalate")))
      && (body.retentionDays.Some? ==>
            RETENTION in after
            && after[RETENTION] == ConfigRow(Print(body.retentionDays.value),
                                             Some("Days to retain reviewed alerts before archiving")))
      && (body.threshold.None? ==> (THRESHOLD in after <==> THRESHOLD in rows))
      && (body.retentionDays.None? ==> (RETENTION in after <==> RETENTION in rows))
      && forall key | key in rows && (key != THRESHOLD || body.threshold.None?)
                      && (key != RETENTION || body.retentionDays.None?) :: key in after && after[key] == rows[key]
  {
    KeysDiffer();
  }

  /**
   After any sequence of partial updates, from an empty or a seeded store, each key reads
   as the last value set for it, updates to one key leaving the other alone; every value
   parses, so `get_int` never falls back and the response is always built.
   */
  lemma {:induction false} LastUpdateWins(rows: Rows, bodies: seq<UpdateRequest>, r: Response)
    requires Reads(rows, r)
    ensures Reads(UpdatedAll(rows, bodies), LastSet(bodies, r))
    ensures BuildResponse(GetAll(UpdatedAll(rows, bodies))) == Some(LastSet(bodies, r))
    ensures forall default ::
              && GetInt(UpdatedAll(rows, bodies), THRESHOLD, default) == LastSet(bodies, r).threshold
              && GetInt(UpdatedAll(rows, bodies), RETENTION, default) == LastSet(bodies, r).retentionDays
  {
    if bodies != [] {
      var earlier, body := bodies[..|bodies| - 1], bodies[|bodies| - 1];
      LastUpdateWins(rows, earlier, r);
      UpdateReadsBack(UpdatedAll(rows, earlier), body, LastSet(earlier, r));
      assert [body][..0] == [];
    }
    GetAgreesWithGetAll(UpdatedAll(rows, bodies), THRESHOLD);
    GetAgreesWithGetAll(UpdatedAll(rows, bodies), RETENTION);
  }

  /** For every store at all: `get_int` reads the last value set, else what it read before. */
  lemma {:induction false} LastThresholdWins(rows: Rows, bodies: seq<UpdateRequest>, default: int, retentionDays: int)
    ensures GetInt(UpdatedAll(rows, bodies), THRESHOLD, default) ==
            LastSet(bodies, Response(GetInt(rows, THRESHOLD, default), retentionDays)).threshold
  {
    if bodies != [] {
      var earlier, body := UpdatedAll(rows, bodies[..|bodies| - 1]), bodies[|bodies| - 1];
      LastThresholdWins(rows, bodies[..|bodies| - 1], default, retentionDays);
      KeysDiffer();
      var first := earlier;
      if body.threshold.Some? {
        PutThenRead(earlier, THRESHOLD, body.threshold.value, THRESHOLD_NOTE, RETENTION);
        first := Put(earlier, THRESHOLD, Print(body.threshold.value), Some(THRESHOLD_NOTE));
      }
      if body.retentionDays.Some? {
        PutThenRead(first, RETENTION, body.retentionDays.value, RETENTION_NOTE, THRESHOLD);
      }
    }
  }

  predicate WithinBounds(r: Response) {
    0 <= r.threshold <= 100 && 1 <= r.retentionDays <= 3650
  }

  /** The bounds the request schema checks are bounds of everything read back. */
  lemma {:induction false} BoundsKept(rows: Rows, bodies: seq<UpdateRequest>, r: Response)
    requires Reads(rows, r) && WithinBounds(r)
    requires forall i | 0 <= i < |bodies| :: Validated(bodies[i])
    ensures var response := BuildResponse(GetAll(UpdatedAll(rows, bodies)));
      response.Some? && WithinBounds(response.value)
  {
    LastUpdateWins(rows, bodies, r);
    if bodies != [] {
      BoundsKept(rows, bodies[..|bodies| - 1], r);
      LastUpdateWins(rows, bodies[..|bodies| - 1], r);
      assert Validated(bodies[|bodies| - 1]);
    }
  }

  class Repository {
    const session: Session

    constructor (session: Session)
      ensures this.session == session
    {
      this.session := session;
    }

    method ReadInt(key: string, default: int) returns (r: Result<int, DbError>)
      modifies session`step
      ensures session.step == old(session.step) + 1
      ensures r.Success? <==> session.Clean(old(session.step), session.step)
      ensures r.Success? ==> r.value == GetInt(session.working.config, key, default)
    {
      var ok := session.Execute();
      if !ok { return Failure(StatementFailed); }
      r := Success(GetInt(session.working.config, key, default));
    }

    method ReadAll() returns (r: Result<map<string, string>, DbError>)
      modifies session`step
      ensures session.step == old(session.step) + 1
      ensures r.Success? <==> session.Clean(old(session.step), session.step)
      ensures r.Success? ==> r.value == GetAll(session.working.config)
    {
      var ok := session.Execute();
      if !ok { return Failure(StatementFailed); }
      r := Success(GetAll(session.working.config));
    }

    /** Read the row, then insert it or assign its columns, then flush and refresh. */
    method Upsert(key: string, value: string, description: Option<string>) returns (r: Result<ConfigRow, DbError>)
      modifies session`step, session`working
      ensures session.step > old(session.step)
      ensures r.Success? <==> session.Clean(old(session.step), session.step)
      ensures r.Success? ==>
        && session.working == old(session.working).(config := Put(old(session.working.config), key, value, description))
        && key in session.working.config && r.value == session.working.config[key]
    {
      var ok := session.Execute();
      if !ok { return Failure(StatementFailed); }
      var rows := session.working.config;
      var row;
      if key !in rows {
        row := ConfigRow(value, description);
      } else {
        row := rows[key].(value := value);
        if description.Some? {
          row := row.(description := description);
        }
      }
      session.working := session.working.(config := rows[key := row]);
      var flushed := session.Execute();
      if !flushed { return Failure(StatementFailed); }
      var refreshed := session.Execute();
      if !refreshed { return Failure(StatementFailed); }
      r := Success(row);
    }
  }

  datatype ServiceError = Database(error: DbError) | NotAnInteger

  /** `ConfigService.update_config`. */
  method UpdateConfig(repo: Repository, body: UpdateRequest) returns (r: Result<Response, ServiceError>)
    requires Validated(body)
    modifies repo.session`step, repo.session`working
    ensures r.Success? || r.error.Database? ==>
      (r.Success? <==> repo.session.Clean(old(repo.session.step), repo.session.step))
    ensures repo.session.Clean(old(repo.session.step), repo.session.step) ==>
      && repo.session.working == old(repo.session.working).(config := Updated(old(repo.session.working.config), body))
      && r == (match BuildResponse(GetAll(repo.session.working.config))
               case Some(response) => Success(response)
               case None => Failure(NotAnInteger))
  {
    if body.threshold.Some? {
      var put := repo.Upsert(THRESHOLD, Print(body.threshold.value), Some(THRESHOLD_NOTE));
      if put.Failure? { return Failure(Database(put.error)); }
    }
    if body.retentionDays.Some? {
      var put := repo.Upsert(RETENTION, Print(body.retentionDays.value), Some(RETENTION_NOTE));
      if put.Failure? { return Failure(Database(put.error)); }
    }
    var values := repo.ReadAll();
    if values.Failure? { return Failure(Database(values.error)); }
    var response := BuildResponse(values.value);
    r := if response.Some? then Success(response.value) else Failure(NotAnInteger);
  }
}
