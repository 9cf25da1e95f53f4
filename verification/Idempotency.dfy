/** The idempotency service and the guard a message is processed under. */
module Idempotency {
  import opened Wrappers
  import opened Redis
  import opened Protocol

  const DEFAULT_TTL: nat := 86_400          // seconds: 24 hours

  /** Python's `value or default` on a time span. */
  function OrDefault(value: Option<nat>, default: nat): nat {
    if value == None || value == Some(0) then default else value.value
  }

  // ----- what one command leaves behind -----

  function AfterSetEx(data: Store, now: nat, key: string, seconds: nat, text: Text, fault: Fault): Store {
    if fault == FailBefore then data else data[key := Entry(text, now + 1000 * seconds)]
  }

  function AfterSetNx(data: Store, now: nat, key: string, seconds: nat, fault: Fault): Store {
    if seconds == 0 || fault == FailBefore || Live(data, now, key) then data
    else data[key := Entry(One, now + 1000 * seconds)]
  }

  function AfterDelete(data: Store, key: string, fault: Fault): Store {
    if fault == FailBefore then data else data - {key}
  }

  /** What `get_result` finds under a key. */
  function StoredResult(data: Store, now: nat, key: string): Option<Dict> {
    if Live(data, now, key) then Decode(Some(data[key].text)) else None
  }

  class Service {
    const redis: Server
    const ttl: nat

    constructor (redis: Server, ttl: Option<nat>)
      ensures this.redis == redis && this.ttl > 0
      ensures this.ttl == if ttl.Some? && ttl.value > 0 then ttl.value else 24 * 60 * 60
    {
      this.redis, this.ttl := redis, OrDefault(ttl, DEFAULT_TTL);
    }

    method IsProcessed(messageType: string, externalId: string) returns (r: Result<bool, RedisError>)
      modifies redis`now, redis`calls
      ensures redis.calls == old(redis.calls) + 1
      ensures redis.now == old(redis.now) + redis.plan(old(redis.calls)).elapsed
      ensures r == if redis.plan(old(redis.calls)).fault == Fine
                   then Success(Live(redis.data, redis.now, MakeKey(messageType, externalId))) else Failure(RedisError)
    {
      r := redis.Exists(MakeKey(messageType, externalId));
    }

    method MarkProcessed(
        messageType: string, externalId: string, result: Option<Dict>)
      returns (r: Result<(), RedisError>)
      requires ttl > 0
      modifies redis`now, redis`calls, redis`data
      ensures redis.calls == old(redis.calls) + 1
      ensures redis.now == old(redis.now) + redis.plan(old(redis.calls)).elapsed
      ensures redis.data == AfterSetEx(old(redis.data), redis.now, MakeKey(messageType, externalId), ttl,
                                       Encode(result), redis.plan(old(redis.calls)).fault)
      ensures r.Success? <==> redis.plan(old(redis.calls)).fault == Fine
    {
      var text := if result.Some? && result.value != map[] then Json(result.value) else One;
      r := redis.SetEx(MakeKey(messageType, externalId), ttl, text);
    }

    method GetResult(messageType: string, externalId: string) returns (r: Result<Option<Dict>, RedisError>)
      modifies redis`now, redis`calls
      ensures redis.calls == old(redis.calls) + 1
      ensures redis.now == old(redis.now) + redis.plan(old(redis.calls)).elapsed
      ensures r == if redis.plan(old(redis.calls)).fault != Fine then Failure(RedisError)
                   else Success(StoredResult(redis.data, redis.now, MakeKey(messageType, externalId)))
    {
      var text := redis.Get(MakeKey(messageType, externalId));
      if text.Failure? { return Failure(RedisError); }
      match text.value {
        case Some(Json(result)) => r := Success(Some(result));
        case _ => r := Success(None);
      }
    }

    /** `lockTtl` in milliseconds; Redis is told whole seconds. */
    method AcquireLock(
        messageType: string, externalId: string, lockTtl: Option<nat>)
      returns (r: Result<bool, RedisError>)
      modifies redis`now, redis`calls, redis`data
      ensures redis.calls == old(redis.calls) + 1
      ensures redis.now == old(redis.now) + redis.plan(old(redis.calls)).elapsed
      ensures var lock, seconds := LockKey(MakeKey(messageType, externalId)), OrDefault(lockTtl, LOCK_TTL) / 1000;
        && redis.data == AfterSetNx(old(redis.data), redis.now, lock, seconds, redis.plan(old(redis.calls)).fault)
        && r == (if seconds == 0 || redis.plan(old(redis.calls)).fault != Fine then Failure(RedisError)
                 else Success(!Live(old(redis.data), redis.now, lock)))
        && (lockTtl == None && r == Success(true) ==>
              lock in redis.data && redis.data[lock].expires == redis.now + 5 * 60 * 1000)
    {
      var seconds := OrDefault(lockTtl, LOCK_TTL) / 1000;
      r := redis.SetNx(LockKey(MakeKey(messageType, externalId)), seconds, One);
    }

    method ReleaseLock(messageType: string, externalId: string) returns (r: Result<(), RedisError>)
      modifies redis`now, redis`calls, redis`data
      ensures redis.calls == old(redis.calls) + 1
      ensures redis.now == old(redis.now) + redis.plan(old(redis.calls)).elapsed
      ensures redis.data ==
          AfterDelete(old(redis.data), LockKey(MakeKey(messageType, externalId)), redis.plan(old(redis.calls)).fault)
      ensures r.Success? <==> redis.plan(old(redis.calls)).fault == Fine
    {
      r := redis.Delete(LockKey(MakeKey(messageType, externalId)));
    }
  }

  /** `IdempotentProcessor`, the context manager. */
  class Guard {
    const service: Service
    const messageType: string
    const externalId: string
    var shouldProcess: bool
    var cachedResult: Option<Dict>
    var result: Option<Dict>
    var lockAcquired: bool

    constructor (service: Service, messageType: string, externalId: string)
      ensures this.service == service && this.messageType == messageType && this.externalId == externalId
      ensures shouldProcess && cachedResult == None && result == None && !lockAcquired
    {
      this.service, this.messageType, this.externalId := service, messageType, externalId;
      shouldProcess, cachedResult, result, lockAcquired := true, None, None, false;
    }

    function Key(): string {
      MakeKey(messageType, externalId)
    }

    /**
     `__aenter__`: read the marker; if it is there fetch the result, else ask for the
     lock. The body runs exactly when the lock was taken.
     */
    method Enter() returns (r: Result<(), RedisError>)
      requires shouldProcess && !lockAcquired
      modifies this, service.redis`now, service.redis`calls, service.redis`data
      ensures result == old(result)
      ensures service.redis.calls ==
              old(service.redis.calls) + if service.redis.plan(old(service.redis.calls)).fault != Fine then 1 else 2
      ensures var redis := service.redis;
        var first, second := redis.plan(old(redis.calls)), redis.plan(old(redis.calls) + 1);
        var read := old(redis.now) + first.elapsed;
        if first.fault != Fine then
          r.Failure? && redis.now == read && redis.data == old(redis.data) && !lockAcquired
        else if Live(old(redis.data), read, Key()) then
          && redis.now == read + second.elapsed && redis.data == old(redis.data)
          && !shouldProcess && !lockAcquired && (r.Success? <==> second.fault == Fine)
          && (r.Success? ==> cachedResult == StoredResult(redis.data, redis.now, Key()))
        else
          && redis.now == read + second.elapsed
          && redis.data == AfterSetNx(old(redis.data), redis.now, LockKey(Key()), LOCK_TTL / 1000, second.fault)
          && (r.Success? <==> second.fault == Fine)
          && (lockAcquired <==> r.Success? && !Live(old(redis.data), redis.now, LockKey(Key())))
          && (r.Success? ==> (shouldProcess <==> lockAcquired))
    {
      var hit := service.IsProcessed(messageType, externalId);
      if hit.Failure? { return Failure(RedisError); }
      if hit.value {
        shouldProcess := false;
        var cached := service.GetResult(messageType, externalId);
        if cached.Failure? { return Failure(RedisError); }
        cachedResult := cached.value;
        return Success(());
      }
      var acquired := service.AcquireLock(messageType, externalId, None);
      if acquired.Failure? {
        lockAcquired := false;
        return Failure(RedisError);
      }
      lockAcquired := acquired.value;
      if !lockAcquired {
        shouldProcess := false;
      }
      r := Success(());
    }

    method SetResult(result: Dict)
      modifies this`result
      ensures this.result == Some(result)
    {
      this.result := Some(result);
    }

    /** The body ended well with a result to remember. */
    predicate Marks(raised: bool)
      reads this
    {
      !raised && shouldProcess && result.Some?
    }

    /**
     `__aexit__`: mark on success, and release a lock that was taken whether or not
     marking worked. A failing call raises.
     */
    method Exit(raised: bool) returns (r: Result<(), RedisError>)
      requires service.ttl > 0
      modifies service.redis`now, service.redis`calls, service.redis`data
      ensures var redis := service.redis;
        var marks := Marks(raised);
        var mark := redis.plan(old(redis.calls));
        var release := redis.plan(if marks then old(redis.calls) + 1 else old(redis.calls));
        var marked := old(redis.now) + if marks then mark.elapsed else 0;
        var data := if marks then AfterSetEx(old(redis.data), marked, Key(), service.ttl, Encode(result), mark.fault)
                    else old(redis.data);
        && redis.now == marked + (if lockAcquired then release.elapsed else 0)
        && redis.data == (if lockAcquired then AfterDelete(data, LockKey(Key()), release.fault) else data)
        && (r.Success? <==> (marks ==> mark.fault == Fine) && (lockAcquired ==> release.fault == Fine))
    {
      r := Success(());
      if !raised && shouldProcess && result.Some? {
        r := service.MarkProcessed(messageType, externalId, result);
      }
      if lockAcquired {
        var released := service.ReleaseLock(messageType, externalId);
        if released.Failure? {
          r := Failure(RedisError);
        }
      }
    }
  }
}
