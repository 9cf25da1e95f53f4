/** The Redis commands the idempotency service uses, and the keys it uses them on. */
module Redis {
  import opened Wrappers

  // A processing result, as the dictionary the service stores.
  type Dict = map<string, string>

  // Stored text: the marker "1", an encoded dictionary, or text that is not JSON.
  datatype Text = One | Json(result: Dict) | NotJson

  // A key with its value and the instant it expires at; times are milliseconds.
  datatype Entry = Entry(text: Text, expires: nat)

  type Store = map<string, Entry>

  /** An expired key is as good as absent. */
  predicate Live(store: Store, now: nat, key: string) {
    key in store && now < store[key].expires
  }

  // ----- keys -----

  const KEY_PREFIX: string := "idempotency"

  /** `_make_key`. */
  function MakeKey(messageType: string, externalId: string): string {
    KEY_PREFIX + ":" + messageType + ":" + externalId
  }

  function LockKey(key: string): string {
    "lock:" + key
  }

  predicate IsMarkerKey(key: string) {
    key != [] && key[0] == 'i'
  }

  lemma MadeKeysAreMarkers(messageType: string, externalId: string)
    ensures IsMarkerKey(MakeKey(messageType, externalId))
  {
  }

  /** Lock keys are never marker keys, and each marker key has its own lock key. */
  lemma KeysApart(a: string, b: string)
    requires IsMarkerKey(b)
    ensures LockKey(a) != b
    ensures LockKey(a) == LockKey(b) <==> a == b
  {
    assert LockKey(a)[0] == 'l';
    assert LockKey(a)[5..] == a && LockKey(b)[5..] == b;
  }

  /** Two message types can be confused: one is the other plus a colon and more. */
  predicate Overlap(a: string, b: string) {
    a + ":" <= b + ":" || b + ":" <= a + ":"
  }

  lemma TailsAgree(a: string, x: string, b: string, y: string)
    requires a + ":" + x == b + ":" + y
    ensures Overlap(a, b) && (a == b ==> x == y)
  {
    var whole := a + ":" + x;
    assert whole[..|a| + 1] == a + ":" && whole[..|b| + 1] == b + ":";
    if |a| <= |b| {
      assert whole[..|a| + 1] <= whole[..|b| + 1];
    } else {
      assert whole[..|b| + 1] <= whole[..|a| + 1];
    }
    if a == b {
      assert whole[|a| + 1..] == x && whole[|b| + 1..] == y;
    }
  }

  /** Within one message type a key determines its external id. */
  lemma KeyDeterminesId(messageType: string, x: string, y: string)
    ensures MakeKey(messageType, x) == MakeKey(messageType, y) <==> x == y
  {
    if MakeKey(messageType, x) == MakeKey(messageType, y) {
      var head := KEY_PREFIX + ":" + messageType + ":";
      assert MakeKey(messageType, x) == head + x && MakeKey(messageType, y) == head + y;
      assert (head + x)[|head|..] == x && (head + y)[|head|..] == y;
    }
  }

  /**
   Two message types share a key for some external ids exactly when one of them extends
   the other by a colon. Types without colons therefore never meet.
   */
  lemma KeysMeetExactlyOnOverlap(a: string, b: string)
    ensures (exists x, y :: MakeKey(a, x) == MakeKey(b, y)) <==> Overlap(a, b)
    ensures ':' !in a && ':' !in b && Overlap(a, b) ==> a == b
  {
    forall x, y | MakeKey(a, x) == MakeKey(b, y) ensures Overlap(a, b) {
      assert MakeKey(a, x)[|KEY_PREFIX| + 1..] == a + ":" + x;
      assert MakeKey(b, y)[|KEY_PREFIX| + 1..] == b + ":" + y;
      TailsAgree(a, x, b, y);
    }
    if Overlap(a, b) {
      if a + ":" <= b + ":" {
        var x := (b + ":")[|a| + 1..];
        assert a + ":" + x == b + ":" + [];
        assert MakeKey(a, x) == KEY_PREFIX + ":" + (a + ":" + x);
        assert MakeKey(b, []) == KEY_PREFIX + ":" + (b + ":" + []);
        if |a| == |b| {
          assert a == (a + ":")[..|a|] && b == (b + ":")[..|a|];
        } else {
          assert b[|a|] == (b + ":")[|a|] == (a + ":")[|a|];
        }
      } else {
        var y := (a + ":")[|b| + 1..];
        assert b + ":" + y == a + ":" + [];
        assert MakeKey(b, y) == KEY_PREFIX + ":" + (b + ":" + y);
        assert MakeKey(a, []) == KEY_PREFIX + ":" + (a + ":" + []);
        assert |b| < |a| && a[|b|] == (a + ":")[|b|] == (b + ":")[|b|];
      }
    }
  }

  // ----- the server -----

  // What befalls the i-th command, and the time that passes before it.
  datatype Call = Call(elapsed: nat, fault: Fault)

  datatype RedisError = RedisError

  class Server {
    var now: nat
    var data: Store
    var calls: nat
    const plan: nat -> Call

    constructor (plan: nat -> Call)
      ensures now == 0 && data == map[] && calls == 0 && this.plan == plan
    {
      now, data, calls, this.plan := 0, map[], 0, plan;
    }

    /** Time passes outside Redis. */
    method Elapse(elapsed: nat)
      modifies this`now
      ensures now == old(now) + elapsed
    {
      now := now + elapsed;
    }

    /** The next command is on its way. */
    method Dispatch() returns (fault: Fault)
      modifies this`now, this`calls
      ensures calls == old(calls) + 1 && now == old(now) + plan(old(calls)).elapsed
      ensures fault == plan(old(calls)).fault
    {
      now := now + plan(calls).elapsed;
      fault := plan(calls).fault;
      calls := calls + 1;
    }

    method Exists(key: string) returns (r: Result<bool, RedisError>)
      modifies this`now, this`calls
      ensures calls == old(calls) + 1 && now == old(now) + plan(old(calls)).elapsed
      ensures r == if plan(old(calls)).fault == Fine then Success(Live(data, now, key)) else Failure(RedisError)
    {
      var fault := Dispatch();
      r := if fault == Fine then Success(Live(data, now, key)) else Failure(RedisError);
    }

    method Get(key: string) returns (r: Result<Option<Text>, RedisError>)
      modifies this`now, this`calls
      ensures calls == old(calls) + 1 && now == old(now) + plan(old(calls)).elapsed
      ensures r == if plan(old(calls)).fault != Fine then Failure(RedisError)
                   else Success(if Live(data, now, key) then Some(data[key].text) else None)
    {
      var fault := Dispatch();
      if fault != Fine { return Failure(RedisError); }
      r := Success(if Live(data, now, key) then Some(data[key].text) else None);
    }

    /** SETEX. */
    method SetEx(key: string, seconds: nat, text: Text) returns (r: Result<(), RedisError>)
      requires seconds > 0
      modifies this`now, this`calls, this`data
      ensures calls == old(calls) + 1 && now == old(now) + plan(old(calls)).elapsed
      ensures data == if plan(old(calls)).fault == FailBefore then old(data)
                      else old(data)[key := Entry(text, now + 1000 * seconds)]
      ensures r.Success? <==> plan(old(calls)).fault == Fine
    {
      var fault := Dispatch();
      if fault != FailBefore {
        data := data[key := Entry(text, now + 1000 * seconds)];
      }
      r := if fault == Fine then Success(()) else Failure(RedisError);
    }

    /** SET key text NX EX seconds: true when the key was absent and is now set. */
    method SetNx(key: string, seconds: nat, text: Text) returns (r: Result<bool, RedisError>)
      modifies this`now, this`calls, this`data
      ensures calls == old(calls) + 1 && now == old(now) + plan(old(calls)).elapsed
      ensures var fault := plan(old(calls)).fault;
        && data == (if seconds == 0 || fault == FailBefore || Live(old(data), now, key) then old(data)
                    else old(data)[key := Entry(text, now + 1000 * seconds)])
        && r == (if seconds == 0 || fault != Fine then Failure(RedisError)
                 else Success(!Live(old(data), now, key)))
    {
      var fault := Dispatch();
      if seconds == 0 || fault == FailBefore {           // a zero expiry is refused
        return Failure(RedisError);
      }
      var free := !Live(data, now, key);
      if free {
        data := data[key := Entry(text, now + 1000 * seconds)];
      }
      r := if fault == Fine then Success(free) else Failure(RedisError);
    }

    method Delete(key: string) returns (r: Result<(), RedisError>)
      modifies this`now, this`calls, this`data
      ensures calls == old(calls) + 1 && now == old(now) + plan(old(calls)).elapsed
      ensures data == if plan(old(calls)).fault == FailBefore then old(data) else old(data) - {key}
      ensures r.Success? <==> plan(old(calls)).fault == Fine
    {
      var fault := Dispatch();
      if fault != FailBefore {
        data := data - {key};
      }
      r := if fault == Fine then Success(()) else Failure(RedisError);
    }
  }
}
