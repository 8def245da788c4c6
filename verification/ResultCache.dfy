// The shared result cache on the Valkey server: values and single-flight locks
// that expire, and a release that deletes a lock only for its owner.
module ResultCache {
  import opened Lists

  type Key = nat
  type Token = nat
  type Value = nat

  const MS: nat := 1000

  /** A value with the time it was stored at and the time it expires, in milliseconds. */
  datatype Stored = Stored(value: Value, at: nat, until: nat)

  datatype Lease = Lease(token: Token, since: nat, until: nat)

  datatype Shared = Shared(values: map<Key, Stored>, locks: map<Key, Lease>)

  function Lookup(shared: Shared, key: Key, now: nat): Option<Value> {
    if key in shared.values && now < shared.values[key].until then Some(shared.values[key].value) else None
  }

  /** Not stored without a time to live, nor if the compressed value is too large. */
  function Keep(shared: Shared, key: Key, value: Value, ttl: int, fits: bool, now: nat): (Shared, bool) {
    if ttl <= 0 || !fits then (shared, false)
    else (shared.(values := shared.values[key := Stored(value, now, now + MS * ttl)]), true)
  }

  predicate Locked(shared: Shared, key: Key, now: nat) {
    key in shared.locks && now < shared.locks[key].until
  }

  function Acquire(shared: Shared, key: Key, token: Token, seconds: nat, now: nat): (Shared, Option<Lease>) {
    if Locked(shared, key, now) then (shared, None)
    else
      var lease := Lease(token, now, now + MS * seconds);
      (shared.(locks := shared.locks[key := lease]), Some(lease))
  }

  function Release(shared: Shared, key: Key, token: Token, now: nat): Shared {
    if Locked(shared, key, now) && shared.locks[key].token == token then
      shared.(locks := shared.locks - {key})
    else
      shared
  }

  /** One turn of `wait`: the clock before it and what the look into the cache found. */
  datatype Poll = Poll(now: real, seen: Option<Value>)

  const FIRST_PAUSE := 0.01
  const LONGEST_PAUSE := 0.25

  /** How many turns come before the deadline. */
  function TurnsBefore(polls: seq<Poll>, deadline: real): (n: nat)
    ensures n <= |polls|
    ensures forall i | 0 <= i < n :: polls[i].now < deadline
    ensures n < |polls| ==> polls[n].now >= deadline
  {
    if polls == [] || polls[0].now >= deadline then 0 else 1 + TurnsBefore(polls[1..], deadline)
  }

  class ValkeyResultCache {
    var values: map<Key, Stored>
    var locks: map<Key, Lease>

    function View(): Shared
      reads this
    {
      Shared(values, locks)
    }

    constructor ()
      ensures View() == Shared(map[], map[])
    {
      values, locks := map[], map[];
    }

    method Get(key: Key, now: nat) returns (value: Option<Value>)
      ensures value == Lookup(View(), key, now)
    {
      if key !in values || values[key].until <= now {
        return None;
      }
      return Some(values[key].value);
    }

    method Set(key: Key, value: Value, ttl: int, fits: bool, now: nat) returns (stored: bool)
      modifies this
      ensures (View(), stored) == Keep(old(View()), key, value, ttl, fits, now)
    {
      if ttl <= 0 {
        return false;
      }
      if !fits {
        return false;
      }
      values := values[key := Stored(value, now, now + MS * ttl)];
      return true;
    }

    /**
     * Waits for another caller's value: the first one seen before the deadline,
     * with pauses that grow by half up to a quarter of a second.
     */
    static method Wait(polls: seq<Poll>, deadline: real) returns (value: Option<Value>, pauses: seq<real>)
      ensures |pauses| <= TurnsBefore(polls, deadline)
      ensures forall i | 0 <= i < |pauses| :: polls[i].seen.None?
      ensures value.Some? ==> |pauses| < TurnsBefore(polls, deadline) && polls[|pauses|].seen == value
      ensures value.None? ==> |pauses| == TurnsBefore(polls, deadline)
      ensures forall i | 0 <= i < |pauses| :: FIRST_PAUSE <= pauses[i] <= LONGEST_PAUSE
      ensures forall i | 0 < i < |pauses| ::
        pauses[i] == if pauses[i - 1] * 1.5 < LONGEST_PAUSE then pauses[i - 1] * 1.5 else LONGEST_PAUSE
    {
      pauses := [];
      var pause := FIRST_PAUSE;
      var turn := 0;
      while turn < |polls| && polls[turn].now < deadline
        invariant turn == |pauses| <= TurnsBefore(polls, deadline)
        invariant forall i | 0 <= i < turn :: polls[i].seen.None?
        invariant FIRST_PAUSE <= pause <= LONGEST_PAUSE
        invariant forall i | 0 <= i < turn :: FIRST_PAUSE <= pauses[i] <= LONGEST_PAUSE
        invariant turn == 0 ==> pause == FIRST_PAUSE
        invariant turn > 0 ==>
          pause == if pauses[turn - 1] * 1.5 < LONGEST_PAUSE then pauses[turn - 1] * 1.5 else LONGEST_PAUSE
        invariant forall i | 0 < i < turn ::
          pauses[i] == if pauses[i - 1] * 1.5 < LONGEST_PAUSE then pauses[i - 1] * 1.5 else LONGEST_PAUSE
      {
        if polls[turn].seen.Some? {
          return polls[turn].seen, pauses;
        }
        pauses := pauses + [pause];
        pause := if pause * 1.5 < LONGEST_PAUSE then pause * 1.5 else LONGEST_PAUSE;
        turn := turn + 1;
      }
      value := None;
    }

    method TryAcquire(key: Key, token: Token, seconds: nat, now: nat) returns (lease: Option<Lease>)
      modifies this
      ensures (View(), lease) == Acquire(old(View()), key, token, seconds, now)
    {
      if key in locks && now < locks[key].until {
        return None;
      }
      locks := locks[key := Lease(token, now, now + MS * seconds)];
      return Some(locks[key]);
    }

    method Unlock(key: Key, token: Token, now: nat)
      modifies this
      ensures View() == Release(old(View()), key, token, now)
    {
      if key in locks && now < locks[key].until && locks[key].token == token {
        locks := locks - {key};
      }
    }
  }
}
