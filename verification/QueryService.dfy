// One query of the service from admission to its answer, over the shared
// result cache, with nobody else writing to it meanwhile.
module QueryService {
  import opened Lists
  import opened ResultCache
  import opened SingleFlight

  datatype Reply =
    | Rejected
    | Full                              // no free slot
    | Busy                              // an equivalent query is already running
    | Hit(value: Value)
    | Coalesced(value: Value)
    | Fresh(value: Value)
    | Failed                            // preparation or execution raised

  /** What happens around one query: clock readings in order, fresh tokens, and the engine's replies. */
  datatype Outside = Outside(
    tokens: (Token, Token),
    looked: nat, tried: nat, waited: nat, kept: nat, released: nat,
    prepared: bool,
    seen: Option<Value>,                // what the wait for another caller's result ended with
    answer: Option<Value>,              // what the engine returned, if it did not raise
    fits: bool)

  predicate Ordered(o: Outside) {
    o.looked <= o.tried <= o.waited <= o.kept <= o.released && o.tokens.0 != o.tokens.1
  }

  predicate NewToken(shared: Shared, token: Token) {
    forall key | key in shared.locks :: shared.locks[key].token != token
  }

  /** Which lock attempt succeeds, if any. */
  function LockAt(shared: Shared, key: Key, o: Outside): Option<(Token, nat)> {
    if !Locked(shared, key, o.tried) then Some((o.tokens.0, o.tried))
    else if o.seen.None? && !Locked(shared, key, o.waited) then Some((o.tokens.1, o.waited))
    else None
  }

  /** The reply, without saying how the locks get there. */
  function ReplyFor(cfg: Settings, shared: Shared, request: Request, free: nat, o: Outside): Reply {
    var plan := PlanOf(cfg, request);
    var ran := if o.answer.Some? then Fresh(o.answer.value) else Failed;
    if Timeout(cfg, request).None? then Rejected
    else if free == 0 then Full
    else if plan.None? then Rejected
    else if !o.prepared then Failed
    else if plan.value.key.None? then ran
    else
      var key := plan.value.key.value;
      var cached := Lookup(shared, key, o.looked);
      if cached.Some? then Hit(cached.value)
      else if LockAt(shared, key, o).Some? then ran
      else if o.seen.Some? then Coalesced(o.seen.value)
      else Busy
  }

  /** The values afterwards: the fresh result of a keyed query, if it can be kept. */
  function ValuesAfter(cfg: Settings, shared: Shared, request: Request, free: nat, o: Outside): map<Key, Stored> {
    var reply := ReplyFor(cfg, shared, request, free, o);
    var plan := PlanOf(cfg, request);
    if reply.Fresh? && plan.Some? && plan.value.key.Some? && o.fits then
      shared.values[plan.value.key.value := Stored(reply.value, o.kept, o.kept + MS * plan.value.ttl)]
    else
      shared.values
  }

  /** The shared cache afterwards, locks included. */
  function SharedAfter(cfg: Settings, shared: Shared, request: Request, o: Outside): Shared {
    var plan := PlanOf(cfg, request);
    if plan.None? || !o.prepared || plan.value.key.None? then shared
    else
      var key := plan.value.key.value;
      var at := LockAt(shared, key, o);
      if Lookup(shared, key, o.looked).Some? || at.None? then shared
      else
        var (token, since) := at.value;
        var locked := shared.(locks := shared.locks[key := Lease(token, since, since + MS * LockSeconds(cfg, plan.value))]);
        var kept := if o.answer.Some? then Keep(locked, key, o.answer.value, plan.value.ttl, o.fits, o.kept).0 else locked;
        Release(kept, key, token, o.released)
  }

  class Service {
    const cfg: Settings
    const cache: ValkeyResultCache
    var free: nat

    constructor (cfg: Settings, cache: ValkeyResultCache)
      ensures this.cfg == cfg && this.cache == cache && free == cfg.slots
    {
      this.cfg, this.cache, this.free := cfg, cache, cfg.slots;
    }

    /** The lock attempts: at once, and once more after waiting in vain. */
    method Lock(key: Key, plan: Plan, o: Outside) returns (lease: Option<Lease>, coalesced: Option<Value>)
      modifies cache
      ensures cache.values == old(cache.values)
      ensures var at := LockAt(old(cache.View()), key, o);
        && (at.None? ==> lease.None? && cache.locks == old(cache.locks) && coalesced == o.seen)
        && (at.Some? ==>
              && coalesced.None?
              && lease == Some(Lease(at.value.0, at.value.1, at.value.1 + MS * LockSeconds(cfg, plan)))
              && cache.locks == old(cache.locks)[key := lease.value])
    {
      lease := cache.TryAcquire(key, o.tokens.0, LockSeconds(cfg, plan), o.tried);
      coalesced := None;
      if lease.None? {
        if o.seen.Some? {
          return None, o.seen;
        }
        lease := cache.TryAcquire(key, o.tokens.1, LockSeconds(cfg, plan), o.waited);
      }
    }

    /** Runs the engine, keeps what it returned and releases the lock whatever happened. */
    method RunAndRelease(plan: Plan, lease: Option<Lease>, o: Outside) returns (reply: Reply)
      modifies cache
      ensures reply == if o.answer.Some? then Fresh(o.answer.value) else Failed
      ensures cache.values ==
        if plan.key.Some? && o.answer.Some? then
          Keep(old(cache.View()), plan.key.value, o.answer.value, plan.ttl, o.fits, o.kept).0.values
        else old(cache.values)
      ensures cache.locks ==
        if plan.key.Some? && lease.Some? then
          Release(old(cache.View()), plan.key.value, lease.value.token, o.released).locks
        else old(cache.locks)
    {
      reply := Failed;
      if o.answer.Some? {
        if plan.key.Some? {
          var stored := cache.Set(plan.key.value, o.answer.value, plan.ttl, o.fits, o.kept);
        }
        reply := Fresh(o.answer.value);
      }
      if plan.key.Some? && lease.Some? {
        cache.Unlock(plan.key.value, lease.value.token, o.released);
      }
    }

    method ExecuteAdmitted(request: Request, o: Outside) returns (reply: Reply)
      requires Ordered(o)
      requires Timeout(cfg, request).Some?
      modifies cache
      ensures reply == ReplyFor(cfg, old(cache.View()), request, 1, o)
      ensures reply == Rejected <==> EffectiveTtl(cfg, request) > cfg.maxTtl
      ensures reply != Rejected && (!o.prepared || !MayCache(cfg, request)) ==>
        && cache.View() == old(cache.View())
        && reply == if o.prepared && o.answer.Some? then Fresh(o.answer.value) else Failed
      ensures reply.Hit? ==> MayCache(cfg, request) && Lookup(old(cache.View()), request.fingerprint, o.looked) == Some(reply.value)
      ensures cache.View() == SharedAfter(cfg, old(cache.View()), request, o)
      ensures cache.values == ValuesAfter(cfg, old(cache.View()), request, 1, o)
      ensures LocksAfter(old(cache.View()), cache.View(), o)
    {
      PlanMeans(cfg, request);
      var ttl := Ttl(cfg, request);
      if ttl.None? {
        return Rejected;
      }
      var plan := PlanOf(cfg, request).value;
      if !o.prepared {
        return Failed;
      }
      var lease: Option<Lease> := None;
      if plan.key.Some? {
        var key := plan.key.value;
        var cached := cache.Get(key, o.looked);
        if cached.Some? {
          return Hit(cached.value);
        }
        var coalesced: Option<Value>;
        lease, coalesced := Lock(key, plan, o);
        if lease.None? {
          return if coalesced.Some? then Coalesced(coalesced.value) else Busy;
        }
      }
      reply := RunAndRelease(plan, lease, o);
    }

    /** On every path, exceptions included, the slot is free again and no lock is left behind. */
    method Execute(request: Request, o: Outside) returns (reply: Reply)
      requires Ordered(o)
      modifies this, cache
      ensures free == old(free)
      ensures old(free) > 0 ==>
        (reply == Rejected <==>
           EffectiveTtl(cfg, request) > cfg.maxTtl || EffectiveTimeout(cfg, request) > cfg.maxTimeout)
      ensures reply == Full <==> old(free) == 0 && EffectiveTimeout(cfg, request) <= cfg.maxTimeout
      ensures !MayCache(cfg, request) ==> cache.View() == old(cache.View())
      ensures reply == ReplyFor(cfg, old(cache.View()), request, old(free), o)
      ensures cache.values == ValuesAfter(cfg, old(cache.View()), request, old(free), o)
      ensures LocksAfter(old(cache.View()), cache.View(), o)
    {
      PlanMeans(cfg, request);
      if Timeout(cfg, request).None? {
        return Rejected;
      }
      if free == 0 {
        return Full;
      }
      free := free - 1;
      reply := ExecuteAdmitted(request, o);
      free := free + 1;
    }
  }

  /** No lock of this query is left that is still live, and the live locks of others are as they were. */
  ghost predicate LocksAfter(before: Shared, after: Shared, o: Outside) {
    && (NewToken(before, o.tokens.0) && NewToken(before, o.tokens.1) ==>
          forall key | Locked(after, key, o.released) ::
            after.locks[key].token != o.tokens.0 && after.locks[key].token != o.tokens.1)
    && (forall key | Locked(before, key, o.released) :: key in after.locks && after.locks[key] == before.locks[key])
  }
}
