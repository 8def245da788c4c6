// A query of the service, with nobody else acting, is a sequence of the
// actions that callers interleave.
module QueryActions {
  import opened Lists
  import opened ResultCache
  import opened SingleFlight
  import opened QueryService

  /** An action and the time it is taken at. */
  datatype Timed = Timed(at: nat, action: Action)

  function Until(w: World, at: nat): nat {
    if at > w.clock then at - w.clock else 0
  }

  /** The clock moves on, and the caller acts. */
  function TakeOne(cfg: Settings, w: World, c: Caller, act: Timed): World {
    Apply(cfg, Apply(cfg, w, Tick(Until(w, act.at))), Act(c, act.action))
  }

  function Take(cfg: Settings, w: World, c: Caller, acts: seq<Timed>): World
    decreases |acts|
  {
    if acts == [] then w else Take(cfg, TakeOne(cfg, w, c, acts[0]), c, acts[1..])
  }

  lemma RunSnoc(cfg: Settings, steps: seq<Step>, step: Step)
    ensures Run(cfg, steps + [step]) == Apply(cfg, Run(cfg, steps), step)
  {
    assert (steps + [step])[..|steps + [step]| - 1] == steps;
  }

  /** Timed actions continue a run of the callers. */
  lemma {:induction false} TakeIsRun(cfg: Settings, steps: seq<Step>, c: Caller, acts: seq<Timed>) returns (longer: seq<Step>)
    ensures steps <= longer && Run(cfg, longer) == Take(cfg, Run(cfg, steps), c, acts)
    decreases |acts|
  {
    if acts == [] {
      longer := steps;
    } else {
      var tick := Tick(Until(Run(cfg, steps), acts[0].at));
      var act := Act(c, acts[0].action);
      RunSnoc(cfg, steps, tick);
      RunSnoc(cfg, steps + [tick], act);
      longer := TakeIsRun(cfg, steps + [tick] + [act], c, acts[1..]);
    }
  }

  lemma {:induction false} TakeAppend(cfg: Settings, w: World, c: Caller, a: seq<Timed>, b: seq<Timed>)
    ensures Take(cfg, w, c, a + b) == Take(cfg, Take(cfg, w, c, a), c, b)
    decreases |a|
  {
    if a == [] {
      assert a + b == b;
    } else {
      assert (a + b)[1..] == a[1..] + b;
      TakeAppend(cfg, TakeOne(cfg, w, c, a[0]), c, a[1..], b);
    }
  }

  lemma TakeSingle(cfg: Settings, w: World, c: Caller, act: Timed)
    ensures Take(cfg, w, c, [act]) == TakeOne(cfg, w, c, act)
  {
    assert [act][1..] == [];
  }

  lemma TakeThree(cfg: Settings, w: World, c: Caller, a: Timed, b: Timed, d: Timed)
    ensures Take(cfg, w, c, [a, b, d]) == TakeOne(cfg, TakeOne(cfg, TakeOne(cfg, w, c, a), c, b), c, d)
  {
    assert [a, b, d][1..] == [b, d] && [b, d][1..] == [d];
    TakeSingle(cfg, TakeOne(cfg, TakeOne(cfg, w, c, a), c, b), c, d);
  }

  lemma TakeTwo(cfg: Settings, w: World, c: Caller, a: Timed, b: Timed)
    ensures Take(cfg, w, c, [a, b]) == TakeOne(cfg, TakeOne(cfg, w, c, a), c, b)
  {
    assert [a, b][1..] == [b];
    TakeSingle(cfg, TakeOne(cfg, w, c, a), c, b);
  }

  // ------------------------------------------------------------ the actions

  /** The engine's part: a result is stored, an exception is not, and the lock is released. */
  function EngineActions(o: Outside): seq<Timed> {
    if o.answer.Some? then
      [Timed(o.kept, Answer(o.answer.value)), Timed(o.kept, Store(o.fits)), Timed(o.released, Unlock)]
    else
      [Timed(o.kept, Raise), Timed(o.released, Unlock)]
  }

  /** The lock attempts of a query that looked in vain. */
  function LockActions(shared: Shared, key: Key, o: Outside): seq<Timed> {
    if !Locked(shared, key, o.tried) then [Timed(o.tried, TryLock(o.tokens.0))]
    else [Timed(o.tried, TryLock(o.tokens.0)), Timed(o.waited, TryLock(o.tokens.1))]
  }

  /** What follows the look into the cache. */
  function LaterActions(shared: Shared, plan: Plan, o: Outside): seq<Timed> {
    if plan.key.None? then EngineActions(o)
    else if Lookup(shared, plan.key.value, o.looked).Some? then []
    else if LockAt(shared, plan.key.value, o).None? then LockActions(shared, plan.key.value, o)
    else LockActions(shared, plan.key.value, o) + EngineActions(o)
  }

  function ActionsOf(cfg: Settings, shared: Shared, request: Request, o: Outside): seq<Timed> {
    var plan := PlanOf(cfg, request);
    if plan.None? then [Timed(o.looked, Look)]
    else if !o.prepared then [Timed(o.looked, Raise)]
    else [Timed(o.looked, Look)] + LaterActions(shared, plan.value, o)
  }

  // ---------------------------------------------------------- phase by phase

  /** The cache after the engine's part. */
  function SharedLater(shared: Shared, plan: Plan, lease: Option<Lease>, o: Outside): Shared {
    if plan.key.None? then shared
    else
      var kept := if o.answer.Some? then Keep(shared, plan.key.value, o.answer.value, plan.ttl, o.fits, o.kept).0 else shared;
      if lease.Some? then Release(kept, plan.key.value, lease.value.token, o.released) else kept
  }

  /** The caller is gone, its slot is free, and the cache is as said. */
  predicate Done(cfg: Settings, w: World, c: Caller, after: World, shared: Shared) {
    && after.shared == shared
    && after.callers == w.callers - {c}
    && after.free == w.free[c.process := Free(cfg, w, c.process) + 1]
  }

  /** A world in which only the caller's own place, the locks and the clock differ. */
  predicate Stands(w: World, c: Caller, after: World, pc: Pc, shared: Shared, clock: nat) {
    after.shared == shared && after.callers == w.callers[c := pc] && after.free == w.free && after.clock == clock
  }

  lemma AnswerStep(cfg: Settings, w: World, c: Caller, plan: Plan, lease: Option<Lease>, at: nat, value: Value)
    requires c in w.callers && w.callers[c] == Executing(plan, lease) && w.clock <= at
    ensures Stands(w, c, TakeOne(cfg, w, c, Timed(at, Answer(value))), Executed(plan, lease, value), w.shared, at)
  {
  }

  lemma StoreStep(cfg: Settings, w: World, c: Caller, plan: Plan, lease: Option<Lease>, at: nat, value: Value, fits: bool)
    requires c in w.callers && w.callers[c] == Executed(plan, lease, value) && w.clock <= at
    ensures Stands(w, c, TakeOne(cfg, w, c, Timed(at, Store(fits))), Leaving(plan, lease),
                   if plan.key.None? then w.shared else Keep(w.shared, plan.key.value, value, plan.ttl, fits, at).0, at)
  {
  }

  lemma RaiseStep(cfg: Settings, w: World, c: Caller, plan: Plan, lease: Option<Lease>, at: nat)
    requires c in w.callers && w.callers[c] == Executing(plan, lease) && w.clock <= at
    ensures Stands(w, c, TakeOne(cfg, w, c, Timed(at, Raise)), Leaving(plan, lease), w.shared, at)
  {
  }

  lemma UnlockStep(cfg: Settings, w: World, c: Caller, plan: Plan, lease: Option<Lease>, at: nat)
    requires c in w.callers && w.callers[c] == Leaving(plan, lease) && w.clock <= at
    ensures Done(cfg, w, c, TakeOne(cfg, w, c, Timed(at, Unlock)),
                 if plan.key.Some? && lease.Some? then Release(w.shared, plan.key.value, lease.value.token, at) else w.shared)
  {
  }

  /** What a caller does from a later place on is the end of what it does from an earlier one. */
  lemma DoneLater(cfg: Settings, w: World, c: Caller, later: World, pc: Pc, mid: Shared, clock: nat, after: World, shared: Shared)
    requires Stands(w, c, later, pc, mid, clock) && Done(cfg, later, c, after, shared)
    ensures Done(cfg, w, c, after, shared)
  {
    assert w.callers[c := pc] - {c} == w.callers - {c};
  }

  lemma StandsLater(w: World, c: Caller, later: World, pc: Pc, mid: Shared, clock: nat,
                    after: World, last: Pc, shared: Shared, end: nat)
    requires Stands(w, c, later, pc, mid, clock) && Stands(later, c, after, last, shared, end)
    ensures Stands(w, c, after, last, shared, end)
  {
    assert w.callers[c := pc][c := last] == w.callers[c := last];
  }

  lemma Answered(cfg: Settings, w: World, c: Caller, plan: Plan, lease: Option<Lease>, o: Outside)
    requires c in w.callers && w.callers[c] == Executing(plan, lease) && w.clock <= o.kept <= o.released
    requires o.answer.Some?
    ensures Done(cfg, w, c, Take(cfg, w, c, EngineActions(o)), SharedLater(w.shared, plan, lease, o))
  {
    var value := o.answer.value;
    var a, b, d := Timed(o.kept, Answer(value)), Timed(o.kept, Store(o.fits)), Timed(o.released, Unlock);
    TakeThree(cfg, w, c, a, b, d);
    var w1 := TakeOne(cfg, w, c, a);
    AnswerStep(cfg, w, c, plan, lease, o.kept, value);
    var w2 := TakeOne(cfg, w1, c, b);
    StoreStep(cfg, w1, c, plan, lease, o.kept, value, o.fits);
    StandsLater(w, c, w1, Executed(plan, lease, value), w.shared, o.kept, w2, Leaving(plan, lease), w2.shared, o.kept);
    UnlockStep(cfg, w2, c, plan, lease, o.released);
    DoneLater(cfg, w, c, w2, Leaving(plan, lease), w2.shared, o.kept, TakeOne(cfg, w2, c, d), SharedLater(w.shared, plan, lease, o));
  }

  lemma Raised(cfg: Settings, w: World, c: Caller, plan: Plan, lease: Option<Lease>, o: Outside)
    requires c in w.callers && w.callers[c] == Executing(plan, lease) && w.clock <= o.kept <= o.released
    requires o.answer.None?
    ensures Done(cfg, w, c, Take(cfg, w, c, EngineActions(o)), SharedLater(w.shared, plan, lease, o))
  {
    var a, d := Timed(o.kept, Raise), Timed(o.released, Unlock);
    TakeTwo(cfg, w, c, a, d);
    var w1 := TakeOne(cfg, w, c, a);
    RaiseStep(cfg, w, c, plan, lease, o.kept);
    UnlockStep(cfg, w1, c, plan, lease, o.released);
    DoneLater(cfg, w, c, w1, Leaving(plan, lease), w.shared, o.kept, TakeOne(cfg, w1, c, d), SharedLater(w.shared, plan, lease, o));
  }

  lemma EngineDone(cfg: Settings, w: World, c: Caller, plan: Plan, lease: Option<Lease>, o: Outside)
    requires c in w.callers && w.callers[c] == Executing(plan, lease) && w.clock <= o.kept <= o.released
    ensures Done(cfg, w, c, Take(cfg, w, c, EngineActions(o)), SharedLater(w.shared, plan, lease, o))
  {
    if o.answer.Some? {
      Answered(cfg, w, c, plan, lease, o);
    } else {
      Raised(cfg, w, c, plan, lease, o);
    }
  }

  function LeaseFor(cfg: Settings, plan: Plan, at: (Token, nat)): Lease {
    Lease(at.0, at.1, at.1 + MS * LockSeconds(cfg, plan))
  }

  function WithLock(shared: Shared, key: Key, lease: Lease): Shared {
    shared.(locks := shared.locks[key := lease])
  }

  lemma TryTakes(cfg: Settings, w: World, c: Caller, plan: Plan, at: nat, token: Token)
    requires c in w.callers && (w.callers[c] == Missed(plan) || w.callers[c] == Waiting(plan)) && w.clock <= at
    requires plan.key.Some? && token !in w.used && !Locked(w.shared, plan.key.value, at)
    ensures var lease := LeaseFor(cfg, plan, (token, at));
      Stands(w, c, TakeOne(cfg, w, c, Timed(at, TryLock(token))), Executing(plan, Some(lease)),
             WithLock(w.shared, plan.key.value, lease), at)
  {
  }

  lemma TryWaits(cfg: Settings, w: World, c: Caller, plan: Plan, at: nat, token: Token)
    requires c in w.callers && w.callers[c] == Missed(plan) && w.clock <= at
    requires plan.key.Some? && token !in w.used && Locked(w.shared, plan.key.value, at)
    ensures Stands(w, c, TakeOne(cfg, w, c, Timed(at, TryLock(token))), Waiting(plan), w.shared, at)
    ensures TakeOne(cfg, w, c, Timed(at, TryLock(token))).used == w.used
  {
  }

  lemma TryGivesUp(cfg: Settings, w: World, c: Caller, plan: Plan, at: nat, token: Token)
    requires c in w.callers && w.callers[c] == Waiting(plan) && w.clock <= at
    requires plan.key.Some? && token !in w.used && Locked(w.shared, plan.key.value, at)
    ensures Done(cfg, w, c, TakeOne(cfg, w, c, Timed(at, TryLock(token))), w.shared)
  {
  }

  lemma SecondTakes(cfg: Settings, w: World, c: Caller, plan: Plan, o: Outside)
    requires c in w.callers && w.callers[c] == Missed(plan) && plan.key.Some? && w.clock <= o.tried <= o.waited
    requires o.tokens.0 !in w.used && o.tokens.1 !in w.used
    requires Locked(w.shared, plan.key.value, o.tried) && !Locked(w.shared, plan.key.value, o.waited)
    ensures var lease := LeaseFor(cfg, plan, (o.tokens.1, o.waited));
      Stands(w, c, Take(cfg, w, c, [Timed(o.tried, TryLock(o.tokens.0)), Timed(o.waited, TryLock(o.tokens.1))]),
             Executing(plan, Some(lease)), WithLock(w.shared, plan.key.value, lease), o.waited)
  {
    var a, b := Timed(o.tried, TryLock(o.tokens.0)), Timed(o.waited, TryLock(o.tokens.1));
    var lease := LeaseFor(cfg, plan, (o.tokens.1, o.waited));
    TakeTwo(cfg, w, c, a, b);
    TryWaits(cfg, w, c, plan, o.tried, o.tokens.0);
    var w1 := TakeOne(cfg, w, c, a);
    TryTakes(cfg, w1, c, plan, o.waited, o.tokens.1);
    StandsLater(w, c, w1, Waiting(plan), w.shared, o.tried, TakeOne(cfg, w1, c, b), Executing(plan, Some(lease)),
                WithLock(w.shared, plan.key.value, lease), o.waited);
  }

  lemma LockTaken(cfg: Settings, w: World, c: Caller, plan: Plan, o: Outside)
    requires c in w.callers && w.callers[c] == Missed(plan) && plan.key.Some? && w.clock <= o.tried <= o.waited
    requires o.tokens.0 !in w.used && o.tokens.1 !in w.used && o.seen.None?
    requires LockAt(w.shared, plan.key.value, o).Some?
    ensures var key := plan.key.value; var at := LockAt(w.shared, key, o).value; var lease := LeaseFor(cfg, plan, at);
      Stands(w, c, Take(cfg, w, c, LockActions(w.shared, key, o)), Executing(plan, Some(lease)),
             WithLock(w.shared, key, lease), at.1)
  {
    if !Locked(w.shared, plan.key.value, o.tried) {
      TakeSingle(cfg, w, c, Timed(o.tried, TryLock(o.tokens.0)));
      TryTakes(cfg, w, c, plan, o.tried, o.tokens.0);
    } else {
      SecondTakes(cfg, w, c, plan, o);
    }
  }

  lemma LockRefused(cfg: Settings, w: World, c: Caller, plan: Plan, o: Outside)
    requires c in w.callers && w.callers[c] == Missed(plan) && plan.key.Some? && w.clock <= o.tried <= o.waited
    requires o.tokens.0 !in w.used && o.tokens.1 !in w.used && o.seen.None?
    requires LockAt(w.shared, plan.key.value, o).None?
    ensures Done(cfg, w, c, Take(cfg, w, c, LockActions(w.shared, plan.key.value, o)), w.shared)
  {
    var a, b := Timed(o.tried, TryLock(o.tokens.0)), Timed(o.waited, TryLock(o.tokens.1));
    TakeTwo(cfg, w, c, a, b);
    TryWaits(cfg, w, c, plan, o.tried, o.tokens.0);
    var w1 := TakeOne(cfg, w, c, a);
    TryGivesUp(cfg, w1, c, plan, o.waited, o.tokens.1);
    DoneLater(cfg, w, c, w1, Waiting(plan), w.shared, o.tried, TakeOne(cfg, w1, c, b), w.shared);
  }

  /** From a caller that looked in vain and gets the lock. */
  lemma RunsAfterMiss(cfg: Settings, w: World, c: Caller, plan: Plan, o: Outside)
    requires c in w.callers && w.callers[c] == Missed(plan) && plan.key.Some?
    requires QueryService.Ordered(o) && w.clock <= o.tried
    requires o.tokens.0 !in w.used && o.tokens.1 !in w.used && o.seen.None?
    requires LockAt(w.shared, plan.key.value, o).Some?
    ensures var key := plan.key.value; var lease := LeaseFor(cfg, plan, LockAt(w.shared, key, o).value);
      Done(cfg, w, c, Take(cfg, w, c, LockActions(w.shared, key, o) + EngineActions(o)),
           SharedLater(WithLock(w.shared, key, lease), plan, Some(lease), o))
  {
    var key := plan.key.value;
    var at := LockAt(w.shared, key, o).value;
    var lease := LeaseFor(cfg, plan, at);
    LockTaken(cfg, w, c, plan, o);
    TakeAppend(cfg, w, c, LockActions(w.shared, key, o), EngineActions(o));
    var taken := Take(cfg, w, c, LockActions(w.shared, key, o));
    EngineDone(cfg, taken, c, plan, Some(lease), o);
    DoneLater(cfg, w, c, taken, Executing(plan, Some(lease)), taken.shared, at.1,
              Take(cfg, taken, c, EngineActions(o)), SharedLater(taken.shared, plan, Some(lease), o));
  }

  /**
   * With nobody else acting, an admitted query is a sequence of the caller's
   * actions: the cache ends up as the query leaves it, and the slot is free.
   */
  lemma QueryIsActions(cfg: Settings, w: World, c: Caller, request: Request, o: Outside)
    requires c in w.callers && w.callers[c] == Admitted(request)
    requires QueryService.Ordered(o) && w.clock <= o.looked && o.seen.None?
    requires o.tokens.0 !in w.used && o.tokens.1 !in w.used
    ensures Done(cfg, w, c, Take(cfg, w, c, ActionsOf(cfg, w.shared, request, o)), SharedAfter(cfg, w.shared, request, o))
  {
    var plan := PlanOf(cfg, request);
    if plan.None? {
      TakeSingle(cfg, w, c, Timed(o.looked, Look));
    } else if !o.prepared {
      TakeSingle(cfg, w, c, Timed(o.looked, Raise));
    } else {
      LookThen(cfg, w, c, request, plan.value, o);
    }
  }

  lemma LookStep(cfg: Settings, w: World, c: Caller, request: Request, plan: Plan, at: nat)
    requires c in w.callers && w.callers[c] == Admitted(request) && PlanOf(cfg, request) == Some(plan) && w.clock <= at
    ensures var after := TakeOne(cfg, w, c, Timed(at, Look));
      && after.used == w.used
      && (plan.key.None? ==> Stands(w, c, after, Executing(plan, None), w.shared, at))
      && (plan.key.Some? && Lookup(w.shared, plan.key.value, at).Some? ==> Done(cfg, w, c, after, w.shared))
      && (plan.key.Some? && Lookup(w.shared, plan.key.value, at).None? ==> Stands(w, c, after, Missed(plan), w.shared, at))
  {
  }

  /** What a caller does after it looked in vain. */
  lemma MissThen(cfg: Settings, w: World, c: Caller, plan: Plan, request: Request, o: Outside)
    requires c in w.callers && w.callers[c] == Missed(plan) && PlanOf(cfg, request) == Some(plan) && o.prepared
    requires plan.key.Some? && Lookup(w.shared, plan.key.value, o.looked).None?
    requires QueryService.Ordered(o) && w.clock <= o.tried && o.seen.None?
    requires o.tokens.0 !in w.used && o.tokens.1 !in w.used
    ensures Done(cfg, w, c, Take(cfg, w, c, LaterActions(w.shared, plan, o)), SharedAfter(cfg, w.shared, request, o))
  {
    if LockAt(w.shared, plan.key.value, o).None? {
      LockRefused(cfg, w, c, plan, o);
    } else {
      RunsAfterMiss(cfg, w, c, plan, o);
    }
  }

  lemma LookThen(cfg: Settings, w: World, c: Caller, request: Request, plan: Plan, o: Outside)
    requires c in w.callers && w.callers[c] == Admitted(request) && PlanOf(cfg, request) == Some(plan) && o.prepared
    requires QueryService.Ordered(o) && w.clock <= o.looked && o.seen.None?
    requires o.tokens.0 !in w.used && o.tokens.1 !in w.used
    ensures Done(cfg, w, c, Take(cfg, w, c, [Timed(o.looked, Look)] + LaterActions(w.shared, plan, o)),
                 SharedAfter(cfg, w.shared, request, o))
  {
    var look, later := Timed(o.looked, Look), LaterActions(w.shared, plan, o);
    TakeAppend(cfg, w, c, [look], later);
    TakeSingle(cfg, w, c, look);
    LookStep(cfg, w, c, request, plan, o.looked);
    var w1 := TakeOne(cfg, w, c, look);
    if plan.key.None? {
      EngineDone(cfg, w1, c, plan, None, o);
      DoneLater(cfg, w, c, w1, Executing(plan, None), w.shared, o.looked, Take(cfg, w1, c, later), w.shared);
    } else if Lookup(w.shared, plan.key.value, o.looked).None? {
      MissThen(cfg, w1, c, plan, request, o);
      DoneLater(cfg, w, c, w1, Missed(plan), w.shared, o.looked, Take(cfg, w1, c, later), SharedAfter(cfg, w.shared, request, o));
    }
  }

  /** The other way to answer: a caller that waits and sees a value is served with it, and its slot is free. */
  lemma WaiterIsServed(cfg: Settings, w: World, c: Caller, plan: Plan, at: nat)
    requires c in w.callers && w.callers[c] == Waiting(plan) && plan.key.Some? && w.clock <= at
    requires Lookup(w.shared, plan.key.value, at).Some?
    ensures var after := TakeOne(cfg, w, c, Timed(at, Action.Poll));
      && Done(cfg, w, c, after, w.shared)
      && after.history == w.history + [Served(plan.key.value, Lookup(w.shared, plan.key.value, at).value, at)]
  {
  }
}
