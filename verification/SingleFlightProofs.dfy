// What holds in every run of the callers: leases exclude each other, cached
// answers are recent results of the engine, and no slot is lost.
module SingleFlightProofs {
  import opened Lists
  import opened ResultCache
  import opened SingleFlight

  // ------------------------------------------------------------------ leases

  /** The lease a caller believes it has. */
  function LeaseOf(pc: Pc): Option<Lease> {
    match pc
    case Executing(_, lease) => lease
    case Executed(_, lease, _) => lease
    case Leaving(_, lease) => lease
    case _ => None
  }

  function KeyOf(pc: Pc): Option<Key> {
    match pc
    case Admitted(_) => None
    case Missed(plan) => plan.key
    case Waiting(plan) => plan.key
    case Executing(plan, _) => plan.key
    case Executed(plan, _, _) => plan.key
    case Leaving(plan, _) => plan.key
  }

  function PlanIn(pc: Pc): Option<Plan> {
    match pc
    case Admitted(_) => None
    case Missed(plan) => Some(plan)
    case Waiting(plan) => Some(plan)
    case Executing(plan, _) => Some(plan)
    case Executed(plan, _, _) => Some(plan)
    case Leaving(plan, _) => Some(plan)
  }

  predicate HasLease(w: World, c: Caller) {
    c in w.callers && LeaseOf(w.callers[c]).Some?
  }

  function LeaseIn(w: World, c: Caller): Lease
    requires HasLease(w, c)
  {
    LeaseOf(w.callers[c]).value
  }

  /** Until its lease ends the lock is the caller's. */
  predicate LeaseOk(cfg: Settings, w: World, c: Caller) {
    HasLease(w, c) ==>
      var pc, lease := w.callers[c], LeaseIn(w, c);
      && lease.token in w.used
      && KeyOf(pc).Some?
      && lease.until == lease.since + MS * LockSeconds(cfg, PlanIn(pc).value)
      && (w.clock < lease.until ==> KeyOf(pc).value in w.shared.locks && w.shared.locks[KeyOf(pc).value] == lease)
  }

  /** Past `Missed` a caller that has a key to run for also has a lease. */
  predicate KeyedRunsLocked(w: World, c: Caller) {
    c in w.callers && w.callers[c].Executing? && KeyOf(w.callers[c]).Some? ==> HasLease(w, c)
  }

  predicate Apart(w: World, c: Caller, d: Caller) {
    c != d && HasLease(w, c) && HasLease(w, d) ==> LeaseIn(w, c).token != LeaseIn(w, d).token
  }

  ghost predicate Leased(cfg: Settings, w: World) {
    && (forall c :: LeaseOk(cfg, w, c) && KeyedRunsLocked(w, c))
    && (forall c, d :: Apart(w, c, d))
  }

  /** An action of one caller leaves the others where they are. */
  lemma OthersStay(cfg: Settings, w: World, c: Caller, action: Action, d: Caller)
    requires d != c
    ensures d in DoAct(cfg, w, c, action).callers <==> d in w.callers
    ensures d in w.callers ==> DoAct(cfg, w, c, action).callers[d] == w.callers[d]
    ensures w.used <= DoAct(cfg, w, c, action).used && DoAct(cfg, w, c, action).clock == w.clock
  {
  }

  /** A lock that has not ended changes only if the caller that owns it lets go of it. */
  lemma LocksStay(cfg: Settings, w: World, c: Caller, action: Action, key: Key)
    requires Locked(w.shared, key, w.clock)
    requires HasLease(w, c) ==> LeaseIn(w, c).token != w.shared.locks[key].token
    ensures key in DoAct(cfg, w, c, action).shared.locks
    ensures DoAct(cfg, w, c, action).shared.locks[key] == w.shared.locks[key]
  {
  }

  /** What the actor's own lease becomes: the same, none, or a new one of a token not used before. */
  lemma OwnLease(cfg: Settings, w: World, c: Caller, action: Action)
    ensures var after := DoAct(cfg, w, c, action);
      HasLease(after, c) ==> (HasLease(w, c) && LeaseIn(after, c) == LeaseIn(w, c)) || LeaseIn(after, c).token !in w.used
  {
  }

  lemma OwnLeaseOk(cfg: Settings, w: World, c: Caller, action: Action)
    requires LeaseOk(cfg, w, c) && KeyedRunsLocked(w, c)
    ensures LeaseOk(cfg, DoAct(cfg, w, c, action), c)
    ensures KeyedRunsLocked(DoAct(cfg, w, c, action), c)
  {
  }

  lemma OtherLeaseOk(cfg: Settings, w: World, c: Caller, action: Action, d: Caller)
    requires d != c && LeaseOk(cfg, w, d) && KeyedRunsLocked(w, d) && Apart(w, c, d)
    ensures LeaseOk(cfg, DoAct(cfg, w, c, action), d)
    ensures KeyedRunsLocked(DoAct(cfg, w, c, action), d)
  {
    OthersStay(cfg, w, c, action, d);
    if HasLease(w, d) && w.clock < LeaseIn(w, d).until {
      LocksStay(cfg, w, c, action, KeyOf(w.callers[d]).value);
    }
  }

  lemma ActApart(cfg: Settings, w: World, c: Caller, action: Action, d: Caller)
    requires d != c && Apart(w, c, d) && LeaseOk(cfg, w, d)
    ensures Apart(DoAct(cfg, w, c, action), c, d) && Apart(DoAct(cfg, w, c, action), d, c)
  {
    OthersStay(cfg, w, c, action, d);
    OwnLease(cfg, w, c, action);
  }

  lemma ActKeepsLeased(cfg: Settings, w: World, c: Caller, action: Action)
    requires Leased(cfg, w)
    ensures Leased(cfg, DoAct(cfg, w, c, action))
  {
    var after := DoAct(cfg, w, c, action);
    forall d
      ensures LeaseOk(cfg, after, d) && KeyedRunsLocked(after, d)
    {
      if d == c {
        OwnLeaseOk(cfg, w, c, action);
      } else {
        assert Apart(w, c, d);
        OtherLeaseOk(cfg, w, c, action, d);
      }
    }
    forall d, e
      ensures Apart(after, d, e)
    {
      assert Apart(w, d, e);
      if d == c && e != c {
        ActApart(cfg, w, c, action, e);
      } else if e == c && d != c {
        assert Apart(w, c, d);
        ActApart(cfg, w, c, action, d);
      } else if d != c {
        OthersStay(cfg, w, c, action, d);
        OthersStay(cfg, w, c, action, e);
      }
    }
  }

  lemma StepKeepsLeased(cfg: Settings, w: World, step: Step)
    requires Leased(cfg, w)
    ensures Leased(cfg, Apply(cfg, w, step))
  {
    if step.Act? {
      ActKeepsLeased(cfg, w, step.caller, step.action);
    } else {
      var after := Apply(cfg, w, step);
      forall c
        ensures LeaseOk(cfg, after, c) && KeyedRunsLocked(after, c)
      {
        assert LeaseOk(cfg, w, c) && KeyedRunsLocked(w, c);
      }
      forall c, d
        ensures Apart(after, c, d)
      {
        assert Apart(w, c, d);
      }
    }
  }

  lemma {:induction false} AlwaysLeased(cfg: Settings, steps: seq<Step>)
    ensures Leased(cfg, Run(cfg, steps))
  {
    if steps != [] {
      var m := |steps| - 1;
      AlwaysLeased(cfg, steps[..m]);
      StepKeepsLeased(cfg, Run(cfg, steps[..m]), steps[m]);
    }
  }

  predicate RunsFor(w: World, c: Caller, key: Key) {
    c in w.callers && w.callers[c].Executing? && KeyOf(w.callers[c]) == Some(key)
  }

  /** An execution that goes on no longer than the query's own limit and thirty seconds after its lock was taken. */
  predicate OnTime(w: World, c: Caller) {
    HasLease(w, c) ==> w.clock < LeaseIn(w, c).since + MS * (PlanIn(w.callers[c]).value.timeout + 30)
  }

  /** In every reachable state, of two executions for one key one has outlived its lease. */
  lemma NoOverlap(cfg: Settings, steps: seq<Step>, c: Caller, d: Caller, key: Key)
    requires c != d && RunsFor(Run(cfg, steps), c, key) && RunsFor(Run(cfg, steps), d, key)
    ensures var w := Run(cfg, steps);
      && HasLease(w, c) && HasLease(w, d)
      && (w.clock >= LeaseIn(w, c).until || w.clock >= LeaseIn(w, d).until)
      && !(OnTime(w, c) && OnTime(w, d))
  {
    AlwaysLeased(cfg, steps);
    var w := Run(cfg, steps);
    assert KeyedRunsLocked(w, c) && KeyedRunsLocked(w, d);
    assert LeaseOk(cfg, w, c) && LeaseOk(cfg, w, d) && Apart(w, c, d);
  }

  /** No action of another caller, a late release least of all, frees a lock whose owner is in time. */
  lemma LateReleaseIsHarmless(cfg: Settings, steps: seq<Step>, c: Caller, action: Action, d: Caller)
    requires c != d && HasLease(Run(cfg, steps), d) && Run(cfg, steps).clock < LeaseIn(Run(cfg, steps), d).until
    ensures var w := Run(cfg, steps); var key := KeyOf(w.callers[d]);
      && key.Some?
      && key.value in DoAct(cfg, w, c, action).shared.locks
      && DoAct(cfg, w, c, action).shared.locks[key.value] == LeaseIn(w, d)
  {
    AlwaysLeased(cfg, steps);
    var w := Run(cfg, steps);
    assert LeaseOk(cfg, w, d) && Apart(w, c, d);
    LocksStay(cfg, w, c, action, KeyOf(w.callers[d]).value);
  }

  /**
   * Whatever happens while a caller has a lock, an exception included, it goes
   * on to release it: it leaves only by that release, or if that itself raises.
   * After the release no lock of its own is left.
   */
  lemma LeavesOnlyByReleasing(cfg: Settings, w: World, c: Caller, action: Action)
    requires HasLease(w, c) && KeyOf(w.callers[c]).Some?
    ensures var after := DoAct(cfg, w, c, action);
      && (c !in after.callers ==> w.callers[c].Leaving? && (action.Unlock? || action.Raise?))
      && (c in after.callers ==> HasLease(after, c) && LeaseIn(after, c) == LeaseIn(w, c))
      && (w.callers[c].Executing? && action.Raise? ==> c in after.callers && after.callers[c].Leaving?)
      && (w.callers[c].Executed? && action.Raise? ==> c in after.callers && after.callers[c].Leaving?)
      && (w.callers[c].Leaving? && action.Unlock? ==>
            && c !in after.callers
            && !(Locked(after.shared, KeyOf(w.callers[c]).value, after.clock)
                 && after.shared.locks[KeyOf(w.callers[c]).value].token == LeaseIn(w, c).token))
  {
  }

  /** A caller that looked in vain runs the query exactly if the lock is free, whatever is cached by then. */
  lemma RunsIffUnlocked(cfg: Settings, w: World, c: Caller, token: Token, key: Key)
    requires c in w.callers && (w.callers[c].Missed? || w.callers[c].Waiting?) && w.callers[c].plan.key == Some(key)
    requires token !in w.used
    ensures RunsFor(DoAct(cfg, w, c, TryLock(token)), c, key) <==> !Locked(w.shared, key, w.clock)
  {
  }

  // ------------------------------------------------------------ cached answers

  /** Results the engine computed for a key before. */
  ghost predicate Computed(history: seq<Event>, key: Key, value: Value) {
    exists at: nat :: Ran(key, value, at) in history
  }

  /** Stored no later than `now` and not expired at it, with a time to live within the limit. */
  ghost predicate StoredFor(cfg: Settings, history: seq<Event>, key: Key, value: Value, now: nat) {
    exists at: nat, ttl: nat :: Kept(key, value, at, ttl) in history && at <= now < at + MS * ttl && ttl <= cfg.maxTtl
  }

  /** What went before explains an event. */
  ghost predicate Explained(cfg: Settings, before: seq<Event>, e: Event) {
    match e
    case Ran(_, _, _) => true
    case Kept(key, value, _, _) => Computed(before, key, value)
    case Served(key, value, at) => StoredFor(cfg, before, key, value, at) && Computed(before, key, value)
  }

  ghost predicate AllExplained(cfg: Settings, history: seq<Event>) {
    forall i | 0 <= i < |history| :: Explained(cfg, history[..i], history[i])
  }

  /** A stored value was kept as a result of the engine, for no longer than the limit. */
  ghost predicate ValueOk(cfg: Settings, w: World, key: Key) {
    key in w.shared.values ==>
      var stored := w.shared.values[key];
      && stored.at <= w.clock
      && Computed(w.history, key, stored.value)
      && exists ttl: nat :: Kept(key, stored.value, stored.at, ttl) in w.history
                    && stored.until == stored.at + MS * ttl && ttl <= cfg.maxTtl
  }

  ghost predicate ResultOk(cfg: Settings, w: World, c: Caller) {
    c in w.callers ==>
      var pc := w.callers[c];
      && (PlanIn(pc).Some? ==> PlanIn(pc).value.ttl <= cfg.maxTtl)
      && (pc.Executed? && pc.plan.key.Some? ==> Computed(w.history, pc.plan.key.value, pc.value))
  }

  ghost predicate Truthful(cfg: Settings, w: World) {
    && AllExplained(cfg, w.history)
    && (forall key :: ValueOk(cfg, w, key))
    && (forall c :: ResultOk(cfg, w, c))
  }

  lemma VisibleIsStored(cfg: Settings, w: World, key: Key)
    requires ValueOk(cfg, w, key) && Lookup(w.shared, key, w.clock).Some?
    ensures Explained(cfg, w.history, Served(key, Lookup(w.shared, key, w.clock).value, w.clock))
  {
    var stored := w.shared.values[key];
    var ttl: nat :| Kept(key, stored.value, stored.at, ttl) in w.history
            && stored.until == stored.at + MS * ttl && ttl <= cfg.maxTtl;
  }

  /** An action adds at most one event, and that one is explained. */
  lemma ActAdds(cfg: Settings, w: World, c: Caller, action: Action)
    requires Truthful(cfg, w)
    ensures var after := DoAct(cfg, w, c, action).history;
      after == w.history || exists e :: after == w.history + [e] && Explained(cfg, w.history, e)
  {
    if action.Look? && c in w.callers && w.callers[c].Admitted? {
      var plan := PlanOf(cfg, w.callers[c].request);
      if plan.Some? && plan.value.key.Some? {
        Looked(cfg, w, plan.value.key.value);
      }
    } else if action.Poll? && c in w.callers && w.callers[c].Waiting? {
      if w.callers[c].plan.key.Some? {
        Looked(cfg, w, w.callers[c].plan.key.value);
      }
    } else if action.Store? && c in w.callers && w.callers[c].Executed? {
      assert ResultOk(cfg, w, c);
    } else if action.Answer? && c in w.callers && w.callers[c].Executing? && w.callers[c].plan.key.Some? {
      assert Explained(cfg, w.history, Ran(w.callers[c].plan.key.value, action.value, w.clock));
    }
  }

  lemma Looked(cfg: Settings, w: World, key: Key)
    requires Truthful(cfg, w)
    ensures Lookup(w.shared, key, w.clock).Some? ==>
      Explained(cfg, w.history, Served(key, Lookup(w.shared, key, w.clock).value, w.clock))
  {
    assert ValueOk(cfg, w, key);
    if Lookup(w.shared, key, w.clock).Some? {
      VisibleIsStored(cfg, w, key);
    }
  }

  lemma ExplainedSnoc(cfg: Settings, history: seq<Event>, e: Event)
    requires AllExplained(cfg, history) && Explained(cfg, history, e)
    ensures AllExplained(cfg, history + [e])
  {
    var longer := history + [e];
    forall i | 0 <= i < |longer|
      ensures Explained(cfg, longer[..i], longer[i])
    {
      if i < |history| {
        assert longer[..i] == history[..i];
      } else {
        assert longer[..i] == history;
      }
    }
  }

  /** What is in a history stays there. */
  predicate Extends(w: World, after: World) {
    w.history <= after.history && w.clock <= after.clock
  }

  lemma StillComputed(w: World, after: World, key: Key, value: Value)
    requires Extends(w, after) && Computed(w.history, key, value)
    ensures Computed(after.history, key, value)
  {
    var at: nat :| Ran(key, value, at) in w.history;
    assert Ran(key, value, at) in after.history;
  }

  lemma ValueStays(cfg: Settings, w: World, after: World, key: Key)
    requires Extends(w, after) && ValueOk(cfg, w, key)
    requires key in after.shared.values ==> key in w.shared.values && after.shared.values[key] == w.shared.values[key]
    ensures ValueOk(cfg, after, key)
  {
    if key in after.shared.values {
      var stored := w.shared.values[key];
      StillComputed(w, after, key, stored.value);
      var ttl: nat :| Kept(key, stored.value, stored.at, ttl) in w.history
              && stored.until == stored.at + MS * ttl && ttl <= cfg.maxTtl;
      assert Kept(key, stored.value, stored.at, ttl) in after.history;
    }
  }

  lemma ResultStays(cfg: Settings, w: World, after: World, c: Caller)
    requires Extends(w, after) && ResultOk(cfg, w, c)
    requires c in after.callers ==> c in w.callers && after.callers[c] == w.callers[c]
    ensures ResultOk(cfg, after, c)
  {
    if c in after.callers && w.callers[c].Executed? && w.callers[c].plan.key.Some? {
      StillComputed(w, after, w.callers[c].plan.key.value, w.callers[c].value);
    }
  }

  lemma ActExtends(cfg: Settings, w: World, c: Caller, action: Action)
    ensures Extends(w, DoAct(cfg, w, c, action))
  {
  }

  /** The only action that changes a stored value is the store of a computed one. */
  lemma ActValues(cfg: Settings, w: World, c: Caller, action: Action, key: Key)
    requires Truthful(cfg, w)
    ensures ValueOk(cfg, DoAct(cfg, w, c, action), key)
  {
    var after := DoAct(cfg, w, c, action);
    ActExtends(cfg, w, c, action);
    assert ValueOk(cfg, w, key) && ResultOk(cfg, w, c);
    if after.shared.values == w.shared.values {
      ValueStays(cfg, w, after, key);
    } else {
      StoredValue(cfg, w, c, action, key);
    }
  }

  lemma StoredValue(cfg: Settings, w: World, c: Caller, action: Action, key: Key)
    requires ValueOk(cfg, w, key) && ResultOk(cfg, w, c)
    requires DoAct(cfg, w, c, action).shared.values != w.shared.values
    ensures ValueOk(cfg, DoAct(cfg, w, c, action), key)
  {
    var after := DoAct(cfg, w, c, action);
    var pc := w.callers[c];
    ActExtends(cfg, w, c, action);
    if key == pc.plan.key.value {
      StillComputed(w, after, key, pc.value);
      assert after.history[|w.history|] == Kept(key, pc.value, w.clock, pc.plan.ttl);
      assert Kept(key, pc.value, w.clock, pc.plan.ttl) in after.history;
    } else {
      ValueStays(cfg, w, after, key);
    }
  }

  /** The actor's own result is one the engine just computed. */
  lemma ActResult(cfg: Settings, w: World, c: Caller, action: Action)
    requires ResultOk(cfg, w, c)
    ensures ResultOk(cfg, DoAct(cfg, w, c, action), c)
  {
    var after := DoAct(cfg, w, c, action);
    ActExtends(cfg, w, c, action);
    if c in after.callers && after.callers[c].Executed? && after.callers[c].plan.key.Some? {
      if w.callers[c].Executed? {
        ResultStays(cfg, w, after, c);
      } else {
        var pc := after.callers[c];
        assert after.history[|w.history|] == Ran(pc.plan.key.value, pc.value, w.clock);
      }
    }
  }

  lemma ActKeepsTruthful(cfg: Settings, w: World, c: Caller, action: Action)
    requires Truthful(cfg, w)
    ensures Truthful(cfg, DoAct(cfg, w, c, action))
  {
    var after := DoAct(cfg, w, c, action);
    ActAdds(cfg, w, c, action);
    if after.history != w.history {
      var e :| after.history == w.history + [e] && Explained(cfg, w.history, e);
      ExplainedSnoc(cfg, w.history, e);
    }
    forall key
      ensures ValueOk(cfg, after, key)
    {
      ActValues(cfg, w, c, action, key);
    }
    forall d
      ensures ResultOk(cfg, after, d)
    {
      assert ResultOk(cfg, w, d);
      if d == c {
        ActResult(cfg, w, c, action);
      } else {
        OthersStay(cfg, w, c, action, d);
        ActExtends(cfg, w, c, action);
        ResultStays(cfg, w, after, d);
      }
    }
  }

  lemma StepKeepsTruthful(cfg: Settings, w: World, step: Step)
    requires Truthful(cfg, w)
    ensures Truthful(cfg, Apply(cfg, w, step))
  {
    if step.Act? {
      ActKeepsTruthful(cfg, w, step.caller, step.action);
    } else {
      var after := Apply(cfg, w, step);
      forall key
        ensures ValueOk(cfg, after, key)
      {
        assert ValueOk(cfg, w, key);
      }
      forall c
        ensures ResultOk(cfg, after, c)
      {
        assert ResultOk(cfg, w, c);
      }
    }
  }

  lemma {:induction false} AlwaysTruthful(cfg: Settings, steps: seq<Step>)
    ensures Truthful(cfg, Run(cfg, steps))
  {
    if steps != [] {
      var m := |steps| - 1;
      AlwaysTruthful(cfg, steps[..m]);
      StepKeepsTruthful(cfg, Run(cfg, steps[..m]), steps[m]);
    }
  }

  /** Every hit and every coalesced answer is a result of the engine for that key, stored at most the limit ago. */
  lemma ServedIsFresh(cfg: Settings, steps: seq<Step>, i: nat)
    requires i < |Run(cfg, steps).history| && Run(cfg, steps).history[i].Served?
    ensures var history := Run(cfg, steps).history; var Served(key, value, now) := history[i];
      && Computed(history[..i], key, value)
      && exists at: nat, ttl: nat :: Kept(key, value, at, ttl) in history[..i] && at <= now < at + MS * ttl && ttl <= cfg.maxTtl
  {
    AlwaysTruthful(cfg, steps);
    assert Explained(cfg, Run(cfg, steps).history[..i], Run(cfg, steps).history[i]);
  }

  // ---------------------------------------------------------------- admission

  /** The callers of a process that hold a slot. */
  function Inside(w: World, process: nat): set<Caller> {
    set c | c in w.callers && c.process == process
  }

  ghost predicate SlotsOk(cfg: Settings, w: World, process: nat) {
    Free(cfg, w, process) >= 0 && |Inside(w, process)| + Free(cfg, w, process) == cfg.slots
  }

  lemma EntersSlot(cfg: Settings, w: World, after: World, c: Caller, process: nat)
    requires SlotsOk(cfg, w, process) && c !in w.callers && after.callers.Keys == w.callers.Keys + {c}
    requires Free(cfg, after, process) == Free(cfg, w, process) - if process == c.process then 1 else 0
    requires process == c.process ==> Free(cfg, w, process) > 0
    ensures SlotsOk(cfg, after, process)
  {
    if process == c.process {
      assert Inside(after, process) == Inside(w, process) + {c};
    } else {
      assert Inside(after, process) == Inside(w, process);
    }
  }

  lemma LeavesSlot(cfg: Settings, w: World, after: World, c: Caller, process: nat)
    requires SlotsOk(cfg, w, process) && c in w.callers && after.callers.Keys == w.callers.Keys - {c}
    requires Free(cfg, after, process) == Free(cfg, w, process) + if process == c.process then 1 else 0
    ensures SlotsOk(cfg, after, process)
  {
    if process == c.process {
      assert c in Inside(w, process);
      assert Inside(after, process) == Inside(w, process) - {c};
    } else {
      assert Inside(after, process) == Inside(w, process);
    }
  }

  lemma KeepsSlot(cfg: Settings, w: World, after: World, process: nat)
    requires SlotsOk(cfg, w, process) && after.callers.Keys == w.callers.Keys && after.free == w.free
    ensures SlotsOk(cfg, after, process)
  {
    assert Inside(after, process) == Inside(w, process);
  }

  /** Nobody comes or goes. */
  predicate SameSlots(w: World, after: World) {
    after.callers.Keys == w.callers.Keys && after.free == w.free
  }

  predicate Left(cfg: Settings, w: World, after: World, c: Caller) {
    && c in w.callers && after.callers.Keys == w.callers.Keys - {c}
    && after.free == w.free[c.process := Free(cfg, w, c.process) + 1]
  }

  predicate Entered(cfg: Settings, w: World, after: World, c: Caller) {
    && c !in w.callers && after.callers.Keys == w.callers.Keys + {c}
    && Free(cfg, w, c.process) > 0 && after.free == w.free[c.process := Free(cfg, w, c.process) - 1]
  }

  lemma EnterSlots(cfg: Settings, w: World, c: Caller, request: Request)
    ensures SameSlots(w, DoEnter(cfg, w, c, request)) || Entered(cfg, w, DoEnter(cfg, w, c, request), c)
  {
  }

  lemma LookSlots(cfg: Settings, w: World, c: Caller, request: Request)
    requires c in w.callers
    ensures SameSlots(w, DoLook(cfg, w, c, request)) || Left(cfg, w, DoLook(cfg, w, c, request), c)
  {
  }

  lemma LockSlots(cfg: Settings, w: World, c: Caller, plan: Plan, token: Token, second: bool)
    requires c in w.callers
    ensures var after := DoTryLock(cfg, w, c, plan, token, second); SameSlots(w, after) || Left(cfg, w, after, c)
  {
  }

  /** What an action does to the callers inside and to the semaphores. */
  lemma ActSlots(cfg: Settings, w: World, c: Caller, action: Action)
    ensures var after := DoAct(cfg, w, c, action);
      SameSlots(w, after) || Left(cfg, w, after, c) || Entered(cfg, w, after, c)
  {
    if action.Enter? {
      EnterSlots(cfg, w, c, action.request);
    } else if c in w.callers {
      match (action, w.callers[c]) {
        case (Look, Admitted(request)) => LookSlots(cfg, w, c, request);
        case (TryLock(token), Missed(plan)) => LockSlots(cfg, w, c, plan, token, false);
        case (TryLock(token), Waiting(plan)) => LockSlots(cfg, w, c, plan, token, true);
        case _ =>
      }
    }
  }

  lemma StepKeepsSlots(cfg: Settings, w: World, step: Step, process: nat)
    requires SlotsOk(cfg, w, process)
    ensures SlotsOk(cfg, Apply(cfg, w, step), process)
  {
    var after := Apply(cfg, w, step);
    match step {
      case Tick(_) => KeepsSlot(cfg, w, after, process);
      case Crash(p) =>
        if p == process {
          assert Inside(after, process) == {};
        } else {
          assert Inside(after, process) == Inside(w, process);
        }
      case Act(c, action) =>
        ActSlots(cfg, w, c, action);
        if SameSlots(w, after) {
          KeepsSlot(cfg, w, after, process);
        } else if Left(cfg, w, after, c) {
          LeavesSlot(cfg, w, after, c, process);
        } else {
          EntersSlot(cfg, w, after, c, process);
        }
    }
  }

  lemma {:induction false} AlwaysSlots(cfg: Settings, steps: seq<Step>, process: nat)
    ensures SlotsOk(cfg, Run(cfg, steps), process)
  {
    if steps == [] {
      assert Inside(Init(), process) == {};
    } else {
      var m := |steps| - 1;
      AlwaysSlots(cfg, steps[..m], process);
      StepKeepsSlots(cfg, Run(cfg, steps[..m]), steps[m], process);
    }
  }

  /**
   * Slots are conserved: never more callers inside than slots, all slots free
   * once nobody is inside, and no release ever goes over the semaphore's bound.
   */
  lemma NoSlotIsLost(cfg: Settings, steps: seq<Step>, process: nat)
    ensures var w := Run(cfg, steps);
      && 0 <= Free(cfg, w, process) && |Inside(w, process)| <= cfg.slots
      && (Inside(w, process) == {} <==> Free(cfg, w, process) == cfg.slots)
      && (forall c | c in w.callers && c.process == process :: Free(cfg, w, process) < cfg.slots)
  {
    AlwaysSlots(cfg, steps, process);
    var w := Run(cfg, steps);
    forall c | c in w.callers && c.process == process
      ensures Free(cfg, w, process) < cfg.slots
    {
      assert c in Inside(w, process);
    }
  }
}
