// The callers of the query service, any number of threads in any number of
// processes, advanced one atomic action at a time over one shared result cache.
module SingleFlight {
  import opened Lists
  import opened ResultCache

  /** Times are in seconds, as in the settings. */
  datatype Settings = Settings(
    slots: nat, defaultTtl: nat, maxTtl: nat, defaultTimeout: nat, maxTimeout: nat, lockSeconds: nat)

  /** `safe` and `fingerprint` are what the engine's preparation finds out. */
  datatype Request = Request(inline: bool, ttl: Option<nat>, timeout: Option<nat>, safe: bool, fingerprint: Key)

  /** A request with its limits worked out, and the cache key, if its result may be cached. */
  datatype Plan = Plan(request: Request, key: Option<Key>, ttl: nat, timeout: nat)

  function Ttl(cfg: Settings, request: Request): Option<nat> {
    var ttl := if request.ttl.None? then cfg.defaultTtl else request.ttl.value;
    if ttl > cfg.maxTtl then None else Some(ttl)
  }

  function Timeout(cfg: Settings, request: Request): Option<nat> {
    var timeout := if request.timeout.None? || request.timeout.value == 0 then cfg.defaultTimeout else request.timeout.value;
    if timeout > cfg.maxTimeout then None else Some(timeout)
  }

  function PlanOf(cfg: Settings, request: Request): Option<Plan> {
    var ttl, timeout := Ttl(cfg, request), Timeout(cfg, request);
    if ttl.None? || timeout.None? then None
    else
      var cacheable := request.inline && ttl.value > 0 && request.safe;
      Some(Plan(request, if cacheable then Some(request.fingerprint) else None, ttl.value, timeout.value))
  }

  /** The time to live a request ends up with. */
  function EffectiveTtl(cfg: Settings, request: Request): nat {
    match request.ttl
    case None => cfg.defaultTtl
    case Some(ttl) => ttl
  }

  /** The time limit it ends up with; zero counts as none given. */
  function EffectiveTimeout(cfg: Settings, request: Request): nat {
    match request.timeout
    case None => cfg.defaultTimeout
    case Some(timeout) => if timeout == 0 then cfg.defaultTimeout else timeout
  }

  /** Only an inline result of sources whose versions are known, and only if it is to live at all. */
  predicate MayCache(cfg: Settings, request: Request) {
    request.inline && request.safe && EffectiveTtl(cfg, request) > 0
  }

  /** Refused exactly over a limit; else the key is the request's own fingerprint exactly if it may be cached. */
  lemma PlanMeans(cfg: Settings, request: Request)
    ensures PlanOf(cfg, request).None? <==>
      EffectiveTtl(cfg, request) > cfg.maxTtl || EffectiveTimeout(cfg, request) > cfg.maxTimeout
    ensures Timeout(cfg, request).None? <==> EffectiveTimeout(cfg, request) > cfg.maxTimeout
    ensures PlanOf(cfg, request).Some? ==>
      PlanOf(cfg, request).value ==
        Plan(request, if MayCache(cfg, request) then Some(request.fingerprint) else None,
             EffectiveTtl(cfg, request), EffectiveTimeout(cfg, request))
  {
  }

  /** How long the lock of a plan lasts. */
  function LockSeconds(cfg: Settings, plan: Plan): (r: nat)
    ensures r >= cfg.lockSeconds && r >= plan.timeout + 30
    ensures r == cfg.lockSeconds || r == plan.timeout + 30
  {
    if cfg.lockSeconds > plan.timeout + 30 then cfg.lockSeconds else plan.timeout + 30
  }

  datatype Caller = Caller(process: nat, thread: nat)

  /** Where a caller with a slot is. */
  datatype Pc =
    | Admitted(request: Request)
    | Missed(plan: Plan)                                             // looked in vain, no lock yet
    | Waiting(plan: Plan)                                            // somebody else has the lock
    | Executing(plan: Plan, lease: Option<Lease>)
    | Executed(plan: Plan, lease: Option<Lease>, value: Value)
    | Leaving(plan: Plan, lease: Option<Lease>)                      // only the release is left

  datatype Event =
    | Ran(key: Key, value: Value, at: nat)
    | Kept(key: Key, value: Value, at: nat, ttl: nat)
    | Served(key: Key, value: Value, at: nat)                        // a hit or a coalesced answer

  datatype World = World(
    shared: Shared,
    clock: nat,
    used: set<Token>,
    callers: map<Caller, Pc>,
    free: map<nat, int>,
    history: seq<Event>)

  datatype Action =
    | Enter(request: Request)
    | Look
    | TryLock(token: Token)
    | Poll
    | Answer(value: Value)
    | Raise
    | Store(fits: bool)
    | Unlock

  datatype Step = Tick(ms: nat) | Act(caller: Caller, action: Action) | Crash(process: nat)

  /** The value of a process's admission semaphore. */
  function Free(cfg: Settings, w: World, process: nat): int {
    if process in w.free then w.free[process] else cfg.slots
  }

  function Move(w: World, c: Caller, pc: Pc): World {
    w.(callers := w.callers[c := pc])
  }

  /** The caller is done and its slot is free again. */
  function Exit(cfg: Settings, w: World, c: Caller): World {
    w.(callers := w.callers - {c}, free := w.free[c.process := Free(cfg, w, c.process) + 1])
  }

  function Serve(cfg: Settings, w: World, c: Caller, key: Key, value: Value): World {
    Exit(cfg, w.(history := w.history + [Served(key, value, w.clock)]), c)
  }

  function DoEnter(cfg: Settings, w: World, c: Caller, request: Request): World {
    if c in w.callers || Timeout(cfg, request).None? || Free(cfg, w, c.process) <= 0 then
      w
    else
      Move(w.(free := w.free[c.process := Free(cfg, w, c.process) - 1]), c, Admitted(request))
  }

  function DoLook(cfg: Settings, w: World, c: Caller, request: Request): World {
    var plan := PlanOf(cfg, request);
    if plan.None? then
      Exit(cfg, w, c)
    else if plan.value.key.None? then
      Move(w, c, Executing(plan.value, None))
    else
      var cached := Lookup(w.shared, plan.value.key.value, w.clock);
      if cached.Some? then Serve(cfg, w, c, plan.value.key.value, cached.value) else Move(w, c, Missed(plan.value))
  }

  /** The first try that fails makes the caller wait, the second makes it busy. */
  function DoTryLock(cfg: Settings, w: World, c: Caller, plan: Plan, token: Token, second: bool): World {
    if plan.key.None? || token in w.used then w
    else
      var (shared, lease) := Acquire(w.shared, plan.key.value, token, LockSeconds(cfg, plan), w.clock);
      if lease.Some? then
        Move(w.(shared := shared, used := w.used + {token}), c, Executing(plan, lease))
      else if second then
        Exit(cfg, w, c)
      else
        Move(w, c, Waiting(plan))
  }

  function DoPoll(cfg: Settings, w: World, c: Caller, plan: Plan): World {
    if plan.key.None? then w
    else
      var cached := Lookup(w.shared, plan.key.value, w.clock);
      if cached.Some? then Serve(cfg, w, c, plan.key.value, cached.value) else w
  }

  function DoAnswer(w: World, c: Caller, plan: Plan, lease: Option<Lease>, value: Value): World {
    Move(w.(history := if plan.key.Some? then w.history + [Ran(plan.key.value, value, w.clock)] else w.history),
         c, Executed(plan, lease, value))
  }

  /** An exception; the release still runs if the engine was called. */
  function DoRaise(cfg: Settings, w: World, c: Caller, pc: Pc): World {
    match pc
    case Executing(plan, lease) => Move(w, c, Leaving(plan, lease))
    case Executed(plan, lease, _) => Move(w, c, Leaving(plan, lease))
    case _ => Exit(cfg, w, c)
  }

  function DoStore(w: World, c: Caller, plan: Plan, lease: Option<Lease>, value: Value, fits: bool): World {
    if plan.key.None? then
      Move(w, c, Leaving(plan, lease))
    else
      var (shared, stored) := Keep(w.shared, plan.key.value, value, plan.ttl, fits, w.clock);
      Move(w.(shared := shared,
              history := if stored then w.history + [Kept(plan.key.value, value, w.clock, plan.ttl)] else w.history),
           c, Leaving(plan, lease))
  }

  function DoUnlock(cfg: Settings, w: World, c: Caller, plan: Plan, lease: Option<Lease>): World {
    if plan.key.Some? && lease.Some? then
      Exit(cfg, w.(shared := Release(w.shared, plan.key.value, lease.value.token, w.clock)), c)
    else
      Exit(cfg, w, c)
  }

  /** One action; one the caller is not ready for changes nothing. */
  function DoAct(cfg: Settings, w: World, c: Caller, action: Action): World {
    if action.Enter? then DoEnter(cfg, w, c, action.request)
    else if c !in w.callers then w
    else
      match (action, w.callers[c])
      case (Look, Admitted(request)) => DoLook(cfg, w, c, request)
      case (TryLock(token), Missed(plan)) => DoTryLock(cfg, w, c, plan, token, false)
      case (TryLock(token), Waiting(plan)) => DoTryLock(cfg, w, c, plan, token, true)
      case (Poll, Waiting(plan)) => DoPoll(cfg, w, c, plan)
      case (Answer(value), Executing(plan, lease)) => DoAnswer(w, c, plan, lease, value)
      case (Raise, pc) => DoRaise(cfg, w, c, pc)
      case (Store(fits), Executed(plan, lease, value)) => DoStore(w, c, plan, lease, value, fits)
      case (Unlock, Leaving(plan, lease)) => DoUnlock(cfg, w, c, plan, lease)
      case _ => w
  }

  /** A process ends with all its threads; another one starts with all its slots free. */
  function DoCrash(cfg: Settings, w: World, process: nat): World {
    w.(callers := map c | c in w.callers && c.process != process :: w.callers[c], free := w.free[process := cfg.slots])
  }

  function Apply(cfg: Settings, w: World, step: Step): World {
    match step
    case Tick(ms) => w.(clock := w.clock + ms)
    case Act(c, action) => DoAct(cfg, w, c, action)
    case Crash(process) => DoCrash(cfg, w, process)
  }

  function Init(): World {
    World(Shared(map[], map[]), 0, {}, map[], map[], [])
  }

  function Run(cfg: Settings, steps: seq<Step>): World {
    if steps == [] then Init() else Apply(cfg, Run(cfg, steps[..|steps| - 1]), steps[|steps| - 1])
  }
}
