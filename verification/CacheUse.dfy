// Which requests touch the shared cache, and what a look into it finds.
module CacheUse {
  import opened Lists
  import opened ResultCache
  import opened SingleFlight
  import opened SingleFlightProofs

  /** The request a caller came in with. */
  function RequestOf(pc: Pc): Request {
    match pc
    case Admitted(request) => request
    case Missed(plan) => plan.request
    case Waiting(plan) => plan.request
    case Executing(plan, _) => plan.request
    case Executed(plan, _, _) => plan.request
    case Leaving(plan, _) => plan.request
  }

  /** A caller's plan is the one its request asks for, and it waits for a key only if it has one. */
  predicate Planned(cfg: Settings, w: World, c: Caller) {
    c in w.callers ==>
      var pc := w.callers[c];
      && (PlanIn(pc).Some? ==> PlanOf(cfg, RequestOf(pc)) == PlanIn(pc))
      && (pc.Missed? || pc.Waiting? ==> KeyOf(pc).Some?)
  }

  lemma ActPlanned(cfg: Settings, w: World, c: Caller, action: Action)
    requires Planned(cfg, w, c)
    ensures Planned(cfg, DoAct(cfg, w, c, action), c)
  {
  }

  lemma {:induction false} AlwaysPlanned(cfg: Settings, steps: seq<Step>, c: Caller)
    ensures Planned(cfg, Run(cfg, steps), c)
  {
    if steps != [] {
      var m := |steps| - 1;
      AlwaysPlanned(cfg, steps[..m], c);
      var w := Run(cfg, steps[..m]);
      if steps[m].Act? {
        if steps[m].caller == c {
          ActPlanned(cfg, w, c, steps[m].action);
        } else {
          OthersStay(cfg, w, steps[m].caller, steps[m].action, c);
        }
      }
    }
  }

  /** A caller keeps the request it came in with. */
  lemma RequestStays(cfg: Settings, w: World, c: Caller, action: Action)
    requires c in w.callers && c in DoAct(cfg, w, c, action).callers
    ensures RequestOf(DoAct(cfg, w, c, action).callers[c]) == RequestOf(w.callers[c])
  {
  }

  /** The same values and locks, this key aside. */
  predicate OnlyAt(before: Shared, after: Shared, key: Key) {
    && before.values - {key} == after.values - {key}
    && before.locks - {key} == after.locks - {key}
  }

  /** An action that leaves a trace in the cache or in the history. */
  predicate Traces(w: World, after: World) {
    after.shared != w.shared || after.history != w.history
  }

  lemma ActTraces(cfg: Settings, w: World, c: Caller, action: Action)
    requires Planned(cfg, w, c) && Traces(w, DoAct(cfg, w, c, action))
    ensures c in w.callers && MayCache(cfg, RequestOf(w.callers[c]))
    ensures OnlyAt(w.shared, DoAct(cfg, w, c, action).shared, RequestOf(w.callers[c]).fingerprint)
    ensures DoAct(cfg, w, c, action).history != w.history ==>
      && |DoAct(cfg, w, c, action).history| == |w.history| + 1 && w.history <= DoAct(cfg, w, c, action).history
      && DoAct(cfg, w, c, action).history[|w.history|].key == RequestOf(w.callers[c]).fingerprint
  {
    PlanMeans(cfg, RequestOf(w.callers[c]));
  }

  /**
   * In every run an action changes the shared cache, or adds a run, a stored
   * value or a served answer, only for a caller whose request may be cached,
   * and only under that request's own fingerprint.
   */
  lemma OnlyCacheableTraces(cfg: Settings, steps: seq<Step>, c: Caller, action: Action)
    requires Traces(Run(cfg, steps), DoAct(cfg, Run(cfg, steps), c, action))
    ensures var w := Run(cfg, steps); var after := DoAct(cfg, w, c, action);
      && c in w.callers && MayCache(cfg, RequestOf(w.callers[c]))
      && OnlyAt(w.shared, after.shared, RequestOf(w.callers[c]).fingerprint)
      && (after.history != w.history ==>
            && |after.history| == |w.history| + 1 && w.history <= after.history
            && after.history[|w.history|].key == RequestOf(w.callers[c]).fingerprint)
  {
    AlwaysPlanned(cfg, steps, c);
    ActTraces(cfg, Run(cfg, steps), c, action);
  }

  // ------------------------------------------------- what a look finds

  /** The last value stored under a key. */
  function LastKept(history: seq<Event>, key: Key): (r: Option<Event>)
    ensures r.Some? ==> r.value.Kept? && r.value.key == key
  {
    if history == [] then None
    else
      var e := history[|history| - 1];
      if e.Kept? && e.key == key then Some(e) else LastKept(history[..|history| - 1], key)
  }

  lemma LastKeptSnoc(history: seq<Event>, e: Event, key: Key)
    ensures LastKept(history + [e], key) == if e.Kept? && e.key == key then Some(e) else LastKept(history, key)
  {
    assert (history + [e])[..|history|] == history;
  }

  /** The stored value of a key is the last one kept, with its time to live. */
  predicate Remembers(w: World, key: Key) {
    match LastKept(w.history, key)
    case None => key !in w.shared.values
    case Some(e) => key in w.shared.values && w.shared.values[key] == Stored(e.value, e.at, e.at + MS * e.ttl)
  }

  /** An action adds at most one event, and stores a value exactly with the event that says so. */
  predicate ValueStep(w: World, after: World, key: Key) {
    || (after.history == w.history && (key in after.shared.values <==> key in w.shared.values)
        && (key in w.shared.values ==> after.shared.values[key] == w.shared.values[key]))
    || (&& |after.history| == |w.history| + 1 && after.history == w.history + [after.history[|w.history|]]
        && var e := after.history[|w.history|];
           if e.Kept? && e.key == key then
             key in after.shared.values && after.shared.values[key] == Stored(e.value, e.at, e.at + MS * e.ttl)
           else
             && (key in after.shared.values <==> key in w.shared.values)
             && (key in w.shared.values ==> after.shared.values[key] == w.shared.values[key]))
  }

  lemma ActValueStep(cfg: Settings, w: World, c: Caller, action: Action, key: Key)
    ensures ValueStep(w, DoAct(cfg, w, c, action), key)
  {
  }

  lemma {:induction false} AlwaysRemembers(cfg: Settings, steps: seq<Step>, key: Key)
    ensures Remembers(Run(cfg, steps), key)
  {
    if steps != [] {
      var m := |steps| - 1;
      AlwaysRemembers(cfg, steps[..m], key);
      if steps[m].Act? {
        var w, after := Run(cfg, steps[..m]), Run(cfg, steps);
        ActValueStep(cfg, w, steps[m].caller, steps[m].action, key);
        if after.history != w.history {
          LastKeptSnoc(w.history, after.history[|w.history|], key);
        }
      }
    }
  }

  /** A look finds a value exactly if one was stored under the key and the last one has not expired. */
  lemma LookFindsLastKept(cfg: Settings, steps: seq<Step>, key: Key)
    ensures var w := Run(cfg, steps); var last := LastKept(w.history, key);
      Lookup(w.shared, key, w.clock) ==
        if last.Some? && w.clock < last.value.at + MS * last.value.ttl then Some(last.value.value) else None
  {
    AlwaysRemembers(cfg, steps, key);
  }

  /**
   * An admitted caller that may use the cache is served at once exactly if it
   * holds such a value, and is gone then; else it goes on without an answer.
   */
  lemma ServedIff(cfg: Settings, steps: seq<Step>, c: Caller, request: Request)
    requires var w := Run(cfg, steps); c in w.callers && w.callers[c] == Admitted(request)
    requires MayCache(cfg, request) && PlanOf(cfg, request).Some?
    ensures var w := Run(cfg, steps); var after := DoAct(cfg, w, c, Look); var last := LastKept(w.history, request.fingerprint);
      if last.Some? && w.clock < last.value.at + MS * last.value.ttl then
        && c !in after.callers
        && after.history == w.history + [Served(request.fingerprint, last.value.value, w.clock)]
      else
        c in after.callers && after.callers[c].Missed? && after.history == w.history
  {
    PlanMeans(cfg, request);
    LookFindsLastKept(cfg, steps, request.fingerprint);
  }

  /** A result is kept exactly if its query may be cached and it fits, with the time to live asked for. */
  lemma KeptIff(cfg: Settings, steps: seq<Step>, c: Caller, fits: bool)
    requires var w := Run(cfg, steps); c in w.callers && w.callers[c].Executed?
    ensures var w := Run(cfg, steps); var after := DoAct(cfg, w, c, Store(fits)); var pc := w.callers[c];
      if fits && MayCache(cfg, pc.plan.request) then
        after.history == w.history +
          [Kept(pc.plan.request.fingerprint, pc.value, w.clock, EffectiveTtl(cfg, pc.plan.request))]
      else
        after.history == w.history && after.shared == w.shared
  {
    AlwaysPlanned(cfg, steps, c);
    PlanMeans(cfg, Run(cfg, steps).callers[c].plan.request);
  }

  /** A caller gets in exactly if its limit is allowed and fewer callers than slots are in its process. */
  lemma EntersIff(cfg: Settings, steps: seq<Step>, c: Caller, request: Request)
    requires c !in Run(cfg, steps).callers
    ensures var w := Run(cfg, steps); var after := DoAct(cfg, w, c, Enter(request));
      && (c in after.callers <==> EffectiveTimeout(cfg, request) <= cfg.maxTimeout && |Inside(w, c.process)| < cfg.slots)
      && (c in after.callers ==> after.callers[c] == Admitted(request))
      && (c !in after.callers ==> after == w)
  {
    PlanMeans(cfg, request);
    AlwaysSlots(cfg, steps, c.process);
  }
}
