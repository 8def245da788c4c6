// Concrete runs that mark where the single-flight guarantees stop.
module SingleFlightWitnesses {
  import opened Lists
  import opened ResultCache
  import opened SingleFlight
  import opened SingleFlightProofs

  const CFG := Settings(1, 1, 1, 1, 1, 1)
  const REQUEST := Request(true, None, None, true, 5)
  const PLAN := Plan(REQUEST, Some(5), 1, 1)
  const A := Caller(0, 0)
  const B := Caller(1, 0)

  lemma Extend(steps: seq<Step>, step: Step)
    ensures Run(CFG, steps + [step]) == Apply(CFG, Run(CFG, steps), step)
  {
    assert (steps + [step])[..|steps + [step]| - 1] == steps;
  }

  /** One more action of a caller, and what stays as it was. */
  lemma Then(steps: seq<Step>, c: Caller, action: Action) returns (longer: seq<Step>)
    ensures Run(CFG, longer) == DoAct(CFG, Run(CFG, steps), c, action)
  {
    longer := steps + [Act(c, action)];
    Extend(steps, Act(c, action));
  }

  /** Both callers looked in vain before either took the lock. */
  lemma BothMissed() returns (steps: seq<Step>)
    ensures var w := Run(CFG, steps);
      && w.clock == 0 && w.shared == Shared(map[], map[]) && w.used == {} && w.history == []
      && A in w.callers && w.callers[A] == Missed(PLAN)
      && B in w.callers && w.callers[B] == Missed(PLAN)
  {
    steps := Then([], A, Enter(REQUEST));
    steps := Then(steps, A, Look);
    assert PlanOf(CFG, REQUEST) == Some(PLAN);
    steps := Then(steps, B, Enter(REQUEST));
    steps := Then(steps, B, Look);
  }

  /** The first one runs; the other one waits for its turn. */
  lemma FirstRuns() returns (steps: seq<Step>)
    ensures var w := Run(CFG, steps);
      && w.clock == 0 && w.shared == Shared(map[], map[5 := Lease(10, 0, 31000)]) && w.used == {10} && w.history == []
      && A in w.callers && w.callers[A] == Executing(PLAN, Some(Lease(10, 0, 31000)))
      && B in w.callers && w.callers[B] == Missed(PLAN)
  {
    steps := BothMissed();
    steps := Then(steps, A, TryLock(10));
  }

  /** The first one has its result and stores it. */
  lemma FirstStored() returns (steps: seq<Step>)
    ensures var w := Run(CFG, steps);
      && w.clock == 0 && w.used == {10} && w.history == [Ran(5, 7, 0), Kept(5, 7, 0, 1)]
      && w.shared == Shared(map[5 := Stored(7, 0, 1000)], map[5 := Lease(10, 0, 31000)])
      && A in w.callers && w.callers[A] == Leaving(PLAN, Some(Lease(10, 0, 31000)))
      && B in w.callers && w.callers[B] == Missed(PLAN)
  {
    steps := FirstRuns();
    steps := Then(steps, A, Answer(7));
    assert Run(CFG, steps).history == [Ran(5, 7, 0)];
    steps := Then(steps, A, Store(true));
    assert Run(CFG, steps).history == [Ran(5, 7, 0), Kept(5, 7, 0, 1)];
  }

  /** The first one is gone and its lock is free. */
  lemma FirstGone() returns (steps: seq<Step>)
    ensures var w := Run(CFG, steps);
      && w.clock == 0 && w.used == {10} && w.history == [Ran(5, 7, 0), Kept(5, 7, 0, 1)]
      && w.shared.values == map[5 := Stored(7, 0, 1000)] && 5 !in w.shared.locks
      && B in w.callers && w.callers[B] == Missed(PLAN)
  {
    steps := FirstStored();
    steps := Then(steps, A, Unlock);
  }

  /**
   * There is no second look after a lock is taken: a caller that looked before
   * the first execution ended runs the query again, with its fresh result cached.
   */
  lemma RunsAgain() returns (steps: seq<Step>)
    ensures var w := Run(CFG, steps);
      && RunsFor(w, B, 5) && Lookup(w.shared, 5, w.clock) == Some(7)
      && Ran(5, 7, 0) in w.history && Kept(5, 7, 0, 1) in w.history
  {
    steps := FirstGone();
    steps := Then(steps, B, TryLock(11));
  }

  /** An execution that outlives its lease overlaps with the next one. */
  lemma LateRunsOverlap() returns (steps: seq<Step>)
    ensures var w := Run(CFG, steps); RunsFor(w, A, 5) && RunsFor(w, B, 5) && !OnTime(w, A)
  {
    steps := FirstRuns();
    Extend(steps, Tick(31000));
    steps := steps + [Tick(31000)];
    steps := Then(steps, B, TryLock(11));
  }
}
