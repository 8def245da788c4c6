// One job's life over whole runs: terminal states, the number of status
// changes, and what a cancellation settles.
module Lifecycle {
  import opened Scripts
  import opened Protocol
  import opened Placement
  import opened Evolution
  import opened Fencing
  import opened Guarantees

  /** A terminal job keeps its status, result and attempt number for as long as its record lives. */
  lemma {:induction false} TerminalIsFinal(cfg: Config, s: Sys, steps: seq<Step>, id: JobId)
    requires ValidConfig(cfg) && Good(cfg, s)
    requires id in s.db.jobs && Over(s.db.jobs[id].status)
    ensures var t := RunFrom(cfg, s, steps);
      id in t.db.jobs ==>
        && t.db.jobs[id].status == s.db.jobs[id].status
        && t.db.jobs[id].result == s.db.jobs[id].result
        && t.db.jobs[id].attempts == s.db.jobs[id].attempts
  {
    if steps != [] {
      var m := |steps| - 1;
      TerminalIsFinal(cfg, s, steps[..m], id);
      RunKeepsGood(cfg, s, steps[..m]);
      RunKeepsUsed(cfg, s, steps[..m]);
      StepEvolves(cfg, RunFrom(cfg, s, steps[..m]), steps[m], id);
      if steps[m].Client? && steps[m].client.Submit? && steps[m].client.id == id {
        assert id in RunFrom(cfg, s, steps[..m]).used;
      }
    }
  }

  lemma {:induction false} RunKeepsUsed(cfg: Config, s: Sys, steps: seq<Step>)
    requires ValidConfig(cfg) && Good(cfg, s)
    ensures Grows(s, RunFrom(cfg, s, steps))
  {
    if steps != [] {
      var m := |steps| - 1;
      RunKeepsUsed(cfg, s, steps[..m]);
      RunKeepsGood(cfg, s, steps[..m]);
      StepKeepsKnown(cfg, RunFrom(cfg, s, steps[..m]), steps[m]);
    }
  }

  // ------------------------------------------------------------ status changes

  function Rank(status: Status): int {
    match status
    case Queued => -1
    case Retrying => 0
    case Running => 1
    case _ => 0
  }

  /** Falls at every status change. */
  function Measure(cfg: Config, job: Job): int {
    if Over(job.status) then 0 else 3 * (cfg.maxAttempts - job.attempts) + Rank(job.status)
  }

  /** How often the status of a job has changed along a run. */
  function Changes(cfg: Config, steps: seq<Step>, id: JobId): nat {
    if steps == [] then 0 else
    var m := |steps| - 1;
    var before, after := Run(cfg, steps[..m]).db, Run(cfg, steps).db;
    Changes(cfg, steps[..m], id) +
      if id in before.jobs && id in after.jobs && before.jobs[id].status != after.jobs[id].status then 1 else 0
  }

  lemma MeasureFalls(cfg: Config, db: Db, a: Job, b: Job, id: JobId)
    requires DbInv(cfg, db) && id in db.jobs && db.jobs[id] == a && NextJob(cfg, a, b)
    ensures Measure(cfg, a) >= 0
    ensures b.status != a.status ==> Measure(cfg, b) < Measure(cfg, a)
    ensures b.status == a.status ==> Measure(cfg, b) == Measure(cfg, a)
  {
    assert Accounted(cfg, db, id);
  }

  lemma {:induction false} ChangesWithinMeasure(cfg: Config, steps: seq<Step>, id: JobId)
    requires ValidConfig(cfg)
    ensures id !in Run(cfg, steps).used ==> Changes(cfg, steps, id) == 0
    ensures Changes(cfg, steps, id) <= 3 * cfg.maxAttempts - 1
    ensures id in Run(cfg, steps).db.jobs ==>
      Changes(cfg, steps, id) + Measure(cfg, Run(cfg, steps).db.jobs[id]) <= 3 * cfg.maxAttempts - 1
  {
    if steps != [] {
      var m := |steps| - 1;
      var s := Run(cfg, steps[..m]);
      ChangesWithinMeasure(cfg, steps[..m], id);
      Reachable(cfg, steps[..m]);
      Reachable(cfg, steps);
      StepKeepsKnown(cfg, s, steps[m]);
      StepEvolves(cfg, s, steps[m], id);
      if id in Run(cfg, steps).db.jobs {
        if id in s.db.jobs {
          MeasureFalls(cfg, s.db, s.db.jobs[id], Run(cfg, steps).db.jobs[id], id);
          NonNegative(cfg, Run(cfg, steps).db, id);
        } else {
          SubmittedIsNew(cfg, s, steps[m], id);
        }
      }
    }
  }

  lemma NonNegative(cfg: Config, db: Db, id: JobId)
    requires DbInv(cfg, db) && id in db.jobs
    ensures Measure(cfg, db.jobs[id]) >= 0
  {
    assert Accounted(cfg, db, id);
  }

  lemma SubmittedIsNew(cfg: Config, s: Sys, step: Step, id: JobId)
    requires |s.db.pending| == cfg.shards && Known(s) && id !in s.db.jobs && id in Apply(cfg, s, step).db.jobs
    ensures id !in s.used
    ensures Measure(cfg, Apply(cfg, s, step).db.jobs[id]) == 3 * cfg.maxAttempts - 1
  {
    StepEvolves(cfg, s, step, id);
  }

  // -------------------------------------------------------------- cancellation

  /** The attempt can no longer publish or succeed. */
  ghost predicate Barred(s: Sys, id: JobId, n: nat) {
    && id in s.used
    && (id in s.db.jobs ==>
          var job := s.db.jobs[id];
          && job.attempts >= n
          && (job.attempts == n ==> job.status != Succeeded && (job.status == Running ==> job.cancelRequested)))
  }

  lemma BarredStep(cfg: Config, s: Sys, step: Step, id: JobId, n: nat)
    requires ValidConfig(cfg) && Good(cfg, s) && Barred(s, id, n)
    ensures Barred(Apply(cfg, s, step), id, n)
    ensures Grows(s, Apply(cfg, s, step))
    ensures forall e | e in News(s, Apply(cfg, s, step)) && e.Accepted? && e.query == id :: e.attemptId.number != n
  {
    StepKeepsKnown(cfg, s, step);
    StepEvolves(cfg, s, step, id);
    StepExplained(cfg, s, step);
  }

  /**
   * Once a cancellation is recorded during attempt `n`, then whatever happens
   * next that attempt neither publishes nor succeeds.
   */
  lemma {:induction false} CancelledAttemptIsBarred(cfg: Config, s: Sys, steps: seq<Step>, id: JobId)
    requires ValidConfig(cfg) && Good(cfg, s)
    requires id in s.db.jobs && s.db.jobs[id].status == Running && s.db.jobs[id].cancelRequested
    ensures var n, t := s.db.jobs[id].attempts, RunFrom(cfg, s, steps);
      && Barred(t, id, n)
      && (id in t.db.jobs && t.db.jobs[id].status == Succeeded ==> t.db.jobs[id].attempts > n)
      && |s.history| <= |t.history|
      && (forall e | e in t.history[|s.history|..] && e.Accepted? && e.query == id :: e.attemptId.number != n)
  {
    if steps != [] {
      var m := |steps| - 1;
      var t, u := RunFrom(cfg, s, steps[..m]), RunFrom(cfg, s, steps);
      CancelledAttemptIsBarred(cfg, s, steps[..m], id);
      RunKeepsGood(cfg, s, steps[..m]);
      BarredStep(cfg, t, steps[m], id, s.db.jobs[id].attempts);
      assert u.history[|s.history|..] == t.history[|s.history|..] + News(t, u);
    }
  }

  /** Reaping a running job whose cancellation is recorded cancels it, if it takes the job at all. */
  lemma ReapHonoursCancel(cfg: Config, db: Db, id: JobId, shard: nat, lease: int, now: int, next: int)
    requires shard < |db.pending| && id in db.jobs && db.jobs[id].status == Running && db.jobs[id].cancelRequested
    ensures var after := Reap(db, id, shard, lease, now, cfg.maxAttempts, next).0;
      after == db || after.jobs[id].status == Cancelled
  {
  }

  /**
   * A cancellation that finds a job queued or retrying is final in every
   * continuation, even if the id was already moved, or is listed twice.
   */
  lemma CancelWhileWaitingIsFinal(cfg: Config, s: Sys, call: ClientCall, steps: seq<Step>)
    requires ValidConfig(cfg) && Good(cfg, s)
    requires call.RequestCancel? && ClientEnabled(cfg, s, call)
    requires call.id in s.db.jobs && (s.db.jobs[call.id].status == Queued || s.db.jobs[call.id].status == Retrying)
    ensures var t := RunFrom(cfg, ApplyClient(cfg, s, call), steps);
      call.id in t.db.jobs ==> t.db.jobs[call.id].status == Cancelled
  {
    StepKeepsGood(cfg, s, Client(call));
    TerminalIsFinal(cfg, Apply(cfg, s, Client(call)), steps, call.id);
  }
}
