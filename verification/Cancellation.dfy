// When a cancellation recorded in a running attempt is honoured, and when it is lost.
module Cancellation {
  import opened Scripts
  import opened Protocol
  import opened Placement
  import opened Evolution
  import opened Guarantees
  import opened Lifecycle

  /** The cancellation of a running attempt is on record. */
  predicate Recorded(db: Db, id: JobId) {
    id in db.jobs && db.jobs[id].status == Running && db.jobs[id].cancelRequested
  }

  /** A retryable failure by the live owner, with attempts left: the retry script does not read the cancellation. */
  predicate Loses(cfg: Config, s: Sys, step: Step, id: JobId) {
    && step.Held? && step.held.RetryHeld? && HeldEnabled(s, step.worker, step.held)
    && HeldJob(s, step.worker) == id
    && OwnsLive(s.db, id, step.worker, step.held.now)
    && s.db.jobs[id].attempts < cfg.maxAttempts
  }

  /** In the same attempt: still running with the cancellation on record, ended without a success, or expired. */
  predicate Settled(db: Db, id: JobId, n: nat) {
    id in db.jobs ==>
      var job := db.jobs[id];
      && job.attempts == n
      && (Recorded(db, id) || job.status == Failed || job.status == Cancelled)
  }

  /** What one step makes of a recorded cancellation. */
  predicate Fate(cfg: Config, s: Sys, step: Step, t: Sys, id: JobId) {
    if Loses(cfg, s, step, id) then id in t.db.jobs && t.db.jobs[id].status == Retrying
    else id in s.db.jobs && Settled(t.db, id, s.db.jobs[id].attempts)
  }

  lemma ClientFate(cfg: Config, s: Sys, call: ClientCall, id: JobId)
    requires |s.db.pending| == cfg.shards && Known(s) && ClientEnabled(cfg, s, call) && Recorded(s.db, id)
    ensures Fate(cfg, s, Client(call), ApplyClient(cfg, s, call), id)
  {
    if call.RequestCancel? {
      CancelEvolves(cfg, s.db, call.id, call.shard, call.now, id);
    }
  }

  lemma LoopFate(cfg: Config, s: Sys, w: WorkerId, call: LoopCall, id: JobId)
    requires |s.db.pending| == cfg.shards && LoopEnabled(cfg, s, w, call) && Recorded(s.db, id)
    ensures Fate(cfg, s, Loop(w, call), ApplyLoop(cfg, s, w, call), id)
  {
  }

  lemma HeldFate(cfg: Config, s: Sys, w: WorkerId, call: HeldCall, id: JobId)
    requires |s.db.pending| == cfg.shards && HeldEnabled(s, w, call) && Recorded(s.db, id)
    ensures Fate(cfg, s, Held(w, call), ApplyHeld(cfg, s, w, call), id)
  {
  }

  lemma UpkeepFate(cfg: Config, s: Sys, call: UpkeepCall, id: JobId)
    requires |s.db.pending| == cfg.shards && UpkeepEnabled(cfg, s, call) && Recorded(s.db, id)
    ensures Fate(cfg, s, Upkeep(call), ApplyUpkeep(cfg, s, call), id)
  {
  }

  lemma StepFate(cfg: Config, s: Sys, step: Step, id: JobId)
    requires ValidConfig(cfg) && Good(cfg, s) && Recorded(s.db, id)
    ensures Fate(cfg, s, step, Apply(cfg, s, step), id)
  {
    match step
    case Tick(_) =>
    case Client(call) => if ClientEnabled(cfg, s, call) { ClientFate(cfg, s, call, id); }
    case Loop(w, call) => if LoopEnabled(cfg, s, w, call) { LoopFate(cfg, s, w, call, id); }
    case Held(w, call) => if HeldEnabled(s, w, call) { HeldFate(cfg, s, w, call, id); }
    case Upkeep(call) => if UpkeepEnabled(cfg, s, call) { UpkeepFate(cfg, s, call, id); }
  }

  /** A step sends a job whose cancellation is recorded to the retry set if and only if it is such a failure. */
  lemma LostByIff(cfg: Config, s: Sys, step: Step, id: JobId)
    requires ValidConfig(cfg) && Good(cfg, s) && Recorded(s.db, id)
    ensures var db := Apply(cfg, s, step).db; (id in db.jobs && db.jobs[id].status == Retrying) <==> Loses(cfg, s, step, id)
    ensures !Loses(cfg, s, step, id) ==> Settled(Apply(cfg, s, step).db, id, s.db.jobs[id].attempts)
  {
    StepFate(cfg, s, step, id);
  }

  // ----------------------------------------------------------------- runs

  /** The cancellation is on record and this step loses it. */
  predicate LostAt(cfg: Config, s: Sys, step: Step, id: JobId) {
    Recorded(s.db, id) && Loses(cfg, s, step, id)
  }

  lemma SettledStep(cfg: Config, s: Sys, step: Step, id: JobId, n: nat)
    requires ValidConfig(cfg) && Good(cfg, s) && Settled(s.db, id, n) && id in s.used
    ensures Settled(Apply(cfg, s, step).db, id, n) <==> !LostAt(cfg, s, step, id)
  {
    if Recorded(s.db, id) {
      StepFate(cfg, s, step, id);
    } else {
      StepEvolves(cfg, s, step, id);
    }
  }

  ghost predicate SettledAfter(cfg: Config, s: Sys, steps: seq<Step>, id: JobId, n: nat)
    requires |s.db.pending| == cfg.shards
  {
    Settled(RunFrom(cfg, s, steps).db, id, n)
  }

  ghost predicate AlwaysSettled(cfg: Config, s: Sys, steps: seq<Step>, id: JobId, n: nat)
    requires |s.db.pending| == cfg.shards
  {
    forall i | 0 <= i <= |steps| :: SettledAfter(cfg, s, steps[..i], id, n)
  }

  ghost predicate NeverLost(cfg: Config, s: Sys, steps: seq<Step>, id: JobId)
    requires |s.db.pending| == cfg.shards
  {
    forall i | 0 <= i < |steps| :: !LostAt(cfg, RunFrom(cfg, s, steps[..i]), steps[i], id)
  }

  lemma SettledSnoc(cfg: Config, s: Sys, steps: seq<Step>, step: Step, id: JobId, n: nat)
    requires |s.db.pending| == cfg.shards
    ensures AlwaysSettled(cfg, s, steps + [step], id, n) <==>
      AlwaysSettled(cfg, s, steps, id, n) && SettledAfter(cfg, s, steps + [step], id, n)
  {
    var longer := steps + [step];
    assert longer[..|longer|] == longer;
    if AlwaysSettled(cfg, s, longer, id, n) {
      forall i | 0 <= i <= |steps|
        ensures SettledAfter(cfg, s, steps[..i], id, n)
      {
        assert longer[..i] == steps[..i];
      }
    }
    if AlwaysSettled(cfg, s, steps, id, n) && SettledAfter(cfg, s, longer, id, n) {
      forall i | 0 <= i <= |longer|
        ensures SettledAfter(cfg, s, longer[..i], id, n)
      {
        assert i <= |steps| ==> longer[..i] == steps[..i];
      }
    }
  }

  lemma NeverSnoc(cfg: Config, s: Sys, steps: seq<Step>, step: Step, id: JobId)
    requires |s.db.pending| == cfg.shards
    ensures NeverLost(cfg, s, steps + [step], id) <==>
      NeverLost(cfg, s, steps, id) && !LostAt(cfg, RunFrom(cfg, s, steps), step, id)
  {
    var longer := steps + [step];
    assert forall i | 0 <= i <= |steps| :: longer[..i] == steps[..i];
    assert longer[..|steps|] == steps;
  }

  lemma RunFromSnoc(cfg: Config, s: Sys, steps: seq<Step>, step: Step)
    requires |s.db.pending| == cfg.shards
    ensures RunFrom(cfg, s, steps + [step]) == Apply(cfg, RunFrom(cfg, s, steps), step)
  {
    assert (steps + [step])[..|steps + [step]| - 1] == steps;
  }

  lemma SettledNext(cfg: Config, s: Sys, steps: seq<Step>, step: Step, id: JobId, n: nat)
    requires ValidConfig(cfg) && Good(cfg, s) && id in s.used && SettledAfter(cfg, s, steps, id, n)
    ensures SettledAfter(cfg, s, steps + [step], id, n) <==> !LostAt(cfg, RunFrom(cfg, s, steps), step, id)
  {
    RunFromSnoc(cfg, s, steps, step);
    RunKeepsGood(cfg, s, steps);
    RunKeepsUsed(cfg, s, steps);
    SettledStep(cfg, RunFrom(cfg, s, steps), step, id, n);
  }

  lemma HonouredSnoc(cfg: Config, s: Sys, steps: seq<Step>, step: Step, id: JobId, n: nat)
    requires ValidConfig(cfg) && Good(cfg, s) && id in s.used
    requires AlwaysSettled(cfg, s, steps, id, n) <==> NeverLost(cfg, s, steps, id)
    ensures AlwaysSettled(cfg, s, steps + [step], id, n) <==> NeverLost(cfg, s, steps + [step], id)
  {
    SettledSnoc(cfg, s, steps, step, id, n);
    NeverSnoc(cfg, s, steps, step, id);
    if AlwaysSettled(cfg, s, steps, id, n) {
      assert steps[..|steps|] == steps;
      assert SettledAfter(cfg, s, steps, id, n);
      SettledNext(cfg, s, steps, step, id, n);
    }
  }

  /**
   * In every continuation a recorded cancellation holds, through its attempt
   * and for good, if and only if no retryable failure of that attempt gets in.
   */
  lemma {:induction false} HonouredIff(cfg: Config, s: Sys, steps: seq<Step>, id: JobId)
    requires ValidConfig(cfg) && Good(cfg, s) && Recorded(s.db, id)
    ensures AlwaysSettled(cfg, s, steps, id, s.db.jobs[id].attempts) <==> NeverLost(cfg, s, steps, id)
  {
    if steps != [] {
      var m := |steps| - 1;
      HonouredIff(cfg, s, steps[..m], id);
      HonouredSnoc(cfg, s, steps[..m], steps[m], id, s.db.jobs[id].attempts);
      assert steps == steps[..m] + [steps[m]];
    }
  }

  /** A job that is waiting, claimed again or succeeds later has lost its cancellation to such a failure. */
  lemma OnlyFailureLoses(cfg: Config, s: Sys, steps: seq<Step>, id: JobId)
    requires ValidConfig(cfg) && Good(cfg, s) && Recorded(s.db, id)
    requires var db := RunFrom(cfg, s, steps).db;
      && id in db.jobs
      && (db.jobs[id].attempts != s.db.jobs[id].attempts || db.jobs[id].status == Succeeded
          || db.jobs[id].status == Retrying || db.jobs[id].status == Queued)
    ensures exists i | 0 <= i < |steps| :: LostAt(cfg, RunFrom(cfg, s, steps[..i]), steps[i], id)
  {
    HonouredIff(cfg, s, steps, id);
    assert steps[..|steps|] == steps;
    assert !SettledAfter(cfg, s, steps[..|steps|], id, s.db.jobs[id].attempts);
    assert !AlwaysSettled(cfg, s, steps, id, s.db.jobs[id].attempts);
    assert !NeverLost(cfg, s, steps, id);
  }
}
