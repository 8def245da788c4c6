// What one step can do to one job: the status machine, and who moves it.
module Evolution {
  import opened Lists
  import opened Scripts
  import opened Protocol
  import opened Placement

  /** What no step changes about a job. */
  predicate SameIdentity(a: Job, b: Job) {
    b.shard == a.shard && b.request == a.request && b.createdAt == a.createdAt
  }

  predicate IsClaim(a: Job, b: Job) {
    && a.status == Queued && b.status == Running
    && b.attempts == a.attempts + 1 && b.worker.Some? && !b.cancelRequested && b.result == a.result
  }

  /** A heartbeat, or a recorded cancellation. */
  predicate IsKept(a: Job, b: Job) {
    && a.status == Running && b.status == Running
    && b.attempts == a.attempts && b.worker == a.worker && b.result == a.result
    && (a.cancelRequested ==> b.cancelRequested)
  }

  predicate IsEnd(cfg: Config, a: Job, b: Job) {
    && a.status == Running && b.status != Running && b.status != Queued
    && b.attempts == a.attempts && b.worker.None?
    && (b.status == Retrying ==> a.attempts < cfg.maxAttempts)
    && (b.status == Succeeded ==> !a.cancelRequested)
    && (b.status != Succeeded ==> b.result == a.result)
  }

  predicate IsPromotion(a: Job, b: Job) {
    a.status == Retrying && b.status == Queued && b.attempts == a.attempts && b.result == a.result
  }

  predicate IsWithdrawal(a: Job, b: Job) {
    && (a.status == Queued || a.status == Retrying) && b.status == Cancelled
    && b.attempts == a.attempts && b.result == a.result
  }

  /** One step of the status machine. */
  predicate NextJob(cfg: Config, a: Job, b: Job) {
    && SameIdentity(a, b)
    && (b == a || IsClaim(a, b) || IsKept(a, b) || IsEnd(cfg, a, b) || IsPromotion(a, b) || IsWithdrawal(a, b))
  }

  /** Only a worker that moved the job starts an attempt on it, and it becomes the owner. */
  predicate StartedBy(s: Sys, step: Step, id: JobId, b: Job) {
    && step.Loop? && step.loop.ClaimMoved?
    && PcOf(s, step.worker) == Moved(id)
    && b.worker == Some(step.worker)
  }

  /** Only the owner, at the end of the work on it, makes a job succeed. */
  predicate CompletedBy(s: Sys, step: Step, id: JobId, b: Job) {
    && step.Held? && step.held.CompleteHeld?
    && Holds(s, step.worker) && HeldJob(s, step.worker) == id
    && Owns(s.db, id, step.worker)
    && b.result == ResultOf(PcOf(s, step.worker), step.held.payload) && b.result.Some?
  }

  predicate SubmittedBy(step: Step, id: JobId, b: Job) {
    && step.Client? && step.client.Submit? && step.client.id == id
    && b == NewJob(step.client.request, step.client.shard, step.client.now)
  }

  ghost predicate Evolves(cfg: Config, s: Sys, step: Step, t: Sys, id: JobId) {
    id in t.db.jobs ==>
      if id in s.db.jobs then
        var a, b := s.db.jobs[id], t.db.jobs[id];
        && NextJob(cfg, a, b)
        && (b.status == Running && a.status != Running ==> StartedBy(s, step, id, b))
        && (b.status == Succeeded && a.status != Succeeded ==> CompletedBy(s, step, id, b))
      else
        SubmittedBy(step, id, t.db.jobs[id])
  }

  lemma CancelEvolves(cfg: Config, db: Db, target: JobId, shard: nat, now: int, id: JobId)
    requires shard < |db.pending| && id in db.jobs
    ensures id in Cancel(db, target, shard, now).0.jobs
    ensures var a, b := db.jobs[id], Cancel(db, target, shard, now).0.jobs[id];
      NextJob(cfg, a, b) && (b.status == a.status || IsWithdrawal(a, b))
  {
  }

  lemma ClientEvolves(cfg: Config, s: Sys, call: ClientCall, id: JobId)
    requires |s.db.pending| == cfg.shards && Known(s) && ClientEnabled(cfg, s, call)
    ensures Evolves(cfg, s, Client(call), ApplyClient(cfg, s, call), id)
  {
    if call.RequestCancel? && id in s.db.jobs {
      CancelEvolves(cfg, s.db, call.id, call.shard, call.now, id);
    }
  }

  lemma LoopEvolves(cfg: Config, s: Sys, w: WorkerId, call: LoopCall, id: JobId)
    requires |s.db.pending| == cfg.shards && LoopEnabled(cfg, s, w, call)
    ensures Evolves(cfg, s, Loop(w, call), ApplyLoop(cfg, s, w, call), id)
  {
  }

  lemma HeldEvolves(cfg: Config, s: Sys, w: WorkerId, call: HeldCall, id: JobId)
    requires |s.db.pending| == cfg.shards && HeldEnabled(s, w, call)
    ensures Evolves(cfg, s, Held(w, call), ApplyHeld(cfg, s, w, call), id)
  {
  }

  lemma ReapEvolves(cfg: Config, db: Db, target: JobId, shard: nat, lease: int, now: int, next: int, id: JobId)
    requires shard < |db.pending|
    ensures var after := Reap(db, target, shard, lease, now, cfg.maxAttempts, next).0;
      && (id in after.jobs <==> id in db.jobs)
      && (id in db.jobs && after.jobs[id] != db.jobs[id] ==>
            IsEnd(cfg, db.jobs[id], after.jobs[id]) && SameIdentity(db.jobs[id], after.jobs[id])
            && after.jobs[id].status != Succeeded)
  {
  }

  lemma UpkeepEvolves(cfg: Config, s: Sys, call: UpkeepCall, id: JobId)
    requires |s.db.pending| == cfg.shards && UpkeepEnabled(cfg, s, call)
    ensures Evolves(cfg, s, Upkeep(call), ApplyUpkeep(cfg, s, call), id)
  {
    if call.ReapOne? {
      ReapEvolves(cfg, s.db, call.id, call.shard, call.lease, call.now, call.now + call.delay, id);
    }
  }

  lemma StepEvolves(cfg: Config, s: Sys, step: Step, id: JobId)
    requires |s.db.pending| == cfg.shards && Known(s)
    ensures Evolves(cfg, s, step, Apply(cfg, s, step), id)
  {
    match step
    case Tick(_) =>
    case Client(call) => if ClientEnabled(cfg, s, call) { ClientEvolves(cfg, s, call, id); }
    case Loop(w, call) => if LoopEnabled(cfg, s, w, call) { LoopEvolves(cfg, s, w, call, id); }
    case Held(w, call) => if HeldEnabled(s, w, call) { HeldEvolves(cfg, s, w, call, id); }
    case Upkeep(call) => if UpkeepEnabled(cfg, s, call) { UpkeepEvolves(cfg, s, call, id); }
  }

  // ------------------------------------------------ ids are never reused

  /** Ids are only ever added to the ones handed out, and the clock does not go back. */
  predicate Grows(s: Sys, t: Sys) {
    s.used <= t.used && s.clock <= t.clock && s.history <= t.history
  }

  lemma CancelCreatesNothing(db: Db, id: JobId, shard: nat, now: int)
    requires shard < |db.pending|
    ensures var after := Cancel(db, id, shard, now).0;
      after.jobs.Keys == db.jobs.Keys && after.retry.Keys <= db.retry.Keys && after.dead == db.dead
  {
  }

  lemma ClientKeepsKnown(cfg: Config, s: Sys, call: ClientCall)
    requires |s.db.pending| == cfg.shards && Known(s) && ClientEnabled(cfg, s, call)
    ensures Known(ApplyClient(cfg, s, call)) && Grows(s, ApplyClient(cfg, s, call))
  {
    if call.RequestCancel? {
      CancelCreatesNothing(s.db, call.id, call.shard, call.now);
    }
  }

  lemma LoopKeepsKnown(cfg: Config, s: Sys, w: WorkerId, call: LoopCall)
    requires |s.db.pending| == cfg.shards && Known(s) && LoopEnabled(cfg, s, w, call)
    ensures Known(ApplyLoop(cfg, s, w, call)) && Grows(s, ApplyLoop(cfg, s, w, call))
  {
  }

  lemma HeldKeepsKnown(cfg: Config, s: Sys, w: WorkerId, call: HeldCall)
    requires |s.db.pending| == cfg.shards && Known(s) && HeldEnabled(s, w, call)
    ensures Known(ApplyHeld(cfg, s, w, call)) && Grows(s, ApplyHeld(cfg, s, w, call))
  {
  }

  lemma ReapCreatesNothing(db: Db, id: JobId, shard: nat, lease: int, now: int, maxAttempts: nat, next: int)
    requires shard < |db.pending|
    ensures var after := Reap(db, id, shard, lease, now, maxAttempts, next).0;
      && after.jobs.Keys == db.jobs.Keys
      && (forall other | other in after.retry :: other in db.retry || other in db.jobs)
      && (forall other | other in after.dead :: other in db.dead || other in db.jobs)
  {
  }

  lemma UpkeepKeepsKnown(cfg: Config, s: Sys, call: UpkeepCall)
    requires |s.db.pending| == cfg.shards && Known(s) && UpkeepEnabled(cfg, s, call)
    ensures Known(ApplyUpkeep(cfg, s, call)) && Grows(s, ApplyUpkeep(cfg, s, call))
  {
    if call.ReapOne? {
      ReapCreatesNothing(s.db, call.id, call.shard, call.lease, call.now, cfg.maxAttempts, call.now + call.delay);
    }
  }

  lemma StepKeepsKnown(cfg: Config, s: Sys, step: Step)
    requires |s.db.pending| == cfg.shards && Known(s)
    ensures Known(Apply(cfg, s, step)) && Grows(s, Apply(cfg, s, step))
  {
    match step
    case Tick(_) =>
    case Client(call) => if ClientEnabled(cfg, s, call) { ClientKeepsKnown(cfg, s, call); }
    case Loop(w, call) => if LoopEnabled(cfg, s, w, call) { LoopKeepsKnown(cfg, s, w, call); }
    case Held(w, call) => if HeldEnabled(s, w, call) { HeldKeepsKnown(cfg, s, w, call); }
    case Upkeep(call) => if UpkeepEnabled(cfg, s, call) { UpkeepKeepsKnown(cfg, s, call); }
  }
}
