// The fields of one job record agree with each other and with the retry set.
module Records {
  import opened Lists
  import opened Scripts
  import opened Protocol

  /** What a reader of the record may conclude from its status. */
  predicate Clean(db: Db, id: JobId) {
    id in db.jobs ==>
      var job := db.jobs[id];
      && (job.status != Running ==> job.worker.None? && job.lease == 0)
      && (job.status == Running ==> job.worker.Some?)
      && (job.result.Some? <==> job.status == Succeeded)
      && (job.status == Succeeded ==> job.error == NoMessage)
      && (job.status == Queued || job.status == Running ==> job.nextAttempt == 0)
      && (job.status == Retrying ==> id in db.retry && job.nextAttempt == db.retry[id])
  }

  lemma EnqueueClean(db: Db, target: JobId, request: Request, shard: nat, now: int, key: Option<IdemKey>, depth: nat, id: JobId)
    requires shard < |db.pending| && Clean(db, id)
    ensures Clean(Enqueue(db, target, request, shard, now, key, depth).0, id)
  {
  }

  lemma CancelClean(db: Db, target: JobId, shard: nat, now: int, id: JobId)
    requires shard < |db.pending| && Clean(db, id)
    ensures Clean(Cancel(db, target, shard, now).0, id)
  {
  }

  lemma ClientClean(cfg: Config, s: Sys, call: ClientCall, id: JobId)
    requires |s.db.pending| == cfg.shards && ClientEnabled(cfg, s, call) && Clean(s.db, id)
    ensures Clean(ApplyClient(cfg, s, call).db, id)
  {
    match call
    case Submit(target, request, shard, now, key) =>
      EnqueueClean(s.db, target, request, shard, now, key, cfg.maxDepth, id);
    case SyncPublish(_, _, _, _, _) =>
    case RequestCancel(target, shard, now) => CancelClean(s.db, target, shard, now, id);
  }

  lemma LoopClean(cfg: Config, s: Sys, w: WorkerId, call: LoopCall, id: JobId)
    requires |s.db.pending| == cfg.shards && LoopEnabled(cfg, s, w, call) && Clean(s.db, id)
    ensures Clean(ApplyLoop(cfg, s, w, call).db, id)
  {
  }

  lemma RetryClean(db: Db, target: JobId, w: WorkerId, maxAttempts: nat, error: Message, now: int, next: int, id: JobId)
    requires Clean(db, id)
    ensures Clean(Retry(db, target, w, maxAttempts, error, now, next).0, id)
  {
  }

  lemma HeldClean(cfg: Config, s: Sys, w: WorkerId, call: HeldCall, id: JobId)
    requires |s.db.pending| == cfg.shards && HeldEnabled(s, w, call) && Clean(s.db, id)
    ensures Clean(ApplyHeld(cfg, s, w, call).db, id)
  {
    if call.RetryHeld? {
      RetryClean(s.db, HeldJob(s, w), w, cfg.maxAttempts, call.error, call.now, call.readAt + call.delay, id);
    }
  }

  lemma ReapClean(db: Db, target: JobId, shard: nat, lease: int, now: int, maxAttempts: nat, next: int, id: JobId)
    requires shard < |db.pending| && Clean(db, id)
    ensures Clean(Reap(db, target, shard, lease, now, maxAttempts, next).0, id)
  {
  }

  lemma UpkeepClean(cfg: Config, s: Sys, call: UpkeepCall, id: JobId)
    requires |s.db.pending| == cfg.shards && UpkeepEnabled(cfg, s, call) && Clean(s.db, id)
    ensures Clean(ApplyUpkeep(cfg, s, call).db, id)
  {
    if call.ReapOne? {
      ReapClean(s.db, call.id, call.shard, call.lease, call.now, cfg.maxAttempts, call.now + call.delay, id);
    }
  }

  /** In every reachable state each record is clean. */
  lemma {:induction false} RecordsAreClean(cfg: Config, steps: seq<Step>, id: JobId)
    ensures Clean(Run(cfg, steps).db, id)
  {
    if steps != [] {
      var m := |steps| - 1;
      RecordsAreClean(cfg, steps[..m], id);
      var s := Run(cfg, steps[..m]);
      match steps[m]
      case Tick(_) =>
      case Client(call) => if ClientEnabled(cfg, s, call) { ClientClean(cfg, s, call, id); }
      case Loop(w, call) => if LoopEnabled(cfg, s, w, call) { LoopClean(cfg, s, w, call, id); }
      case Held(w, call) => if HeldEnabled(s, w, call) { HeldClean(cfg, s, w, call, id); }
      case Upkeep(call) => if UpkeepEnabled(cfg, s, call) { UpkeepClean(cfg, s, call, id); }
    }
  }
}
