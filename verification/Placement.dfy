// No job is lost and the queue stays bounded: where every unexpired job is
// recorded, in every reachable state, whatever duplicates the lists hold.
module Placement {
  import opened Lists
  import opened Scripts
  import opened Protocol

  predicate LiveStatus(status: Status) {
    status == Queued || status == Running || status == Retrying
  }

  predicate Over(status: Status) {
    !LiveStatus(status)
  }

  /** At least once, not exactly once: lists may hold an id several times. */
  predicate Placed(cfg: Config, db: Db, id: JobId)
    requires id in db.jobs
  {
    var job := db.jobs[id];
    && job.shard < cfg.shards == |db.pending|
    && (job.status == Queued ==> id in db.pending[job.shard] || id in db.processing)
    && (job.status == Running ==> id in db.processing)
    && (job.status == Retrying <==> id in db.retry)
  }

  /** The attempt budget, and the dead list's record of failed jobs. */
  predicate Accounted(cfg: Config, db: Db, id: JobId)
    requires id in db.jobs
  {
    var job := db.jobs[id];
    && job.attempts <= cfg.maxAttempts
    && (job.status == Queued || job.status == Retrying ==> job.attempts < cfg.maxAttempts)
    && (job.status == Running ==> job.attempts >= 1 && job.worker.Some?)
    && (job.status == Retrying ==> job.attempts >= 1)
    && job.request.Some?
    && (id in db.dead <==> job.status == Failed)
  }

  function Live(db: Db): set<JobId> {
    set id | id in db.jobs && LiveStatus(db.jobs[id].status)
  }

  ghost predicate DbInv(cfg: Config, db: Db) {
    && |db.pending| == cfg.shards
    && (forall id | id in db.jobs :: Placed(cfg, db, id))
    && (forall id | id in db.jobs :: Accounted(cfg, db, id))
    && NoDuplicates(db.dead)
    && |Live(db)| <= cfg.maxDepth
  }

  /** Every id the shared state mentions was handed out before. */
  ghost predicate Known(s: Sys) {
    && s.db.jobs.Keys <= s.used
    && s.db.retry.Keys <= s.used
    && (forall id | id in s.db.dead :: id in s.used)
  }

  /** One pending list a shard, and every live job in some list or in the retry set. */
  lemma LiveWithinDepth(cfg: Config, db: Db)
    requires DbInv(cfg, db)
    ensures |Live(db)| <= Depth(db)
  {
    var lists := Union(db.pending) + Elements(db.processing);
    forall id | id in Live(db)
      ensures id in lists + db.retry.Keys
    {
      assert Placed(cfg, db, id);
    }
    SubsetSize(Live(db), lists + db.retry.Keys);
    UnionBound(db.pending);
    ElementsBound(db.processing);
    assert |lists + db.retry.Keys| <= |lists| + |db.retry.Keys|;
  }

  /** Enough for the scripts that create nothing: no job becomes live. */
  lemma NoNewLive(cfg: Config, before: Db, after: Db)
    requires |Live(before)| <= cfg.maxDepth
    requires forall id | id in after.jobs && LiveStatus(after.jobs[id].status) ::
      id in before.jobs && LiveStatus(before.jobs[id].status)
    ensures |Live(after)| <= cfg.maxDepth
  {
    SubsetSize(Live(after), Live(before));
  }

  /** A change that concerns one job: its record, and its own entries in the lists. */
  ghost predicate OnlyTouches(before: Db, after: Db, id: JobId) {
    && |after.pending| == |before.pending|
    && (forall other | other != id :: other in after.jobs <==> other in before.jobs)
    && (forall other | other != id && other in after.jobs :: after.jobs[other] == before.jobs[other])
    && SameBut(before.processing, after.processing, id)
    && (forall i | 0 <= i < |before.pending| :: SameBut(before.pending[i], after.pending[i], id))
    && (forall other | other != id :: other in after.retry <==> other in before.retry)
    && SameBut(before.dead, after.dead, id)
  }

  /** Only the touched job needs looking at. */
  lemma Framed(cfg: Config, before: Db, after: Db, id: JobId)
    requires DbInv(cfg, before) && OnlyTouches(before, after, id)
    requires id in after.jobs ==> Placed(cfg, after, id) && Accounted(cfg, after, id)
    requires NoDuplicates(after.dead)
    requires |Live(after)| <= cfg.maxDepth
    ensures DbInv(cfg, after)
  {
    forall other | other in after.jobs
      ensures Placed(cfg, after, other) && Accounted(cfg, after, other)
    {
      if other != id {
        assert Placed(cfg, before, other) && Accounted(cfg, before, other);
      }
    }
  }

  lemma FramedQuiet(cfg: Config, before: Db, after: Db, id: JobId)
    requires DbInv(cfg, before) && OnlyTouches(before, after, id)
    requires id in after.jobs ==> Placed(cfg, after, id) && Accounted(cfg, after, id)
    requires NoDuplicates(after.dead)
    requires id in after.jobs && LiveStatus(after.jobs[id].status) ==> id in before.jobs && LiveStatus(before.jobs[id].status)
    ensures DbInv(cfg, after)
  {
    NoNewLive(cfg, before, after);
    Framed(cfg, before, after, id);
  }

  lemma EnqueueTouches(db: Db, id: JobId, request: Request, shard: nat, now: int, key: Option<IdemKey>, maxDepth: nat)
    requires shard < |db.pending|
    ensures OnlyTouches(db, Enqueue(db, id, request, shard, now, key, maxDepth).0, id)
  {
  }

  lemma MoveTouches(db: Db, shard: nat)
    requires shard < |db.pending|
    ensures var (after, moved) := Move(db, shard);
      if moved.None? then after == db else OnlyTouches(db, after, moved.value)
  {
    var (after, moved) := Move(db, shard);
    if moved.Some? {
      assert db.pending[shard] == after.pending[shard] + [moved.value];
    }
  }

  lemma ClaimTouches(db: Db, id: JobId, w: WorkerId, lease: int, now: int)
    ensures OnlyTouches(db, Claim(db, id, w, lease, now).0, id)
  {
    RemoveFirstMembers(db.processing, id);
  }

  lemma CompleteTouches(db: Db, id: JobId, w: WorkerId, result: Result, now: int)
    ensures OnlyTouches(db, Complete(db, id, w, result, now).0, id)
  {
    RemoveFirstMembers(db.processing, id);
  }

  lemma TerminalTouches(db: Db, id: JobId, w: WorkerId, status: Status, error: Message, now: int)
    ensures OnlyTouches(db, Terminal(db, id, w, status, error, now).0, id)
  {
    RemoveFirstMembers(db.processing, id);
  }

  lemma RetryTouches(db: Db, id: JobId, w: WorkerId, maxAttempts: nat, error: Message, now: int, next: int)
    ensures OnlyTouches(db, Retry(db, id, w, maxAttempts, error, now, next).0, id)
  {
    RemoveFirstMembers(db.processing, id);
  }

  lemma EndExpiredTouches(db: Db, id: JobId, now: int, maxAttempts: nat, next: int)
    requires id in db.jobs
    ensures OnlyTouches(db, EndExpired(db, id, now, maxAttempts, next), id)
  {
    RemoveFirstMembers(db.processing, id);
  }

  lemma ReapTouches(db: Db, id: JobId, shard: nat, lease: int, now: int, maxAttempts: nat, next: int)
    requires shard < |db.pending|
    ensures OnlyTouches(db, Reap(db, id, shard, lease, now, maxAttempts, next).0, id)
  {
    RemoveFirstMembers(db.processing, id);
    if id in db.jobs {
      EndExpiredTouches(db, id, now, maxAttempts, next);
    }
  }

  lemma PromoteTouches(db: Db, id: JobId, shard: nat, now: int)
    requires shard < |db.pending|
    ensures OnlyTouches(db, Promote(db, id, shard, now).0, id)
  {
  }

  lemma CancelTouches(db: Db, id: JobId, shard: nat, now: int)
    requires shard < |db.pending|
    ensures OnlyTouches(db, Cancel(db, id, shard, now).0, id)
  {
    RemoveFirstMembers(db.pending[shard], id);
  }

  lemma EnqueueBounded(cfg: Config, db: Db, id: JobId, request: Request, shard: nat, now: int, key: Option<IdemKey>)
    requires DbInv(cfg, db) && shard < cfg.shards
    ensures |Live(Enqueue(db, id, request, shard, now, key, cfg.maxDepth).0)| <= cfg.maxDepth
  {
    var (after, reply) := Enqueue(db, id, request, shard, now, key, cfg.maxDepth);
    if reply.Created? {
      LiveWithinDepth(cfg, db);
      SubsetSize(Live(after), Live(db) + {id});
    }
  }

  lemma EnqueueKeeps(cfg: Config, db: Db, id: JobId, request: Request, shard: nat, now: int, key: Option<IdemKey>)
    requires ValidConfig(cfg) && DbInv(cfg, db) && shard < cfg.shards
    requires id !in db.jobs && id !in db.retry && id !in db.dead
    ensures DbInv(cfg, Enqueue(db, id, request, shard, now, key, cfg.maxDepth).0)
  {
    var (after, reply) := Enqueue(db, id, request, shard, now, key, cfg.maxDepth);
    if reply.Created? {
      EnqueueTouches(db, id, request, shard, now, key, cfg.maxDepth);
      EnqueueBounded(cfg, db, id, request, shard, now, key);
      Framed(cfg, db, after, id);
    }
  }

  lemma MoveKeeps(cfg: Config, db: Db, shard: nat)
    requires DbInv(cfg, db) && shard < cfg.shards
    ensures DbInv(cfg, Move(db, shard).0)
  {
    var (after, moved) := Move(db, shard);
    if moved.Some? {
      var id := moved.value;
      MoveTouches(db, shard);
      if id in db.jobs {
        assert Placed(cfg, db, id) && Accounted(cfg, db, id);
      }
      FramedQuiet(cfg, db, after, id);
    }
  }

  lemma ClaimKeeps(cfg: Config, db: Db, id: JobId, w: WorkerId, lease: int, now: int)
    requires DbInv(cfg, db)
    ensures DbInv(cfg, Claim(db, id, w, lease, now).0)
  {
    ClaimTouches(db, id, w, lease, now);
    if id in db.jobs {
      assert Placed(cfg, db, id) && Accounted(cfg, db, id);
    }
    FramedQuiet(cfg, db, Claim(db, id, w, lease, now).0, id);
  }

  lemma HeartbeatKeeps(cfg: Config, db: Db, id: JobId, w: WorkerId, lease: int, now: int)
    requires DbInv(cfg, db)
    ensures DbInv(cfg, Heartbeat(db, id, w, lease, now).0)
  {
    if id in db.jobs {
      assert Placed(cfg, db, id) && Accounted(cfg, db, id);
    }
    FramedQuiet(cfg, db, Heartbeat(db, id, w, lease, now).0, id);
  }

  lemma CompleteKeeps(cfg: Config, db: Db, id: JobId, w: WorkerId, result: Result, now: int)
    requires DbInv(cfg, db)
    ensures DbInv(cfg, Complete(db, id, w, result, now).0)
  {
    CompleteTouches(db, id, w, result, now);
    if id in db.jobs {
      assert Placed(cfg, db, id) && Accounted(cfg, db, id);
    }
    FramedQuiet(cfg, db, Complete(db, id, w, result, now).0, id);
  }

  lemma TerminalKeeps(cfg: Config, db: Db, id: JobId, w: WorkerId, status: Status, error: Message, now: int)
    requires DbInv(cfg, db) && (status == Failed || status == Cancelled)
    ensures DbInv(cfg, Terminal(db, id, w, status, error, now).0)
  {
    TerminalTouches(db, id, w, status, error, now);
    if id in db.jobs {
      assert Placed(cfg, db, id) && Accounted(cfg, db, id);
    }
    FramedQuiet(cfg, db, Terminal(db, id, w, status, error, now).0, id);
  }

  lemma RetryKeeps(cfg: Config, db: Db, id: JobId, w: WorkerId, error: Message, now: int, next: int)
    requires DbInv(cfg, db)
    ensures DbInv(cfg, Retry(db, id, w, cfg.maxAttempts, error, now, next).0)
  {
    RetryTouches(db, id, w, cfg.maxAttempts, error, now, next);
    if id in db.jobs {
      assert Placed(cfg, db, id) && Accounted(cfg, db, id);
    }
    FramedQuiet(cfg, db, Retry(db, id, w, cfg.maxAttempts, error, now, next).0, id);
  }

  lemma EndExpiredKeeps(cfg: Config, db: Db, id: JobId, now: int, next: int)
    requires DbInv(cfg, db) && id in db.jobs && db.jobs[id].status == Running
    ensures DbInv(cfg, EndExpired(db, id, now, cfg.maxAttempts, next))
  {
    EndExpiredTouches(db, id, now, cfg.maxAttempts, next);
    assert Placed(cfg, db, id) && Accounted(cfg, db, id);
    FramedQuiet(cfg, db, EndExpired(db, id, now, cfg.maxAttempts, next), id);
  }

  lemma ReapKeeps(cfg: Config, db: Db, id: JobId, shard: nat, lease: int, now: int, next: int)
    requires DbInv(cfg, db) && shard < cfg.shards && (id in db.jobs ==> db.jobs[id].shard == shard)
    ensures DbInv(cfg, Reap(db, id, shard, lease, now, cfg.maxAttempts, next).0)
  {
    if id in db.jobs {
      assert Placed(cfg, db, id) && Accounted(cfg, db, id);
    }
    if id in db.jobs && db.jobs[id].status == Running {
      EndExpiredKeeps(cfg, db, id, now, next);
    } else {
      ReapTouches(db, id, shard, lease, now, cfg.maxAttempts, next);
      FramedQuiet(cfg, db, Reap(db, id, shard, lease, now, cfg.maxAttempts, next).0, id);
    }
  }

  lemma PromoteKeeps(cfg: Config, db: Db, id: JobId, shard: nat, now: int)
    requires DbInv(cfg, db) && shard < cfg.shards && (id in db.jobs ==> db.jobs[id].shard == shard)
    ensures DbInv(cfg, Promote(db, id, shard, now).0)
  {
    PromoteTouches(db, id, shard, now);
    if id in db.jobs {
      assert Placed(cfg, db, id) && Accounted(cfg, db, id);
    }
    FramedQuiet(cfg, db, Promote(db, id, shard, now).0, id);
  }

  lemma CancelKeeps(cfg: Config, db: Db, id: JobId, shard: nat, now: int)
    requires DbInv(cfg, db) && shard < cfg.shards && (id in db.jobs ==> db.jobs[id].shard == shard)
    ensures DbInv(cfg, Cancel(db, id, shard, now).0)
  {
    CancelTouches(db, id, shard, now);
    if id in db.jobs {
      assert Placed(cfg, db, id) && Accounted(cfg, db, id);
    }
    FramedQuiet(cfg, db, Cancel(db, id, shard, now).0, id);
  }

  /** Steps that leave jobs and lists alone, or only drop a job record. */
  lemma QuietKeeps(cfg: Config, before: Db, after: Db, id: JobId)
    requires DbInv(cfg, before)
    requires after.jobs == before.jobs || after.jobs == before.jobs - {id}
    requires after.pending == before.pending && after.processing == before.processing
    requires after.retry == before.retry && after.dead == before.dead
    ensures DbInv(cfg, after)
  {
    if id in after.jobs {
      assert Placed(cfg, before, id) && Accounted(cfg, before, id);
    }
    FramedQuiet(cfg, before, after, id);
  }

  lemma ClientKeepsDbInv(cfg: Config, s: Sys, call: ClientCall)
    requires ValidConfig(cfg) && DbInv(cfg, s.db) && Known(s) && ClientEnabled(cfg, s, call)
    ensures DbInv(cfg, ApplyClient(cfg, s, call).db)
  {
    match call
    case Submit(id, request, shard, now, key) => EnqueueKeeps(cfg, s.db, id, request, shard, now, key);
    case SyncPublish(id, _, _, _, _) => QuietKeeps(cfg, s.db, ApplyClient(cfg, s, call).db, id);
    case RequestCancel(id, shard, now) => CancelKeeps(cfg, s.db, id, shard, now);
  }

  lemma DoClaimKeepsDbInv(cfg: Config, s: Sys, w: WorkerId, now: nat)
    requires DbInv(cfg, s.db) && PcOf(s, w).Moved?
    ensures DbInv(cfg, DoClaim(cfg, s, w, now).db)
  {
    var lease := now + cfg.leaseMs;
    ClaimKeeps(cfg, s.db, PcOf(s, w).job, w, lease, now);
    assert DoClaim(cfg, s, w, now).db == Claim(s.db, PcOf(s, w).job, w, lease, now).0;
  }

  lemma LoopKeepsDbInv(cfg: Config, s: Sys, w: WorkerId, call: LoopCall)
    requires DbInv(cfg, s.db) && LoopEnabled(cfg, s, w, call)
    ensures DbInv(cfg, ApplyLoop(cfg, s, w, call).db)
  {
    match call
    case MoveOne(shard) => MoveKeeps(cfg, s.db, shard);
    case ClaimMoved(now) => DoClaimKeepsDbInv(cfg, s, w, now);
    case Beat(id, now) => HeartbeatKeeps(cfg, s.db, id, w, now + cfg.leaseMs, now);
    case LetGo =>
    case Crash =>
  }

  lemma HeldKeepsDbInv(cfg: Config, s: Sys, w: WorkerId, call: HeldCall)
    requires DbInv(cfg, s.db) && HeldEnabled(s, w, call)
    ensures DbInv(cfg, ApplyHeld(cfg, s, w, call).db)
  {
    var id := HeldJob(s, w);
    match call
    case PublishHeld(_, _) => QuietKeeps(cfg, s.db, ApplyHeld(cfg, s, w, call).db, id);
    case CompleteHeld(payload, now) => CompleteKeeps(cfg, s.db, id, w, ResultOf(PcOf(s, w), payload).value, now);
    case FailHeld(error, now) => TerminalKeeps(cfg, s.db, id, w, Failed, error, now);
    case RetryHeld(error, readAt, delay, now) => RetryKeeps(cfg, s.db, id, w, error, now, readAt + delay);
    case CancelHeld(now) => TerminalKeeps(cfg, s.db, id, w, Cancelled, NoMessage, now);
  }

  lemma UpkeepKeepsDbInv(cfg: Config, s: Sys, call: UpkeepCall)
    requires DbInv(cfg, s.db) && UpkeepEnabled(cfg, s, call)
    ensures DbInv(cfg, ApplyUpkeep(cfg, s, call).db)
  {
    match call
    case ReapOne(id, shard, lease, now, delay) => ReapKeeps(cfg, s.db, id, shard, lease, now, now + delay);
    case PromoteOne(id, shard, now) => PromoteKeeps(cfg, s.db, id, shard, now);
    case ExpireJob(id) => QuietKeeps(cfg, s.db, ApplyUpkeep(cfg, s, call).db, id);
    case ExpireBinding(key) => QuietKeeps(cfg, s.db, ApplyUpkeep(cfg, s, call).db, key);
  }

  lemma StepKeepsDbInv(cfg: Config, s: Sys, step: Step)
    requires ValidConfig(cfg) && DbInv(cfg, s.db) && Known(s)
    ensures DbInv(cfg, Apply(cfg, s, step).db)
  {
    match step
    case Tick(_) =>
    case Client(call) => if ClientEnabled(cfg, s, call) { ClientKeepsDbInv(cfg, s, call); }
    case Loop(w, call) => if LoopEnabled(cfg, s, w, call) { LoopKeepsDbInv(cfg, s, w, call); }
    case Held(w, call) => if HeldEnabled(s, w, call) { HeldKeepsDbInv(cfg, s, w, call); }
    case Upkeep(call) => if UpkeepEnabled(cfg, s, call) { UpkeepKeepsDbInv(cfg, s, call); }
  }
}
