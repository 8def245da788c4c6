// The queue as a whole: the shared state, the workers' program counters, a
// monotone clock and a history, advanced one atomic action at a time.  A run is
// any sequence of steps, so a statement about all runs covers every
// interleaving of clients, workers, reapers and crashes.
module Protocol {
  import opened Lists
  import opened Scripts

  /**
   * Where a worker process is in its loop.  `Moved`: between the two halves of
   * a reservation.  `Holding`: between the claim and the end of the work on it,
   * with the manifest of this attempt once its publication was accepted.
   */
  datatype Pc =
    | Idle
    | Moved(job: JobId)
    | Holding(job: JobId, attempt: nat, request: Request, published: Option<Manifest>)
    | Dead

  /** What happened; `read` is the clock reading a call carried, `at` the time it took effect. */
  datatype Event =
    | Replied(key: Option<IdemKey>, hash: Hash, reply: EnqueueReply)
    | Claimed(job: JobId, attempt: nat, worker: WorkerId, read: nat, at: nat)
    | Beaten(job: JobId, read: nat)
    | Accepted(query: JobId, attemptId: AttemptId, dest: Dest, mode: WriteMode, manifest: Manifest)
    | Delayed(job: JobId, attempt: nat, due: nat)

  datatype Sys = Sys(
    db: Db,
    clock: nat,
    used: set<JobId>,
    workers: map<WorkerId, Pc>,
    history: seq<Event>)

  // In the calls below, `now` is a clock reading taken some time before the
  // call takes effect; `shard` and `lease` are what the caller read about a job
  // some time before.

  datatype ClientCall =
    | Submit(id: JobId, request: Request, shard: nat, now: nat, key: Option<IdemKey>)
    | SyncPublish(id: JobId, nonce: nat, dest: Dest, mode: WriteMode, now: nat)
    | RequestCancel(id: JobId, shard: nat, now: nat)

  /** A worker process outside the work on a job, and its heartbeat thread. */
  datatype LoopCall =
    | MoveOne(shard: nat)
    | ClaimMoved(now: nat)
    | Beat(id: JobId, now: nat)
    | LetGo
    | Crash

  /** A worker's calls about the job it holds. */
  datatype HeldCall =
    | PublishHeld(nonce: nat, now: nat)
    | CompleteHeld(payload: nat, now: nat)
    | FailHeld(error: Message, now: nat)
    | RetryHeld(error: Message, readAt: nat, delay: nat, now: nat)
    | CancelHeld(now: nat)

  datatype UpkeepCall =
    | ReapOne(id: JobId, shard: nat, lease: int, now: nat, delay: nat)
    | PromoteOne(id: JobId, shard: nat, now: nat)
    | ExpireJob(id: JobId)
    | ExpireBinding(key: IdemKey)

  datatype Step =
    | Tick(ms: nat)
    | Client(client: ClientCall)
    | Loop(worker: WorkerId, loop: LoopCall)
    | Held(worker: WorkerId, held: HeldCall)
    | Upkeep(upkeep: UpkeepCall)

  function PcOf(s: Sys, w: WorkerId): Pc {
    if w in s.workers then s.workers[w] else Idle
  }

  /** A shard a caller read from a job is that job's shard; without a job it is any shard. */
  predicate ShardRead(cfg: Config, s: Sys, id: JobId, shard: nat) {
    shard < cfg.shards && (id in s.db.jobs ==> s.db.jobs[id].shard == shard)
  }

  /** The stored result of a held attempt, or an inline result. */
  function ResultOf(pc: Pc, payload: nat): Option<Result>
    requires pc.Holding?
  {
    match pc.request.delivery
    case Inline => Some(InlineResult(payload))
    case Store(_, _) => if pc.published.Some? then Some(StoredResult(pc.published.value)) else None
  }

  /** A worker that is in the middle of the work on a job. */
  predicate Holds(s: Sys, w: WorkerId) {
    PcOf(s, w).Holding?
  }

  function HeldJob(s: Sys, w: WorkerId): JobId
    requires Holds(s, w)
  {
    PcOf(s, w).job
  }

  /** After a call that ended the attempt, the worker's loop starts over. */
  function Released(s: Sys, w: WorkerId, done: bool): map<WorkerId, Pc> {
    if done then s.workers[w := Idle] else s.workers
  }

  predicate ClientEnabled(cfg: Config, s: Sys, call: ClientCall) {
    match call
    case Submit(id, _, shard, now, _) => id !in s.used && shard < cfg.shards && now <= s.clock
    case SyncPublish(id, _, _, _, now) => id !in s.used && now <= s.clock
    case RequestCancel(id, shard, now) => ShardRead(cfg, s, id, shard) && now <= s.clock
  }

  predicate LoopEnabled(cfg: Config, s: Sys, w: WorkerId, call: LoopCall) {
    match call
    case MoveOne(shard) => PcOf(s, w).Idle? && shard < cfg.shards
    case ClaimMoved(now) => PcOf(s, w).Moved? && now <= s.clock
    case Beat(_, now) => now <= s.clock
    case LetGo => Holds(s, w)
    case Crash => true
  }

  /** A store-mode attempt publishes at most once, and completes only with what it published. */
  predicate HeldEnabled(s: Sys, w: WorkerId, call: HeldCall) {
    && Holds(s, w)
    && match call
       case PublishHeld(_, now) =>
         PcOf(s, w).request.delivery.Store? && PcOf(s, w).published.None? && now <= s.clock
       case CompleteHeld(payload, now) => ResultOf(PcOf(s, w), payload).Some? && now <= s.clock
       case FailHeld(_, now) => now <= s.clock
       case RetryHeld(_, readAt, delay, now) => readAt <= now <= s.clock && delay >= 1
       case CancelHeld(now) => now <= s.clock
  }

  predicate UpkeepEnabled(cfg: Config, s: Sys, call: UpkeepCall) {
    match call
    case ReapOne(id, shard, _, now, delay) => ShardRead(cfg, s, id, shard) && now <= s.clock && delay >= 1
    case PromoteOne(id, shard, now) => ShardRead(cfg, s, id, shard) && now <= s.clock
    case ExpireJob(_) => true
    case ExpireBinding(_) => true
  }

  function DoSubmit(cfg: Config, s: Sys, id: JobId, request: Request, shard: nat, now: nat, key: Option<IdemKey>): Sys
    requires shard < |s.db.pending|
  {
    var (db, reply) := Enqueue(s.db, id, request, shard, now, key, cfg.maxDepth);
    s.(db := db, used := s.used + {id}, history := s.history + [Replied(key, request.hash, reply)])
  }

  /** A synchronous query publishes through the registry alone, under attempt number 0. */
  function DoSyncPublish(s: Sys, id: JobId, nonce: nat, dest: Dest, mode: WriteMode, now: nat): Sys {
    var attempt := AttemptId(0, nonce);
    var manifest := Manifest(dest, id, attempt);
    var (pubs, ok) := Record(s.db.pubs, dest, mode, Pointer(id, attempt, manifest), now);
    s.(db := s.db.(pubs := pubs), used := s.used + {id},
       history := if ok then s.history + [Accepted(id, attempt, dest, mode, manifest)] else s.history)
  }

  function DoMove(s: Sys, w: WorkerId, shard: nat): Sys
    requires shard < |s.db.pending|
  {
    var (db, moved) := Move(s.db, shard);
    s.(db := db, workers := if moved.Some? then s.workers[w := Moved(moved.value)] else s.workers)
  }

  function DoClaim(cfg: Config, s: Sys, w: WorkerId, now: nat): Sys
    requires PcOf(s, w).Moved?
  {
    var id := PcOf(s, w).job;
    var (db, grant) := Claim(s.db, id, w, now + cfg.leaseMs, now);
    s.(db := db,
       workers := s.workers[w := if grant.None? then Idle else Holding(id, grant.value.attempts, grant.value.request, None)],
       history := if grant.None? then s.history else s.history + [Claimed(id, grant.value.attempts, w, now, s.clock)])
  }

  function DoBeat(cfg: Config, s: Sys, w: WorkerId, id: JobId, now: nat): Sys {
    var (db, ok) := Heartbeat(s.db, id, w, now + cfg.leaseMs, now);
    s.(db := db, history := if ok then s.history + [Beaten(id, now)] else s.history)
  }

  function DoPublish(s: Sys, w: WorkerId, nonce: nat, now: nat): Sys
    requires Holds(s, w) && PcOf(s, w).request.delivery.Store?
  {
    var pc := PcOf(s, w);
    var Store(dest, mode) := pc.request.delivery;
    var attempt := AttemptId(pc.attempt, nonce);
    var manifest := Manifest(dest, pc.job, attempt);
    var (db, reply) := Publish(s.db, pc.job, w, pc.attempt, mode, dest, attempt, manifest, now);
    s.(db := db,
       workers := if reply == 1 then s.workers[w := pc.(published := Some(manifest))] else s.workers,
       history := if reply == 1 then s.history + [Accepted(pc.job, attempt, dest, mode, manifest)] else s.history)
  }

  function DoComplete(s: Sys, w: WorkerId, payload: nat, now: nat): Sys
    requires Holds(s, w) && ResultOf(PcOf(s, w), payload).Some?
  {
    var (db, done) := Complete(s.db, HeldJob(s, w), w, ResultOf(PcOf(s, w), payload).value, now);
    s.(db := db, workers := Released(s, w, done))
  }

  /** The terminal call, by `fail` without retry or by `cancel_complete`. */
  function DoTerminal(s: Sys, w: WorkerId, status: Status, error: Message, now: nat): Sys
    requires Holds(s, w)
  {
    var (db, done) := Terminal(s.db, HeldJob(s, w), w, status, error, now);
    s.(db := db, workers := Released(s, w, done))
  }

  /** Whether a job of `before` was sent to the retry set. */
  predicate SentToRetry(before: Db, after: Db, id: JobId) {
    && id in before.jobs && before.jobs[id].status == Running
    && id in after.jobs && after.jobs[id].status == Retrying
  }

  function DoRetry(cfg: Config, s: Sys, w: WorkerId, error: Message, due: nat, now: nat): Sys
    requires Holds(s, w)
  {
    var id := HeldJob(s, w);
    var (db, done) := Retry(s.db, id, w, cfg.maxAttempts, error, now, due);
    s.(db := db, workers := Released(s, w, done),
       history := if SentToRetry(s.db, db, id) then s.history + [Delayed(id, db.jobs[id].attempts, due)] else s.history)
  }

  function DoReap(cfg: Config, s: Sys, id: JobId, shard: nat, lease: int, now: nat, due: nat): Sys
    requires shard < |s.db.pending|
  {
    var db := Reap(s.db, id, shard, lease, now, cfg.maxAttempts, due).0;
    s.(db := db,
       history := if SentToRetry(s.db, db, id) then s.history + [Delayed(id, db.jobs[id].attempts, due)] else s.history)
  }

  function ApplyClient(cfg: Config, s: Sys, call: ClientCall): (r: Sys)
    requires |s.db.pending| == cfg.shards && ClientEnabled(cfg, s, call)
    ensures |r.db.pending| == cfg.shards
  {
    match call
    case Submit(id, request, shard, now, key) => DoSubmit(cfg, s, id, request, shard, now, key)
    case SyncPublish(id, nonce, dest, mode, now) => DoSyncPublish(s, id, nonce, dest, mode, now)
    case RequestCancel(id, shard, now) => s.(db := Cancel(s.db, id, shard, now).0)
  }

  function ApplyLoop(cfg: Config, s: Sys, w: WorkerId, call: LoopCall): (r: Sys)
    requires |s.db.pending| == cfg.shards && LoopEnabled(cfg, s, w, call)
    ensures |r.db.pending| == cfg.shards
  {
    match call
    case MoveOne(shard) => DoMove(s, w, shard)
    case ClaimMoved(now) => DoClaim(cfg, s, w, now)
    case Beat(id, now) => DoBeat(cfg, s, w, id, now)
    case LetGo => s.(workers := s.workers[w := Idle])
    case Crash => s.(workers := s.workers[w := Dead])
  }

  function ApplyHeld(cfg: Config, s: Sys, w: WorkerId, call: HeldCall): (r: Sys)
    requires |s.db.pending| == cfg.shards && HeldEnabled(s, w, call)
    ensures |r.db.pending| == cfg.shards
  {
    match call
    case PublishHeld(nonce, now) => DoPublish(s, w, nonce, now)
    case CompleteHeld(payload, now) => DoComplete(s, w, payload, now)
    case FailHeld(error, now) => DoTerminal(s, w, Failed, error, now)
    case RetryHeld(error, readAt, delay, now) => DoRetry(cfg, s, w, error, readAt + delay, now)
    case CancelHeld(now) => DoTerminal(s, w, Cancelled, NoMessage, now)
  }

  function ApplyUpkeep(cfg: Config, s: Sys, call: UpkeepCall): (r: Sys)
    requires |s.db.pending| == cfg.shards && UpkeepEnabled(cfg, s, call)
    ensures |r.db.pending| == cfg.shards
  {
    match call
    case ReapOne(id, shard, lease, now, delay) => DoReap(cfg, s, id, shard, lease, now, now + delay)
    case PromoteOne(id, shard, now) => s.(db := Promote(s.db, id, shard, now).0)
    case ExpireJob(id) => s.(db := s.db.(jobs := s.db.jobs - {id}))
    case ExpireBinding(key) => s.(db := s.db.(idem := s.db.idem - {key}))
  }

  /** One step; a step that is not enabled changes nothing. */
  function Apply(cfg: Config, s: Sys, step: Step): (r: Sys)
    requires |s.db.pending| == cfg.shards
    ensures |r.db.pending| == cfg.shards
  {
    match step
    case Tick(ms) => s.(clock := s.clock + ms)
    case Client(call) => if ClientEnabled(cfg, s, call) then ApplyClient(cfg, s, call) else s
    case Loop(w, call) => if LoopEnabled(cfg, s, w, call) then ApplyLoop(cfg, s, w, call) else s
    case Held(w, call) => if HeldEnabled(s, w, call) then ApplyHeld(cfg, s, w, call) else s
    case Upkeep(call) => if UpkeepEnabled(cfg, s, call) then ApplyUpkeep(cfg, s, call) else s
  }

  function Init(cfg: Config): (s: Sys)
    ensures |s.db.pending| == cfg.shards
  {
    Sys(EmptyDb(cfg), 0, {}, map[], [])
  }

  function RunFrom(cfg: Config, s: Sys, steps: seq<Step>): (r: Sys)
    requires |s.db.pending| == cfg.shards
    ensures |r.db.pending| == cfg.shards
  {
    if steps == [] then s
    else Apply(cfg, RunFrom(cfg, s, steps[..|steps| - 1]), steps[|steps| - 1])
  }

  function Run(cfg: Config, steps: seq<Step>): (r: Sys)
    ensures |r.db.pending| == cfg.shards
  {
    RunFrom(cfg, Init(cfg), steps)
  }

  lemma {:induction false} RunAppend(cfg: Config, s: Sys, a: seq<Step>, b: seq<Step>)
    requires |s.db.pending| == cfg.shards
    ensures RunFrom(cfg, s, a + b) == RunFrom(cfg, RunFrom(cfg, s, a), b)
  {
    if b == [] {
      assert a + b == a;
    } else {
      var m := |b| - 1;
      RunAppend(cfg, s, a, b[..m]);
      assert (a + b)[..|a + b| - 1] == a + b[..m];
    }
  }
}
