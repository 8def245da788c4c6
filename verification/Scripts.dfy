// The shared state of the asynchronous job queue and, one function a script,
// what each of the queue's atomic server-side scripts does to it.
//
// Identifiers, hashes and storage locations are opaque tokens, here natural
// numbers.  Times are milliseconds.  A key that has expired is absent.
module Scripts {
  import opened Lists

  type JobId = nat
  type WorkerId = nat
  type IdemKey = nat
  type Hash = nat
  type Dest = nat

  datatype Status = Queued | Running | Retrying | Succeeded | Failed | Cancelled

  datatype WriteMode = WriteError | WriteOverwrite | WriteAppend

  datatype Delivery = Inline | Store(dest: Dest, mode: WriteMode)

  datatype Request = Request(hash: Hash, delivery: Delivery)

  /** An attempt id: the attempt's number followed by a random part. */
  datatype AttemptId = AttemptId(number: nat, nonce: nat)

  /** A manifest lives under its destination, query id and attempt id. */
  datatype Manifest = Manifest(dest: Dest, query: JobId, attempt: AttemptId)

  datatype Result = InlineResult(payload: nat) | StoredResult(manifest: Manifest)

  /** Error texts: none, the reaper's own, or one a worker reports. */
  datatype Message = NoMessage | LeaseExpired | Reported(text: nat)

  datatype Job = Job(
    status: Status,
    request: Option<Request>,
    error: Message,
    result: Option<Result>,
    attempts: nat,
    worker: Option<WorkerId>,
    lease: int,
    cancelRequested: bool,
    shard: nat,
    createdAt: int,
    updatedAt: int,
    nextAttempt: int)

  datatype Binding = Binding(hash: Hash, job: JobId)

  /** One query id, attempt id and manifest, always written together. */
  datatype Pointer = Pointer(query: JobId, attempt: AttemptId, manifest: Manifest)

  /** A publication record: what is authoritative, and the last append. */
  datatype Publication = Publication(current: Option<Pointer>, lastAppend: Option<Pointer>, updatedAt: int)

  datatype Db = Db(
    jobs: map<JobId, Job>,
    pending: seq<seq<JobId>>,
    processing: seq<JobId>,
    retry: map<JobId, int>,
    dead: seq<JobId>,
    idem: map<IdemKey, Binding>,
    pubs: map<Dest, Publication>)

  datatype Config = Config(shards: nat, maxDepth: nat, maxAttempts: nat, leaseMs: nat)

  /** The bounds that the settings model puts on a deployment. */
  predicate ValidConfig(cfg: Config) {
    cfg.shards >= 1 && cfg.maxDepth >= 1 && cfg.maxAttempts >= 1 && cfg.leaseMs >= 1
  }

  datatype EnqueueReply = Created(job: JobId) | Existing(job: JobId) | Conflict(job: JobId) | Full

  // ---------------------------------------------------------------- enqueue

  function Depth(db: Db): nat {
    |db.processing| + |db.retry| + TotalLength(db.pending)
  }

  function NewJob(request: Request, shard: nat, now: int): Job {
    Job(Queued, Some(request), NoMessage, None, 0, None, 0, false, shard, now, now, 0)
  }

  function Push(db: Db, shard: nat, id: JobId): seq<seq<JobId>>
    requires shard < |db.pending|
  {
    db.pending[shard := [id] + db.pending[shard]]
  }

  function Enqueue(db: Db, id: JobId, request: Request, shard: nat, now: int, key: Option<IdemKey>, maxDepth: nat)
    : (r: (Db, EnqueueReply))
    requires shard < |db.pending|
    ensures |r.0.pending| == |db.pending|
  {
    if key.Some? && key.value in db.idem then
      var binding := db.idem[key.value];
      (db, if binding.hash != request.hash then Conflict(binding.job) else Existing(binding.job))
    else if Depth(db) >= maxDepth then
      (db, Full)
    else
      (db.(jobs := db.jobs[id := NewJob(request, shard, now)],
           pending := Push(db, shard, id),
           idem := if key.Some? then db.idem[key.value := Binding(request.hash, id)] else db.idem),
       Created(id))
  }

  // ------------------------------------------------------------ publication

  /** The registry part of publication, the same for jobs and for synchronous queries. */
  function Record(pubs: map<Dest, Publication>, dest: Dest, mode: WriteMode, entry: Pointer, now: int)
    : (map<Dest, Publication>, bool)
  {
    var found := dest in pubs;
    if mode == WriteAppend then
      var kept := if found then pubs[dest].current else None;
      (pubs[dest := Publication(kept, Some(entry), now)], true)
    else if mode == WriteError && found
            && (pubs[dest].current.None? || pubs[dest].current.value.query != entry.query) then
      (pubs, false)
    else
      var kept := if found then pubs[dest].lastAppend else None;
      (pubs[dest := Publication(Some(entry), kept, now)], true)
  }

  predicate Owns(db: Db, id: JobId, worker: WorkerId) {
    id in db.jobs && db.jobs[id].status == Running && db.jobs[id].worker == Some(worker)
  }

  predicate OwnsLive(db: Db, id: JobId, worker: WorkerId, now: int) {
    Owns(db, id, worker) && db.jobs[id].lease > now
  }

  /** Reply -1: fenced; 0: the destination is taken; 1: published. */
  function Publish(db: Db, id: JobId, worker: WorkerId, attempt: nat, mode: WriteMode, dest: Dest,
                   attemptId: AttemptId, manifest: Manifest, now: int)
    : (r: (Db, int))
    ensures |r.0.pending| == |db.pending|
  {
    if !OwnsLive(db, id, worker, now) || db.jobs[id].attempts != attempt || db.jobs[id].cancelRequested then
      (db, -1)
    else
      var (pubs, ok) := Record(db.pubs, dest, mode, Pointer(id, attemptId, manifest), now);
      (db.(pubs := pubs), if ok then 1 else 0)
  }

  // ------------------------------------------------------ reserve: move, claim

  /** RPOPLPUSH from one pending list to the processing list. */
  function Move(db: Db, shard: nat): (r: (Db, Option<JobId>))
    requires shard < |db.pending|
    ensures |r.0.pending| == |db.pending|
  {
    var list := db.pending[shard];
    if list == [] then
      (db, None)
    else
      var id := list[|list| - 1];
      (db.(pending := db.pending[shard := list[..|list| - 1]], processing := [id] + db.processing), Some(id))
  }

  datatype Grant = Grant(request: Request, attempts: nat, shard: nat, createdAt: int)

  function Claim(db: Db, id: JobId, worker: WorkerId, leaseUntil: int, now: int): (r: (Db, Option<Grant>))
    ensures |r.0.pending| == |db.pending|
  {
    if id !in db.processing || id !in db.jobs || db.jobs[id].status != Queued then
      (db, None)
    else
      var job := db.jobs[id];
      if job.request.None? then
        (db.(processing := RemoveFirst(db.processing, id)), None)
      else
        var next := job.(status := Running, attempts := job.attempts + 1, worker := Some(worker), lease := leaseUntil,
                         updatedAt := now, cancelRequested := false, nextAttempt := 0);
        (db.(jobs := db.jobs[id := next]),
         Some(Grant(job.request.value, next.attempts, job.shard, job.createdAt)))
  }

  // ----------------------------------------------- calls of an owning worker

  function Heartbeat(db: Db, id: JobId, worker: WorkerId, leaseUntil: int, now: int): (r: (Db, bool))
    ensures |r.0.pending| == |db.pending|
  {
    if !OwnsLive(db, id, worker, now) then
      (db, false)
    else
      (db.(jobs := db.jobs[id := db.jobs[id].(lease := leaseUntil, updatedAt := now)]), true)
  }

  /** The fields every script that ends an attempt writes. */
  function Ended(job: Job, status: Status, error: Message, now: int): Job {
    job.(status := status, error := error, worker := None, lease := 0, updatedAt := now)
  }

  function Complete(db: Db, id: JobId, worker: WorkerId, result: Result, now: int): (r: (Db, bool))
    ensures |r.0.pending| == |db.pending|
  {
    if !OwnsLive(db, id, worker, now) || db.jobs[id].cancelRequested then
      (db, false)
    else
      (db.(jobs := db.jobs[id := Ended(db.jobs[id], Succeeded, NoMessage, now).(result := Some(result))],
           processing := RemoveFirst(db.processing, id)),
       true)
  }

  /** The terminal script, called with status `Failed` or `Cancelled`. */
  function Terminal(db: Db, id: JobId, worker: WorkerId, status: Status, error: Message, now: int): (r: (Db, bool))
    ensures |r.0.pending| == |db.pending|
  {
    if !OwnsLive(db, id, worker, now) then
      (db, false)
    else
      (db.(jobs := db.jobs[id := Ended(db.jobs[id], status, error, now)],
           processing := RemoveFirst(db.processing, id),
           dead := if status == Failed then [id] + db.dead else db.dead),
       true)
  }

  function Retry(db: Db, id: JobId, worker: WorkerId, maxAttempts: nat, error: Message, now: int, next: int)
    : (r: (Db, bool))
    ensures |r.0.pending| == |db.pending|
  {
    if !OwnsLive(db, id, worker, now) then
      (db, false)
    else if db.jobs[id].attempts >= maxAttempts then
      (db.(jobs := db.jobs[id := Ended(db.jobs[id], Failed, error, now)],
           processing := RemoveFirst(db.processing, id),
           dead := [id] + db.dead),
       true)
    else
      (db.(jobs := db.jobs[id := Ended(db.jobs[id], Retrying, error, now).(nextAttempt := next)],
           processing := RemoveFirst(db.processing, id),
           retry := db.retry[id := next]),
       true)
  }

  // ------------------------------------------------- recovery and cancellation

  /** What the reaper makes of a running job whose lease is over. */
  function EndExpired(db: Db, id: JobId, now: int, maxAttempts: nat, next: int): (r: Db)
    requires id in db.jobs
    ensures |r.pending| == |db.pending|
  {
    var job := db.jobs[id];
    if job.cancelRequested then
      db.(processing := RemoveFirst(db.processing, id),
          jobs := db.jobs[id := Ended(job, Cancelled, NoMessage, now).(nextAttempt := 0)])
    else if job.attempts >= maxAttempts then
      db.(processing := RemoveFirst(db.processing, id),
          jobs := db.jobs[id := Ended(job, Failed, LeaseExpired, now)],
          dead := [id] + db.dead)
    else
      db.(processing := RemoveFirst(db.processing, id),
          jobs := db.jobs[id := Ended(job, Retrying, LeaseExpired, now).(nextAttempt := next)],
          retry := db.retry[id := next])
  }

  function Reap(db: Db, id: JobId, shard: nat, expectedLease: int, now: int, maxAttempts: nat, next: int)
    : (r: (Db, bool))
    requires shard < |db.pending|
    ensures |r.0.pending| == |db.pending|
  {
    if id !in db.jobs then
      (db.(processing := RemoveFirst(db.processing, id)), true)
    else if db.jobs[id].status == Queued then
      (db.(processing := RemoveFirst(db.processing, id), pending := Push(db, shard, id)), true)
    else if db.jobs[id].status != Running then
      (db.(processing := RemoveFirst(db.processing, id)), true)
    else if db.jobs[id].lease != expectedLease || db.jobs[id].lease > now then
      (db, false)
    else
      (EndExpired(db, id, now, maxAttempts, next), true)
  }

  function Promote(db: Db, id: JobId, shard: nat, now: int): (r: (Db, bool))
    requires shard < |db.pending|
    ensures |r.0.pending| == |db.pending|
  {
    if id !in db.jobs || db.jobs[id].status != Retrying then
      (db.(retry := db.retry - {id}), false)
    else if id !in db.retry || db.retry[id] > now then
      (db, false)
    else
      (db.(jobs := db.jobs[id := db.jobs[id].(status := Queued, nextAttempt := 0, updatedAt := now)],
           retry := db.retry - {id},
           pending := Push(db, shard, id)),
       true)
  }

  datatype CancelReply = NoSuchJob | AlreadyOver | CancelledNow | CancelRecorded

  function Cancel(db: Db, id: JobId, shard: nat, now: int): (r: (Db, CancelReply))
    requires shard < |db.pending|
    ensures |r.0.pending| == |db.pending|
  {
    if id !in db.jobs then
      (db, NoSuchJob)
    else
      var job := db.jobs[id];
      match job.status
      case Queued =>
        (db.(jobs := db.jobs[id := job.(status := Cancelled, updatedAt := now)],
             pending := db.pending[shard := RemoveFirst(db.pending[shard], id)]),
         CancelledNow)
      case Retrying =>
        (db.(jobs := db.jobs[id := job.(status := Cancelled, updatedAt := now)], retry := db.retry - {id}),
         CancelledNow)
      case Running =>
        (db.(jobs := db.jobs[id := job.(cancelRequested := true, updatedAt := now)]), CancelRecorded)
      case _ =>
        (db, AlreadyOver)
  }

  function EmptyDb(cfg: Config): Db {
    Db(map[], seq(cfg.shards, _ => []), [], map[], [], map[], map[])
  }
}
