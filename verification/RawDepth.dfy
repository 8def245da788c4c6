// The raw depth of the queue, the number of entries in all its lists, and the
// one step that takes it over the limit.
module RawDepth {
  import opened Lists
  import opened Scripts
  import opened Protocol
  import opened Placement
  import opened Guarantees

  // ------------------------------------------------------------- lengths

  lemma {:induction false} RemoveFirstLength<T>(xs: seq<T>, x: T)
    ensures |RemoveFirst(xs, x)| == |xs| - if x in xs then 1 else 0
  {
    if xs != [] {
      assert xs == [xs[0]] + xs[1..];
      RemoveFirstLength(xs[1..], x);
    }
  }

  lemma {:induction false} TotalAfterUpdate<T>(xss: seq<seq<T>>, i: nat, xs: seq<T>)
    requires i < |xss|
    ensures TotalLength(xss[i := xs]) == TotalLength(xss) - |xss[i]| + |xs|
  {
    if i == 0 {
      assert xss[0 := xs][1..] == xss[1..];
    } else {
      assert xss[i := xs][1..] == xss[1..][i - 1 := xs];
      TotalAfterUpdate(xss[1..], i - 1, xs);
    }
  }

  lemma {:induction false} TotalOfEmpty<T>(xss: seq<seq<T>>)
    requires forall i | 0 <= i < |xss| :: xss[i] == []
    ensures TotalLength(xss) == 0
  {
    if xss != [] {
      TotalOfEmpty(xss[1..]);
    }
  }

  lemma MapGrows(m: map<JobId, int>, id: JobId, score: int)
    requires id !in m
    ensures |m[id := score]| == |m| + 1
  {
    assert m[id := score].Keys == m.Keys + {id};
  }

  lemma MapShrinks(m: map<JobId, int>, id: JobId)
    ensures |m - {id}| == |m| - if id in m then 1 else 0
  {
    assert (m - {id}).Keys == m.Keys - {id};
  }

  // ------------------------------------------------------- script by script

  lemma EnqueueDepth(db: Db, id: JobId, request: Request, shard: nat, now: int, key: Option<IdemKey>, maxDepth: nat)
    requires shard < |db.pending|
    ensures var (after, reply) := Enqueue(db, id, request, shard, now, key, maxDepth);
      && (reply.Created? ==> Depth(db) < maxDepth && Depth(after) == Depth(db) + 1)
      && (!reply.Created? ==> after == db)
  {
    TotalAfterUpdate(db.pending, shard, [id] + db.pending[shard]);
  }

  lemma MoveDepth(db: Db, shard: nat)
    requires shard < |db.pending|
    ensures Depth(Move(db, shard).0) == Depth(db)
  {
    var list := db.pending[shard];
    if list != [] {
      TotalAfterUpdate(db.pending, shard, list[..|list| - 1]);
    }
  }

  lemma ClaimDepth(db: Db, id: JobId, w: WorkerId, lease: int, now: int)
    ensures Depth(Claim(db, id, w, lease, now).0) <= Depth(db)
  {
    RemoveFirstLength(db.processing, id);
  }

  lemma CompleteDepth(db: Db, id: JobId, w: WorkerId, result: Result, now: int)
    ensures Depth(Complete(db, id, w, result, now).0) <= Depth(db)
  {
    RemoveFirstLength(db.processing, id);
  }

  lemma TerminalDepth(db: Db, id: JobId, w: WorkerId, status: Status, error: Message, now: int)
    ensures Depth(Terminal(db, id, w, status, error, now).0) <= Depth(db)
  {
    RemoveFirstLength(db.processing, id);
  }

  /** What enters the retry set leaves the processing list. */
  lemma RetryDepth(cfg: Config, db: Db, id: JobId, w: WorkerId, error: Message, now: int, next: int)
    requires DbInv(cfg, db)
    ensures Depth(Retry(db, id, w, cfg.maxAttempts, error, now, next).0) <= Depth(db)
  {
    RemoveFirstLength(db.processing, id);
    if OwnsLive(db, id, w, now) {
      assert Placed(cfg, db, id);
      MapGrows(db.retry, id, next);
    }
  }

  lemma EndExpiredDepth(cfg: Config, db: Db, id: JobId, now: int, next: int)
    requires DbInv(cfg, db) && id in db.jobs && db.jobs[id].status == Running
    ensures Depth(EndExpired(db, id, now, cfg.maxAttempts, next)) <= Depth(db)
  {
    assert Placed(cfg, db, id);
    RemoveFirstLength(db.processing, id);
    MapGrows(db.retry, id, next);
  }

  /** A queued job that no entry of the processing list stands for: the script does not look. */
  predicate QueuedElsewhere(db: Db, id: JobId) {
    id in db.jobs && db.jobs[id].status == Queued && id !in db.processing
  }

  /** The reap script pushes without testing that it removed anything. */
  lemma ReapDepth(cfg: Config, db: Db, id: JobId, shard: nat, lease: int, now: int, next: int)
    requires DbInv(cfg, db) && shard < |db.pending|
    ensures var after := Reap(db, id, shard, lease, now, cfg.maxAttempts, next).0;
      && (QueuedElsewhere(db, id) ==> Depth(after) == Depth(db) + 1)
      && (!QueuedElsewhere(db, id) ==> Depth(after) <= Depth(db))
  {
    RemoveFirstLength(db.processing, id);
    if id in db.jobs {
      if db.jobs[id].status == Queued {
        TotalAfterUpdate(db.pending, shard, [id] + db.pending[shard]);
      } else if db.jobs[id].status == Running {
        EndExpiredDepth(cfg, db, id, now, next);
      }
    }
  }

  /** What leaves the retry set enters a pending list. */
  lemma PromoteDepth(db: Db, id: JobId, shard: nat, now: int)
    requires shard < |db.pending|
    ensures Depth(Promote(db, id, shard, now).0) <= Depth(db)
  {
    MapShrinks(db.retry, id);
    TotalAfterUpdate(db.pending, shard, [id] + db.pending[shard]);
  }

  lemma CancelDepth(db: Db, id: JobId, shard: nat, now: int)
    requires shard < |db.pending|
    ensures Depth(Cancel(db, id, shard, now).0) <= Depth(db)
  {
    MapShrinks(db.retry, id);
    RemoveFirstLength(db.pending[shard], id);
    TotalAfterUpdate(db.pending, shard, RemoveFirst(db.pending[shard], id));
  }

  // ------------------------------------------------------------- one step

  /** A reap of a job that is queued and not in the processing list. */
  predicate ListsAgain(cfg: Config, s: Sys, step: Step) {
    && step.Upkeep? && step.upkeep.ReapOne? && UpkeepEnabled(cfg, s, step.upkeep)
    && QueuedElsewhere(s.db, step.upkeep.id)
  }

  /** How far one step may take the depth. */
  predicate DepthStep(cfg: Config, s: Sys, step: Step, t: Sys) {
    if ListsAgain(cfg, s, step) then Depth(t.db) == Depth(s.db) + 1
    else Depth(t.db) <= Depth(s.db) || Depth(t.db) <= cfg.maxDepth
  }

  lemma ClientDepth(cfg: Config, s: Sys, call: ClientCall)
    requires |s.db.pending| == cfg.shards && ClientEnabled(cfg, s, call)
    ensures DepthStep(cfg, s, Client(call), ApplyClient(cfg, s, call))
  {
    match call
    case Submit(id, request, shard, now, key) => EnqueueDepth(s.db, id, request, shard, now, key, cfg.maxDepth);
    case SyncPublish(_, _, _, _, _) =>
    case RequestCancel(id, shard, now) => CancelDepth(s.db, id, shard, now);
  }

  lemma LoopDepth(cfg: Config, s: Sys, w: WorkerId, call: LoopCall)
    requires |s.db.pending| == cfg.shards && LoopEnabled(cfg, s, w, call)
    ensures DepthStep(cfg, s, Loop(w, call), ApplyLoop(cfg, s, w, call))
  {
    match call
    case MoveOne(shard) => MoveDepth(s.db, shard);
    case ClaimMoved(now) => ClaimDepth(s.db, PcOf(s, w).job, w, now + cfg.leaseMs, now);
    case _ =>
  }

  lemma HeldDepth(cfg: Config, s: Sys, w: WorkerId, call: HeldCall)
    requires DbInv(cfg, s.db) && HeldEnabled(s, w, call)
    ensures DepthStep(cfg, s, Held(w, call), ApplyHeld(cfg, s, w, call))
  {
    var id := HeldJob(s, w);
    match call
    case PublishHeld(_, _) =>
    case CompleteHeld(payload, now) => CompleteDepth(s.db, id, w, ResultOf(PcOf(s, w), payload).value, now);
    case FailHeld(error, now) => TerminalDepth(s.db, id, w, Failed, error, now);
    case RetryHeld(error, readAt, delay, now) => RetryDepth(cfg, s.db, id, w, error, now, readAt + delay);
    case CancelHeld(now) => TerminalDepth(s.db, id, w, Cancelled, NoMessage, now);
  }

  lemma UpkeepDepth(cfg: Config, s: Sys, call: UpkeepCall)
    requires DbInv(cfg, s.db) && UpkeepEnabled(cfg, s, call)
    ensures DepthStep(cfg, s, Upkeep(call), ApplyUpkeep(cfg, s, call))
  {
    match call
    case ReapOne(id, shard, lease, now, delay) => ReapDepth(cfg, s.db, id, shard, lease, now, now + delay);
    case PromoteOne(id, shard, now) => PromoteDepth(s.db, id, shard, now);
    case _ =>
  }

  lemma StepDepth(cfg: Config, s: Sys, step: Step)
    requires DbInv(cfg, s.db)
    ensures DepthStep(cfg, s, step, Apply(cfg, s, step))
  {
    match step
    case Tick(_) =>
    case Client(call) => if ClientEnabled(cfg, s, call) { ClientDepth(cfg, s, call); }
    case Loop(w, call) => if LoopEnabled(cfg, s, w, call) { LoopDepth(cfg, s, w, call); }
    case Held(w, call) => if HeldEnabled(s, w, call) { HeldDepth(cfg, s, w, call); }
    case Upkeep(call) => if UpkeepEnabled(cfg, s, call) { UpkeepDepth(cfg, s, call); }
  }

  /** A full queue, and a reap of a job that is queued and not in the processing list. */
  predicate Overfills(cfg: Config, s: Sys, step: Step) {
    Depth(s.db) == cfg.maxDepth && ListsAgain(cfg, s, step)
  }

  /** From a reachable state within the limit one step exceeds it if and only if it is such a reap. */
  lemma StepExceedsIff(cfg: Config, steps: seq<Step>, step: Step)
    requires ValidConfig(cfg) && Depth(Run(cfg, steps).db) <= cfg.maxDepth
    ensures Depth(Apply(cfg, Run(cfg, steps), step).db) > cfg.maxDepth <==> Overfills(cfg, Run(cfg, steps), step)
  {
    Reachable(cfg, steps);
    StepDepth(cfg, Run(cfg, steps), step);
  }

  // ----------------------------------------------------------------- runs

  ghost predicate AlwaysWithin(cfg: Config, steps: seq<Step>) {
    forall i | 0 <= i <= |steps| :: Depth(Run(cfg, steps[..i]).db) <= cfg.maxDepth
  }

  ghost predicate NeverOverfills(cfg: Config, steps: seq<Step>) {
    forall i | 0 <= i < |steps| :: !Overfills(cfg, Run(cfg, steps[..i]), steps[i])
  }

  lemma InitDepth(cfg: Config)
    ensures Depth(Init(cfg).db) == 0
  {
    TotalOfEmpty(Init(cfg).db.pending);
  }

  lemma WithinSnoc(cfg: Config, steps: seq<Step>, step: Step)
    ensures AlwaysWithin(cfg, steps + [step]) <==>
      AlwaysWithin(cfg, steps) && Depth(Run(cfg, steps + [step]).db) <= cfg.maxDepth
  {
    var longer := steps + [step];
    assert forall i | 0 <= i <= |steps| :: longer[..i] == steps[..i];
    assert longer[..|longer|] == longer;
  }

  lemma NeverSnoc(cfg: Config, steps: seq<Step>, step: Step)
    ensures NeverOverfills(cfg, steps + [step]) <==>
      NeverOverfills(cfg, steps) && !Overfills(cfg, Run(cfg, steps), step)
  {
    var longer := steps + [step];
    assert forall i | 0 <= i <= |steps| :: longer[..i] == steps[..i];
    assert longer[..|steps|] == steps;
  }

  lemma RunSnoc(cfg: Config, steps: seq<Step>, step: Step)
    ensures Run(cfg, steps + [step]) == Apply(cfg, Run(cfg, steps), step)
  {
    assert (steps + [step])[..|steps + [step]| - 1] == steps;
  }

  /** Along a run the raw depth stays within the limit if and only if no step of it overfills a full queue. */
  lemma {:induction false} DepthWithinIff(cfg: Config, steps: seq<Step>)
    requires ValidConfig(cfg)
    ensures AlwaysWithin(cfg, steps) <==> NeverOverfills(cfg, steps)
  {
    if steps == [] {
      InitDepth(cfg);
    } else {
      var m := |steps| - 1;
      var front, last := steps[..m], steps[m];
      assert steps == front + [last];
      DepthWithinIff(cfg, front);
      WithinSnoc(cfg, front, last);
      NeverSnoc(cfg, front, last);
      RunSnoc(cfg, front, last);
      if AlwaysWithin(cfg, front) {
        assert front[..|front|] == front;
        StepExceedsIff(cfg, front, last);
      }
    }
  }
}
