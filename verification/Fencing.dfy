// Attempts, ownership and publication across interleavings: the scripts test
// the worker id, and the shape of the worker's loop makes that enough.
module Fencing {
  import opened Lists
  import opened Scripts
  import opened Protocol
  import opened Placement
  import opened Evolution

  // ------------------------------------------------- what a step records

  function News(s: Sys, t: Sys): seq<Event>
    requires Grows(s, t)
  {
    t.history[|s.history|..]
  }

  /** The publication of the attempt a worker holds. */
  predicate AcceptedFor(s: Sys, step: Step, t: Sys, query: JobId, attempt: AttemptId, dest: Dest, mode: WriteMode) {
    && step.Held? && step.held.PublishHeld?
    && Holds(s, step.worker) && HeldJob(s, step.worker) == query
    && OwnsLive(s.db, query, step.worker, step.held.now)
    && !s.db.jobs[query].cancelRequested
    && s.db.jobs[query].attempts == attempt.number == PcOf(s, step.worker).attempt
    && PcOf(s, step.worker).request.delivery == Store(dest, mode)
    && PcOf(s, step.worker).published.None?
    && PcOf(t, step.worker).Holding? && PcOf(t, step.worker).published.Some?
    && t.db.jobs == s.db.jobs
  }

  predicate AcceptedAlone(s: Sys, step: Step, t: Sys, query: JobId) {
    && step.Client? && step.client.SyncPublish? && query !in s.used && query in t.used
    && t.db.jobs == s.db.jobs
  }

  ghost predicate Explains(cfg: Config, s: Sys, step: Step, t: Sys, e: Event) {
    match e
    case Replied(key, hash, reply) =>
      && step.Client? && step.client.Submit? && step.client.key == key && step.client.request.hash == hash
    case Claimed(id, n, w, read, at) =>
      && id in s.db.jobs && id in t.db.jobs && IsClaim(s.db.jobs[id], t.db.jobs[id])
      && t.db.jobs[id].attempts == n && at == s.clock && read <= s.clock
      && t.db.jobs[id].lease == read + cfg.leaseMs
    case Beaten(id, read) =>
      && id in t.db.jobs && t.db.jobs[id].status == Running && t.db.jobs[id].lease == read + cfg.leaseMs
      && id in s.db.jobs && IsKept(s.db.jobs[id], t.db.jobs[id])
    case Accepted(query, attempt, dest, mode, manifest) =>
      && manifest == Manifest(dest, query, attempt)
      && (AcceptedFor(s, step, t, query, attempt, dest, mode) || AcceptedAlone(s, step, t, query))
    case Delayed(id, n, due) =>
      && SentToRetry(s.db, t.db, id) && t.db.jobs[id].attempts == n == s.db.jobs[id].attempts
      && id in t.db.retry && t.db.retry[id] == due
  }

  ghost predicate Explained(cfg: Config, s: Sys, step: Step, t: Sys) {
    && Grows(s, t)
    && |News(s, t)| <= 1
    && (forall e | e in News(s, t) :: Explains(cfg, s, step, t, e))
  }

  lemma ClientExplained(cfg: Config, s: Sys, call: ClientCall)
    requires |s.db.pending| == cfg.shards && Known(s) && ClientEnabled(cfg, s, call)
    ensures Explained(cfg, s, Client(call), ApplyClient(cfg, s, call))
  {
  }

  lemma LoopExplained(cfg: Config, s: Sys, w: WorkerId, call: LoopCall)
    requires |s.db.pending| == cfg.shards && LoopEnabled(cfg, s, w, call)
    ensures Explained(cfg, s, Loop(w, call), ApplyLoop(cfg, s, w, call))
  {
  }

  lemma PublishExplained(cfg: Config, s: Sys, w: WorkerId, call: HeldCall)
    requires |s.db.pending| == cfg.shards && HeldEnabled(s, w, call) && call.PublishHeld?
    ensures Explained(cfg, s, Held(w, call), ApplyHeld(cfg, s, w, call))
  {
  }

  lemma RetryExplained(cfg: Config, s: Sys, w: WorkerId, call: HeldCall)
    requires |s.db.pending| == cfg.shards && HeldEnabled(s, w, call) && call.RetryHeld?
    ensures Explained(cfg, s, Held(w, call), ApplyHeld(cfg, s, w, call))
  {
  }

  lemma HeldExplained(cfg: Config, s: Sys, w: WorkerId, call: HeldCall)
    requires |s.db.pending| == cfg.shards && HeldEnabled(s, w, call)
    ensures Explained(cfg, s, Held(w, call), ApplyHeld(cfg, s, w, call))
  {
    if call.PublishHeld? {
      PublishExplained(cfg, s, w, call);
    } else if call.RetryHeld? {
      RetryExplained(cfg, s, w, call);
    }
  }

  lemma UpkeepExplained(cfg: Config, s: Sys, call: UpkeepCall)
    requires |s.db.pending| == cfg.shards && UpkeepEnabled(cfg, s, call)
    ensures Explained(cfg, s, Upkeep(call), ApplyUpkeep(cfg, s, call))
  {
  }

  lemma StepExplained(cfg: Config, s: Sys, step: Step)
    requires |s.db.pending| == cfg.shards && Known(s)
    ensures Explained(cfg, s, step, Apply(cfg, s, step))
  {
    match step
    case Tick(_) =>
    case Client(call) => if ClientEnabled(cfg, s, call) { ClientExplained(cfg, s, call); }
    case Loop(w, call) => if LoopEnabled(cfg, s, w, call) { LoopExplained(cfg, s, w, call); }
    case Held(w, call) => if HeldEnabled(s, w, call) { HeldExplained(cfg, s, w, call); }
    case Upkeep(call) => if UpkeepEnabled(cfg, s, call) { UpkeepExplained(cfg, s, call); }
  }

  // ------------------------------------------- what a step does to a worker

  predicate JustClaimed(s: Sys, step: Step, t: Sys, w: WorkerId) {
    && step.Loop? && step.worker == w && step.loop.ClaimMoved? && PcOf(s, w).Moved?
    && PcOf(t, w).Holding? && PcOf(t, w).published.None?
    && var id := PcOf(t, w).job;
       && id == PcOf(s, w).job && id in s.db.jobs && id in t.db.jobs
       && IsClaim(s.db.jobs[id], t.db.jobs[id])
       && t.db.jobs[id].attempts == PcOf(t, w).attempt
       && t.db.jobs[id].request == Some(PcOf(t, w).request)
  }

  ghost predicate JustPublished(s: Sys, step: Step, t: Sys, w: WorkerId) {
    && step.Held? && step.worker == w && Holds(s, w) && PcOf(s, w).request.delivery.Store?
    && PcOf(t, w).Holding? && PcOf(t, w).published.Some?
    && var pc, manifest := PcOf(s, w), PcOf(t, w).published.value;
       && PcOf(t, w) == pc.(published := Some(manifest))
       && manifest == Manifest(pc.request.delivery.dest, pc.job, manifest.attempt)
       && manifest.attempt.number == pc.attempt
       && Accepted(pc.job, manifest.attempt, pc.request.delivery.dest, pc.request.delivery.mode, manifest) in t.history
  }

  ghost predicate PcStep(s: Sys, step: Step, t: Sys, w: WorkerId) {
    || PcOf(t, w) == PcOf(s, w)
    || !PcOf(t, w).Holding?
    || JustClaimed(s, step, t, w)
    || JustPublished(s, step, t, w)
  }

  lemma LoopMovesPc(cfg: Config, s: Sys, actor: WorkerId, call: LoopCall, w: WorkerId)
    requires |s.db.pending| == cfg.shards && LoopEnabled(cfg, s, actor, call)
    ensures PcStep(s, Loop(actor, call), ApplyLoop(cfg, s, actor, call), w)
  {
  }

  lemma HeldMovesPc(cfg: Config, s: Sys, actor: WorkerId, call: HeldCall, w: WorkerId)
    requires |s.db.pending| == cfg.shards && HeldEnabled(s, actor, call)
    ensures PcStep(s, Held(actor, call), ApplyHeld(cfg, s, actor, call), w)
  {
  }

  lemma StepMovesPc(cfg: Config, s: Sys, step: Step, w: WorkerId)
    requires |s.db.pending| == cfg.shards
    ensures PcStep(s, step, Apply(cfg, s, step), w)
  {
    match step
    case Loop(actor, call) => if LoopEnabled(cfg, s, actor, call) { LoopMovesPc(cfg, s, actor, call, w); }
    case Held(actor, call) => if HeldEnabled(s, actor, call) { HeldMovesPc(cfg, s, actor, call, w); }
    case _ =>
  }

  // ------------------------------------------------------------ invariants

  /** A publication of the job `id` was accepted before attempt `n`. */
  ghost predicate AllBefore(history: seq<Event>, id: JobId, n: nat) {
    forall e | e in history && e.Accepted? && e.query == id :: e.attemptId.number < n
  }

  /**
   * The fencing invariant.  A worker holds attempt `n` of a job: if the job is
   * still that worker's, `n` is the attempt on record, although no script
   * compares the two.
   */
  ghost predicate WorkerOk(s: Sys, w: WorkerId) {
    PcOf(s, w).Holding? ==>
      var Holding(id, n, request, published) := PcOf(s, w);
      && id in s.used
      && n >= 1
      && (id in s.db.jobs ==> n <= s.db.jobs[id].attempts && s.db.jobs[id].request == Some(request))
      && (Owns(s.db, id, w) ==> s.db.jobs[id].attempts == n)
      && (published.None? && Owns(s.db, id, w) ==> AllBefore(s.history, id, n))
      && (published.Some? ==>
            && request.delivery.Store?
            && PublishedAs(s.history, id, n, request.delivery, published.value))
  }

  ghost predicate PublishedAs(history: seq<Event>, id: JobId, n: nat, delivery: Delivery, manifest: Manifest)
    requires delivery.Store?
  {
    && manifest == Manifest(delivery.dest, id, manifest.attempt)
    && manifest.attempt.number == n
    && Accepted(id, manifest.attempt, delivery.dest, delivery.mode, manifest) in history
  }

  /** What a past claim or accepted publication still says about the job's record. */
  ghost predicate EventOk(s: Sys, e: Event) {
    && (e.Claimed? ==> e.job in s.used && (e.job in s.db.jobs ==> 1 <= e.attempt <= s.db.jobs[e.job].attempts))
    && (e.Accepted? ==>
          && e.query in s.used
          && e.manifest == Manifest(e.dest, e.query, e.attemptId)
          && (e.query in s.db.jobs ==>
                && 1 <= e.attemptId.number <= s.db.jobs[e.query].attempts
                && s.db.jobs[e.query].request.Some?
                && s.db.jobs[e.query].request.value.delivery == Store(e.dest, e.mode)))
  }

  /** Claims and accepted publications of one job, in order of their attempts. */
  predicate InOrder(a: Event, b: Event) {
    && (a.Accepted? && b.Accepted? && a.query == b.query ==> a.attemptId.number < b.attemptId.number)
    && (a.Claimed? && b.Accepted? && a.job == b.query ==> a.attempt <= b.attemptId.number)
    && (a.Accepted? && b.Claimed? && a.query == b.job ==> a.attemptId.number < b.attempt)
    && (a.Claimed? && b.Claimed? && a.job == b.job ==> a.attempt < b.attempt)
  }

  ghost predicate Ordered(history: seq<Event>) {
    forall i, k | 0 <= i < k < |history| :: InOrder(history[i], history[k])
  }

  /** A stored result is the published output of the attempt on record. */
  ghost predicate ResultOk(s: Sys, id: JobId)
    requires id in s.db.jobs
  {
    var job := s.db.jobs[id];
    && (job.status != Succeeded ==> job.result.None?)
    && (job.status == Succeeded ==>
          && job.request.Some? && job.result.Some?
          && match job.request.value.delivery
             case Inline => job.result.value.InlineResult?
             case Store(dest, mode) =>
               && job.result.value.StoredResult?
               && PublishedAs(s.history, id, job.attempts, job.request.value.delivery, job.result.value.manifest))
  }

  ghost predicate Fenced(s: Sys) {
    && (forall w :: WorkerOk(s, w))
    && (forall e | e in s.history :: EventOk(s, e))
    && Ordered(s.history)
    && (forall id | id in s.db.jobs :: ResultOk(s, id))
  }

  // ---------------------------------------------------------- preservation

  lemma EventStaysOk(cfg: Config, s: Sys, step: Step, e: Event)
    requires |s.db.pending| == cfg.shards && Known(s) && EventOk(s, e)
    ensures EventOk(Apply(cfg, s, step), e)
  {
    StepKeepsKnown(cfg, s, step);
    if e.Claimed? {
      StepEvolves(cfg, s, step, e.job);
    } else if e.Accepted? {
      StepEvolves(cfg, s, step, e.query);
    }
  }

  lemma NewEventOk(cfg: Config, s: Sys, step: Step, t: Sys, e: Event)
    requires Known(s) && Known(t) && (forall w :: WorkerOk(s, w))
    requires Explains(cfg, s, step, t, e)
    ensures EventOk(t, e)
  {
    if e.Accepted? && AcceptedFor(s, step, t, e.query, e.attemptId, e.dest, e.mode) {
      assert WorkerOk(s, step.worker);
    }
  }

  lemma NewEventInOrder(cfg: Config, s: Sys, step: Step, t: Sys, old_: Event, e: Event)
    requires Known(s) && Known(t) && (forall w :: WorkerOk(s, w))
    requires old_ in s.history && EventOk(s, old_)
    requires Explains(cfg, s, step, t, e)
    ensures InOrder(old_, e)
  {
    if e.Accepted? && AcceptedFor(s, step, t, e.query, e.attemptId, e.dest, e.mode) {
      assert WorkerOk(s, step.worker);
    }
  }

  lemma HistoryStaysOk(cfg: Config, s: Sys, step: Step)
    requires |s.db.pending| == cfg.shards && Known(s) && Fenced(s)
    ensures forall e | e in Apply(cfg, s, step).history :: EventOk(Apply(cfg, s, step), e)
    ensures Ordered(Apply(cfg, s, step).history)
  {
    var t := Apply(cfg, s, step);
    StepExplained(cfg, s, step);
    StepKeepsKnown(cfg, s, step);
    assert t.history == s.history + News(s, t);
    forall e | e in t.history
      ensures EventOk(t, e)
    {
      if e in s.history {
        EventStaysOk(cfg, s, step, e);
      } else {
        NewEventOk(cfg, s, step, t, e);
      }
    }
    forall i, k | 0 <= i < k < |t.history|
      ensures InOrder(t.history[i], t.history[k])
    {
      if k < |s.history| {
        assert InOrder(s.history[i], s.history[k]);
      } else {
        NewEventInOrder(cfg, s, step, t, s.history[i], t.history[k]);
      }
    }
  }

  /** A worker that keeps holding a job and owns it afterwards owned it before, in the same attempt. */
  lemma OwnerStays(cfg: Config, s: Sys, step: Step, w: WorkerId)
    requires |s.db.pending| == cfg.shards && Known(s) && WorkerOk(s, w) && Holds(s, w)
    ensures var id, t := HeldJob(s, w), Apply(cfg, s, step);
      && (id in t.db.jobs ==>
            && id in s.db.jobs
            && PcOf(s, w).attempt <= t.db.jobs[id].attempts
            && t.db.jobs[id].request == Some(PcOf(s, w).request))
      && (Owns(t.db, id, w) ==> Owns(s.db, id, w) && t.db.jobs[id].attempts == PcOf(s, w).attempt)
  {
    StepEvolves(cfg, s, step, HeldJob(s, w));
  }

  lemma NoNewPublication(cfg: Config, s: Sys, step: Step, w: WorkerId)
    requires |s.db.pending| == cfg.shards && Known(s) && Holds(s, w) && HeldJob(s, w) in s.used
    requires PcOf(s, w).published.None? && Owns(s.db, HeldJob(s, w), w)
    requires PcOf(Apply(cfg, s, step), w) == PcOf(s, w)
    requires AllBefore(s.history, HeldJob(s, w), PcOf(s, w).attempt)
    ensures AllBefore(Apply(cfg, s, step).history, HeldJob(s, w), PcOf(s, w).attempt)
  {
    var t := Apply(cfg, s, step);
    StepExplained(cfg, s, step);
    assert t.history == s.history + News(s, t);
  }

  lemma ClaimIsFresh(cfg: Config, s: Sys, step: Step, w: WorkerId)
    requires |s.db.pending| == cfg.shards && Known(s) && (forall e | e in s.history :: EventOk(s, e))
    requires JustClaimed(s, step, Apply(cfg, s, step), w)
    ensures AllBefore(Apply(cfg, s, step).history, PcOf(Apply(cfg, s, step), w).job, PcOf(Apply(cfg, s, step), w).attempt)
  {
    var t := Apply(cfg, s, step);
    StepExplained(cfg, s, step);
    assert t.history == s.history + News(s, t);
    forall e | e in t.history && e.Accepted? && e.query == PcOf(t, w).job
      ensures e.attemptId.number < PcOf(t, w).attempt
    {
      if e in s.history {
        assert EventOk(s, e);
      }
    }
  }

  lemma WorkerStaysOk(cfg: Config, s: Sys, step: Step, w: WorkerId)
    requires |s.db.pending| == cfg.shards && Known(s) && Fenced(s)
    ensures WorkerOk(Apply(cfg, s, step), w)
  {
    var t := Apply(cfg, s, step);
    StepMovesPc(cfg, s, step, w);
    StepKeepsKnown(cfg, s, step);
    assert WorkerOk(s, w);
    if PcOf(t, w).Holding? {
      if JustClaimed(s, step, t, w) {
        ClaimIsFresh(cfg, s, step, w);
      } else {
        OwnerStays(cfg, s, step, w);
        if PcOf(t, w) == PcOf(s, w) && PcOf(s, w).published.None? && Owns(s.db, HeldJob(s, w), w) {
          NoNewPublication(cfg, s, step, w);
        }
      }
    }
  }

  lemma ResultStaysOk(cfg: Config, s: Sys, step: Step, id: JobId)
    requires |s.db.pending| == cfg.shards && Known(s) && Fenced(s)
    requires id in Apply(cfg, s, step).db.jobs
    ensures ResultOk(Apply(cfg, s, step), id)
  {
    var t := Apply(cfg, s, step);
    StepEvolves(cfg, s, step, id);
    StepKeepsKnown(cfg, s, step);
    if id in s.db.jobs {
      assert ResultOk(s, id);
      if t.db.jobs[id].status == Succeeded && s.db.jobs[id].status != Succeeded {
        assert WorkerOk(s, step.worker);
      }
    }
  }

  lemma StepKeepsFenced(cfg: Config, s: Sys, step: Step)
    requires |s.db.pending| == cfg.shards && Known(s) && Fenced(s)
    ensures Fenced(Apply(cfg, s, step))
  {
    HistoryStaysOk(cfg, s, step);
    forall w
      ensures WorkerOk(Apply(cfg, s, step), w)
    {
      WorkerStaysOk(cfg, s, step, w);
    }
    forall id | id in Apply(cfg, s, step).db.jobs
      ensures ResultOk(Apply(cfg, s, step), id)
    {
      ResultStaysOk(cfg, s, step, id);
    }
  }
}
