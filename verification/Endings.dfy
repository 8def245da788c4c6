// Which step gives a job each of its statuses, with the error text on record
// and the dead list.  Successes are in Success.
module Endings {
  import opened Lists
  import opened Scripts
  import opened Protocol
  import opened Placement
  import opened Evolution
  import opened Guarantees

  ghost predicate HasStatus(db: Db, id: JobId, status: Status) {
    id in db.jobs && db.jobs[id].status == status
  }

  /** A call about this job by the worker that runs it with a live lease. */
  predicate ByLiveOwner(s: Sys, step: Step, id: JobId) {
    && step.Held? && HeldEnabled(s, step.worker, step.held) && HeldJob(s, step.worker) == id
    && id in s.db.jobs
    && s.db.jobs[id].status == Running && s.db.jobs[id].worker == Some(step.worker) && s.db.jobs[id].lease > step.held.now
  }

  /** A reap of this running job that knows its lease and reads the clock after its end. */
  predicate ReapedLate(cfg: Config, s: Sys, step: Step, id: JobId) {
    && step.Upkeep? && step.upkeep.ReapOne? && UpkeepEnabled(cfg, s, step.upkeep) && step.upkeep.id == id
    && id in s.db.jobs && s.db.jobs[id].status == Running
    && step.upkeep.lease == s.db.jobs[id].lease <= step.upkeep.now
  }

  /** A client's cancellation of this job. */
  predicate CancelAsked(cfg: Config, s: Sys, step: Step, id: JobId) {
    step.Client? && step.client.RequestCancel? && ClientEnabled(cfg, s, step.client) && step.client.id == id
  }

  // ------------------------------------------------ out of a running attempt

  predicate CancelsRunning(cfg: Config, s: Sys, step: Step, id: JobId) {
    || (ByLiveOwner(s, step, id) && step.held.CancelHeld?)
    || (ReapedLate(cfg, s, step, id) && s.db.jobs[id].cancelRequested)
  }

  predicate FailsRunning(cfg: Config, s: Sys, step: Step, id: JobId) {
    || (ByLiveOwner(s, step, id) && step.held.FailHeld?)
    || (ByLiveOwner(s, step, id) && step.held.RetryHeld? && s.db.jobs[id].attempts >= cfg.maxAttempts)
    || (ReapedLate(cfg, s, step, id) && !s.db.jobs[id].cancelRequested && s.db.jobs[id].attempts >= cfg.maxAttempts)
  }

  predicate DelaysRunning(cfg: Config, s: Sys, step: Step, id: JobId) {
    || (ByLiveOwner(s, step, id) && step.held.RetryHeld? && s.db.jobs[id].attempts < cfg.maxAttempts)
    || (ReapedLate(cfg, s, step, id) && !s.db.jobs[id].cancelRequested && s.db.jobs[id].attempts < cfg.maxAttempts)
  }

  /** What one step makes of a running job, successes aside. */
  ghost predicate RunningEnds(cfg: Config, s: Sys, step: Step, t: Sys, id: JobId) {
    && (HasStatus(t.db, id, Cancelled) <==> CancelsRunning(cfg, s, step, id))
    && (HasStatus(t.db, id, Failed) <==> FailsRunning(cfg, s, step, id))
    && (HasStatus(t.db, id, Retrying) <==> DelaysRunning(cfg, s, step, id))
  }

  lemma ClientRunning(cfg: Config, s: Sys, call: ClientCall, id: JobId)
    requires |s.db.pending| == cfg.shards && Known(s) && ClientEnabled(cfg, s, call) && HasStatus(s.db, id, Running)
    ensures RunningEnds(cfg, s, Client(call), ApplyClient(cfg, s, call), id)
  {
    if call.RequestCancel? {
      CancelEvolves(cfg, s.db, call.id, call.shard, call.now, id);
    }
  }

  lemma LoopRunning(cfg: Config, s: Sys, w: WorkerId, call: LoopCall, id: JobId)
    requires |s.db.pending| == cfg.shards && LoopEnabled(cfg, s, w, call) && HasStatus(s.db, id, Running)
    ensures RunningEnds(cfg, s, Loop(w, call), ApplyLoop(cfg, s, w, call), id)
  {
  }

  lemma HeldRunning(cfg: Config, s: Sys, w: WorkerId, call: HeldCall, id: JobId)
    requires |s.db.pending| == cfg.shards && HeldEnabled(s, w, call) && HasStatus(s.db, id, Running)
    ensures RunningEnds(cfg, s, Held(w, call), ApplyHeld(cfg, s, w, call), id)
  {
  }

  lemma UpkeepRunning(cfg: Config, s: Sys, call: UpkeepCall, id: JobId)
    requires |s.db.pending| == cfg.shards && UpkeepEnabled(cfg, s, call) && HasStatus(s.db, id, Running)
    ensures RunningEnds(cfg, s, Upkeep(call), ApplyUpkeep(cfg, s, call), id)
  {
  }

  lemma StepRunning(cfg: Config, s: Sys, step: Step, id: JobId)
    requires |s.db.pending| == cfg.shards && Known(s) && HasStatus(s.db, id, Running)
    ensures RunningEnds(cfg, s, step, Apply(cfg, s, step), id)
  {
    match step
    case Tick(_) =>
    case Client(call) => if ClientEnabled(cfg, s, call) { ClientRunning(cfg, s, call, id); }
    case Loop(w, call) => if LoopEnabled(cfg, s, w, call) { LoopRunning(cfg, s, w, call, id); }
    case Held(w, call) => if HeldEnabled(s, w, call) { HeldRunning(cfg, s, w, call, id); }
    case Upkeep(call) => if UpkeepEnabled(cfg, s, call) { UpkeepRunning(cfg, s, call, id); }
  }

  /**
   * In every reachable state a step cancels a running job if and only if it is
   * its live owner's cancellation, or a late reap with one on record.
   */
  lemma CancelledIff(cfg: Config, steps: seq<Step>, step: Step, id: JobId)
    requires ValidConfig(cfg) && HasStatus(Run(cfg, steps).db, id, Running)
    ensures HasStatus(Apply(cfg, Run(cfg, steps), step).db, id, Cancelled) <==> CancelsRunning(cfg, Run(cfg, steps), step, id)
  {
    Reachable(cfg, steps);
    StepRunning(cfg, Run(cfg, steps), step, id);
  }

  /** It fails one if and only if the live owner reports it for good or the attempts are used up. */
  lemma FailedIff(cfg: Config, steps: seq<Step>, step: Step, id: JobId)
    requires ValidConfig(cfg) && HasStatus(Run(cfg, steps).db, id, Running)
    ensures HasStatus(Apply(cfg, Run(cfg, steps), step).db, id, Failed) <==> FailsRunning(cfg, Run(cfg, steps), step, id)
  {
    Reachable(cfg, steps);
    StepRunning(cfg, Run(cfg, steps), step, id);
  }

  /** It sends one to the retry set if and only if attempts are left. */
  lemma RetryingIff(cfg: Config, steps: seq<Step>, step: Step, id: JobId)
    requires ValidConfig(cfg) && HasStatus(Run(cfg, steps).db, id, Running)
    ensures HasStatus(Apply(cfg, Run(cfg, steps), step).db, id, Retrying) <==> DelaysRunning(cfg, Run(cfg, steps), step, id)
  {
    Reachable(cfg, steps);
    StepRunning(cfg, Run(cfg, steps), step, id);
  }

  // ---------------------------------------------------- out of a waiting job

  /** A claim of this id by a worker that moved it, while it is listed. */
  predicate ClaimedNow(cfg: Config, s: Sys, step: Step, id: JobId) {
    && step.Loop? && step.loop.ClaimMoved? && LoopEnabled(cfg, s, step.worker, step.loop)
    && PcOf(s, step.worker) == Moved(id) && id in s.db.processing
  }

  predicate PromotedNow(cfg: Config, s: Sys, step: Step, id: JobId) {
    && step.Upkeep? && step.upkeep.PromoteOne? && UpkeepEnabled(cfg, s, step.upkeep) && step.upkeep.id == id
    && id in s.db.retry && s.db.retry[id] <= step.upkeep.now
  }

  ghost predicate WaitingMoves(cfg: Config, s: Sys, step: Step, t: Sys, id: JobId) {
    && (HasStatus(s.db, id, Queued) ==>
          && (HasStatus(t.db, id, Running) <==> ClaimedNow(cfg, s, step, id))
          && (HasStatus(t.db, id, Cancelled) <==> CancelAsked(cfg, s, step, id)))
    && (HasStatus(s.db, id, Retrying) ==>
          && (HasStatus(t.db, id, Queued) <==> PromotedNow(cfg, s, step, id))
          && (HasStatus(t.db, id, Cancelled) <==> CancelAsked(cfg, s, step, id)))
  }

  lemma CancelWaiting(db: Db, target: JobId, shard: nat, now: int, id: JobId)
    requires shard < |db.pending| && (HasStatus(db, id, Queued) || HasStatus(db, id, Retrying))
    ensures var after := Cancel(db, target, shard, now).0;
      && id in after.jobs
      && after.jobs[id].status == if target == id then Cancelled else db.jobs[id].status
  {
  }

  lemma ClientWaiting(cfg: Config, s: Sys, call: ClientCall, id: JobId)
    requires |s.db.pending| == cfg.shards && Known(s) && ClientEnabled(cfg, s, call)
    ensures WaitingMoves(cfg, s, Client(call), ApplyClient(cfg, s, call), id)
  {
    if call.RequestCancel? && (HasStatus(s.db, id, Queued) || HasStatus(s.db, id, Retrying)) {
      CancelWaiting(s.db, call.id, call.shard, call.now, id);
    }
  }

  lemma LoopWaiting(cfg: Config, s: Sys, w: WorkerId, call: LoopCall, id: JobId)
    requires DbInv(cfg, s.db) && LoopEnabled(cfg, s, w, call)
    ensures WaitingMoves(cfg, s, Loop(w, call), ApplyLoop(cfg, s, w, call), id)
  {
    if id in s.db.jobs {
      assert Accounted(cfg, s.db, id);
    }
  }

  lemma HeldWaiting(cfg: Config, s: Sys, w: WorkerId, call: HeldCall, id: JobId)
    requires |s.db.pending| == cfg.shards && HeldEnabled(s, w, call)
    ensures WaitingMoves(cfg, s, Held(w, call), ApplyHeld(cfg, s, w, call), id)
  {
  }

  lemma UpkeepWaiting(cfg: Config, s: Sys, call: UpkeepCall, id: JobId)
    requires |s.db.pending| == cfg.shards && UpkeepEnabled(cfg, s, call)
    ensures WaitingMoves(cfg, s, Upkeep(call), ApplyUpkeep(cfg, s, call), id)
  {
    if call.ReapOne? && id in s.db.jobs {
      ReapEvolves(cfg, s.db, call.id, call.shard, call.lease, call.now, call.now + call.delay, id);
    }
  }

  /** In every reachable state: who starts, promotes and cancels a waiting job, exactly. */
  lemma WaitingMovesIff(cfg: Config, steps: seq<Step>, step: Step, id: JobId)
    requires ValidConfig(cfg)
    ensures WaitingMoves(cfg, Run(cfg, steps), step, Apply(cfg, Run(cfg, steps), step), id)
  {
    Reachable(cfg, steps);
    var s := Run(cfg, steps);
    match step
    case Tick(_) =>
    case Client(call) => if ClientEnabled(cfg, s, call) { ClientWaiting(cfg, s, call, id); }
    case Loop(w, call) => if LoopEnabled(cfg, s, w, call) { LoopWaiting(cfg, s, w, call, id); }
    case Held(w, call) => if HeldEnabled(s, w, call) { HeldWaiting(cfg, s, w, call, id); }
    case Upkeep(call) => if UpkeepEnabled(cfg, s, call) { UpkeepWaiting(cfg, s, call, id); }
  }

  // ------------------------------------------- error text, owner, cancel flag

  /** The text an ended attempt leaves: the owner's report, the reaper's own, or none. */
  function TextOf(s: Sys, step: Step, id: JobId): Message
    requires id in s.db.jobs
  {
    if step.Held? then
      match step.held
      case FailHeld(error, _) => error
      case RetryHeld(error, _, _, _) => error
      case _ => NoMessage
    else if s.db.jobs[id].cancelRequested then NoMessage
    else LeaseExpired
  }

  /** The clock reading a step's call carries. */
  function ReadingOf(step: Step): int {
    match step
    case Tick(_) => 0
    case Client(call) => call.now
    case Loop(_, call) => if call.ClaimMoved? || call.Beat? then call.now else 0
    case Held(_, call) => call.now
    case Upkeep(call) => if call.ReapOne? || call.PromoteOne? then call.now else 0
  }

  /**
   * The text changes exactly when the attempt ends, the flag is set exactly by
   * a client, and every change is stamped with the reading of its call.
   */
  ghost predicate Written(cfg: Config, s: Sys, step: Step, t: Sys, id: JobId) {
    id in s.db.jobs && id in t.db.jobs ==>
      var a, b := s.db.jobs[id], t.db.jobs[id];
      && (a.status == Running && b.status != Running ==> b.error == TextOf(s, step, id))
      && (!(a.status == Running && b.status != Running) ==> b.error == a.error)
      && (a.status == Running && b.status == Running ==>
            (b.cancelRequested <==> a.cancelRequested || CancelAsked(cfg, s, step, id)))
      && (b != a ==> b.updatedAt == ReadingOf(step))
  }

  lemma CancelWritten(db: Db, target: JobId, shard: nat, now: int, id: JobId)
    requires shard < |db.pending| && id in db.jobs
    ensures var b := Cancel(db, target, shard, now).0.jobs;
      && id in b && b[id].error == db.jobs[id].error
      && (b[id] != db.jobs[id] ==> b[id].updatedAt == now)
      && (db.jobs[id].status == Running ==>
            b[id].status == Running && (b[id].cancelRequested <==> db.jobs[id].cancelRequested || target == id))
      && (db.jobs[id].status != Running ==> b[id].status != Running)
  {
  }

  lemma ClientWrites(cfg: Config, s: Sys, call: ClientCall, id: JobId)
    requires |s.db.pending| == cfg.shards && Known(s) && ClientEnabled(cfg, s, call)
    ensures Written(cfg, s, Client(call), ApplyClient(cfg, s, call), id)
  {
    if call.RequestCancel? && id in s.db.jobs {
      CancelWritten(s.db, call.id, call.shard, call.now, id);
    }
  }

  lemma LoopWrites(cfg: Config, s: Sys, w: WorkerId, call: LoopCall, id: JobId)
    requires |s.db.pending| == cfg.shards && LoopEnabled(cfg, s, w, call)
    ensures Written(cfg, s, Loop(w, call), ApplyLoop(cfg, s, w, call), id)
  {
  }

  lemma HeldWrites(cfg: Config, s: Sys, w: WorkerId, call: HeldCall, id: JobId)
    requires |s.db.pending| == cfg.shards && HeldEnabled(s, w, call)
    ensures Written(cfg, s, Held(w, call), ApplyHeld(cfg, s, w, call), id)
  {
  }

  lemma ReapWritten(cfg: Config, db: Db, target: JobId, shard: nat, lease: int, now: int, next: int, id: JobId)
    requires shard < |db.pending| && id in db.jobs
    ensures var after := Reap(db, target, shard, lease, now, cfg.maxAttempts, next).0;
      && id in after.jobs
      && (after.jobs[id] != db.jobs[id] ==>
            && db.jobs[id].status == Running && after.jobs[id].status != Running
            && after.jobs[id].error == (if db.jobs[id].cancelRequested then NoMessage else LeaseExpired)
            && after.jobs[id].updatedAt == now)
  {
  }

  lemma UpkeepWrites(cfg: Config, s: Sys, call: UpkeepCall, id: JobId)
    requires |s.db.pending| == cfg.shards && UpkeepEnabled(cfg, s, call)
    ensures Written(cfg, s, Upkeep(call), ApplyUpkeep(cfg, s, call), id)
  {
    if call.ReapOne? && id in s.db.jobs {
      ReapWritten(cfg, s.db, call.id, call.shard, call.lease, call.now, call.now + call.delay, id);
    }
  }

  lemma StepWrites(cfg: Config, steps: seq<Step>, step: Step, id: JobId)
    requires ValidConfig(cfg)
    ensures Written(cfg, Run(cfg, steps), step, Apply(cfg, Run(cfg, steps), step), id)
  {
    Reachable(cfg, steps);
    var s := Run(cfg, steps);
    match step
    case Tick(_) =>
    case Client(call) => if ClientEnabled(cfg, s, call) { ClientWrites(cfg, s, call, id); }
    case Loop(w, call) => if LoopEnabled(cfg, s, w, call) { LoopWrites(cfg, s, w, call, id); }
    case Held(w, call) => if HeldEnabled(s, w, call) { HeldWrites(cfg, s, w, call, id); }
    case Upkeep(call) => if UpkeepEnabled(cfg, s, call) { UpkeepWrites(cfg, s, call, id); }
  }

  // -------------------------------------------------------------- dead list

  /** This step is the job's failure. */
  ghost predicate FailsIn(s: Sys, t: Sys, id: JobId) {
    HasStatus(s.db, id, Running) && HasStatus(t.db, id, Failed)
  }

  /** The dead list grows by the one job that failed, in front, and else stays. */
  ghost predicate DeadStep(s: Sys, t: Sys) {
    && (forall id | FailsIn(s, t, id) :: t.db.dead == [id] + s.db.dead)
    && ((forall id :: !FailsIn(s, t, id)) ==> t.db.dead == s.db.dead)
  }

  lemma ClientDead(cfg: Config, s: Sys, call: ClientCall)
    requires |s.db.pending| == cfg.shards && Known(s) && ClientEnabled(cfg, s, call)
    ensures DeadStep(s, ApplyClient(cfg, s, call))
  {
    var t := ApplyClient(cfg, s, call);
    assert t.db.dead == s.db.dead;
    forall id
      ensures !FailsIn(s, t, id)
    {
      if HasStatus(s.db, id, Running) {
        ClientRunning(cfg, s, call, id);
      }
    }
  }

  lemma LoopDead(cfg: Config, s: Sys, w: WorkerId, call: LoopCall)
    requires |s.db.pending| == cfg.shards && LoopEnabled(cfg, s, w, call)
    ensures DeadStep(s, ApplyLoop(cfg, s, w, call))
  {
  }

  lemma HeldDead(cfg: Config, s: Sys, w: WorkerId, call: HeldCall)
    requires |s.db.pending| == cfg.shards && HeldEnabled(s, w, call)
    ensures DeadStep(s, ApplyHeld(cfg, s, w, call))
  {
    var t := ApplyHeld(cfg, s, w, call);
    var id := HeldJob(s, w);
    assert t.db.dead != s.db.dead ==> FailsIn(s, t, id);
  }

  lemma UpkeepDead(cfg: Config, s: Sys, call: UpkeepCall)
    requires |s.db.pending| == cfg.shards && UpkeepEnabled(cfg, s, call)
    ensures DeadStep(s, ApplyUpkeep(cfg, s, call))
  {
    var t := ApplyUpkeep(cfg, s, call);
    if call.ReapOne? {
      assert t.db.dead != s.db.dead ==> FailsIn(s, t, call.id);
    }
  }

  /** In every reachable state only a failure extends the dead list, by its own id in front. */
  lemma DeadListGrows(cfg: Config, steps: seq<Step>, step: Step)
    requires ValidConfig(cfg)
    ensures DeadStep(Run(cfg, steps), Apply(cfg, Run(cfg, steps), step))
  {
    Reachable(cfg, steps);
    var s := Run(cfg, steps);
    match step
    case Tick(_) =>
    case Client(call) => if ClientEnabled(cfg, s, call) { ClientDead(cfg, s, call); }
    case Loop(w, call) => if LoopEnabled(cfg, s, w, call) { LoopDead(cfg, s, w, call); }
    case Held(w, call) => if HeldEnabled(s, w, call) { HeldDead(cfg, s, w, call); }
    case Upkeep(call) => if UpkeepEnabled(cfg, s, call) { UpkeepDead(cfg, s, call); }
  }

  // ------------------------------------------------------ replies to a worker

  /**
   * A worker's completing, failing or cancelling call is acknowledged exactly
   * if it ended the attempt; otherwise nothing changed and the worker still
   * holds the job.
   */
  lemma AcknowledgedIffEnded(cfg: Config, s: Sys, w: WorkerId, call: HeldCall)
    requires |s.db.pending| == cfg.shards && HeldEnabled(s, w, call) && !call.PublishHeld?
    ensures var id, t := HeldJob(s, w), ApplyHeld(cfg, s, w, call);
      && (PcOf(t, w) == Idle <==> HasStatus(s.db, id, Running) && id in t.db.jobs && t.db.jobs[id].status != Running)
      && (PcOf(t, w) != Idle ==> t.db == s.db && PcOf(t, w) == PcOf(s, w))
  {
  }

  /** The reap script answers 0 exactly for a running job whose lease is another one or not over, and changes nothing then. */
  lemma ReapAnswers(cfg: Config, db: Db, id: JobId, shard: nat, lease: int, now: int, next: int)
    requires shard < |db.pending|
    ensures var (after, changed) := Reap(db, id, shard, lease, now, cfg.maxAttempts, next);
      && (!changed <==> HasStatus(db, id, Running) && (db.jobs[id].lease != lease || db.jobs[id].lease > now))
      && (!changed ==> after == db)
  {
  }

  /**
   * The claim script grants exactly a listed, queued job with a request.  One
   * without a request loses its entry; any other refusal changes nothing.
   */
  lemma ClaimAnswers(db: Db, id: JobId, w: WorkerId, lease: int, now: int)
    ensures var (after, grant) := Claim(db, id, w, lease, now);
      var listed := id in db.processing && id in db.jobs && db.jobs[id].status == Queued;
      && (grant.Some? <==> listed && db.jobs[id].request.Some?)
      && (grant.None? && !listed ==> after == db)
      && (grant.None? && listed ==>
            after.(processing := db.processing) == db && |after.processing| == |db.processing| - 1)
  {
    if id in db.processing {
      ShorterByOne(db.processing, id);
    }
  }

  lemma {:induction false} ShorterByOne(ids: seq<JobId>, id: JobId)
    requires id in ids
    ensures |RemoveFirst(ids, id)| == |ids| - 1
  {
    if ids[0] != id {
      assert ids == [ids[0]] + ids[1..];
      ShorterByOne(ids[1..], id);
    }
  }
}
