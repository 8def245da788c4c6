// Leases and retry times under a monotone clock, from readings that may be old.
module Timing {
  import opened Lists
  import opened Scripts
  import opened Protocol
  import opened Placement
  import opened Evolution
  import opened Fencing

  /** A claim or accepted heartbeat of the job, which sets its lease from a clock reading. */
  predicate Reads(e: Event, id: JobId) {
    (e.Claimed? || e.Beaten?) && e.job == id
  }

  /** The clock reading of the last claim or accepted heartbeat of a job. */
  function LastRead(history: seq<Event>, id: JobId): (r: Option<nat>) {
    if history == [] then None
    else if Reads(history[|history| - 1], id) then Some(history[|history| - 1].read)
    else LastRead(history[..|history| - 1], id)
  }

  ghost predicate LeaseOk(cfg: Config, s: Sys, id: JobId) {
    id in s.db.jobs && s.db.jobs[id].status == Running ==>
      LastRead(s.history, id).Some? && s.db.jobs[id].lease == LastRead(s.history, id).value + cfg.leaseMs
  }

  /** What a past delay still says: the attempt after it waits for the time it set. */
  ghost predicate DelayOk(s: Sys, e: Event) {
    e.Delayed? ==>
      && e.job in s.used
      && (e.job in s.db.jobs ==>
            var job := s.db.jobs[e.job];
            && e.attempt <= job.attempts
            && (e.attempt == job.attempts ==>
                  && job.status != Running
                  && (job.status == Retrying ==> e.job in s.db.retry && s.db.retry[e.job] == e.due)
                  && (job.status == Queued ==> e.due <= s.clock)))
  }

  predicate Waited(a: Event, b: Event) {
    a.Delayed? && b.Claimed? && a.job == b.job && b.attempt == a.attempt + 1 ==> a.due <= b.at
  }

  ghost predicate Timed(cfg: Config, s: Sys) {
    && (forall id :: LeaseOk(cfg, s, id))
    && (forall e | e in s.history :: DelayOk(s, e))
    && (forall i, k | 0 <= i < k < |s.history| :: Waited(s.history[i], s.history[k]))
  }

  // ------------------------------------------------------------ one step

  ghost predicate LeaseStep(cfg: Config, s: Sys, t: Sys, id: JobId)
    requires Grows(s, t)
  {
    id in t.db.jobs && t.db.jobs[id].status == Running ==>
      if |News(s, t)| == 1 && Reads(News(s, t)[0], id) then
        t.db.jobs[id].lease == News(s, t)[0].read + cfg.leaseMs
      else
        id in s.db.jobs && s.db.jobs[id].status == Running && s.db.jobs[id].lease == t.db.jobs[id].lease
  }

  ghost predicate ScoreStep(s: Sys, t: Sys, id: JobId) {
    id in s.db.jobs && id in t.db.jobs && s.db.jobs[id].status == Retrying ==>
      && (t.db.jobs[id].status == Retrying && id in s.db.retry ==> id in t.db.retry && t.db.retry[id] == s.db.retry[id])
      && (t.db.jobs[id].status == Queued ==> id in s.db.retry && s.db.retry[id] <= t.clock)
  }

  ghost predicate TimeStep(cfg: Config, s: Sys, t: Sys, id: JobId) {
    Grows(s, t) && |News(s, t)| <= 1 && LeaseStep(cfg, s, t, id) && ScoreStep(s, t, id)
  }

  lemma CancelTime(db: Db, target: JobId, shard: nat, now: int, id: JobId)
    requires shard < |db.pending| && id in db.jobs
    ensures var after := Cancel(db, target, shard, now).0;
      && id in after.jobs
      && (after.jobs[id].status == Running ==> db.jobs[id].status == Running && after.jobs[id].lease == db.jobs[id].lease)
      && (db.jobs[id].status == Retrying ==> after.jobs[id].status != Queued)
      && (after.jobs[id].status == Retrying ==> (id in db.retry ==> id in after.retry && after.retry[id] == db.retry[id]))
  {
  }

  lemma ClientTime(cfg: Config, s: Sys, call: ClientCall, id: JobId)
    requires |s.db.pending| == cfg.shards && Known(s) && ClientEnabled(cfg, s, call)
    ensures TimeStep(cfg, s, ApplyClient(cfg, s, call), id)
  {
    if call.RequestCancel? && id in s.db.jobs {
      CancelTime(s.db, call.id, call.shard, call.now, id);
    }
  }

  lemma LoopTime(cfg: Config, s: Sys, w: WorkerId, call: LoopCall, id: JobId)
    requires |s.db.pending| == cfg.shards && LoopEnabled(cfg, s, w, call)
    ensures TimeStep(cfg, s, ApplyLoop(cfg, s, w, call), id)
  {
  }

  lemma HeldTime(cfg: Config, s: Sys, w: WorkerId, call: HeldCall, id: JobId)
    requires |s.db.pending| == cfg.shards && HeldEnabled(s, w, call)
    ensures TimeStep(cfg, s, ApplyHeld(cfg, s, w, call), id)
  {
  }

  lemma ReapTime(db: Db, target: JobId, shard: nat, lease: int, now: int, maxAttempts: nat, next: int, id: JobId)
    requires shard < |db.pending| && id in db.jobs
    ensures var after := Reap(db, target, shard, lease, now, maxAttempts, next).0;
      && id in after.jobs
      && (after.jobs[id].status == Running ==> after.jobs[id] == db.jobs[id])
      && (db.jobs[id].status == Retrying ==>
            after.jobs[id] == db.jobs[id] && (id in db.retry ==> id in after.retry && after.retry[id] == db.retry[id]))
  {
  }

  lemma PromoteTime(db: Db, target: JobId, shard: nat, now: int, id: JobId)
    requires shard < |db.pending| && id in db.jobs
    ensures var after := Promote(db, target, shard, now).0;
      && id in after.jobs
      && (after.jobs[id].status == Running ==> after.jobs[id] == db.jobs[id])
      && (after.jobs[id].status == Retrying ==>
            id !in db.retry || (id in after.retry && after.retry[id] == db.retry[id]))
      && (db.jobs[id].status == Retrying && after.jobs[id].status == Queued ==> id in db.retry && db.retry[id] <= now)
  {
  }

  lemma UpkeepTime(cfg: Config, s: Sys, call: UpkeepCall, id: JobId)
    requires |s.db.pending| == cfg.shards && UpkeepEnabled(cfg, s, call)
    ensures TimeStep(cfg, s, ApplyUpkeep(cfg, s, call), id)
  {
    if call.ReapOne? && id in s.db.jobs {
      ReapTime(s.db, call.id, call.shard, call.lease, call.now, cfg.maxAttempts, call.now + call.delay, id);
    } else if call.PromoteOne? && id in s.db.jobs {
      PromoteTime(s.db, call.id, call.shard, call.now, id);
    }
  }

  lemma StepTime(cfg: Config, s: Sys, step: Step, id: JobId)
    requires |s.db.pending| == cfg.shards && Known(s)
    ensures TimeStep(cfg, s, Apply(cfg, s, step), id)
  {
    match step
    case Tick(_) =>
    case Client(call) => if ClientEnabled(cfg, s, call) { ClientTime(cfg, s, call, id); }
    case Loop(w, call) => if LoopEnabled(cfg, s, w, call) { LoopTime(cfg, s, w, call, id); }
    case Held(w, call) => if HeldEnabled(s, w, call) { HeldTime(cfg, s, w, call, id); }
    case Upkeep(call) => if UpkeepEnabled(cfg, s, call) { UpkeepTime(cfg, s, call, id); }
  }

  // --------------------------------------------------------- preservation

  lemma LastReadStep(history: seq<Event>, e: Event, id: JobId)
    ensures LastRead(history + [e], id) == if Reads(e, id) then Some(e.read) else LastRead(history, id)
  {
    assert (history + [e])[..|history + [e]| - 1] == history;
  }

  lemma LeaseStaysOk(cfg: Config, s: Sys, step: Step, id: JobId)
    requires |s.db.pending| == cfg.shards && Known(s) && LeaseOk(cfg, s, id)
    ensures LeaseOk(cfg, Apply(cfg, s, step), id)
  {
    var t := Apply(cfg, s, step);
    StepTime(cfg, s, step, id);
    assert t.history == s.history + News(s, t);
    if |News(s, t)| == 1 {
      assert t.history == s.history + [News(s, t)[0]];
      LastReadStep(s.history, News(s, t)[0], id);
    } else {
      assert t.history == s.history;
    }
  }

  lemma DelayStaysOk(cfg: Config, s: Sys, step: Step, e: Event)
    requires |s.db.pending| == cfg.shards && Known(s) && DelayOk(s, e)
    ensures DelayOk(Apply(cfg, s, step), e)
  {
    if e.Delayed? {
      StepKeepsKnown(cfg, s, step);
      StepEvolves(cfg, s, step, e.job);
      StepTime(cfg, s, step, e.job);
    }
  }

  lemma NewDelayOk(cfg: Config, s: Sys, step: Step, t: Sys, e: Event)
    requires Known(s) && Known(t) && Explains(cfg, s, step, t, e)
    ensures DelayOk(t, e)
  {
  }

  lemma NewClaimWaited(cfg: Config, s: Sys, step: Step, t: Sys, earlier: Event, e: Event)
    requires DelayOk(s, earlier) && Explains(cfg, s, step, t, e)
    ensures Waited(earlier, e)
  {
  }

  lemma StepKeepsTimed(cfg: Config, s: Sys, step: Step)
    requires |s.db.pending| == cfg.shards && Known(s) && Timed(cfg, s)
    ensures Timed(cfg, Apply(cfg, s, step))
  {
    var t := Apply(cfg, s, step);
    StepExplained(cfg, s, step);
    StepKeepsKnown(cfg, s, step);
    assert t.history == s.history + News(s, t);
    forall id
      ensures LeaseOk(cfg, t, id)
    {
      LeaseStaysOk(cfg, s, step, id);
    }
    forall e | e in t.history
      ensures DelayOk(t, e)
    {
      if e in s.history {
        DelayStaysOk(cfg, s, step, e);
      } else {
        NewDelayOk(cfg, s, step, t, e);
      }
    }
    forall i, k | 0 <= i < k < |t.history|
      ensures Waited(t.history[i], t.history[k])
    {
      if k < |s.history| {
        assert Waited(s.history[i], s.history[k]);
      } else {
        NewClaimWaited(cfg, s, step, t, s.history[i], t.history[k]);
      }
    }
  }
}
