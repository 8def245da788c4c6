// When a heartbeat is accepted, and what it keeps from happening.
module Heartbeats {
  import opened Lists
  import opened Scripts
  import opened Protocol
  import opened Timing
  import opened Guarantees

  /** This worker runs the job, and its lease ends after `now`. */
  predicate RunsLive(s: Sys, w: WorkerId, id: JobId, now: int) {
    && id in s.db.jobs
    && s.db.jobs[id].status == Running && s.db.jobs[id].worker == Some(w) && s.db.jobs[id].lease > now
  }

  /** The lease and the time of the update are new; nothing else in the whole state is. */
  predicate OnlyLeaseMoves(cfg: Config, before: Db, after: Db, id: JobId, now: nat) {
    && id in before.jobs && after.jobs.Keys == before.jobs.Keys
    && (forall other | other in before.jobs && other != id :: after.jobs[other] == before.jobs[other])
    && after.jobs[id].lease == now + cfg.leaseMs
    && after.jobs[id].(lease := before.jobs[id].lease, updatedAt := before.jobs[id].updatedAt) == before.jobs[id]
    && after.(jobs := before.jobs) == before
  }

  /**
   * In every state a heartbeat is recorded if and only if its worker runs the
   * job with a lease that ends after its reading.  Then the lease is a lease
   * after that reading and nothing else moves; otherwise nothing does.
   */
  lemma BeatenIff(cfg: Config, s: Sys, w: WorkerId, id: JobId, now: nat)
    requires |s.db.pending| == cfg.shards && LoopEnabled(cfg, s, w, Beat(id, now))
    ensures var t := ApplyLoop(cfg, s, w, Beat(id, now));
      && (t.history == s.history + [Beaten(id, now)] <==> RunsLive(s, w, id, now))
      && (RunsLive(s, w, id, now) ==> OnlyLeaseMoves(cfg, s.db, t.db, id, now) && t == s.(db := t.db, history := t.history))
      && (!RunsLive(s, w, id, now) ==> t == s)
  {
  }

  /** A reap whose reading is within a lease of the last claim or accepted heartbeat takes nothing. */
  lemma InTimeIsKept(cfg: Config, steps: seq<Step>, call: UpkeepCall)
    requires ValidConfig(cfg) && call.ReapOne? && UpkeepEnabled(cfg, Run(cfg, steps), call)
    requires var s := Run(cfg, steps);
      && call.id in s.db.jobs && s.db.jobs[call.id].status == Running
      && LastRead(s.history, call.id).Some? && call.now < LastRead(s.history, call.id).value + cfg.leaseMs
    ensures ApplyUpkeep(cfg, Run(cfg, steps), call).db == Run(cfg, steps).db
  {
    Reachable(cfg, steps);
    assert LeaseOk(cfg, Run(cfg, steps), call.id);
  }

  /** Every reap of the job in a run reads the clock within a lease of the last claim or accepted heartbeat. */
  ghost predicate BeatenInTime(cfg: Config, s: Sys, steps: seq<Step>, id: JobId)
    requires |s.db.pending| == cfg.shards
  {
    forall i | 0 <= i < |steps| && steps[i].Upkeep? && steps[i].upkeep.ReapOne? && steps[i].upkeep.id == id ::
      var read := LastRead(RunFrom(cfg, s, steps[..i]).history, id);
      read.Some? && steps[i].upkeep.now < read.value + cfg.leaseMs
  }

  /** If a step of a run is a reap of the running job, it changes nothing. */
  ghost predicate ReapKept(cfg: Config, s: Sys, steps: seq<Step>, id: JobId, i: nat)
    requires |s.db.pending| == cfg.shards && i < |steps|
  {
    var before := RunFrom(cfg, s, steps[..i]);
    steps[i].Upkeep? && steps[i].upkeep.ReapOne? && steps[i].upkeep.id == id
      && id in before.db.jobs && before.db.jobs[id].status == Running ==>
        Apply(cfg, before, steps[i]).db == before.db
  }

  /** So a job whose owner beats in time is never taken from it by a reaper, however long the run. */
  lemma BeatingKeepsTheJob(cfg: Config, steps: seq<Step>, more: seq<Step>, id: JobId, i: nat)
    requires ValidConfig(cfg) && BeatenInTime(cfg, Run(cfg, steps), more, id) && i < |more|
    ensures ReapKept(cfg, Run(cfg, steps), more, id, i)
  {
    var before := RunFrom(cfg, Run(cfg, steps), more[..i]);
    RunAppend(cfg, Init(cfg), steps, more[..i]);
    if more[i].Upkeep? && more[i].upkeep.ReapOne? && more[i].upkeep.id == id
        && id in before.db.jobs && before.db.jobs[id].status == Running {
      if UpkeepEnabled(cfg, before, more[i].upkeep) {
        InTimeIsKept(cfg, steps + more[..i], more[i].upkeep);
      }
    }
  }

  /** Right after an accepted heartbeat, a reap with a reading within a lease of the heartbeat's takes nothing. */
  lemma BeatThenReap(cfg: Config, steps: seq<Step>, w: WorkerId, id: JobId, now: nat, call: UpkeepCall)
    requires ValidConfig(cfg) && LoopEnabled(cfg, Run(cfg, steps), w, Beat(id, now)) && RunsLive(Run(cfg, steps), w, id, now)
    requires call.ReapOne? && call.id == id && call.now < now + cfg.leaseMs
    ensures var t := Apply(cfg, Run(cfg, steps), Loop(w, Beat(id, now))); Apply(cfg, t, Upkeep(call)).db == t.db
  {
    BeatenIff(cfg, Run(cfg, steps), w, id, now);
  }
}
