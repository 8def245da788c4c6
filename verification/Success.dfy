// Which step makes a job succeed, and what it takes after a publication.
module Success {
  import opened Lists
  import opened Scripts
  import opened Protocol
  import opened Evolution
  import opened Fencing
  import opened Guarantees

  predicate Succeeds(db: Db, id: JobId) {
    id in db.jobs && db.jobs[id].status == Succeeded
  }

  /** The live owner completes the job it holds, and no cancellation is on record. */
  predicate CompletesInTime(s: Sys, step: Step, id: JobId) {
    && step.Held? && step.held.CompleteHeld? && HeldEnabled(s, step.worker, step.held)
    && HeldJob(s, step.worker) == id
    && OwnsLive(s.db, id, step.worker, step.held.now)
    && !s.db.jobs[id].cancelRequested
  }

  lemma CompletionSucceeds(cfg: Config, s: Sys, step: Step, id: JobId)
    requires |s.db.pending| == cfg.shards && CompletesInTime(s, step, id)
    ensures var t := Apply(cfg, s, step);
      Succeeds(t.db, id) && t.db.jobs[id].result == ResultOf(PcOf(s, step.worker), step.held.payload)
  {
  }

  lemma LateCompletionFails(cfg: Config, s: Sys, step: Step, id: JobId)
    requires |s.db.pending| == cfg.shards && !Succeeds(s.db, id)
    requires step.Held? && step.held.CompleteHeld? && HeldEnabled(s, step.worker, step.held)
    requires HeldJob(s, step.worker) == id && !CompletesInTime(s, step, id)
    ensures Apply(cfg, s, step).db == s.db
  {
  }

  /**
   * In every reachable state a step makes a job succeed if and only if it is
   * the live owner's completion with no cancellation on record; the result is
   * the one the owner holds.
   */
  lemma SucceedsIff(cfg: Config, steps: seq<Step>, step: Step, id: JobId)
    requires ValidConfig(cfg) && !Succeeds(Run(cfg, steps).db, id)
    ensures var s := Run(cfg, steps); var t := Apply(cfg, s, step);
      && (Succeeds(t.db, id) <==> CompletesInTime(s, step, id))
      && (Succeeds(t.db, id) ==> t.db.jobs[id].result == ResultOf(PcOf(s, step.worker), step.held.payload))
  {
    Reachable(cfg, steps);
    var s := Run(cfg, steps);
    if CompletesInTime(s, step, id) {
      CompletionSucceeds(cfg, s, step, id);
    } else {
      StepEvolves(cfg, s, step, id);
      if step.Held? && HeldEnabled(s, step.worker, step.held) && step.held.CompleteHeld? && HeldJob(s, step.worker) == id {
        LateCompletionFails(cfg, s, step, id);
      }
    }
  }

  /**
   * After an accepted publication the owner's completion makes the job succeed
   * with that manifest exactly if the lease is live and no cancellation is on
   * record; an accepted publication alone promises nothing.
   */
  lemma PublishedSucceedsIff(cfg: Config, steps: seq<Step>, w: WorkerId, payload: nat, now: nat)
    requires ValidConfig(cfg)
    requires var s := Run(cfg, steps);
      && now <= s.clock && Holds(s, w) && PcOf(s, w).published.Some?
      && !Succeeds(s.db, HeldJob(s, w))
    ensures var s := Run(cfg, steps); var id := HeldJob(s, w);
      var db := Apply(cfg, s, Held(w, CompleteHeld(payload, now))).db;
      (Succeeds(db, id) && db.jobs[id].result == Some(StoredResult(PcOf(s, w).published.value))) <==>
        OwnsLive(s.db, id, w, now) && !s.db.jobs[id].cancelRequested
  {
    Reachable(cfg, steps);
    var s := Run(cfg, steps);
    assert WorkerOk(s, w);
    SucceedsIff(cfg, steps, Held(w, CompleteHeld(payload, now)), HeldJob(s, w));
  }
}
