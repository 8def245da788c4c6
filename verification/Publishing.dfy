// What the replies to a publication mean, and what the worker makes of them.
module Publishing {
  import opened Lists
  import opened Scripts
  import opened Protocol
  import opened Registry
  import opened Guarantees
  import opened Worker

  /** The worker still runs attempt `n` of the job, and nobody asked to cancel it. */
  predicate MayPublish(s: Sys, id: JobId, w: WorkerId, n: nat, now: int) {
    && id in s.db.jobs
    && s.db.jobs[id].status == Running && s.db.jobs[id].worker == Some(w) && s.db.jobs[id].lease > now
    && s.db.jobs[id].attempts == n && !s.db.jobs[id].cancelRequested
  }

  /** Something was accepted at the destination, and what is authoritative there is not this query's. */
  ghost predicate TakenByOthers(history: seq<Event>, dest: Dest, query: JobId) {
    && UsedAt(history, dest)
    && (LastAt(history, dest, false).None? || LastAt(history, dest, false).value.query != query)
  }

  /** The script's reply to a publication by a worker that holds a store-mode attempt. */
  function ReplyTo(s: Sys, w: WorkerId, nonce: nat, now: nat): int
    requires Holds(s, w) && PcOf(s, w).request.delivery.Store?
  {
    var pc := PcOf(s, w);
    var Store(dest, mode) := pc.request.delivery;
    var attempt := AttemptId(pc.attempt, nonce);
    Publish(s.db, pc.job, w, pc.attempt, mode, dest, attempt, Manifest(dest, pc.job, attempt), now).1
  }

  /** What a step with that reply does: 1 moves the registry and is remembered, anything else changes nothing. */
  lemma ReplyTakesEffect(cfg: Config, s: Sys, w: WorkerId, nonce: nat, now: nat)
    requires |s.db.pending| == cfg.shards && HeldEnabled(s, w, PublishHeld(nonce, now))
    ensures var t := ApplyHeld(cfg, s, w, PublishHeld(nonce, now)); var pc := PcOf(s, w);
      var attempt := AttemptId(pc.attempt, nonce);
      var manifest := Manifest(pc.request.delivery.dest, pc.job, attempt);
      if ReplyTo(s, w, nonce, now) == 1 then
        && t.history == s.history + [Accepted(pc.job, attempt, pc.request.delivery.dest, pc.request.delivery.mode, manifest)]
        && PcOf(t, w) == pc.(published := Some(manifest))
        && manifest.dest in t.db.pubs && t.db.pubs[manifest.dest].updatedAt == now
        && t.db.(pubs := s.db.pubs) == s.db && t.db.pubs - {manifest.dest} == s.db.pubs - {manifest.dest}
      else
        t == s
  {
  }

  lemma FencedReply(cfg: Config, steps: seq<Step>, w: WorkerId, nonce: nat, now: nat)
    requires ValidConfig(cfg) && HeldEnabled(Run(cfg, steps), w, PublishHeld(nonce, now))
    ensures var s := Run(cfg, steps); var pc := PcOf(s, w);
      ReplyTo(s, w, nonce, now) == -1 <==> !MayPublish(s, pc.job, w, pc.attempt, now)
  {
  }

  lemma TakenReply(cfg: Config, steps: seq<Step>, w: WorkerId, nonce: nat, now: nat)
    requires ValidConfig(cfg) && HeldEnabled(Run(cfg, steps), w, PublishHeld(nonce, now))
    requires var s := Run(cfg, steps); MayPublish(s, PcOf(s, w).job, w, PcOf(s, w).attempt, now)
    ensures var s := Run(cfg, steps); var pc := PcOf(s, w); var Store(dest, mode) := pc.request.delivery;
      && ReplyTo(s, w, nonce, now) in {0, 1}
      && (ReplyTo(s, w, nonce, now) == 0 <==> mode == WriteError && TakenByOthers(s.history, dest, pc.job))
  {
    Reachable(cfg, steps);
    var s := Run(cfg, steps);
    assert RecordOk(s.db.pubs, s.history, PcOf(s, w).request.delivery.dest);
  }

  /**
   * In every reachable state the reply is -1 exactly if the worker no longer
   * runs that attempt with a live lease and no cancellation on record; else 0
   * exactly if an `error` writer finds the destination taken; and 1 otherwise.
   */
  lemma ReplyMeans(cfg: Config, steps: seq<Step>, w: WorkerId, nonce: nat, now: nat)
    requires ValidConfig(cfg) && HeldEnabled(Run(cfg, steps), w, PublishHeld(nonce, now))
    ensures var s := Run(cfg, steps); var pc := PcOf(s, w); var Store(dest, mode) := pc.request.delivery;
      var may := MayPublish(s, pc.job, w, pc.attempt, now);
      var taken := mode == WriteError && TakenByOthers(s.history, dest, pc.job);
      && (ReplyTo(s, w, nonce, now) == -1 <==> !may)
      && (ReplyTo(s, w, nonce, now) == 0 <==> may && taken)
      && (ReplyTo(s, w, nonce, now) == 1 <==> may && !taken)
  {
    FencedReply(cfg, steps, w, nonce, now);
    var s := Run(cfg, steps);
    if MayPublish(s, PcOf(s, w).job, w, PcOf(s, w).attempt, now) {
      TakenReply(cfg, steps, w, nonce, now);
    }
  }

  /**
   * So a worker whose commit check passed ends fenced exactly in the first
   * case, with an existing output exactly in the second, and with its manifest
   * as the result exactly in the third.
   */
  lemma ReplyEndsExecution(cfg: Config, steps: seq<Step>, w: WorkerId, nonce: nat, now: nat)
    requires ValidConfig(cfg) && HeldEnabled(Run(cfg, steps), w, PublishHeld(nonce, now))
    ensures var s := Run(cfg, steps); var pc := PcOf(s, w); var Store(dest, mode) := pc.request.delivery;
      var manifest := Manifest(dest, pc.job, AttemptId(pc.attempt, nonce));
      var engine := Writes(true, nonce, ReplyTo(s, w, nonce, now), None);
      var may := MayPublish(s, pc.job, w, pc.attempt, now);
      var taken := mode == WriteError && TakenByOthers(s.history, dest, pc.job);
      && (Worker.Fenced(engine) <==> !may)
      && (StoreEnd(manifest, true, engine.reply, None) == RaisesFenced <==> !may)
      && (StoreEnd(manifest, true, engine.reply, None) == Raises(OutputExists) <==> may && taken)
      && (StoreEnd(manifest, true, engine.reply, None) == Returns(StoredResult(manifest)) <==> may && !taken)
  {
    ReplyMeans(cfg, steps, w, nonce, now);
  }

  /** A synchronous query's publication is refused exactly if it writes in `error` mode to a taken destination. */
  lemma SyncRefusedIff(cfg: Config, steps: seq<Step>, call: ClientCall)
    requires ValidConfig(cfg) && call.SyncPublish? && ClientEnabled(cfg, Run(cfg, steps), call)
    ensures var s := Run(cfg, steps); var t := ApplyClient(cfg, s, call);
      t.history == s.history <==> call.mode == WriteError && TakenByOthers(s.history, call.dest, call.id)
  {
    Reachable(cfg, steps);
    var s := Run(cfg, steps);
    assert RecordOk(s.db.pubs, s.history, call.dest);
  }
}
