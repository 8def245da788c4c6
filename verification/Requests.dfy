// What a client's submission and cancellation do, and what their replies mean.
module Requests {
  import opened Lists
  import opened Scripts
  import opened Protocol
  import opened Placement

  predicate IsBound(db: Db, key: Option<IdemKey>) {
    key.Some? && key.value in db.idem
  }

  /** Nothing but one new job, its list entry and its binding. */
  ghost predicate OnlyAdds(before: Db, after: Db, id: JobId, shard: nat, key: Option<IdemKey>)
    requires shard < |before.pending|
  {
    && id in after.jobs
    && (forall other | other != id :: other in after.jobs <==> other in before.jobs)
    && (forall other | other != id && other in before.jobs :: after.jobs[other] == before.jobs[other])
    && |after.pending| == |before.pending|
    && after.pending[shard] == [id] + before.pending[shard]
    && (forall i | 0 <= i < |before.pending| && i != shard :: after.pending[i] == before.pending[i])
    && (forall k | k in before.idem && Some(k) != key :: k in after.idem && after.idem[k] == before.idem[k])
    && (forall k | k in after.idem && Some(k) != key :: k in before.idem)
    && (key.Some? ==> key.value in after.idem && after.idem[key.value].job == id)
    && after.(jobs := before.jobs, pending := before.pending, idem := before.idem) == before
  }

  /** A record as a submission leaves it. */
  predicate JustQueued(job: Job, request: Request, shard: nat, now: int) {
    && job.status == Queued && job.request == Some(request) && job.attempts == 0
    && job.worker.None? && job.lease == 0 && !job.cancelRequested
    && job.error == NoMessage && job.result.None? && job.nextAttempt == 0
    && job.shard == shard && job.createdAt == now && job.updatedAt == now
  }

  /** When the script gives which reply. */
  lemma EnqueueReplies(db: Db, id: JobId, request: Request, shard: nat, now: int, key: Option<IdemKey>, maxDepth: nat)
    requires shard < |db.pending|
    ensures var (after, reply) := Enqueue(db, id, request, shard, now, key, maxDepth); var bound := IsBound(db, key);
      && (reply.Full? <==> !bound && Depth(db) >= maxDepth)
      && (reply.Created? <==> !bound && Depth(db) < maxDepth)
      && (reply.Conflict? <==> bound && db.idem[key.value].hash != request.hash)
      && (bound ==> reply.job == db.idem[key.value].job)
      && (!reply.Created? ==> after == db)
  {
  }

  lemma EnqueueAdds(db: Db, id: JobId, request: Request, shard: nat, now: int, key: Option<IdemKey>, maxDepth: nat)
    requires shard < |db.pending| && !IsBound(db, key) && Depth(db) < maxDepth
    ensures OnlyAdds(db, Enqueue(db, id, request, shard, now, key, maxDepth).0, id, shard, key)
  {
  }

  /** What a creation does. */
  lemma EnqueueCreates(db: Db, id: JobId, request: Request, shard: nat, now: int, key: Option<IdemKey>, maxDepth: nat)
    requires shard < |db.pending| && !IsBound(db, key) && Depth(db) < maxDepth
    ensures var (after, reply) := Enqueue(db, id, request, shard, now, key, maxDepth);
      && reply == Created(id) && id in after.jobs && JustQueued(after.jobs[id], request, shard, now)
      && (key.Some? ==> key.value in after.idem && after.idem[key.value].hash == request.hash)
  {
  }

  /**
   * In every state: an unbound submission is refused exactly if the queue is
   * full and else creates its job; a bound one names the bound job and is a
   * conflict exactly for another request; only the creation changes anything.
   */
  lemma SubmissionMeans(cfg: Config, s: Sys, call: ClientCall)
    requires |s.db.pending| == cfg.shards && call.Submit? && ClientEnabled(cfg, s, call)
    ensures var t := ApplyClient(cfg, s, call); var bound := IsBound(s.db, call.key);
      && |t.history| == |s.history| + 1 && s.history <= t.history
      && var e := t.history[|s.history|];
         && e.Replied? && e.key == call.key && e.hash == call.request.hash
         && (e.reply.Full? <==> !bound && Depth(s.db) >= cfg.maxDepth)
         && (e.reply.Created? <==> !bound && Depth(s.db) < cfg.maxDepth)
         && (e.reply.Conflict? <==> bound && s.db.idem[call.key.value].hash != call.request.hash)
         && (bound ==> e.reply.job == s.db.idem[call.key.value].job)
         && (!e.reply.Created? ==> t.db == s.db)
         && (e.reply.Created? ==>
               && e.reply.job == call.id && OnlyAdds(s.db, t.db, call.id, call.shard, call.key)
               && (call.key.Some? ==> t.db.idem[call.key.value].hash == call.request.hash)
               && JustQueued(t.db.jobs[call.id], call.request, call.shard, call.now))
  {
    EnqueueReplies(s.db, call.id, call.request, call.shard, call.now, call.key, cfg.maxDepth);
    if !IsBound(s.db, call.key) && Depth(s.db) < cfg.maxDepth {
      EnqueueAdds(s.db, call.id, call.request, call.shard, call.now, call.key, cfg.maxDepth);
      EnqueueCreates(s.db, call.id, call.request, call.shard, call.now, call.key, cfg.maxDepth);
    }
  }

  /** The reply to a cancellation tells what the job was and what became of it. */
  lemma CancellationMeans(db: Db, id: JobId, shard: nat, now: int)
    requires shard < |db.pending|
    ensures var (after, reply) := Cancel(db, id, shard, now);
      && (reply.NoSuchJob? <==> id !in db.jobs)
      && (reply.AlreadyOver? <==> id in db.jobs && Over(db.jobs[id].status))
      && (reply.CancelRecorded? <==> id in db.jobs && db.jobs[id].status == Running)
      && (reply.CancelledNow? <==>
            id in db.jobs && LiveStatus(db.jobs[id].status) && id in after.jobs && after.jobs[id].status == Cancelled)
      && (reply.NoSuchJob? || reply.AlreadyOver? ==> after == db)
      && (reply.CancelRecorded? ==>
            after == db.(jobs := db.jobs[id := db.jobs[id].(cancelRequested := true, updatedAt := now)]))
  {
  }
}
