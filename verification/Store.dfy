// The queue's shared state as an object that the scripts update in place, one
// method a script, in the order of the script's own commands; and the client
// operations that call several of them.  Each method is proved against the
// function of the same name in Scripts.
module Store {
  import opened Lists
  import S = Scripts
  import opened Placement
  import RetryDelay

  class QueueStore {
    const cfg: S.Config
    var jobs: map<S.JobId, S.Job>
    var pending: seq<seq<S.JobId>>
    var processing: seq<S.JobId>
    var retry: map<S.JobId, int>
    var dead: seq<S.JobId>
    var idem: map<S.IdemKey, S.Binding>
    var pubs: map<S.Dest, S.Publication>

    /** The whole state as a value. */
    function View(): S.Db
      reads this
    {
      S.Db(jobs, pending, processing, retry, dead, idem, pubs)
    }

    predicate Shaped()
      reads this
    {
      S.ValidConfig(cfg) && |pending| == cfg.shards
    }

    constructor (cfg: S.Config)
      requires S.ValidConfig(cfg)
      ensures Shaped() && this.cfg == cfg && View() == S.EmptyDb(cfg)
    {
      this.cfg := cfg;
      jobs, retry, idem, pubs := map[], map[], map[], map[];
      pending := seq(cfg.shards, _ => []);
      processing, dead := [], [];
    }

    // ----------------------------------------------------------- the scripts

    method Enqueue(id: S.JobId, request: S.Request, shard: nat, now: int, key: Option<S.IdemKey>)
      returns (reply: S.EnqueueReply)
      requires Shaped() && shard < cfg.shards
      modifies this
      ensures Shaped()
      ensures (View(), reply) == S.Enqueue(old(View()), id, request, shard, now, key, cfg.maxDepth)
    {
      if key.Some? && key.value in idem {
        var bound := idem[key.value];
        if bound.hash != request.hash {
          return S.Conflict(bound.job);
        }
        return S.Existing(bound.job);
      }
      var depth := |processing| + |retry|;
      var index := 0;
      while index < |pending|
        invariant index <= |pending|
        invariant depth + TotalLength(pending[index..]) == S.Depth(View())
      {
        depth := depth + |pending[index]|;
        index := index + 1;
      }
      if depth >= cfg.maxDepth {
        return S.Full;
      }
      jobs := jobs[id := S.NewJob(request, shard, now)];
      pending := pending[shard := [id] + pending[shard]];
      if key.Some? {
        idem := idem[key.value := S.Binding(request.hash, id)];
      }
      return S.Created(id);
    }

    method Publish(id: S.JobId, worker: S.WorkerId, attempt: nat, mode: S.WriteMode, dest: S.Dest,
                   attemptId: S.AttemptId, manifest: S.Manifest, now: int)
      returns (reply: int)
      requires Shaped()
      modifies this
      ensures Shaped()
      ensures (View(), reply) == S.Publish(old(View()), id, worker, attempt, mode, dest, attemptId, manifest, now)
    {
      if id !in jobs || jobs[id].status != S.Running { return -1; }
      if jobs[id].worker != Some(worker) { return -1; }
      if jobs[id].attempts != attempt { return -1; }
      if jobs[id].cancelRequested { return -1; }
      if jobs[id].lease <= now { return -1; }
      var entry := S.Pointer(id, attemptId, manifest);
      if mode == S.WriteAppend {
        var kept := if dest in pubs then pubs[dest].current else None;
        pubs := pubs[dest := S.Publication(kept, Some(entry), now)];
        return 1;
      }
      if mode == S.WriteError && dest in pubs {
        var current := pubs[dest].current;
        if current.None? || current.value.query != id { return 0; }
      }
      var appended := if dest in pubs then pubs[dest].lastAppend else None;
      pubs := pubs[dest := S.Publication(Some(entry), appended, now)];
      return 1;
    }

    /** RPOPLPUSH: the first half of a reservation. */
    method Move(shard: nat) returns (moved: Option<S.JobId>)
      requires Shaped() && shard < cfg.shards
      modifies this
      ensures Shaped()
      ensures (View(), moved) == S.Move(old(View()), shard)
    {
      var list := pending[shard];
      if list == [] { return None; }
      var id := list[|list| - 1];
      pending := pending[shard := list[..|list| - 1]];
      processing := [id] + processing;
      return Some(id);
    }

    method Claim(id: S.JobId, worker: S.WorkerId, leaseUntil: int, now: int) returns (grant: Option<S.Grant>)
      requires Shaped()
      modifies this
      ensures Shaped()
      ensures (View(), grant) == S.Claim(old(View()), id, worker, leaseUntil, now)
    {
      if id !in processing { return None; }
      if id !in jobs || jobs[id].status != S.Queued { return None; }
      var job := jobs[id];
      if job.request.None? {
        processing := RemoveFirst(processing, id);
        return None;
      }
      var attempts := job.attempts + 1;
      jobs := jobs[id := job.(attempts := attempts)];
      jobs := jobs[id := jobs[id].(status := S.Running, worker := Some(worker), lease := leaseUntil, updatedAt := now,
                                   cancelRequested := false, nextAttempt := 0)];
      assert jobs == old(jobs)[id := jobs[id]];
      return Some(S.Grant(job.request.value, attempts, job.shard, job.createdAt));
    }

    method Heartbeat(id: S.JobId, worker: S.WorkerId, leaseUntil: int, now: int) returns (ok: bool)
      requires Shaped()
      modifies this
      ensures Shaped()
      ensures (View(), ok) == S.Heartbeat(old(View()), id, worker, leaseUntil, now)
    {
      if id !in jobs || jobs[id].status != S.Running { return false; }
      if jobs[id].worker != Some(worker) { return false; }
      if jobs[id].lease <= now { return false; }
      jobs := jobs[id := jobs[id].(lease := leaseUntil, updatedAt := now)];
      return true;
    }

    method Complete(id: S.JobId, worker: S.WorkerId, result: S.Result, now: int) returns (ok: bool)
      requires Shaped()
      modifies this
      ensures Shaped()
      ensures (View(), ok) == S.Complete(old(View()), id, worker, result, now)
    {
      if id !in jobs || jobs[id].status != S.Running { return false; }
      if jobs[id].worker != Some(worker) { return false; }
      if jobs[id].cancelRequested { return false; }
      if jobs[id].lease <= now { return false; }
      jobs := jobs[id := jobs[id].(status := S.Succeeded, result := Some(result), error := S.NoMessage,
                                   worker := None, lease := 0, updatedAt := now)];
      processing := RemoveFirst(processing, id);
      return true;
    }

    method Terminal(id: S.JobId, worker: S.WorkerId, status: S.Status, error: S.Message, now: int) returns (ok: bool)
      requires Shaped()
      modifies this
      ensures Shaped()
      ensures (View(), ok) == S.Terminal(old(View()), id, worker, status, error, now)
    {
      if id !in jobs || jobs[id].status != S.Running { return false; }
      if jobs[id].worker != Some(worker) { return false; }
      if jobs[id].lease <= now { return false; }
      jobs := jobs[id := jobs[id].(status := status, error := error, worker := None, lease := 0, updatedAt := now)];
      processing := RemoveFirst(processing, id);
      if status == S.Failed { dead := [id] + dead; }
      return true;
    }

    method Retry(id: S.JobId, worker: S.WorkerId, error: S.Message, now: int, next: int) returns (ok: bool)
      requires Shaped()
      modifies this
      ensures Shaped()
      ensures (View(), ok) == S.Retry(old(View()), id, worker, cfg.maxAttempts, error, now, next)
    {
      if id !in jobs || jobs[id].status != S.Running { return false; }
      if jobs[id].worker != Some(worker) { return false; }
      if jobs[id].lease <= now { return false; }
      processing := RemoveFirst(processing, id);
      var ended := jobs[id].(error := error, worker := None, lease := 0, updatedAt := now);
      if ended.attempts >= cfg.maxAttempts {
        jobs := jobs[id := ended.(status := S.Failed)];
        dead := [id] + dead;
      } else {
        jobs := jobs[id := ended.(status := S.Retrying, nextAttempt := next)];
        retry := retry[id := next];
      }
      return true;
    }

    method Reap(id: S.JobId, shard: nat, expectedLease: int, now: int, next: int) returns (changed: bool)
      requires Shaped() && shard < cfg.shards
      modifies this
      ensures Shaped()
      ensures (View(), changed) == S.Reap(old(View()), id, shard, expectedLease, now, cfg.maxAttempts, next)
    {
      if id !in jobs {
        processing := RemoveFirst(processing, id);
        return true;
      }
      var job := jobs[id];
      if job.status == S.Queued {
        processing := RemoveFirst(processing, id);
        pending := pending[shard := [id] + pending[shard]];
        return true;
      }
      if job.status != S.Running {
        processing := RemoveFirst(processing, id);
        return true;
      }
      if job.lease != expectedLease || job.lease > now { return false; }
      processing := RemoveFirst(processing, id);
      var ended := job.(worker := None, lease := 0, updatedAt := now);
      if job.cancelRequested {
        jobs := jobs[id := ended.(status := S.Cancelled, error := S.NoMessage, nextAttempt := 0)];
      } else if job.attempts >= cfg.maxAttempts {
        jobs := jobs[id := ended.(status := S.Failed, error := S.LeaseExpired)];
        dead := [id] + dead;
      } else {
        jobs := jobs[id := ended.(status := S.Retrying, error := S.LeaseExpired, nextAttempt := next)];
        retry := retry[id := next];
      }
      return true;
    }

    method Promote(id: S.JobId, shard: nat, now: int) returns (moved: bool)
      requires Shaped() && shard < cfg.shards
      modifies this
      ensures Shaped()
      ensures (View(), moved) == S.Promote(old(View()), id, shard, now)
    {
      if id !in jobs || jobs[id].status != S.Retrying {
        retry := retry - {id};
        return false;
      }
      if id !in retry || retry[id] > now { return false; }
      retry := retry - {id};
      jobs := jobs[id := jobs[id].(status := S.Queued, nextAttempt := 0, updatedAt := now)];
      pending := pending[shard := [id] + pending[shard]];
      return true;
    }

    method Cancel(id: S.JobId, shard: nat, now: int) returns (reply: S.CancelReply)
      requires Shaped() && shard < cfg.shards
      modifies this
      ensures Shaped()
      ensures (View(), reply) == S.Cancel(old(View()), id, shard, now)
    {
      if id !in jobs { return S.NoSuchJob; }
      var status := jobs[id].status;
      if status == S.Queued {
        pending := pending[shard := RemoveFirst(pending[shard], id)];
        jobs := jobs[id := jobs[id].(status := S.Cancelled, updatedAt := now)];
        return S.CancelledNow;
      }
      if status == S.Retrying {
        retry := retry - {id};
        jobs := jobs[id := jobs[id].(status := S.Cancelled, updatedAt := now)];
        return S.CancelledNow;
      }
      if status == S.Running {
        jobs := jobs[id := jobs[id].(cancelRequested := true, updatedAt := now)];
        return S.CancelRecorded;
      }
      return S.AlreadyOver;
    }

    // ------------------------------------------------- the client's operations

    /**
     * `enqueue`: answers from a binding read earlier, if there was one, and
     * else calls the script.  While the binding is retained it is the same.
     */
    method Submit(early: Option<S.Binding>, id: S.JobId, request: S.Request, shard: nat, now: int, key: Option<S.IdemKey>)
      returns (outcome: Submission)
      requires Shaped() && shard < cfg.shards
      requires early.Some? ==> key.Some?
      modifies this
      ensures Shaped()
      ensures early.None? || (key.value in old(idem) && old(idem)[key.value] == early.value) ==>
        var (db, reply) := S.Enqueue(old(View()), id, request, shard, now, key, cfg.maxDepth);
        View() == db && outcome == Answer(db, reply)
      ensures early.None? || (key.value in old(idem) && old(idem)[key.value] == early.value) ==>
        var bound := key.Some? && key.value in old(idem);
        && (outcome.Busy? <==> !bound && S.Depth(old(View())) >= cfg.maxDepth)
        && (outcome.KeyTaken? <==> bound && old(idem)[key.value].hash != request.hash)
        && (outcome.RecordExpired? <==>
              bound && old(idem)[key.value].hash == request.hash && old(idem)[key.value].job !in jobs)
        && (outcome.Record? ==>
              && outcome.job == (if bound then old(idem)[key.value].job else id)
              && outcome.job in jobs && jobs[outcome.job].status == outcome.status)
      ensures early.Some? ==> View() == old(View()) && outcome == Answer(View(), BoundReply(early.value, request.hash))
    {
      if early.Some? {
        var bound := early.value;
        if bound.hash != request.hash { return KeyTaken(bound.job); }
        if bound.job in jobs { return Record(bound.job, jobs[bound.job].status); }
        return RecordExpired;
      }
      var reply := Enqueue(id, request, shard, now, key);
      match reply {
        case Full => return Busy;
        case Conflict(job) => return KeyTaken(job);
        case Existing(job) =>
          if job in jobs { return Record(job, jobs[job].status); }
          return RecordExpired;
        case Created(job) => return Record(job, S.Queued);
      }
    }

    /** One turn of the `promote_retries` loop: the job's shard is read, then the script called. */
    method PromoteEntry(id: S.JobId, now: int) returns (ok: bool)
      requires Shaped() && ShardsOk(View())
      modifies this
      ensures Shaped()
      ensures (View(), ok) == S.Promote(old(View()), id, ShardOf(old(View()), id), now)
    {
      var shard := if id in jobs then jobs[id].shard else 0;
      ok := Promote(id, shard, now);
    }

    /** The loop of `promote_retries` over the ids it read. */
    method PromoteIds(ids: seq<S.JobId>, now: int) returns (moved: nat)
      requires Shaped() && ShardsOk(View())
      modifies this
      ensures Shaped()
      ensures (View(), moved) == PromoteAll(old(View()), ids, now)
    {
      var index := 0;
      moved := 0;
      while index < |ids|
        invariant index <= |ids|
        invariant Shaped()
        invariant (View(), moved) == PromoteAll(old(View()), ids[..index], now)
      {
        PromoteAllNext(old(View()), ids, index, now);
        var ok := PromoteEntry(ids[index], now);
        if ok { moved := moved + 1; }
        index := index + 1;
      }
      assert ids[..index] == ids;
    }

    /** `promote_retries`: at most a hundred due ids, earliest first. */
    method PromoteRetries(now: int) returns (moved: nat)
      requires Shaped() && ShardsOk(View())
      modifies this
      ensures Shaped()
      ensures (View(), moved) == PromoteAll(old(View()), DueIds(old(retry), DueSet(old(retry), now), BATCH), now)
    {
      var due := DueIds(retry, DueSet(retry, now), BATCH);
      moved := PromoteIds(due, now);
    }

    /** `reserve` with nobody interfering: promote, take an id from the own shard or from another one, claim it. */
    method Reserve(worker: S.WorkerId, shard: nat, promoteAt: int, now: int) returns (job: Option<S.JobId>, grant: Option<S.Grant>)
      requires Shaped() && ShardsOk(View())
      modifies this
      ensures Shaped()
      ensures var start := PromoteAll(old(View()), DueIds(old(retry), DueSet(old(retry), promoteAt), BATCH), promoteAt).0;
        (View(), job, grant) == Reserved(start, shard % cfg.shards, worker, now + cfg.leaseMs, now)
    {
      var promoted := PromoteRetries(promoteAt);
      var primary := shard % cfg.shards;
      grant := None;
      job := Move(primary);
      if job.None? && cfg.shards > 1 {
        var candidate := 0;
        while candidate < cfg.shards && job.None?
          invariant candidate <= cfg.shards
          invariant Shaped()
          invariant pending[primary] == []
          invariant job.None? ==> View() == PromoteAll(old(View()), DueIds(old(retry), DueSet(old(retry), promoteAt), BATCH), promoteAt).0
          invariant job.None? ==> forall i | 0 <= i < candidate :: pending[i] == []
          invariant job.Some? ==>
            var start := PromoteAll(old(View()), DueIds(old(retry), DueSet(old(retry), promoteAt), BATCH), promoteAt).0;
            && PickShard(start.pending, primary) == Some(candidate - 1) && candidate > 0
            && S.Move(start, candidate - 1) == (View(), job)
        {
          if candidate != primary {
            FirstNonEmptyIs(pending, 0, candidate);
            job := Move(candidate);
          }
          candidate := candidate + 1;
        }
      }
      if job.Some? {
        grant := Claim(job.value, worker, now + cfg.leaseMs, now);
      } else {
        FirstNonEmptyNone(pending, 0);
      }
    }

    /** `fail`: with a delay computed from the attempt number on record, or terminally. */
    method Fail(id: S.JobId, worker: S.WorkerId, error: S.Message, retryable: bool, first: real, cap: real, jitter: real,
                readAt: int, now: int)
      returns (ok: bool)
      requires Shaped()
      modifies this
      ensures Shaped()
      ensures retryable ==>
        var attempts := if id in old(jobs) then old(jobs)[id].attempts else 0;
        (View(), ok) == S.Retry(old(View()), id, worker, cfg.maxAttempts, error, now,
                                readAt + RetryDelay.DelayMs(first, cap, attempts, jitter))
      ensures !retryable ==> (View(), ok) == S.Terminal(old(View()), id, worker, S.Failed, error, now)
    {
      if retryable {
        var attempts := if id in jobs then jobs[id].attempts else 0;
        var next := readAt + RetryDelay.DelayMs(first, cap, attempts, jitter);
        ok := Retry(id, worker, error, now, next);
      } else {
        ok := Terminal(id, worker, S.Failed, error, now);
      }
    }

    /** One turn of the `reap_stale` loop, on an id of the list read at its start. */
    method ReapEntry(id: S.JobId, now: int, next: int, ghost start: S.Db, ghost rest: seq<S.JobId>) returns (changed: bool)
      requires Shaped() && Sweeping(cfg, start, View(), [id] + rest, now) && Recovering(cfg, start, View(), [id] + rest, now)
      modifies this
      ensures Shaped() && Sweeping(cfg, start, View(), rest, now) && Recovering(cfg, start, View(), rest, now)
      ensures changed <==> !Leased(start, id, now)
    {
      var lease, shard := 0, 0;
      if id in jobs {
        assert Placed(cfg, View(), id);
        lease, shard := jobs[id].lease, jobs[id].shard;
        if jobs[id].status == S.Running && lease > now {
          SkipLeased(View(), id, rest, now);
          SkipRecovery(cfg, start, View(), id, rest, now);
          return false;
        }
      }
      SweepOne(cfg, start, View(), id, shard, lease, now, next, rest);
      RecoverOne(cfg, start, View(), id, shard, lease, now, next, rest);
      changed := Reap(id, shard, lease, now, next);
    }

    /** The loop of `reap_stale` over the processing list it read. */
    method Sweep(now: int, delay: nat -> nat) returns (reaped: nat)
      requires Shaped() && DbInv(cfg, View())
      modifies this
      ensures Shaped() && DbInv(cfg, View())
      ensures forall id | id in processing :: Leased(View(), id, now)
      ensures SameLeased(old(View()), View(), now)
      ensures Recovered(cfg, old(View()), View(), now)
      ensures reaped == Unleased(old(View()), old(processing), now)
    {
      ghost var start := View();
      var ids := processing;
      reaped := 0;
      var index := 0;
      StartSweep(cfg, start, now);
      StartRecovery(cfg, start, now);
      assert ids[0..] == ids;
      while index < |ids|
        invariant index <= |ids|
        invariant Shaped() && Sweeping(cfg, start, View(), ids[index..], now)
        invariant Recovering(cfg, start, View(), ids[index..], now)
        invariant reaped + Unleased(start, ids[index..], now) == Unleased(start, ids, now)
      {
        assert ids[index..] == [ids[index]] + ids[index + 1..];
        UnleasedCons(start, ids[index], ids[index + 1..], now);
        var changed := ReapEntry(ids[index], now, now + delay(index), start, ids[index + 1..]);
        if changed { reaped := reaped + 1; }
        index := index + 1;
      }
      EndSweep(cfg, start, View(), ids[index..], now);
      assert ids[index..] == [];
    }

    /**
     * `reap_stale` with nobody interfering, over a processing list with
     * arbitrary duplicates: only running jobs with a live lease stay listed,
     * those are left alone, each other running job ends as its record says, and
     * the placement invariant is kept throughout.  Then what is due by the
     * second reading is promoted.
     */
    method ReapStale(now: int, delay: nat -> nat, promoteAt: int) returns (reaped: nat, ghost swept: S.Db)
      requires Shaped() && DbInv(cfg, View())
      modifies this
      ensures Shaped() && DbInv(cfg, View()) && ShardsOk(swept)
      ensures forall id | id in processing :: Leased(View(), id, now)
      ensures SameLeased(old(View()), View(), now)
      ensures DbInv(cfg, swept) && Recovered(cfg, old(View()), swept, now)
      ensures var due := DueIds(swept.retry, DueSet(swept.retry, promoteAt), BATCH);
        && Promoted(swept, View(), due)
        && (|due| < BATCH ==> forall id | id in retry :: !(0 <= retry[id] <= promoteAt))
      ensures reaped == Unleased(old(View()), old(processing), now)
    {
      reaped := Sweep(now, delay);
      swept := View();
      PlacedShards(cfg, swept);
      PromotionIsComplete(cfg, swept, promoteAt);
      var moved := PromoteRetries(promoteAt);
      PromotionLeavesLeased(cfg, swept, promoteAt, now);
    }

    /** `request_cancel`: the record afterwards, or nothing if there is none. */
    method RequestCancel(id: S.JobId, now: int) returns (status: Option<S.Status>)
      requires Shaped() && ShardsOk(View())
      modifies this
      ensures Shaped()
      ensures View() == S.Cancel(old(View()), id, ShardOf(old(View()), id), now).0
      ensures status.None? <==> id !in old(jobs)
      ensures status.Some? ==> id in jobs && status.value == jobs[id].status
    {
      if id !in jobs {
        return None;
      }
      var reply := Cancel(id, jobs[id].shard, now);
      if reply == S.NoSuchJob {
        return None;
      }
      return Some(jobs[id].status);
    }
  }

  // ------------------------------------------------------------------ sweeps

  lemma PlacedShards(cfg: S.Config, db: S.Db)
    requires S.ValidConfig(cfg) && DbInv(cfg, db)
    ensures ShardsOk(db)
  {
    forall id | id in db.jobs
      ensures db.jobs[id].shard < |db.pending|
    {
      assert Placed(cfg, db, id);
    }
  }

  lemma {:induction false} PromoteAllProcessing(db: S.Db, ids: seq<S.JobId>, now: int)
    requires ShardsOk(db)
    ensures PromoteAll(db, ids, now).0.processing == db.processing
  {
    if ids != [] {
      PromoteAllProcessing(db, ids[..|ids| - 1], now);
    }
  }

  /** A promotion concerns retrying jobs only. */
  lemma PromotionLeavesLeased(cfg: S.Config, db: S.Db, promoteAt: int, now: int)
    requires DbInv(cfg, db) && ShardsOk(db)
    ensures var after := PromoteAll(db, DueIds(db.retry, DueSet(db.retry, promoteAt), BATCH), promoteAt).0;
      after.processing == db.processing && SameLeased(db, after, now)
  {
    var due := DueIds(db.retry, DueSet(db.retry, promoteAt), BATCH);
    PromoteAllProcessing(db, due, promoteAt);
    PromotionIsComplete(cfg, db, promoteAt);
    forall id | id in db.jobs && id in due
      ensures db.jobs[id].status == S.Retrying
    {
      assert Placed(cfg, db, id);
    }
  }

  /** A running job whose lease is still live at `now`. */
  predicate Leased(db: S.Db, id: S.JobId, now: int) {
    id in db.jobs && db.jobs[id].status == S.Running && db.jobs[id].lease > now
  }

  /** The same jobs are leased, and their records are the same. */
  ghost predicate SameLeased(before: S.Db, after: S.Db, now: int) {
    forall id :: (Leased(before, id, now) <==> Leased(after, id, now))
              && (Leased(before, id, now) ==> after.jobs[id] == before.jobs[id])
  }

  /** How many entries of a list are of jobs that are not leased. */
  function Unleased(db: S.Db, ids: seq<S.JobId>, now: int): nat {
    if ids == [] then 0 else (if Leased(db, ids[0], now) then 0 else 1) + Unleased(db, ids[1..], now)
  }

  lemma UnleasedCons(db: S.Db, id: S.JobId, rest: seq<S.JobId>, now: int)
    ensures Unleased(db, [id] + rest, now) == (if Leased(db, id, now) then 0 else 1) + Unleased(db, rest, now)
  {
    assert ([id] + rest)[1..] == rest;
  }

  /** An unleased job has no more entries left than there are in the rest of the sweep. */
  ghost predicate OnlyRemaining(db: S.Db, rest: seq<S.JobId>, now: int) {
    forall id | !Leased(db, id, now) :: Count(db.processing, id) <= Count(rest, id)
  }

  /** Between two turns of a sweep, with `rest` still to come. */
  ghost predicate Sweeping(cfg: S.Config, start: S.Db, db: S.Db, rest: seq<S.JobId>, now: int) {
    DbInv(cfg, db) && SameLeased(start, db, now) && OnlyRemaining(db, rest, now)
  }

  lemma SkipLeased(db: S.Db, id: S.JobId, rest: seq<S.JobId>, now: int)
    requires Leased(db, id, now) && OnlyRemaining(db, [id] + rest, now)
    ensures OnlyRemaining(db, rest, now)
  {
    forall other | !Leased(db, other, now)
      ensures Count(db.processing, other) <= Count(rest, other)
    {
      CountCons(id, rest, other);
    }
  }

  lemma SkipDone(db: S.Db, after: S.Db, id: S.JobId, rest: seq<S.JobId>, now: int)
    requires OnlyRemaining(db, [id] + rest, now) && SameLeased(db, after, now)
    requires after.processing == RemoveFirst(db.processing, id)
    ensures OnlyRemaining(after, rest, now)
  {
    forall other | !Leased(after, other, now)
      ensures Count(after.processing, other) <= Count(rest, other)
    {
      assert !Leased(db, other, now);
      CountCons(id, rest, other);
      RemoveFirstCount(db.processing, id, other);
      CountIn(db.processing, other);
    }
  }

  lemma StartSweep(cfg: S.Config, db: S.Db, now: int)
    requires DbInv(cfg, db)
    ensures Sweeping(cfg, db, db, db.processing, now)
  {
  }

  lemma EndSweep(cfg: S.Config, start: S.Db, db: S.Db, rest: seq<S.JobId>, now: int)
    requires Sweeping(cfg, start, db, rest, now) && rest == []
    ensures DbInv(cfg, db) && SameLeased(start, db, now) && Unleased(start, rest, now) == 0
    ensures forall id | id in db.processing :: Leased(db, id, now)
  {
    forall id | id in db.processing
      ensures Leased(db, id, now)
    {
      CountIn(db.processing, id);
    }
  }

  lemma ReapLeavesLeased(cfg: S.Config, db: S.Db, id: S.JobId, shard: nat, lease: int, now: int, next: int)
    requires shard < |db.pending| && !Leased(db, id, now)
    requires id in db.jobs ==> db.jobs[id].lease == lease
    ensures var (after, changed) := S.Reap(db, id, shard, lease, now, cfg.maxAttempts, next);
      && changed && after.processing == RemoveFirst(db.processing, id)
      && SameLeased(db, after, now)
  {
  }

  /** A running job whose lease is over at `now`. */
  predicate Late(db: S.Db, id: S.JobId, now: int) {
    id in db.jobs && db.jobs[id].status == S.Running && db.jobs[id].lease <= now
  }

  /** What recovery makes of a late job. */
  predicate EndsAs(cfg: S.Config, job: S.Job, after: S.Job) {
    && after.status ==
         (if job.cancelRequested then S.Cancelled else if job.attempts >= cfg.maxAttempts then S.Failed else S.Retrying)
    && after.worker.None? && after.attempts == job.attempts && after.shard == job.shard && after.request == job.request
  }

  /** Every late job has ended, and every other record is as it was. */
  ghost predicate Recovered(cfg: S.Config, start: S.Db, db: S.Db, now: int) {
    && db.jobs.Keys == start.jobs.Keys
    && forall id | id in start.jobs ::
         if Late(start, id, now) then EndsAs(cfg, start.jobs[id], db.jobs[id]) else db.jobs[id] == start.jobs[id]
  }

  /** During a sweep a late job has ended, or is as it was and still to come. */
  ghost predicate Recovering(cfg: S.Config, start: S.Db, db: S.Db, rest: seq<S.JobId>, now: int) {
    && db.jobs.Keys == start.jobs.Keys
    && forall id | id in start.jobs ::
         || (db.jobs[id] == start.jobs[id] && (Late(start, id, now) ==> id in rest))
         || (Late(start, id, now) && EndsAs(cfg, start.jobs[id], db.jobs[id]))
  }

  lemma StartRecovery(cfg: S.Config, db: S.Db, now: int)
    requires DbInv(cfg, db)
    ensures Recovering(cfg, db, db, db.processing, now)
  {
    forall id | id in db.jobs && Late(db, id, now)
      ensures id in db.processing
    {
      assert Placed(cfg, db, id);
    }
  }

  lemma SkipRecovery(cfg: S.Config, start: S.Db, db: S.Db, id: S.JobId, rest: seq<S.JobId>, now: int)
    requires Recovering(cfg, start, db, [id] + rest, now) && Leased(db, id, now)
    ensures Recovering(cfg, start, db, rest, now)
  {
  }

  lemma RecoverOne(cfg: S.Config, start: S.Db, db: S.Db, id: S.JobId, shard: nat, lease: int, now: int, next: int,
                   rest: seq<S.JobId>)
    requires Recovering(cfg, start, db, [id] + rest, now)
    requires shard < |db.pending| && !Leased(db, id, now)
    requires id in db.jobs ==> db.jobs[id].shard == shard && db.jobs[id].lease == lease
    ensures Recovering(cfg, start, S.Reap(db, id, shard, lease, now, cfg.maxAttempts, next).0, rest, now)
  {
  }

  lemma SweepOne(cfg: S.Config, start: S.Db, db: S.Db, id: S.JobId, shard: nat, lease: int, now: int, next: int,
                 rest: seq<S.JobId>)
    requires Sweeping(cfg, start, db, [id] + rest, now)
    requires shard < cfg.shards && !Leased(db, id, now)
    requires id in db.jobs ==> db.jobs[id].shard == shard && db.jobs[id].lease == lease
    ensures var (after, changed) := S.Reap(db, id, shard, lease, now, cfg.maxAttempts, next);
      changed && Sweeping(cfg, start, after, rest, now) && !Leased(start, id, now)
  {
    ReapKeeps(cfg, db, id, shard, lease, now, next);
    ReapLeavesLeased(cfg, db, id, shard, lease, now, next);
    SkipDone(db, S.Reap(db, id, shard, lease, now, cfg.maxAttempts, next).0, id, rest, now);
  }

  datatype Submission = Record(job: S.JobId, status: S.Status) | Busy | KeyTaken(job: S.JobId) | RecordExpired

  function BoundReply(bound: S.Binding, hash: S.Hash): S.EnqueueReply {
    if bound.hash != hash then S.Conflict(bound.job) else S.Existing(bound.job)
  }

  /** What the caller of `enqueue` learns from the script's reply. */
  function Answer(db: S.Db, reply: S.EnqueueReply): Submission {
    match reply
    case Full => Busy
    case Conflict(job) => KeyTaken(job)
    case Created(job) => Record(job, S.Queued)
    case Existing(job) => if job in db.jobs then Record(job, db.jobs[job].status) else RecordExpired
  }

  // ------------------------------------------------------------ reservation

  /** The first pending list, from `from` on, that is not empty. */
  function FirstNonEmpty(pending: seq<seq<S.JobId>>, from: nat): (r: Option<nat>)
    requires from <= |pending|
    ensures r.Some? ==> from <= r.value < |pending| && pending[r.value] != []
    decreases |pending| - from
  {
    if from == |pending| then None
    else if pending[from] != [] then Some(from)
    else FirstNonEmpty(pending, from + 1)
  }

  lemma {:induction false} FirstNonEmptyIs(pending: seq<seq<S.JobId>>, from: nat, index: nat)
    requires from <= index < |pending| && forall i | from <= i < index :: pending[i] == []
    ensures pending[index] != [] ==> FirstNonEmpty(pending, from) == Some(index)
    decreases index - from
  {
    if from < index {
      FirstNonEmptyIs(pending, from + 1, index);
    }
  }

  lemma {:induction false} FirstNonEmptyNone(pending: seq<seq<S.JobId>>, from: nat)
    requires from <= |pending|
    ensures FirstNonEmpty(pending, from).None? <==> forall i | from <= i < |pending| :: pending[i] == []
    decreases |pending| - from
  {
    if from < |pending| {
      FirstNonEmptyNone(pending, from + 1);
    }
  }

  lemma {:induction false} FirstIsFirst(pending: seq<seq<S.JobId>>, from: nat)
    requires from <= |pending|
    ensures var first := FirstNonEmpty(pending, from);
      first.Some? ==> forall i | from <= i < first.value :: pending[i] == []
    decreases |pending| - from
  {
    if from < |pending| && pending[from] == [] {
      FirstIsFirst(pending, from + 1);
    }
  }

  /** A worker prefers its own shard and steals from the others. */
  function PickShard(pending: seq<seq<S.JobId>>, primary: nat): (r: Option<nat>)
    requires primary < |pending|
    ensures r.Some? ==> r.value < |pending| && pending[r.value] != []
  {
    if pending[primary] != [] then Some(primary) else FirstNonEmpty(pending, 0)
  }

  /** Stealing leaves nothing behind: no list is picked only if all are empty. */
  lemma StealsWhatThereIs(pending: seq<seq<S.JobId>>, primary: nat)
    requires primary < |pending|
    ensures PickShard(pending, primary).None? <==> forall i | 0 <= i < |pending| :: pending[i] == []
    ensures pending[primary] != [] ==> PickShard(pending, primary) == Some(primary)
    ensures var pick := PickShard(pending, primary);
      pick.Some? && pick.value != primary ==> forall i | 0 <= i < pick.value :: pending[i] == []
  {
    FirstNonEmptyNone(pending, 0);
    FirstIsFirst(pending, 0);
  }

  function Reserved(db: S.Db, primary: nat, worker: S.WorkerId, lease: int, now: int)
    : (S.Db, Option<S.JobId>, Option<S.Grant>)
    requires primary < |db.pending|
  {
    var pick := PickShard(db.pending, primary);
    if pick.None? then
      (db, None, None)
    else
      var (moved, id) := S.Move(db, pick.value);
      var (after, grant) := S.Claim(moved, id.value, worker, lease, now);
      (after, id, grant)
  }

  /** Undisturbed, a well-placed queued id that is picked is granted, with the next attempt number. */
  lemma PickedIsGranted(cfg: S.Config, db: S.Db, primary: nat, worker: S.WorkerId, lease: int, now: int)
    requires DbInv(cfg, db) && primary < cfg.shards && PickShard(db.pending, primary).Some?
    ensures var (after, job, grant) := Reserved(db, primary, worker, lease, now);
      && job.Some? && DbInv(cfg, after)
      && (job.value in db.jobs && db.jobs[job.value].status == S.Queued ==>
            && grant.Some? && grant.value.attempts == db.jobs[job.value].attempts + 1
            && db.jobs[job.value].request == Some(grant.value.request)
            && grant.value.shard == db.jobs[job.value].shard && grant.value.createdAt == db.jobs[job.value].createdAt
            && S.Owns(after, job.value, worker)
            && after.jobs[job.value].lease == lease && after.jobs[job.value].updatedAt == now
            && (now < lease ==> S.OwnsLive(after, job.value, worker, now)))
  {
    var pick := PickShard(db.pending, primary).value;
    var (moved, id) := S.Move(db, pick);
    MoveKeeps(cfg, db, pick);
    ClaimKeeps(cfg, moved, id.value, worker, lease, now);
    if id.value in db.jobs {
      assert Accounted(cfg, db, id.value);
    }
  }

  // ------------------------------------------------------------ due retries

  const BATCH: nat := 100

  function DueSet(retry: map<S.JobId, int>, now: int): set<S.JobId> {
    set id | id in retry && 0 <= retry[id] <= now
  }

  /** The order of a sorted set: by score, ties by member. */
  predicate Before(retry: map<S.JobId, int>, a: S.JobId, b: S.JobId)
    requires a in retry && b in retry
  {
    retry[a] < retry[b] || (retry[a] == retry[b] && a <= b)
  }

  lemma {:induction false} HasFirst(retry: map<S.JobId, int>, ids: set<S.JobId>) returns (first: S.JobId)
    requires ids <= retry.Keys && ids != {}
    ensures first in ids && forall id | id in ids :: Before(retry, first, id)
  {
    first :| first in ids;
    if ids != {first} {
      var rest := HasFirst(retry, ids - {first});
      assert forall id | id in ids :: id == first || id in ids - {first};
      if !Before(retry, first, rest) {
        first := rest;
      }
    }
  }

  lemma FirstExists(retry: map<S.JobId, int>, ids: set<S.JobId>)
    requires ids <= retry.Keys && ids != {}
    ensures exists first :: first in ids && forall id | id in ids :: Before(retry, first, id)
  {
    var first := HasFirst(retry, ids);
  }

  /** ZRANGEBYSCORE with a limit. */
  function DueIds(retry: map<S.JobId, int>, ids: set<S.JobId>, limit: nat): (r: seq<S.JobId>)
    requires ids <= retry.Keys
    ensures forall id | id in r :: id in ids
    ensures |r| <= limit
    ensures |r| < limit ==> forall id | id in ids :: id in r
    ensures forall id, other | id in r && other in ids && other !in r :: Before(retry, id, other)
  {
    if limit == 0 || ids == {} then
      []
    else
      FirstExists(retry, ids);
      var first :| first in ids && forall id | id in ids :: Before(retry, first, id);
      [first] + DueIds(retry, ids - {first}, limit - 1)
  }

  predicate ShardsOk(db: S.Db) {
    |db.pending| > 0 && forall id | id in db.jobs :: db.jobs[id].shard < |db.pending|
  }

  function ShardOf(db: S.Db, id: S.JobId): nat {
    if id in db.jobs then db.jobs[id].shard else 0
  }

  lemma PromoteKeepsShards(db: S.Db, id: S.JobId, now: int)
    requires ShardsOk(db)
    ensures ShardsOk(S.Promote(db, id, ShardOf(db, id), now).0)
  {
  }

  /** Promoting a list of ids one after the other. */
  function PromoteAll(db: S.Db, ids: seq<S.JobId>, now: int): (r: (S.Db, nat))
    requires ShardsOk(db)
    ensures ShardsOk(r.0) && |r.0.pending| == |db.pending|
  {
    if ids == [] then
      (db, 0)
    else
      var m := |ids| - 1;
      var (before, moved) := PromoteAll(db, ids[..m], now);
      var (after, ok) := S.Promote(before, ids[m], ShardOf(before, ids[m]), now);
      PromoteKeepsShards(before, ids[m], now);
      (after, if ok then moved + 1 else moved)
  }

  lemma PromoteAllShards(db: S.Db, ids: seq<S.JobId>, now: int, id: S.JobId)
    requires ShardsOk(db)
    ensures ShardOf(PromoteAll(db, ids, now).0, id) < |db.pending|
  {
    assert ShardsOk(PromoteAll(db, ids, now).0);
  }

  lemma PromoteAllNext(db: S.Db, ids: seq<S.JobId>, index: nat, now: int)
    requires ShardsOk(db) && index < |ids|
    ensures var (before, moved) := PromoteAll(db, ids[..index], now);
      var (after, ok) := S.Promote(before, ids[index], ShardOf(before, ids[index]), now);
      PromoteAll(db, ids[..index + 1], now) == (after, if ok then moved + 1 else moved)
  {
    assert ids[..index + 1][..index] == ids[..index];
  }

  lemma {:induction false} DueIdsDistinct(retry: map<S.JobId, int>, ids: set<S.JobId>, limit: nat)
    requires ids <= retry.Keys
    ensures NoDuplicates(DueIds(retry, ids, limit))
  {
    if limit != 0 && ids != {} {
      var first := DueIds(retry, ids, limit)[0];
      DueIdsDistinct(retry, ids - {first}, limit - 1);
    }
  }

  /** What promoting distinct due ids does to every job and to the retry set. */
  ghost predicate Promoted(before: S.Db, after: S.Db, ids: seq<S.JobId>) {
    && after.jobs.Keys == before.jobs.Keys
    && after.retry == before.retry - Elements(ids)
    && (forall id | id in before.jobs :: id in ids ==> after.jobs[id].status == S.Queued)
    && (forall id | id in before.jobs :: id !in ids ==> after.jobs[id] == before.jobs[id])
  }

  lemma PromoteOneMore(cfg: S.Config, db: S.Db, before: S.Db, ids: seq<S.JobId>, id: S.JobId, now: int)
    requires DbInv(cfg, before) && Promoted(db, before, ids)
    requires id !in ids && id in db.retry && db.retry[id] <= now
    requires ShardOf(before, id) < |before.pending|
    ensures Promoted(db, S.Promote(before, id, ShardOf(before, id), now).0, ids + [id])
  {
    if id in before.jobs {
      assert Placed(cfg, before, id);
    }
    var longer := ids + [id];
    assert Elements(longer) == Elements(ids) + {id};
  }

  lemma PromoteAllLast(db: S.Db, ids: seq<S.JobId>, now: int)
    requires ShardsOk(db) && ids != []
    ensures var last, before := ids[|ids| - 1], PromoteAll(db, ids[..|ids| - 1], now).0;
      && ShardOf(before, last) < |before.pending| == |db.pending|
      && PromoteAll(db, ids, now).0 == S.Promote(before, last, ShardOf(before, last), now).0
  {
    PromoteAllShards(db, ids[..|ids| - 1], now, ids[|ids| - 1]);
  }

  predicate AllDue(db: S.Db, ids: seq<S.JobId>, now: int) {
    forall id | id in ids :: id in db.retry && db.retry[id] <= now
  }

  lemma {:induction false} PromoteAllEffect(cfg: S.Config, db: S.Db, ids: seq<S.JobId>, now: int)
    requires DbInv(cfg, db) && ShardsOk(db) && NoDuplicates(ids) && AllDue(db, ids, now)
    ensures DbInv(cfg, PromoteAll(db, ids, now).0)
    ensures Promoted(db, PromoteAll(db, ids, now).0, ids)
  {
    if ids == [] {
      assert db.retry - Elements(ids) == db.retry;
    } else {
      var m := |ids| - 1;
      var front, last := ids[..m], ids[m];
      assert ids == front + [last];
      PromoteAllEffect(cfg, db, front, now);
      PromoteAllLast(db, ids, now);
      var before := PromoteAll(db, front, now).0;
      PromoteOneMore(cfg, db, before, front, last, now);
      PromoteKeeps(cfg, before, last, ShardOf(before, last), now);
    }
  }

  /** How many of some ids have a record. */
  function WithRecord(db: S.Db, ids: seq<S.JobId>): nat {
    if ids == [] then 0
    else WithRecord(db, ids[..|ids| - 1]) + if ids[|ids| - 1] in db.jobs then 1 else 0
  }

  lemma PromoteAllTally(db: S.Db, ids: seq<S.JobId>, now: int)
    requires ShardsOk(db) && ids != []
    ensures var last, (before, moved) := ids[|ids| - 1], PromoteAll(db, ids[..|ids| - 1], now);
      && ShardOf(before, last) < |before.pending|
      && PromoteAll(db, ids, now).1 == moved + if S.Promote(before, last, ShardOf(before, last), now).1 then 1 else 0
  {
    PromoteAllShards(db, ids[..|ids| - 1], now, ids[|ids| - 1]);
  }

  /** The number that a promotion of distinct due ids reports is that of the ids with a record. */
  lemma {:induction false} PromoteAllCount(cfg: S.Config, db: S.Db, ids: seq<S.JobId>, now: int)
    requires DbInv(cfg, db) && ShardsOk(db) && NoDuplicates(ids) && AllDue(db, ids, now)
    ensures PromoteAll(db, ids, now).1 == WithRecord(db, ids)
  {
    if ids != [] {
      var m := |ids| - 1;
      var front, last := ids[..m], ids[m];
      assert ids == front + [last];
      PromoteAllCount(cfg, db, front, now);
      PromoteAllEffect(cfg, db, front, now);
      PromoteAllTally(db, ids, now);
      LastCounts(cfg, db, PromoteAll(db, front, now).0, front, last, now);
    }
  }

  lemma LastCounts(cfg: S.Config, db: S.Db, before: S.Db, ids: seq<S.JobId>, id: S.JobId, now: int)
    requires DbInv(cfg, before) && Promoted(db, before, ids)
    requires id !in ids && id in db.retry && db.retry[id] <= now && ShardOf(before, id) < |before.pending|
    ensures S.Promote(before, id, ShardOf(before, id), now).1 <==> id in db.jobs
  {
    if id in before.jobs {
      assert Placed(cfg, before, id);
    }
  }

  /**
   * An undisturbed promotion makes every job of the batch queued, touches no
   * other job, and leaves nothing due unless the batch was full.
   */
  lemma PromotionIsComplete(cfg: S.Config, db: S.Db, now: int)
    requires DbInv(cfg, db) && ShardsOk(db)
    ensures var due := DueIds(db.retry, DueSet(db.retry, now), BATCH); var after := PromoteAll(db, due, now).0;
      && DbInv(cfg, after) && Promoted(db, after, due)
      && (forall id | id in due :: id in db.retry && 0 <= db.retry[id] <= now)
      && (|due| < BATCH ==> forall id | id in after.retry :: !(0 <= after.retry[id] <= now))
      && PromoteAll(db, due, now).1 == WithRecord(db, due)
  {
    var ready := DueSet(db.retry, now);
    var due := DueIds(db.retry, ready, BATCH);
    DueIdsDistinct(db.retry, ready, BATCH);
    PromoteAllEffect(cfg, db, due, now);
    PromoteAllCount(cfg, db, due, now);
    assert forall id | id in due :: id in ready;
  }
}
