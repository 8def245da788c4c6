// Concrete runs that mark where the guarantees stop.
module Witnesses {
  import opened Lists
  import opened Scripts
  import opened Protocol
  import opened Placement

  const ONE := Config(1, 1, 1, 10)
  const TWO_TRIES := Config(1, 1, 2, 10)
  const TO_STORE := Request(7, Store(5, WriteOverwrite))
  const INLINE := Request(7, Inline)

  lemma Extend(cfg: Config, steps: seq<Step>, step: Step)
    ensures Run(cfg, steps + [step]) == Apply(cfg, Run(cfg, steps), step)
  {
    assert (steps + [step])[..|steps + [step]| - 1] == steps;
  }

  lemma Empty(cfg: Config)
    ensures Run(cfg, []) == Init(cfg)
  {
  }

  lemma EmptyDepth(cfg: Config)
    requires cfg.shards == 1
    ensures Depth(EmptyDb(cfg)) == 0 && EmptyDb(cfg).pending == [[]]
  {
    assert EmptyDb(cfg).pending[0] == [];
    assert EmptyDb(cfg).pending == [[]];
    assert TotalLength<JobId>([[]]) == 0 + TotalLength<JobId>([[]][1..]);
  }

  lemma AfterSubmit(cfg: Config, request: Request)
    requires ValidConfig(cfg) && cfg.shards == 1
    ensures Run(cfg, [Client(Submit(0, request, 0, 0, None))]) ==
            Sys(EmptyDb(cfg).(jobs := map[0 := NewJob(request, 0, 0)], pending := [[0]]), 0, {0}, map[],
                [Replied(None, request.hash, Created(0))])
  {
    var submit := Client(Submit(0, request, 0, 0, None));
    Empty(cfg);
    Extend(cfg, [], submit);
    assert [] + [submit] == [submit];
    EmptyDepth(cfg);
    assert [0] + [] == [0];
    assert EmptyDb(cfg).pending[0 := [0]] == [[0]];
    assert [] + [Replied(None, request.hash, Created(0))] == [Replied(None, request.hash, Created(0))];
    assert {} + {0} == {0};
  }

  /** One submitted job, id 0, and the worker 1 that moved it to the processing list. */
  lemma AfterMove(cfg: Config, request: Request) returns (steps: seq<Step>)
    requires ValidConfig(cfg) && cfg.shards == 1
    ensures var s := Run(cfg, steps);
      && s.db == EmptyDb(cfg).(jobs := map[0 := NewJob(request, 0, 0)], processing := [0])
      && s.clock == 0 && s.used == {0} && s.workers == map[1 := Moved(0)]
      && s.history == [Replied(None, request.hash, Created(0))]
  {
    var submit := Client(Submit(0, request, 0, 0, None));
    var move := Loop(1, MoveOne(0));
    AfterSubmit(cfg, request);
    Extend(cfg, [submit], move);
    steps := [submit] + [move];
    assert [[0]][0 := []] == [[]];
    EmptyDepth(cfg);
    assert [0][..0] == [];
    assert [0] + [] == [0];
  }

  /**
   * Two reapers that both see the job queued return it twice: the raw depth
   * goes over the limit, although one job exists.
   */
  lemma RawDepthCanExceedLimit() returns (steps: seq<Step>)
    ensures var db := Run(ONE, steps).db;
      db.pending == [[0, 0]] && Depth(db) == 2 && |Live(db)| == 1 == ONE.maxDepth
  {
    var before := AfterMove(ONE, INLINE);
    var reap := Upkeep(ReapOne(0, 0, 0, 0, 1));
    Extend(ONE, before, reap);
    Extend(ONE, before + [reap], reap);
    steps := before + [reap] + [reap];
    assert [0] + [] == [0] && [0] + [0] == [0, 0];
    assert Run(ONE, before).db.pending[0] == [];
    assert Run(ONE, before + [reap]).db.pending == [[0]];
    assert Run(ONE, steps).db.pending == [[0, 0]];
    assert TotalLength([[0, 0]]) == 2 + TotalLength([[0, 0]][1..]);
    assert Live(Run(ONE, steps).db) == {0};
  }

  /** A job claimed under a worker id, reaped at the end of that lease, promoted when due, and moved again. */
  function Requeued(db: Db, id: JobId, w: WorkerId, shard: nat, lease: int, due: int): (r: Db)
    requires shard < |db.pending|
    ensures |r.pending| == |db.pending|
  {
    var claimed := Claim(db, id, w, lease, 0).0;
    var reaped := Reap(claimed, id, shard, lease, lease, 2, due).0;
    Move(Promote(reaped, id, shard, due).0, shard).0
  }

  /** The first attempt is granted, reaped, promoted and listed for a claim again. */
  lemma RequeuedIsClaimable(db: Db, id: JobId, w: WorkerId, shard: nat, lease: int, due: int)
    requires shard < |db.pending| && db.pending[shard] == [] && id in db.processing
    requires id in db.jobs && db.jobs[id].status == Queued && db.jobs[id].attempts == 0 && db.jobs[id].request.Some?
    ensures Claim(db, id, w, lease, 0).1.Some? && Claim(db, id, w, lease, 0).1.value.attempts == 1
    ensures var again := Requeued(db, id, w, shard, lease, due);
      && id in again.processing && id in again.jobs && again.jobs[id].status == Queued
      && again.jobs[id].attempts == 1 && again.jobs[id].request.Some?
  {
    var claimed := Claim(db, id, w, lease, 0).0;
    var reaped := Reap(claimed, id, shard, lease, lease, 2, due).0;
    assert reaped.jobs[id].status == Retrying && reaped.retry[id] == due;
    var promoted := Promote(reaped, id, shard, due).0;
    assert promoted.pending[shard] == [id] + [];
  }

  /**
   * Fencing is a property of the worker's loop, not of the script.  If two
   * processes had one worker id and each were granted an attempt, the call
   * that the first makes for attempt 1 would be accepted in attempt 2.
   */
  lemma ScriptComparesOnlyWorkerIds(
      db: Db, id: JobId, w: WorkerId, shard: nat, lease: int, due: int, later: int, dest: Dest, nonce: nat, now: int)
    requires shard < |db.pending| && db.pending[shard] == [] && id in db.processing
    requires id in db.jobs && db.jobs[id].status == Queued && db.jobs[id].attempts == 0 && db.jobs[id].request.Some?
    requires now < later
    ensures var first := Claim(db, id, w, lease, 0).1;
      var (running, second) := Claim(Requeued(db, id, w, shard, lease, due), id, w, later, due);
      && first.Some? && first.value.attempts == 1
      && second.Some? && second.value.attempts == 2
      && var older := StoredResult(Manifest(dest, id, AttemptId(1, nonce)));
         var (after, accepted) := Complete(running, id, w, older, now);
         accepted && id in after.jobs && after.jobs[id].attempts == 2 && after.jobs[id].result == Some(older)
  {
    RequeuedIsClaimable(db, id, w, shard, lease, due);
  }

  /** The first attempt of job 0, claimed by worker 1 at time 0. */
  lemma AfterClaim(cfg: Config, request: Request) returns (steps: seq<Step>)
    requires ValidConfig(cfg) && cfg.shards == 1
    ensures var s := Run(cfg, steps);
      && s.db == EmptyDb(cfg).(jobs := map[0 := FirstAttempt(cfg, request)], processing := [0])
      && s.clock == 0 && s.workers == map[1 := Holding(0, 1, request, None)]
      && Claimed(0, 1, 1, 0, 0) in s.history
  {
    var before := AfterMove(cfg, request);
    var claim := Loop(1, ClaimMoved(0));
    Extend(cfg, before, claim);
    steps := before + [claim];
  }

  function FirstAttempt(cfg: Config, request: Request): Job {
    NewJob(request, 0, 0).(status := Running, attempts := 1, worker := Some(1), lease := cfg.leaseMs)
  }

  /** A cancellation recorded in attempt 1, and a retryable failure of that attempt. */
  lemma AfterLostCancel() returns (steps: seq<Step>)
    ensures var s := Run(TWO_TRIES, steps);
      && s.db.jobs.Keys == {0} && s.db.jobs[0].status == Retrying && s.db.jobs[0].cancelRequested
      && s.db.jobs[0].attempts == 1 && s.db.jobs[0].shard == 0 && s.db.jobs[0].request == Some(INLINE)
      && s.db.pending == [[]] && s.db.processing == [] && s.db.retry == map[0 := 1]
      && s.clock == 1 && PcOf(s, 1) == Idle
  {
    var before := AfterClaim(TWO_TRIES, INLINE);
    var cancel := Client(RequestCancel(0, 0, 0));
    var retry := Held(1, RetryHeld(NoMessage, 0, 1, 0));
    var tick := Tick(1);
    Extend(TWO_TRIES, before, cancel);
    Extend(TWO_TRIES, before + [cancel], retry);
    Extend(TWO_TRIES, before + [cancel] + [retry], tick);
    steps := before + [cancel] + [retry] + [tick];
    EmptyDepth(TWO_TRIES);
    assert RemoveFirst([0], 0) == [];
    assert Run(TWO_TRIES, before + [cancel]).db.jobs[0].cancelRequested;
  }

  /** The lost cancellation's job on its next attempt. */
  lemma NextAttempt() returns (steps: seq<Step>, earlier: seq<Step>)
    ensures earlier <= steps
    ensures Run(TWO_TRIES, earlier).db.jobs.Keys == {0} && Run(TWO_TRIES, earlier).db.jobs[0].cancelRequested
    ensures var s := Run(TWO_TRIES, steps);
      && s.db.jobs.Keys == {0} && PcOf(s, 1).Holding? && PcOf(s, 1).job == 0 && PcOf(s, 1).request == INLINE
      && OwnsLive(s.db, 0, 1, 1) && !s.db.jobs[0].cancelRequested && s.clock == 1
  {
    earlier := AfterLostCancel();
    var promote := Upkeep(PromoteOne(0, 0, 1));
    var move := Loop(1, MoveOne(0));
    var claim := Loop(1, ClaimMoved(1));
    Extend(TWO_TRIES, earlier, promote);
    Extend(TWO_TRIES, earlier + [promote], move);
    Extend(TWO_TRIES, earlier + [promote] + [move], claim);
    steps := earlier + [promote] + [move] + [claim];
    var a := Run(TWO_TRIES, earlier + [promote]);
    assert a.db.pending[0] == [0];
    var b := Run(TWO_TRIES, earlier + [promote] + [move]);
    assert PcOf(b, 1) == Moved(0) && b.db.processing[0] == 0;
  }

  /** The retry script does not look at the recorded cancellation, and the next claim forgets it. */
  lemma CancelCanBeLost() returns (steps: seq<Step>, earlier: seq<Step>)
    ensures earlier <= steps
    ensures Run(TWO_TRIES, earlier).db.jobs.Keys == {0} && Run(TWO_TRIES, earlier).db.jobs[0].cancelRequested
    ensures Run(TWO_TRIES, steps).db.jobs.Keys == {0} && Run(TWO_TRIES, steps).db.jobs[0].status == Succeeded
  {
    var before;
    before, earlier := NextAttempt();
    var complete := Held(1, CompleteHeld(9, 1));
    Extend(TWO_TRIES, before, complete);
    steps := before + [complete];
  }

  /**
   * A lease counts from the clock reading its claim carried, not from the time
   * the claim took effect: a slow claim can be reaped at once.
   */
  lemma LeaseCountsFromReading() returns (steps: seq<Step>, read: nat, at: nat)
    ensures ValidConfig(ONE)
    ensures Claimed(0, 1, 1, read, at) in Run(ONE, steps).history
    ensures Run(ONE, steps).db.jobs.Keys == {0} && Run(ONE, steps).db.jobs[0].status == Failed
    ensures Run(ONE, steps).clock < at + ONE.leaseMs
  {
    var before := AfterMove(ONE, INLINE);
    read, at := 0, 10;
    var tick := Tick(10);
    var claim := Loop(1, ClaimMoved(0));
    var reap := Upkeep(ReapOne(0, 0, 10, 10, 1));
    Extend(ONE, before, tick);
    Extend(ONE, before + [tick], claim);
    Extend(ONE, before + [tick] + [claim], reap);
    steps := before + [tick] + [claim] + [reap];
    var b := Run(ONE, before + [tick] + [claim]);
    assert b.db.jobs[0].status == Running && b.db.jobs[0].lease == 10;
  }

  /** An accepted publication does not promise a success: the worker may die before it completes the job. */
  lemma PublishedJobCanFail() returns (steps: seq<Step>, manifest: Manifest)
    ensures var s := Run(ONE, steps);
      && s.db.jobs.Keys == {0} && s.db.jobs[0].status == Failed && s.db.jobs[0].result.None?
      && 5 in s.db.pubs && s.db.pubs[5].current == Some(Pointer(0, manifest.attempt, manifest))
  {
    var before := AfterClaim(ONE, TO_STORE);
    manifest := Manifest(5, 0, AttemptId(1, 3));
    var publish := Held(1, PublishHeld(3, 0));
    var crash := Loop(1, Crash);
    var tick := Tick(10);
    var reap := Upkeep(ReapOne(0, 0, 10, 10, 1));
    Extend(ONE, before, publish);
    Extend(ONE, before + [publish], crash);
    Extend(ONE, before + [publish] + [crash], tick);
    Extend(ONE, before + [publish] + [crash] + [tick], reap);
    steps := before + [publish] + [crash] + [tick] + [reap];
    var a := Run(ONE, before + [publish]);
    assert a.db.jobs == map[0 := FirstAttempt(ONE, TO_STORE)] && a.db.pubs.Keys == {5};
  }
}
