// What holds in every run of the queue.
module Guarantees {
  import opened Lists
  import opened Scripts
  import opened Protocol
  import opened Placement
  import opened Evolution
  import opened Fencing
  import opened Registry
  import opened Timing

  ghost predicate Good(cfg: Config, s: Sys) {
    && DbInv(cfg, s.db)
    && Known(s)
    && Fenced(s)
    && Timed(cfg, s)
    && (forall dest :: RecordOk(s.db.pubs, s.history, dest) && Exclusive(s.history, dest))
  }

  lemma InitGood(cfg: Config)
    requires ValidConfig(cfg)
    ensures Good(cfg, Init(cfg))
  {
    assert Live(Init(cfg).db) == {};
  }

  lemma StepKeepsGood(cfg: Config, s: Sys, step: Step)
    requires ValidConfig(cfg) && Good(cfg, s)
    ensures Good(cfg, Apply(cfg, s, step))
  {
    StepKeepsDbInv(cfg, s, step);
    StepKeepsKnown(cfg, s, step);
    StepKeepsFenced(cfg, s, step);
    StepKeepsTimed(cfg, s, step);
    forall dest
      ensures RecordOk(Apply(cfg, s, step).db.pubs, Apply(cfg, s, step).history, dest)
      ensures Exclusive(Apply(cfg, s, step).history, dest)
    {
      RecordStaysOk(cfg, s, step, dest);
      ExclusiveStays(cfg, s, step, dest);
    }
  }

  lemma {:induction false} RunKeepsGood(cfg: Config, s: Sys, steps: seq<Step>)
    requires ValidConfig(cfg) && Good(cfg, s)
    ensures Good(cfg, RunFrom(cfg, s, steps))
  {
    if steps != [] {
      var m := |steps| - 1;
      RunKeepsGood(cfg, s, steps[..m]);
      StepKeepsGood(cfg, RunFrom(cfg, s, steps[..m]), steps[m]);
    }
  }

  /** The invariant holds in every reachable state. */
  lemma Reachable(cfg: Config, steps: seq<Step>)
    requires ValidConfig(cfg)
    ensures Good(cfg, Run(cfg, steps))
  {
    InitGood(cfg);
    RunKeepsGood(cfg, Init(cfg), steps);
  }

  // ------------------------------------------------------------ no job is lost

  /**
   * In every reachable state, whatever was split, stale, duplicated or crashed:
   * an unexpired job is where some worker, reaper or promotion will find it.
   */
  lemma NoJobIsLost(cfg: Config, steps: seq<Step>, id: JobId)
    requires ValidConfig(cfg) && id in Run(cfg, steps).db.jobs
    ensures var db := Run(cfg, steps).db; var job := db.jobs[id];
      && job.shard < |db.pending|
      && (job.status == Queued ==> id in db.pending[job.shard] || id in db.processing)
      && (job.status == Running ==> id in db.processing)
      && (job.status == Retrying <==> id in db.retry)
  {
    Reachable(cfg, steps);
    assert Placed(cfg, Run(cfg, steps).db, id);
  }

  /** The number of distinct live jobs never exceeds the depth limit. */
  lemma LiveJobsBounded(cfg: Config, steps: seq<Step>)
    requires ValidConfig(cfg)
    ensures |Live(Run(cfg, steps).db)| <= cfg.maxDepth
  {
    Reachable(cfg, steps);
  }

  /** Attempts stay within the budget, and the dead list is exactly the failed jobs, each once. */
  lemma BudgetAndDeadList(cfg: Config, steps: seq<Step>, id: JobId)
    requires ValidConfig(cfg) && id in Run(cfg, steps).db.jobs
    ensures var db := Run(cfg, steps).db; var job := db.jobs[id];
      && job.attempts <= cfg.maxAttempts
      && (job.status == Queued || job.status == Retrying ==> job.attempts < cfg.maxAttempts)
      && (id in db.dead <==> job.status == Failed)
      && NoDuplicates(db.dead)
  {
    Reachable(cfg, steps);
    assert Accounted(cfg, Run(cfg, steps).db, id);
  }

  // ------------------------------------------------------------------ fencing

  /**
   * A call on behalf of attempt `n` changes nothing once the job's attempt is
   * another one, although the scripts never compare the two numbers.
   */
  lemma HeldCallsFenced(cfg: Config, steps: seq<Step>, w: WorkerId, call: HeldCall)
    requires ValidConfig(cfg)
    requires var s := Run(cfg, steps);
      && HeldEnabled(s, w, call)
      && (HeldJob(s, w) in s.db.jobs ==> s.db.jobs[HeldJob(s, w)].attempts != PcOf(s, w).attempt)
    ensures ApplyHeld(cfg, Run(cfg, steps), w, call).db == Run(cfg, steps).db
  {
    Reachable(cfg, steps);
    assert WorkerOk(Run(cfg, steps), w);
  }

  // -------------------------------------------------------------- publication

  /**
   * Accepted publications of one job have strictly increasing attempt numbers,
   * and none is accepted after a later attempt was claimed.
   */
  lemma PublicationOrder(cfg: Config, steps: seq<Step>, i: nat, k: nat)
    requires ValidConfig(cfg) && i < k < |Run(cfg, steps).history|
    ensures var h := Run(cfg, steps).history;
      && (h[i].Accepted? && h[k].Accepted? && h[i].query == h[k].query ==> h[i].attemptId.number < h[k].attemptId.number)
      && (h[i].Claimed? && h[k].Accepted? && h[i].job == h[k].query ==> h[i].attempt <= h[k].attemptId.number)
  {
    Reachable(cfg, steps);
    assert InOrder(Run(cfg, steps).history[i], Run(cfg, steps).history[k]);
  }

  /** If all writers to a destination use `error` mode, one query id is ever accepted there. */
  lemma ErrorModeIsExclusive(cfg: Config, steps: seq<Step>, dest: Dest, a: Event, b: Event)
    requires ValidConfig(cfg)
    requires var h := Run(cfg, steps).history;
      && a in h && b in h && AcceptedAt(a, dest) && AcceptedAt(b, dest)
      && (forall e | e in h && AcceptedAt(e, dest) :: e.mode == WriteError)
    ensures a.query == b.query
  {
    Reachable(cfg, steps);
    assert Exclusive(Run(cfg, steps).history, dest);
  }

  /** All publications at a destination that move the given pointer are by one query. */
  ghost predicate OnlyWriter(history: seq<Event>, dest: Dest, appends: bool, query: JobId) {
    forall e | e in history && AcceptedAt(e, dest) && (e.mode == WriteAppend) == appends :: e.query == query
  }

  lemma {:induction false} LastAtIsNewest(history: seq<Event>, dest: Dest, appends: bool, e: Event)
    requires Ordered(history) && e in history && AcceptedAt(e, dest) && (e.mode == WriteAppend) == appends
    requires OnlyWriter(history, dest, appends, e.query)
    requires forall x | x in history && x.Accepted? && x.query == e.query :: x.attemptId.number <= e.attemptId.number
    ensures LastAt(history, dest, appends) == Some(Pointer(e.query, e.attemptId, e.manifest))
  {
    var m := |history| - 1;
    var last := history[m];
    if last != e {
      var i :| 0 <= i < |history| && history[i] == e;
      assert InOrder(history[i], last);
      var shorter := history[..m];
      assert shorter[i] == e;
      assert forall x | x in shorter :: x in history;
      LastAtIsNewest(shorter, dest, appends, e);
    }
  }

  /** The accepted publication behind a stored result. */
  function PublicationOf(job: Job, id: JobId): (e: Event)
    requires job.request.Some? && job.request.value.delivery.Store? && job.result.Some? && job.result.value.StoredResult?
  {
    var Store(dest, mode) := job.request.value.delivery;
    var manifest := job.result.value.manifest;
    Accepted(id, manifest.attempt, dest, mode, manifest)
  }

  /**
   * End to end: a succeeded store-mode job carries the manifest of the attempt
   * on record, the publication of that attempt was accepted, and no later
   * publication of the job was.
   */
  lemma StoredResultWasPublished(cfg: Config, steps: seq<Step>, id: JobId)
    requires ValidConfig(cfg)
    requires var s := Run(cfg, steps);
      && id in s.db.jobs && s.db.jobs[id].status == Succeeded
      && s.db.jobs[id].request.Some? && s.db.jobs[id].request.value.delivery.Store?
    ensures var s := Run(cfg, steps); var job := s.db.jobs[id];
      && job.result.Some? && job.result.value.StoredResult?
      && var e := PublicationOf(job, id);
         && e in s.history
         && e.attemptId.number == job.attempts
         && e.manifest == Manifest(e.dest, id, e.attemptId)
         && (forall x | x in s.history && x.Accepted? && x.query == id :: x.attemptId.number <= e.attemptId.number)
  {
    Reachable(cfg, steps);
    var s := Run(cfg, steps);
    assert ResultOk(s, id);
    forall x | x in s.history && x.Accepted? && x.query == id
      ensures x.attemptId.number <= s.db.jobs[id].attempts
    {
      assert EventOk(s, x);
    }
  }

  /** Without another writer of the same kind the publication record still names that manifest. */
  lemma RecordStillNamesResult(cfg: Config, steps: seq<Step>, id: JobId)
    requires ValidConfig(cfg)
    requires var s := Run(cfg, steps);
      && id in s.db.jobs && s.db.jobs[id].status == Succeeded
      && s.db.jobs[id].request.Some? && s.db.jobs[id].request.value.delivery.Store?
      && var Store(dest, mode) := s.db.jobs[id].request.value.delivery;
         OnlyWriter(s.history, dest, mode == WriteAppend, id)
    ensures var s := Run(cfg, steps);
      && s.db.jobs[id].result.Some? && s.db.jobs[id].result.value.StoredResult?
      && var e := PublicationOf(s.db.jobs[id], id);
         && e.dest in s.db.pubs
         && (if e.mode == WriteAppend then s.db.pubs[e.dest].lastAppend else s.db.pubs[e.dest].current)
            == Some(Pointer(id, e.attemptId, e.manifest))
  {
    StoredResultWasPublished(cfg, steps, id);
    Reachable(cfg, steps);
    var s := Run(cfg, steps);
    var e := PublicationOf(s.db.jobs[id], id);
    LastAtIsNewest(s.history, e.dest, e.mode == WriteAppend, e);
    assert RecordOk(s.db.pubs, s.history, e.dest);
    assert UsedAt(s.history, e.dest);
  }

  // ------------------------------------------------------------------- timing

  /**
   * The reaper takes a running job exactly when it knows the current lease and
   * its own clock reading is at least a lease after the reading of the last
   * claim or accepted heartbeat.
   */
  lemma ReaperWaitsForLease(cfg: Config, steps: seq<Step>, call: UpkeepCall)
    requires ValidConfig(cfg) && call.ReapOne? && UpkeepEnabled(cfg, Run(cfg, steps), call)
    requires call.id in Run(cfg, steps).db.jobs && Run(cfg, steps).db.jobs[call.id].status == Running
    ensures var s := Run(cfg, steps); var read := LastRead(s.history, call.id);
      && read.Some?
      && ((ApplyUpkeep(cfg, s, call).db.jobs[call.id].status != Running) <==>
          (call.lease == read.value + cfg.leaseMs && call.now >= read.value + cfg.leaseMs))
  {
    Reachable(cfg, steps);
    assert LeaseOk(cfg, Run(cfg, steps), call.id);
  }

  /** The attempt after a delayed one is not claimed before the time the delay set. */
  lemma RetryWaits(cfg: Config, steps: seq<Step>, i: nat, k: nat)
    requires ValidConfig(cfg) && i < k < |Run(cfg, steps).history|
    requires var h := Run(cfg, steps).history;
      h[i].Delayed? && h[k].Claimed? && h[i].job == h[k].job && h[k].attempt == h[i].attempt + 1
    ensures Run(cfg, steps).history[i].due <= Run(cfg, steps).history[k].at
  {
    Reachable(cfg, steps);
    assert Waited(Run(cfg, steps).history[i], Run(cfg, steps).history[k]);
  }
}
