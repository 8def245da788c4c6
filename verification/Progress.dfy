// No job is stuck: from every reachable state each live job can be driven to a
// terminal status without any worker that exists in that state, by steps the
// code can take.
module Progress {
  import opened Scripts
  import opened Protocol
  import opened Placement
  import opened Evolution
  import opened Guarantees
  import opened Lifecycle

  /** Time, new workers' moves and claims, reaping and promotion: no help from the workers in `known`. */
  predicate Unaided(step: Step, known: set<WorkerId>) {
    match step
    case Tick(_) => true
    case Loop(w, call) => w !in known && (call.MoveOne? || call.ClaimMoved?)
    case Upkeep(call) => call.ReapOne? || call.PromoteOne?
    case _ => false
  }

  /** A turn of `reap_stale` that reads the clock and the job now: an id of the processing list it would not skip. */
  predicate SweepTurn(s: Sys, call: UpkeepCall)
    requires call.ReapOne?
  {
    && call.id in s.db.processing && call.id in s.db.jobs
    && call.shard == s.db.jobs[call.id].shard && call.lease == s.db.jobs[call.id].lease
    && call.now == s.clock && call.delay >= 1
    && !(s.db.jobs[call.id].status == Running && s.db.jobs[call.id].lease > s.clock)
  }

  /** A turn of `promote_retries` that reads the clock and the retry set now: a due id. */
  predicate PromotionTurn(s: Sys, call: UpkeepCall)
    requires call.PromoteOne?
  {
    && call.id in s.db.retry && call.id in s.db.jobs && s.db.retry[call.id] <= s.clock
    && call.shard == s.db.jobs[call.id].shard && call.now == s.clock
  }

  /** A step as the code takes it when nothing is stale: each reading is current, each id is one its caller found. */
  predicate Current(cfg: Config, s: Sys, step: Step) {
    match step
    case Tick(_) => true
    case Loop(w, call) => LoopEnabled(cfg, s, w, call) && (call.ClaimMoved? ==> call.now == s.clock)
    case Upkeep(call) =>
      UpkeepEnabled(cfg, s, call) && (call.ReapOne? ==> SweepTurn(s, call)) && (call.PromoteOne? ==> PromotionTurn(s, call))
    case _ => false
  }

  /** Every step of a run from `s` is unaided and current. */
  ghost predicate Genuine(cfg: Config, s: Sys, steps: seq<Step>, known: set<WorkerId>)
    requires |s.db.pending| == cfg.shards
  {
    steps == [] ||
    var m := |steps| - 1;
    && Genuine(cfg, s, steps[..m], known)
    && Unaided(steps[m], known) && Current(cfg, RunFrom(cfg, s, steps[..m]), steps[m])
  }

  /** Step by step, the same. */
  lemma {:induction false} GenuineAt(cfg: Config, s: Sys, steps: seq<Step>, known: set<WorkerId>, i: nat)
    requires |s.db.pending| == cfg.shards && Genuine(cfg, s, steps, known) && i < |steps|
    ensures Unaided(steps[i], known) && Current(cfg, RunFrom(cfg, s, steps[..i]), steps[i])
  {
    var m := |steps| - 1;
    if i < m {
      GenuineAt(cfg, s, steps[..m], known, i);
      assert steps[..m][..i] == steps[..i];
    }
  }

  lemma {:induction false} GenuineAppend(cfg: Config, s: Sys, a: seq<Step>, b: seq<Step>, known: set<WorkerId>)
    requires |s.db.pending| == cfg.shards
    requires Genuine(cfg, s, a, known) && Genuine(cfg, RunFrom(cfg, s, a), b, known)
    ensures Genuine(cfg, s, a + b, known)
  {
    if b == [] {
      assert a + b == a;
    } else {
      var m := |b| - 1;
      GenuineAppend(cfg, s, a, b[..m], known);
      RunAppend(cfg, s, a, b[..m]);
      assert (a + b)[..|a + b| - 1] == a + b[..m];
    }
  }

  lemma GenuineTwo(cfg: Config, s: Sys, a: Step, b: Step, known: set<WorkerId>)
    requires |s.db.pending| == cfg.shards
    requires Unaided(a, known) && Current(cfg, s, a) && Unaided(b, known) && Current(cfg, Apply(cfg, s, a), b)
    ensures Genuine(cfg, s, Two(a, b), known)
  {
    RunOne(cfg, s, a);
    GenuineOne(cfg, s, a, known);
    assert Two(a, b)[..1] == [a];
  }

  lemma GenuineOne(cfg: Config, s: Sys, a: Step, known: set<WorkerId>)
    requires |s.db.pending| == cfg.shards && Unaided(a, known) && Current(cfg, s, a)
    ensures Genuine(cfg, s, [a], known)
  {
    assert [a][..|[a]| - 1] == [];
    assert RunFrom(cfg, s, [a][..|[a]| - 1]) == s;
  }

  lemma FreshId(taken: set<nat>) returns (w: nat)
    ensures w !in taken && forall x | x in taken :: x < w
  {
    w := 0;
    if taken != {} {
      var x :| x in taken;
      var rest := FreshId(taken - {x});
      w := if x < rest then rest else x + 1;
      assert forall y | y in taken :: y == x || y in taken - {x};
    }
  }

  ghost predicate HasJob(s: Sys, id: JobId, status: Status) {
    id in s.db.jobs && s.db.jobs[id].status == status
  }

  ghost predicate Ready(cfg: Config, s: Sys, known: set<WorkerId>) {
    ValidConfig(cfg) && Good(cfg, s) && known <= s.workers.Keys
  }

  function Two(a: Step, b: Step): seq<Step> {
    [a, b]
  }

  lemma RunTwo(cfg: Config, s: Sys, a: Step, b: Step)
    requires |s.db.pending| == cfg.shards
    ensures RunFrom(cfg, s, Two(a, b)) == Apply(cfg, Apply(cfg, s, a), b)
  {
    assert Two(a, b)[..1] == [a];
    assert [a][..0] == [];
    assert RunFrom(cfg, s, [a]) == Apply(cfg, RunFrom(cfg, s, [a][..0]), a);
  }

  lemma RunOne(cfg: Config, s: Sys, a: Step)
    requires |s.db.pending| == cfg.shards
    ensures RunFrom(cfg, s, [a]) == Apply(cfg, s, a)
  {
    assert [a][..0] == [];
  }

  /** The time from now until `due`. */
  function Until(s: Sys, due: int): nat {
    if due <= s.clock then 0 else due - s.clock
  }

  lemma PromoteRetrying(cfg: Config, s: Sys, known: set<WorkerId>, id: JobId) returns (steps: seq<Step>)
    requires Ready(cfg, s, known) && HasJob(s, id, Retrying)
    ensures Genuine(cfg, s, steps, known)
    ensures var t := RunFrom(cfg, s, steps); known <= t.workers.Keys && HasJob(t, id, Queued)
  {
    assert Placed(cfg, s.db, id);
    var wait := Tick(Until(s, s.db.retry[id]));
    var later := Apply(cfg, s, wait);
    var promote := PromoteOne(id, s.db.jobs[id].shard, later.clock);
    steps := Two(wait, Upkeep(promote));
    RunTwo(cfg, s, wait, Upkeep(promote));
    GenuineTwo(cfg, s, wait, Upkeep(promote), known);
  }

  lemma ReapRunning(cfg: Config, s: Sys, known: set<WorkerId>, id: JobId) returns (steps: seq<Step>)
    requires Ready(cfg, s, known) && HasJob(s, id, Running)
    ensures Genuine(cfg, s, steps, known)
    ensures var t := RunFrom(cfg, s, steps);
      known <= t.workers.Keys && id in t.db.jobs && t.db.jobs[id].status != Running
  {
    assert Placed(cfg, s.db, id);
    var lease := s.db.jobs[id].lease;
    var wait := Tick(Until(s, lease));
    var later := Apply(cfg, s, wait);
    var reap := ReapOne(id, s.db.jobs[id].shard, lease, later.clock, 1);
    steps := Two(wait, Upkeep(reap));
    RunTwo(cfg, s, wait, Upkeep(reap));
    GenuineTwo(cfg, s, wait, Upkeep(reap), known);
  }

  /** A queued id that is only in the processing list goes back to its shard's pending list. */
  lemma ReturnQueued(cfg: Config, s: Sys, known: set<WorkerId>, id: JobId) returns (step: Step)
    requires Ready(cfg, s, known) && HasJob(s, id, Queued) && id in s.db.processing
    ensures Unaided(step, known) && Current(cfg, s, step)
    ensures var t := Apply(cfg, s, step);
      && known <= t.workers.Keys && HasJob(t, id, Queued)
      && t.db.jobs[id].shard < |t.db.pending| && id in t.db.pending[t.db.jobs[id].shard]
  {
    assert Placed(cfg, s.db, id);
    var shard := s.db.jobs[id].shard;
    var reap := ReapOne(id, shard, s.db.jobs[id].lease, s.clock, 1);
    step := Upkeep(reap);
    assert UpkeepEnabled(cfg, s, reap);
    assert ([id] + s.db.pending[shard])[0] == id;
  }

  /** One more new worker takes the id at the tail of the job's pending list. */
  lemma MoveTail(cfg: Config, s: Sys, known: set<WorkerId>, id: JobId, w: WorkerId)
    requires Ready(cfg, s, known) && HasJob(s, id, Queued) && w !in s.workers
    requires s.db.jobs[id].shard < cfg.shards && id in s.db.pending[s.db.jobs[id].shard]
    ensures var shard := s.db.jobs[id].shard; var list := s.db.pending[shard]; var t := Apply(cfg, s, Loop(w, MoveOne(shard)));
      && known <= t.workers.Keys && t.db.jobs == s.db.jobs && t.clock == s.clock
      && |t.db.pending| == cfg.shards && t.db.pending[shard] == list[..|list| - 1]
      && PcOf(t, w) == Moved(list[|list| - 1])
      && list[|list| - 1] in t.db.processing
  {
  }

  lemma ClaimTaken(cfg: Config, s: Sys, known: set<WorkerId>, id: JobId, w: WorkerId)
    requires Ready(cfg, s, known) && HasJob(s, id, Queued) && PcOf(s, w) == Moved(id) && id in s.db.processing
    ensures var t := Apply(cfg, s, Loop(w, ClaimMoved(s.clock))); known <= t.workers.Keys && HasJob(t, id, Running)
  {
    assert Accounted(cfg, s.db, id);
  }

  /** The claim of another id leaves this job and its pending list alone. */
  lemma ClaimOther(cfg: Config, s: Sys, known: set<WorkerId>, id: JobId, w: WorkerId)
    requires Ready(cfg, s, known) && HasJob(s, id, Queued) && PcOf(s, w).Moved? && PcOf(s, w).job != id
    ensures var t := Apply(cfg, s, Loop(w, ClaimMoved(s.clock)));
      && known <= t.workers.Keys && HasJob(t, id, Queued)
      && t.db.jobs[id].shard == s.db.jobs[id].shard && t.db.pending == s.db.pending
  {
  }

  /** One reservation by a new worker: the move, and the claim with a fresh reading. */
  function Reservation(s: Sys, shard: nat, w: WorkerId): seq<Step> {
    Two(Loop(w, MoveOne(shard)), Loop(w, ClaimMoved(s.clock)))
  }

  lemma ReservationRuns(cfg: Config, s: Sys, known: set<WorkerId>, id: JobId, w: WorkerId)
    requires Ready(cfg, s, known) && HasJob(s, id, Queued) && w !in s.workers
    requires s.db.jobs[id].shard < cfg.shards && id in s.db.pending[s.db.jobs[id].shard]
    ensures Genuine(cfg, s, Reservation(s, s.db.jobs[id].shard, w), known)
    ensures var shard := s.db.jobs[id].shard; var list := s.db.pending[shard];
      var t := RunFrom(cfg, s, Reservation(s, shard, w));
      && known <= t.workers.Keys
      && (list[|list| - 1] == id ==> HasJob(t, id, Running))
      && (list[|list| - 1] != id ==>
            && HasJob(t, id, Queued) && t.db.jobs[id].shard == shard < |t.db.pending|
            && t.db.pending[shard] == list[..|list| - 1])
  {
    var shard := s.db.jobs[id].shard;
    var list := s.db.pending[shard];
    var move, claim := Loop(w, MoveOne(shard)), Loop(w, ClaimMoved(s.clock));
    MoveTail(cfg, s, known, id, w);
    StepKeepsGood(cfg, s, move);
    RunTwo(cfg, s, move, claim);
    GenuineTwo(cfg, s, move, claim, known);
    if list[|list| - 1] == id {
      ClaimTaken(cfg, Apply(cfg, s, move), known, id, w);
    } else {
      ClaimOther(cfg, Apply(cfg, s, move), known, id, w);
    }
  }

  lemma TailLeft(list: seq<JobId>, id: JobId)
    requires id in list && list[|list| - 1] != id
    ensures id in list[..|list| - 1]
  {
  }

  /** New workers reserve from the tail until one of them claims this job. */
  lemma {:induction false} ClaimListed(cfg: Config, s: Sys, known: set<WorkerId>, id: JobId) returns (steps: seq<Step>)
    requires Ready(cfg, s, known) && HasJob(s, id, Queued)
    requires s.db.jobs[id].shard < cfg.shards && id in s.db.pending[s.db.jobs[id].shard]
    ensures Genuine(cfg, s, steps, known)
    ensures var t := RunFrom(cfg, s, steps); known <= t.workers.Keys && HasJob(t, id, Running)
    decreases |s.db.pending[s.db.jobs[id].shard]|
  {
    var list := s.db.pending[s.db.jobs[id].shard];
    var w := FreshId(s.workers.Keys);
    var first := Reservation(s, s.db.jobs[id].shard, w);
    ReservationRuns(cfg, s, known, id, w);
    if list[|list| - 1] == id {
      steps := first;
    } else {
      TailLeft(list, id);
      RunKeepsGood(cfg, s, first);
      var rest := ClaimListed(cfg, RunFrom(cfg, s, first), known, id);
      steps := first + rest;
      RunAppend(cfg, s, first, rest);
      GenuineAppend(cfg, s, first, rest, known);
    }
  }

  lemma ClaimQueued(cfg: Config, s: Sys, known: set<WorkerId>, id: JobId) returns (steps: seq<Step>)
    requires Ready(cfg, s, known) && HasJob(s, id, Queued)
    ensures Genuine(cfg, s, steps, known)
    ensures var t := RunFrom(cfg, s, steps); known <= t.workers.Keys && HasJob(t, id, Running)
  {
    assert Placed(cfg, s.db, id);
    if id in s.db.pending[s.db.jobs[id].shard] {
      steps := ClaimListed(cfg, s, known, id);
    } else {
      var back := ReturnQueued(cfg, s, known, id);
      StepKeepsGood(cfg, s, back);
      var rest := ClaimListed(cfg, Apply(cfg, s, back), known, id);
      steps := [back] + rest;
      RunOne(cfg, s, back);
      GenuineOne(cfg, s, back, known);
      RunAppend(cfg, s, [back], rest);
      GenuineAppend(cfg, s, [back], rest, known);
    }
  }

  /** One status change closer to the end. */
  lemma Advance(cfg: Config, s: Sys, known: set<WorkerId>, id: JobId) returns (steps: seq<Step>)
    requires Ready(cfg, s, known) && id in s.db.jobs && LiveStatus(s.db.jobs[id].status)
    ensures Genuine(cfg, s, steps, known)
    ensures var t := RunFrom(cfg, s, steps);
      && known <= t.workers.Keys && id in t.db.jobs
      && t.db.jobs[id].status != s.db.jobs[id].status
  {
    match s.db.jobs[id].status
    case Queued => steps := ClaimQueued(cfg, s, known, id);
    case Running => steps := ReapRunning(cfg, s, known, id);
    case Retrying => steps := PromoteRetrying(cfg, s, known, id);
  }

  /** Along any run the measure never rises, and a job whose status differs has used some of it. */
  lemma {:induction false} MeasureAlong(cfg: Config, s: Sys, steps: seq<Step>, id: JobId)
    requires ValidConfig(cfg) && Good(cfg, s) && id in s.db.jobs
    ensures var t := RunFrom(cfg, s, steps);
      id in t.db.jobs ==>
        && 0 <= Measure(cfg, t.db.jobs[id]) <= Measure(cfg, s.db.jobs[id])
        && (t.db.jobs[id].status != s.db.jobs[id].status ==> Measure(cfg, t.db.jobs[id]) < Measure(cfg, s.db.jobs[id]))
  {
    if steps == [] {
      NonNegative(cfg, s.db, id);
    } else {
      var m := |steps| - 1;
      var t := RunFrom(cfg, s, steps[..m]);
      MeasureAlong(cfg, s, steps[..m], id);
      RunKeepsGood(cfg, s, steps[..m]);
      RunKeepsUsed(cfg, s, steps[..m]);
      RunKeepsGood(cfg, s, steps);
      StepEvolves(cfg, t, steps[m], id);
      if id in RunFrom(cfg, s, steps).db.jobs {
        if id in t.db.jobs {
          MeasureFalls(cfg, t.db, t.db.jobs[id], RunFrom(cfg, s, steps).db.jobs[id], id);
          NonNegative(cfg, RunFrom(cfg, s, steps).db, id);
        } else {
          SubmittedIsNew(cfg, t, steps[m], id);
          assert false;
        }
      }
    }
  }

  lemma {:induction false} Finish(cfg: Config, s: Sys, known: set<WorkerId>, id: JobId) returns (steps: seq<Step>)
    requires Ready(cfg, s, known) && id in s.db.jobs
    ensures Genuine(cfg, s, steps, known)
    ensures var t := RunFrom(cfg, s, steps); id in t.db.jobs && Over(t.db.jobs[id].status)
    decreases Measure(cfg, s.db.jobs[id])
  {
    steps := [];
    if LiveStatus(s.db.jobs[id].status) {
      var first := Advance(cfg, s, known, id);
      var t := RunFrom(cfg, s, first);
      RunKeepsGood(cfg, s, first);
      MeasureAlong(cfg, s, first, id);
      var rest := Finish(cfg, t, known, id);
      steps := first + rest;
      RunAppend(cfg, s, first, rest);
      GenuineAppend(cfg, s, first, rest, known);
    }
  }

  /**
   * From every reachable state, for each live job, some continuation of
   * clock ticks, reservations by new workers, reaping and promotion ends the
   * job: no worker of that state, dead or alive, takes a step, no reading is
   * old, and only listed ids are reaped or promoted.
   */
  lemma NoStuckJob(cfg: Config, steps: seq<Step>, id: JobId) returns (more: seq<Step>)
    requires ValidConfig(cfg) && id in Run(cfg, steps).db.jobs
    ensures Genuine(cfg, Run(cfg, steps), more, Run(cfg, steps).workers.Keys)
    ensures id in Run(cfg, steps + more).db.jobs && Over(Run(cfg, steps + more).db.jobs[id].status)
  {
    Reachable(cfg, steps);
    more := Finish(cfg, Run(cfg, steps), Run(cfg, steps).workers.Keys, id);
    RunAppend(cfg, Init(cfg), steps, more);
  }
}
