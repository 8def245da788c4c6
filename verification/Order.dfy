// Order of service: what enters a shard's list, what leaves it, and that
// nothing in it is overtaken.
module Order {
  import opened Lists
  import opened Scripts
  import opened Protocol

  // ------------------------------------------- into and out of one list

  /** This step adds the job to the shard's list: an accepted submission, a return by the reaper, or a promotion. */
  predicate Enters(cfg: Config, s: Sys, step: Step, shard: nat, id: JobId) {
    || (&& step.Client? && step.client.Submit? && ClientEnabled(cfg, s, step.client)
        && step.client.id == id && step.client.shard == shard
        && (step.client.key.Some? ==> step.client.key.value !in s.db.idem) && Depth(s.db) < cfg.maxDepth)
    || (&& step.Upkeep? && step.upkeep.ReapOne? && UpkeepEnabled(cfg, s, step.upkeep)
        && step.upkeep.id == id && step.upkeep.shard == shard
        && id in s.db.jobs && s.db.jobs[id].status == Queued)
    || (&& step.Upkeep? && step.upkeep.PromoteOne? && UpkeepEnabled(cfg, s, step.upkeep)
        && step.upkeep.id == id && step.upkeep.shard == shard
        && id in s.db.jobs && s.db.jobs[id].status == Retrying
        && id in s.db.retry && s.db.retry[id] <= step.upkeep.now)
  }

  /** This step is a worker's move of the job from the shard's list. */
  predicate Takes(cfg: Config, s: Sys, step: Step, shard: nat, id: JobId) {
    && step.Loop? && step.loop.MoveOne? && LoopEnabled(cfg, s, step.worker, step.loop) && step.loop.shard == shard
    && |s.db.pending| == cfg.shards
    && PcOf(ApplyLoop(cfg, s, step.worker, step.loop), step.worker) == Moved(id)
  }

  /** This step is a client's cancellation of the queued job. */
  predicate Withdraws(cfg: Config, s: Sys, step: Step, shard: nat, id: JobId) {
    && step.Client? && step.client.RequestCancel? && ClientEnabled(cfg, s, step.client)
    && step.client.id == id && step.client.shard == shard
    && id in s.db.jobs && s.db.jobs[id].status == Queued
  }

  /** The head of a list is its left end; moves take from the right end. */
  ghost predicate ListStep(cfg: Config, s: Sys, step: Step, t: Sys, shard: nat)
    requires shard < |s.db.pending| && shard < |t.db.pending|
  {
    var a, b := s.db.pending[shard], t.db.pending[shard];
    && (forall id | Enters(cfg, s, step, shard, id) :: b == [id] + a)
    && (forall id | Takes(cfg, s, step, shard, id) :: a == b + [id])
    && (forall id | Withdraws(cfg, s, step, shard, id) :: b == RemoveFirst(a, id))
    && (b == a || (exists id :: Enters(cfg, s, step, shard, id)) || (exists id :: Takes(cfg, s, step, shard, id))
        || (exists id :: Withdraws(cfg, s, step, shard, id)))
  }

  lemma ClientLists(cfg: Config, s: Sys, call: ClientCall, shard: nat)
    requires |s.db.pending| == cfg.shards && ClientEnabled(cfg, s, call) && shard < cfg.shards
    ensures ListStep(cfg, s, Client(call), ApplyClient(cfg, s, call), shard)
  {
    var t := ApplyClient(cfg, s, call);
    if t.db.pending[shard] != s.db.pending[shard] {
      if call.Submit? {
        assert Enters(cfg, s, Client(call), shard, call.id);
      } else {
        assert Withdraws(cfg, s, Client(call), shard, call.id);
      }
    }
  }

  lemma LoopLists(cfg: Config, s: Sys, w: WorkerId, call: LoopCall, shard: nat)
    requires |s.db.pending| == cfg.shards && LoopEnabled(cfg, s, w, call) && shard < cfg.shards
    ensures ListStep(cfg, s, Loop(w, call), ApplyLoop(cfg, s, w, call), shard)
  {
    var t := ApplyLoop(cfg, s, w, call);
    if t.db.pending[shard] != s.db.pending[shard] {
      var list := s.db.pending[shard];
      assert Takes(cfg, s, Loop(w, call), shard, list[|list| - 1]);
    }
  }

  lemma HeldLists(cfg: Config, s: Sys, w: WorkerId, call: HeldCall, shard: nat)
    requires |s.db.pending| == cfg.shards && HeldEnabled(s, w, call) && shard < cfg.shards
    ensures ListStep(cfg, s, Held(w, call), ApplyHeld(cfg, s, w, call), shard)
  {
  }

  lemma UpkeepLists(cfg: Config, s: Sys, call: UpkeepCall, shard: nat)
    requires |s.db.pending| == cfg.shards && UpkeepEnabled(cfg, s, call) && shard < cfg.shards
    ensures ListStep(cfg, s, Upkeep(call), ApplyUpkeep(cfg, s, call), shard)
  {
    var t := ApplyUpkeep(cfg, s, call);
    if t.db.pending[shard] != s.db.pending[shard] {
      assert Enters(cfg, s, Upkeep(call), shard, call.id);
    }
  }

  /** What any step does to any shard's list. */
  lemma StepLists(cfg: Config, s: Sys, step: Step, shard: nat)
    requires |s.db.pending| == cfg.shards && shard < cfg.shards
    ensures ListStep(cfg, s, step, Apply(cfg, s, step), shard)
  {
    match step
    case Tick(_) =>
    case Client(call) => if ClientEnabled(cfg, s, call) { ClientLists(cfg, s, call, shard); }
    case Loop(w, call) => if LoopEnabled(cfg, s, w, call) { LoopLists(cfg, s, w, call, shard); }
    case Held(w, call) => if HeldEnabled(s, w, call) { HeldLists(cfg, s, w, call, shard); }
    case Upkeep(call) => if UpkeepEnabled(cfg, s, call) { UpkeepLists(cfg, s, call, shard); }
  }

  // ------------------------------------------------- nothing overtakes

  /** What the next move on a shard takes. */
  function NextOf(db: Db, shard: nat): Option<JobId>
    requires shard < |db.pending|
  {
    Move(db, shard).1
  }

  /** A job that enters a list is taken next only if the list was empty; else what was next still is. */
  lemma EntryWaits(cfg: Config, s: Sys, step: Step, shard: nat, id: JobId)
    requires |s.db.pending| == cfg.shards && shard < cfg.shards && Enters(cfg, s, step, shard, id)
    ensures NextOf(Apply(cfg, s, step).db, shard) == if s.db.pending[shard] == [] then Some(id) else NextOf(s.db, shard)
  {
    StepLists(cfg, s, step, shard);
  }

  /** Every entry of `a` is nearer the end that moves take from than every entry of `b`. */
  ghost predicate Ahead(list: seq<JobId>, a: JobId, b: JobId) {
    forall i, k | 0 <= i < |list| && 0 <= k < |list| && list[i] == a && list[k] == b :: k < i
  }

  lemma EntryKeepsAhead(list: seq<JobId>, a: JobId, b: JobId, x: JobId)
    requires Ahead(list, a, b) && x != a
    ensures Ahead([x] + list, a, b)
  {
    var longer := [x] + list;
    forall i, k | 0 <= i < |longer| && 0 <= k < |longer| && longer[i] == a && longer[k] == b
      ensures k < i
    {
      assert longer[i] == list[i - 1];
      if k > 0 {
        assert longer[k] == list[k - 1];
      }
    }
  }

  lemma {:induction false} RemovalKeepsAhead(list: seq<JobId>, a: JobId, b: JobId, x: JobId)
    requires Ahead(list, a, b)
    ensures Ahead(RemoveFirst(list, x), a, b)
  {
    if list != [] {
      var rest := list[1..];
      RestAhead(list, a, b);
      if list[0] != x {
        RemovalKeepsAhead(rest, a, b, x);
        if list[0] == a {
          NoneBehind(list, a, b);
          RemoveFirstCount(rest, x, b);
          CountIn(rest, b);
          CountIn(RemoveFirst(rest, x), b);
          NoOther([a] + RemoveFirst(rest, x), a, b);
        } else {
          EntryKeepsAhead(RemoveFirst(rest, x), a, b, list[0]);
        }
      }
    }
  }

  lemma RestAhead(list: seq<JobId>, a: JobId, b: JobId)
    requires list != [] && Ahead(list, a, b)
    ensures Ahead(list[1..], a, b)
  {
    var rest := list[1..];
    forall i, k | 0 <= i < |rest| && 0 <= k < |rest| && rest[i] == a && rest[k] == b
      ensures k < i
    {
      assert list[i + 1] == a && list[k + 1] == b;
    }
  }

  lemma NoneBehind(list: seq<JobId>, a: JobId, b: JobId)
    requires list != [] && Ahead(list, a, b) && list[0] == a
    ensures b !in list[1..] && a != b
  {
    assert !(list[0] == b);
    forall k | 0 <= k < |list| - 1
      ensures list[1..][k] != b
    {
      assert list[k + 1] == b ==> k + 1 < 0;
    }
  }

  lemma NoOther(list: seq<JobId>, a: JobId, b: JobId)
    requires b !in list
    ensures Ahead(list, a, b)
  {
  }

  lemma TakingKeepsAhead(list: seq<JobId>, a: JobId, b: JobId, x: JobId)
    requires Ahead(list + [x], a, b)
    ensures Ahead(list, a, b)
    ensures x == b ==> a !in list
  {
    var longer := list + [x];
    assert forall i | 0 <= i < |list| :: longer[i] == list[i];
    if x == b {
      assert longer[|list|] == b;
      forall i | 0 <= i < |list|
        ensures list[i] != a
      {
        assert longer[i] == a ==> |list| < i;
      }
    }
  }

  // ----------------------------------------------------------------- runs

  /** The job leaves the shard's list at this step. */
  ghost predicate Leaves(cfg: Config, s: Sys, step: Step, shard: nat, id: JobId) {
    Takes(cfg, s, step, shard, id) || Withdraws(cfg, s, step, shard, id)
  }

  /** Before step `i` of a run from `s`. */
  function At(cfg: Config, s: Sys, steps: seq<Step>, i: nat): (r: Sys)
    requires |s.db.pending| == cfg.shards && i <= |steps|
    ensures |r.db.pending| == cfg.shards
  {
    RunFrom(cfg, s, steps[..i])
  }

  lemma AtNext(cfg: Config, s: Sys, steps: seq<Step>, i: nat)
    requires |s.db.pending| == cfg.shards && i < |steps|
    ensures At(cfg, s, steps, i + 1) == Apply(cfg, At(cfg, s, steps, i), steps[i])
  {
    assert steps[..i + 1][..i] == steps[..i];
  }

  /** The job does not enter the list again during a run. */
  ghost predicate EntersNoMore(cfg: Config, s: Sys, steps: seq<Step>, shard: nat, id: JobId)
    requires |s.db.pending| == cfg.shards
  {
    forall i | 0 <= i < |steps| :: !Enters(cfg, At(cfg, s, steps, i), steps[i], shard, id)
  }

  /** Up to step `n`: still ahead, or gone since some earlier step. */
  ghost predicate AheadOrGone(cfg: Config, s: Sys, steps: seq<Step>, shard: nat, a: JobId, b: JobId, n: nat)
    requires |s.db.pending| == cfg.shards && shard < cfg.shards && n <= |steps|
  {
    && Ahead(At(cfg, s, steps, n).db.pending[shard], a, b)
    && (a in At(cfg, s, steps, n).db.pending[shard] || exists j | 0 <= j < n :: Leaves(cfg, At(cfg, s, steps, j), steps[j], shard, a))
  }

  lemma EntryStays(list: seq<JobId>, a: JobId, x: JobId)
    requires a in list
    ensures a in [x] + list
  {
    var i :| 0 <= i < |list| && list[i] == a;
    assert ([x] + list)[i + 1] == a;
  }

  lemma OnlyTaken(list: seq<JobId>, a: JobId, x: JobId)
    requires a in list + [x] && a !in list
    ensures x == a
  {
  }

  /** A list as a step leaves it, if that is one of the three kinds. */
  lemma EnteredAhead(cfg: Config, s: Sys, step: Step, shard: nat, a: JobId, b: JobId, x: JobId)
    requires |s.db.pending| == cfg.shards && shard < cfg.shards && Ahead(s.db.pending[shard], a, b)
    requires Enters(cfg, s, step, shard, x) && x != a
    ensures Ahead(Apply(cfg, s, step).db.pending[shard], a, b)
    ensures a in s.db.pending[shard] ==> a in Apply(cfg, s, step).db.pending[shard]
  {
    StepLists(cfg, s, step, shard);
    EntryKeepsAhead(s.db.pending[shard], a, b, x);
    if a in s.db.pending[shard] {
      EntryStays(s.db.pending[shard], a, x);
    }
  }

  lemma TakenAhead(cfg: Config, s: Sys, step: Step, shard: nat, a: JobId, b: JobId, x: JobId)
    requires |s.db.pending| == cfg.shards && shard < cfg.shards && Ahead(s.db.pending[shard], a, b)
    requires Takes(cfg, s, step, shard, x)
    ensures Ahead(Apply(cfg, s, step).db.pending[shard], a, b)
    ensures a in s.db.pending[shard] && a !in Apply(cfg, s, step).db.pending[shard] ==> x == a
    ensures x == b && a != b ==> a !in s.db.pending[shard]
  {
    var after := Apply(cfg, s, step).db.pending[shard];
    StepLists(cfg, s, step, shard);
    TakingKeepsAhead(after, a, b, x);
    if a in after + [x] && a !in after {
      OnlyTaken(after, a, x);
    }
  }

  lemma WithdrawnAhead(cfg: Config, s: Sys, step: Step, shard: nat, a: JobId, b: JobId, x: JobId)
    requires |s.db.pending| == cfg.shards && shard < cfg.shards && Ahead(s.db.pending[shard], a, b)
    requires Withdraws(cfg, s, step, shard, x)
    ensures Ahead(Apply(cfg, s, step).db.pending[shard], a, b)
    ensures a in s.db.pending[shard] && a !in Apply(cfg, s, step).db.pending[shard] ==> x == a
  {
    StepLists(cfg, s, step, shard);
    RemovalKeepsAhead(s.db.pending[shard], a, b, x);
    RemoveFirstMembers(s.db.pending[shard], x);
  }

  /** One step keeps the order, and takes `a` out only by a move or a cancellation of it. */
  lemma StepAhead(cfg: Config, s: Sys, step: Step, shard: nat, a: JobId, b: JobId)
    requires |s.db.pending| == cfg.shards && shard < cfg.shards && Ahead(s.db.pending[shard], a, b)
    requires !Enters(cfg, s, step, shard, a)
    ensures Ahead(Apply(cfg, s, step).db.pending[shard], a, b)
    ensures a in s.db.pending[shard] && a !in Apply(cfg, s, step).db.pending[shard] ==> Leaves(cfg, s, step, shard, a)
  {
    if x :| Enters(cfg, s, step, shard, x) {
      EnteredAhead(cfg, s, step, shard, a, b, x);
    } else if x :| Takes(cfg, s, step, shard, x) {
      TakenAhead(cfg, s, step, shard, a, b, x);
    } else if x :| Withdraws(cfg, s, step, shard, x) {
      WithdrawnAhead(cfg, s, step, shard, a, b, x);
    } else {
      StepLists(cfg, s, step, shard);
    }
  }

  lemma {:induction false} OrderAlong(cfg: Config, s: Sys, steps: seq<Step>, shard: nat, a: JobId, b: JobId, n: nat)
    requires |s.db.pending| == cfg.shards && shard < cfg.shards && n <= |steps|
    requires a in s.db.pending[shard] && Ahead(s.db.pending[shard], a, b) && EntersNoMore(cfg, s, steps, shard, a)
    ensures AheadOrGone(cfg, s, steps, shard, a, b, n)
  {
    if n == 0 {
      assert steps[..0] == [];
    } else {
      OrderAlong(cfg, s, steps, shard, a, b, n - 1);
      AtNext(cfg, s, steps, n - 1);
      StepAhead(cfg, At(cfg, s, steps, n - 1), steps[n - 1], shard, a, b);
    }
  }

  /**
   * First in, first out, in every run: while `a`, ahead in a shard's list, does
   * not enter it again, no move takes `b` before `a` was moved or cancelled.
   * A job that enters while `a` is listed is behind it.
   */
  lemma FirstInFirstOut(cfg: Config, s: Sys, steps: seq<Step>, shard: nat, a: JobId, b: JobId, n: nat)
    requires |s.db.pending| == cfg.shards && shard < cfg.shards && n < |steps| && a != b
    requires a in s.db.pending[shard] && Ahead(s.db.pending[shard], a, b) && EntersNoMore(cfg, s, steps, shard, a)
    requires Takes(cfg, At(cfg, s, steps, n), steps[n], shard, b)
    ensures exists j | 0 <= j < n :: Leaves(cfg, At(cfg, s, steps, j), steps[j], shard, a)
  {
    OrderAlong(cfg, s, steps, shard, a, b, n);
    TakenAhead(cfg, At(cfg, s, steps, n), steps[n], shard, a, b, b);
  }

  /**
   * So of two jobs that enter one shard's list, each once, the first to enter
   * is the first to be moved, unless it is cancelled.
   */
  lemma EntryOrderIsServiceOrder(cfg: Config, s: Sys, first: Step, steps: seq<Step>, shard: nat, a: JobId, b: JobId, n: nat)
    requires |s.db.pending| == cfg.shards && shard < cfg.shards && a != b
    requires Enters(cfg, s, first, shard, a) && b !in s.db.pending[shard]
    requires EntersNoMore(cfg, Apply(cfg, s, first), steps, shard, a)
    requires n < |steps| && Takes(cfg, At(cfg, Apply(cfg, s, first), steps, n), steps[n], shard, b)
    ensures exists j | 0 <= j < n :: Leaves(cfg, At(cfg, Apply(cfg, s, first), steps, j), steps[j], shard, a)
  {
    StepLists(cfg, s, first, shard);
    var list := Apply(cfg, s, first).db.pending[shard];
    assert list[0] == a;
    assert b !in list;
    NoOther(list, a, b);
    FirstInFirstOut(cfg, Apply(cfg, s, first), steps, shard, a, b, n);
  }
}
