// How many entries a job has in the lists and the retry set: exactly one while
// it is live, for as long as no reap lists a job twice.
module Entries {
  import opened Lists
  import opened Scripts
  import opened Protocol
  import opened Placement
  import opened Guarantees
  import opened RawDepth

  ghost function CountAll<T>(xss: seq<seq<T>>, x: T): nat {
    if xss == [] then 0 else Count(xss[0], x) + CountAll(xss[1..], x)
  }

  ghost function Entries(db: Db, id: JobId): nat {
    CountAll(db.pending, id) + Count(db.processing, id) + if id in db.retry then 1 else 0
  }

  lemma {:induction false} CountAllUpdate<T>(xss: seq<seq<T>>, i: nat, xs: seq<T>, x: T)
    requires i < |xss|
    ensures CountAll(xss[i := xs], x) == CountAll(xss, x) - Count(xss[i], x) + Count(xs, x)
  {
    if i == 0 {
      assert xss[0 := xs][1..] == xss[1..];
    } else {
      assert xss[i := xs][1..] == xss[1..][i - 1 := xs];
      CountAllUpdate(xss[1..], i - 1, xs, x);
    }
  }

  lemma {:induction false} CountAllEmpty<T>(xss: seq<seq<T>>, x: T)
    requires forall i | 0 <= i < |xss| :: xss[i] == []
    ensures CountAll(xss, x) == 0
  {
    if xss != [] {
      CountAllEmpty(xss[1..], x);
    }
  }

  lemma {:induction false} CountAllPart<T>(xss: seq<seq<T>>, i: nat, x: T)
    requires i < |xss|
    ensures Count(xss[i], x) <= CountAll(xss, x)
  {
    if i > 0 {
      CountAllPart(xss[1..], i - 1, x);
    }
  }

  lemma PushEntries(db: Db, shard: nat, id: JobId, x: JobId)
    requires shard < |db.pending|
    ensures CountAll(Push(db, shard, id), x) == CountAll(db.pending, x) + if x == id then 1 else 0
  {
    CountAllUpdate(db.pending, shard, [id] + db.pending[shard], x);
    CountCons(id, db.pending[shard], x);
  }

  // ------------------------------------------------------- script by script

  lemma EnqueueEntries(db: Db, id: JobId, request: Request, shard: nat, now: int, key: Option<IdemKey>, maxDepth: nat, x: JobId)
    requires shard < |db.pending|
    ensures var (after, reply) := Enqueue(db, id, request, shard, now, key, maxDepth);
      Entries(after, x) == Entries(db, x) + if reply.Created? && x == id then 1 else 0
  {
    PushEntries(db, shard, id, x);
  }

  lemma MoveEntries(db: Db, shard: nat, x: JobId)
    requires shard < |db.pending|
    ensures Entries(Move(db, shard).0, x) == Entries(db, x)
  {
    var list := db.pending[shard];
    if list != [] {
      var last := list[|list| - 1];
      CountAllUpdate(db.pending, shard, list[..|list| - 1], x);
      CountConcat(list[..|list| - 1], [last], x);
      assert list == list[..|list| - 1] + [last];
      CountCons(last, db.processing, x);
    }
  }

  /** Taking an entry off the processing list. */
  lemma Unlisted(db: Db, id: JobId, x: JobId)
    ensures Count(RemoveFirst(db.processing, id), x) ==
      Count(db.processing, x) - if x == id && id in db.processing then 1 else 0
  {
    RemoveFirstCount(db.processing, id, x);
  }

  lemma CompleteEntries(cfg: Config, db: Db, id: JobId, w: WorkerId, result: Result, now: int, x: JobId)
    requires DbInv(cfg, db)
    ensures var (after, ok) := Complete(db, id, w, result, now);
      Entries(after, x) == Entries(db, x) - if ok && x == id then 1 else 0
  {
    Unlisted(db, id, x);
    if Owns(db, id, w) {
      assert Placed(cfg, db, id);
    }
  }

  lemma TerminalEntries(cfg: Config, db: Db, id: JobId, w: WorkerId, status: Status, error: Message, now: int, x: JobId)
    requires DbInv(cfg, db)
    ensures var (after, ok) := Terminal(db, id, w, status, error, now);
      Entries(after, x) == Entries(db, x) - if ok && x == id then 1 else 0
  {
    Unlisted(db, id, x);
    if Owns(db, id, w) {
      assert Placed(cfg, db, id);
    }
  }

  lemma RetryEntries(cfg: Config, db: Db, id: JobId, w: WorkerId, error: Message, now: int, next: int, x: JobId)
    requires DbInv(cfg, db)
    ensures var after := Retry(db, id, w, cfg.maxAttempts, error, now, next).0;
      Entries(after, x) == Entries(db, x) - if x == id && FailedNow(db, after, id) then 1 else 0
  {
    Unlisted(db, id, x);
    if Owns(db, id, w) {
      assert Placed(cfg, db, id);
    }
  }

  predicate FailedNow(before: Db, after: Db, id: JobId) {
    id in before.jobs && before.jobs[id].status == Running && id in after.jobs && after.jobs[id].status == Failed
  }

  /** A running job that a reap takes loses its entry, unless it goes to the retry set. */
  lemma EndExpiredEntries(cfg: Config, db: Db, id: JobId, now: int, next: int, x: JobId)
    requires DbInv(cfg, db) && id in db.jobs && db.jobs[id].status == Running
    ensures var after := EndExpired(db, id, now, cfg.maxAttempts, next);
      Entries(after, x) == Entries(db, x) - if x == id && after.jobs[id].status != Retrying then 1 else 0
  {
    Unlisted(db, id, x);
    assert Placed(cfg, db, id);
  }

  /** How many entries a reap of a job that is not running takes away. */
  lemma ReapEntries(cfg: Config, db: Db, id: JobId, shard: nat, lease: int, now: int, next: int, x: JobId)
    requires DbInv(cfg, db) && shard < |db.pending|
    requires id in db.jobs ==> db.jobs[id].status != Running
    ensures var after := Reap(db, id, shard, lease, now, cfg.maxAttempts, next).0;
      && after.jobs == db.jobs
      && Entries(after, x) == Entries(db, x)
           - (if x == id && id in db.processing then 1 else 0)
           + (if x == id && id in db.jobs && db.jobs[id].status == Queued then 1 else 0)
  {
    Unlisted(db, id, x);
    PushEntries(db, shard, id, x);
  }

  lemma PromoteEntries(cfg: Config, db: Db, id: JobId, shard: nat, now: int, x: JobId)
    requires DbInv(cfg, db) && shard < |db.pending|
    ensures var after := Promote(db, id, shard, now).0;
      Entries(after, x) == Entries(db, x) - if x == id && id !in db.jobs && id in db.retry then 1 else 0
  {
    PushEntries(db, shard, id, x);
    if id in db.jobs {
      assert Placed(cfg, db, id);
    }
  }

  lemma CancelEntries(cfg: Config, db: Db, id: JobId, shard: nat, now: int, x: JobId)
    requires DbInv(cfg, db) && shard < |db.pending|
    ensures var after := Cancel(db, id, shard, now).0;
      Entries(after, x) == Entries(db, x)
        - if x == id && id in db.jobs && (db.jobs[id].status == Retrying || (db.jobs[id].status == Queued && id in db.pending[shard]))
          then 1 else 0
  {
    if id in db.jobs {
      assert Placed(cfg, db, id);
    }
    RemoveFirstCount(db.pending[shard], id, x);
    CountAllUpdate(db.pending, shard, RemoveFirst(db.pending[shard], id), x);
    CountIn(db.pending[shard], x);
  }

  // ------------------------------------------------------------- exactly one

  /** One entry while live, none after a success or a failure, at most one after a cancellation or the record's end. */
  ghost predicate OneEntry(db: Db, id: JobId) {
    && Entries(db, id) <= 1
    && (id in db.jobs && LiveStatus(db.jobs[id].status) ==> Entries(db, id) == 1)
    && (id in db.jobs && (db.jobs[id].status == Succeeded || db.jobs[id].status == Failed) ==> Entries(db, id) == 0)
  }

  /** And none before the id was handed out. */
  ghost predicate Single(s: Sys, id: JobId) {
    OneEntry(s.db, id) && (id !in s.used ==> Entries(s.db, id) == 0)
  }

  /** This step lists this job a second time. */
  predicate Doubles(cfg: Config, s: Sys, step: Step, id: JobId) {
    ListsAgain(cfg, s, step) && step.upkeep.id == id
  }

  lemma ClientSingle(cfg: Config, s: Sys, call: ClientCall, id: JobId)
    requires DbInv(cfg, s.db) && Known(s) && ClientEnabled(cfg, s, call) && Single(s, id)
    ensures Single(ApplyClient(cfg, s, call), id)
  {
    match call
    case Submit(target, request, shard, now, key) =>
      EnqueueEntries(s.db, target, request, shard, now, key, cfg.maxDepth, id);
    case SyncPublish(_, _, _, _, _) =>
    case RequestCancel(target, shard, now) => CancelSingle(cfg, s, target, shard, now, id);
  }

  lemma CancelSingle(cfg: Config, s: Sys, target: JobId, shard: nat, now: int, id: JobId)
    requires DbInv(cfg, s.db) && Known(s) && Single(s, id) && shard < |s.db.pending|
    ensures Single(s.(db := Cancel(s.db, target, shard, now).0), id)
  {
    CancelEntries(cfg, s.db, target, shard, now, id);
    if target in s.db.jobs {
      CountIn(s.db.pending[shard], target);
      CountAllPart(s.db.pending, shard, target);
    }
  }

  lemma LoopSingle(cfg: Config, s: Sys, w: WorkerId, call: LoopCall, id: JobId)
    requires DbInv(cfg, s.db) && Known(s) && LoopEnabled(cfg, s, w, call) && Single(s, id)
    ensures Single(ApplyLoop(cfg, s, w, call), id)
  {
    match call
    case MoveOne(shard) => MoveEntries(s.db, shard, id);
    case ClaimMoved(_) =>
      if PcOf(s, w).job in s.db.jobs {
        assert Accounted(cfg, s.db, PcOf(s, w).job);
      }
    case _ =>
  }

  lemma RetrySingle(cfg: Config, s: Sys, target: JobId, w: WorkerId, error: Message, now: int, next: int, id: JobId)
    requires DbInv(cfg, s.db) && Known(s) && Single(s, id)
    ensures Single(s.(db := Retry(s.db, target, w, cfg.maxAttempts, error, now, next).0), id)
  {
    RetryEntries(cfg, s.db, target, w, error, now, next, id);
  }

  lemma HeldSingle(cfg: Config, s: Sys, w: WorkerId, call: HeldCall, id: JobId)
    requires DbInv(cfg, s.db) && Known(s) && HeldEnabled(s, w, call) && Single(s, id)
    ensures Single(ApplyHeld(cfg, s, w, call), id)
  {
    var target := HeldJob(s, w);
    match call
    case PublishHeld(_, _) =>
    case CompleteHeld(payload, now) => CompleteEntries(cfg, s.db, target, w, ResultOf(PcOf(s, w), payload).value, now, id);
    case FailHeld(error, now) => TerminalEntries(cfg, s.db, target, w, Failed, error, now, id);
    case RetryHeld(error, readAt, delay, now) => RetrySingle(cfg, s, target, w, error, now, readAt + delay, id);
    case CancelHeld(now) => TerminalEntries(cfg, s.db, target, w, Cancelled, NoMessage, now, id);
  }

  lemma ReapSingle(cfg: Config, s: Sys, target: JobId, shard: nat, lease: int, now: int, next: int, id: JobId)
    requires DbInv(cfg, s.db) && Known(s) && Single(s, id) && shard < |s.db.pending|
    ensures Single(s.(db := Reap(s.db, target, shard, lease, now, cfg.maxAttempts, next).0), id) <==>
      !(target == id && QueuedElsewhere(s.db, id))
  {
    if target in s.db.jobs && s.db.jobs[target].status == Running {
      EndExpiredEntries(cfg, s.db, target, now, next, id);
    } else {
      ReapEntries(cfg, s.db, target, shard, lease, now, next, id);
      CountIn(s.db.processing, id);
    }
  }

  lemma PromoteSingle(cfg: Config, s: Sys, target: JobId, shard: nat, now: int, id: JobId)
    requires DbInv(cfg, s.db) && Known(s) && Single(s, id) && shard < |s.db.pending|
    ensures Single(s.(db := Promote(s.db, target, shard, now).0), id)
  {
    PromoteEntries(cfg, s.db, target, shard, now, id);
  }

  lemma UpkeepSingle(cfg: Config, s: Sys, call: UpkeepCall, id: JobId)
    requires DbInv(cfg, s.db) && Known(s) && UpkeepEnabled(cfg, s, call) && Single(s, id)
    ensures Single(ApplyUpkeep(cfg, s, call), id) <==> !Doubles(cfg, s, Upkeep(call), id)
  {
    match call
    case ReapOne(target, shard, lease, now, delay) => ReapSingle(cfg, s, target, shard, lease, now, now + delay, id);
    case PromoteOne(target, shard, now) => PromoteSingle(cfg, s, target, shard, now, id);
    case _ =>
  }

  lemma StepSingle(cfg: Config, s: Sys, step: Step, id: JobId)
    requires DbInv(cfg, s.db) && Known(s) && Single(s, id)
    ensures Single(Apply(cfg, s, step), id) <==> !Doubles(cfg, s, step, id)
  {
    match step
    case Tick(_) =>
    case Client(call) => if ClientEnabled(cfg, s, call) { ClientSingle(cfg, s, call, id); }
    case Loop(w, call) => if LoopEnabled(cfg, s, w, call) { LoopSingle(cfg, s, w, call, id); }
    case Held(w, call) => if HeldEnabled(s, w, call) { HeldSingle(cfg, s, w, call, id); }
    case Upkeep(call) => if UpkeepEnabled(cfg, s, call) { UpkeepSingle(cfg, s, call, id); }
  }

  // ----------------------------------------------------------------- runs

  ghost predicate SingleAfter(cfg: Config, steps: seq<Step>, id: JobId) {
    Single(Run(cfg, steps), id)
  }

  /** Along a run, one step after the other: always one entry at most, and never listed twice. */
  ghost predicate AlwaysSingle(cfg: Config, steps: seq<Step>, id: JobId) {
    SingleAfter(cfg, steps, id) && (steps == [] || AlwaysSingle(cfg, steps[..|steps| - 1], id))
  }

  predicate NeverDoubled(cfg: Config, steps: seq<Step>, id: JobId) {
    steps == [] ||
    (NeverDoubled(cfg, steps[..|steps| - 1], id) && !Doubles(cfg, Run(cfg, steps[..|steps| - 1]), steps[|steps| - 1], id))
  }

  /**
   * Along every run a job has exactly one entry while it is live and none once
   * it succeeded or failed, if and only if no reap finds it queued without an
   * entry in the processing list.
   */
  lemma {:induction false} ExactlyOnceIff(cfg: Config, steps: seq<Step>, id: JobId)
    requires ValidConfig(cfg)
    ensures AlwaysSingle(cfg, steps, id) <==> NeverDoubled(cfg, steps, id)
  {
    if steps == [] {
      CountAllEmpty(Init(cfg).db.pending, id);
    } else {
      var m := |steps| - 1;
      ExactlyOnceIff(cfg, steps[..m], id);
      Reachable(cfg, steps[..m]);
      if AlwaysSingle(cfg, steps[..m], id) {
        assert SingleAfter(cfg, steps[..m], id);
        StepSingle(cfg, Run(cfg, steps[..m]), steps[m], id);
      }
    }
  }
}
