// Submissions under one idempotency key, while its binding is retained.
module Idempotency {
  import opened Lists
  import opened Scripts
  import opened Protocol

  /** The binding of `key` does not expire during the run. */
  predicate Retained(steps: seq<Step>, key: IdemKey) {
    forall i | 0 <= i < |steps| :: steps[i] != Upkeep(ExpireBinding(key))
  }

  /** What happened after `s`. */
  function Since(s: Sys, t: Sys): seq<Event> {
    if |s.history| <= |t.history| then t.history[|s.history|..] else []
  }

  predicate ReplyTo(e: Event, key: IdemKey) {
    e.Replied? && e.key == Some(key) && !e.reply.Full?
  }

  /** The binding explains an answer that was given. */
  predicate AnsweredBy(binding: Binding, e: Event)
    requires e.Replied? && !e.reply.Full?
  {
    && e.reply.job == binding.job
    && (e.reply.Conflict? <==> e.hash != binding.hash)
  }

  /** Two answers under one key, the first before the second. */
  predicate Consistent(a: Event, b: Event)
    requires a.Replied? && b.Replied? && !a.reply.Full? && !b.reply.Full?
  {
    && !b.reply.Created?
    && b.reply.job == a.reply.job
    && (!a.reply.Conflict? ==> (b.reply.Conflict? <==> b.hash != a.hash))
  }

  ghost predicate Bound(s: Sys, t: Sys, key: IdemKey) {
    && |s.history| <= |t.history|
    && (key in s.db.idem ==> key in t.db.idem && t.db.idem[key] == s.db.idem[key])
    && (forall e | e in Since(s, t) && ReplyTo(e, key) :: key in t.db.idem && AnsweredBy(t.db.idem[key], e))
    && (forall i, k | 0 <= i < k < |Since(s, t)| && ReplyTo(Since(s, t)[i], key) && ReplyTo(Since(s, t)[k], key) ::
          Consistent(Since(s, t)[i], Since(s, t)[k]))
  }

  /** What one step does to the binding of a key, and the answer it gives under it. */
  ghost predicate BindingStep(t: Sys, u: Sys, key: IdemKey) {
    && t.history <= u.history && |Since(t, u)| <= 1
    && (key in t.db.idem ==> key in u.db.idem && u.db.idem[key] == t.db.idem[key])
    && (forall e | e in Since(t, u) && ReplyTo(e, key) ::
          && key in u.db.idem && AnsweredBy(u.db.idem[key], e)
          && (e.reply.Created? <==> key !in t.db.idem))
  }

  lemma SubmitBinds(cfg: Config, t: Sys, call: ClientCall, key: IdemKey)
    requires |t.db.pending| == cfg.shards && ClientEnabled(cfg, t, call)
    ensures BindingStep(t, ApplyClient(cfg, t, call), key)
  {
  }

  lemma LoopBinds(cfg: Config, t: Sys, w: WorkerId, call: LoopCall, key: IdemKey)
    requires |t.db.pending| == cfg.shards && LoopEnabled(cfg, t, w, call)
    ensures BindingStep(t, ApplyLoop(cfg, t, w, call), key)
  {
  }

  lemma HeldBinds(cfg: Config, t: Sys, w: WorkerId, call: HeldCall, key: IdemKey)
    requires |t.db.pending| == cfg.shards && HeldEnabled(t, w, call)
    ensures BindingStep(t, ApplyHeld(cfg, t, w, call), key)
  {
  }

  lemma UpkeepBinds(cfg: Config, t: Sys, call: UpkeepCall, key: IdemKey)
    requires |t.db.pending| == cfg.shards && UpkeepEnabled(cfg, t, call) && call != ExpireBinding(key)
    ensures BindingStep(t, ApplyUpkeep(cfg, t, call), key)
  {
  }

  lemma StepBinds(cfg: Config, t: Sys, step: Step, key: IdemKey)
    requires |t.db.pending| == cfg.shards && step != Upkeep(ExpireBinding(key))
    ensures BindingStep(t, Apply(cfg, t, step), key)
  {
    match step
    case Tick(_) =>
    case Client(call) => if ClientEnabled(cfg, t, call) { SubmitBinds(cfg, t, call, key); }
    case Loop(w, call) => if LoopEnabled(cfg, t, w, call) { LoopBinds(cfg, t, w, call, key); }
    case Held(w, call) => if HeldEnabled(t, w, call) { HeldBinds(cfg, t, w, call, key); }
    case Upkeep(call) => if UpkeepEnabled(cfg, t, call) { UpkeepBinds(cfg, t, call, key); }
  }

  lemma BoundStep(s: Sys, t: Sys, u: Sys, key: IdemKey)
    requires Bound(s, t, key) && BindingStep(t, u, key)
    ensures Bound(s, u, key)
  {
    assert Since(s, u) == Since(s, t) + Since(t, u);
  }

  /**
   * From any state, in any interleaving: all answers under a retained key name
   * one job, at most one of them created it, and an answer is a conflict
   * exactly when its request hash is not the bound one.
   */
  lemma {:induction false} Idempotent(cfg: Config, s: Sys, steps: seq<Step>, key: IdemKey)
    requires |s.db.pending| == cfg.shards && Retained(steps, key)
    ensures Bound(s, RunFrom(cfg, s, steps), key)
  {
    if steps != [] {
      var m := |steps| - 1;
      Idempotent(cfg, s, steps[..m], key);
      StepBinds(cfg, RunFrom(cfg, s, steps[..m]), steps[m], key);
      BoundStep(s, RunFrom(cfg, s, steps[..m]), RunFrom(cfg, s, steps), key);
    }
  }

  /** The client's read of the binding before it calls the script. */
  function PreCheck(db: Db, key: IdemKey, hash: Hash): Option<EnqueueReply> {
    if key !in db.idem then None
    else if db.idem[key].hash != hash then Some(Conflict(db.idem[key].job))
    else Some(Existing(db.idem[key].job))
  }

  /**
   * An answer the client gives from its own early read is the answer the
   * script would give at any later time, and the script would change nothing.
   */
  lemma PreCheckAgrees(cfg: Config, s: Sys, steps: seq<Step>, key: IdemKey, id: JobId, request: Request, shard: nat, now: nat)
    requires |s.db.pending| == cfg.shards && Retained(steps, key) && shard < cfg.shards
    requires PreCheck(s.db, key, request.hash).Some?
    ensures var t := RunFrom(cfg, s, steps);
      Enqueue(t.db, id, request, shard, now, Some(key), cfg.maxDepth) == (t.db, PreCheck(s.db, key, request.hash).value)
  {
    Idempotent(cfg, s, steps, key);
  }
}
