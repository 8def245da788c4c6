// One turn of a worker's loop: the calls it makes about the job it reserved,
// for any replies, are calls the protocol's program counter allows.
module Worker {
  import opened Lists
  import opened Scripts
  import opened Protocol

  /**
   * The exceptions the worker's classification tells apart, in the order it
   * tests them.  A query timeout is a kind of cancellation and never gets there.
   */
  datatype Fault =
    | Rejected           // rejected query, failed analysis included, or another value error
    | OutputExists       // file exists: also an operating system error
    | Transient          // retryable query error, connection error, operating system error
    | Other(mentionsOutage: bool)

  function IsRetryable(fault: Fault): bool {
    match fault
    case Rejected => false
    case OutputExists => false
    case Transient => true
    case Other(mentionsOutage) => mentionsOutage
  }

  /** A call with the reply it got. */
  datatype Call =
    | Published(manifest: Manifest, reply: int)
    | Completed(result: Result, ok: bool)
    | FailedFor(retryable: bool, ok: bool)
    | CancelledOff(ok: bool)

  /**
   * What becomes of a request: refused before it gets to run, answered, written
   * and, if the commit check allows it, published with a reply that may be
   * lost, or failed before that.
   */
  datatype Engine =
    | Refuses(fault: Fault)
    | Answers(payload: nat)
    | Writes(canCommit: bool, nonce: nat, reply: int, lost: Option<Fault>)
    | Faults(fault: Fault)

  /** At an exception: whether the deadline had passed, and whether its text mentions "cancel". */
  datatype Scope = Scope(timedOut: bool, saysCancel: bool)

  /** How `service.execute` ends. */
  datatype Execution = Returns(result: Result) | RaisesCancelled | RaisesFenced | Raises(fault: Fault)

  /** What a store-mode execution does outside the queue, in order. */
  datatype Effect = WroteData(attempt: AttemptId) | WroteManifest(manifest: Manifest) | AskedToPublish(manifest: Manifest)

  /** The replies of the queue to the questions and calls of one turn. */
  datatype Replies = Replies(cancelSeen: bool, cancelSeenLater: bool, owns: bool, ended: bool, cancelled: bool)

  /** The calls allowed for a held attempt: no publication twice, nothing after the attempt ended. */
  predicate Allowed(pc: Pc, calls: seq<Call>)
    requires pc.Holding?
    decreases |calls|
  {
    calls == [] ||
    match calls[0]
    case Published(manifest, reply) =>
      && pc.request.delivery.Store? && pc.published.None?
      && manifest == ManifestFor(pc.job, pc.request, AttemptId(pc.attempt, manifest.attempt.nonce))
      && Allowed(if reply == 1 then pc.(published := Some(manifest)) else pc, calls[1..])
    case Completed(result, ok) =>
      && MayReport(pc, result) && (ok ==> |calls| == 1) && Allowed(pc, calls[1..])
    case FailedFor(_, ok) => (ok ==> |calls| == 1) && Allowed(pc, calls[1..])
    case CancelledOff(ok) => (ok ==> |calls| == 1) && Allowed(pc, calls[1..])
  }

  /** A result the held attempt may report: an inline one, or what it published. */
  predicate MayReport(pc: Pc, result: Result)
    requires pc.Holding?
  {
    match result
    case InlineResult(payload) => ResultOf(pc, payload) == Some(result)
    case StoredResult(_) => pc.request.delivery.Store? && ResultOf(pc, 0) == Some(result)
  }

  function ManifestFor(id: JobId, request: Request, attempt: AttemptId): Manifest
    requires request.delivery.Store?
  {
    Manifest(request.delivery.dest, id, attempt)
  }

  /** How `_store` ends. */
  function StoreEnd(manifest: Manifest, canCommit: bool, reply: int, lost: Option<Fault>): Execution {
    if !canCommit then RaisesFenced
    else if lost.Some? then Raises(lost.value)
    else if reply < 0 then RaisesFenced
    else if reply == 0 then Raises(OutputExists)
    else Returns(StoredResult(manifest))
  }

  /**
   * `_store`: data, then the commit check, then the manifest, then the
   * publication.  Whatever is published was written before.
   */
  method StoreOutput(id: JobId, attempt: AttemptId, request: Request, canCommit: bool, reply: int, lost: Option<Fault>)
    returns (execution: Execution, effects: seq<Effect>, calls: seq<Call>)
    requires request.delivery.Store?
    ensures var manifest := ManifestFor(id, request, attempt);
      && (calls != [] <==> canCommit)
      && (calls == [] ==> effects == [WroteData(attempt)])
      && (calls != [] ==>
            && calls == [Published(manifest, reply)]
            && effects == [WroteData(attempt), WroteManifest(manifest), AskedToPublish(manifest)])
      && execution == StoreEnd(manifest, canCommit, reply, lost)
  {
    effects, calls := [WroteData(attempt)], [];
    if !canCommit {
      return RaisesFenced, effects, calls;
    }
    var manifest := Manifest(request.delivery.dest, id, attempt);
    effects := effects + [WroteManifest(manifest)];
    calls := [Published(manifest, reply)];
    effects := effects + [AskedToPublish(manifest)];
    if lost.Some? {
      return Raises(lost.value), effects, calls;
    }
    if reply < 0 {
      return RaisesFenced, effects, calls;
    }
    if reply == 0 {
      return Raises(OutputExists), effects, calls;
    }
    return Returns(StoredResult(manifest)), effects, calls;
  }

  /** `_query_scope`: after the deadline, or with such a text, an exception becomes a cancellation. */
  function Scoped(raised: Execution, scope: Scope): Execution {
    match raised
    case RaisesFenced => if scope.timedOut then RaisesCancelled else raised
    case Raises(_) => if scope.timedOut || scope.saysCancel then RaisesCancelled else raised
    case _ => raised
  }

  /** A result comes out. */
  predicate Delivers(engine: Engine) {
    engine.Answers? || (engine.Writes? && engine.canCommit && engine.lost.None? && engine.reply == 1)
  }

  /** The commit check or the publication finds the lease gone. */
  predicate Fenced(engine: Engine) {
    engine.Writes? && (!engine.canCommit || (engine.lost.None? && engine.reply == -1))
  }

  /** `service.execute` for a reserved job, with the engine's part given. */
  method Execute(pc: Pc, engine: Engine, scope: Scope) returns (execution: Execution, calls: seq<Call>)
    requires pc.Holding? && pc.published.None?
    requires engine.Writes? ==> -1 <= engine.reply <= 1
    requires engine.Answers? ==> pc.request.delivery.Inline?
    requires engine.Writes? ==> pc.request.delivery.Store?
    ensures |calls| <= 1 && Allowed(pc, calls)
    ensures execution.Returns? ==> MayReport(After(pc, calls), execution.result)
    ensures |calls| == 1 ==> calls[0].Published?
    ensures execution.Returns? && execution.result.StoredResult? ==>
      calls == [Published(execution.result.manifest, 1)] && execution.result.manifest.attempt.number == pc.attempt
    ensures calls ==
      if engine.Writes? && engine.canCommit then
        [Published(ManifestFor(pc.job, pc.request, AttemptId(pc.attempt, engine.nonce)), engine.reply)]
      else []
    ensures execution.Returns? <==> Delivers(engine)
    ensures engine.Answers? ==> execution == Returns(InlineResult(engine.payload))
    ensures execution.RaisesFenced? <==> Fenced(engine) && !scope.timedOut
    ensures execution.RaisesCancelled? <==>
      !Delivers(engine) && !engine.Refuses? && (scope.timedOut || (scope.saysCancel && !Fenced(engine)))
    ensures execution.Raises? ==>
      execution.fault ==
        if engine.Writes? then (if engine.lost.Some? then engine.lost.value else OutputExists) else engine.fault
  {
    calls := [];
    match engine {
      case Refuses(fault) => execution := Raises(fault);
      case Answers(payload) => execution := Returns(InlineResult(payload));
      case Writes(canCommit, nonce, reply, lost) =>
        var effects;
        execution, effects, calls := StoreOutput(pc.job, AttemptId(pc.attempt, nonce), pc.request, canCommit, reply, lost);
        execution := Scoped(execution, scope);
        assert calls == [] || calls[1..] == [];
      case Faults(fault) => execution := Scoped(Raises(fault), scope);
    }
  }

  /** The program counter after some calls that did not end the attempt. */
  function After(pc: Pc, calls: seq<Call>): (r: Pc)
    requires pc.Holding?
    ensures r.Holding?
  {
    if calls != [] && calls[0].Published? && calls[0].reply == 1 then pc.(published := Some(calls[0].manifest)) else pc
  }

  lemma AllowedThen(pc: Pc, first: seq<Call>, rest: seq<Call>)
    requires pc.Holding? && |first| <= 1 && Allowed(pc, first) && (|first| == 1 ==> first[0].Published?)
    requires Allowed(After(pc, first), rest)
    ensures Allowed(pc, first + rest)
  {
    if first != [] {
      assert (first + rest)[1..] == rest;
    } else {
      assert first + rest == rest;
    }
  }

  /** Completing is tried for a result, and only while no cancellation is seen. */
  predicate TriesToComplete(execution: Execution, replies: Replies) {
    execution.Returns? && !replies.cancelSeen
  }

  /** Cancelling: a cancellation seen after anything but a fault, or after completing in vain. */
  predicate CallsOff(execution: Execution, replies: Replies) {
    if replies.cancelSeen then !execution.Raises? else execution.Returns? && !replies.ended && replies.cancelSeenLater
  }

  /** Failing: a fault, or an interruption nobody asked for, while the job is still owned. */
  predicate Fails(execution: Execution, replies: Replies) {
    replies.owns && (execution.Raises? || (execution.RaisesCancelled? && !replies.cancelSeen))
  }

  /** These are the calls that end a turn, in order; none if it ended fenced or without the job. */
  predicate Concludes(execution: Execution, replies: Replies, calls: seq<Call>) {
    var completes, fails, off := TriesToComplete(execution, replies), Fails(execution, replies), CallsOff(execution, replies);
    && |calls| == (if completes then 1 else 0) + (if fails then 1 else 0) + (if off then 1 else 0)
    && (completes ==> calls[0] == Completed(execution.result, replies.ended))
    && (fails ==> calls[0] == FailedFor(execution.Raises? && IsRetryable(execution.fault), replies.ended))
    && (off ==> calls[|calls| - 1] == CancelledOff(replies.cancelled))
  }

  /** The calls that end a turn. */
  method Conclude(pc: Pc, execution: Execution, replies: Replies) returns (calls: seq<Call>)
    requires pc.Holding?
    requires execution.Returns? ==> MayReport(pc, execution.result)
    ensures Allowed(pc, calls)
    ensures Concludes(execution, replies, calls)
  {
    calls := [];
    match execution {
      case RaisesCancelled =>
        if replies.cancelSeen {
          calls := [CancelledOff(replies.cancelled)];
        } else if replies.owns {
          calls := [FailedFor(false, replies.ended)];
        }
      case RaisesFenced =>
        if replies.cancelSeen {
          calls := [CancelledOff(replies.cancelled)];
        }
      case Raises(fault) =>
        if replies.owns {
          calls := [FailedFor(IsRetryable(fault), replies.ended)];
        }
      case Returns(result) =>
        if replies.cancelSeen {
          calls := [CancelledOff(replies.cancelled)];
        } else if replies.ended {
          calls := [Completed(result, true)];
        } else if replies.cancelSeenLater {
          calls := [Completed(result, false), CancelledOff(replies.cancelled)];
        } else {
          calls := [Completed(result, false)];
        }
    }
    if |calls| == 1 {
      assert calls[1..] == [];
    } else if |calls| == 2 {
      assert calls[1..] == [calls[1]] && calls[1..][1..] == [];
    }
  }

  /**
   * `work_once` after its reservation: for any end of the execution and any
   * replies, the calls are ones the protocol's worker may make, in the order
   * publication, completion or failure, cancellation; and only a published
   * manifest of this attempt is ever reported as a stored result.
   */
  method WorkOnce(pc: Pc, engine: Engine, scope: Scope, replies: Replies) returns (execution: Execution, calls: seq<Call>)
    requires pc.Holding? && pc.published.None?
    requires engine.Writes? ==> -1 <= engine.reply <= 1
    requires engine.Answers? ==> pc.request.delivery.Inline?
    requires engine.Writes? ==> pc.request.delivery.Store?
    ensures Allowed(pc, calls)
    ensures engine.Writes? && engine.canCommit ==>
      calls != [] && calls[0].Published? && calls[0].reply == engine.reply && Concludes(execution, replies, calls[1..])
    ensures !(engine.Writes? && engine.canCommit) ==> Concludes(execution, replies, calls)
    ensures execution.Returns? <==> Delivers(engine)
    ensures execution.Returns? && execution.result.StoredResult? ==>
      calls != [] && calls[0] == Published(execution.result.manifest, 1)
      && execution.result.manifest.attempt.number == pc.attempt
  {
    var first;
    execution, first := Execute(pc, engine, scope);
    var rest := Conclude(After(pc, first), execution, replies);
    AllowedThen(pc, first, rest);
    calls := first + rest;
    if first == [] {
      assert calls == rest;
    } else {
      assert calls[1..] == rest;
    }
  }

  // ------------------------------------------- the calls as protocol steps

  /** The protocol's call behind a recorded one; its readings and texts are free. */
  predicate StandsFor(call: Call, held: HeldCall) {
    match call
    case Published(manifest, _) => held.PublishHeld? && held.nonce == manifest.attempt.nonce
    case Completed(result, _) => held.CompleteHeld? && (result.InlineResult? ==> held.payload == result.payload)
    case FailedFor(retryable, _) =>
      if retryable then held.RetryHeld? && held.readAt <= held.now && held.delay >= 1 else held.FailHeld?
    case CancelledOff(_) => held.CancelHeld?
  }

  /** The recorded reply is what the script answers in this state. */
  predicate RepliedBy(cfg: Config, s: Sys, w: WorkerId, call: Call, held: HeldCall)
    requires Holds(s, w) && StandsFor(call, held)
    requires call.Published? ==> PcOf(s, w).request.delivery.Store?
  {
    var pc := PcOf(s, w);
    match call
    case Published(manifest, reply) =>
      var Store(dest, mode) := pc.request.delivery;
      Publish(s.db, pc.job, w, pc.attempt, mode, dest, manifest.attempt, manifest, held.now).1 == reply
    case Completed(result, ok) => Complete(s.db, pc.job, w, result, held.now).1 == ok
    case FailedFor(retryable, ok) =>
      if retryable then
        Retry(s.db, pc.job, w, cfg.maxAttempts, held.error, held.now, held.readAt + held.delay).1 == ok
      else
        Terminal(s.db, pc.job, w, Failed, held.error, held.now).1 == ok
    case CancelledOff(ok) => Terminal(s.db, pc.job, w, Cancelled, NoMessage, held.now).1 == ok
  }

  /** The first of some allowed calls is enabled, and after its reply the rest is allowed. */
  lemma AllowedIsEnabled(cfg: Config, s: Sys, w: WorkerId, calls: seq<Call>, held: HeldCall)
    requires |s.db.pending| == cfg.shards && Holds(s, w) && calls != [] && Allowed(PcOf(s, w), calls)
    requires StandsFor(calls[0], held) && held.now <= s.clock && RepliedBy(cfg, s, w, calls[0], held)
    ensures HeldEnabled(s, w, held)
    ensures var t := ApplyHeld(cfg, s, w, held);
      |calls| > 1 ==> Holds(t, w) && Allowed(PcOf(t, w), calls[1..])
  {
  }

  /** What others do, and then a call of the worker. */
  datatype Turn = Turn(others: seq<Step>, call: Call, held: HeldCall)

  /** Anything but a step of this worker; its heartbeat thread counts among the others. */
  predicate ByOthers(step: Step, w: WorkerId) {
    !(step.Held? && step.worker == w) && !(step.Loop? && step.worker == w && !step.loop.Beat?)
  }

  function CallsOf(turns: seq<Turn>): (r: seq<Call>)
    ensures |r| == |turns|
  {
    if turns == [] then [] else [turns[0].call] + CallsOf(turns[1..])
  }

  function AfterOthers(cfg: Config, s: Sys, turn: Turn): (r: Sys)
    requires |s.db.pending| == cfg.shards
    ensures |r.db.pending| == cfg.shards
  {
    RunFrom(cfg, s, turn.others)
  }

  function AfterTurn(cfg: Config, s: Sys, w: WorkerId, turn: Turn): (r: Sys)
    requires |s.db.pending| == cfg.shards
    ensures |r.db.pending| == cfg.shards
  {
    Apply(cfg, AfterOthers(cfg, s, turn), Held(w, turn.held))
  }

  /** Each recorded reply is the one the script gives when its turn comes. */
  predicate Played(cfg: Config, s: Sys, w: WorkerId, turns: seq<Turn>)
    requires |s.db.pending| == cfg.shards
    decreases |turns|
  {
    turns == [] ||
    var turn, now := turns[0], AfterOthers(cfg, s, turns[0]);
    && (forall i | 0 <= i < |turn.others| :: ByOthers(turn.others[i], w))
    && StandsFor(turn.call, turn.held) && turn.held.now <= now.clock
    && (Holds(now, w) && (turn.call.Published? ==> PcOf(now, w).request.delivery.Store?) ==>
          RepliedBy(cfg, now, w, turn.call, turn.held))
    && Played(cfg, AfterTurn(cfg, s, w, turn), w, turns[1..])
  }

  /** Every call is a step the protocol enables. */
  predicate AllEnabled(cfg: Config, s: Sys, w: WorkerId, turns: seq<Turn>)
    requires |s.db.pending| == cfg.shards
    decreases |turns|
  {
    turns != [] ==>
      && HeldEnabled(AfterOthers(cfg, s, turns[0]), w, turns[0].held)
      && AllEnabled(cfg, AfterTurn(cfg, s, w, turns[0]), w, turns[1..])
  }

  lemma OthersKeepPc(cfg: Config, s: Sys, step: Step, w: WorkerId)
    requires |s.db.pending| == cfg.shards && ByOthers(step, w)
    ensures PcOf(Apply(cfg, s, step), w) == PcOf(s, w)
  {
  }

  lemma {:induction false} OthersLeavePc(cfg: Config, s: Sys, steps: seq<Step>, w: WorkerId)
    requires |s.db.pending| == cfg.shards && forall i | 0 <= i < |steps| :: ByOthers(steps[i], w)
    ensures PcOf(RunFrom(cfg, s, steps), w) == PcOf(s, w)
  {
    if steps != [] {
      var m := |steps| - 1;
      OthersLeavePc(cfg, s, steps[..m], w);
      OthersKeepPc(cfg, RunFrom(cfg, s, steps[..m]), steps[m], w);
    }
  }

  lemma CallsOfRest(turns: seq<Turn>)
    requires turns != []
    ensures CallsOf(turns)[0] == turns[0].call && CallsOf(turns)[1..] == CallsOf(turns[1..])
  {
  }

  /**
   * Whatever the others do in between, allowed calls with the scripts' own
   * replies are a sequence of enabled steps: so is every turn of `work_once`.
   */
  lemma {:induction false} AllowedIsPlayed(cfg: Config, s: Sys, w: WorkerId, turns: seq<Turn>)
    requires |s.db.pending| == cfg.shards && Played(cfg, s, w, turns)
    requires turns != [] ==> Holds(s, w) && Allowed(PcOf(s, w), CallsOf(turns))
    ensures AllEnabled(cfg, s, w, turns)
    decreases |turns|
  {
    if turns != [] {
      var now := AfterOthers(cfg, s, turns[0]);
      OthersLeavePc(cfg, s, turns[0].others, w);
      CallsOfRest(turns);
      AllowedIsEnabled(cfg, now, w, CallsOf(turns), turns[0].held);
      AllowedIsPlayed(cfg, AfterTurn(cfg, s, w, turns[0]), w, turns[1..]);
    }
  }

  // ------------------------------------------------------- the heartbeat thread

  /** One turn of the heartbeat thread: the lease lost, a cancellation seen, neither, or an exception. */
  datatype Beat = LeaseLost | CancelSeen | AllWell | BeatFailed

  predicate EndsWork(beat: Beat) {
    beat == LeaseLost || beat == CancelSeen
  }

  /**
   * The heartbeat thread until it is stopped: it cancels the engine's query at
   * the first beat that finds the lease lost or a cancellation, and then ends;
   * an exception does not end it.
   */
  method KeepLease(beats: seq<Beat>) returns (made: nat, cancelled: bool)
    ensures made <= |beats|
    ensures cancelled <==> exists i | 0 <= i < |beats| :: EndsWork(beats[i])
    ensures cancelled ==> made > 0 && EndsWork(beats[made - 1])
    ensures !cancelled ==> made == |beats|
    ensures forall i | 0 <= i < made - 1 :: !EndsWork(beats[i])
  {
    made := 0;
    while made < |beats|
      invariant made <= |beats|
      invariant forall i | 0 <= i < made :: !EndsWork(beats[i])
    {
      var beat := beats[made];
      made := made + 1;
      match beat {
        case LeaseLost => return made, true;
        case CancelSeen => return made, true;
        case AllWell =>
        case BeatFailed =>
      }
    }
    cancelled := false;
  }
}
