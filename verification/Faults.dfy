// Which faults of an execution lead to another attempt.
module Faults {
  import opened Scripts
  import opened Protocol
  import opened Endings
  import opened Worker

  /** Connection trouble, a query marked as retryable, or a text that tells of an outage. */
  predicate MayPass(fault: Fault) {
    fault == Transient || fault == Other(true)
  }

  /**
   * After an execution that raised a fault, the call the worker makes while it
   * owns the job with a live lease sends it to the retry set exactly if the
   * fault may pass and attempts are left, and else fails it.
   */
  lemma RetriedIffItMayPass(cfg: Config, s: Sys, w: WorkerId, fault: Fault, replies: Replies, calls: seq<Call>, held: HeldCall)
    requires |s.db.pending| == cfg.shards && Holds(s, w) && HeldEnabled(s, w, held)
    requires ByLiveOwner(s, Held(w, held), HeldJob(s, w))
    requires replies.owns && Concludes(Raises(fault), replies, calls) && calls != [] && StandsFor(calls[0], held)
    ensures |calls| == 1
    ensures var id, t := HeldJob(s, w), ApplyHeld(cfg, s, w, held);
      && (HasStatus(t.db, id, Retrying) <==> MayPass(fault) && s.db.jobs[id].attempts < cfg.maxAttempts)
      && (HasStatus(t.db, id, Failed) <==> !(MayPass(fault) && s.db.jobs[id].attempts < cfg.maxAttempts))
  {
    HeldRunning(cfg, s, w, held, HeldJob(s, w));
  }

  /** An interruption that nobody asked for, a deadline included, fails the job for good. */
  lemma InterruptionFails(cfg: Config, s: Sys, w: WorkerId, replies: Replies, calls: seq<Call>, held: HeldCall)
    requires |s.db.pending| == cfg.shards && Holds(s, w) && HeldEnabled(s, w, held)
    requires ByLiveOwner(s, Held(w, held), HeldJob(s, w))
    requires replies.owns && !replies.cancelSeen
    requires Concludes(RaisesCancelled, replies, calls) && calls != [] && StandsFor(calls[0], held)
    ensures HasStatus(ApplyHeld(cfg, s, w, held).db, HeldJob(s, w), Failed)
  {
    HeldRunning(cfg, s, w, held, HeldJob(s, w));
  }

  /** And one that was asked for cancels it. */
  lemma AskedForCancels(cfg: Config, s: Sys, w: WorkerId, replies: Replies, calls: seq<Call>, held: HeldCall)
    requires |s.db.pending| == cfg.shards && Holds(s, w) && HeldEnabled(s, w, held)
    requires ByLiveOwner(s, Held(w, held), HeldJob(s, w)) && replies.cancelSeen
    requires Concludes(RaisesCancelled, replies, calls) && calls != [] && StandsFor(calls[0], held)
    ensures HasStatus(ApplyHeld(cfg, s, w, held).db, HeldJob(s, w), Cancelled)
  {
    HeldRunning(cfg, s, w, held, HeldJob(s, w));
  }

  /** A result is reported first of all, unless a cancellation is seen; then the job is called off. */
  lemma ResultIsReported(result: Result, replies: Replies, calls: seq<Call>)
    requires Concludes(Returns(result), replies, calls)
    ensures calls != []
    ensures calls[0] == if replies.cancelSeen then CancelledOff(replies.cancelled) else Completed(result, replies.ended)
    ensures |calls| == 2 <==> !replies.cancelSeen && !replies.ended && replies.cancelSeenLater
  {
  }

  /** A fenced worker makes no call at all, but to call off a job whose cancellation it sees. */
  lemma FencedKeepsOff(replies: Replies, calls: seq<Call>)
    requires Concludes(RaisesFenced, replies, calls)
    ensures calls == if replies.cancelSeen then [CancelledOff(replies.cancelled)] else []
  {
  }
}
