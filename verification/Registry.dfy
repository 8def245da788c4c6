// The publication registry: the record of a destination, as a function of the
// publications accepted there, and the two registries that keep such records.
module Registry {
  import opened Lists
  import opened Scripts
  import opened Protocol
  import opened Evolution
  import opened Fencing

  predicate AcceptedAt(e: Event, dest: Dest) {
    e.Accepted? && e.dest == dest
  }

  /** The last publication accepted at a destination among the appends, or among the others. */
  function LastAt(history: seq<Event>, dest: Dest, appends: bool): (r: Option<Pointer>) {
    if history == [] then
      None
    else
      var e := history[|history| - 1];
      if AcceptedAt(e, dest) && (e.mode == WriteAppend) == appends then
        Some(Pointer(e.query, e.attemptId, e.manifest))
      else
        LastAt(history[..|history| - 1], dest, appends)
  }

  predicate UsedAt(history: seq<Event>, dest: Dest) {
    exists e | e in history :: AcceptedAt(e, dest)
  }

  /** A record exists exactly for a destination something was accepted at, and holds the last of each kind. */
  ghost predicate RecordOk(pubs: map<Dest, Publication>, history: seq<Event>, dest: Dest) {
    if dest in pubs then
      && UsedAt(history, dest)
      && pubs[dest].current == LastAt(history, dest, false)
      && pubs[dest].lastAppend == LastAt(history, dest, true)
    else
      && !UsedAt(history, dest)
      && LastAt(history, dest, false) == LastAt(history, dest, true) == None
  }

  /** With only `error` writers at a destination, one query id is ever accepted there. */
  ghost predicate Exclusive(history: seq<Event>, dest: Dest) {
    (forall e | e in history && AcceptedAt(e, dest) :: e.mode == WriteError) ==>
      forall a, b | a in history && b in history && AcceptedAt(a, dest) && AcceptedAt(b, dest) :: a.query == b.query
  }

  /** What one step does to the registry: an accepted publication is recorded, and nothing else is. */
  ghost predicate RegistryStep(s: Sys, t: Sys) {
    && Grows(s, t) && |News(s, t)| <= 1
    && if |News(s, t)| == 1 && News(s, t)[0].Accepted? then
         var e := News(s, t)[0];
         exists now :: Record(s.db.pubs, e.dest, e.mode, Pointer(e.query, e.attemptId, e.manifest), now) == (t.db.pubs, true)
       else
         t.db.pubs == s.db.pubs
  }

  lemma ClientRecords(cfg: Config, s: Sys, call: ClientCall)
    requires |s.db.pending| == cfg.shards && ClientEnabled(cfg, s, call)
    ensures RegistryStep(s, ApplyClient(cfg, s, call))
  {
  }

  lemma LoopRecords(cfg: Config, s: Sys, w: WorkerId, call: LoopCall)
    requires |s.db.pending| == cfg.shards && LoopEnabled(cfg, s, w, call)
    ensures RegistryStep(s, ApplyLoop(cfg, s, w, call))
  {
  }

  lemma HeldRecords(cfg: Config, s: Sys, w: WorkerId, call: HeldCall)
    requires |s.db.pending| == cfg.shards && HeldEnabled(s, w, call)
    ensures RegistryStep(s, ApplyHeld(cfg, s, w, call))
  {
  }

  lemma UpkeepRecords(cfg: Config, s: Sys, call: UpkeepCall)
    requires |s.db.pending| == cfg.shards && UpkeepEnabled(cfg, s, call)
    ensures RegistryStep(s, ApplyUpkeep(cfg, s, call))
  {
  }

  lemma StepRecords(cfg: Config, s: Sys, step: Step)
    requires |s.db.pending| == cfg.shards
    ensures RegistryStep(s, Apply(cfg, s, step))
  {
    match step
    case Tick(_) =>
    case Client(call) => if ClientEnabled(cfg, s, call) { ClientRecords(cfg, s, call); }
    case Loop(w, call) => if LoopEnabled(cfg, s, w, call) { LoopRecords(cfg, s, w, call); }
    case Held(w, call) => if HeldEnabled(s, w, call) { HeldRecords(cfg, s, w, call); }
    case Upkeep(call) => if UpkeepEnabled(cfg, s, call) { UpkeepRecords(cfg, s, call); }
  }

  lemma LastAtStep(history: seq<Event>, e: Event, dest: Dest, appends: bool)
    ensures LastAt(history + [e], dest, appends) ==
      if AcceptedAt(e, dest) && (e.mode == WriteAppend) == appends then Some(Pointer(e.query, e.attemptId, e.manifest))
      else LastAt(history, dest, appends)
  {
    assert (history + [e])[..|history + [e]| - 1] == history;
  }

  lemma RecordedOk(pubs: map<Dest, Publication>, history: seq<Event>, e: Event, now: int, dest: Dest)
    requires RecordOk(pubs, history, dest) && e.Accepted?
    requires Record(pubs, e.dest, e.mode, Pointer(e.query, e.attemptId, e.manifest), now).1
    ensures RecordOk(Record(pubs, e.dest, e.mode, Pointer(e.query, e.attemptId, e.manifest), now).0, history + [e], dest)
  {
    LastAtStep(history, e, dest, false);
    LastAtStep(history, e, dest, true);
    assert e in history + [e];
    assert forall x | x in history :: x in history + [e];
  }

  lemma UnrecordedOk(pubs: map<Dest, Publication>, history: seq<Event>, e: Event, dest: Dest)
    requires RecordOk(pubs, history, dest) && !e.Accepted?
    ensures RecordOk(pubs, history + [e], dest)
  {
    LastAtStep(history, e, dest, false);
    LastAtStep(history, e, dest, true);
    assert forall x | x in history :: x in history + [e];
  }

  lemma RecordStaysOk(cfg: Config, s: Sys, step: Step, dest: Dest)
    requires |s.db.pending| == cfg.shards && RecordOk(s.db.pubs, s.history, dest)
    ensures RecordOk(Apply(cfg, s, step).db.pubs, Apply(cfg, s, step).history, dest)
  {
    var t := Apply(cfg, s, step);
    StepRecords(cfg, s, step);
    assert t.history == s.history + News(s, t);
    if |News(s, t)| == 1 {
      var e := News(s, t)[0];
      assert t.history == s.history + [e];
      if e.Accepted? {
        var now :| Record(s.db.pubs, e.dest, e.mode, Pointer(e.query, e.attemptId, e.manifest), now) == (t.db.pubs, true);
        RecordedOk(s.db.pubs, s.history, e, now, dest);
      } else {
        UnrecordedOk(s.db.pubs, s.history, e, dest);
      }
    }
  }

  /** The query of the last accepted publication there, of the kind that moves the pointer. */
  lemma {:induction false} LastAtIsThere(history: seq<Event>, dest: Dest)
    ensures LastAt(history, dest, false).Some? ==>
      exists e | e in history :: AcceptedAt(e, dest) && e.query == LastAt(history, dest, false).value.query
  {
    if history != [] {
      LastAtIsThere(history[..|history| - 1], dest);
    }
  }

  lemma ExclusiveExtends(pubs: map<Dest, Publication>, history: seq<Event>, e: Event, now: int, dest: Dest)
    requires RecordOk(pubs, history, dest) && Exclusive(history, dest)
    requires AcceptedAt(e, dest) ==>
      Record(pubs, e.dest, e.mode, Pointer(e.query, e.attemptId, e.manifest), now).1
    ensures Exclusive(history + [e], dest)
  {
    LastAtIsThere(history, dest);
    var longer := history + [e];
    assert forall x | x in history :: x in longer;
    if AcceptedAt(e, dest) && forall x | x in longer && AcceptedAt(x, dest) :: x.mode == WriteError {
      forall a | a in history && AcceptedAt(a, dest)
        ensures a.query == e.query
      {
        assert e in longer;
      }
    }
  }

  lemma ExclusiveStays(cfg: Config, s: Sys, step: Step, dest: Dest)
    requires |s.db.pending| == cfg.shards && RecordOk(s.db.pubs, s.history, dest) && Exclusive(s.history, dest)
    ensures Exclusive(Apply(cfg, s, step).history, dest)
  {
    var t := Apply(cfg, s, step);
    StepRecords(cfg, s, step);
    assert t.history == s.history + News(s, t);
    if |News(s, t)| == 1 {
      var e := News(s, t)[0];
      assert t.history == s.history + [e];
      var now := 0;
      if e.Accepted? {
        now :| Record(s.db.pubs, e.dest, e.mode, Pointer(e.query, e.attemptId, e.manifest), now) == (t.db.pubs, true);
      }
      ExclusiveExtends(s.db.pubs, s.history, e, now, dest);
    }
  }
}
