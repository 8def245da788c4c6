// The in-process publication registry, and its agreement with the shared one.
module MemoryRegistry {
  import opened Lists
  import opened Scripts

  /** Overwriting drops the append fields here; the shared registry keeps them. */
  datatype Entry = Entry(current: Option<Pointer>, lastAppend: Option<Pointer>)

  datatype Request = Request(dest: Dest, mode: WriteMode, entry: Pointer, now: int)

  function Accept(values: map<Dest, Entry>, r: Request): (map<Dest, Entry>, bool) {
    if r.mode == WriteAppend then
      var old_ := if r.dest in values then values[r.dest] else Entry(None, None);
      (values[r.dest := old_.(lastAppend := Some(r.entry))], true)
    else if r.mode == WriteError && r.dest in values
            && (values[r.dest].current.None? || values[r.dest].current.value.query != r.entry.query) then
      (values, false)
    else
      (values[r.dest := Entry(Some(r.entry), None)], true)
  }

  class MemoryOutputRegistry {
    var values: map<Dest, Entry>

    constructor ()
      ensures values == map[]
    {
      values := map[];
    }

    method PublishOutput(r: Request) returns (ok: bool)
      modifies this
      ensures (values, ok) == Accept(old(values), r)
    {
      if r.mode == WriteAppend {
        if r.dest !in values {
          values := values[r.dest := Entry(None, None)];
        }
        values := values[r.dest := values[r.dest].(lastAppend := Some(r.entry))];
        assert values == old(values)[r.dest := values[r.dest]];
        return true;
      }
      if r.mode == WriteError && r.dest in values {
        var current := values[r.dest].current;
        if current.None? || current.value.query != r.entry.query {
          return false;
        }
      }
      values := values[r.dest := Entry(Some(r.entry), None)];
      return true;
    }
  }

  /** The same destinations are taken, and the same pointer is authoritative. */
  ghost predicate Agree(values: map<Dest, Entry>, pubs: map<Dest, Publication>) {
    values.Keys == pubs.Keys && forall dest | dest in values :: values[dest].current == pubs[dest].current
  }

  function Shared(pubs: map<Dest, Publication>, r: Request): (map<Dest, Publication>, bool) {
    Record(pubs, r.dest, r.mode, r.entry, r.now)
  }

  function RunMemory(rs: seq<Request>): (map<Dest, Entry>, seq<bool>) {
    if rs == [] then (map[], []) else
    var (values, replies) := RunMemory(rs[..|rs| - 1]);
    var (next, ok) := Accept(values, rs[|rs| - 1]);
    (next, replies + [ok])
  }

  function RunShared(rs: seq<Request>): (map<Dest, Publication>, seq<bool>) {
    if rs == [] then (map[], []) else
    var (pubs, replies) := RunShared(rs[..|rs| - 1]);
    var (next, ok) := Shared(pubs, rs[|rs| - 1]);
    (next, replies + [ok])
  }

  lemma AgreeStep(values: map<Dest, Entry>, pubs: map<Dest, Publication>, r: Request)
    requires Agree(values, pubs)
    ensures Agree(Accept(values, r).0, Shared(pubs, r).0)
    ensures Accept(values, r).1 == Shared(pubs, r).1
  {
  }

  /** Over any requests both registries give the same answers and end with the same authoritative pointers. */
  lemma {:induction false} RegistriesAgree(rs: seq<Request>)
    ensures Agree(RunMemory(rs).0, RunShared(rs).0)
    ensures RunMemory(rs).1 == RunShared(rs).1
  {
    if rs != [] {
      RegistriesAgree(rs[..|rs| - 1]);
      AgreeStep(RunMemory(rs[..|rs| - 1]).0, RunShared(rs[..|rs| - 1]).0, rs[|rs| - 1]);
    }
  }

  /** The last append accepted at a destination since anything else was. */
  function AppendSince(rs: seq<Request>, replies: seq<bool>, dest: Dest): Option<Pointer>
    requires |rs| == |replies|
  {
    if rs == [] then None
    else
      var m := |rs| - 1;
      if replies[m] && rs[m].dest == dest then
        if rs[m].mode == WriteAppend then Some(rs[m].entry) else None
      else
        AppendSince(rs[..m], replies[..m], dest)
  }

  lemma {:induction false} OneReplyEach(rs: seq<Request>)
    ensures |RunMemory(rs).1| == |rs|
  {
    if rs != [] {
      OneReplyEach(rs[..|rs| - 1]);
    }
  }

  /** Overwriting drops the append fields here; they are those of the last append since. */
  lemma {:induction false} AppendFieldsAre(rs: seq<Request>, dest: Dest)
    ensures |RunMemory(rs).1| == |rs|
    ensures var (values, replies) := RunMemory(rs);
      (if dest in values then values[dest].lastAppend else None) == AppendSince(rs, replies, dest)
  {
    OneReplyEach(rs);
    if rs != [] {
      var m := |rs| - 1;
      AppendFieldsAre(rs[..m], dest);
      assert RunMemory(rs).1[..m] == RunMemory(rs[..m]).1;
    }
  }
}
