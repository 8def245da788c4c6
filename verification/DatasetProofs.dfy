// What the dataset cache promises: every loaded value is cached or released,
// never both, whatever the threads do; and one caller at a time sees a plain
// least-recently-used cache that a history of the accesses describes.
module DatasetProofs {
  import opened Lists
  import opened Datasets

  // ------------------------------------------------ every value is accounted for

  /**
   * The blocks the code runs under its lock, and the releases `close` does
   * outside it; threads interleave in any order of these.
   */
  datatype Op<T> = OpFetch(key: Key, now: int) | OpPut(key: Key, value: T, now: int) | OpClear | OpRelease

  function Do<T>(limits: Limits, s: Cache<T>, op: Op<T>): Cache<T> {
    match op
    case OpFetch(key, now) => Fetch(s, key, now).0
    case OpPut(key, value, now) => Put(limits, s, key, value, now)
    case OpClear => Clear(s)
    case OpRelease => ReleaseNext(s)
  }

  function RunOps<T>(limits: Limits, s: Cache<T>, ops: seq<Op<T>>): Cache<T> {
    if ops == [] then s else Do(limits, RunOps(limits, s, ops[..|ops| - 1]), ops[|ops| - 1])
  }

  /** The values handed to the cache, in order. */
  function Given<T>(ops: seq<Op<T>>): seq<T> {
    if ops == [] then []
    else Given(ops[..|ops| - 1]) + (if ops[|ops| - 1].OpPut? then [ops[|ops| - 1].value] else [])
  }

  /** How often the cache, a `close` under way and the releases so far hold a value. */
  ghost function Held<T>(s: Cache<T>, x: T): nat {
    Count(Values(s.entries), x) + Count(s.closing, x) + Count(s.released, x)
  }

  lemma CountParts<T>(a: seq<Entry<T>>, b: seq<Entry<T>>, x: T)
    ensures Count(Values(a + b), x) == Count(Values(a), x) + Count(Values(b), x)
  {
    assert Values(a + b) == Values(a) + Values(b);
    CountConcat(Values(a), Values(b), x);
  }

  lemma CountDrop<T>(entries: seq<Entry<T>>, i: nat, x: T)
    requires i < |entries|
    ensures Count(Values(entries), x) == Count(Values(DropAt(entries, i)), x) + Count([entries[i].value], x)
  {
    var front, back := entries[..i], entries[i + 1..];
    CountParts(front, back, x);
    CountParts(front, [entries[i]] + back, x);
    CountParts([entries[i]], back, x);
    assert entries == front + ([entries[i]] + back);
    assert Values([entries[i]]) == [entries[i].value];
  }

  lemma CountSplit<T>(entries: seq<Entry<T>>, n: nat, x: T)
    requires n <= |entries|
    ensures Count(Values(entries), x) == Count(Values(entries[..n]), x) + Count(Values(entries[n..]), x)
  {
    CountParts(entries[..n], entries[n..], x);
    assert entries == entries[..n] + entries[n..];
  }

  lemma CountSnoc<T>(entries: seq<Entry<T>>, entry: Entry<T>, x: T)
    ensures Count(Values(entries + [entry]), x) == Count(Values(entries), x) + Count([entry.value], x)
  {
    CountParts(entries, [entry], x);
    assert Values([entry]) == [entry.value];
  }

  lemma FetchHeld<T>(s: Cache<T>, key: Key, now: int, x: T)
    ensures Held(Fetch(s, key, now).0, x) == Held(s, x)
  {
    var i := Find(s.entries, key);
    if i < |s.entries| {
      CountDrop(s.entries, i, x);
      CountSnoc(DropAt(s.entries, i), s.entries[i], x);
      CountConcat(s.released, [s.entries[i].value], x);
    }
  }

  lemma PoppedHeld<T>(entries: seq<Entry<T>>, key: Key, x: T)
    ensures Count(Values(entries), x) == Count(Values(Popped(entries, key).0), x) + Count(Popped(entries, key).1, x)
  {
    var i := Find(entries, key);
    if i < |entries| {
      CountDrop(entries, i, x);
    }
  }

  /** Trimming the oldest entries and releasing them keeps the balance. */
  lemma TrimHeld<T>(released: seq<T>, freed: seq<T>, grown: seq<Entry<T>>, n: nat, x: T)
    requires n <= |grown|
    ensures Count(Values(grown[n..]), x) + Count(released + freed + Values(grown[..n]), x)
         == Count(Values(grown), x) + Count(released, x) + Count(freed, x)
  {
    CountSplit(grown, n, x);
    CountConcat(released, freed, x);
    CountConcat(released + freed, Values(grown[..n]), x);
  }

  lemma PutHeld<T>(limits: Limits, s: Cache<T>, key: Key, value: T, now: int, x: T)
    ensures Held(Put(limits, s, key, value, now), x) == Held(s, x) + Count([value], x)
  {
    var entry := Entry(key, value, now + limits.ttl);
    var (others, freed) := Popped(s.entries, key);
    var grown := others + [entry];
    PoppedHeld(s.entries, key, x);
    CountSnoc(others, entry, x);
    TrimHeld(s.released, freed, grown, Excess(|grown|, limits.maxEntries), x);
  }

  lemma ReleaseHeld<T>(s: Cache<T>, x: T)
    ensures Held(ReleaseNext(s), x) == Held(s, x)
  {
    if s.closing != [] {
      assert s.closing == [s.closing[0]] + s.closing[1..];
      CountConcat([s.closing[0]], s.closing[1..], x);
      CountConcat(s.released, [s.closing[0]], x);
    }
  }

  lemma StepHeld<T>(limits: Limits, s: Cache<T>, op: Op<T>, x: T)
    ensures Held(Do(limits, s, op), x) == Held(s, x) + if op.OpPut? then Count([op.value], x) else 0
  {
    match op {
      case OpFetch(key, now) => FetchHeld(s, key, now, x);
      case OpPut(key, value, now) => PutHeld(limits, s, key, value, now, x);
      case OpClear => CountConcat(s.closing, Values(s.entries), x);
      case OpRelease => ReleaseHeld(s, x);
    }
  }

  /** In every interleaving each value given to the cache is cached, about to be released, or released. */
  lemma {:induction false} NothingLeaks<T>(limits: Limits, ops: seq<Op<T>>, x: T)
    ensures Held(RunOps(limits, Empty(), ops), x) == Count(Given(ops), x)
  {
    if ops != [] {
      var m := |ops| - 1;
      NothingLeaks(limits, ops[..m], x);
      StepHeld(limits, RunOps(limits, Empty(), ops[..m]), ops[m], x);
      CountConcat(Given(ops[..m]), if ops[m].OpPut? then [ops[m].value] else [], x);
    }
  }

  /**
   * If every load makes a value of its own, no value is released twice or
   * while it is cached, and every one is released once `close` is through.
   */
  lemma ReleasedOnce<T>(limits: Limits, ops: seq<Op<T>>, value: T)
    requires NoDuplicates(Given(ops))
    ensures var s := RunOps(limits, Empty(), ops);
      && Count(s.released, value) <= 1
      && !(value in s.released && value in Values(s.entries))
      && (s.entries == [] && s.closing == [] ==> (value in s.released <==> value in Given(ops)))
  {
    NothingLeaks(limits, ops, value);
    AtMostOnce(Given(ops), value);
    var s := RunOps(limits, Empty(), ops);
    CountIn(s.released, value);
    CountIn(Given(ops), value);
    CountIn(Values(s.entries), value);
  }

  // ---------------------------------------------------------- size and keys

  ghost predicate Tidy<T>(limits: Limits, s: Cache<T>) {
    |s.entries| <= limits.maxEntries && NoDuplicates(Keys(s.entries))
  }

  lemma DropTidy<T>(entries: seq<Entry<T>>, i: nat)
    requires i < |entries| && NoDuplicates(Keys(entries))
    ensures NoDuplicates(Keys(DropAt(entries, i))) && entries[i].key !in Keys(DropAt(entries, i))
  {
    var rest := DropAt(entries, i);
    assert forall j | 0 <= j < |rest| :: rest[j] == if j < i then entries[j] else entries[j + 1];
    var keys := Keys(entries);
    forall j | 0 <= j < |rest|
      ensures rest[j].key != entries[i].key
    {
      assert keys[if j < i then j else j + 1] != keys[i];
    }
    forall j, k | 0 <= j < k < |rest|
      ensures rest[j].key != rest[k].key
    {
      assert keys[if j < i then j else j + 1] != keys[if k < i then k else k + 1];
    }
  }

  lemma PoppedTidy<T>(entries: seq<Entry<T>>, key: Key)
    requires NoDuplicates(Keys(entries))
    ensures NoDuplicates(Keys(Popped(entries, key).0)) && key !in Keys(Popped(entries, key).0)
  {
    var i := Find(entries, key);
    if i < |entries| {
      DropTidy(entries, i);
    }
  }

  lemma SnocTidy<T>(entries: seq<Entry<T>>, entry: Entry<T>)
    requires NoDuplicates(Keys(entries)) && entry.key !in Keys(entries)
    ensures NoDuplicates(Keys(entries + [entry]))
  {
    assert Keys(entries + [entry]) == Keys(entries) + [entry.key];
  }

  lemma TailTidy<T>(entries: seq<Entry<T>>, n: nat)
    requires n <= |entries| && NoDuplicates(Keys(entries))
    ensures NoDuplicates(Keys(entries[n..]))
  {
    assert Keys(entries[n..]) == Keys(entries)[n..];
  }

  lemma FetchTidy<T>(limits: Limits, s: Cache<T>, key: Key, now: int)
    requires Tidy(limits, s)
    ensures Tidy(limits, Fetch(s, key, now).0)
  {
    var i := Find(s.entries, key);
    if i < |s.entries| {
      DropTidy(s.entries, i);
      SnocTidy(DropAt(s.entries, i), s.entries[i]);
    }
  }

  lemma PutTidy<T>(limits: Limits, s: Cache<T>, key: Key, value: T, now: int)
    requires Tidy(limits, s)
    ensures Tidy(limits, Put(limits, s, key, value, now))
  {
    PoppedTidy(s.entries, key);
    var others := Popped(s.entries, key).0;
    var last := Entry(key, value, now + limits.ttl);
    SnocTidy(others, last);
    TailTidy(others + [last], Excess(|others + [last]|, limits.maxEntries));
  }

  /** In every interleaving the cache is within its size and has one entry a key. */
  lemma {:induction false} AlwaysTidy<T>(limits: Limits, ops: seq<Op<T>>)
    ensures Tidy(limits, RunOps(limits, Empty<T>(), ops))
  {
    if ops != [] {
      var m := |ops| - 1;
      AlwaysTidy(limits, ops[..m]);
      var s := RunOps(limits, Empty<T>(), ops[..m]);
      match ops[m] {
        case OpFetch(key, now) => FetchTidy(limits, s, key, now);
        case OpPut(key, value, now) => PutTidy(limits, s, key, value, now);
        case OpClear =>
        case OpRelease =>
      }
    }
  }

  // -------------------------------------------------------- freshness of hits

  datatype Stamp<T> = Stamp(value: T, at: int)

  /** The most recent load of a key. */
  function LastLoad<T>(ops: seq<Op<T>>, key: Key): Option<Stamp<T>> {
    if ops == [] then None
    else
      var op := ops[|ops| - 1];
      if op.OpPut? && op.key == key then Some(Stamp(op.value, op.now)) else LastLoad(ops[..|ops| - 1], key)
  }

  ghost predicate Current<T>(limits: Limits, ops: seq<Op<T>>, entry: Entry<T>) {
    LastLoad(ops, entry.key) == Some(Stamp(entry.value, entry.expires - limits.ttl))
  }

  ghost predicate AllCurrent<T>(limits: Limits, ops: seq<Op<T>>, entries: seq<Entry<T>>) {
    forall e | e in entries :: Current(limits, ops, e)
  }

  lemma FetchKeepsEntries<T>(s: Cache<T>, key: Key, now: int)
    ensures forall e | e in Fetch(s, key, now).0.entries :: e in s.entries
  {
  }

  lemma PutEntries<T>(limits: Limits, s: Cache<T>, key: Key, value: T, now: int)
    requires Tidy(limits, s)
    ensures forall e | e in Put(limits, s, key, value, now).entries ::
      e == Entry(key, value, now + limits.ttl) || (e in s.entries && e.key != key)
  {
    PoppedTidy(s.entries, key);
    var others := Popped(s.entries, key).0;
    forall e | e in others
      ensures e in s.entries && e.key != key
    {
      var j :| 0 <= j < |others| && others[j] == e;
      assert Keys(others)[j] == e.key;
    }
  }

  lemma {:induction false} EntriesAreCurrent<T>(limits: Limits, ops: seq<Op<T>>)
    ensures AllCurrent(limits, ops, RunOps(limits, Empty<T>(), ops).entries)
  {
    if ops != [] {
      var m := |ops| - 1;
      EntriesAreCurrent(limits, ops[..m]);
      AlwaysTidy(limits, ops[..m]);
      var s := RunOps(limits, Empty<T>(), ops[..m]);
      match ops[m] {
        case OpFetch(key, now) => FetchKeepsEntries(s, key, now);
        case OpPut(key, value, now) => PutEntries(limits, s, key, value, now);
        case OpClear =>
        case OpRelease =>
      }
    }
  }

  /** In every interleaving a hit is the value of the key's most recent load, younger than the limit. */
  lemma HitsAreFresh<T>(limits: Limits, ops: seq<Op<T>>, key: Key, now: int)
    ensures var cached := Fetch(RunOps(limits, Empty<T>(), ops), key, now).1;
      cached.Some? ==>
        && LastLoad(ops, key).Some?
        && cached.value == LastLoad(ops, key).value.value
        && now < LastLoad(ops, key).value.at + limits.ttl
  {
    EntriesAreCurrent(limits, ops);
    var entries := RunOps(limits, Empty<T>(), ops).entries;
    var i := Find(entries, key);
    if i < |entries| {
      assert Current(limits, ops, entries[i]);
    }
  }

  // ------------------------------------------------- calls are such operations

  /** The operations one call of `get_or_load` comes down to. */
  function OpsOf<T>(s: Cache<T>, call: Call<T>): seq<Op<T>> {
    var first, second := OpFetch(call.key, call.first), OpFetch(call.key, call.second);
    if Fetch(s, call.key, call.first).1.Some? then [first]
    else if Fetch(Fetch(s, call.key, call.first).0, call.key, call.second).1.Some? || call.loaded.None? then [first, second]
    else [first, second, OpPut(call.key, call.loaded.value, call.third)]
  }

  lemma RunOne<T>(limits: Limits, s: Cache<T>, a: Op<T>)
    ensures RunOps(limits, s, [a]) == Do(limits, s, a)
  {
    assert [a][..0] == [];
  }

  lemma RunTwo<T>(limits: Limits, s: Cache<T>, a: Op<T>, b: Op<T>)
    ensures RunOps(limits, s, [a, b]) == Do(limits, Do(limits, s, a), b)
  {
    RunOne(limits, s, a);
    assert [a, b][..1] == [a];
  }

  lemma RunThree<T>(limits: Limits, s: Cache<T>, a: Op<T>, b: Op<T>, c: Op<T>)
    ensures RunOps(limits, s, [a, b, c]) == Do(limits, Do(limits, Do(limits, s, a), b), c)
  {
    RunTwo(limits, s, a, b);
    assert [a, b, c][..2] == [a, b];
  }

  /** A call changes the cache as its operations do, the count of misses aside. */
  lemma CallIsOps<T>(limits: Limits, s: Cache<T>, call: Call<T>)
    ensures var after := Serve(limits, s, call).0;
      RunOps(limits, s, OpsOf(s, call)).(misses := after.misses) == after
  {
    var first, second := OpFetch(call.key, call.first), OpFetch(call.key, call.second);
    RunOne(limits, s, first);
    RunTwo(limits, s, first, second);
    if call.loaded.Some? {
      RunThree(limits, s, first, second, OpPut(call.key, call.loaded.value, call.third));
    }
  }

  /** The values the loaders of some calls made. */
  function Made<T>(outcomes: seq<Outcome<T>>): seq<T> {
    if outcomes == [] then []
    else
      Made(outcomes[..|outcomes| - 1]) + MadeBy(outcomes[|outcomes| - 1])
  }

  lemma MissHeld<T>(limits: Limits, s: Cache<T>, call: Call<T>, x: T)
    requires Fetch(s, call.key, call.first).1.None? && call.loaded.Some?
    requires Fetch(Fetch(s, call.key, call.first).0, call.key, call.second).1.None?
    ensures Held(Serve(limits, s, call).0, x) == Held(s, x) + Count([call.loaded.value], x)
  {
    FetchHeld(s, call.key, call.first, x);
    var s1 := Fetch(s, call.key, call.first).0;
    FetchHeld(s1, call.key, call.second, x);
    PutHeld(limits, Fetch(s1, call.key, call.second).0, call.key, call.loaded.value, call.third, x);
  }

  /** The value a call loaded, if it did. */
  function MadeBy<T>(outcome: Outcome<T>): seq<T> {
    if outcome.Loaded? then [outcome.value] else []
  }

  lemma ServeHeld<T>(limits: Limits, s: Cache<T>, call: Call<T>, x: T)
    ensures Held(Serve(limits, s, call).0, x) == Held(s, x) + Count(MadeBy(Serve(limits, s, call).1), x)
  {
    if Serve(limits, s, call).1.Loaded? {
      MissHeld(limits, s, call, x);
    } else {
      FetchHeld(s, call.key, call.first, x);
      FetchHeld(Fetch(s, call.key, call.first).0, call.key, call.second, x);
    }
  }

  lemma RunCallsLast<T>(limits: Limits, s: Cache<T>, calls: seq<Call<T>>)
    requires calls != []
    ensures var m := |calls| - 1;
      var (before, earlier) := RunCalls(limits, s, calls[..m]);
      var (after, outcomes) := RunCalls(limits, s, calls);
      && (after, outcomes[|outcomes| - 1]) == Serve(limits, before, calls[m])
      && outcomes[..|outcomes| - 1] == earlier
  {
  }

  lemma {:induction false} CallsLeakNothing<T>(limits: Limits, calls: seq<Call<T>>, x: T)
    ensures var (s, outcomes) := RunCalls(limits, Empty(), calls); Held(s, x) == Count(Made(outcomes), x)
  {
    if calls != [] {
      var m := |calls| - 1;
      CallsLeakNothing(limits, calls[..m], x);
      RunCallsLast(limits, Empty(), calls);
      var (before, earlier) := RunCalls(limits, Empty(), calls[..m]);
      ServeHeld(limits, before, calls[m], x);
      CountConcat(Made(earlier), MadeBy(Serve(limits, before, calls[m]).1), x);
    }
  }

  lemma {:induction false} NotClosing<T>(limits: Limits, calls: seq<Call<T>>)
    ensures RunCalls(limits, Empty<T>(), calls).0.closing == []
  {
    if calls != [] {
      NotClosing(limits, calls[..|calls| - 1]);
      RunCallsLast(limits, Empty<T>(), calls);
    }
  }

  /** After any calls and a `close`, each loaded value has been released as often as it was loaded. */
  lemma ClosedReleasesAll<T>(limits: Limits, calls: seq<Call<T>>, x: T)
    ensures var (s, outcomes) := RunCalls(limits, Empty(), calls);
      Count(s.released + Values(s.entries), x) == Count(Made(outcomes), x)
  {
    var s := RunCalls(limits, Empty(), calls).0;
    CallsLeakNothing(limits, calls, x);
    NotClosing(limits, calls);
    CountConcat(s.released, Values(s.entries), x);
  }

  /** How many calls gave their caller a value. */
  function Successes<T>(outcomes: seq<Outcome<T>>): nat {
    if outcomes == [] then 0
    else Successes(outcomes[..|outcomes| - 1]) + (if outcomes[|outcomes| - 1].Raised? then 0 else 1)
  }

  /** How many calls hit, and how many loaded. */
  function Hits<T>(outcomes: seq<Outcome<T>>): nat {
    if outcomes == [] then 0
    else Hits(outcomes[..|outcomes| - 1]) + (if outcomes[|outcomes| - 1].Hit? then 1 else 0)
  }

  lemma ServeCountsEach<T>(limits: Limits, s: Cache<T>, call: Call<T>)
    ensures var (after, outcome) := Serve(limits, s, call);
      && after.hits == s.hits + (if outcome.Hit? then 1 else 0)
      && after.misses == s.misses + (if outcome.Loaded? then 1 else 0)
  {
  }

  lemma MadeLonger<T>(outcomes: seq<Outcome<T>>)
    requires outcomes != []
    ensures |Made(outcomes)| ==
      |Made(outcomes[..|outcomes| - 1])| + (if outcomes[|outcomes| - 1].Loaded? then 1 else 0)
  {
  }

  /** The hits are the calls that hit, and the misses the loads. */
  lemma {:induction false} CountsEach<T>(limits: Limits, calls: seq<Call<T>>)
    ensures var (s, outcomes) := RunCalls(limits, Empty<T>(), calls);
      s.hits == Hits(outcomes) && s.misses == |Made(outcomes)|
  {
    if calls != [] {
      var m := |calls| - 1;
      CountsEach(limits, calls[..m]);
      RunCallsLast(limits, Empty<T>(), calls);
      ServeCountsEach(limits, RunCalls(limits, Empty<T>(), calls[..m]).0, calls[m]);
      MadeLonger(RunCalls(limits, Empty<T>(), calls).1);
    }
  }

  /** A call hits by the cache's own value, and loads what its loader made. */
  lemma OutcomeMeans<T>(limits: Limits, s: Cache<T>, call: Call<T>)
    ensures var outcome := Serve(limits, s, call).1;
      && (outcome.Hit? ==> outcome.value in Values(s.entries))
      && (outcome.Loaded? ==> call.loaded == Some(outcome.value))
      && (outcome.Raised? ==> call.loaded.None?)
  {
    var i := Find(s.entries, call.key);
    if i < |s.entries| {
      assert Values(s.entries)[i] == s.entries[i].value;
    }
    var s1 := Fetch(s, call.key, call.first).0;
    var k := Find(s1.entries, call.key);
    if k < |s1.entries| {
      FetchKeepsEntries(s, call.key, call.first);
      assert s1.entries[k] in s.entries;
      var j :| 0 <= j < |s.entries| && s.entries[j] == s1.entries[k];
      assert Values(s.entries)[j] == s1.entries[k].value;
    }
  }

  lemma ServeCounts<T>(limits: Limits, s: Cache<T>, call: Call<T>)
    ensures var (after, outcome) := Serve(limits, s, call);
      after.hits + after.misses == s.hits + s.misses + if outcome.Raised? then 0 else 1
  {
  }

  /** Hits and misses together are the calls that gave their caller a value. */
  lemma {:induction false} CountsAddUp<T>(limits: Limits, calls: seq<Call<T>>)
    ensures var (s, outcomes) := RunCalls(limits, Empty<T>(), calls);
      |outcomes| == |calls| && s.hits + s.misses == Successes(outcomes)
  {
    if calls != [] {
      var m := |calls| - 1;
      CountsAddUp(limits, calls[..m]);
      RunCallsLast(limits, Empty<T>(), calls);
      ServeCounts(limits, RunCalls(limits, Empty<T>(), calls[..m]).0, calls[m]);
    }
  }
}
