// One caller at a time, and no loader that raises: the dataset cache agrees,
// call by call, with a plain function of the history of the accesses.
module DatasetHistory {
  import opened Lists
  import opened Datasets
  import opened DatasetProofs

  // ------------------------------------------------------ recency of access

  /** The distinct keys of a history, least recently accessed first. */
  function Recency(history: seq<Key>): seq<Key> {
    if history == [] then []
    else
      var m := |history| - 1;
      RemoveFirst(Recency(history[..m]), history[m]) + [history[m]]
  }

  function LastN<A>(xs: seq<A>, n: nat): seq<A> {
    if |xs| > n then xs[|xs| - n..] else xs
  }

  /** The last `n` distinct keys of a history. */
  function Recent(history: seq<Key>, n: nat): seq<Key> {
    LastN(Recency(history), n)
  }

  /** The position of the last access to a key, counted from one; zero without any. */
  function LastUse(history: seq<Key>, key: Key): nat {
    if history == [] then 0
    else if history[|history| - 1] == key then |history|
    else LastUse(history[..|history| - 1], key)
  }

  lemma {:induction false} LastUseIs(history: seq<Key>, key: Key)
    ensures var i := LastUse(history, key);
      && i <= |history|
      && (i > 0 <==> key in history)
      && (i > 0 ==> history[i - 1] == key)
      && key !in history[i..]
  {
    if history != [] && history[|history| - 1] != key {
      var m := |history| - 1;
      LastUseIs(history[..m], key);
      assert history == history[..m] + [history[m]];
      var i := LastUse(history[..m], key);
      assert history[i..] == history[..m][i..] + [history[m]];
    }
  }

  ghost predicate ByLastUse(keys: seq<Key>, history: seq<Key>) {
    forall i, j | 0 <= i < j < |keys| :: LastUse(history, keys[i]) < LastUse(history, keys[j])
  }

  lemma ConsDistinct(key: Key, keys: seq<Key>)
    requires NoDuplicates(keys) && key !in keys
    ensures NoDuplicates([key] + keys)
  {
  }

  lemma {:induction false} RemoveFromDistinct(keys: seq<Key>, key: Key)
    requires NoDuplicates(keys)
    ensures NoDuplicates(RemoveFirst(keys, key)) && key !in RemoveFirst(keys, key)
    ensures forall k :: k in RemoveFirst(keys, key) <==> k in keys && k != key
    ensures |RemoveFirst(keys, key)| == if key in keys then |keys| - 1 else |keys|
  {
    if keys != [] {
      var rest := keys[1..];
      assert keys == [keys[0]] + rest;
      RemoveFromDistinct(rest, key);
      if keys[0] != key {
        ConsDistinct(keys[0], RemoveFirst(rest, key));
      }
    }
  }

  lemma OrderRest(keys: seq<Key>, history: seq<Key>)
    requires keys != [] && ByLastUse(keys, history)
    ensures ByLastUse(keys[1..], history)
    ensures forall k | k in keys[1..] :: LastUse(history, keys[0]) < LastUse(history, k)
  {
    forall k | k in keys[1..]
      ensures LastUse(history, keys[0]) < LastUse(history, k)
    {
      var j :| 0 <= j < |keys| - 1 && keys[1..][j] == k;
      assert keys[j + 1] == k;
    }
  }

  lemma OrderCons(key: Key, keys: seq<Key>, history: seq<Key>)
    requires ByLastUse(keys, history) && forall k | k in keys :: LastUse(history, key) < LastUse(history, k)
    ensures ByLastUse([key] + keys, history)
  {
    var all := [key] + keys;
    forall i, j | 0 <= i < j < |all|
      ensures LastUse(history, all[i]) < LastUse(history, all[j])
    {
      assert all[j] == keys[j - 1];
      if i == 0 {
        assert keys[j - 1] in keys;
      } else {
        assert all[i] == keys[i - 1];
      }
    }
  }

  lemma {:induction false} RemoveSubset(keys: seq<Key>, key: Key)
    ensures forall k | k in RemoveFirst(keys, key) :: k in keys
  {
    if keys != [] {
      assert keys == [keys[0]] + keys[1..];
      RemoveSubset(keys[1..], key);
    }
  }

  lemma RemoveCons(keys: seq<Key>, key: Key)
    requires keys != []
    ensures RemoveFirst(keys, key) == if keys[0] == key then keys[1..] else [keys[0]] + RemoveFirst(keys[1..], key)
  {
  }

  /** What is left keeps its order. */
  lemma {:induction false} RemoveKeepsOrder(keys: seq<Key>, key: Key, history: seq<Key>)
    requires ByLastUse(keys, history)
    ensures ByLastUse(RemoveFirst(keys, key), history)
  {
    if keys != [] {
      var rest := keys[1..];
      RemoveCons(keys, key);
      OrderRest(keys, history);
      if keys[0] != key {
        RemoveKeepsOrder(rest, key, history);
        RemoveSubset(rest, key);
        OrderCons(keys[0], RemoveFirst(rest, key), history);
      }
    }
  }

  lemma OtherUses(history: seq<Key>, key: Key, other: Key)
    requires other != key
    ensures LastUse(history + [key], other) == LastUse(history, other)
  {
    assert (history + [key])[..|history|] == history;
  }

  /** An access puts its key last. */
  lemma OrderSnoc(keys: seq<Key>, key: Key, before: seq<Key>)
    requires ByLastUse(keys, before) && key !in keys
    ensures ByLastUse(keys + [key], before + [key])
  {
    var all, history := keys + [key], before + [key];
    forall i, j | 0 <= i < j < |all|
      ensures LastUse(history, all[i]) < LastUse(history, all[j])
    {
      assert all[i] == keys[i];
      OtherUses(before, key, keys[i]);
      LastUseIs(before, keys[i]);
      if j < |keys| {
        assert all[j] == keys[j];
        OtherUses(before, key, keys[j]);
      }
    }
  }

  /** `Recency` lists exactly the accessed keys, once each, in the order of their last accesses. */
  lemma {:induction false} RecencyIs(history: seq<Key>)
    ensures NoDuplicates(Recency(history)) && ByLastUse(Recency(history), history)
    ensures forall k :: k in Recency(history) <==> k in history
  {
    if history != [] {
      var m := |history| - 1;
      var before, key := history[..m], history[m];
      assert history == before + [key];
      RecencyIs(before);
      RemoveFromDistinct(Recency(before), key);
      RemoveKeepsOrder(Recency(before), key, before);
      OrderSnoc(RemoveFirst(Recency(before), key), key, before);
    }
  }

  // ------------------------------------------- only the last keys matter

  lemma {:induction false} RemoveSplit(front: seq<Key>, back: seq<Key>, key: Key)
    ensures key in front ==> RemoveFirst(front + back, key) == RemoveFirst(front, key) + back
    ensures key !in front ==> RemoveFirst(front + back, key) == front + RemoveFirst(back, key)
  {
    if front == [] {
      assert front + back == back && front + RemoveFirst(back, key) == RemoveFirst(back, key);
    } else {
      assert front == [front[0]] + front[1..];
      assert (front + back)[1..] == front[1..] + back;
      RemoveSplit(front[1..], back, key);
    }
  }

  lemma LastOfConcat<A>(front: seq<A>, back: seq<A>, n: nat)
    requires |back| >= n
    ensures LastN(front + back, n) == LastN(back, n)
  {
  }

  lemma RemoveAbsent(keys: seq<Key>, key: Key)
    requires NoDuplicates(keys) && key !in keys
    ensures RemoveFirst(keys, key) == keys
  {
    RemoveSplit(keys, [], key);
    assert keys + [] == keys;
  }

  /** Moving a key to the end and trimming gives the same with what had been trimmed before. */
  lemma TrimLater(keys: seq<Key>, key: Key, n: nat)
    requires NoDuplicates(keys) && n >= 1
    ensures LastN(RemoveFirst(LastN(keys, n), key) + [key], n) == LastN(RemoveFirst(keys, key) + [key], n)
  {
    if |keys| > n {
      var front, back := keys[..|keys| - n], keys[|keys| - n..];
      assert keys == front + back;
      RemoveSplit(front, back, key);
      RemoveFromDistinct(back, key);
      if key in front {
        var i :| 0 <= i < |front| && front[i] == key;
        assert forall j | 0 <= j < |back| :: back[j] == keys[|front| + j] && keys[|front| + j] != keys[i];
        RemoveAbsent(back, key);
        TrimFront(RemoveFirst(front, key), back, key, n);
      } else {
        TrimFront(front, RemoveFirst(back, key), key, n);
      }
    }
  }

  lemma TrimFront(front: seq<Key>, back: seq<Key>, key: Key, n: nat)
    requires |back| + 1 >= n
    ensures LastN(front + back + [key], n) == LastN(back + [key], n)
  {
    assert front + back + [key] == front + (back + [key]);
    LastOfConcat(front, back + [key], n);
  }

  // --------------------------------------------------------- the plain cache

  /** All accesses so far and, for good, the last load of every key. */
  datatype Plain<T> = Plain(history: seq<Key>, latest: map<Key, Stamp<T>>)

  /** Kept: among the last distinct keys, and the last load is young enough. */
  predicate Kept<T>(limits: Limits, p: Plain<T>, key: Key, now: int) {
    && key in Recent(p.history, limits.maxEntries)
    && key in p.latest
    && now < p.latest[key].at + limits.ttl
  }

  function PlainServe<T>(limits: Limits, p: Plain<T>, call: Call<T>): (Plain<T>, Outcome<T>) {
    var history := p.history + [call.key];
    if Kept(limits, p, call.key, call.first) then
      (p.(history := history), Hit(p.latest[call.key].value))
    else if call.loaded.None? then
      (p.(history := history), Raised)
    else
      var value := call.loaded.value;
      (Plain(history, p.latest[call.key := Stamp(value, call.third)]), Loaded(value))
  }

  function RunPlain<T>(limits: Limits, calls: seq<Call<T>>): (Plain<T>, seq<Outcome<T>>) {
    if calls == [] then (Plain([], map[]), [])
    else
      var m := |calls| - 1;
      var (before, outcomes) := RunPlain(limits, calls[..m]);
      var (after, outcome) := PlainServe(limits, before, calls[m]);
      (after, outcomes + [outcome])
  }

  function Accesses<T>(calls: seq<Call<T>>): seq<Key> {
    seq(|calls|, i requires 0 <= i < |calls| => calls[i].key)
  }

  // ------------------------------------------------------------- refinement

  predicate Stamped<T(==)>(limits: Limits, p: Plain<T>, e: Entry<T>) {
    e.key in p.latest && p.latest[e.key] == Stamp(e.value, e.expires - limits.ttl)
  }

  ghost predicate AllStamped<T>(limits: Limits, p: Plain<T>, entries: seq<Entry<T>>) {
    forall e | e in entries :: Stamped(limits, p, e)
  }

  ghost predicate Refines<T>(limits: Limits, s: Cache<T>, p: Plain<T>) {
    && Keys(s.entries) == Recent(p.history, limits.maxEntries)
    && AllStamped(limits, p, s.entries)
  }

  lemma KeysConcat<T>(a: seq<Entry<T>>, b: seq<Entry<T>>)
    ensures Keys(a + b) == Keys(a) + Keys(b)
  {
  }

  lemma {:induction false} RemoveAt(keys: seq<Key>, i: nat)
    requires i < |keys| && keys[i] !in keys[..i]
    ensures RemoveFirst(keys, keys[i]) == DropAt(keys, i)
  {
    assert keys == keys[..i] + keys[i..];
    RemoveSplit(keys[..i], keys[i..], keys[i]);
  }

  lemma FindMeans<T>(entries: seq<Entry<T>>, key: Key)
    ensures Find(entries, key) < |entries| <==> key in Keys(entries)
  {
    var i := Find(entries, key);
    if i < |entries| {
      assert Keys(entries)[i] == key;
    }
  }

  lemma KeysDrop<T>(entries: seq<Entry<T>>, key: Key)
    requires key in Keys(entries)
    ensures Find(entries, key) < |entries|
    ensures Keys(DropAt(entries, Find(entries, key))) == RemoveFirst(Keys(entries), key)
  {
    var i := Find(entries, key);
    RemoveAt(Keys(entries), i);
  }

  lemma KeysPopped<T>(entries: seq<Entry<T>>, key: Key)
    requires NoDuplicates(Keys(entries))
    ensures Keys(Popped(entries, key).0) == RemoveFirst(Keys(entries), key)
  {
    FindMeans(entries, key);
    if key in Keys(entries) {
      KeysDrop(entries, key);
    } else {
      RemoveAbsent(Keys(entries), key);
    }
  }

  /** The keys after an access: the key goes to the end, the oldest go if there are too many. */
  function Touched(keys: seq<Key>, key: Key, n: nat): seq<Key> {
    LastN(RemoveFirst(keys, key) + [key], n)
  }

  lemma PutKeys<T>(limits: Limits, s: Cache<T>, key: Key, value: T, now: int)
    requires NoDuplicates(Keys(s.entries))
    ensures Keys(Put(limits, s, key, value, now).entries) == Touched(Keys(s.entries), key, limits.maxEntries)
  {
    var others := Popped(s.entries, key).0;
    var entry := Entry(key, value, now + limits.ttl);
    KeysPopped(s.entries, key);
    KeysConcat(others, [entry]);
    assert Keys([entry]) == [key];
    var grown := others + [entry];
    var excess := Excess(|grown|, limits.maxEntries);
    assert Keys(grown[excess..]) == Keys(grown)[excess..];
  }

  lemma HitKeys<T>(limits: Limits, s: Cache<T>, key: Key, now: int)
    requires Tidy(limits, s) && Fetch(s, key, now).1.Some?
    ensures Keys(Fetch(s, key, now).0.entries) == Touched(Keys(s.entries), key, limits.maxEntries)
  {
    var i := Find(s.entries, key);
    assert Keys(s.entries)[i] == key;
    KeysDrop(s.entries, key);
    KeysConcat(DropAt(s.entries, i), [s.entries[i]]);
    assert Keys([s.entries[i]]) == [key];
  }

  /** A first look that misses leaves the key out, so that a second look misses too. */
  lemma MissKeys<T>(s: Cache<T>, key: Key, now: int)
    requires NoDuplicates(Keys(s.entries)) && Fetch(s, key, now).1.None?
    ensures Fetch(s, key, now).0.entries == Popped(s.entries, key).0
    ensures NoDuplicates(Keys(Popped(s.entries, key).0)) && key !in Keys(Popped(s.entries, key).0)
  {
    PoppedTidy(s.entries, key);
  }

  lemma AbsentMisses<T>(s: Cache<T>, key: Key, now: int)
    requires key !in Keys(s.entries)
    ensures Fetch(s, key, now) == (s, None)
  {
    FindMeans(s.entries, key);
  }

  lemma RecentNext(history: seq<Key>, key: Key, n: nat)
    requires n >= 1
    ensures Recent(history + [key], n) == Touched(Recent(history, n), key, n)
  {
    RecencyIs(history);
    assert (history + [key])[..|history|] == history;
    TrimLater(Recency(history), key, n);
  }

  /** The cache finds a key exactly if the plain cache keeps it, with the same value. */
  lemma HitIffKept<T>(limits: Limits, s: Cache<T>, p: Plain<T>, key: Key, now: int)
    requires Refines(limits, s, p)
    ensures Fetch(s, key, now).1 == if Kept(limits, p, key, now) then Some(p.latest[key].value) else None
  {
    var i := Find(s.entries, key);
    if i < |s.entries| {
      assert Keys(s.entries)[i] == key;
      assert Stamped(limits, p, s.entries[i]);
    } else {
      assert key !in Keys(s.entries);
    }
  }

  lemma HitStep<T>(limits: Limits, s: Cache<T>, p: Plain<T>, call: Call<T>)
    requires limits.maxEntries >= 1 && Tidy(limits, s) && Refines(limits, s, p)
    requires Fetch(s, call.key, call.first).1.Some?
    ensures Refines(limits, Serve(limits, s, call).0, PlainServe(limits, p, call).0)
    ensures Serve(limits, s, call).1 == PlainServe(limits, p, call).1
  {
    HitIffKept(limits, s, p, call.key, call.first);
    HitKeys(limits, s, call.key, call.first);
    RecentNext(p.history, call.key, limits.maxEntries);
    FetchKeepsEntries(s, call.key, call.first);
  }

  /** After two looks in vain the loaded value goes in at the end. */
  lemma MissServe<T>(limits: Limits, s: Cache<T>, call: Call<T>)
    requires NoDuplicates(Keys(s.entries)) && call.loaded.Some? && Fetch(s, call.key, call.first).1.None?
    ensures var (after, outcome) := Serve(limits, s, call);
      && outcome == Loaded(call.loaded.value)
      && after.entries == Put(limits, Fetch(s, call.key, call.first).0, call.key, call.loaded.value, call.third).entries
  {
    MissKeys(s, call.key, call.first);
    AbsentMisses(Fetch(s, call.key, call.first).0, call.key, call.second);
  }

  lemma MissTouches(keys: seq<Key>, key: Key, n: nat)
    requires NoDuplicates(keys)
    ensures Touched(RemoveFirst(keys, key), key, n) == Touched(keys, key, n)
  {
    RemoveFromDistinct(keys, key);
    RemoveAbsent(RemoveFirst(keys, key), key);
  }

  lemma PutStamps<T>(limits: Limits, s: Cache<T>, p: Plain<T>, key: Key, value: T, now: int)
    requires Tidy(limits, s) && AllStamped(limits, p, s.entries)
    ensures AllStamped(limits, Plain(p.history + [key], p.latest[key := Stamp(value, now)]),
                       Put(limits, s, key, value, now).entries)
  {
    PutEntries(limits, s, key, value, now);
  }

  lemma MissStamps<T>(limits: Limits, s: Cache<T>, p: Plain<T>, call: Call<T>)
    requires Tidy(limits, s) && AllStamped(limits, p, s.entries) && call.loaded.Some?
    requires Fetch(s, call.key, call.first).1.None?
    ensures AllStamped(limits, Plain(p.history + [call.key], p.latest[call.key := Stamp(call.loaded.value, call.third)]),
                       Serve(limits, s, call).0.entries)
  {
    MissServe(limits, s, call);
    FetchTidy(limits, s, call.key, call.first);
    FetchKeepsEntries(s, call.key, call.first);
    PutStamps(limits, Fetch(s, call.key, call.first).0, p, call.key, call.loaded.value, call.third);
  }

  lemma MissStep<T>(limits: Limits, s: Cache<T>, p: Plain<T>, call: Call<T>)
    requires limits.maxEntries >= 1 && Tidy(limits, s) && Refines(limits, s, p) && call.loaded.Some?
    requires Fetch(s, call.key, call.first).1.None?
    ensures Refines(limits, Serve(limits, s, call).0, PlainServe(limits, p, call).0)
    ensures Serve(limits, s, call).1 == PlainServe(limits, p, call).1
  {
    HitIffKept(limits, s, p, call.key, call.first);
    MissServe(limits, s, call);
    MissKeys(s, call.key, call.first);
    KeysPopped(s.entries, call.key);
    PutKeys(limits, Fetch(s, call.key, call.first).0, call.key, call.loaded.value, call.third);
    MissTouches(Keys(s.entries), call.key, limits.maxEntries);
    RecentNext(p.history, call.key, limits.maxEntries);
    MissStamps(limits, s, p, call);
  }

  lemma ServeTidy<T>(limits: Limits, s: Cache<T>, call: Call<T>)
    requires Tidy(limits, s)
    ensures Tidy(limits, Serve(limits, s, call).0)
  {
    FetchTidy(limits, s, call.key, call.first);
    var s1 := Fetch(s, call.key, call.first).0;
    FetchTidy(limits, s1, call.key, call.second);
    if call.loaded.Some? {
      PutTidy(limits, Fetch(s1, call.key, call.second).0, call.key, call.loaded.value, call.third);
    }
  }

  ghost predicate NoneRaises<T>(calls: seq<Call<T>>) {
    forall i | 0 <= i < |calls| :: calls[i].loaded.Some?
  }

  /**
   * For every sequence of calls whose loaders do not raise, the cache answers
   * as the plain cache does, and its keys are the last distinct keys accessed,
   * whatever has expired.
   */
  lemma {:induction false} AgreesWithHistory<T>(limits: Limits, calls: seq<Call<T>>)
    requires limits.maxEntries >= 1 && NoneRaises(calls)
    ensures RunCalls(limits, Empty<T>(), calls).1 == RunPlain(limits, calls).1
    ensures Refines(limits, RunCalls(limits, Empty<T>(), calls).0, RunPlain(limits, calls).0)
    ensures Tidy(limits, RunCalls(limits, Empty<T>(), calls).0)
  {
    if calls != [] {
      var m := |calls| - 1;
      AgreesWithHistory(limits, calls[..m]);
      var s, p := RunCalls(limits, Empty<T>(), calls[..m]).0, RunPlain(limits, calls[..m]).0;
      ServeTidy(limits, s, calls[m]);
      if Fetch(s, calls[m].key, calls[m].first).1.Some? {
        HitStep(limits, s, p, calls[m]);
      } else {
        MissStep(limits, s, p, calls[m]);
      }
    }
  }

  lemma {:induction false} PlainHistory<T>(limits: Limits, calls: seq<Call<T>>)
    ensures RunPlain(limits, calls).0.history == Accesses(calls)
  {
    if calls != [] {
      PlainHistory(limits, calls[..|calls| - 1]);
    }
  }

  /** The keys held, oldest first, are the last distinct keys accessed. */
  lemma KeysAreRecent<T>(limits: Limits, calls: seq<Call<T>>)
    requires limits.maxEntries >= 1 && NoneRaises(calls)
    ensures Keys(RunCalls(limits, Empty<T>(), calls).0.entries) == Recent(Accesses(calls), limits.maxEntries)
  {
    AgreesWithHistory(limits, calls);
    PlainHistory(limits, calls);
  }

  /** A loader that raises leaves its key out, however fresh the history says it is, and the rest in order. */
  lemma RaiseForgets<T>(limits: Limits, s: Cache<T>, call: Call<T>)
    requires Tidy(limits, s) && Serve(limits, s, call).1.Raised?
    ensures Keys(Serve(limits, s, call).0.entries) == RemoveFirst(Keys(s.entries), call.key)
    ensures call.key !in Keys(Serve(limits, s, call).0.entries)
  {
    MissKeys(s, call.key, call.first);
    AbsentMisses(Fetch(s, call.key, call.first).0, call.key, call.second);
    KeysPopped(s.entries, call.key);
  }
}
