// The in-process cache of loaded datasets: least recently used out first,
// entries that expire lazily, and values that have to be released once.
module Datasets {
  import opened Lists

  type Key = nat

  datatype Entry<T> = Entry(key: Key, value: T, expires: int)

  /** `closing` holds what `close` took out of the cache and has not released yet. */
  datatype Cache<T> = Cache(entries: seq<Entry<T>>, closing: seq<T>, released: seq<T>, hits: nat, misses: nat)

  datatype Limits = Limits(maxEntries: nat, ttl: nat)

  predicate Allowed(limits: Limits) {
    limits.maxEntries >= 1 && limits.ttl >= 1
  }

  function Empty<T>(): Cache<T> {
    Cache([], [], [], 0, 0)
  }

  function Keys<T>(entries: seq<Entry<T>>): (r: seq<Key>)
    ensures |r| == |entries| && forall i | 0 <= i < |r| :: r[i] == entries[i].key
  {
    seq(|entries|, i requires 0 <= i < |entries| => entries[i].key)
  }

  function Values<T>(entries: seq<Entry<T>>): (r: seq<T>)
    ensures |r| == |entries| && forall i | 0 <= i < |r| :: r[i] == entries[i].value
  {
    seq(|entries|, i requires 0 <= i < |entries| => entries[i].value)
  }

  /** Where a key is, or the length if it is nowhere. */
  function Find<T>(entries: seq<Entry<T>>, key: Key): (i: nat)
    ensures i <= |entries|
    ensures i < |entries| ==> entries[i].key == key
    ensures forall j | 0 <= j < i :: entries[j].key != key
  {
    if entries == [] || entries[0].key == key then 0 else 1 + Find(entries[1..], key)
  }

  function DropAt<A>(xs: seq<A>, i: nat): seq<A>
    requires i < |xs|
  {
    xs[..i] + xs[i + 1..]
  }

  // -------------------------------------------------- the atomic operations

  function Fetch<T>(s: Cache<T>, key: Key, now: int): (Cache<T>, Option<T>) {
    var i := Find(s.entries, key);
    if i == |s.entries| then
      (s, None)
    else if s.entries[i].expires <= now then
      (s.(entries := DropAt(s.entries, i), released := s.released + [s.entries[i].value]), None)
    else
      (s.(entries := DropAt(s.entries, i) + [s.entries[i]], hits := s.hits + 1), Some(s.entries[i].value))
  }

  /** The entries with one key taken out, and what was taken out. */
  function Popped<T>(entries: seq<Entry<T>>, key: Key): (r: (seq<Entry<T>>, seq<T>)) {
    var i := Find(entries, key);
    if i == |entries| then (entries, []) else (DropAt(entries, i), [entries[i].value])
  }

  function Excess(length: nat, maxEntries: nat): nat {
    if length > maxEntries then length - maxEntries else 0
  }

  function Put<T>(limits: Limits, s: Cache<T>, key: Key, value: T, now: int): Cache<T> {
    var (others, freed) := Popped(s.entries, key);
    var grown := others + [Entry(key, value, now + limits.ttl)];
    var excess := Excess(|grown|, limits.maxEntries);
    s.(entries := grown[excess..], released := s.released + freed + Values(grown[..excess]))
  }

  function Clear<T>(s: Cache<T>): Cache<T> {
    s.(entries := [], closing := s.closing + Values(s.entries))
  }

  function ReleaseNext<T>(s: Cache<T>): Cache<T> {
    if s.closing == [] then s
    else s.(closing := s.closing[1..], released := s.released + [s.closing[0]])
  }

  // ----------------------------------------------------------- whole calls

  /**
   * One `get_or_load`, with its three clock readings and what the loader
   * returns, or nothing if it raises.
   */
  datatype Call<T> = Call(key: Key, first: int, second: int, third: int, loaded: Option<T>)

  datatype Outcome<T> = Hit(value: T) | Loaded(value: T) | Raised

  function Serve<T>(limits: Limits, s: Cache<T>, call: Call<T>): (Cache<T>, Outcome<T>) {
    var (s1, cached) := Fetch(s, call.key, call.first);
    if cached.Some? then (s1, Hit(cached.value))
    else
      var (s2, again) := Fetch(s1, call.key, call.second);
      if again.Some? then (s2, Hit(again.value))
      else if call.loaded.None? then (s2, Raised)
      else
        var s3 := Put(limits, s2, call.key, call.loaded.value, call.third);
        (s3.(misses := s3.misses + 1), Loaded(call.loaded.value))
  }

  function RunCalls<T>(limits: Limits, s: Cache<T>, calls: seq<Call<T>>): (Cache<T>, seq<Outcome<T>>) {
    if calls == [] then (s, [])
    else
      var m := |calls| - 1;
      var (before, outcomes) := RunCalls(limits, s, calls[..m]);
      var (after, outcome) := Serve(limits, before, calls[m]);
      (after, outcomes + [outcome])
  }

  class DatasetCache<T> {
    const limits: Limits
    var entries: seq<Entry<T>>
    var released: seq<T>
    var hits: nat
    var misses: nat

    function View(): Cache<T>
      reads this
    {
      Cache(entries, [], released, hits, misses)
    }

    constructor (limits: Limits)
      requires Allowed(limits)
      ensures this.limits == limits && View() == Empty()
    {
      this.limits := limits;
      entries, released, hits, misses := [], [], 0, 0;
    }

    /** Limits below one are refused. */
    static method Create(maxEntries: int, ttl: int) returns (cache: DatasetCache?<T>)
      ensures cache == null <==> maxEntries < 1 || ttl < 1
      ensures cache != null ==> fresh(cache) && cache.limits == Limits(maxEntries, ttl) && cache.View() == Empty()
    {
      if maxEntries < 1 || ttl < 1 {
        return null;
      }
      cache := new DatasetCache(Limits(maxEntries, ttl));
    }

    method Get(key: Key, now: int) returns (value: Option<T>)
      modifies this
      ensures (View(), value) == Fetch(old(View()), key, now)
    {
      var i := Find(entries, key);
      if i == |entries| {
        return None;
      }
      var entry := entries[i];
      if entry.expires <= now {
        entries := DropAt(entries, i);
        released := released + [entry.value];
        return None;
      }
      entries := DropAt(entries, i) + [entry];
      hits := hits + 1;
      return Some(entry.value);
    }

    method Store(key: Key, value: T, now: int)
      modifies this
      ensures View() == Put(limits, old(View()), key, value, now)
    {
      var i := Find(entries, key);
      if i < |entries| {
        released := released + [entries[i].value];
        entries := DropAt(entries, i);
      }
      entries := entries + [Entry(key, value, now + limits.ttl)];
      Evict();
    }

    /** Oldest entries out until the rest fits. */
    method Evict()
      modifies `entries, `released
      ensures var excess := Excess(|old(entries)|, limits.maxEntries);
        && entries == old(entries)[excess..]
        && released == old(released) + Values(old(entries)[..excess])
    {
      ghost var grown := entries;
      ghost var gone := 0;
      assert Values(grown[..0]) == [];
      while |entries| > limits.maxEntries
        invariant 0 <= gone <= Excess(|grown|, limits.maxEntries) && entries == grown[gone..]
        invariant released == old(released) + Values(grown[..gone])
      {
        ValuesSnoc(grown, gone, old(released));
        released := released + [entries[0].value];
        entries := entries[1..];
        gone := gone + 1;
      }
    }

    method GetOrLoad(call: Call<T>) returns (outcome: Outcome<T>)
      modifies this
      ensures (View(), outcome) == Serve(limits, old(View()), call)
    {
      var cached := Get(call.key, call.first);
      if cached.Some? {
        return Hit(cached.value);
      }
      cached := Get(call.key, call.second);
      if cached.Some? {
        return Hit(cached.value);
      }
      if call.loaded.None? {
        return Raised;
      }
      Store(call.key, call.loaded.value, call.third);
      misses := misses + 1;
      return Loaded(call.loaded.value);
    }

    method Close()
      modifies this
      ensures entries == [] && released == old(released) + Values(old(entries))
      ensures hits == old(hits) && misses == old(misses)
    {
      var taken := entries;
      entries := [];
      var index := 0;
      while index < |taken|
        invariant index <= |taken| && entries == []
        invariant released == old(released) + Values(taken[..index])
        invariant hits == old(hits) && misses == old(misses)
      {
        ValuesSnoc(taken, index, old(released));
        released := released + [taken[index].value];
        index := index + 1;
      }
      assert taken[..index] == taken;
    }
  }

  lemma ValuesSnoc<T>(entries: seq<Entry<T>>, i: nat, before: seq<T>)
    requires i < |entries|
    ensures before + Values(entries[..i + 1]) == before + Values(entries[..i]) + [entries[i].value]
  {
    assert Values(entries[..i + 1]) == Values(entries[..i]) + [entries[i].value];
  }
}
