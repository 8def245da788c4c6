// The dataset cache's counters under threads: a hit is counted under the
// cache's lock, a miss in two steps outside it.
module Counters {

  type Thread = nat

  /** A hit counted, or the two halves of `misses += 1`. */
  datatype Touch = CountHit | ReadMisses(thread: Thread) | WriteMisses(thread: Thread)

  /** What a thread read, and how many loads had been counted by then. */
  datatype Reading = Reading(value: nat, loads: nat)

  /** `found` and `loads` are the calls that hit and loaded; the counters may fall behind. */
  datatype Counts = Counts(hits: nat, misses: nat, readings: map<Thread, Reading>, found: nat, loads: nat)

  function Start(): Counts {
    Counts(0, 0, map[], 0, 0)
  }

  function Do(s: Counts, touch: Touch): Counts {
    match touch
    case CountHit => s.(hits := s.hits + 1, found := s.found + 1)
    case ReadMisses(t) => s.(readings := s.readings[t := Reading(s.misses, s.loads)])
    case WriteMisses(t) =>
      if t !in s.readings then s
      else s.(misses := s.readings[t].value + 1, readings := s.readings - {t}, loads := s.loads + 1)
  }

  function Run(touches: seq<Touch>): Counts {
    if touches == [] then Start() else Do(Run(touches[..|touches| - 1]), touches[|touches| - 1])
  }

  /** A write after another load was counted since its read. */
  predicate Overlapped(s: Counts, touch: Touch) {
    touch.WriteMisses? && touch.thread in s.readings && s.readings[touch.thread].loads < s.loads
  }

  predicate NoneOverlapped(touches: seq<Touch>) {
    touches == [] ||
    var m := |touches| - 1;
    NoneOverlapped(touches[..m]) && !Overlapped(Run(touches[..m]), touches[m])
  }

  /** The count is never too high, a reading is of its time, and one as late as the last write has its value. */
  ghost predicate Consistent(s: Counts) {
    && s.hits == s.found && s.misses <= s.loads
    && forall t | t in s.readings ::
         var r := s.readings[t];
         && r.value <= r.loads <= s.loads
         && (r.loads == s.loads ==> r.value == s.misses)
  }

  lemma DoKeeps(s: Counts, touch: Touch)
    requires Consistent(s)
    ensures Consistent(Do(s, touch))
    ensures Do(s, touch).misses == Do(s, touch).loads <==> s.misses == s.loads && !Overlapped(s, touch)
  {
  }

  lemma {:induction false} RunKeeps(touches: seq<Touch>)
    ensures Consistent(Run(touches))
    ensures Run(touches).misses == Run(touches).loads <==> NoneOverlapped(touches)
  {
    if touches != [] {
      var m := |touches| - 1;
      RunKeeps(touches[..m]);
      DoKeeps(Run(touches[..m]), touches[m]);
    }
  }

  /**
   * In every interleaving of threads hits plus misses are the calls that gave
   * a value if and only if no miss is written after another load was counted
   * since it was read; they are never more.
   */
  lemma CountsAddUpIff(touches: seq<Touch>)
    ensures var s := Run(touches);
      && s.hits + s.misses <= s.found + s.loads
      && (s.hits + s.misses == s.found + s.loads <==> NoneOverlapped(touches))
  {
    RunKeeps(touches);
  }

  /** Two threads that load different keys at once can be counted as one. */
  lemma AnUpdateCanBeLost()
    ensures var s := Run([ReadMisses(0), ReadMisses(1), WriteMisses(0), WriteMisses(1)]); s.misses == 1 && s.loads == 2
  {
    var a := [ReadMisses(0)];
    var b := [ReadMisses(0), ReadMisses(1)];
    var c := [ReadMisses(0), ReadMisses(1), WriteMisses(0)];
    var d := [ReadMisses(0), ReadMisses(1), WriteMisses(0), WriteMisses(1)];
    assert a[..0] == [] && b[..1] == a && c[..2] == b && d[..3] == c;
    assert Run(a).readings == map[0 := Reading(0, 0)];
    assert Run(b).readings == map[0 := Reading(0, 0), 1 := Reading(0, 0)];
    assert Run(c).misses == 1 && Run(c).loads == 1;
  }
}
