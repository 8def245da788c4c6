// The list commands of the Valkey server that the queue scripts rely on, over
// sequences whose first element is the head of the list.
module Lists {

  datatype Option<+T> = None | Some(value: T)

  /** LREM with count 1: drops the occurrence nearest the head, if there is one. */
  function RemoveFirst<T(==)>(xs: seq<T>, x: T): seq<T> {
    if xs == [] then []
    else if xs[0] == x then xs[1..]
    else [xs[0]] + RemoveFirst(xs[1..], x)
  }

  /** How often a value occurs in a list. */
  ghost function Count<T>(xs: seq<T>, x: T): nat {
    if xs == [] then 0 else (if xs[0] == x then 1 else 0) + Count(xs[1..], x)
  }

  lemma CountCons<T>(first: T, rest: seq<T>, x: T)
    ensures Count([first] + rest, x) == (if first == x then 1 else 0) + Count(rest, x)
  {
    assert ([first] + rest)[1..] == rest;
  }

  lemma {:induction false} CountConcat<T>(a: seq<T>, b: seq<T>, x: T)
    ensures Count(a + b, x) == Count(a, x) + Count(b, x)
  {
    if a == [] {
      assert a + b == b;
    } else {
      assert (a + b)[1..] == a[1..] + b;
      CountConcat(a[1..], b, x);
    }
  }

  lemma {:induction false} CountIn<T>(xs: seq<T>, x: T)
    ensures x in xs <==> Count(xs, x) > 0
  {
    if xs != [] {
      assert xs == [xs[0]] + xs[1..];
      CountIn(xs[1..], x);
    }
  }

  lemma {:induction false} AtMostOnce<T>(xs: seq<T>, x: T)
    requires NoDuplicates(xs)
    ensures Count(xs, x) <= 1
  {
    if xs != [] {
      var rest := xs[1..];
      assert forall i | 0 <= i < |rest| :: rest[i] == xs[i + 1] && xs[0] != xs[i + 1];
      AtMostOnce(rest, x);
      CountIn(rest, x);
    }
  }

  /** One occurrence goes, if there is one, and nothing else does. */
  lemma {:induction false} RemoveFirstCount<T>(xs: seq<T>, x: T, y: T)
    ensures Count(RemoveFirst(xs, x), y) == Count(xs, y) - if y == x && x in xs then 1 else 0
  {
    if xs != [] {
      assert xs == [xs[0]] + xs[1..];
      if xs[0] != x {
        RemoveFirstCount(xs[1..], x, y);
        CountCons(xs[0], RemoveFirst(xs[1..], x), y);
      }
    }
  }

  /** The same members, `x` aside. */
  ghost predicate SameBut<T(!new)>(xs: seq<T>, ys: seq<T>, x: T) {
    forall y | y != x :: y in xs <==> y in ys
  }

  lemma RemoveFirstMembers<T(!new)>(xs: seq<T>, x: T)
    ensures SameBut(xs, RemoveFirst(xs, x), x)
  {
    forall y | y != x
      ensures y in xs <==> y in RemoveFirst(xs, x)
    {
      RemoveFirstCount(xs, x, y);
      CountIn(xs, y);
      CountIn(RemoveFirst(xs, x), y);
    }
  }

  ghost predicate NoDuplicates<T>(xs: seq<T>) {
    forall i, j | 0 <= i < j < |xs| :: xs[i] != xs[j]
  }

  /** The set of elements of a list. */
  function Elements<T(==,!new)>(xs: seq<T>): (s: set<T>)
    ensures forall x :: x in s <==> x in xs
  {
    set x | x in xs
  }

  /** A list is at least as long as the number of its distinct elements. */
  lemma {:induction false} ElementsBound<T(!new)>(xs: seq<T>)
    ensures |Elements(xs)| <= |xs|
  {
    if xs != [] {
      ElementsBound(xs[1..]);
      assert Elements(xs) == {xs[0]} + Elements(xs[1..]);
    }
  }

  /** The total length of several lists. */
  function TotalLength<T>(xss: seq<seq<T>>): nat {
    if xss == [] then 0 else |xss[0]| + TotalLength(xss[1..])
  }

  ghost function Union<T(!new)>(xss: seq<seq<T>>): (s: set<T>)
    ensures forall i, x | 0 <= i < |xss| && x in xss[i] :: x in s
  {
    if xss == [] then {} else Elements(xss[0]) + Union(xss[1..])
  }

  lemma {:induction false} UnionBound<T(!new)>(xss: seq<seq<T>>)
    ensures |Union(xss)| <= TotalLength(xss)
  {
    if xss != [] {
      ElementsBound(xss[0]);
      UnionBound(xss[1..]);
    }
  }

  lemma SubsetSize<T>(a: set<T>, b: set<T>)
    requires a <= b
    ensures |a| <= |b|
  {
    assert b == a + (b - a);
  }
}
