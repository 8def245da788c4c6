// The read plan admits what the pattern means: it never loses a path, and it
// is exact for exactly the patterns without doubled slashes around the first `**`.
module ReadPlanProofs {
  import opened Lists
  import opened Regex
  import opened Globs
  import opened ReadPlan

  // -------------------------------------------------- splitting a concatenation

  lemma {:induction false} HeadAppend(a: string, x: string)
    requires x != [] && x[0] == '/'
    ensures Head(a + x) == Head(a)
    ensures Tail(a + x) == Tail(a) + x
  {
    if a == [] {
      assert a + x == x;
    } else if a[0] == '/' {
      assert (a + x)[0] == '/';
    } else {
      assert (a + x)[1..] == a[1..] + x;
      HeadAppend(a[1..], x);
    }
  }

  lemma Assoc<T>(a: seq<T>, b: seq<T>, c: seq<T>)
    ensures (a + b) + c == a + (b + c)
  {
  }

  lemma RestAppend(t: string, x: string)
    requires t != []
    ensures (t + x)[1..] == t[1..] + x
  {
  }

  lemma NoSlashLeft(a: string, b: string)
    requires Tail(a) == []
    ensures Split(a + ['/'] + b) == Split(a) + Split(b)
  {
    var x := ['/'] + b;
    Assoc(a, ['/'], b);
    HeadAppend(a, x);
    SplitCons(a);
    SplitCons(a + x);
    assert [] + x == x && x[1..] == b;
  }

  lemma {:induction false} SplitAppend(a: string, b: string)
    ensures Split(a + ['/'] + b) == Split(a) + Split(b)
    decreases |a|
  {
    if Tail(a) == [] {
      NoSlashLeft(a, b);
    } else {
      var x := ['/'] + b;
      var rest := Tail(a)[1..];
      Assoc(a, ['/'], b);
      HeadAppend(a, x);
      SplitCons(a);
      SplitCons(a + x);
      Assoc(rest, ['/'], b);
      RestAppend(Tail(a), x);
      SplitAppend(rest, b);
      Assoc([Head(a)], Split(rest), Split(b));
    }
  }

  function Slashes(n: nat): (s: string)
    ensures |s| == n
  {
    if n == 0 then [] else Slashes(n - 1) + ['/']
  }

  function Empties(n: nat): (r: seq<string>)
    ensures |r| == n && forall i | 0 <= i < n :: r[i] == ""
  {
    seq(n, _ => "")
  }

  lemma SplitEmpty()
    ensures Split([]) == [""]
  {
  }

  lemma EmptiesEnds(n: nat)
    requires n > 0
    ensures Empties(n) == Empties(n - 1) + [""]
    ensures Empties(n) == [""] + Empties(n - 1)
  {
  }

  lemma OneMoreSlash(x: string, n: nat)
    requires n > 0
    ensures x + Slashes(n) == (x + Slashes(n - 1)) + ['/'] + []
  {
  }

  lemma SplitNoSlashes(x: string)
    ensures Split(x + Slashes(0)) == Split(x) + Empties(0)
  {
    assert x + Slashes(0) == x;
  }

  lemma {:induction false} SplitThenSlashes(x: string, n: nat)
    ensures Split(x + Slashes(n)) == Split(x) + Empties(n)
  {
    if n == 0 {
      SplitNoSlashes(x);
    } else {
      SplitThenSlashes(x, n - 1);
      OneMoreSlash(x, n);
      SplitAppend(x + Slashes(n - 1), []);
      SplitEmpty();
      EmptiesEnds(n);
      Assoc(Split(x), Empties(n - 1), [""]);
    }
  }

  lemma {:induction false} SlashesFront(n: nat)
    requires n > 0
    ensures Slashes(n) == ['/'] + Slashes(n - 1)
  {
    if n > 1 {
      SlashesFront(n - 1);
    }
  }

  lemma {:induction false} SplitAfterSlashes(n: nat, y: string)
    ensures Split(Slashes(n) + y) == Empties(n) + Split(y)
  {
    if n == 0 {
      assert Slashes(n) + y == y;
      assert Empties(n) + Split(y) == Split(y);
    } else {
      var later := Slashes(n - 1) + y;
      SplitAfterSlashes(n - 1, y);
      SlashesFront(n);
      Assoc(['/'], Slashes(n - 1), y);
      assert [] + ['/'] == ['/'];
      SplitAppend([], later);
      SplitEmpty();
      EmptiesEnds(n);
      Assoc([""], Empties(n - 1), Split(y));
    }
  }

  lemma {:induction false} StripRightForm(s: string)
    ensures s == StripRight(s) + Slashes(|s| - |StripRight(s)|)
  {
    if s != [] && s[|s| - 1] == '/' {
      StripRightForm(s[..|s| - 1]);
    }
  }

  lemma {:induction false} StripLeftForm(s: string)
    ensures |StripLeft(s)| <= |s| && s == Slashes(|s| - |StripLeft(s)|) + StripLeft(s)
  {
    if s != [] && s[0] == '/' {
      StripLeftForm(s[1..]);
      SlashesFront(|s| - |StripLeft(s)|);
    }
  }

  // ------------------------------------------------------- the first `**`

  lemma {:induction false} FirstStarsIsFirst(s: string, k: nat)
    requires k < FirstStars(s)
    ensures !StartsWith(s[k..], "**")
  {
    if k == 0 {
      assert s[0..] == s;
    } else {
      FirstStarsIsFirst(s[1..], k - 1);
      assert s[k..] == s[1..][k - 1..];
    }
  }

  lemma StarsAt(s: string, k: nat)
    requires k + 1 < |s| && s[k] == '*' && s[k + 1] == '*'
    ensures FirstStars(s) <= k
  {
    StartsWithStars(s[k..]);
    assert s[k..][0] == '*' && s[k..][1] == '*';
    if FirstStars(s) > k {
      FirstStarsIsFirst(s, k);
    }
  }

  lemma PlainIffNotRecursive(s: string)
    ensures HasStars(s) <==> Recursive(s)
  {
    if HasStars(s) {
      var k :| 0 <= k < |s| - 1 && s[k] == '*' && s[k + 1] == '*';
      StarsAt(s, k);
    }
    if Recursive(s) {
      var i := FirstStars(s);
      StartsWithStars(s[i..]);
      assert s[i] == s[i..][0] && s[i + 1] == s[i..][1];
    }
  }

  lemma PrefixIsPlain(uri: string)
    ensures !HasStars(Prefix(uri))
  {
    var prefix := Prefix(uri);
    forall k | 0 <= k < |prefix| - 1
      ensures !(prefix[k] == '*' && prefix[k + 1] == '*')
    {
      if prefix[k] == '*' && prefix[k + 1] == '*' {
        StarsAt(uri, k);
      }
    }
  }

  lemma FirstStarsAfterSlash(rest: string)
    ensures FirstStars(['/'] + rest) == 1 + FirstStars(rest)
  {
    StartsWithStars(['/'] + rest);
    assert (['/'] + rest)[1..] == rest;
  }

  lemma {:induction false} SkipPlain(segment: string, tail: string)
    requires !HasStars(segment) && (tail != [] ==> tail[0] == '/')
    ensures FirstStars(segment + tail) == |segment| + FirstStars(tail)
  {
    if segment == [] {
      assert segment + tail == tail;
    } else {
      PlainStart(segment, tail);
      PlainRest(segment);
      assert (segment + tail)[1..] == segment[1..] + tail;
      SkipPlain(segment[1..], tail);
    }
  }

  /** A slash, or nothing, right before the first `**`. */
  predicate SlashBefore(uri: string) {
    FirstStars(uri) > 0 ==> uri[FirstStars(uri) - 1] == '/'
  }

  /** A slash, or nothing, right after it. */
  predicate SlashAfter(uri: string) {
    Suffix(uri) != [] ==> Suffix(uri)[0] == '/'
  }

  lemma StarsFirst(uri: string)
    requires Head(uri) == "**"
    ensures FirstStars(uri) == 0 && Suffix(uri) == Tail(uri)
  {
    SplitCons(uri);
    StartsWithStars(uri);
  }

  lemma StarsLater(head: string, rest: string)
    requires !HasStars(head)
    ensures FirstStars(head + (['/'] + rest)) == |head| + 1 + FirstStars(rest)
  {
    SkipPlain(head, ['/'] + rest);
    FirstStarsAfterSlash(rest);
  }

  lemma BeforeStars(uri: string, rest: string, k: nat)
    requires |uri| > |rest| >= k && uri[|uri| - |rest|..] == rest && uri[|uri| - |rest| - 1] == '/'
    requires k > 0 ==> rest[k - 1] == '/'
    ensures uri[|uri| - |rest| + k - 1] == '/'
  {
    var d := |uri| - |rest|;
    if k > 0 {
      assert uri[d..][k - 1] == uri[d + k - 1];
    }
  }

  lemma BoundedLeft(uri: string, rest: string)
    requires |uri| > |rest| && uri[|uri| - |rest|..] == rest && uri[|uri| - |rest| - 1] == '/'
    requires FirstStars(uri) == |uri| - |rest| + FirstStars(rest) && SlashBefore(rest)
    ensures SlashBefore(uri)
  {
    BeforeStars(uri, rest, FirstStars(rest));
  }

  lemma BoundedRight(uri: string, rest: string)
    requires |uri| > |rest| && uri[|uri| - |rest|..] == rest
    requires FirstStars(uri) == |uri| - |rest| + FirstStars(rest) && SlashAfter(rest)
    ensures SlashAfter(uri)
  {
    if Recursive(rest) {
      var d, k := |uri| - |rest|, FirstStars(rest);
      assert uri[d..][k + 2..] == uri[d + k + 2..];
    }
  }

  lemma HeadIsPlain(uri: string)
    requires WellFormed(uri) && Recursive(uri) && Head(uri) != "**"
    ensures !HasStars(Head(uri)) && Tail(uri) != []
  {
    SplitCons(uri);
    PlainIffNotRecursive(uri);
    assert Split(uri)[0] == Head(uri);
  }

  lemma JoinedEnd(head: string, rest: string)
    ensures var uri := head + (['/'] + rest); var d := |uri| - |rest|;
      d >= 1 && uri[d..] == rest && uri[d - 1] == '/' && d == |head| + 1
  {
  }

  lemma StarsBehind(uri: string)
    requires !HasStars(Head(uri)) && Tail(uri) != []
    ensures var rest := Tail(uri)[1..]; var d := |uri| - |rest|;
      d >= 1 && uri[d..] == rest && uri[d - 1] == '/' && FirstStars(uri) == d + FirstStars(rest)
  {
    var rest := Tail(uri)[1..];
    Rejoin(uri);
    Assoc(Head(uri), ['/'], rest);
    JoinedEnd(Head(uri), rest);
    StarsLater(Head(uri), rest);
  }

  /** In a well-formed pattern the first `**` has a slash, or the pattern's edge, on both sides. */
  lemma {:induction false} WholeSegment(uri: string)
    requires WellFormed(uri) && Recursive(uri)
    ensures SlashBefore(uri) && SlashAfter(uri)
    decreases |uri|
  {
    if Head(uri) == "**" {
      StarsFirst(uri);
    } else {
      HeadIsPlain(uri);
      StarsBehind(uri);
      WellFormedRest(uri);
      var rest := Tail(uri)[1..];
      WholeSegment(rest);
      BoundedLeft(uri, rest);
      BoundedRight(uri, rest);
    }
  }

  // --------------------------------------------- the segments of a pattern

  /** The patterns the source hands over: a root and something below it. */
  predicate Rooted(uri: string) {
    WellFormed(uri) && Recursive(uri) && Prefix(uri) != []
  }

  function Base(uri: string): string {
    StripRight(Prefix(uri))
  }

  /** How many slashes more than one a text ends in. */
  function ExtraOf(prefix: string): nat {
    var n := |prefix| - |StripRight(prefix)|;
    if n > 1 then n - 1 else 0
  }

  /** The segments after the first `**`. */
  function AfterOf(suffix: string): seq<string> {
    if suffix == [] then [] else Split(suffix[1..])
  }

  /** Base, superfluous empty segments, `**`, the rest. */
  function Segments(prefix: string, suffix: string): seq<string> {
    (Split(StripRight(prefix)) + Empties(ExtraOf(prefix))) + (["**"] + AfterOf(suffix))
  }

  lemma FrontForm(prefix: string)
    requires prefix != [] && prefix[|prefix| - 1] == '/'
    ensures |prefix| > |StripRight(prefix)|
    ensures prefix[..|prefix| - 1] == StripRight(prefix) + Slashes(|prefix| - |StripRight(prefix)| - 1)
  {
    var base := StripRight(prefix);
    var n := |prefix| - |base|;
    StripRightForm(prefix);
    assert base + Slashes(n) == (base + Slashes(n - 1)) + ['/'];
  }

  lemma SplitAtStars(suffix: string)
    requires suffix != [] ==> suffix[0] == '/'
    ensures Split("**" + suffix) == ["**"] + (if suffix == [] then [] else Split(suffix[1..]))
  {
    var x := "**" + suffix;
    assert x[0] == '*' && x[1] == '*' && x[1..][1..] == suffix;
    HeadStep(x);
    HeadStep(x[1..]);
    HeadStep(suffix);
    assert x[1..] == ['*'] + suffix;
    assert Head(x[1..]) == ['*'] + Head(x[1..][1..]);
    assert Head(x) == "**" && Tail(x) == suffix;
    SplitCons(x);
  }

  lemma FromStars(s: string)
    requires StartsWith(s, "**")
    ensures s == "**" + s[2..]
  {
    StartsWithStars(s);
    assert s[..2] == "**";
  }

  lemma JoinAt(uri: string, i: nat)
    requires 0 < i <= |uri| && uri[i - 1] == '/'
    ensures uri == uri[..i][..i - 1] + ['/'] + uri[i..]
  {
  }

  lemma Recompose(uri: string)
    requires Recursive(uri) && Prefix(uri) != [] && SlashBefore(uri)
    ensures var front := Prefix(uri)[..|Prefix(uri)| - 1]; uri == front + ['/'] + ("**" + Suffix(uri))
  {
    var i := FirstStars(uri);
    FromStars(uri[i..]);
    assert uri[i..][2..] == uri[i + 2..];
    JoinAt(uri, i);
  }

  lemma ShapeOf(prefix: string, suffix: string)
    requires prefix != [] && prefix[|prefix| - 1] == '/' && (suffix != [] ==> suffix[0] == '/')
    ensures Split(prefix[..|prefix| - 1] + ['/'] + ("**" + suffix)) == Segments(prefix, suffix)
  {
    FrontForm(prefix);
    SplitAppend(prefix[..|prefix| - 1], "**" + suffix);
    SplitThenSlashes(StripRight(prefix), ExtraOf(prefix));
    SplitAtStars(suffix);
  }

  lemma EndsInSlash(uri: string)
    requires Rooted(uri)
    ensures SlashBefore(uri) && SlashAfter(uri) && Prefix(uri)[|Prefix(uri)| - 1] == '/'
  {
    WholeSegment(uri);
  }

  lemma Shape(uri: string)
    requires Rooted(uri)
    ensures Split(uri) == Segments(Prefix(uri), Suffix(uri))
  {
    EndsInSlash(uri);
    Recompose(uri);
    ShapeOf(Prefix(uri), Suffix(uri));
  }

  // ------------------------------------------------- matching a plain prefix

  predicate PlainSegments(segments: seq<string>) {
    forall i | 0 <= i < |segments| :: segments[i] != "**"
  }

  predicate EachMatches(pattern: seq<string>, path: seq<string>) {
    |path| >= |pattern| && forall i | 0 <= i < |pattern| :: SegmentMatch(pattern[i], path[i])
  }

  lemma EachCons(p: string, pattern: seq<string>, path: seq<string>)
    requires path != []
    ensures EachMatches([p] + pattern, path) <==> SegmentMatch(p, path[0]) && EachMatches(pattern, path[1..])
  {
    var whole := [p] + pattern;
    if EachMatches(whole, path) {
      assert whole[0] == p;
      forall i | 0 <= i < |pattern|
        ensures SegmentMatch(pattern[i], path[1..][i])
      {
        assert SegmentMatch(whole[i + 1], path[i + 1]);
      }
    }
    if SegmentMatch(p, path[0]) && EachMatches(pattern, path[1..]) {
      forall i | 0 <= i < |whole|
        ensures SegmentMatch(whole[i], path[i])
      {
        if i > 0 {
          assert SegmentMatch(pattern[i - 1], path[1..][i - 1]);
        }
      }
    }
  }

  lemma {:induction false} GlobPrefix(plain: seq<string>, rest: seq<string>, path: seq<string>)
    requires PlainSegments(plain)
    ensures GlobMatch(plain + rest, path) <==> EachMatches(plain, path) && GlobMatch(rest, path[|plain|..])
    decreases |plain|
  {
    if plain == [] {
      assert plain + rest == rest && path[0..] == path;
    } else {
      var first, later := plain[0], plain[1..];
      assert (plain + rest)[0] == first && (plain + rest)[1..] == later + rest;
      assert plain == [first] + later;
      if path != [] {
        GlobPrefix(later, rest, path[1..]);
        EachCons(first, later, path);
        if |path| >= |plain| {
          assert path[1..][|later|..] == path[|plain|..];
        }
      }
    }
  }

  /** The last segment of a pattern, unless it is `**`, matches the last segment of the path. */
  lemma {:induction false} GlobLast(pattern: seq<string>, path: seq<string>)
    requires pattern != [] && Last(pattern) != "**" && GlobMatch(pattern, path)
    ensures path != [] && SegmentMatch(Last(pattern), Last(path))
    decreases |pattern| + |path|
  {
    if pattern[0] == "**" {
      if GlobMatch(pattern[1..], path) {
        GlobLast(pattern[1..], path);
      } else {
        GlobLast(pattern, path[1..]);
      }
    } else if |pattern| > 1 {
      GlobLast(pattern[1..], path[1..]);
    } else {
      assert path[1..] == [];
    }
  }

  /** `**` and then one plain segment: any path whose last segment matches it. */
  lemma {:induction false} StarsThenOne(name: string, path: seq<string>)
    requires name != "**"
    ensures GlobMatch(["**", name], path) <==> path != [] && SegmentMatch(name, Last(path))
    decreases |path|
  {
    var pattern := ["**", name];
    assert pattern[1..] == [name];
    assert [name][1..] == [];
    if path != [] {
      assert GlobMatch([name], path) <==> SegmentMatch(name, path[0]) && path[1..] == [];
      StarsThenOne(name, path[1..]);
    }
  }

  // ---------------------------------------------------- nothing is dropped

  lemma SubstringPlain(x: string, d: nat, y: string)
    requires !HasStars(x) && d + |y| <= |x| && y == x[d..d + |y|]
    ensures !HasStars(y)
  {
    forall i | 0 <= i < |y| - 1
      ensures !(y[i] == '*' && y[i + 1] == '*')
    {
      assert y[i] == x[d + i] && y[i + 1] == x[(d + i) + 1];
    }
  }

  lemma PlainIsNotStars(x: string)
    requires !HasStars(x)
    ensures x != "**"
  {
    if |x| == 2 {
      assert !(x[0] == '*' && x[0 + 1] == '*');
    }
  }

  lemma TailSlice(x: string)
    requires Tail(x) != []
    ensures var rest := Tail(x)[1..]; |Head(x)| + 1 + |rest| == |x| && rest == x[|Head(x)| + 1..|Head(x)| + 1 + |rest|]
  {
  }

  lemma PlainCons(first: string, rest: seq<string>)
    requires first != "**" && PlainSegments(rest)
    ensures PlainSegments([first] + rest)
  {
  }

  lemma {:induction false} SegmentsPlain(x: string)
    requires !HasStars(x)
    ensures PlainSegments(Split(x))
    decreases |x|
  {
    SplitCons(x);
    SubstringPlain(x, 0, Head(x));
    PlainIsNotStars(Head(x));
    if Tail(x) != [] {
      var rest := Tail(x)[1..];
      TailSlice(x);
      SubstringPlain(x, |Head(x)| + 1, rest);
      SegmentsPlain(rest);
      PlainCons(Head(x), Split(rest));
    }
  }

  /** The plain segments before the first `**`. */
  function Before(uri: string): seq<string> {
    Split(Base(uri)) + Empties(ExtraOf(Prefix(uri)))
  }

  lemma BeforeIsPlain(uri: string)
    ensures PlainSegments(Before(uri))
  {
    PrefixIsPlain(uri);
    SubstringPlain(Prefix(uri), 0, Base(uri));
    SegmentsPlain(Base(uri));
  }

  lemma GlobMeans(uri: string, path: seq<string>)
    requires Rooted(uri)
    ensures GlobMatch(Split(uri), path) <==>
      EachMatches(Before(uri), path) && GlobMatch(["**"] + AfterOf(Suffix(uri)), path[|Before(uri)|..])
  {
    Shape(uri);
    BeforeIsPlain(uri);
    GlobPrefix(Before(uri), ["**"] + AfterOf(Suffix(uri)), path);
  }

  lemma {:induction false} StripLeftShorter(s: string)
    ensures |StripLeft(s)| <= |s|
    ensures s != [] && s[0] == '/' ==> |StripLeft(s)| < |s|
  {
    if s != [] && s[0] == '/' {
      StripLeftShorter(s[1..]);
    }
  }

  lemma DropSlash(n: nat, t: string)
    requires n > 0
    ensures (Slashes(n) + t)[1..] == Slashes(n - 1) + t
  {
    SlashesFront(n);
  }

  lemma AfterForm(suffix: string)
    requires suffix != [] && suffix[0] == '/'
    ensures |StripLeft(suffix)| < |suffix|
    ensures AfterOf(suffix) == Empties(|suffix| - |StripLeft(suffix)| - 1) + Split(StripLeft(suffix))
  {
    StripLeftForm(suffix);
    StripLeftShorter(suffix);
    var n := |suffix| - |StripLeft(suffix)|;
    DropSlash(n, StripLeft(suffix));
    SplitAfterSlashes(n - 1, StripLeft(suffix));
  }

  /** The name filter is the last segment of the pattern. */
  lemma FilterIsLast(uri: string)
    requires Rooted(uri) && ReadTarget(uri).nameFilter.Some?
    ensures Last(Split(uri)) == ReadTarget(uri).nameFilter.value != "**"
  {
    Shape(uri);
    EndsInSlash(uri);
    assert Suffix(uri) != [];
    AfterForm(Suffix(uri));
    StartsWithStars("**");
  }

  lemma GlobGoesUnder(uri: string, path: seq<string>)
    requires Rooted(uri) && GlobMatch(Split(uri), path)
    ensures Under(Split(Base(uri)), path)
  {
    GlobMeans(uri, path);
    var plain, base := Before(uri), Split(Base(uri));
    NothingMatchesNoPath(["**"] + AfterOf(Suffix(uri)));
    assert |path| > |plain|;
    forall i | 0 <= i < |base|
      ensures SegmentMatch(base[i], path[i])
    {
      assert plain[i] == base[i];
    }
  }

  /** The base and the name filter never drop a path the pattern accepts. */
  lemma PlanDropsNothing(uri: string, path: string)
    requires Rooted(uri) && GlobMatch(Split(uri), Split(path))
    ensures Listed(ReadTarget(uri), Split(path))
  {
    GlobGoesUnder(uri, Split(path));
    if ReadTarget(uri).nameFilter.Some? {
      FilterIsLast(uri);
      GlobLast(Split(uri), Split(path));
    }
  }

  // -------------------------------------------------------------- exactness

  /** No doubled slash before the first `**`, and nothing or one slash and a name after it. */
  predicate Tight(uri: string) {
    var p, q := Prefix(uri), Suffix(uri);
    && !(|p| >= 2 && p[|p| - 1] == '/' && p[|p| - 2] == '/')
    && (q == [] || (|q| >= 2 && q[1] != '/'))
  }

  lemma ExtraMeans(prefix: string)
    requires prefix != [] && prefix[|prefix| - 1] == '/'
    ensures ExtraOf(prefix) == 0 <==> !(|prefix| >= 2 && prefix[|prefix| - 2] == '/')
  {
    var front := prefix[..|prefix| - 1];
    assert StripRight(prefix) == StripRight(front);
    if |prefix| >= 2 && prefix[|prefix| - 2] == '/' {
      assert StripRight(front) == StripRight(front[..|front| - 1]);
      assert |StripRight(front[..|front| - 1])| <= |front| - 1;
    }
  }

  /** Without a regular expression what follows the first `**` is at most one plain name. */
  lemma TrailingIsName(uri: string)
    requires Rooted(uri) && !NeedsRegex(uri) && Trailing(uri) != []
    ensures Split(Trailing(uri)) == [Trailing(uri)]
    ensures ReadTarget(uri).nameFilter == Some(Trailing(uri)) && Trailing(uri) != "**"
  {
    var t := Trailing(uri);
    NoSlashOneSegment(t);
    PlainIffNotRecursive(t);
    PlainIsNotStars(t);
  }

  lemma {:induction false} NoSlashOneSegment(s: string)
    requires '/' !in s
    ensures Split(s) == [s]
  {
    HeadStep(s);
    if s != [] {
      assert s[0] in s;
      NoSlashOneSegment(s[1..]);
      SplitCons(s);
      SplitCons(s[1..]);
    }
  }

  lemma UnderIsEach(base: seq<string>, path: seq<string>)
    ensures Under(base, path) <==> EachMatches(base, path) && path[|base|..] != []
  {
  }

  lemma TightBase(uri: string)
    requires Rooted(uri) && Tight(uri)
    ensures Before(uri) == Split(Base(uri))
  {
    EndsInSlash(uri);
    ExtraMeans(Prefix(uri));
  }

  /** Nothing but the base: any path below it. */
  lemma TightAll(uri: string, path: seq<string>)
    requires Rooted(uri) && Tight(uri) && Suffix(uri) == [] && path != []
    ensures Listed(ReadTarget(uri), path) <==> GlobMatch(Split(uri), path)
  {
    TightBase(uri);
    GlobMeans(uri, path);
    UnderIsEach(Split(Base(uri)), path);
    assert ["**"] + AfterOf(Suffix(uri)) == ["**"];
  }

  lemma TightTrailing(uri: string)
    requires Rooted(uri) && Tight(uri) && Suffix(uri) != []
    ensures Trailing(uri) == Suffix(uri)[1..] != []
  {
    EndsInSlash(uri);
    assert StripLeft(Suffix(uri)[1..]) == Suffix(uri)[1..];
  }

  lemma NameBelow(name: string, base: seq<string>, path: seq<string>)
    requires name != "**" && |path| >= |base| && path != []
    ensures GlobMatch(["**", name], path[|base|..]) <==> |path| > |base| && SegmentMatch(name, Last(path))
  {
    StarsThenOne(name, path[|base|..]);
  }

  lemma AfterName(uri: string)
    requires Rooted(uri) && !NeedsRegex(uri) && Tight(uri) && Suffix(uri) != []
    ensures ["**"] + AfterOf(Suffix(uri)) == ["**", Trailing(uri)] && Trailing(uri) != "**"
    ensures ReadTarget(uri) == Listing(Base(uri), Some(Trailing(uri)))
  {
    TightTrailing(uri);
    TrailingIsName(uri);
  }

  /** The base and one name: any path below it with a matching last segment. */
  lemma TightName(uri: string, path: seq<string>)
    requires Rooted(uri) && !NeedsRegex(uri) && Tight(uri) && Suffix(uri) != [] && path != []
    ensures Listed(ReadTarget(uri), path) <==> GlobMatch(Split(uri), path)
  {
    TightBase(uri);
    AfterName(uri);
    GlobMeans(uri, path);
    if |path| >= |Split(Base(uri))| {
      NameBelow(Trailing(uri), Split(Base(uri)), path);
    }
  }

  // ------------------------------------------------------------- a witness

  /** A text that a pattern without `**` matches: `*` as nothing, `?` as a letter. */
  function Instance(s: string): (r: string)
    ensures OneLine(s) ==> OneLine(r)
    ensures '/' !in s ==> '/' !in r
  {
    if s == [] then []
    else if s[0] == '*' then Instance(s[1..])
    else [if s[0] == '?' then 'a' else s[0]] + Instance(s[1..])
  }

  lemma {:induction false} InstanceMatches(segment: string)
    ensures SegmentMatch(segment, Instance(segment))
  {
    if segment != [] {
      InstanceMatches(segment[1..]);
    }
  }

  lemma {:induction false} InstanceAppend(a: string, b: string)
    ensures Instance(a + b) == Instance(a) + Instance(b)
  {
    if a == [] {
      assert a + b == b && Instance(a) + Instance(b) == Instance(b);
    } else {
      assert (a + b)[1..] == a[1..] + b;
      InstanceAppend(a[1..], b);
    }
  }

  lemma InstanceSlash(rest: string)
    ensures Instance(['/'] + rest) == ['/'] + Instance(rest)
  {
    assert (['/'] + rest)[1..] == rest;
  }

  lemma {:induction false} InstanceSplit(s: string)
    ensures |Split(Instance(s))| == |Split(s)| && EachMatches(Split(s), Split(Instance(s)))
    decreases |s|
  {
    SplitCons(s);
    var head := Head(s);
    InstanceMatches(head);
    NoSlashOneSegment(Instance(head));
    if Tail(s) != [] {
      var rest := Tail(s)[1..];
      Rejoin(s);
      Assoc(head, ['/'], rest);
      InstanceAppend(head, ['/'] + rest);
      InstanceSlash(rest);
      Assoc(Instance(head), ['/'], Instance(rest));
      SplitAppend(Instance(head), Instance(rest));
      InstanceSplit(rest);
      var path := [Instance(head)] + Split(Instance(rest));
      assert path[1..] == Split(Instance(rest));
      EachCons(head, Split(rest), path);
    }
  }

  /** A name the filter lets through. */
  function NameFor(uri: string): string {
    if Trailing(uri) == [] then "a" else Instance(Trailing(uri))
  }

  /** A path right under the base, with such a name. */
  function Witness(uri: string): string {
    Instance(Base(uri)) + ['/'] + NameFor(uri)
  }

  lemma BaseOneLine(uri: string)
    requires OneLine(uri)
    ensures OneLine(Base(uri))
  {
    assert Base(uri) <= uri;
  }

  lemma TrailingOneLine(uri: string)
    requires OneLine(uri)
    ensures OneLine(Trailing(uri))
  {
    StripLeftForm(Suffix(uri));
    var d := |uri| - |Trailing(uri)|;
    assert Trailing(uri) == uri[d..];
  }

  lemma JoinOneLine(a: string, b: string)
    requires OneLine(a) && OneLine(b)
    ensures OneLine(a + ['/'] + b)
  {
  }

  lemma WitnessOneLine(uri: string)
    requires OneLine(uri)
    ensures OneLine(Witness(uri))
  {
    BaseOneLine(uri);
    TrailingOneLine(uri);
    JoinOneLine(Instance(Base(uri)), NameFor(uri));
  }

  lemma WitnessPath(uri: string)
    requires Rooted(uri) && !NeedsRegex(uri)
    ensures Split(Witness(uri)) == Split(Instance(Base(uri))) + [NameFor(uri)]
  {
    NoSlashOneSegment(NameFor(uri));
    SplitAppend(Instance(Base(uri)), NameFor(uri));
  }

  lemma EachSnoc(pattern: seq<string>, path: seq<string>, name: string)
    requires EachMatches(pattern, path)
    ensures EachMatches(pattern, path + [name]) && Last(path + [name]) == name
  {
  }

  lemma WitnessSplit(uri: string)
    requires Rooted(uri) && !NeedsRegex(uri)
    ensures var path := Split(Witness(uri)); var base := Split(Base(uri));
      && |path| == |base| + 1 && EachMatches(base, path)
      && (Trailing(uri) == [] ==> Last(path) == "a")
      && (Trailing(uri) != [] ==> SegmentMatch(Trailing(uri), Last(path)))
  {
    WitnessPath(uri);
    InstanceSplit(Base(uri));
    EachSnoc(Split(Base(uri)), Split(Instance(Base(uri))), NameFor(uri));
    InstanceMatches(Trailing(uri));
  }

  lemma WitnessListed(uri: string)
    requires Rooted(uri) && !NeedsRegex(uri)
    ensures Listed(ReadTarget(uri), Split(Witness(uri)))
  {
    WitnessSplit(uri);
    UnderIsEach(Split(Base(uri)), Split(Witness(uri)));
    if Trailing(uri) != [] {
      TrailingIsName(uri);
    }
  }

  /** A slash at the end asks for an empty last name. */
  lemma LooseEnd(uri: string, name: string)
    requires Rooted(uri) && LooseSuffix(Suffix(uri)) && Trailing(uri) == [] && name != ""
    ensures !GlobMatch(AfterOf(Suffix(uri)), [name])
  {
    EndsInSlash(uri);
    AfterForm(Suffix(uri));
    SplitEmpty();
    var after := AfterOf(Suffix(uri));
    assert Last(after) == "";
    if GlobMatch(after, [name]) {
      GlobLast(after, [name]);
    }
  }

  /** Two slashes after `**` ask for an empty name before the last one. */
  lemma LooseName(uri: string, name: string)
    requires Rooted(uri) && !NeedsRegex(uri) && LooseSuffix(Suffix(uri)) && Trailing(uri) != []
    ensures !GlobMatch(AfterOf(Suffix(uri)), [name])
  {
    var q, t := Suffix(uri), Trailing(uri);
    EndsInSlash(uri);
    AfterForm(q);
    TrailingIsName(uri);
    StripLeftShorter(q[1..]);
    assert |t| == |StripLeft(q[1..])|;
    PlainTooLong(AfterOf(q), name);
  }

  lemma PlainTooLong(pattern: seq<string>, name: string)
    requires |pattern| >= 2 && PlainSegments(pattern)
    ensures !GlobMatch(pattern, [name])
  {
    GlobPrefix(pattern, [], [name]);
    assert pattern + [] == pattern;
  }

  /** What follows `**` in a loose pattern does not match one name. */
  lemma LooseAfter(uri: string, name: string)
    requires Rooted(uri) && !NeedsRegex(uri) && LooseSuffix(Suffix(uri))
    requires Trailing(uri) == [] ==> name != ""
    ensures !GlobMatch(["**"] + AfterOf(Suffix(uri)), [name])
  {
    var whole := ["**"] + AfterOf(Suffix(uri));
    assert whole[1..] == AfterOf(Suffix(uri));
    NothingMatchesNoPath(whole);
    assert [name][1..] == [];
    if Trailing(uri) == [] {
      LooseEnd(uri, name);
    } else {
      LooseName(uri, name);
    }
  }

  lemma LooseBefore(uri: string, path: seq<string>)
    requires Rooted(uri) && ExtraOf(Prefix(uri)) > 0 && |path| <= |Split(Base(uri))| + 1
    ensures !GlobMatch(Split(uri), path)
  {
    GlobMeans(uri, path);
    NothingMatchesNoPath(["**"] + AfterOf(Suffix(uri)));
    assert |Before(uri)| > |Split(Base(uri))|;
    if |path| == |Before(uri)| {
      assert path[|Before(uri)|..] == [];
    }
  }

  lemma OneLeft(path: seq<string>, n: nat)
    requires |path| == n + 1
    ensures path[n..] == [Last(path)]
  {
  }

  lemma BeforeLength(uri: string)
    ensures |Before(uri)| == |Split(Base(uri))| + ExtraOf(Prefix(uri))
  {
  }

  lemma LooseBehind(uri: string, path: seq<string>)
    requires Rooted(uri) && !NeedsRegex(uri) && LooseSuffix(Suffix(uri))
    requires ExtraOf(Prefix(uri)) == 0 && |path| == |Split(Base(uri))| + 1
    requires Trailing(uri) == [] ==> Last(path) != ""
    ensures !GlobMatch(Split(uri), path)
  {
    GlobMeans(uri, path);
    BeforeLength(uri);
    OneLeft(path, |Before(uri)|);
    LooseAfter(uri, Last(path));
  }

  /** A slash at the end of the pattern, or two after the first `**`. */
  predicate LooseSuffix(suffix: string) {
    suffix != [] && !(|suffix| >= 2 && suffix[1] != '/')
  }

  lemma LooseCases(uri: string)
    requires Rooted(uri) && !Tight(uri)
    ensures ExtraOf(Prefix(uri)) > 0 || LooseSuffix(Suffix(uri))
  {
    EndsInSlash(uri);
    ExtraMeans(Prefix(uri));
  }

  lemma WitnessName(uri: string)
    requires Rooted(uri) && !NeedsRegex(uri)
    ensures |Split(Witness(uri))| == |Split(Base(uri))| + 1
    ensures Trailing(uri) == [] ==> Last(Split(Witness(uri))) != ""
  {
    WitnessSplit(uri);
  }

  lemma LooseIsNotExact(uri: string)
    requires Rooted(uri) && !NeedsRegex(uri) && !Tight(uri)
    ensures !GlobMatch(Split(uri), Split(Witness(uri)))
  {
    WitnessName(uri);
    LooseCases(uri);
    if ExtraOf(Prefix(uri)) > 0 {
      LooseBefore(uri, Split(Witness(uri)));
    } else {
      LooseBehind(uri, Split(Witness(uri)));
    }
  }

  ghost predicate Exact(uri: string) {
    forall path | OneLine(path) :: Admitted(uri, path) <==> GlobMatch(Split(uri), Split(path))
  }

  /**
   * The plan admits exactly the paths the pattern means if and only if the
   * pattern needs the regular expression or has no doubled slash around its
   * first `**` and no slash at its end.
   */
  lemma PlanExactIff(uri: string)
    requires Rooted(uri) && OneLine(uri)
    ensures Exact(uri) <==> NeedsRegex(uri) || Tight(uri)
  {
    if NeedsRegex(uri) || Tight(uri) {
      forall path | OneLine(path)
        ensures Admitted(uri, path) <==> GlobMatch(Split(uri), Split(path))
      {
        if NeedsRegex(uri) {
          RegexIsGlob(uri, path);
          if GlobMatch(Split(uri), Split(path)) {
            PlanDropsNothing(uri, path);
          }
        } else {
          if Suffix(uri) == [] {
            TightAll(uri, Split(path));
          } else {
            TightName(uri, Split(path));
          }
        }
      }
    } else {
      WitnessListed(uri);
      LooseIsNotExact(uri);
      WitnessOneLine(uri);
    }
  }

  /** Two slashes in a row right before the first `**`, or right after it. */
  predicate DoubledSlash(uri: string) {
    var p, q := Prefix(uri), Suffix(uri);
    || (|p| >= 2 && p[|p| - 1] == '/' && p[|p| - 2] == '/')
    || (|q| >= 2 && q[0] == '/' && q[1] == '/')
  }

  /**
   * The source strips slashes from the ends of a path, so no pattern it gets
   * ends in one: then doubled slashes are all that can make the plan inexact.
   */
  lemma CleanedExactIff(uri: string)
    requires Rooted(uri) && OneLine(uri) && uri[|uri| - 1] != '/'
    ensures Exact(uri) <==> NeedsRegex(uri) || !DoubledSlash(uri)
  {
    PlanExactIff(uri);
    EndsInSlash(uri);
    SuffixEnd(uri);
  }

  lemma SuffixEnd(uri: string)
    requires Recursive(uri) && uri[|uri| - 1] != '/'
    ensures Suffix(uri) != [] ==> Suffix(uri)[|Suffix(uri)| - 1] != '/'
  {
  }
}
