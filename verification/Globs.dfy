// Recursive path patterns: their meaning segment by segment, their translation
// to a regular expression character by character, and the proof that the two
// agree.
module Globs {
  import opened Regex

  // ------------------------------------------------------------- segments

  /** The part before the first slash. */
  function Head(s: string): (h: string)
    ensures |h| <= |s| && h == s[..|h|]
    ensures '/' !in h
    ensures |h| < |s| ==> s[|h|] == '/'
  {
    if s == [] || s[0] == '/' then [] else [s[0]] + Head(s[1..])
  }

  /** The first slash and what follows. */
  function Tail(s: string): (t: string)
    ensures s == Head(s) + t
    ensures t != [] ==> t[0] == '/'
  {
    s[|Head(s)|..]
  }

  /** The segments between slashes; always at least one. */
  function Split(s: string): (r: seq<string>)
    ensures r != [] && r[0] == Head(s)
    decreases |s|
  {
    if Tail(s) == [] then [Head(s)] else [Head(s)] + Split(Tail(s)[1..])
  }

  predicate StartsWith(s: string, p: string) {
    p <= s
  }

  predicate HasStars(s: string) {
    exists i | 0 <= i < |s| - 1 :: s[i] == '*' && s[i + 1] == '*'
  }

  /** `**` stands only as a whole segment. */
  predicate WellFormed(pattern: string) {
    forall segment | segment in Split(pattern) :: segment == "**" || !HasStars(segment)
  }

  /** Matching within one segment: `*` any characters, `?` one, others themselves. */
  predicate SegmentMatch(p: string, s: string)
    decreases |p| + |s|
  {
    if p == [] then s == []
    else if p[0] == '*' then SegmentMatch(p[1..], s) || (s != [] && SegmentMatch(p, s[1..]))
    else s != [] && (p[0] == '?' || p[0] == s[0]) && SegmentMatch(p[1..], s[1..])
  }

  /** Matching segments: `**` followed by more is zero or more whole segments, a final `**` one or more. */
  predicate GlobMatch(pattern: seq<string>, path: seq<string>)
    decreases |pattern| + |path|
  {
    if pattern == [] then path == []
    else if pattern[0] == "**" then
      if |pattern| == 1 then path != []
      else GlobMatch(pattern[1..], path) || (path != [] && GlobMatch(pattern, path[1..]))
    else path != [] && SegmentMatch(pattern[0], path[0]) && GlobMatch(pattern[1..], path[1..])
  }

  // ---------------------------------------------------------- translation

  /** The regular expression of one character that is not part of `**`. */
  function CharPart(c: char): Re {
    if c == '*' then NAME_STAR else if c == '?' then NotSlash else Chr(c)
  }

  function Translate(uri: string): seq<Re>
    decreases |uri|
  {
    if uri == [] then []
    else if StartsWith(uri, "**/") then [OPT_DIRS] + Translate(uri[3..])
    else if StartsWith(uri, "**") then [ANYTHING] + Translate(uri[2..])
    else [CharPart(uri[0])] + Translate(uri[1..])
  }

  function SegmentParts(segment: string): seq<Re> {
    if segment == [] then [] else [CharPart(segment[0])] + SegmentParts(segment[1..])
  }

  lemma StartsWithStars(s: string)
    ensures StartsWith(s, "**") <==> |s| >= 2 && s[0] == '*' && s[1] == '*'
    ensures StartsWith(s, "**/") <==> |s| >= 3 && s[0] == '*' && s[1] == '*' && s[2] == '/'
  {
    if |s| >= 2 && s[0] == '*' && s[1] == '*' {
      assert s[..2] == "**";
    }
    if |s| >= 3 && s[0] == '*' && s[1] == '*' && s[2] == '/' {
      assert s[..3] == "**/";
    }
  }

  lemma PlainStart(segment: string, tail: string)
    requires !HasStars(segment) && segment != [] && (tail != [] ==> tail[0] == '/')
    ensures !StartsWith(segment + tail, "**") && !StartsWith(segment + tail, "**/")
  {
    StartsWithStars(segment + tail);
    if |segment| > 1 {
      assert !(segment[0] == '*' && segment[0 + 1] == '*');
    }
  }

  lemma PlainRest(segment: string)
    requires !HasStars(segment) && segment != []
    ensures !HasStars(segment[1..])
  {
    var rest := segment[1..];
    forall i | 0 <= i < |rest| - 1
      ensures !(rest[i] == '*' && rest[i + 1] == '*')
    {
      assert rest[i] == segment[i + 1] && rest[i + 1] == segment[(i + 1) + 1];
    }
  }

  /** A plain segment is translated character by character, whatever follows its slash. */
  lemma {:induction false} TranslateSegment(segment: string, tail: string)
    requires !HasStars(segment) && (tail != [] ==> tail[0] == '/')
    ensures Translate(segment + tail) == SegmentParts(segment) + Translate(tail)
  {
    if segment == [] {
      assert segment + tail == tail;
      assert SegmentParts(segment) + Translate(tail) == Translate(tail);
    } else {
      assert (segment + tail)[1..] == segment[1..] + tail;
      PlainStart(segment, tail);
      PlainRest(segment);
      TranslateSegment(segment[1..], tail);
    }
  }

  // ------------------------------------------------------------- meanings

  /** What may follow a segment's parts: nothing, or a slash. */
  predicate AtSlash(rest: seq<Re>) {
    rest != [] ==> rest[0] == Chr('/')
  }

  lemma AtSlashMatches(rest: seq<Re>, s: string)
    requires AtSlash(rest) && MatchesAll(rest, s)
    ensures s != [] ==> s[0] == '/'
  {
    if rest != [] {
      assert rest == [Chr('/')] + rest[1..];
      OneChar(Chr('/'), rest[1..], s);
    }
  }

  lemma HeadStep(s: string)
    ensures s == [] || s[0] == '/' ==> Head(s) == [] && Tail(s) == s
    ensures s != [] && s[0] != '/' ==> Head(s) == [s[0]] + Head(s[1..]) && Tail(s) == Tail(s[1..])
  {
  }

  ghost predicate Means(segment: string, rest: seq<Re>, s: string) {
    MatchesAll(SegmentParts(segment) + rest, s) <==> SegmentMatch(segment, Head(s)) && MatchesAll(rest, Tail(s))
  }

  lemma PartsCons(segment: string, rest: seq<Re>)
    requires segment != []
    ensures SegmentParts(segment) + rest == [CharPart(segment[0])] + (SegmentParts(segment[1..]) + rest)
  {
  }

  lemma EmptyMeans(rest: seq<Re>, s: string)
    requires AtSlash(rest)
    ensures Means("", rest, s)
  {
    HeadStep(s);
    assert SegmentParts("") + rest == rest;
    if MatchesAll(rest, s) {
      AtSlashMatches(rest, s);
    }
  }

  lemma StarMeans(segment: string, rest: seq<Re>, s: string)
    requires segment != [] && segment[0] == '*'
    requires Means(segment[1..], rest, s)
    requires s != [] && s[0] != '/' ==> Means(segment, rest, s[1..])
    ensures Means(segment, rest, s)
  {
    PartsCons(segment, rest);
    NameStar(SegmentParts(segment[1..]) + rest, s);
    HeadStep(s);
  }

  lemma CharPartMeans(c: char, s: string)
    requires s != [] && c != '*'
    ensures Matches(CharPart(c), s[..1]) <==> if c == '?' then s[0] != '/' else s[0] == c
  {
    assert s[..1] == [s[0]];
  }

  lemma SegmentMatchCons(segment: string, h: string)
    requires segment != [] && segment[0] != '*'
    ensures SegmentMatch(segment, h) <==>
      h != [] && (segment[0] == '?' || segment[0] == h[0]) && SegmentMatch(segment[1..], h[1..])
  {
  }

  lemma CharMeans(segment: string, rest: seq<Re>, s: string)
    requires segment != [] && segment[0] != '*' && segment[0] != '/'
    requires s != [] && s[0] != '/' ==> Means(segment[1..], rest, s[1..])
    ensures Means(segment, rest, s)
  {
    var later := SegmentParts(segment[1..]) + rest;
    PartsCons(segment, rest);
    OneChar(CharPart(segment[0]), later, s);
    HeadStep(s);
    SegmentMatchCons(segment, Head(s));
    if s != [] {
      CharPartMeans(segment[0], s);
      if s[0] != '/' {
        assert Head(s)[1..] == Head(s[1..]);
      }
    }
  }

  /** The parts of a plain segment match exactly a name the segment matches. */
  lemma {:induction false} SegmentMeaning(segment: string, rest: seq<Re>, s: string)
    requires '/' !in segment && AtSlash(rest)
    ensures Means(segment, rest, s)
    decreases |segment| + |s|
  {
    if segment == [] {
      EmptyMeans(rest, s);
    } else if segment[0] == '*' {
      SegmentMeaning(segment[1..], rest, s);
      if s != [] && s[0] != '/' {
        SegmentMeaning(segment, rest, s[1..]);
      }
      StarMeans(segment, rest, s);
    } else {
      if s != [] && s[0] != '/' {
        SegmentMeaning(segment[1..], rest, s[1..]);
      }
      CharMeans(segment, rest, s);
    }
  }

  // ------------------------------------------------------------ the theorem

  lemma {:induction false} NothingMatchesNoPath(pattern: seq<string>)
    requires pattern != []
    ensures !GlobMatch(pattern, [])
  {
    if pattern[0] == "**" && |pattern| > 1 {
      NothingMatchesNoPath(pattern[1..]);
    }
  }

  lemma SplitCons(s: string)
    ensures Tail(s) == [] ==> Split(s) == [Head(s)] && s == Head(s)
    ensures Tail(s) != [] ==> Split(s) == [Head(s)] + Split(Tail(s)[1..])
  {
  }

  lemma Rejoin(s: string)
    requires Tail(s) != []
    ensures s == Head(s) + ['/'] + Tail(s)[1..]
  {
    assert Tail(s) == ['/'] + Tail(s)[1..];
  }

  lemma SplitRest(s: string)
    ensures Split(s)[1..] == if Tail(s) == [] then [] else Split(Tail(s)[1..])
  {
    SplitCons(s);
  }

  lemma WellFormedRest(p: string)
    requires WellFormed(p) && Tail(p) != []
    ensures WellFormed(Tail(p)[1..])
  {
    SplitRest(p);
    assert forall segment | segment in Split(p)[1..] :: segment in Split(p);
  }

  ghost predicate Agrees(p: string, s: string) {
    MatchesAll(Translate(p), s) <==> GlobMatch(Split(p), Split(s))
  }

  /** The last segment. */
  lemma LastAgrees(p: string, s: string)
    requires WellFormed(p) && OneLine(s) && Tail(p) == []
    ensures Agrees(p, s)
  {
    SplitCons(p);
    SplitCons(s);
    if p == "**" {
      StartsWithStars(p);
      assert p[2..] == [];
      AnythingMatches(s);
      assert s[..|s|] == s && s[|s|..] == [];
      Prefixed(ANYTHING, [], s, |s|);
      assert Translate(p) == [ANYTHING] + [];
    } else {
      TranslateSegment(p, []);
      assert p + [] == p;
      SegmentMeaning(p, [], s);
      assert GlobMatch([p], Split(s)) <==> SegmentMatch(p, Head(s)) && Split(s)[1..] == [];
    }
  }

  /** A slash somewhere, with the rest matching after it. */
  ghost predicate AfterSlash(rest: seq<Re>, s: string) {
    exists i | 0 <= i < |s| :: s[i] == '/' && MatchesAll(rest, s[i + 1..])
  }

  /** The first slash is where the tail starts. */
  lemma TailFrom(s: string, i: nat)
    requires i < |s| && s[i] == '/'
    ensures |Head(s)| <= i && Tail(s) != [] && s[|Head(s)| + 1..] == Tail(s)[1..]
  {
    assert forall k | 0 <= k < |Head(s)| :: s[k] == Head(s)[k] && s[k] in Head(s);
  }

  lemma FirstOrLater(rest: seq<Re>, s: string)
    requires AfterSlash(rest, s)
    ensures Tail(s) != [] && (MatchesAll(rest, Tail(s)[1..]) || AfterSlash(rest, Tail(s)[1..]))
  {
    var n := |Head(s)|;
    var i :| 0 <= i < |s| && s[i] == '/' && MatchesAll(rest, s[i + 1..]);
    TailFrom(s, i);
    var after := Tail(s)[1..];
    if i > n {
      assert after[i - n - 1] == '/' && after[(i - n - 1) + 1..] == s[i + 1..];
    }
  }

  lemma FirstIsSlash(rest: seq<Re>, s: string)
    requires Tail(s) != [] && MatchesAll(rest, Tail(s)[1..])
    ensures AfterSlash(rest, s)
  {
    var n := |Head(s)|;
    assert s[n] == '/' && s[n + 1..] == Tail(s)[1..];
  }

  lemma LaterIsSlash(rest: seq<Re>, s: string)
    requires Tail(s) != [] && AfterSlash(rest, Tail(s)[1..])
    ensures AfterSlash(rest, s)
  {
    var n, after := |Head(s)|, Tail(s)[1..];
    var k :| 0 <= k < |after| && after[k] == '/' && MatchesAll(rest, after[k + 1..]);
    assert s[n + 1 + k] == '/' && s[(n + 1 + k) + 1..] == after[k + 1..];
  }

  /** `(?:.*\/)?` drops no segment, or one more. */
  lemma OptDirsStep(rest: seq<Re>, s: string)
    requires OneLine(s)
    ensures MatchesAll([OPT_DIRS] + rest, s) <==>
      MatchesAll(rest, s) || (Tail(s) != [] && MatchesAll([OPT_DIRS] + rest, Tail(s)[1..]))
  {
    OptDirs(rest, s);
    if AfterSlash(rest, s) {
      FirstOrLater(rest, s);
    }
    if Tail(s) != [] {
      OptDirs(rest, Tail(s)[1..]);
      if MatchesAll(rest, Tail(s)[1..]) {
        FirstIsSlash(rest, s);
      }
      if AfterSlash(rest, Tail(s)[1..]) {
        LaterIsSlash(rest, s);
      }
    }
  }

  lemma TranslateStars(p: string)
    requires Tail(p) != [] && Head(p) == "**"
    ensures Translate(p) == [OPT_DIRS] + Translate(Tail(p)[1..])
  {
    StartsWithStars(p);
    assert p[3..] == Tail(p)[1..];
  }

  lemma GlobStars(pattern: seq<string>, path: seq<string>)
    requires |pattern| > 1 && pattern[0] == "**" && path != []
    ensures GlobMatch(pattern, path) <==> GlobMatch(pattern[1..], path) || GlobMatch(pattern, path[1..])
  {
  }

  /** `**` and a slash, then more. */
  lemma StarsAgree(p: string, s: string)
    requires OneLine(s) && Tail(p) != [] && Head(p) == "**"
    requires Agrees(Tail(p)[1..], s)
    requires Tail(s) != [] ==> Agrees(p, Tail(s)[1..])
    ensures Agrees(p, s)
  {
    TranslateStars(p);
    OptDirsStep(Translate(Tail(p)[1..]), s);
    SplitRest(p);
    SplitRest(s);
    GlobStars(Split(p), Split(s));
    if Tail(s) == [] {
      NothingMatchesNoPath(Split(p));
    }
  }

  lemma TranslatePlain(p: string)
    requires Tail(p) != [] && !HasStars(Head(p))
    ensures Translate(p) == SegmentParts(Head(p)) + ([Chr('/')] + Translate(Tail(p)[1..]))
  {
    TranslateSegment(Head(p), Tail(p));
    StartsWithStars(Tail(p));
  }

  lemma GlobPlain(pattern: seq<string>, path: seq<string>)
    requires pattern != [] && pattern[0] != "**" && path != []
    ensures GlobMatch(pattern, path) <==> SegmentMatch(pattern[0], path[0]) && GlobMatch(pattern[1..], path[1..])
  {
  }

  /** A plain segment and a slash, then more. */
  lemma PlainAgrees(p: string, s: string)
    requires OneLine(s) && Tail(p) != [] && Head(p) != "**" && !HasStars(Head(p))
    requires Tail(s) != [] ==> Agrees(Tail(p)[1..], Tail(s)[1..])
    ensures Agrees(p, s)
  {
    var rest := Tail(p)[1..];
    TranslatePlain(p);
    SegmentMeaning(Head(p), [Chr('/')] + Translate(rest), s);
    OneChar(Chr('/'), Translate(rest), Tail(s));
    SplitRest(p);
    SplitRest(s);
    GlobPlain(Split(p), Split(s));
    if Tail(s) == [] {
      NothingMatchesNoPath(Split(rest));
    } else {
      assert Tail(s)[..1] == ['/'];
    }
  }

  /**
   * For patterns of literals, `*`, `?` and whole-segment `**`, the regular
   * expression accepts a path exactly when matching segment by segment does.
   */
  lemma {:induction false} RegexIsGlob(p: string, s: string)
    requires WellFormed(p) && OneLine(s)
    ensures MatchesAll(Translate(p), s) <==> GlobMatch(Split(p), Split(s))
    decreases |p| + |s|
  {
    if Tail(p) == [] {
      LastAgrees(p, s);
    } else {
      var rest := Tail(p)[1..];
      WellFormedRest(p);
      if Tail(s) != [] {
        assert OneLine(Tail(s)[1..]);
      }
      if Head(p) == "**" {
        RegexIsGlob(rest, s);
        if Tail(s) != [] {
          RegexIsGlob(p, Tail(s)[1..]);
        }
        StarsAgree(p, s);
      } else {
        if Tail(s) != [] {
          RegexIsGlob(rest, Tail(s)[1..]);
        }
        PlainAgrees(p, s);
      }
    }
  }
}
