// The regular expressions that a recursive path pattern is translated to, with
// the usual meaning of their operators.
module Regex {

  /** One character, any but a slash, any but a newline; repetition, option, sequence. */
  datatype Re =
    | Chr(c: char)
    | NotSlash
    | Dot
    | Star(body: Re)
    | Opt(body: Re)
    | Cat(left: Re, right: Re)

  ghost predicate Matches(r: Re, s: string)
    decreases r, |s|
  {
    match r
    case Chr(c) => s == [c]
    case NotSlash => |s| == 1 && s[0] != '/'
    case Dot => |s| == 1 && s[0] != '\n'
    case Star(body) =>
      s == [] || exists i | 0 < i <= |s| :: Matches(body, s[..i]) && Matches(r, s[i..])
    case Opt(body) => s == [] || Matches(body, s)
    case Cat(left, right) => exists i | 0 <= i <= |s| :: Matches(left, s[..i]) && Matches(right, s[i..])
  }

  /** The parts in sequence, anchored at both ends. */
  ghost predicate MatchesAll(parts: seq<Re>, s: string) {
    if parts == [] then s == []
    else exists i | 0 <= i <= |s| :: Matches(parts[0], s[..i]) && MatchesAll(parts[1..], s[i..])
  }

  /** `[^/]*` */
  const NAME_STAR := Star(NotSlash)

  /** `.*` */
  const ANYTHING := Star(Dot)

  /** `(?:.*\/)?` */
  const OPT_DIRS := Opt(Cat(Star(Dot), Chr('/')))

  predicate OneLine(s: string) {
    forall i | 0 <= i < |s| :: s[i] != '\n'
  }

  lemma Prefixed(first: Re, rest: seq<Re>, s: string, i: nat)
    requires i <= |s| && Matches(first, s[..i]) && MatchesAll(rest, s[i..])
    ensures MatchesAll([first] + rest, s)
  {
    assert ([first] + rest)[1..] == rest;
  }

  lemma Splits(first: Re, rest: seq<Re>, s: string) returns (i: nat)
    requires MatchesAll([first] + rest, s)
    ensures i <= |s| && Matches(first, s[..i]) && MatchesAll(rest, s[i..])
  {
    assert ([first] + rest)[1..] == rest;
    i :| 0 <= i <= |s| && Matches(first, s[..i]) && MatchesAll(rest, s[i..]);
  }

  lemma OneChar(first: Re, rest: seq<Re>, s: string)
    requires first.Chr? || first.NotSlash?
    ensures MatchesAll([first] + rest, s) <==> s != [] && Matches(first, s[..1]) && MatchesAll(rest, s[1..])
  {
    if MatchesAll([first] + rest, s) {
      var i := Splits(first, rest, s);
      assert i == 1;
    }
    if s != [] && Matches(first, s[..1]) && MatchesAll(rest, s[1..]) {
      Prefixed(first, rest, s, 1);
    }
  }

  lemma NameStarStops(rest: seq<Re>, s: string)
    requires MatchesAll(rest, s)
    ensures MatchesAll([NAME_STAR] + rest, s)
  {
    assert s[..0] == [] && s[0..] == s;
    Prefixed(NAME_STAR, rest, s, 0);
  }

  lemma NameStarTakes(rest: seq<Re>, s: string)
    requires s != [] && s[0] != '/' && MatchesAll([NAME_STAR] + rest, s[1..])
    ensures MatchesAll([NAME_STAR] + rest, s)
  {
    var i := Splits(NAME_STAR, rest, s[1..]);
    var head := s[..i + 1];
    assert head[..1] == [s[0]] && head[1..] == s[1..][..i];
    assert Matches(NAME_STAR, head);
    assert s[1..][i..] == s[i + 1..];
    Prefixed(NAME_STAR, rest, s, i + 1);
  }

  lemma NameStarBody(head: string)
    requires head != [] && Matches(NAME_STAR, head)
    ensures head[0] != '/' && Matches(NAME_STAR, head[1..])
  {
    var k :| 0 < k <= |head| && Matches(NotSlash, head[..k]) && Matches(NAME_STAR, head[k..]);
  }

  lemma NameStarTaken(rest: seq<Re>, s: string)
    requires MatchesAll([NAME_STAR] + rest, s)
    ensures MatchesAll(rest, s) || (s != [] && s[0] != '/' && MatchesAll([NAME_STAR] + rest, s[1..]))
  {
    var i := Splits(NAME_STAR, rest, s);
    if i == 0 {
      assert s[0..] == s;
    } else {
      NameStarBody(s[..i]);
      assert s[..i][1..] == s[1..][..i - 1] && s[1..][i - 1..] == s[i..];
      Prefixed(NAME_STAR, rest, s[1..], i - 1);
    }
  }

  /** `[^/]*` takes nothing, or one more character that is not a slash. */
  lemma NameStar(rest: seq<Re>, s: string)
    ensures MatchesAll([NAME_STAR] + rest, s) <==>
      MatchesAll(rest, s) || (s != [] && s[0] != '/' && MatchesAll([NAME_STAR] + rest, s[1..]))
  {
    if MatchesAll([NAME_STAR] + rest, s) {
      NameStarTaken(rest, s);
    }
    if MatchesAll(rest, s) {
      NameStarStops(rest, s);
    }
    if s != [] && s[0] != '/' && MatchesAll([NAME_STAR] + rest, s[1..]) {
      NameStarTakes(rest, s);
    }
  }

  /** `.*` matches every string without a newline. */
  lemma {:induction false} AnythingMatches(s: string)
    requires OneLine(s)
    ensures Matches(ANYTHING, s)
  {
    if s != [] {
      AnythingMatches(s[1..]);
      assert Matches(Dot, s[..1]);
    }
  }

  lemma OptDirsEndsInSlash(head: string)
    requires head != [] && Matches(OPT_DIRS, head)
    ensures head[|head| - 1] == '/'
  {
    var dirs := Cat(Star(Dot), Chr('/'));
    assert Matches(dirs, head);
    var k :| 0 <= k <= |head| && Matches(Star(Dot), head[..k]) && Matches(Chr('/'), head[k..]);
    assert head[k..] == ['/'];
  }

  lemma OptDirsTakes(rest: seq<Re>, s: string, i: nat)
    requires i < |s| && s[i] == '/' && OneLine(s) && MatchesAll(rest, s[i + 1..])
    ensures MatchesAll([OPT_DIRS] + rest, s)
  {
    var head := s[..i + 1];
    AnythingMatches(head[..i]);
    assert head[i..] == ['/'];
    assert Matches(Cat(Star(Dot), Chr('/')), head);
    Prefixed(OPT_DIRS, rest, s, i + 1);
  }

  lemma OptDirsStops(rest: seq<Re>, s: string)
    requires MatchesAll(rest, s)
    ensures MatchesAll([OPT_DIRS] + rest, s)
  {
    assert s[..0] == [] && s[0..] == s;
    Prefixed(OPT_DIRS, rest, s, 0);
  }

  lemma OptDirsTaken(rest: seq<Re>, s: string)
    requires MatchesAll([OPT_DIRS] + rest, s)
    ensures MatchesAll(rest, s) || exists i | 0 <= i < |s| :: s[i] == '/' && MatchesAll(rest, s[i + 1..])
  {
    var i := Splits(OPT_DIRS, rest, s);
    if i == 0 {
      assert s[0..] == s;
    } else {
      OptDirsEndsInSlash(s[..i]);
      assert s[i - 1] == '/' && MatchesAll(rest, s[i - 1 + 1..]);
    }
  }

  /** `(?:.*\/)?` takes nothing, or everything up to and including some slash. */
  lemma OptDirs(rest: seq<Re>, s: string)
    requires OneLine(s)
    ensures MatchesAll([OPT_DIRS] + rest, s) <==>
      MatchesAll(rest, s) || exists i | 0 <= i < |s| :: s[i] == '/' && MatchesAll(rest, s[i + 1..])
  {
    if MatchesAll([OPT_DIRS] + rest, s) {
      OptDirsTaken(rest, s);
    }
    if MatchesAll(rest, s) {
      OptDirsStops(rest, s);
    }
    forall i: nat | i < |s| && s[i] == '/' && MatchesAll(rest, s[i + 1..])
      ensures MatchesAll([OPT_DIRS] + rest, s)
    {
      OptDirsTakes(rest, s, i);
    }
  }
}
