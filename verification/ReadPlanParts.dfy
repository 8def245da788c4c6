// What the parts of a read plan are, in terms of the pattern's segments: the
// base, the name filter, and when a regular expression is built at all.
module ReadPlanParts {
  import opened Lists
  import opened Globs
  import opened ReadPlan
  import opened ReadPlanProofs

  /** A pattern without `**` is handed on as it is, and means what it says. */
  lemma PlainIsDirect(uri: string)
    requires !HasStars(uri)
    ensures ReadTarget(uri) == Direct(uri) && GlobRegex(uri).None? && Exact(uri)
  {
    PlainIffNotRecursive(uri);
  }

  // -------------------------------------------------------------- the base

  lemma AtFirstStars(uri: string)
    requires Recursive(uri)
    ensures uri == Prefix(uri) + ("**" + Suffix(uri))
  {
    var i := FirstStars(uri);
    FromStars(uri[i..]);
    assert uri[i..][2..] == uri[i + 2..];
    assert uri == uri[..i] + uri[i..];
  }

  lemma BaseIsPlain(uri: string)
    ensures !HasStars(Base(uri))
  {
    PrefixIsPlain(uri);
    SubstringPlain(Prefix(uri), 0, Base(uri));
  }

  /** The base is what comes before the first `**`, with the slashes between them taken off. */
  lemma BaseMeans(uri: string) returns (n: nat)
    requires Rooted(uri)
    ensures ReadTarget(uri).Listing? && n >= 1
    ensures var base := ReadTarget(uri).base;
      && uri == base + Slashes(n) + ("**" + Suffix(uri))
      && !HasStars(base) && (base != [] ==> base[|base| - 1] != '/')
  {
    EndsInSlash(uri);
    n := |Prefix(uri)| - |Base(uri)|;
    FrontForm(Prefix(uri));
    StripRightForm(Prefix(uri));
    AtFirstStars(uri);
    BaseIsPlain(uri);
  }

  // ------------------------------------------------------------ the filter

  lemma LastOfTwo(a: seq<string>, b: seq<string>)
    requires b != []
    ensures a + b != [] && Last(a + b) == Last(b)
  {
  }

  /** The last segment: the `**` itself, nothing after a slash, or the last of what follows. */
  lemma LastSegment(uri: string)
    requires Rooted(uri)
    ensures Suffix(uri) == [] ==> Last(Split(uri)) == "**"
    ensures Suffix(uri) != [] ==> Last(Split(uri)) == Last(Split(Trailing(uri)))
  {
    Shape(uri);
    EndsInSlash(uri);
    LastOfTwo(Before(uri), ["**"] + AfterOf(Suffix(uri)));
    if Suffix(uri) != [] {
      AfterForm(Suffix(uri));
      LastOfTwo(Empties(|Suffix(uri)| - |Trailing(uri)| - 1), Split(Trailing(uri)));
      LastOfTwo(["**"], AfterOf(Suffix(uri)));
    }
  }

  lemma LastIsWellFormed(uri: string)
    requires WellFormed(uri)
    ensures Last(Split(uri)) == "**" || !HasStars(Last(Split(uri)))
  {
  }

  /** There is a name filter exactly if the last segment is neither empty nor `**`, and it is that segment. */
  lemma FilterIff(uri: string)
    requires Rooted(uri)
    ensures var name := Last(Split(uri));
      ReadTarget(uri).nameFilter == if name != "" && name != "**" then Some(name) else None
  {
    LastSegment(uri);
    LastIsWellFormed(uri);
    PlainIffNotRecursive(Last(Split(uri)));
    StartsWithStars("**");
    SplitEmpty();
  }

  // ------------------------------------------- when a regular expression is built

  /** What follows the first `**`. */
  function AfterStars(segments: seq<string>): seq<string> {
    if segments == [] then [] else if segments[0] == "**" then segments[1..] else AfterStars(segments[1..])
  }

  function DropEmpty(segments: seq<string>): seq<string> {
    if segments != [] && segments[0] == "" then DropEmpty(segments[1..]) else segments
  }

  lemma {:induction false} AfterPlain(plain: seq<string>, rest: seq<string>)
    requires PlainSegments(plain)
    ensures AfterStars(plain + (["**"] + rest)) == rest
  {
    if plain == [] {
      assert plain + (["**"] + rest) == ["**"] + rest && (["**"] + rest)[1..] == rest;
    } else {
      assert (plain + (["**"] + rest))[1..] == plain[1..] + (["**"] + rest);
      AfterPlain(plain[1..], rest);
    }
  }

  lemma {:induction false} DropEmpties(n: nat, names: seq<string>)
    requires names == [] || names[0] != ""
    ensures DropEmpty(Empties(n) + names) == names
  {
    if n == 0 {
      assert Empties(0) + names == names;
    } else {
      EmptiesEnds(n);
      assert (Empties(n) + names)[1..] == Empties(n - 1) + names;
      DropEmpties(n - 1, names);
    }
  }

  lemma NamesOf(suffix: string)
    requires suffix != [] ==> suffix[0] == '/'
    ensures DropEmpty(AfterOf(suffix)) == if StripLeft(suffix) == [] then [] else Split(StripLeft(suffix))
  {
    if suffix != [] {
      AfterForm(suffix);
      var n := |suffix| - |StripLeft(suffix)| - 1;
      if StripLeft(suffix) == [] {
        SplitEmpty();
        EmptiesEnds(n + 1);
        assert Empties(n + 1) + [] == Empties(n + 1);
        DropEmpties(n + 1, []);
      } else {
        HeadStep(StripLeft(suffix));
        DropEmpties(n, Split(StripLeft(suffix)));
      }
    }
  }

  lemma NamesAfter(uri: string)
    requires Rooted(uri)
    ensures DropEmpty(AfterStars(Split(uri))) == if Trailing(uri) == [] then [] else Split(Trailing(uri))
  {
    Shape(uri);
    EndsInSlash(uri);
    BeforeIsPlain(uri);
    AfterPlain(Before(uri), AfterOf(Suffix(uri)));
    NamesOf(Suffix(uri));
  }

  lemma {:induction false} OneSegmentIff(s: string)
    ensures |Split(s)| == 1 <==> '/' !in s
    ensures |Split(s)| == 1 ==> Split(s) == [s]
  {
    SplitCons(s);
    if Tail(s) != [] {
      assert s[|Head(s)|] == '/';
    }
  }

  lemma SoleName(uri: string)
    requires Rooted(uri) && Trailing(uri) != [] && '/' !in Trailing(uri)
    ensures HasStars(Trailing(uri)) <==> Trailing(uri) == "**"
  {
    LastSegment(uri);
    LastIsWellFormed(uri);
    OneSegmentIff(Trailing(uri));
    if Trailing(uri) == "**" {
      assert Trailing(uri)[0] == '*' && Trailing(uri)[0 + 1] == '*';
    }
  }

  /**
   * A regular expression is built exactly for the patterns that have, after
   * the first `**` and empty segments, more than one segment or a second `**`.
   */
  lemma NeedsRegexIff(uri: string)
    requires Rooted(uri)
    ensures GlobRegex(uri).Some? <==>
      var names := DropEmpty(AfterStars(Split(uri))); |names| > 1 || names == ["**"]
  {
    NamesAfter(uri);
    if Trailing(uri) != [] {
      OneSegmentIff(Trailing(uri));
      PlainIffNotRecursive(Trailing(uri));
      if '/' !in Trailing(uri) {
        SoleName(uri);
      }
    }
  }
}
