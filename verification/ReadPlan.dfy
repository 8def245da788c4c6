// The plan to read a recursive path pattern with an engine that only knows a
// base directory, a filter on file names and a regular expression on paths.
module ReadPlan {
  import opened Lists
  import opened Regex
  import opened Globs

  // ------------------------------------------------------ the source's helpers

  /** Where the first `**` starts, or the length if there is none. */
  function FirstStars(s: string): (i: nat)
    ensures i <= |s|
    ensures i < |s| ==> StartsWith(s[i..], "**")
  {
    if s == [] then 0
    else if StartsWith(s, "**") then (assert s[0..] == s; 0)
    else 1 + FirstStars(s[1..])
  }

  function StripLeft(s: string): (r: string)
    ensures r != [] ==> r[0] != '/'
  {
    if s != [] && s[0] == '/' then StripLeft(s[1..]) else s
  }

  function StripRight(s: string): (r: string)
    ensures r <= s
    ensures r != [] ==> r[|r| - 1] != '/'
  {
    if s != [] && s[|s| - 1] == '/' then StripRight(s[..|s| - 1]) else s
  }

  function Last(segments: seq<string>): string
    requires segments != []
  {
    segments[|segments| - 1]
  }

  function Prefix(uri: string): string {
    uri[..FirstStars(uri)]
  }

  function Suffix(uri: string): string {
    if FirstStars(uri) == |uri| then [] else uri[FirstStars(uri) + 2..]
  }

  function Trailing(uri: string): string {
    StripLeft(Suffix(uri))
  }

  predicate Recursive(uri: string) {
    FirstStars(uri) < |uri|
  }

  // ------------------------------------------------------------- the plan

  /** The whole pattern as it is, or a base to list recursively with a filter on file names. */
  datatype Target = Direct(pattern: string) | Listing(base: string, nameFilter: Option<string>)

  function ReadTarget(uri: string): Target {
    if !Recursive(uri) then
      Direct(uri)
    else
      var trailing := Trailing(uri);
      var basename := if trailing != [] then Last(Split(trailing)) else [];
      Listing(StripRight(Prefix(uri)),
              if basename != [] && FirstStars(basename) == |basename| then Some(basename) else None)
  }

  predicate NeedsRegex(uri: string) {
    Recursive(uri) && Trailing(uri) != [] && ('/' in Trailing(uri) || Recursive(Trailing(uri)))
  }

  function GlobRegex(uri: string): Option<seq<Re>> {
    if NeedsRegex(uri) then Some(Translate(uri)) else None
  }

  /** How far one turn of the translation loop gets, and the part it adds. */
  function Turn(rest: string): (r: (nat, Re))
    requires rest != []
    ensures 1 <= r.0 <= |rest|
  {
    if StartsWith(rest, "**/") then (3, OPT_DIRS)
    else if StartsWith(rest, "**") then (2, ANYTHING)
    else (1, CharPart(rest[0]))
  }

  lemma TranslateTurn(rest: string)
    requires rest != []
    ensures Translate(rest) == [Turn(rest).1] + Translate(rest[Turn(rest).0..])
  {
  }

  lemma Regroup(parts: seq<Re>, part: Re, later: seq<Re>)
    ensures parts + [part] + later == parts + ([part] + later)
  {
  }

  lemma TurnTranslates(uri: string, index: nat, parts: seq<Re>)
    requires index < |uri| && parts + Translate(uri[index..]) == Translate(uri)
    ensures var (step, part) := Turn(uri[index..]); parts + [part] + Translate(uri[index + step..]) == Translate(uri)
  {
    var rest := uri[index..];
    var (step, part) := Turn(rest);
    assert rest[step..] == uri[index + step..];
    TranslateTurn(rest);
    Regroup(parts, part, Translate(rest[step..]));
  }

  /** The translation loop, one character or `**` at a time. */
  method BuildParts(uri: string) returns (parts: seq<Re>)
    ensures parts == Translate(uri)
  {
    parts := [];
    var index := 0;
    assert uri[0..] == uri;
    while index < |uri|
      invariant index <= |uri|
      invariant parts + Translate(uri[index..]) == Translate(uri)
    {
      TurnTranslates(uri, index, parts);
      if StartsWith(uri[index..], "**/") {
        parts := parts + [OPT_DIRS];
        index := index + 3;
      } else if StartsWith(uri[index..], "**") {
        parts := parts + [ANYTHING];
        index := index + 2;
      } else {
        parts := parts + [CharPart(uri[index])];
        index := index + 1;
      }
    }
    assert Translate(uri[index..]) == [] && parts + [] == parts;
  }

  method BuildGlobRegex(uri: string) returns (pattern: Option<seq<Re>>)
    ensures pattern == GlobRegex(uri)
  {
    if !Recursive(uri) {
      return None;
    }
    var trailing := Trailing(uri);
    if trailing == [] || ('/' !in trailing && !Recursive(trailing)) {
      return None;
    }
    var parts := BuildParts(uri);
    return Some(parts);
  }

  // ------------------------------------------------------- what it reads

  /** Strictly below a directory that the base, itself a glob without `**`, matches. */
  predicate Under(base: seq<string>, path: seq<string>) {
    |path| > |base| && forall i | 0 <= i < |base| :: SegmentMatch(base[i], path[i])
  }

  /** What the engine lists for a target. */
  predicate Listed(target: Target, path: seq<string>)
    requires path != []
  {
    match target
    case Direct(pattern) => GlobMatch(Split(pattern), path)
    case Listing(base, nameFilter) =>
      Under(Split(base), path) && (nameFilter.Some? ==> SegmentMatch(nameFilter.value, Last(path)))
  }

  /** Listed, and kept by the regular expression if there is one. */
  ghost predicate Admitted(uri: string, path: string) {
    && Listed(ReadTarget(uri), Split(path))
    && (GlobRegex(uri).Some? ==> MatchesAll(GlobRegex(uri).value, path))
  }
}
