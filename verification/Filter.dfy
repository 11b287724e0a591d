/** Subscription filters: the dotted glob over event types, and what it means. */
module Filter {
  import opened Common

  /** path.Match, whose code lies outside the repository: any total function will do. */
  datatype PathResult = Match | NoMatch | Malformed

  type PathMatcher = (string, string) -> PathResult

  // ---- strings ------------------------------------------------------------------------

  /** strings.Split on "."; the result is never empty. */
  function Split(s: string): (r: seq<string>)
    ensures |r| >= 1
  {
    if s == "" then [""]
    else
      var rest := Split(s[1..]);
      if s[0] == '.' then [""] + rest else [[s[0]] + rest[0]] + rest[1..]
  }

  function Join(parts: seq<string>): string
    requires |parts| >= 1
  {
    if |parts| == 1 then parts[0] else parts[0] + "." + Join(parts[1..])
  }

  /** Splitting loses nothing: the parts hold no dot and join back to the whole. */
  lemma {:induction false} SplitInverts(s: string)
    ensures Join(Split(s)) == s
    ensures forall p :: p in Split(s) ==> '.' !in p
  {
    if s != "" {
      var rest := Split(s[1..]);
      SplitInverts(s[1..]);
      hide Join;
      assert s == [s[0]] + s[1..];
      JoinDot(rest);
      JoinPrefix(s[0], rest);
      assert rest == [rest[0]] + rest[1..];
    }
  }

  lemma JoinDot(rest: seq<string>)
    requires |rest| >= 1
    ensures Join([""] + rest) == "." + Join(rest)
  {
    assert ([""] + rest)[1..] == rest;
  }

  lemma JoinPrefix(c: char, rest: seq<string>)
    requires |rest| >= 1
    ensures Join([[c] + rest[0]] + rest[1..]) == [c] + Join(rest)
  {
  }

  predicate ContainsAny(s: string, chars: string) {
    exists i :: 0 <= i < |s| && s[i] in chars
  }

  function TrimStar(s: string): string {
    if s != "" && s[|s| - 1] == '*' then s[..|s| - 1] else s
  }

  // ---- matching -----------------------------------------------------------------------

  /** matchSegment. */
  predicate MatchSegment(pm: PathMatcher, pattern: string, value: string) {
    if pattern == value || pattern == "*" then true
    else if !ContainsAny(pattern, "*?[") then false
    else match pm(pattern, value)
      case Malformed => TrimStar(pattern) <= value
      case Match => true
      case NoMatch => false
  }

  /** matchPath. */
  predicate MatchPath(pm: PathMatcher, pattern: string, value: string) {
    if pattern == value then true
    else if !ContainsAny(pattern, "*?[") then false
    else match pm(pattern, value)
      case Malformed => TrimStar(pattern) <= value
      case Match => true
      case NoMatch => false
  }

  /** The matcher's own recursion, as a definition. */
  ghost predicate Matched(pm: PathMatcher, ps: seq<string>, vs: seq<string>)
    decreases |ps|
  {
    if ps == [] then vs == []
    else if ps[0] == "**" then exists i :: 1 <= i <= |vs| && Matched(pm, ps[1..], vs[i..])
    else vs != [] && MatchSegment(pm, ps[0], vs[0]) && Matched(pm, ps[1..], vs[1..])
  }

  /** matchTypeSegments: backtracking over the length of each "**". */
  method MatchTypeSegments(pm: PathMatcher, ps: seq<string>, vs: seq<string>) returns (r: bool)
    ensures r <==> Matches(pm, ps, vs)
    decreases |ps|
  {
    DeclarativeIsRecursive(pm, ps, vs);
    if |ps| == 0 {
      return |vs| == 0;
    }
    if ps[0] == "**" {
      var i := 1;
      while i <= |vs|
        invariant 1 <= i <= |vs| + 1
        invariant forall j :: 1 <= j < i ==> !Matched(pm, ps[1..], vs[j..])
      {
        var rest := MatchTypeSegments(pm, ps[1..], vs[i..]);
        DeclarativeIsRecursive(pm, ps[1..], vs[i..]);
        if rest {
          return true;
        }
        i := i + 1;
      }
      return false;
    }
    if |vs| == 0 {
      return false;
    }
    if !MatchSegment(pm, ps[0], vs[0]) {
      return false;
    }
    r := MatchTypeSegments(pm, ps[1..], vs[1..]);
    DeclarativeIsRecursive(pm, ps[1..], vs[1..]);
  }

  // ---- what a match means -------------------------------------------------------------

  function Flatten(blocks: seq<seq<string>>): seq<string> {
    if blocks == [] then [] else blocks[0] + Flatten(blocks[1..])
  }

  /** A segment's block: one value it accepts, or one or more of any values under "**". */
  predicate BlockOk(pm: PathMatcher, p: string, block: seq<string>) {
    if p == "**" then block != [] else |block| == 1 && MatchSegment(pm, p, block[0])
  }

  ghost predicate Splits(pm: PathMatcher, ps: seq<string>, vs: seq<string>, blocks: seq<seq<string>>) {
    && |blocks| == |ps| && Flatten(blocks) == vs
    && forall i :: 0 <= i < |ps| ==> BlockOk(pm, ps[i], blocks[i])
  }

  /** The values split into |ps| consecutive non-empty blocks, one per pattern segment. */
  ghost predicate Matches(pm: PathMatcher, ps: seq<string>, vs: seq<string>) {
    exists blocks :: Splits(pm, ps, vs, blocks)
  }

  lemma SplitFirst(pm: PathMatcher, ps: seq<string>, vs: seq<string>, blocks: seq<seq<string>>)
    requires ps != [] && Splits(pm, ps, vs, blocks)
    ensures 1 <= |blocks[0]| <= |vs| && BlockOk(pm, ps[0], blocks[0])
    ensures vs == blocks[0] + vs[|blocks[0]|..]
    ensures Matches(pm, ps[1..], vs[|blocks[0]|..])
  {
    assert Splits(pm, ps[1..], vs[|blocks[0]|..], blocks[1..]);
  }

  lemma SplitPrepend(pm: PathMatcher, ps: seq<string>, vs: seq<string>, k: nat)
    requires ps != [] && k <= |vs| && BlockOk(pm, ps[0], vs[..k])
    requires Matches(pm, ps[1..], vs[k..])
    ensures Matches(pm, ps, vs)
  {
    var rest :| Splits(pm, ps[1..], vs[k..], rest);
    var blocks := [vs[..k]] + rest;
    assert blocks[1..] == rest;
    forall i | 0 <= i < |ps| ensures BlockOk(pm, ps[i], blocks[i]) {
      if i > 0 {
        assert ps[1..][i - 1] == ps[i] && rest[i - 1] == blocks[i];
      }
    }
    assert Splits(pm, ps, vs, blocks);
  }

  /** The recursion decides exactly whether such a split exists. */
  lemma {:induction false} DeclarativeIsRecursive(pm: PathMatcher, ps: seq<string>, vs: seq<string>)
    ensures Matched(pm, ps, vs) <==> Matches(pm, ps, vs)
    decreases |ps|
  {
    if ps == [] {
      assert vs == [] ==> Splits(pm, ps, vs, []);
    } else {
      if Matches(pm, ps, vs) {
        var blocks :| Splits(pm, ps, vs, blocks);
        SplitFirst(pm, ps, vs, blocks);
        DeclarativeIsRecursive(pm, ps[1..], vs[|blocks[0]|..]);
      }
      if Matched(pm, ps, vs) {
        var k: nat := 1;
        if ps[0] == "**" {
          k :| 1 <= k <= |vs| && Matched(pm, ps[1..], vs[k..]);
        }
        DeclarativeIsRecursive(pm, ps[1..], vs[k..]);
        SplitPrepend(pm, ps, vs, k);
      }
    }
  }

  /** What the wrapper around path.Match accepts. A pattern without "*", "?" and "[" accepts
      itself only; one with a wildcard accepts what path.Match does, and if malformed what
      starts with it, its last star dropped. Segments differ from paths in "*" alone. */
  lemma SegmentMeaning(pm: PathMatcher, pattern: string, value: string)
    ensures MatchSegment(pm, pattern, value) <==> pattern == "*" || MatchPath(pm, pattern, value)
    ensures MatchPath(pm, pattern, pattern)
    ensures pattern != value && '*' !in pattern && '?' !in pattern && '[' !in pattern ==> !MatchPath(pm, pattern, value)
    ensures pattern != value && ('*' in pattern || '?' in pattern || '[' in pattern) ==>
              match pm(pattern, value)
              case Match => MatchPath(pm, pattern, value)
              case NoMatch => !MatchPath(pm, pattern, value)
              case Malformed =>
                MatchPath(pm, pattern, value) <==>
                  pattern <= value || (pattern[|pattern| - 1] == '*' && pattern[..|pattern| - 1] <= value)
  {
    assert TrimStar(pattern) <= pattern;
    HasWildcard(pattern);
  }

  lemma HasWildcard(pattern: string)
    ensures ContainsAny(pattern, "*?[") <==> '*' in pattern || '?' in pattern || '[' in pattern
  {
    forall i | 0 <= i < |pattern| ensures pattern[i] in "*?[" <==> pattern[i] in {'*', '?', '['} {
      assert "*?["[0] == '*' && "*?["[1] == '?' && "*?["[2] == '[';
    }
  }

  // ---- laws ---------------------------------------------------------------------------

  function Singles(vs: seq<string>): (r: seq<seq<string>>)
    ensures |r| == |vs| && Flatten(r) == vs
    ensures forall i :: 0 <= i < |vs| ==> r[i] == [vs[i]]
  {
    if vs == [] then [] else [[vs[0]]] + Singles(vs[1..])
  }

  /** Any segments match themselves, so matchType's equality test is only a short cut. */
  lemma MatchesItself(pm: PathMatcher, ps: seq<string>)
    ensures Matches(pm, ps, ps)
  {
    assert Splits(pm, ps, ps, Singles(ps));
  }

  lemma FlattenOne(block: seq<string>)
    ensures Flatten([block]) == block
  {
  }

  /** "**" alone accepts everything a split can produce. */
  lemma DoubleStarMatchesAll(pm: PathMatcher, vs: seq<string>)
    requires vs != []
    ensures Matches(pm, ["**"], vs)
  {
    FlattenOne(vs);
    assert Splits(pm, ["**"], vs, [vs]);
  }

  /** A match needs at least one value per pattern segment. */
  lemma {:induction false} MatchNeedsLength(pm: PathMatcher, ps: seq<string>, vs: seq<string>)
    requires Matches(pm, ps, vs)
    ensures |ps| <= |vs|
    decreases |ps|
  {
    if ps != [] {
      var blocks :| Splits(pm, ps, vs, blocks);
      SplitFirst(pm, ps, vs, blocks);
      MatchNeedsLength(pm, ps[1..], vs[|blocks[0]|..]);
    }
  }

  /** Widening a segment to "**" never loses a match. */
  lemma DoubleStarWidens(pm: PathMatcher, ps: seq<string>, vs: seq<string>, i: nat)
    requires i < |ps| && Matches(pm, ps, vs)
    ensures Matches(pm, ps[i := "**"], vs)
  {
    var blocks :| Splits(pm, ps, vs, blocks);
    assert Splits(pm, ps[i := "**"], vs, blocks);
  }

  // ---- matchType and matchAny ---------------------------------------------------------

  ghost predicate TypeMatches(pm: PathMatcher, pattern: string, value: string) {
    Matches(pm, Split(pattern), Split(value))
  }

  method MatchType(pm: PathMatcher, pattern: string, value: string) returns (r: bool)
    ensures r <==> TypeMatches(pm, pattern, value)
  {
    if pattern == value {
      MatchesItself(pm, Split(pattern));
      return true;
    }
    r := MatchTypeSegments(pm, Split(pattern), Split(value));
  }

  predicate AnyValue(pattern: string) {
    pattern == "" || pattern == "*" || pattern == "**"
  }

  /** matchAny over type filters. */
  method MatchAnyType(pm: PathMatcher, patterns: seq<string>, value: string) returns (r: bool)
    ensures r <==> exists p :: p in patterns && (p in {"", "*", "**"} || TypeMatches(pm, p, value))
  {
    var i := 0;
    while i < |patterns|
      invariant 0 <= i <= |patterns|
      invariant forall p :: p in patterns[..i] ==> !AnyValue(p) && !TypeMatches(pm, p, value)
    {
      var p := patterns[i];
      assert p in patterns;
      if AnyValue(p) {
        return true;
      }
      var m := MatchType(pm, p, value);
      if m {
        return true;
      }
      i := i + 1;
    }
    assert patterns[..|patterns|] == patterns;
    return false;
  }

  /** matchAny over provider filters. */
  method MatchAnyProvider(pm: PathMatcher, patterns: seq<string>, value: string) returns (r: bool)
    ensures r <==> exists p :: p in patterns && (p in {"", "*", "**"} || MatchSegment(pm, p, value))
  {
    hide MatchSegment;
    var i := 0;
    while i < |patterns|
      invariant 0 <= i <= |patterns|
      invariant forall p :: p in patterns[..i] ==> !AnyValue(p) && !MatchSegment(pm, p, value)
    {
      assert patterns[i] in patterns;
      if AnyValue(patterns[i]) || MatchSegment(pm, patterns[i], value) {
        return true;
      }
      i := i + 1;
    }
    assert patterns[..|patterns|] == patterns;
    return false;
  }

  lemma {:induction false} SplitPlain(s: string)
    requires '.' !in s
    ensures Split(s) == [s]
  {
    if s != "" {
      SplitPlain(s[1..]);
      assert [s[0]] + s[1..] == s;
    }
  }

  /** A pattern of one segment matches exactly the one-segment values it accepts. */
  lemma OneSegment(pm: PathMatcher, pattern: string, value: string)
    requires '.' !in pattern && pattern != "**"
    ensures TypeMatches(pm, pattern, value) <==> |Split(value)| == 1 && MatchSegment(pm, pattern, Split(value)[0])
  {
    SplitPlain(pattern);
    var vs := Split(value);
    if TypeMatches(pm, pattern, value) {
      var blocks :| Splits(pm, [pattern], vs, blocks);
      assert blocks == [blocks[0]];
      FlattenOne(blocks[0]);
      assert BlockOk(pm, [pattern][0], blocks[0]);
    }
    if |vs| == 1 && MatchSegment(pm, pattern, vs[0]) {
      FlattenOne(vs);
      assert Splits(pm, [pattern], vs, [vs]);
    }
  }

  lemma SplitEmpty(s: string)
    requires Split(s) == [""]
    ensures s == ""
  {
  }

  /** The short cut for "**" agrees with the glob on every value; the one for "*" agrees
      exactly on values of a single segment, although "*" is documented as one segment; and
      the one for the empty pattern agrees exactly on the empty value. */
  lemma ShortCutsAgree(pm: PathMatcher, value: string)
    ensures TypeMatches(pm, "**", value)
    ensures TypeMatches(pm, "*", value) <==> |Split(value)| == 1
    ensures TypeMatches(pm, "", value) <==> value == ""
  {
    SplitPlain("**");
    DoubleStarMatchesAll(pm, Split(value));
    OneSegment(pm, "*", value);
    OneSegment(pm, "", value);
    if Split(value) == [""] {
      SplitEmpty(value);
    }
  }
}
