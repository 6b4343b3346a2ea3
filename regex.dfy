/** The handful of regular-expression shapes the log parsers use, with the
    matching behaviour of Python's `re` module for those shapes.

    Every quantified element here is followed, in every pattern the parsers use,
    by something its own characters can never start (`\s+` by a non-space,
    `(\S+)` by `\s` or the end), so greedy matching with backtracking settles on
    the longest run and the elements can be matched one after the other without
    backtracking. Two shapes do backtrack and get their own element:
    `(\S+)\(` keeps the run up to its LAST `(`, and an optional group
    `(?:x)?` is written as two alternatives tried in order at each position. */
module Regex {
  import opened Wrappers
  import opened Text

  datatype Elem =
    | Lit(text: string)   // the literal text
    | Spaces              // \s+
    | OptSpaces           // \s*
    | Token               // (\S+), captured
    | TokenBeforeParen    // (\S+)\( , captured without the parenthesis
    | UntilCloseParen     // ([^)]+)\) , captured without the parenthesis
    | RestOfLine          // (.*) , captured; `.` does not match a newline

  type Pattern = seq<Elem>

  /** A successful search: where the match starts and the captured groups. */
  datatype Hit = Hit(at: nat, groups: seq<string>)

  predicate Captures(e: Elem) {
    e.Token? || e.TokenBeforeParen? || e.UntilCloseParen? || e.RestOfLine?
  }

  /** The capturing elements of a pattern, in order: one per group. */
  function Captured(p: Pattern): seq<Elem> {
    if p == [] then [] else (if Captures(p[0]) then [p[0]] else []) + Captured(p[1..])
  }

  function CaptureCount(p: Pattern): nat { |Captured(p)| }

  /** What a group captured by element `e` looks like. */
  predicate GroupShape(e: Elem, g: string) {
    match e
    case Token => g != [] && NoSpace(g)
    case TokenBeforeParen => g != [] && NoSpace(g)
    case UntilCloseParen => g != [] && forall k :: 0 <= k < |g| ==> g[k] != ')'
    case RestOfLine => NoNewline(g)
    case _ => true
  }

  /** Every group has the shape of the element that captured it. */
  predicate Shaped(p: Pattern, gs: seq<string>) {
    |gs| == CaptureCount(p) && forall k :: 0 <= k < |gs| ==> GroupShape(Captured(p)[k], gs[k])
  }

  predicate NotCloseParen(c: char) { c != ')' }

  predicate NotNewline(c: char) { c != '\n' }

  /** The largest index in [lo, hi) holding `c`, if any. */
  function LastIndexOf(s: string, lo: nat, hi: nat, c: char): (r: Option<nat>)
    requires lo <= hi <= |s|
    ensures r.Some? ==> lo <= r.value < hi && s[r.value] == c
                        && forall k :: r.value < k < hi ==> s[k] != c
    ensures r.None? ==> forall k :: lo <= k < hi ==> s[k] != c
    decreases hi - lo
  {
    if hi == lo then None
    else if s[hi - 1] == c then Some(hi - 1)
    else LastIndexOf(s, lo, hi - 1, c)
  }

  /** The groups of a pattern whose first element captured `g`, given the
      groups of the rest of the pattern. */
  function Prepend(p: Pattern, g: string, rest: Option<seq<string>>): (r: Option<seq<string>>)
    requires p != [] && Captures(p[0]) && GroupShape(p[0], g)
    requires rest.Some? ==> Shaped(p[1..], rest.value)
    ensures r.Some? ==> Shaped(p, r.value)
  {
    match rest
    case None => None
    case Some(gs) =>
      assert Captured(p) == [p[0]] + Captured(p[1..]);
      Some([g] + gs)
  }

  /** A non-capturing first element adds no group. */
  lemma SkipShaped(p: Pattern, gs: seq<string>)
    requires p != [] && !Captures(p[0]) && Shaped(p[1..], gs)
    ensures Shaped(p, gs)
  {
    assert Captured(p) == Captured(p[1..]);
  }

  /** A run of characters with property `q` is a slice all of whose characters have it. */
  lemma RunSlice(s: string, i: nat, j: nat, q: char -> bool)
    requires i <= j <= |s| && forall k :: i <= k < j ==> q(s[k])
    ensures forall k :: 0 <= k < j - i ==> q(s[i..j][k])
  {
  }

  /** Matches `p` at exactly position `i` of `s`, giving the captured groups. */
  function MatchAt(p: Pattern, s: string, i: nat): (r: Option<seq<string>>)
    requires i <= |s|
    ensures r.Some? ==> Shaped(p, r.value)
    decreases |p|
  {
    if p == [] then Some([])
    else
      match p[0]
      case Lit(t) =>
        if OccursAt(s, t, i) then SkipThen(p, MatchAt(p[1..], s, i + |t|)) else None
      case Spaces =>
        var j := SkipWhile(s, i, IsSpace);
        if j == i then None else SkipThen(p, MatchAt(p[1..], s, j))
      case OptSpaces =>
        SkipThen(p, MatchAt(p[1..], s, SkipWhile(s, i, IsSpace)))
      case Token =>
        var j := SkipWhile(s, i, NotSpace);
        if j == i then None
        else
          RunSlice(s, i, j, NotSpace);
          Prepend(p, s[i..j], MatchAt(p[1..], s, j))
      case TokenBeforeParen =>
        var j := SkipWhile(s, i, NotSpace);
        if j == i then None
        else (
          match LastIndexOf(s, i + 1, j, '(')
          case None => None
          case Some(k) =>
            RunSlice(s, i, k, NotSpace);
            Prepend(p, s[i..k], MatchAt(p[1..], s, k + 1)))
      case UntilCloseParen =>
        var j := SkipWhile(s, i, NotCloseParen);
        if j == i || j == |s| then None
        else
          RunSlice(s, i, j, NotCloseParen);
          Prepend(p, s[i..j], MatchAt(p[1..], s, j + 1))
      case RestOfLine =>
        var j := SkipWhile(s, i, NotNewline);
        RunSlice(s, i, j, NotNewline);
        Prepend(p, s[i..j], MatchAt(p[1..], s, j))
  }

  /** A literal first element that occurs at `i` hands over to the rest of the pattern. */
  lemma LitStep(p: Pattern, s: string, i: nat, t: string)
    requires p != [] && p[0] == Lit(t) && OccursAt(s, t, i)
    ensures MatchAt(p, s, i) == MatchAt(p[1..], s, i + |t|)
  {
    var rest := MatchAt(p[1..], s, i + |t|);
    if rest.Some? {
      SkipShaped(p, rest.value);
    }
  }

  /** `\s+` as first element consumes the whole run of whitespace `[i, j)`. */
  lemma SpacesStep(p: Pattern, s: string, i: nat, j: nat)
    requires p != [] && p[0] == Spaces && i < j <= |s|
    requires forall k :: i <= k < j ==> IsSpace(s[k])
    requires j == |s| || !IsSpace(s[j])
    ensures MatchAt(p, s, i) == MatchAt(p[1..], s, j)
  {
    SkipWhileAt(s, i, j, IsSpace);
  }

  /** `(\S+)` as first element captures the whole run of non-space `[i, j)`. */
  lemma TokenStep(p: Pattern, s: string, i: nat, j: nat)
    requires p != [] && p[0] == Token && i < j <= |s|
    requires forall k :: i <= k < j ==> NotSpace(s[k])
    requires j == |s| || !NotSpace(s[j])
    ensures MatchAt(p[1..], s, j).Some? ==> MatchAt(p, s, i) == Some([s[i..j]] + MatchAt(p[1..], s, j).value)
  {
    SkipWhileAt(s, i, j, NotSpace);
  }

  /** The groups after a non-capturing first element. */
  function SkipThen(p: Pattern, rest: Option<seq<string>>): (r: Option<seq<string>>)
    requires p != [] && !Captures(p[0])
    requires rest.Some? ==> Shaped(p[1..], rest.value)
    ensures r.Some? ==> Shaped(p, r.value)
  {
    if rest.Some? then SkipShaped(p, rest.value); rest else None
  }

  /** The groups of the first alternative that matches at position `i`. */
  function FirstAlt(alts: seq<Pattern>, s: string, i: nat): Option<seq<string>>
    requires i <= |s|
  {
    if alts == [] then None
    else if MatchAt(alts[0], s, i).Some? then MatchAt(alts[0], s, i)
    else FirstAlt(alts[1..], s, i)
  }

  /** All alternatives capture groups of the same kinds, in the same order. */
  predicate SameCaptures(alts: seq<Pattern>) {
    alts != [] && forall a :: a in alts ==> Captured(a) == Captured(alts[0])
  }

  lemma {:induction false} FirstAltShaped(alts: seq<Pattern>, p: Pattern, s: string)
    requires forall a :: a in alts ==> Captured(a) == Captured(p)
    ensures forall i :: 0 <= i <= |s| && FirstAlt(alts, s, i).Some? ==> Shaped(p, FirstAlt(alts, s, i).value)
    decreases |alts|
  {
    if alts != [] {
      FirstAltShaped(alts[1..], p, s);
    }
  }

  /** `re.search` from position `i` on: the leftmost position where an alternative
      matches, and there the earliest alternative. */
  function SearchFrom(alts: seq<Pattern>, s: string, i: nat): (r: Option<Hit>)
    requires i <= |s|
    ensures r.Some? ==> i <= r.value.at <= |s| && FirstAlt(alts, s, r.value.at) == Some(r.value.groups)
    ensures r.Some? ==> forall k :: i <= k < r.value.at ==> FirstAlt(alts, s, k).None?
    ensures r.None? ==> forall k :: i <= k <= |s| ==> FirstAlt(alts, s, k).None?
    decreases |s| - i
  {
    match FirstAlt(alts, s, i)
    case Some(gs) => Some(Hit(i, gs))
    case None => if i == |s| then None else SearchFrom(alts, s, i + 1)
  }

  /** `re.search(pattern, s)` for a pattern given as alternatives of one shape. */
  function Search(alts: seq<Pattern>, s: string): (r: Option<Hit>)
    requires SameCaptures(alts)
    ensures r.Some? ==> r.value.at <= |s| && FirstAlt(alts, s, r.value.at) == Some(r.value.groups)
                        && Shaped(alts[0], r.value.groups)
    ensures r.Some? ==> forall k :: 0 <= k < r.value.at ==> FirstAlt(alts, s, k).None?
    ensures r.None? ==> forall k :: 0 <= k <= |s| ==> FirstAlt(alts, s, k).None?
  {
    FirstAltShaped(alts, alts[0], s);
    SearchFrom(alts, s, 0)
  }

  lemma FirstAltSingle(p: Pattern, s: string)
    ensures forall k :: 0 <= k <= |s| ==> FirstAlt([p], s, k) == MatchAt(p, s, k)
  {
    assert [p][1..] == [];
  }

  /** `re.search` of a single pattern: the groups of the match at the leftmost
      position where `p` matches. */
  function Find(p: Pattern, s: string): (r: Option<seq<string>>)
    ensures r.Some? ==> Shaped(p, r.value)
    ensures r.Some? ==> exists k :: 0 <= k <= |s| && MatchAt(p, s, k) == r
                          && forall j :: 0 <= j < k ==> MatchAt(p, s, j).None?
    ensures r.None? ==> forall k :: 0 <= k <= |s| ==> MatchAt(p, s, k).None?
  {
    FirstAltSingle(p, s);
    match Search([p], s)
    case Some(h) => Some(h.groups)
    case None => None
  }

  /** `re.search` of a pattern anchored with `^`: only position 0 is tried. */
  function MatchStart(p: Pattern, s: string): (r: Option<seq<string>>)
    ensures r.Some? ==> Shaped(p, r.value)
  {
    MatchAt(p, s, 0)
  }
}
