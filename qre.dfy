/** The query routing rules: a keyword classifier that gives a query one of
    five intents, a splitter that cuts a compound query at its conjunctions,
    and the router that sends every part to the engine of its intent. */
module Qre {
  import opened Wrappers
  import opened Text

  // ---- classification ----

  const AnalyticalWords: seq<string> := ["how many", "top", "average", "count", "trend"]
  const SimilarityWords: seq<string> := ["similar", "like this", "matches pattern"]
  const DecisionWords: seq<string> := ["is this", "should I", "risk of"]

  /** Some keyword of the group occurs in the text. */
  predicate AnyWord(text: string, words: seq<string>) {
    exists i :: 0 <= i < |words| && Contains(text, words[i])
  }

  datatype Classification = Classification(intent: string, confidence: real)

  /** `classify`: the keyword groups are tried on the lower-cased query in a
      fixed order, and the first group with a hit decides; with no hit the
      query is an exact search. */
  function Classify(query: string): (c: Classification)
    ensures c.confidence == (if c.intent == "DECISION" then 0.85 else if c.intent == "EXACT" then 0.70 else 0.95)
  {
    var lowered := Lower(query);
    if AnyWord(lowered, AnalyticalWords) then Classification("ANALYTICAL", 0.95)
    else if AnyWord(lowered, SimilarityWords) then Classification("SIMILARITY", 0.95)
    else if AnyWord(lowered, DecisionWords) then Classification("DECISION", 0.85)
    else Classification("EXACT", 0.70)
  }

  /** The intent is that of the first keyword group with a hit, in the order
      analytical, similarity, decision; a query with no hit is exact. */
  lemma ClassifyFirstGroup(query: string)
    ensures var c := Classify(query);
            && (c.intent == "ANALYTICAL" <==> AnyWord(Lower(query), AnalyticalWords))
            && (c.intent == "SIMILARITY" <==>
                  !AnyWord(Lower(query), AnalyticalWords) && AnyWord(Lower(query), SimilarityWords))
            && (c.intent == "DECISION" <==>
                  !AnyWord(Lower(query), AnalyticalWords) && !AnyWord(Lower(query), SimilarityWords)
                  && AnyWord(Lower(query), DecisionWords))
            && (c.intent == "EXACT" <==>
                  !AnyWord(Lower(query), AnalyticalWords) && !AnyWord(Lower(query), SimilarityWords)
                  && !AnyWord(Lower(query), DecisionWords))
  {
  }

  /** "should I" holds a capital letter and is looked for in a lower-cased
      query, so it never matches. */
  lemma ShouldINeverMatches(query: string)
    ensures !Contains(Lower(query), "should I")
  {
    var s := Lower(query);
    forall i | 0 <= i <= |s| - 8 ensures !OccursAt(s, "should I", i) {
      assert s[i..i + 8][7] == s[i + 7];
      assert "should I"[7] == 'I';
    }
  }

  /** So a query is a judgment call only through "is this" or "risk of". */
  lemma DecisionKeywords(query: string)
    ensures AnyWord(Lower(query), DecisionWords)
            <==> Contains(Lower(query), "is this") || Contains(Lower(query), "risk of")
  {
    ShouldINeverMatches(query);
    if AnyWord(Lower(query), DecisionWords) {
      var i :| 0 <= i < |DecisionWords| && Contains(Lower(query), DecisionWords[i]);
      assert i != 1;
    } else {
      assert DecisionWords[0] == "is this" && DecisionWords[2] == "risk of";
    }
  }

  // ---- splitting at conjunctions ----

  /** The conjunctions, as alternatives in order: ` and | plus | as well as `. */
  const Conjunctions: seq<string> := [" and ", " plus ", " as well as "]

  /** Case-insensitive equality of a text character with a pattern character
      that is a small ASCII letter or a space: the letter itself, its capital,
      and for `s` also the long s (U+017F), which Unicode case folding equates
      with it. */
  predicate FoldsTo(c: char, k: char) {
    c == k || ('a' <= k <= 'z' && c as int == k as int - 32) || (k == 's' && c == 'ſ')
  }

  /** The pattern `d` matches the text at position `i`, ignoring case. */
  predicate MatchesAt(text: string, d: string, i: nat) {
    i + |d| <= |text| && forall k :: 0 <= k < |d| ==> FoldsTo(text[i + k], d[k])
  }

  /** A text that is, ignoring case, one of the conjunctions. */
  predicate IsConjunction(s: string) {
    exists i :: 0 <= i < |Conjunctions| && |s| == |Conjunctions[i]| && MatchesAt(s, Conjunctions[i], 0)
  }

  /** No conjunction occurs anywhere inside the text. */
  predicate NoConjunctionIn(s: string) {
    forall j, i :: 0 <= j <= |s| && 0 <= i < |Conjunctions| ==> !MatchesAt(s, Conjunctions[i], j)
  }

  predicate AllConjunctions(seps: seq<string>) {
    forall k :: 0 <= k < |seps| ==> IsConjunction(seps[k])
  }

  predicate NoneHoldsConjunction(parts: seq<string>) {
    forall k :: 0 <= k < |parts| ==> NoConjunctionIn(parts[k])
  }

  lemma ConsSeps(first: string, rest: seq<string>)
    requires IsConjunction(first) && AllConjunctions(rest)
    ensures AllConjunctions([first] + rest)
  {
    forall k | 0 <= k < |[first] + rest| ensures IsConjunction(([first] + rest)[k]) {
      if k > 0 { assert ([first] + rest)[k] == rest[k - 1]; }
    }
  }

  lemma ConsParts(first: string, rest: seq<string>)
    requires NoConjunctionIn(first) && NoneHoldsConjunction(rest)
    ensures NoneHoldsConjunction([first] + rest)
  {
    forall k | 0 <= k < |[first] + rest| ensures NoConjunctionIn(([first] + rest)[k]) {
      if k > 0 { assert ([first] + rest)[k] == rest[k - 1]; }
    }
  }

  /** The length of the first alternative of `ds` that matches at `i`. */
  function FirstMatch(ds: seq<string>, text: string, i: nat): (r: Option<nat>)
    requires forall k :: 0 <= k < |ds| ==> ds[k] != []
    ensures r.Some? ==> 0 < r.value && i + r.value <= |text|
    ensures r.None? ==> forall k :: 0 <= k < |ds| ==> !MatchesAt(text, ds[k], i)
  {
    if ds == [] then None
    else if MatchesAt(text, ds[0], i) then Some(|ds[0]|)
    else
      var r := FirstMatch(ds[1..], text, i);
      assert forall k :: 0 < k < |ds| ==> ds[k] == ds[1..][k - 1];
      r
  }

  /** A match found is the match of some alternative, as long as that alternative. */
  lemma {:induction false} FirstMatchFound(ds: seq<string>, text: string, i: nat)
    requires forall k :: 0 <= k < |ds| ==> ds[k] != []
    requires FirstMatch(ds, text, i).Some?
    ensures exists k :: 0 <= k < |ds| && MatchesAt(text, ds[k], i) && FirstMatch(ds, text, i).value == |ds[k]|
  {
    if !MatchesAt(text, ds[0], i) {
      FirstMatchFound(ds[1..], text, i);
      var k :| 0 <= k < |ds[1..]| && MatchesAt(text, ds[1..][k], i)
               && FirstMatch(ds[1..], text, i).value == |ds[1..][k]|;
      assert ds[k + 1] == ds[1..][k];
    }
  }

  /** Where no alternative matches, none is found. */
  lemma {:induction false} FirstMatchNone(ds: seq<string>, text: string, i: nat)
    requires forall k :: 0 <= k < |ds| ==> ds[k] != []
    requires forall k :: 0 <= k < |ds| ==> !MatchesAt(text, ds[k], i)
    ensures FirstMatch(ds, text, i).None?
  {
    if ds != [] {
      assert forall k :: 0 <= k < |ds[1..]| ==> ds[1..][k] == ds[k + 1];
      FirstMatchNone(ds[1..], text, i);
    }
  }

  /** Parts and the separators found between them. */
  datatype Pieces = Pieces(parts: seq<string>, seps: seq<string>)

  /** The parts put back together with their separators. */
  function Join(parts: seq<string>, seps: seq<string>): string
    requires |parts| == |seps| + 1
  {
    if seps == [] then parts[0] else parts[0] + seps[0] + Join(parts[1..], seps[1..])
  }

  /** A match in a slice is a match in the whole text. */
  lemma SliceMatch(text: string, lo: nat, hi: nat, d: string, j: nat)
    requires lo <= hi <= |text|
    ensures MatchesAt(text[lo..hi], d, j) ==> MatchesAt(text, d, lo + j) && lo + j + |d| <= hi
  {
    if MatchesAt(text[lo..hi], d, j) {
      forall k | 0 <= k < |d| ensures FoldsTo(text[lo + j + k], d[k]) {
        assert text[lo..hi][j + k] == text[lo + j + k];
      }
    }
  }

  /** A stretch of the text in which no conjunction starts holds none. */
  lemma StretchHasNone(text: string, lo: nat, hi: nat)
    requires lo <= hi <= |text|
    requires forall j :: lo <= j < hi ==> FirstMatch(Conjunctions, text, j).None?
    ensures NoConjunctionIn(text[lo..hi])
  {
    forall j, i | 0 <= j <= hi - lo && 0 <= i < |Conjunctions|
      ensures !MatchesAt(text[lo..hi], Conjunctions[i], j)
    {
      SliceMatch(text, lo, hi, Conjunctions[i], j);
      assert |Conjunctions[i]| > 0;
      if lo + j < hi {
        assert FirstMatch(Conjunctions, text, lo + j).None?;
        assert !MatchesAt(text, Conjunctions[i], lo + j);
      }
    }
  }

  /** `re.split` of `text[start..]`, scanning from `i` on: every position is
      tried in turn, and the first conjunction that matches there ends the
      current part; scanning resumes after it. */
  function SplitFrom(text: string, start: nat, i: nat): (r: Pieces)
    requires start <= i <= |text|
    ensures |r.parts| == |r.seps| + 1
    decreases |text| - i
  {
    if i == |text| then Pieces([text[start..]], [])
    else
      match FirstMatch(Conjunctions, text, i)
      case None => SplitFrom(text, start, i + 1)
      case Some(n) =>
        var rest := SplitFrom(text, i + n, i + n);
        Pieces([text[start..i]] + rest.parts, [text[i..i + n]] + rest.seps)
  }

  /** A conjunction at `i` closes the current part. */
  lemma SplitFromStep(text: string, start: nat, i: nat, n: nat)
    requires start <= i < |text| && FirstMatch(Conjunctions, text, i) == Some(n)
    ensures i + n <= |text|
    ensures var rest := SplitFrom(text, i + n, i + n);
            SplitFrom(text, start, i) == Pieces([text[start..i]] + rest.parts, [text[i..i + n]] + rest.seps)
  {
  }

  /** The scan loses nothing: its parts and separators give back the text. */
  lemma {:induction false} SplitFromJoins(text: string, start: nat, i: nat)
    requires start <= i <= |text|
    ensures var r := SplitFrom(text, start, i); Join(r.parts, r.seps) == text[start..]
    decreases |text| - i
  {
    if i == |text| {
      assert text[start..i] == text[start..];
    } else {
      match FirstMatch(Conjunctions, text, i)
      case None =>
        SplitFromJoins(text, start, i + 1);
      case Some(n) =>
        SplitFromJoins(text, i + n, i + n);
        var rest := SplitFrom(text, i + n, i + n);
        var r := SplitFrom(text, start, i);
        SplitFromStep(text, start, i, n);
        assert r.parts[1..] == rest.parts && r.seps[1..] == rest.seps;
        assert text[start..] == text[start..i] + text[i..i + n] + text[i + n..];
    }
  }

  /** Every separator the scan finds is a conjunction. */
  lemma {:induction false} SplitFromSeparators(text: string, start: nat, i: nat)
    requires start <= i <= |text|
    ensures AllConjunctions(SplitFrom(text, start, i).seps)
    decreases |text| - i
  {
    if i < |text| {
      match FirstMatch(Conjunctions, text, i)
      case None =>
        SplitFromSeparators(text, start, i + 1);
        assert SplitFrom(text, start, i) == SplitFrom(text, start, i + 1);
      case Some(n) =>
        SplitFromSeparators(text, i + n, i + n);
        ConjunctionSlice(text, i, n);
        var rest := SplitFrom(text, i + n, i + n);
        SplitFromStep(text, start, i, n);
        ConsSeps(text[i..i + n], rest.seps);
    }
  }

  /** No part the scan finds holds a conjunction. */
  lemma {:induction false} SplitFromParts(text: string, start: nat, i: nat)
    requires start <= i <= |text|
    requires forall j :: start <= j < i ==> FirstMatch(Conjunctions, text, j).None?
    ensures NoneHoldsConjunction(SplitFrom(text, start, i).parts)
    decreases |text| - i
  {
    if i == |text| {
      StretchHasNone(text, start, i);
      assert text[start..i] == text[start..];
    } else {
      match FirstMatch(Conjunctions, text, i)
      case None =>
        SplitFromParts(text, start, i + 1);
        assert SplitFrom(text, start, i) == SplitFrom(text, start, i + 1);
      case Some(n) =>
        SplitFromParts(text, i + n, i + n);
        PartsStep(text, start, i, n);
    }
  }

  /** A part closed by a conjunction holds none, given the parts after it hold none. */
  lemma PartsStep(text: string, start: nat, i: nat, n: nat)
    requires start <= i < |text| && FirstMatch(Conjunctions, text, i) == Some(n)
    requires forall j :: start <= j < i ==> FirstMatch(Conjunctions, text, j).None?
    requires i + n <= |text| && NoneHoldsConjunction(SplitFrom(text, i + n, i + n).parts)
    ensures NoneHoldsConjunction(SplitFrom(text, start, i).parts)
  {
    StretchHasNone(text, start, i);
    SplitFromStep(text, start, i, n);
    ConsParts(text[start..i], SplitFrom(text, i + n, i + n).parts);
  }

  /** The text a conjunction matched is a conjunction. */
  lemma ConjunctionSlice(text: string, i: nat, n: nat)
    requires i <= |text| && FirstMatch(Conjunctions, text, i) == Some(n)
    ensures i + n <= |text| && IsConjunction(text[i..i + n])
  {
    FirstMatchFound(Conjunctions, text, i);
    var k :| 0 <= k < |Conjunctions| && MatchesAt(text, Conjunctions[k], i) && n == |Conjunctions[k]|;
    var d := Conjunctions[k];
    forall m | 0 <= m < |d| ensures FoldsTo(text[i..i + n][m], d[m]) {
      assert text[i..i + n][m] == text[i + m];
    }
    assert MatchesAt(text[i..i + n], d, 0);
  }

  /** `re.split(r' and | plus | as well as ', query, flags=re.IGNORECASE)`. */
  function Split(query: string): (r: seq<string>)
    ensures |r| >= 1
  {
    SplitFrom(query, 0, 0).parts
  }

  /** Splitting loses nothing: the parts, with the conjunctions found between
      them, give back the query; no part holds a conjunction. */
  lemma SplitRoundTrip(query: string)
    ensures var p := SplitFrom(query, 0, 0);
            p.parts == Split(query) && Join(p.parts, p.seps) == query
            && AllConjunctions(p.seps) && NoneHoldsConjunction(p.parts)
  {
    SplitFromJoins(query, 0, 0);
    SplitFromSeparators(query, 0, 0);
    SplitFromParts(query, 0, 0);
    assert query[0..] == query;
  }

  /** The parts are those of the one leftmost-first cut of the query: the scan
      cuts that way, and a cut read that way has exactly the scan's parts. */
  lemma SplitIsLeftmost(query: string, parts: seq<string>, seps: seq<string>)
    requires |parts| == |seps| + 1
    ensures var p := SplitFrom(query, 0, 0); Leftmost(query, 0, p.parts, p.seps)
    ensures Leftmost(query, 0, parts, seps) <==> parts == Split(query) && seps == SplitFrom(query, 0, 0).seps
  {
    SplitFromLeftmost(query, 0, 0);
    if Leftmost(query, 0, parts, seps) {
      LeftmostIsSplitFrom(query, 0, parts, seps);
    }
  }

  /** The leftmost-first reading of a cut of `text[at..]` into parts and
      separators: every part is a stretch of the text at which no conjunction
      begins, and every separator is the first conjunction, in the order of the
      alternatives, that begins right where its part ends; the last part runs
      to the end of the text. */
  predicate Leftmost(text: string, at: nat, parts: seq<string>, seps: seq<string>)
    requires |parts| == |seps| + 1
    decreases |seps|
  {
    var end := at + |parts[0]|;
    && end <= |text| && text[at..end] == parts[0]
    && (forall j :: at <= j < end ==> FirstMatch(Conjunctions, text, j).None?)
    && if seps == [] then end == |text|
       else
         && FirstMatch(Conjunctions, text, end) == Some(|seps[0]|)
         && end + |seps[0]| <= |text| && text[end..end + |seps[0]|] == seps[0]
         && Leftmost(text, end + |seps[0]|, parts[1..], seps[1..])
  }

  /** The scan cuts leftmost-first. */
  lemma {:induction false} SplitFromLeftmost(text: string, start: nat, i: nat)
    requires start <= i <= |text|
    requires forall j :: start <= j < i ==> FirstMatch(Conjunctions, text, j).None?
    ensures var r := SplitFrom(text, start, i); Leftmost(text, start, r.parts, r.seps)
    decreases |text| - i
  {
    if i == |text| {
      assert text[start..i] == text[start..];
    } else {
      match FirstMatch(Conjunctions, text, i)
      case None =>
        SplitFromLeftmost(text, start, i + 1);
        assert SplitFrom(text, start, i) == SplitFrom(text, start, i + 1);
      case Some(n) =>
        SplitFromLeftmost(text, i + n, i + n);
        SplitFromStep(text, start, i, n);
        var r := SplitFrom(text, start, i);
        assert r.parts[1..] == SplitFrom(text, i + n, i + n).parts;
        assert r.seps[1..] == SplitFrom(text, i + n, i + n).seps;
    }
  }

  /** The leftmost-first cut is unique: any cut read that way is the scan's. */
  lemma {:induction false} LeftmostIsSplitFrom(text: string, start: nat, parts: seq<string>, seps: seq<string>)
    requires |parts| == |seps| + 1 && Leftmost(text, start, parts, seps)
    ensures start <= |text| && SplitFrom(text, start, start) == Pieces(parts, seps)
    decreases |seps|, 1
  {
    var end := start + |parts[0]|;
    ScanToCut(text, start, start, end);
    if seps == [] {
      assert text[start..end] == text[start..];
      assert parts == [parts[0]];
    } else {
      LeftmostMore(text, start, parts, seps);
    }
  }

  /** The induction step of the uniqueness: a cut with a separator. */
  lemma {:induction false} LeftmostMore(text: string, start: nat, parts: seq<string>, seps: seq<string>)
    requires |parts| == |seps| + 1 && seps != [] && Leftmost(text, start, parts, seps)
    ensures start + |parts[0]| <= |text|
    ensures SplitFrom(text, start, start + |parts[0]|) == Pieces(parts, seps)
    decreases |seps|, 0
  {
    var end := start + |parts[0]|;
    var n := LeftmostNextCut(text, start, parts, seps);
    var parts', seps' := parts[1..], seps[1..];
    LeftmostIsSplitFrom(text, end + n, parts', seps');
    CutThenRest(text, start, end, n, parts, seps);
  }

  /** Positions where no conjunction begins are passed over by the scan. */
  lemma {:induction false} ScanToCut(text: string, start: nat, i: nat, end: nat)
    requires start <= i <= end <= |text|
    requires forall j :: i <= j < end ==> FirstMatch(Conjunctions, text, j).None?
    ensures SplitFrom(text, start, i) == SplitFrom(text, start, end)
    decreases end - i
  {
    if i < end {
      ScanToCut(text, start, i + 1, end);
    }
  }

  /** A leftmost-first cut with a separator: where it ends its first part, the
      first conjunction matching there is the separator, and the rest of the
      cut is again leftmost-first. */
  lemma LeftmostNextCut(text: string, start: nat, parts: seq<string>, seps: seq<string>) returns (n: nat)
    requires |parts| == |seps| + 1 && Leftmost(text, start, parts, seps) && seps != []
    ensures var end := start + |parts[0]|;
            && n == |seps[0]| && end < |text| && FirstMatch(Conjunctions, text, end) == Some(n)
            && text[start..end] == parts[0] && end + n <= |text| && text[end..end + n] == seps[0]
            && Leftmost(text, end + n, parts[1..], seps[1..])
  {
    n := |seps[0]|;
  }

  /** The scan cuts at a conjunction and goes on as the rest of the cut says. */
  lemma CutThenRest(text: string, start: nat, i: nat, n: nat, parts: seq<string>, seps: seq<string>)
    requires |parts| == |seps| + 1 && seps != []
    requires start <= i < |text| && FirstMatch(Conjunctions, text, i) == Some(n)
    requires text[start..i] == parts[0] && i + n <= |text| && text[i..i + n] == seps[0]
    requires SplitFrom(text, i + n, i + n) == Pieces(parts[1..], seps[1..])
    ensures SplitFrom(text, start, i) == Pieces(parts, seps)
  {
    SplitFromStep(text, start, i, n);
    assert parts == [parts[0]] + parts[1..];
    assert seps == [seps[0]] + seps[1..];
  }

  /** A query without conjunctions is one part: itself. */
  lemma {:induction false} NoConjunctionOnePart(query: string, start: nat, i: nat)
    requires start <= i <= |query|
    requires forall j :: start <= j < i ==> FirstMatch(Conjunctions, query, j).None?
    requires NoConjunctionIn(query)
    ensures SplitFrom(query, start, i).parts == [query[start..]]
    decreases |query| - i
  {
    if i < |query| {
      FirstMatchNone(Conjunctions, query, i);
      NoConjunctionOnePart(query, start, i + 1);
    }
  }

  // ---- decomposition and routing ----

  datatype SubQuery = SubQuery(subQuery: string, intent: string, confidence: real)

  /** One part of a compound query, trimmed and classified on its own. */
  function SubQueryOf(part: string): SubQuery {
    var trimmed := Strip(part);
    var c := Classify(trimmed);
    SubQuery(trimmed, c.intent, c.confidence)
  }

  /** `decompose`: one classified sub-query per part, in the order of the parts. */
  method Decompose(query: string) returns (subs: seq<SubQuery>)
    ensures |subs| == |Split(query)|
    ensures forall k :: 0 <= k < |subs| ==> subs[k] == SubQueryOf(Split(query)[k])
  {
    var parts := Split(query);
    subs := [];
    for n := 0 to |parts|
      invariant |subs| == n
      invariant forall k :: 0 <= k < n ==> subs[k] == SubQueryOf(parts[k])
    {
      subs := subs + [SubQueryOf(parts[n])];
    }
  }

  /** `ENGINE_MAPPING`. */
  const EngineMapping: map<string, string> := map[
    "EXACT" := "Elastic",
    "ANALYTICAL" := "ClickHouse",
    "SIMILARITY" := "VectorDB",
    "STREAMING" := "Kafka/Flink",
    "DECISION" := "AI Control Plane"]

  /** The engine of an intent, "Elastic" for one the mapping lacks. */
  function EngineFor(intent: string): string {
    if intent in EngineMapping then EngineMapping[intent] else "Elastic"
  }

  /** Every intent the classifier gives has an engine, so the default is never used. */
  lemma EveryIntentIsMapped(query: string)
    ensures Classify(query).intent in EngineMapping
  {
  }

  /** The routing decision for one sub-query. */
  datatype Decision = Decision(originalQuery: string, subQuery: string, tenantId: string,
                               intent: string, confidence: real, engine: string)

  /** The decision for one part of the query: its trimmed text, its own
      classification and the engine mapped to that intent. */
  function RouteOne(tenantId: string, query: string, part: string): (d: Decision)
    ensures d.originalQuery == query && d.tenantId == tenantId && d.subQuery == Strip(part)
    ensures Classification(d.intent, d.confidence) == Classify(Strip(part))
    ensures d.intent in EngineMapping && d.engine == EngineMapping[d.intent]
  {
    var c := Classify(Strip(part));
    EveryIntentIsMapped(Strip(part));
    Decision(query, Strip(part), tenantId, c.intent, c.confidence, EngineFor(c.intent))
  }

  /** `route`: the query is decomposed and each sub-query, in order, is sent to
      the engine of its intent. */
  method Route(tenantId: string, query: string) returns (decisions: seq<Decision>)
    ensures |decisions| == |Split(query)|
    ensures forall k :: 0 <= k < |decisions| ==> decisions[k] == RouteOne(tenantId, query, Split(query)[k])
  {
    var subs := Decompose(query);
    ghost var parts := Split(query);
    decisions := [];
    for n := 0 to |subs|
      invariant |decisions| == n
      invariant forall k :: 0 <= k < n ==> decisions[k] == RouteOne(tenantId, query, parts[k])
    {
      var sq := subs[n];
      decisions := decisions + [Decision(query, sq.subQuery, tenantId, sq.intent, sq.confidence,
                                         EngineFor(sq.intent))];
    }
  }
}
