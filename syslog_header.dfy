/** The header grammar both log-line extractors share:
    `^(?P<timestamp>\S+)\s+(?P<hostname>\S+)\s+(?P<program>[^\[:]+)(?:\[\d+\])?:\s+(?P<message>.*)$`
    applied with `re.match` to a line that has already been stripped. */
module SyslogHeader {
  import opened Wrappers
  import opened Text

  predicate IsProgramChar(c: char) { c != '[' && c != ':' }

  /** How the regular expression divides a line: the four named groups and the
      separators between them (the optional `[pid]` is empty when absent). */
  datatype HeaderMatch = HeaderMatch(
    timestamp: string, gap1: string, hostname: string, gap2: string,
    program: string, pid: string, gap3: string, message: string)

  /** The line a division stands for. */
  function Render(m: HeaderMatch): string {
    m.timestamp + m.gap1 + m.hostname + m.gap2 + m.program + m.pid + ":" + m.gap3 + m.message
  }

  /** `\[\d+\]`. */
  predicate IsPid(pid: string) {
    |pid| >= 3 && pid[0] == '[' && pid[|pid| - 1] == ']'
    && forall k :: 1 <= k < |pid| - 1 ==> IsAsciiDigit(pid[k])
  }

  /** Each part has the shape its piece of the regular expression demands. */
  predicate Conforms(m: HeaderMatch) {
    && m.timestamp != [] && NoSpace(m.timestamp)
    && m.gap1 != [] && AllSpace(m.gap1)
    && m.hostname != [] && NoSpace(m.hostname)
    && m.gap2 != [] && AllSpace(m.gap2)
    && m.program != [] && (forall k :: 0 <= k < |m.program| ==> IsProgramChar(m.program[k]))
    && (m.pid == [] || IsPid(m.pid))
    && m.gap3 != [] && AllSpace(m.gap3)
    && (m.message == [] || !IsSpace(m.message[0]))
    && NoNewline(m.message)
  }

  /** The position of the colon that ends the header, given where the program
      group ends: right there, or after a `[digits]` process id. */
  function ColonAt(line: string, pe: nat): (r: Option<nat>)
    requires pe < |line|
    ensures r.Some? ==> pe <= r.value < |line| && line[r.value] == ':'
    ensures r.Some? ==> r.value == pe || IsPid(line[pe..r.value])
  {
    if line[pe] == ':' then Some(pe)
    else if line[pe] != '[' then None
    else
      var d := SkipWhile(line, pe + 1, IsAsciiDigit);
      if d > pe + 1 && d + 1 < |line| && line[d] == ']' && line[d + 1] == ':' then Some(d + 1)
      else None
  }

  /** The match `re.match` finds on a stripped line, if any. Greedy matching fixes
      every boundary at the end of its run, except that the `\s+` before the
      program group gives one whitespace character back when the program group
      could not otherwise start. */
  function MatchHeader(line: string): (r: Option<HeaderMatch>)
    requires IsStripped(line)
    ensures r.Some? ==> Conforms(r.value) && Render(r.value) == line
  {
    var t := SkipWhile(line, 0, NotSpace);
    var w1 := SkipWhile(line, t, IsSpace);
    var h := SkipWhile(line, w1, NotSpace);
    var w2 := SkipWhile(line, h, IsSpace);
    if t == 0 || w1 == t || h == w1 || w2 == h || w2 == |line| then None
    else MatchProgram(line, t, w1, h, w2)
  }

  /** The rest of the match once timestamp and hostname are fixed and `w2` is the
      end of the whitespace after the hostname. */
  function MatchProgram(line: string, t: nat, w1: nat, h: nat, w2: nat): (r: Option<HeaderMatch>)
    requires 0 < t < w1 < h < w2 < |line|
    requires forall k :: 0 <= k < t ==> !IsSpace(line[k])
    requires forall k :: t <= k < w1 ==> IsSpace(line[k])
    requires forall k :: w1 <= k < h ==> !IsSpace(line[k])
    requires forall k :: h <= k < w2 ==> IsSpace(line[k])
    ensures r.Some? ==> Conforms(r.value) && Render(r.value) == line
  {
    var ps := if !IsProgramChar(line[w2]) && w2 - h >= 2 then w2 - 1 else w2;
    if !IsProgramChar(line[ps]) then None
    else
      var pe := SkipWhile(line, ps, IsProgramChar);
      if pe == |line| then None
      else
        match ColonAt(line, pe)
        case None => None
        case Some(c) => MatchMessage(line, t, w1, h, ps, pe, c)
  }

  /** The message part of the match once the colon ending the header is found. */
  function MatchMessage(line: string, t: nat, w1: nat, h: nat, ps: nat, pe: nat, c: nat): (r: Option<HeaderMatch>)
    requires 0 < t < w1 < h < ps < pe <= c < |line|
    requires forall k :: 0 <= k < t ==> !IsSpace(line[k])
    requires forall k :: t <= k < w1 ==> IsSpace(line[k])
    requires forall k :: w1 <= k < h ==> !IsSpace(line[k])
    requires forall k :: h <= k < ps ==> IsSpace(line[k])
    requires forall k :: ps <= k < pe ==> IsProgramChar(line[k])
    requires pe == c || IsPid(line[pe..c])
    requires line[c] == ':'
    ensures r.Some? ==> Conforms(r.value) && Render(r.value) == line
  {
    var w3 := SkipWhile(line, c + 1, IsSpace);
    if w3 == c + 1 || !NoNewline(line[w3..]) then None
    else
      AssembleSound(line, t, w1, h, ps, pe, c, w3);
      Some(Assemble(line, t, w1, h, ps, pe, c, w3))
  }

  function Assemble(line: string, t: nat, w1: nat, h: nat, ps: nat, pe: nat, c: nat, w3: nat): HeaderMatch
    requires t <= w1 <= h <= ps <= pe <= c < w3 <= |line|
  {
    HeaderMatch(line[..t], line[t..w1], line[w1..h], line[h..ps],
                line[ps..pe], line[pe..c], line[c + 1..w3], line[w3..])
  }

  /** Boundaries with the right character classes between them divide the line
      into a conforming match. */
  lemma AssembleSound(line: string, t: nat, w1: nat, h: nat, ps: nat, pe: nat, c: nat, w3: nat)
    requires 0 < t < w1 < h < ps < pe <= c && c + 1 < w3 <= |line|
    requires forall k :: 0 <= k < t ==> !IsSpace(line[k])
    requires forall k :: t <= k < w1 ==> IsSpace(line[k])
    requires forall k :: w1 <= k < h ==> !IsSpace(line[k])
    requires forall k :: h <= k < ps ==> IsSpace(line[k])
    requires forall k :: ps <= k < pe ==> IsProgramChar(line[k])
    requires pe == c || IsPid(line[pe..c])
    requires line[c] == ':'
    requires forall k :: c + 1 <= k < w3 ==> IsSpace(line[k])
    requires w3 == |line| || !IsSpace(line[w3])
    requires NoNewline(line[w3..])
    ensures Conforms(Assemble(line, t, w1, h, ps, pe, c, w3))
    ensures Render(Assemble(line, t, w1, h, ps, pe, c, w3)) == line
  {
    var m := Assemble(line, t, w1, h, ps, pe, c, w3);
    assert NoSpace(m.timestamp) by { assert forall k :: 0 <= k < t ==> m.timestamp[k] == line[k]; }
    assert AllSpace(m.gap1) by { assert forall k :: 0 <= k < w1 - t ==> m.gap1[k] == line[t + k]; }
    assert NoSpace(m.hostname) by { assert forall k :: 0 <= k < h - w1 ==> m.hostname[k] == line[w1 + k]; }
    assert AllSpace(m.gap2) by { assert forall k :: 0 <= k < ps - h ==> m.gap2[k] == line[h + k]; }
    assert AllSpace(m.gap3) by { assert forall k :: 0 <= k < w3 - c - 1 ==> m.gap3[k] == line[c + 1 + k]; }
    RenderSlices(line, t, w1, h, ps, pe, c, w3);
  }

  lemma RenderSlices(line: string, t: nat, w1: nat, h: nat, ps: nat, pe: nat, c: nat, w3: nat)
    requires t <= w1 <= h <= ps <= pe <= c < w3 <= |line| && line[c] == ':'
    ensures Render(Assemble(line, t, w1, h, ps, pe, c, w3)) == line
  {
    assert line[..w1] == line[..t] + line[t..w1];
    assert line[..h] == line[..w1] + line[w1..h];
    assert line[..ps] == line[..h] + line[h..ps];
    assert line[..pe] == line[..ps] + line[ps..pe];
    assert line[..c] == line[..pe] + line[pe..c];
    assert line[..c + 1] == line[..c] + ":";
    assert line[..w3] == line[..c + 1] + line[c + 1..w3];
    assert line == line[..w3] + line[w3..];
  }

  /** The colon stage finds the colon a conforming division puts after the program. */
  lemma ColonComplete(line: string, pe: nat, c: nat, pid: string)
    requires pe <= c < |line| && line[c] == ':' && line[pe..c] == pid
    requires pid == [] || IsPid(pid)
    requires line[pe] == (if pid == [] then ':' else '[')
    requires pid != [] ==> (forall k :: pe + 1 <= k < c - 1 ==> IsAsciiDigit(line[k])) && line[c - 1] == ']'
    ensures ColonAt(line, pe) == Some(c)
  {
    if pid != [] {
      SkipWhileAt(line, pe + 1, c - 1, IsAsciiDigit);
    }
  }

  /** The message stage succeeds on a stripped line whose message has no newline,
      and keeps the message up to leading whitespace. */
  lemma MessageComplete(line: string, t: nat, w1: nat, h: nat, ps: nat, pe: nat, c: nat, w3: nat) returns (k: nat)
    requires 0 < t < w1 < h < ps < pe <= c < |line|
    requires forall k :: 0 <= k < t ==> !IsSpace(line[k])
    requires forall k :: t <= k < w1 ==> IsSpace(line[k])
    requires forall k :: w1 <= k < h ==> !IsSpace(line[k])
    requires forall k :: h <= k < ps ==> IsSpace(line[k])
    requires forall k :: ps <= k < pe ==> IsProgramChar(line[k])
    requires pe == c || IsPid(line[pe..c])
    requires line[c] == ':'
    requires c + 1 < w3 <= |line| && forall k :: c + 1 <= k < w3 ==> IsSpace(line[k])
    requires NoNewline(line[w3..]) && IsStripped(line)
    ensures MatchMessage(line, t, w1, h, ps, pe, c).Some?
    ensures w3 <= k < |line| && AllSpace(line[w3..k]) && !IsSpace(line[k])
    ensures MatchMessage(line, t, w1, h, ps, pe, c).value.message == line[k..]
  {
    k := SkipWhile(line, c + 1, IsSpace);
    assert w3 <= k;
    assert k < |line|;
    assert line[k..] == line[w3..][k - w3..];
    AllSpaceSlice(line, w3, k);
  }

  /** The program stage hands over to the message stage once the program group
      and the colon are where the arguments say. */
  lemma ProgramStage(line: string, t: nat, w1: nat, h: nat, w2: nat, ps: nat, pe: nat, c: nat)
    requires 0 < t < w1 < h < w2 < |line|
    requires forall k :: 0 <= k < t ==> !IsSpace(line[k])
    requires forall k :: t <= k < w1 ==> IsSpace(line[k])
    requires forall k :: w1 <= k < h ==> !IsSpace(line[k])
    requires forall k :: h <= k < w2 ==> IsSpace(line[k])
    requires ps == (if !IsProgramChar(line[w2]) && w2 - h >= 2 then w2 - 1 else w2)
    requires IsProgramChar(line[ps])
    requires pe == SkipWhile(line, ps, IsProgramChar) && pe < |line|
    requires ColonAt(line, pe) == Some(c)
    ensures h < ps < pe <= c < |line| && forall k :: h <= k < ps ==> IsSpace(line[k])
    ensures MatchProgram(line, t, w1, h, w2) == MatchMessage(line, t, w1, h, ps, pe, c)
  {
  }

  /** Once timestamp, hostname and the whitespace after them are runs ending
      where they should, the header stage hands over to the program stage. */
  lemma HeaderPrefix(line: string, T: nat, W1: nat, H: nat)
    requires IsStripped(line) && 0 < T < W1 < H < |line|
    requires SkipWhile(line, 0, NotSpace) == T && SkipWhile(line, T, IsSpace) == W1
    requires SkipWhile(line, W1, NotSpace) == H
    requires H < SkipWhile(line, H, IsSpace) < |line|
    ensures MatchHeader(line) == MatchProgram(line, T, W1, H, SkipWhile(line, H, IsSpace))
  {
  }

  /** The runs of the header end where the division says, and the whitespace
      after the hostname reaches at least to `W2` and at most to `PE`. */
  lemma HeaderRuns(line: string, T: nat, W1: nat, H: nat, W2: nat, PE: nat)
    requires 0 < T < W1 < H < W2 < PE < |line| && IsStripped(line) && !IsSpace(line[PE])
    requires forall k :: 0 <= k < T ==> !IsSpace(line[k])
    requires forall k :: T <= k < W1 ==> IsSpace(line[k])
    requires forall k :: W1 <= k < H ==> !IsSpace(line[k])
    requires forall k :: H <= k < W2 ==> IsSpace(line[k])
    ensures var w2 := SkipWhile(line, H, IsSpace);
            && W2 <= w2 <= PE && (forall k :: H <= k < w2 ==> IsSpace(line[k]))
            && SkipWhile(line, 0, NotSpace) == T && SkipWhile(line, T, IsSpace) == W1
            && SkipWhile(line, W1, NotSpace) == H
            && MatchHeader(line) == MatchProgram(line, T, W1, H, w2)
  {
    SkipWhileAt(line, 0, T, NotSpace);
    SkipWhileAt(line, T, W1, IsSpace);
    SkipWhileAt(line, W1, H, NotSpace);
    SkipWhileStops(line, H, PE, IsSpace);
    SkipWhileCovers(line, H, W2, IsSpace);
    HeaderPrefix(line, T, W1, H);
  }

  /** The header and program stages settle on the given timestamp, hostname and
      colon; the program group starts at `ps`, after whitespace only. */
  lemma HeaderStages(line: string, T: nat, W1: nat, H: nat, W2: nat, PE: nat, C: nat, W3: nat) returns (ps: nat)
    requires 0 < T < W1 < H < W2 < PE <= C && C + 1 < W3 <= |line| && IsStripped(line)
    requires forall k :: 0 <= k < T ==> !IsSpace(line[k])
    requires forall k :: T <= k < W1 ==> IsSpace(line[k])
    requires forall k :: W1 <= k < H ==> !IsSpace(line[k])
    requires forall k :: H <= k < W2 ==> IsSpace(line[k])
    requires forall k :: W2 <= k < PE ==> IsProgramChar(line[k])
    requires PE == C || IsPid(line[PE..C])
    requires line[PE] == (if PE == C then ':' else '[')
    requires PE != C ==> (forall k :: PE + 1 <= k < C - 1 ==> IsAsciiDigit(line[k])) && line[C - 1] == ']'
    requires line[C] == ':'
    ensures W2 <= ps < PE && forall k :: H <= k < ps ==> IsSpace(line[k])
    ensures MatchHeader(line) == MatchMessage(line, T, W1, H, ps, PE, C)
  {
    HeaderRuns(line, T, W1, H, W2, PE);
    var w2 := SkipWhile(line, H, IsSpace);
    ps := if !IsProgramChar(line[w2]) && w2 - H >= 2 then w2 - 1 else w2;
    SkipWhileAt(line, ps, PE, IsProgramChar);
    ColonComplete(line, PE, C, line[PE..C]);
    ProgramStage(line, T, W1, H, w2, ps, PE, C);
  }

  /** Completeness: a stripped line that the grammar can divide at the positions
      T, W1, H, W2, PE, C, W3 (timestamp, whitespace, hostname, whitespace,
      program, optional `[pid]`, colon, whitespace, message without a newline) is
      matched. The match has exactly that timestamp, hostname and pid; its program
      and message are the given ones less leading whitespace (from `ps` and `k`).
      With MatchHeader's own contract, a match exists exactly when the line has
      the header's shape. */
  lemma MatchHeaderComplete(line: string, T: nat, W1: nat, H: nat, W2: nat, PE: nat, C: nat, W3: nat)
    returns (ps: nat, k: nat)
    requires 0 < T < W1 < H < W2 < PE <= C && C + 1 < W3 <= |line| && IsStripped(line)
    requires forall k :: 0 <= k < T ==> !IsSpace(line[k])
    requires forall k :: T <= k < W1 ==> IsSpace(line[k])
    requires forall k :: W1 <= k < H ==> !IsSpace(line[k])
    requires forall k :: H <= k < W2 ==> IsSpace(line[k])
    requires forall k :: W2 <= k < PE ==> IsProgramChar(line[k])
    requires PE == C || IsPid(line[PE..C])
    requires line[PE] == (if PE == C then ':' else '[')
    requires PE != C ==> (forall k :: PE + 1 <= k < C - 1 ==> IsAsciiDigit(line[k])) && line[C - 1] == ']'
    requires line[C] == ':'
    requires forall k :: C + 1 <= k < W3 ==> IsSpace(line[k])
    requires NoNewline(line[W3..])
    ensures MatchHeader(line).Some?
    ensures var r := MatchHeader(line).value;
      && r.timestamp == line[..T] && r.hostname == line[W1..H] && r.pid == line[PE..C]
      && W2 <= ps < PE && AllSpace(line[W2..ps]) && r.program == line[ps..PE]
      && W3 <= k < |line| && AllSpace(line[W3..k]) && !IsSpace(line[k]) && r.message == line[k..]
  {
    ps := HeaderStages(line, T, W1, H, W2, PE, C, W3);
    k := MessageComplete(line, T, W1, H, ps, PE, C, W3);
    AllSpaceSlice(line, W2, ps);
  }
}
