/** The older field extractor: the same header grammar as the signal pipeline,
    but instead of events it yields one record per line, with the user guessed
    by a per-program search and the timestamp kept as raw text. */
module LegacyExtractor {
  import opened Wrappers
  import opened Text
  import opened Regex
  import opened SyslogHeader
  import opened EventExtractor

  /** The record of one line; `user` is None when the program's search found nobody. */
  datatype Record = Record(timestamp: string, hostname: string, program: string,
                           user: Option<string>, rawMessage: string)

  /** `for\s+(\S+)\s+from` */
  const ForUser: Pattern := [Lit("for"), Spaces, Token, Spaces, Lit("from")]
  /** `User\s+(\S+)\s+from` */
  const NamedUser: Pattern := [Lit("User"), Spaces, Token, Spaces, Lit("from")]
  /** `Invalid user\s+(\S+)` */
  const InvalidUser: Pattern := [Lit("Invalid user"), Spaces, Token]
  /** `^\(([^)]+)\)` */
  const ParenPrefix: Pattern := [Lit("("), UntilCloseParen]

  lemma CapturedUser()
    ensures Captured(ForUser) == [Token]
    ensures Captured(NamedUser) == [Token]
    ensures Captured(InvalidUser) == [Token]
  {
    assert ForUser[1..][1..][1..][1..][1..] == [];
    assert NamedUser[1..][1..][1..][1..][1..] == [];
    assert InvalidUser[1..][1..][1..] == [];
  }

  /** The word the first of the three sshd searches that succeeds captured. */
  function SshdUser(msg: string): (r: Option<string>)
    ensures r.Some? ==> IsWord(r.value)
    ensures r.Some? <==> Find(ForUser, msg).Some? || Find(NamedUser, msg).Some? || Find(InvalidUser, msg).Some?
    ensures Find(ForUser, msg).Some? ==> Find(ForUser, msg) == Some([r.value])
    ensures Find(ForUser, msg).None? && Find(NamedUser, msg).Some? ==> Find(NamedUser, msg) == Some([r.value])
    ensures Find(ForUser, msg).None? && Find(NamedUser, msg).None? && Find(InvalidUser, msg).Some? ==>
              Find(InvalidUser, msg) == Some([r.value])
  {
    CapturedUser();
    match Find(ForUser, msg)
    case Some(_) => Single(ForUser, Find(ForUser, msg))
    case None =>
      match Find(NamedUser, msg)
      case Some(_) => Single(NamedUser, Find(NamedUser, msg))
      case None => Single(InvalidUser, Find(InvalidUser, msg))
  }

  /** Where `[^)]+\)` matching from position 1 leaves the first closing parenthesis. */
  lemma ParenMatch(msg: string)
    requires |msg| >= 1 && msg[0] == '('
    ensures var j := SkipWhile(msg, 1, NotCloseParen);
            MatchAt(ParenPrefix, msg, 0) == if j == 1 || j == |msg| then None else Some([msg[1..j]])
  {
    var p1 := ParenPrefix[1..];
    assert p1 == [UntilCloseParen] && p1[1..] == [];
    assert OccursAt(msg, "(", 0) by { assert msg[0..1] == "("; }
    var j := SkipWhile(msg, 1, NotCloseParen);
    if j != 1 && j != |msg| {
      assert MatchAt(p1[1..], msg, j + 1) == Some([]);
      assert [msg[1..j]] + [] == [msg[1..j]];
      assert Prepend(p1, msg[1..j], Some([])) == Some([msg[1..j]]);
      assert MatchAt(p1, msg, 1) == Some([msg[1..j]]);
    }
    assert MatchAt(ParenPrefix, msg, 0) == SkipThen(ParenPrefix, MatchAt(p1, msg, 1));
  }

  /** When the run of non-`)` characters from position 1 is empty or reaches the
      end, no `)` follows a non-`)` second character. */
  lemma NoCloseParenAfter(msg: string, j: nat)
    requires 1 <= |msg| && j == SkipWhile(msg, 1, NotCloseParen) && (j == 1 || j == |msg|)
    ensures !(|msg| >= 3 && msg[1] != ')' && exists i :: 2 <= i < |msg| && msg[i] == ')')
  {
    if j == |msg| {
      forall i | 1 <= i < |msg| ensures msg[i] != ')' {
        assert NotCloseParen(msg[i]);
      }
    } else if |msg| > 1 {
      assert !NotCloseParen(msg[1]);
    }
  }

  /** `^\(([^)]+)\)`: the text between a leading parenthesis and the first
      closing one, when there is at least one character between them. */
  function CronUser(msg: string): (r: Option<string>)
    ensures r.Some? <==> |msg| >= 3 && msg[0] == '(' && msg[1] != ')'
                         && exists j :: 2 <= j < |msg| && msg[j] == ')'
    ensures r.Some? ==> r.value != [] && OccursAt(msg, "(" + r.value + ")", 0)
                        && forall k :: 0 <= k < |r.value| ==> r.value[k] != ')'
  {
    if |msg| >= 1 && msg[0] == '(' then
      ParenMatch(msg);
      var j := SkipWhile(msg, 1, NotCloseParen);
      if j == 1 || j == |msg| then
        NoCloseParenAfter(msg, j);
        None
      else
        assert msg[..j + 1] == "(" + msg[1..j] + ")";
        Some(msg[1..j])
    else
      assert !OccursAt(msg, "(", 0) by {
        if |msg| >= 1 { assert msg[0..1][0] == msg[0]; }
      }
      None
  }

  /** `extract_user`: sshd tries "for X from", then "User X from", then
      "Invalid user X"; sudo takes the name before the leading " :"; cron
      (spelt in any case) takes the parenthesised prefix; any other program
      has no user. */
  function ExtractUser(program: string, msg: string): (r: Option<string>)
    ensures program == "sshd" ==> r == SshdUser(msg)
    ensures program == "sudo" ==> r == LeadingName(msg)
    ensures program != "sshd" && program != "sudo" && Lower(program) == "cron" ==> r == CronUser(msg)
    ensures program != "sshd" && program != "sudo" && Lower(program) != "cron" ==> r.None?
    ensures r.Some? ==> r.value != [] && (program == "sshd" || program == "sudo" ==> NoSpace(r.value))
  {
    if program == "sshd" then SshdUser(msg)
    else if program == "sudo" then LeadingName(msg)
    else if Lower(program) == "cron" then CronUser(msg)
    else None
  }

  /** `parse_line`: a stripped, non-blank line that fits the header grammar gives
      a record whatever the user search finds; every other line gives None. */
  function ParseLine(line: string): (r: Option<Record>)
    ensures r.Some? <==> !AllSpace(line) && MatchHeader(Strip(line)).Some?
    ensures r.Some? ==> var m := MatchHeader(Strip(line)).value;
                        r.value == Record(m.timestamp, m.hostname, Strip(m.program),
                                          ExtractUser(Strip(m.program), m.message), m.message)
    ensures r.Some? ==> IsWord(r.value.timestamp) && IsWord(r.value.hostname) && NoNewline(r.value.rawMessage)
  {
    var s := Strip(line);
    StripEmptyIffAllSpace(line);
    if s == [] then None
    else
      match MatchHeader(s)
      case None => None
      case Some(m) =>
        var program := Strip(m.program);
        Some(Record(m.timestamp, m.hostname, program, ExtractUser(program, m.message), m.message))
  }

  /** Every line the signal pipeline turns into an event is a line the older
      extractor keeps, with the same host. */
  lemma LegacyKeepsEveryParsedLine(line: string, parseTs: string -> Option<int>)
    requires EventExtractor.ParseLine(line, parseTs).Some?
    ensures ParseLine(line).Some?
    ensures ParseLine(line).value.hostname == EventExtractor.ParseLine(line, parseTs).value.hostname
  {
  }

  /** A line of a program with no user rule is kept, with no user. */
  lemma UnknownProgramKeepsLine(line: string, m: HeaderMatch)
    requires !AllSpace(line) && MatchHeader(Strip(line)) == Some(m)
    requires Strip(m.program) != "sshd" && Strip(m.program) != "sudo" && Lower(Strip(m.program)) != "cron"
    ensures ParseLine(line) == Some(Record(m.timestamp, m.hostname, Strip(m.program), None, m.message))
  {
  }
}
