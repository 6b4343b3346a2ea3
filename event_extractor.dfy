/** `parse_line` of the signal pipeline: a log line is stripped, divided by the
    syslog header grammar, its timestamp parsed, and then handed to the rule of
    its program, which turns it into at most one tagged event. */
module EventExtractor {
  import opened Wrappers
  import opened Text
  import opened Regex
  import opened SyslogHeader

  /** The events the extractor produces. Timestamps are epoch seconds. A
      privilege escalation seen by sudo carries no target user, source (`via`)
      or confidence (`attribution`); one seen by su carries all three. */
  datatype Event =
    | SshLogin(timestamp: int, hostname: string, user: string, ip: string)
    | SshFailure(timestamp: int, hostname: string, user: string, ip: string)
    | PrivilegeEscalation(timestamp: int, hostname: string, user: string, command: string,
                          targetUser: Option<string>, via: Option<string>, attribution: Option<string>)
    | AuthFailure(timestamp: int, hostname: string, user: string, source: string, confidence: string)
    | IamChange(timestamp: int, hostname: string, user: string, program: string, message: string,
                confidence: string)

  /** `(\S+)\s+from\s+(\S+)`: the part every login pattern of sshd ends with. */
  const UserFrom: Pattern := [Token, Spaces, Lit("from"), Spaces, Token]
  /** `for\s+(\S+)\s+from\s+(\S+)` */
  const ForFrom: Pattern := [Lit("for"), Spaces, Token, Spaces, Lit("from"), Spaces, Token]
  /** `invalid user\s+(\S+)\s+from\s+(\S+)` */
  const InvalidUserTail: Pattern := [Lit("invalid user"), Spaces, Token, Spaces, Lit("from"), Spaces, Token]
  /** `for\s+(?:invalid user\s+)?(\S+)\s+from\s+(\S+)` is this alternative, then `ForFrom`. */
  const ForInvalidFrom: Pattern :=
    [Lit("for"), Spaces, Lit("invalid user"), Spaces, Token, Spaces, Lit("from"), Spaces, Token]
  /** `Invalid user\s+(\S+)\s+from\s+(\S+)` */
  const InvalidUserFrom: Pattern := [Lit("Invalid user"), Spaces, Token, Spaces, Lit("from"), Spaces, Token]

  /** How the failed-login patterns are built from one another. */
  lemma LoginPatternParts()
    ensures ForFrom == [Lit("for"), Spaces] + UserFrom
    ensures InvalidUserTail == [Lit("invalid user"), Spaces] + UserFrom
    ensures ForInvalidFrom == [Lit("for"), Spaces] + InvalidUserTail
    ensures InvalidUserFrom == [Lit("Invalid user"), Spaces] + UserFrom
  { }
  /** `^\s*(\S+)\s+:` */
  const LeadingUser: Pattern := [OptSpaces, Token, Spaces, Lit(":")]
  /** `COMMAND=(.*)` */
  const CommandText: Pattern := [Lit("COMMAND="), RestOfLine]
  /** `user=(\S+)` */
  const UserAssignment: Pattern := [Lit("user="), Token]
  /** `user\s+(\S+)\s+by\s+(\S+)\(` */
  const SessionUsers: Pattern := [Lit("user"), Spaces, Token, Spaces, Lit("by"), Spaces, TokenBeforeParen]

  /** The user and group management programs whose every line is an IAM change. */
  const IamPrograms: seq<string> := ["useradd", "usermod", "userdel", "groupadd", "groupmod", "groupdel", "chage"]

  /** A captured word: non-empty and without whitespace. */
  predicate IsWord(g: string) { g != [] && NoSpace(g) }

  lemma CapturedTwoTokens()
    ensures Captured(ForFrom) == [Token, Token]
    ensures Captured(ForInvalidFrom) == [Token, Token]
    ensures Captured(InvalidUserFrom) == [Token, Token]
  {
    CapturedForFrom();
    CapturedForInvalidFrom();
    CapturedInvalidUserFrom();
  }

  lemma CapturedForFrom()
    ensures Captured(ForFrom) == [Token, Token]
  {
    assert ForFrom[1..][1..][1..][1..][1..][1..][1..] == [];
  }

  lemma CapturedForInvalidFrom()
    ensures Captured(ForInvalidFrom) == [Token, Token]
  {
    assert ForInvalidFrom[1..][1..][1..][1..][1..][1..][1..][1..][1..] == [];
  }

  lemma CapturedInvalidUserFrom()
    ensures Captured(InvalidUserFrom) == [Token, Token]
  {
    assert InvalidUserFrom[1..][1..][1..][1..][1..][1..][1..] == [];
  }

  lemma CapturedOneToken()
    ensures Captured(LeadingUser) == [Token]
    ensures Captured(UserAssignment) == [Token]
  {
    assert LeadingUser[1..][1..][1..][1..] == [];
    assert UserAssignment[1..][1..] == [];
  }

  lemma CapturedOthers()
    ensures Captured(CommandText) == [RestOfLine]
    ensures Captured(SessionUsers) == [Token, TokenBeforeParen]
  {
    assert CommandText[1..][1..] == [];
    assert SessionUsers[1..][1..][1..][1..][1..][1..][1..] == [];
  }

  /** The two words a pattern with two word groups captured. */
  function Pair(p: Pattern, gs: Option<seq<string>>): (r: Option<(string, string)>)
    requires Captured(p) == [Token, Token] || Captured(p) == [Token, TokenBeforeParen]
    requires gs.Some? ==> Shaped(p, gs.value)
    ensures r.Some? <==> gs.Some?
    ensures r.Some? ==> gs.value == [r.value.0, r.value.1] && IsWord(r.value.0) && IsWord(r.value.1)
  {
    match gs
    case Some(g) =>
      assert GroupShape(Captured(p)[0], g[0]) && GroupShape(Captured(p)[1], g[1]);
      Some((g[0], g[1]))
    case None => None
  }

  /** The word a pattern with one word group captured. */
  function Single(p: Pattern, gs: Option<seq<string>>): (r: Option<string>)
    requires Captured(p) == [Token] && (gs.Some? ==> Shaped(p, gs.value))
    ensures r.Some? <==> gs.Some?
    ensures r.Some? ==> gs.value == [r.value] && IsWord(r.value)
  {
    match gs
    case Some(g) =>
      assert GroupShape(Captured(p)[0], g[0]);
      Some(g[0])
    case None => None
  }

  /** The failed-login alternatives all capture two words. */
  lemma FailureAlternatives()
    ensures SameCaptures([ForInvalidFrom, ForFrom])
    ensures Captured([ForInvalidFrom, ForFrom][0]) == [Token, Token]
  {
    CapturedTwoTokens();
  }

  /** `re.search` of the two failed-login alternatives. */
  function FailureSearch(msg: string): Option<Hit> {
    FailureAlternatives();
    Search([ForInvalidFrom, ForFrom], msg)
  }

  /** User and address of a failed ssh login: the two-alternative search, then
      the `Invalid user` search when it finds nothing. */
  function FailureParties(msg: string): (r: Option<(string, string)>)
    ensures r.Some? ==> IsWord(r.value.0) && IsWord(r.value.1)
    ensures var hit := FailureSearch(msg);
            && (hit.Some? ==> r.Some? && hit.value.groups == [r.value.0, r.value.1])
            && (hit.None? ==> (r.Some? <==> Find(InvalidUserFrom, msg).Some?))
            && (hit.None? && r.Some? ==> Find(InvalidUserFrom, msg) == Some([r.value.0, r.value.1]))
  {
    FailureAlternatives();
    CapturedInvalidUserFrom();
    var hit := FailureSearch(msg);
    if hit.Some? then Pair(ForInvalidFrom, Some(hit.value.groups))
    else Pair(InvalidUserFrom, Find(InvalidUserFrom, msg))
  }

  /** User and address of an accepted login. */
  function LoginParties(msg: string): (r: Option<(string, string)>)
    ensures r.Some? ==> IsWord(r.value.0) && IsWord(r.value.1)
    ensures r.Some? <==> Find(ForFrom, msg).Some?
    ensures r.Some? ==> Find(ForFrom, msg) == Some([r.value.0, r.value.1])
  {
    CapturedTwoTokens();
    Pair(ForFrom, Find(ForFrom, msg))
  }

  /** The sshd rule: an accepted public key is a login and is never looked at as
      a failure; otherwise a failed password or an invalid user is a failure. */
  function SshdRule(msg: string, ts: int, host: string): (r: Option<Event>)
    ensures r.Some? ==> (r.value.SshLogin? || r.value.SshFailure?)
                        && r.value.timestamp == ts && r.value.hostname == host
                        && IsWord(r.value.user) && IsWord(r.value.ip)
    ensures r.Some? ==> (r.value.SshLogin? <==> Contains(msg, "Accepted publickey"))
    ensures r.Some? && r.value.SshFailure? ==>
              Contains(msg, "Failed password") || Contains(msg, "Invalid user")
    ensures Contains(msg, "Accepted publickey") ==>
              (r.Some? <==> LoginParties(msg).Some?)
              && (r.Some? ==> r.value == SshLogin(ts, host, LoginParties(msg).value.0, LoginParties(msg).value.1))
    ensures !Contains(msg, "Accepted publickey") && (Contains(msg, "Failed password") || Contains(msg, "Invalid user")) ==>
              (r.Some? <==> FailureParties(msg).Some?)
              && (r.Some? ==> r.value == SshFailure(ts, host, FailureParties(msg).value.0, FailureParties(msg).value.1))
  {
    if Contains(msg, "Accepted publickey") then
      match LoginParties(msg)
      case Some((u, ip)) => Some(SshLogin(ts, host, u, ip))
      case None => None
    else if Contains(msg, "Failed password") || Contains(msg, "Invalid user") then
      match FailureParties(msg)
      case Some((u, ip)) => Some(SshFailure(ts, host, u, ip))
      case None => None
    else None
  }

  /** `user=(\S+)` */
  function AssignedUser(msg: string): (r: Option<string>)
    ensures r.Some? ==> IsWord(r.value)
    ensures r.Some? <==> Find(UserAssignment, msg).Some?
    ensures r.Some? ==> Find(UserAssignment, msg) == Some([r.value])
  {
    CapturedOneToken();
    Single(UserAssignment, Find(UserAssignment, msg))
  }

  /** `^\s*(\S+)\s+:` */
  function LeadingName(msg: string): (r: Option<string>)
    ensures r.Some? ==> IsWord(r.value)
    ensures r.Some? <==> MatchStart(LeadingUser, msg).Some?
    ensures r.Some? ==> MatchStart(LeadingUser, msg) == Some([r.value])
  {
    CapturedOneToken();
    Single(LeadingUser, MatchStart(LeadingUser, msg))
  }

  /** `COMMAND=(.*)` */
  function CommandAfterMarker(msg: string): (r: Option<string>)
    ensures r.Some? ==> NoNewline(r.value)
    ensures r.Some? <==> Find(CommandText, msg).Some?
    ensures r.Some? ==> Find(CommandText, msg) == Some([r.value])
  {
    CapturedOthers();
    match Find(CommandText, msg)
    case Some(g) =>
      assert GroupShape(Captured(CommandText)[0], g[0]);
      assert g == [g[0]];
      Some(g[0])
    case None => None
  }

  /** The user of a failed sudo authentication: the `user=` value in preference
      to the leading `name :`. */
  function SudoFailureUser(msg: string): (r: Option<string>)
    ensures r.Some? ==> IsWord(r.value)
    ensures AssignedUser(msg).Some? ==> r == AssignedUser(msg)
    ensures AssignedUser(msg).None? ==> r == LeadingName(msg)
  {
    if AssignedUser(msg).Some? then AssignedUser(msg) else LeadingName(msg)
  }

  /** The sudo rule: a command run as root is a privilege escalation carrying the
      trimmed command text; otherwise a failed authentication or conversation is
      an authentication failure attributed to sudo with high confidence. */
  function SudoRule(msg: string, ts: int, host: string): (r: Option<Event>)
    ensures r.Some? ==> r.value.timestamp == ts && r.value.hostname == host && IsWord(r.value.user)
    ensures r.Some? && r.value.PrivilegeEscalation? ==>
              Contains(msg, "COMMAND=") && Contains(msg, "USER=root")
              && IsStripped(r.value.command)
              && r.value.targetUser.None? && r.value.via.None? && r.value.attribution.None?
    ensures r.Some? && !r.value.PrivilegeEscalation? ==>
              r.value.AuthFailure? && r.value.source == "sudo" && r.value.confidence == "high"
              && !(Contains(msg, "COMMAND=") && Contains(msg, "USER=root"))
              && (Contains(msg, "authentication failure") || Contains(msg, "conversation failed"))
  {
    if Contains(msg, "COMMAND=") && Contains(msg, "USER=root") then
      match (LeadingName(msg), CommandAfterMarker(msg))
      case (Some(u), Some(c)) => Some(PrivilegeEscalation(ts, host, u, Strip(c), None, None, None))
      case _ => None
    else if Contains(msg, "authentication failure") || Contains(msg, "conversation failed") then
      match SudoFailureUser(msg)
      case Some(u) => Some(AuthFailure(ts, host, u, "sudo", "high"))
      case None => None
    else None
  }

  /** `user\s+(\S+)\s+by\s+(\S+)\(`: the target and the invoking user. */
  function SessionParties(msg: string): (r: Option<(string, string)>)
    ensures r.Some? ==> IsWord(r.value.0) && IsWord(r.value.1)
    ensures r.Some? <==> Find(SessionUsers, msg).Some?
    ensures r.Some? ==> Find(SessionUsers, msg) == Some([r.value.0, r.value.1])
  {
    CapturedOthers();
    Pair(SessionUsers, Find(SessionUsers, msg))
  }

  /** The su rule: an opened session "user T by U(" is a privilege escalation of
      U to T with medium confidence; otherwise an authentication failure counts
      only when it names a `user=`. */
  function SuRule(msg: string, ts: int, host: string): (r: Option<Event>)
    ensures r.Some? ==> r.value.timestamp == ts && r.value.hostname == host && IsWord(r.value.user)
    ensures r.Some? && r.value.PrivilegeEscalation? ==>
              Contains(msg, "session opened for user")
              && r.value.targetUser.Some? && IsWord(r.value.targetUser.value)
              && r.value.command == "su to " + r.value.targetUser.value
              && r.value.via == Some("su") && r.value.attribution == Some("medium")
    ensures r.Some? && !r.value.PrivilegeEscalation? ==>
              r.value.AuthFailure? && r.value.source == "su" && r.value.confidence == "high"
              && !Contains(msg, "session opened for user") && Contains(msg, "authentication failure")
              && AssignedUser(msg) == Some(r.value.user)
  {
    if Contains(msg, "session opened for user") then
      match SessionParties(msg)
      case Some((target, u)) =>
        Some(PrivilegeEscalation(ts, host, u, "su to " + target, Some(target), Some("su"), Some("medium")))
      case None => None
    else if Contains(msg, "authentication failure") then
      match AssignedUser(msg)
      case Some(u) => Some(AuthFailure(ts, host, u, "su", "high"))
      case None => None
    else None
  }

  /** The rule of a program, applied to the message of a line whose header
      carried timestamp `ts` and host `host`. Only sshd, sudo, su and the
      identity programs produce events, and each only events of its own kinds. */
  function ApplyRules(program: string, msg: string, ts: int, host: string): (r: Option<Event>)
    ensures r.Some? ==> r.value.timestamp == ts && r.value.hostname == host
    ensures r.Some? && (r.value.SshLogin? || r.value.SshFailure?) ==> program == "sshd"
    ensures r.Some? && r.value.PrivilegeEscalation? ==>
              (program == "sudo" && r.value.via.None?) || (program == "su" && r.value.via == Some("su"))
    ensures r.Some? && r.value.AuthFailure? ==> r.value.source == program && (program == "sudo" || program == "su")
    ensures program in IamPrograms ==> r == Some(IamChange(ts, host, "root", program, msg, "high"))
    ensures r.Some? && r.value.IamChange? ==> program in IamPrograms
    ensures program != "sshd" && program != "sudo" && program != "su" && program !in IamPrograms ==> r.None?
  {
    if program == "sshd" then SshdRule(msg, ts, host)
    else if program == "sudo" then SudoRule(msg, ts, host)
    else if program == "su" then SuRule(msg, ts, host)
    else if program in IamPrograms then Some(IamChange(ts, host, "root", program, msg, "high"))
    else None
  }

  /** `parse_line`: strip the line, divide it by the header grammar, parse the
      timestamp with `parseTs` and apply the rule of the (stripped) program. Every
      failure along the way is None; nothing raises. */
  function ParseLine(line: string, parseTs: string -> Option<int>): (r: Option<Event>)
    ensures AllSpace(line) ==> r.None?
    ensures MatchHeader(Strip(line)).None? ==> r.None?
    ensures r.Some? ==> parseTs(MatchHeader(Strip(line)).value.timestamp) == Some(r.value.timestamp)
                        && r.value.hostname == MatchHeader(Strip(line)).value.hostname
  {
    var s := Strip(line);
    StripEmptyIffAllSpace(line);
    if s == [] then None
    else
      match MatchHeader(s)
      case None => None
      case Some(m) =>
        match parseTs(m.timestamp)
        case None => None
        case Some(ts) => ApplyRules(Strip(m.program), m.message, ts, m.hostname)
  }

  /** The events of a line are exactly what its program's rule makes of its
      message, once the header matched and the timestamp parsed. */
  lemma ParseLineRule(line: string, parseTs: string -> Option<int>, m: HeaderMatch, ts: int)
    requires MatchHeader(Strip(line)) == Some(m) && parseTs(m.timestamp) == Some(ts)
    ensures ParseLine(line, parseTs) == ApplyRules(Strip(m.program), m.message, ts, m.hostname)
    ensures NoNewline(m.message) && m.hostname != [] && NoSpace(m.hostname)
  {
    StripEmptyIffAllSpace(line);
  }

  /** A timestamp the parser rejects drops the line. */
  lemma UnparsedTimestampDropsLine(line: string, parseTs: string -> Option<int>, m: HeaderMatch)
    requires MatchHeader(Strip(line)) == Some(m) && parseTs(m.timestamp).None?
    ensures ParseLine(line, parseTs).None?
  {
  }

  /** Where `COMMAND=(.*)` matches and what it captures: the text after the
      marker up to the end of the line. */
  lemma CommandTextAt(s: string, k: nat)
    requires k <= |s|
    ensures MatchAt(CommandText, s, k).Some? <==> OccursAt(s, "COMMAND=", k)
    ensures OccursAt(s, "COMMAND=", k) ==>
              MatchAt(CommandText, s, k) == Some([s[k + 8..SkipWhile(s, k + 8, NotNewline)]])
  {
    assert CommandText[0] == Lit("COMMAND=") && CommandText[1..] == [RestOfLine] && [RestOfLine][1..] == [];
    if OccursAt(s, "COMMAND=", k) {
      var j := SkipWhile(s, k + 8, NotNewline);
      var rest: Pattern := [RestOfLine];
      assert rest[0] == RestOfLine && rest[1..] == [];
      assert MatchAt(rest[1..], s, j) == Some([]);
      assert MatchAt(rest, s, k + 8) == Prepend(rest, s[k + 8..j], Some([]));
      assert [s[k + 8..j]] + [] == [s[k + 8..j]];
    }
  }

  /** `COMMAND=(.*)` is found at the first occurrence of the marker. */
  lemma FirstCommandMarker(msg: string) returns (k: nat)
    requires Contains(msg, "COMMAND=")
    ensures OccursAt(msg, "COMMAND=", k) && forall j :: 0 <= j < k ==> !OccursAt(msg, "COMMAND=", j)
    ensures Find(CommandText, msg) == MatchAt(CommandText, msg, k)
  {
    var i :| 0 <= i <= |msg| - 8 && OccursAt(msg, "COMMAND=", i);
    CommandTextAt(msg, i);
    var r := Find(CommandText, msg);
    k :| 0 <= k <= |msg| && MatchAt(CommandText, msg, k) == r
         && forall j :: 0 <= j < k ==> MatchAt(CommandText, msg, j).None?;
    CommandTextAt(msg, k);
    forall j | 0 <= j < k ensures !OccursAt(msg, "COMMAND=", j) {
      CommandTextAt(msg, j);
    }
  }

  /** On a one-line message holding "COMMAND=", the command is everything after
      the first occurrence of the marker. */
  lemma CommandIsRestAfterFirstMarker(msg: string) returns (k: nat)
    requires NoNewline(msg) && Contains(msg, "COMMAND=")
    ensures OccursAt(msg, "COMMAND=", k) && forall j :: 0 <= j < k ==> !OccursAt(msg, "COMMAND=", j)
    ensures CommandAfterMarker(msg) == Some(msg[k + 8..])
  {
    k := FirstCommandMarker(msg);
    CommandTextAt(msg, k);
    assert forall j :: k + 8 <= j < |msg| ==> NotNewline(msg[j]);
    SkipWhileAt(msg, k + 8, |msg|, NotNewline);
    assert msg[k + 8..|msg|] == msg[k + 8..];
  }

  /** A sudo line running a command as root, with a leading `name :`, is a
      privilege escalation of that name carrying the trimmed text after the first
      "COMMAND=". */
  lemma SudoRootCommand(msg: string, ts: int, host: string) returns (k: nat)
    requires NoNewline(msg) && Contains(msg, "COMMAND=") && Contains(msg, "USER=root")
    requires LeadingName(msg).Some?
    ensures OccursAt(msg, "COMMAND=", k) && forall j :: 0 <= j < k ==> !OccursAt(msg, "COMMAND=", j)
    ensures SudoRule(msg, ts, host)
            == Some(PrivilegeEscalation(ts, host, LeadingName(msg).value, Strip(msg[k + 8..]), None, None, None))
  {
    k := CommandIsRestAfterFirstMarker(msg);
  }

  /** An accepted public key with "for X from Y" somewhere is a login, with the
      user and address of the leftmost such phrase. */
  lemma AcceptedKeyIsLogin(msg: string, ts: int, host: string, k: nat)
    requires Contains(msg, "Accepted publickey") && k <= |msg| && MatchAt(ForFrom, msg, k).Some?
    ensures SshdRule(msg, ts, host).Some? && SshdRule(msg, ts, host).value.SshLogin?
    ensures var e := SshdRule(msg, ts, host).value;
            exists j :: 0 <= j <= k && MatchAt(ForFrom, msg, j) == Some([e.user, e.ip])
  {
  }

  /** The tail pattern run over a laid-out "word from word". */
  /** `s[i..a]` and `s[a + 6..e]` are whole words around " from ". */
  predicate WordFromWord(s: string, i: nat, a: nat, e: nat) {
    && i < a && a + 6 < e <= |s|
    && (forall k :: i <= k < a ==> NotSpace(s[k]))
    && IsSpace(s[a]) && !IsSpace(s[a + 1]) && OccursAt(s, "from", a + 1)
    && IsSpace(s[a + 5]) && !IsSpace(s[a + 6])
    && (forall k :: a + 6 <= k < e ==> NotSpace(s[k]))
    && (e == |s| || IsSpace(s[e]))
  }

  lemma UserFromSteps(s: string, i: nat, a: nat, e: nat)
    requires WordFromWord(s, i, a, e)
    ensures MatchAt(UserFrom, s, i) == Some([s[i..a], s[a + 6..e]])
  {
    var p1 := UserFrom[1..];
    var p2 := p1[1..];
    var p3 := p2[1..];
    var p4 := p3[1..];
    assert p1[0] == Spaces && p2[0] == Lit("from") && p3[0] == Spaces && p4[0] == Token && p4[1..] == [];
    assert UserFrom[0] == Token;
    TokenStep(UserFrom, s, i, a);
    SpacesStep(p1, s, a, a + 1);
    LitStep(p2, s, a + 1, "from");
    assert a + 1 + |"from"| == a + 5;
    SpacesStep(p3, s, a + 5, a + 6);
    TokenStep(p4, s, a + 6, e);
    assert MatchAt(p4[1..], s, e) == Some([]);
    assert MatchAt(p1, s, a) == Some([s[a + 6..e]] + []);
    assert [s[a + 6..e]] + [] == [s[a + 6..e]];
    assert [s[i..a]] + [s[a + 6..e]] == [s[i..a], s[a + 6..e]];
  }



  /** A literal followed by `\s+`: the literal hands over to the run of whitespace. */
  lemma LitThenSpaces(rest: Pattern, s: string, i: nat, t: string)
    requires OccursAt(s, t, i)
    ensures MatchAt([Lit(t), Spaces] + rest, s, i) == MatchAt([Spaces] + rest, s, i + |t|)
  {
    var p := [Lit(t), Spaces] + rest;
    assert p[1..] == [Spaces] + rest;
    LitStep(p, s, i, t);
  }

  /** `\s+` over a single whitespace character hands over to the rest. */
  lemma SpacesThen(rest: Pattern, s: string, j: nat)
    requires j + 1 < |s| && IsSpace(s[j]) && !IsSpace(s[j + 1])
    ensures MatchAt([Spaces] + rest, s, j) == MatchAt(rest, s, j + 1)
  {
    var p := [Spaces] + rest;
    assert p[1..] == rest;
    SpacesStep(p, s, j, j + 1);
  }

  /** A pattern that starts with a literal and `\s+`, where the literal occurs
      followed by exactly one whitespace character, hands over to the rest of
      the pattern. */
  lemma PrefixSteps(rest: Pattern, s: string, i: nat, t: string)
    requires i + |t| + 1 < |s| && OccursAt(s, t, i) && IsSpace(s[i + |t|]) && !IsSpace(s[i + |t| + 1])
    ensures MatchAt([Lit(t), Spaces] + rest, s, i) == MatchAt(rest, s, i + |t| + 1)
  {
    LitThenSpaces(rest, s, i, t);
    SpacesThen(rest, s, i + |t|);
  }

  /** Where the characters of "u from ip" sit after the prefix. */
  lemma UserFromLayout(pre: string, u: string, ip: string, rest: string, s: string, i: nat, a: nat, e: nat)
    requires IsWord(u) && IsWord(ip) && (rest == [] || IsSpace(rest[0]))
    requires s == pre + u + " from " + ip + rest && i == |pre| && a == i + |u| && e == a + 6 + |ip|
    ensures s[..i] == pre && WordFromWord(s, i, a, e) && s[i..a] == u && s[a + 6..e] == ip
  {
    assert s[..i] == pre;
    forall k | i <= k < a ensures NotSpace(s[k]) {
      assert s[k] == u[k - i];
    }
    assert s[a] == ' ' && s[a + 1] == 'f' && s[a + 2] == 'r' && s[a + 3] == 'o' && s[a + 4] == 'm';
    assert s[a + 1..a + 5] == "from";
    assert s[a + 5] == ' ' && s[a + 6] == ip[0];
    forall k | a + 6 <= k < e ensures NotSpace(s[k]) {
      assert s[k] == ip[k - a - 6];
    }
    assert e < |s| ==> s[e] == rest[0];
    assert s[i..a] == u;
    assert s[a + 6..e] == ip;
  }

  /** A literal inside a known prefix of `s` occurs in `s`. */
  lemma OccursInPrefix(s: string, pre: string, j: nat, t: string)
    requires |pre| <= |s| && s[..|pre|] == pre && j + |t| <= |pre| && pre[j..j + |t|] == t
    ensures OccursAt(s, t, j)
  {
    assert s[j..j + |t|] == s[..|pre|][j..j + |t|];
  }

  /** Where the failed-login search finds its first hit at `i`, the failure
      carries that hit's two words. */
  lemma FailureAtFirstHit(msg: string, ts: int, host: string, i: nat, u: string, ip: string)
    requires !Contains(msg, "Accepted publickey")
    requires Contains(msg, "Failed password") || Contains(msg, "Invalid user")
    requires i <= |msg| && FirstAlt([ForInvalidFrom, ForFrom], msg, i) == Some([u, ip])
    requires forall k :: 0 <= k < i ==> FirstAlt([ForInvalidFrom, ForFrom], msg, k).None?
    ensures SshdRule(msg, ts, host) == Some(SshFailure(ts, host, u, ip))
  {
    FailureAlternatives();
    var hit := Search([ForInvalidFrom, ForFrom], msg);
    assert hit.Some? && hit.value.at == i;
  }

  /** No "for" at position `k`: neither failed-login alternative matches there. */
  lemma NoForNoHit(msg: string, k: nat)
    requires k <= |msg| && !OccursAt(msg, "for", k)
    ensures FirstAlt([ForInvalidFrom, ForFrom], msg, k).None?
  {
    assert ForInvalidFrom[0] == Lit("for") && ForFrom[0] == Lit("for");
    assert MatchAt(ForInvalidFrom, msg, k).None? && MatchAt(ForFrom, msg, k).None?;
    assert [ForInvalidFrom, ForFrom][1..] == [ForFrom] && [ForFrom][1..] == [];
    assert FirstAlt([ForFrom], msg, k) == FirstAlt([], msg, k) == None;
  }

  /** Where the words of "Failed password for " sit, and that no "for"
      starts before position 16. */
  lemma FailedPasswordLayout(msg: string)
    requires 20 <= |msg| && msg[..20] == "Failed password for "
    ensures OccursAt(msg, "Failed password", 0) && OccursAt(msg, "for", 16) && IsSpace(msg[19])
    ensures forall k :: 0 <= k < 16 ==> !OccursAt(msg, "for", k)
  {
    var pre := "Failed password for ";
    assert msg[..15] == msg[..20][..15] == pre[..15];
    assert msg[16..19] == msg[..20][16..19] == pre[16..19];
    assert msg[19] == msg[..20][19] == pre[19];
    assert 'f' !in pre[..16];
    forall k | 0 <= k < 16 ensures !OccursAt(msg, "for", k) {
      assert msg[k] == msg[..20][k] == pre[..16][k];
      assert msg[k..k + 3][0] == msg[k] != 'f';
    }
  }

  /** Where "invalid user " sits after "Failed password for ". */
  lemma InvalidUserLayout(msg: string)
    requires 33 <= |msg| && msg[..33] == "Failed password for invalid user "
    ensures msg[..20] == "Failed password for " && msg[20] == 'i'
    ensures OccursAt(msg, "invalid user", 20) && IsSpace(msg[32])
  {
    var pre := "Failed password for invalid user ";
    assert msg[..20] == msg[..33][..20] == pre[..20];
    assert msg[20] == msg[..33][20] == pre[20];
    assert msg[20..32] == msg[..33][20..32] == pre[20..32];
    assert msg[32] == msg[..33][32] == pre[32];
  }

  /** Neither failed-login alternative matches before position 16 of a message
      opening with "Failed password for ". */
  lemma NoHitBeforeFor(msg: string)
    requires 16 <= |msg| && forall k :: 0 <= k < 16 ==> !OccursAt(msg, "for", k)
    ensures forall k :: 0 <= k < 16 ==> FirstAlt([ForInvalidFrom, ForFrom], msg, k).None?
  {
    forall k | 0 <= k < 16 ensures FirstAlt([ForInvalidFrom, ForFrom], msg, k).None? {
      NoForNoHit(msg, k);
    }
  }

  /** "u from ip" straight after the prefix is not "invalid user": the
      optional words of the first failed-login alternative find nothing there. */
  lemma NotInvalidUserAfter(pre: string, u: string, ip: string, rest: string)
    requires IsWord(u)
    ensures !OccursAt(pre + u + " from " + ip + rest, "invalid user", |pre|)
  {
    var s := pre + u + " from " + ip + rest;
    var n, t := |pre|, "invalid user";
    var k := if |u| < 7 then |u| else if |u| == 7 then 8 else 7;
    assert n + k < |s| && s[n + k] != t[k] by {
      if |u| < 7 {
        assert s[n + |u|] == ' ';
      } else if |u| == 7 {
        assert s[n + 8] == 'f';
      } else {
        assert s[n + 7] == u[7];
      }
    }
    assert n + 12 <= |s| ==> s[n..n + 12][k] == s[n + k];
  }

  /** "for invalid user u from ip" at 16: the first alternative's hit. */
  lemma InvalidHitAt(msg: string, a: nat, e: nat)
    requires 33 <= |msg| && msg[..33] == "Failed password for invalid user " && WordFromWord(msg, 33, a, e)
    ensures FirstAlt([ForInvalidFrom, ForFrom], msg, 16) == Some([msg[33..a], msg[a + 6..e]])
  {
    LoginPatternParts();
    InvalidUserLayout(msg);
    FailedPasswordLayout(msg);
    UserFromSteps(msg, 33, a, e);
    PrefixSteps(UserFrom, msg, 20, "invalid user");
    PrefixSteps(InvalidUserTail, msg, 16, "for");
  }

  /** "for u from ip" at 16 with no "invalid user" after it: the first
      alternative fails and the second one's hit is taken. */
  lemma PlainHitAt(msg: string, a: nat, e: nat)
    requires 20 <= |msg| && msg[..20] == "Failed password for " && WordFromWord(msg, 20, a, e)
    requires !OccursAt(msg, "invalid user", 20)
    ensures FirstAlt([ForInvalidFrom, ForFrom], msg, 16) == Some([msg[20..a], msg[a + 6..e]])
  {
    LoginPatternParts();
    FailedPasswordLayout(msg);
    UserFromSteps(msg, 20, a, e);
    PrefixSteps(UserFrom, msg, 16, "for");
    assert MatchAt(ForInvalidFrom, msg, 16).None? by {
      LitStep(ForInvalidFrom, msg, 16, "for");
      SkipWhileAt(msg, 19, 20, IsSpace);
      assert ForInvalidFrom[1..][0] == Spaces && ForInvalidFrom[1..][1..] == InvalidUserTail;
      assert InvalidUserTail[0] == Lit("invalid user");
    }
    assert [ForInvalidFrom, ForFrom][1..] == [ForFrom];
  }

  /** A message opening with "Failed password for invalid user " and then
      "u from ip": the failure of `u` from `ip`. */
  lemma FailedPasswordInvalidAt(msg: string, u: string, ip: string, a: nat, e: nat, ts: int, host: string)
    requires 33 <= |msg| && msg[..33] == "Failed password for invalid user " && WordFromWord(msg, 33, a, e)
    requires msg[33..a] == u && msg[a + 6..e] == ip
    requires !Contains(msg, "Accepted publickey")
    ensures SshdRule(msg, ts, host) == Some(SshFailure(ts, host, u, ip))
  {
    InvalidHitAt(msg, a, e);
    InvalidUserLayout(msg);
    FailedPasswordLayout(msg);
    NoHitBeforeFor(msg);
    FailureAtFirstHit(msg, ts, host, 16, u, ip);
  }

  /** A message opening with "Failed password for " and then "u from ip",
      where `u` is not "invalid user": the failure of `u` from `ip`. */
  lemma FailedPasswordPlainAt(msg: string, u: string, ip: string, a: nat, e: nat, ts: int, host: string)
    requires 20 <= |msg| && msg[..20] == "Failed password for " && WordFromWord(msg, 20, a, e)
    requires msg[20..a] == u && msg[a + 6..e] == ip && !OccursAt(msg, "invalid user", 20)
    requires !Contains(msg, "Accepted publickey")
    ensures SshdRule(msg, ts, host) == Some(SshFailure(ts, host, u, ip))
  {
    PlainHitAt(msg, a, e);
    FailedPasswordLayout(msg);
    NoHitBeforeFor(msg);
    FailureAtFirstHit(msg, ts, host, 16, u, ip);
  }

  /** No "for" anywhere: the two-alternative search finds nothing. */
  lemma NoForNoFailureHit(msg: string)
    requires !Contains(msg, "for")
    ensures FailureSearch(msg).None?
  {
    FailureAlternatives();
    forall k | 0 <= k <= |msg| ensures FirstAlt([ForInvalidFrom, ForFrom], msg, k).None? {
      NoForNoHit(msg, k);
    }
  }

  /** "Invalid user u from ip" at the start of `msg`: the fallback pattern's
      leftmost match. */
  lemma InvalidUserFromAtStart(msg: string, a: nat, e: nat)
    requires 13 <= |msg| && msg[..13] == "Invalid user " && WordFromWord(msg, 13, a, e)
    ensures Find(InvalidUserFrom, msg) == Some([msg[13..a], msg[a + 6..e]])
    ensures OccursAt(msg, "Invalid user", 0)
  {
    var pre := "Invalid user ";
    assert msg[..12] == msg[..13][..12] == pre[..12];
    assert msg[12] == msg[..13][12] == pre[12];
    LoginPatternParts();
    UserFromSteps(msg, 13, a, e);
    PrefixSteps(UserFrom, msg, 0, "Invalid user");
    var r := Find(InvalidUserFrom, msg);
    if r.None? {
      assert false;
    }
    var k :| 0 <= k <= |msg| && MatchAt(InvalidUserFrom, msg, k) == r
             && forall j :: 0 <= j < k ==> MatchAt(InvalidUserFrom, msg, j).None?;
    assert k == 0;
  }

  /** A message opening with "Invalid user u from ip" and holding no "for":
      the failure of `u` from `ip`, found by the fallback search. */
  lemma InvalidUserFallbackAt(msg: string, u: string, ip: string, a: nat, e: nat, ts: int, host: string)
    requires 13 <= |msg| && msg[..13] == "Invalid user " && WordFromWord(msg, 13, a, e)
    requires msg[13..a] == u && msg[a + 6..e] == ip
    requires !Contains(msg, "for") && !Contains(msg, "Accepted publickey")
    ensures SshdRule(msg, ts, host) == Some(SshFailure(ts, host, u, ip))
  {
    NoForNoFailureHit(msg);
    InvalidUserFromAtStart(msg, a, e);
  }

  /** "Failed password for u from ip …": the failure of user `u` from `ip`,
      the optional "invalid user" having nothing to match. */
  lemma FailedPasswordParties(u: string, ip: string, rest: string, ts: int, host: string)
    requires IsWord(u) && IsWord(ip) && (rest == [] || IsSpace(rest[0]))
    requires !Contains("Failed password for " + u + " from " + ip + rest, "Accepted publickey")
    ensures SshdRule("Failed password for " + u + " from " + ip + rest, ts, host)
            == Some(SshFailure(ts, host, u, ip))
  {
    var pre := "Failed password for ";
    var msg := pre + u + " from " + ip + rest;
    UserFromLayout(pre, u, ip, rest, msg, 20, 20 + |u|, 26 + |u| + |ip|);
    NotInvalidUserAfter(pre, u, ip, rest);
    FailedPasswordPlainAt(msg, u, ip, 20 + |u|, 26 + |u| + |ip|, ts, host);
  }

  /** "Failed password for invalid user u from ip …": the failure of user `u`,
      the "invalid user" words skipped. */
  lemma InvalidUserPasswordParties(u: string, ip: string, rest: string, ts: int, host: string)
    requires IsWord(u) && IsWord(ip) && (rest == [] || IsSpace(rest[0]))
    requires !Contains("Failed password for invalid user " + u + " from " + ip + rest, "Accepted publickey")
    ensures SshdRule("Failed password for invalid user " + u + " from " + ip + rest, ts, host)
            == Some(SshFailure(ts, host, u, ip))
  {
    var pre := "Failed password for invalid user ";
    var msg := pre + u + " from " + ip + rest;
    UserFromLayout(pre, u, ip, rest, msg, 33, 33 + |u|, 39 + |u| + |ip|);
    FailedPasswordInvalidAt(msg, u, ip, 33 + |u|, 39 + |u| + |ip|, ts, host);
  }

  /** A failed sudo authentication takes its user from `user=` when present and
      from the leading `name :` otherwise. */
  lemma SudoFailureUserPreference(msg: string, ts: int, host: string)
    requires !(Contains(msg, "COMMAND=") && Contains(msg, "USER=root"))
    requires Contains(msg, "authentication failure") || Contains(msg, "conversation failed")
    ensures AssignedUser(msg).Some? ==>
              SudoRule(msg, ts, host) == Some(AuthFailure(ts, host, AssignedUser(msg).value, "sudo", "high"))
    ensures AssignedUser(msg).None? && LeadingName(msg).Some? ==>
              SudoRule(msg, ts, host) == Some(AuthFailure(ts, host, LeadingName(msg).value, "sudo", "high"))
    ensures AssignedUser(msg).None? && LeadingName(msg).None? ==> SudoRule(msg, ts, host).None?
  {
  }

  /** A failed su authentication is an event exactly when it names a `user=`. */
  lemma SuFailureNeedsUser(msg: string, ts: int, host: string)
    requires !Contains(msg, "session opened for user") && Contains(msg, "authentication failure")
    ensures SuRule(msg, ts, host).Some? <==> AssignedUser(msg).Some?
    ensures AssignedUser(msg).Some? ==>
              SuRule(msg, ts, host) == Some(AuthFailure(ts, host, AssignedUser(msg).value, "su", "high"))
  {
  }

  /** An opened su session "user T by U(" is the escalation of U to T. */
  lemma SuSessionIsEscalation(msg: string, ts: int, host: string)
    requires Contains(msg, "session opened for user") && SessionParties(msg).Some?
    ensures var (target, u) := SessionParties(msg).value;
            SuRule(msg, ts, host)
            == Some(PrivilegeEscalation(ts, host, u, "su to " + target, Some(target), Some("su"), Some("medium")))
  {
  }
}
