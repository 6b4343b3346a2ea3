/** The command classifier of the signal pipeline: an ordered table of
    substring patterns, each with the intent, MITRE technique, compliance
    control and risk weight it stands for. The first pattern that occurs in a
    command decides; a command no pattern matches is general administration.
    Risk weights are kept in tenths (0.4 is 4). */
module CommandClassifier {
  import opened Text

  datatype Meta = Meta(intent: string, mitre: string, compliance: string, weight: nat)

  /** One alternative of a pattern: a literal searched anywhere in the command,
      or `ssh/.*_id`, which is "ssh/" followed later on the same line by "_id". */
  datatype Alt = Word(text: string) | SshKeyPath

  predicate AltMatches(a: Alt, cmd: string) {
    match a
    case Word(t) => Contains(cmd, t)
    case SshKeyPath =>
      exists i, j :: 0 <= i && i + 4 <= j <= |cmd| && OccursAt(cmd, "ssh/", i) && OccursAt(cmd, "_id", j)
                     && NoNewline(cmd[i + 4..j])
  }

  /** `re.search` of an alternation: some alternative occurs. */
  predicate PatternMatches(alts: seq<Alt>, cmd: string) {
    exists a :: a in alts && AltMatches(a, cmd)
  }

  datatype Rule = Rule(alts: seq<Alt>, meta: Meta)

  const MaintenanceRule: Rule :=
    Rule([Word("apt"), Word("dpkg"), Word("snap"), Word("flatpak"), Word("pip")],
         Meta("Maintenance", "T1072", "SOC2_CC7.1", 1))
  const IdentityRule: Rule :=
    Rule([Word("useradd"), Word("usermod"), Word("userdel"), Word("passwd"), Word("visudo"),
          Word("groupadd"), Word("groupmod"), Word("sudoers")],
         Meta("Identity Management", "T1078", "SOC2_CC6.1", 4))
  const TransferRule: Rule :=
    Rule([Word("ssh"), Word("scp"), Word("sftp"), Word("rsync"), Word("curl"), Word("wget")],
         Meta("Lateral Movement / Data Transfer", "T1021", "SOC2_CC6.6", 2))
  const CredentialRule: Rule :=
    Rule([Word("shadow"), Word("gshadow"), Word("private-key"), SshKeyPath],
         Meta("Credential Access", "T1003", "SOC2_CC6.1", 6))
  const NetworkRule: Rule :=
    Rule([Word("ufw"), Word("iptables"), Word("firewall"), Word("nft"), Word("ip ")],
         Meta("Network Configuration", "T1562", "SOC2_CC6.6", 3))
  const DestructiveRule: Rule :=
    Rule([Word("rm -rf /"), Word("dd "), Word("mkfs"), Word("shutdown"), Word("reboot")],
         Meta("Impact / Destructive", "T1485", "SOC2_CC7.1", 8))

  /** The table, in the order the classifier tries it. */
  const Rules: seq<Rule> :=
    [MaintenanceRule, IdentityRule, TransferRule, CredentialRule, NetworkRule, DestructiveRule]

  /** What an unmatched command is classified as. */
  const Default: Meta := Meta("General Administration", "N/A", "N/A", 0)

  /** The metadata of the first rule of `rules` whose pattern occurs in `cmd`. */
  function FirstMatch(rules: seq<Rule>, cmd: string): (r: Meta)
    ensures (exists k :: 0 <= k < |rules| && PatternMatches(rules[k].alts, cmd) && r == rules[k].meta
               && forall j :: 0 <= j < k ==> !PatternMatches(rules[j].alts, cmd))
            || ((forall k :: 0 <= k < |rules| ==> !PatternMatches(rules[k].alts, cmd)) && r == Default)
  {
    if rules == [] then Default
    else if PatternMatches(rules[0].alts, cmd) then rules[0].meta
    else
      var r := FirstMatch(rules[1..], cmd);
      assert forall k :: 1 <= k < |rules| ==> rules[k] == rules[1..][k - 1];
      r
  }

  /** `categorize_command`: the first matching rule's metadata, later rules
      ignored; the default when no rule matches. */
  function Categorize(cmd: string): (r: Meta)
    ensures (exists k :: 0 <= k < |Rules| && PatternMatches(Rules[k].alts, cmd) && r == Rules[k].meta
               && forall j :: 0 <= j < k ==> !PatternMatches(Rules[j].alts, cmd))
            || ((forall k :: 0 <= k < |Rules| ==> !PatternMatches(Rules[k].alts, cmd)) && r == Default)
  {
    FirstMatch(Rules, cmd)
  }

  /** The k-th rule decides as soon as it matches and no earlier rule does. */
  lemma CategorizeAt(cmd: string, k: nat)
    requires k < |Rules| && PatternMatches(Rules[k].alts, cmd)
    requires forall j :: 0 <= j < k ==> !PatternMatches(Rules[j].alts, cmd)
    ensures Categorize(cmd) == Rules[k].meta
  {
  }

  /** The result is the default exactly when no rule matches; every weight is
      at most 0.8. */
  lemma CategorizeDefault(cmd: string)
    ensures Categorize(cmd) == Default <==> forall k :: 0 <= k < |Rules| ==> !PatternMatches(Rules[k].alts, cmd)
    ensures Categorize(cmd).weight <= 8
  {
    assert forall k :: 0 <= k < |Rules| ==> 1 <= Rules[k].meta.weight <= 8;
  }

  /** A command with both "useradd" and "scp" and no maintenance keyword is an
      identity-management command: the identity rule comes before the transfer rule. */
  lemma UseraddBeatsScp(cmd: string)
    requires Contains(cmd, "useradd") && Contains(cmd, "scp")
    requires !PatternMatches(Rules[0].alts, cmd)
    ensures Categorize(cmd) == Meta("Identity Management", "T1078", "SOC2_CC6.1", 4)
    ensures PatternMatches(Rules[2].alts, cmd)
  {
    assert AltMatches(Rules[1].alts[0], cmd);
    assert AltMatches(Rules[2].alts[1], cmd);
    CategorizeAt(cmd, 1);
  }

  /** A command naming an ssh key path ("ssh/" then "_id"), with no maintenance
      or identity keyword, is classified as lateral movement and never as
      credential access: "ssh" alone already matches the earlier transfer rule. */
  lemma SshKeyPathIsLateralMovement(cmd: string, i: nat, j: nat)
    requires i + 4 <= j && OccursAt(cmd, "ssh/", i) && OccursAt(cmd, "_id", j) && NoNewline(cmd[i + 4..j])
    requires !PatternMatches(Rules[0].alts, cmd) && !PatternMatches(Rules[1].alts, cmd)
    ensures PatternMatches(Rules[3].alts, cmd)
    ensures Categorize(cmd).intent == "Lateral Movement / Data Transfer"
  {
    assert AltMatches(Rules[3].alts[3], cmd);
    assert cmd[i..i + 3] == "ssh" by { assert cmd[i..i + 3] == cmd[i..i + 4][..3]; }
    assert OccursAt(cmd, "ssh", i);
    assert AltMatches(Rules[2].alts[0], cmd);
    CategorizeAt(cmd, 2);
  }

  /** A word with a character the command lacks does not occur in it. */
  lemma LackedCharNotContained(s: string, pat: string, c: char)
    requires c in pat && c !in s
    ensures !Contains(s, pat)
  {
    var m :| 0 <= m < |pat| && pat[m] == c;
    forall i | 0 <= i <= |s| - |pat|
      ensures !OccursAt(s, pat, i)
    {
      assert s[i..i + |pat|][m] == s[i + m];
    }
  }

  /** Lacking these characters rules out every keyword of the table: each
      keyword holds one of them, or both of "a" and "r", or both of "c" and "u". */
  predicate LacksKeywordChars(s: string) {
    't' !in s && 'k' !in s && 's' !in s && 'i' !in s && 'm' !in s && 'w' !in s
    && 'f' !in s && 'v' !in s && 'b' !in s && ' ' !in s
    && ('a' !in s || 'r' !in s) && ('c' !in s || 'u' !in s)
  }

  /** No maintenance keyword occurs in a command without "t", "k" and "i" and
      without one of "s" and "n". */
  lemma NoMaintenanceKeyword(s: string)
    requires 't' !in s && 'k' !in s && 'i' !in s && ('s' !in s || 'n' !in s)
    ensures !PatternMatches(MaintenanceRule.alts, s)
  {
    LackedCharNotContained(s, "apt", 't');
    LackedCharNotContained(s, "dpkg", 'k');
    if 's' !in s { LackedCharNotContained(s, "snap", 's'); } else { LackedCharNotContained(s, "snap", 'n'); }
    LackedCharNotContained(s, "flatpak", 't');
    LackedCharNotContained(s, "pip", 'i');
  }

  lemma NoIdentityKeyword(s: string)
    requires LacksKeywordChars(s)
    ensures !PatternMatches(IdentityRule.alts, s)
  {
    LackedCharNotContained(s, "useradd", 's');
    LackedCharNotContained(s, "usermod", 's');
    LackedCharNotContained(s, "userdel", 's');
    LackedCharNotContained(s, "passwd", 's');
    LackedCharNotContained(s, "visudo", 's');
    if 'a' !in s { LackedCharNotContained(s, "groupadd", 'a'); } else { LackedCharNotContained(s, "groupadd", 'r'); }
    LackedCharNotContained(s, "groupmod", 'm');
    LackedCharNotContained(s, "sudoers", 's');
  }

  lemma NoTransferKeyword(s: string)
    requires LacksKeywordChars(s)
    ensures !PatternMatches(TransferRule.alts, s)
  {
    LackedCharNotContained(s, "ssh", 's');
    LackedCharNotContained(s, "scp", 's');
    LackedCharNotContained(s, "sftp", 's');
    LackedCharNotContained(s, "rsync", 's');
    if 'c' !in s { LackedCharNotContained(s, "curl", 'c'); } else { LackedCharNotContained(s, "curl", 'u'); }
    LackedCharNotContained(s, "wget", 'w');
  }

  lemma NoCredentialKeyword(s: string)
    requires LacksKeywordChars(s)
    ensures !PatternMatches(CredentialRule.alts, s)
  {
    LackedCharNotContained(s, "shadow", 's');
    LackedCharNotContained(s, "gshadow", 's');
    LackedCharNotContained(s, "private-key", 'v');
    LackedCharNotContained(s, "ssh/", 's');
  }

  lemma NoNetworkKeyword(s: string)
    requires LacksKeywordChars(s)
    ensures !PatternMatches(NetworkRule.alts, s)
  {
    LackedCharNotContained(s, "ufw", 'f');
    LackedCharNotContained(s, "iptables", 'i');
    LackedCharNotContained(s, "firewall", 'f');
    LackedCharNotContained(s, "nft", 'f');
    LackedCharNotContained(s, "ip ", 'i');
  }

  lemma NoDestructiveKeyword(s: string)
    requires LacksKeywordChars(s)
    ensures !PatternMatches(DestructiveRule.alts, s)
  {
    LackedCharNotContained(s, "rm -rf /", 'm');
    LackedCharNotContained(s, "dd ", ' ');
    LackedCharNotContained(s, "mkfs", 'm');
    LackedCharNotContained(s, "shutdown", 's');
    LackedCharNotContained(s, "reboot", 'b');
  }

  /** A command lacking those characters matches no rule and is general
      administration. */
  lemma LackingKeywordCharsIsDefault(s: string)
    requires LacksKeywordChars(s)
    ensures forall k :: 0 <= k < |Rules| ==> !PatternMatches(Rules[k].alts, s)
    ensures Categorize(s) == Default
  {
    NoMaintenanceKeyword(s);
    NoIdentityKeyword(s);
    NoTransferKeyword(s);
    NoCredentialKeyword(s);
    NoNetworkKeyword(s);
    NoDestructiveKeyword(s);
    forall k | 0 <= k < |Rules| ensures !PatternMatches(Rules[k].alts, s) {
      assert Rules[k] in Rules;
    }
    CategorizeDefault(s);
  }

  /** A program name that is an identity keyword and holds no maintenance
      keyword is identity management, weight 0.4. */
  lemma IdentityProgram(p: string, k: nat)
    requires k < |IdentityRule.alts| && IdentityRule.alts[k] == Word(p)
    requires 't' !in p && 'k' !in p && 'i' !in p && 'n' !in p
    ensures Categorize(p) == IdentityRule.meta
  {
    NoMaintenanceKeyword(p);
    assert OccursAt(p, p, 0);
    assert AltMatches(Word(p), p);
    CategorizeAt(p, 1);
  }

  /** Of the identity programs the event extractor recognises, groupdel and
      chage are no keyword of the table: general administration, weight 0. */
  lemma UnlistedIdentityPrograms(p: string)
    requires p == "groupdel" || p == "chage"
    ensures Categorize(p) == Default
  {
    if p == "groupdel" {
      CharsWithin(p, {'g', 'r', 'o', 'u', 'p', 'd', 'e', 'l'});
    } else {
      CharsWithin(p, {'c', 'h', 'a', 'g', 'e'});
    }
    LackingKeywordCharsIsDefault(p);
  }

  /** A character outside a set that holds every character of a text is not in the text. */
  lemma CharsWithin(p: string, cs: set<char>)
    requires forall k :: 0 <= k < |p| ==> p[k] in cs
    ensures forall c :: c !in cs ==> c !in p
  {
  }

  /** Of the identity programs the event extractor recognises, the five the
      identity rule names are classified by it. */
  lemma ListedIdentityPrograms(p: string)
    requires p == "useradd" || p == "usermod" || p == "userdel" || p == "groupadd" || p == "groupmod"
    ensures Categorize(p) == IdentityRule.meta
  {
    if p == "useradd" || p == "usermod" || p == "userdel" {
      UserPrograms(p);
    } else if p == "groupadd" {
      IdentityProgram(p, 5);
    } else {
      IdentityProgram(p, 6);
    }
  }

  lemma UserPrograms(p: string)
    requires p == "useradd" || p == "usermod" || p == "userdel"
    ensures Categorize(p) == IdentityRule.meta
  {
    if p == "useradd" {
      IdentityProgram(p, 0);
    } else if p == "usermod" {
      IdentityProgram(p, 1);
    } else {
      IdentityProgram(p, 2);
    }
  }
}
