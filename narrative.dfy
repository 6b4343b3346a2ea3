/** `generate_narrative` and `generate_recommendation`: the deterministic
    templates the pipeline writes into every signal when no language-model text
    is available. Both read the signal as a dictionary: `data[key]` raises on a
    missing key, `data.get(key, default)` does not. */
module Narrative {
  import opened Wrappers
  import opened Text
  import opened RiskScorer
  import opened WindowAggregator
  import opened Emission

  /** The keys of a signal dictionary that the templates read; a missing key is
      `None`. Intent weights are in tenths and risk scores in hundredths. */
  datatype SignalData = SignalData(
    user: Option<string>, pattern: Option<string>, ipCount: Option<int>,
    intent: Option<string>, intentWeight: Option<int>, program: Option<string>,
    ip: Option<string>, source: Option<string>, failureCount: Option<int>,
    riskScore: Option<int>)

  /** The dictionary of an emitted signal, restricted to those keys. */
  function DataOf(s: Signal): (d: SignalData)
    ensures d.user == Some(s.user) && d.riskScore == Some(s.riskScore)
  {
    match s
    case AccessPattern(_, _, _, user, _, ipCount, pattern, _, risk) =>
      SignalData(Some(user), Some(pattern), Some(ipCount), None, None, None, None, None, None, Some(risk))
    case PrivilegeWindow(_, _, _, user, intent, weight, _, _, _, _, risk) =>
      SignalData(Some(user), None, None, Some(intent), Some(weight), None, None, None, None, Some(risk))
    case IamSignal(_, _, _, user, program, intent, weight, _, _, _, _, risk) =>
      SignalData(Some(user), None, None, Some(intent), Some(weight), Some(program), None, None, None, Some(risk))
    case BruteForce(_, _, _, user, ip, count, _, risk) =>
      SignalData(Some(user), None, None, None, None, None, Some(ip), None, Some(count), Some(risk))
    case FailedAuth(_, _, _, user, source, count, _, risk) =>
      SignalData(Some(user), None, None, None, None, None, None, Some(source), Some(count), Some(risk))
  }

  /** The narrative of an event of no known type. */
  const RoutineNarrative: string := "Routine" + " security event recorded." + " No action required."

  /** `'name'`, as the templates quote a user. */
  function Quoted(name: string): (q: string)
    ensures |q| == |name| + 2 && q[0] == '\''
  {
    "'" + name + "'"
  }

  // Each template is a lead, a quoted name and a tail.

  const MultiLocationLead: string := "Your account "
  const StandardLoginLead: string := "A standard" + " login was recorded for user "
  const StandardLoginTail: string := ". This is routine system access. No action is required."

  function MultiLocationTail(ipCount: int): string {
    " was accessed from " + IntToString(ipCount) + " different network locations within one hour. "
    + "This often occurs when using multiple devices or transitioning between networks, but is recorded for visibility. "
    + "No action is required unless you do not recognize this activity."
  }

  function MultiLocationNarrative(user: string, ipCount: int): string {
    MultiLocationLead + Quoted(user) + MultiLocationTail(ipCount)
  }

  function StandardLoginNarrative(user: string): string {
    StandardLoginLead + Quoted(user) + StandardLoginTail
  }

  function AccessNarrative(user: string, pattern: Option<string>, ipCount: Option<int>): Option<string> {
    if pattern == Some("multi_ip_access") then
      if ipCount.None? then None else Some(MultiLocationNarrative(user, ipCount.value))
    else Some(StandardLoginNarrative(user))
  }

  const PrivilegeLead: string := "User "

  function PrivilegeTail(intent: Option<string>, intentWeight: Option<int>): string {
    if intentWeight.GetOr(0) >= 4 then
      " performed sensitive administrative changes (" + intent.GetOr("General Administration") + "). "
      + "These actions are typical during system maintenance but are highlighted to ensure they were intended. "
      + "Please consult your technical team if these changes were not authorized."
    else " performed routine administrative tasks. This is part of normal system operation. No action is required."
  }

  function PrivilegeNarrative(user: string, intent: Option<string>, intentWeight: Option<int>): string {
    PrivilegeLead + Quoted(user) + PrivilegeTail(intent, intentWeight)
  }

  const IamLead: string :=
    "An identity" + " management event was recorded: user or group changes were made using "
  const IamTail: string :=
    ". Identity changes are fundamental to system security and are recorded to maintain an accurate audit trail "
    + "of access permissions."

  function IamNarrative(program: string): string {
    IamLead + Quoted(program) + IamTail
  }

  function BruteForceLead(count: int): string {
    "Multiple" + " unsuccessful login attempts (" + IntToString(count) + ") were recorded for the user "
  }

  function BruteForceTail(ip: string): string {
    " from IP " + ip + ". "
    + "Automated scripts on the internet frequently attempt to guess passwords. While these attempts were unsuccessful, "
    + "they are recorded as a standard part of our perimeter monitoring."
  }

  function BruteForceNarrative(count: int, user: string, ip: string): string {
    BruteForceLead(count) + Quoted(user) + BruteForceTail(ip)
  }

  function FailedAuthLead(source: Option<string>): string {
    "An unsuccessful" + " attempt to perform administrative tasks (via " + source.GetOr("unknown") + ") was recorded for user "
  }

  const FailedAuthTail: string :=
    ". This typically occurs due to an incorrect password entry and is recorded for audit purposes. "
    + "No action is required unless this activity was not initiated by you."

  function FailedAuthNarrative(source: Option<string>, user: string): string {
    FailedAuthLead(source) + Quoted(user) + FailedAuthTail
  }

  /** `b` occurs in `a + b + c`. */
  lemma ContainsInfix(a: string, b: string, c: string)
    ensures Contains(a + b + c, b)
  {
    assert OccursAt(a + b + c, b, |a|) by {
      assert (a + b + c)[|a|..|a| + |b|] == b;
    }
  }

  /** The text holds no quotation mark. */
  predicate Unquoted(s: string) {
    forall i :: 0 <= i < |s| ==> s[i] != '\''
  }

  lemma UnquotedAppend(a: string, b: string)
    requires Unquoted(a) && Unquoted(b)
    ensures Unquoted(a + b)
  {
  }

  /** The fallback narrative quotes no one, so it never holds a quoted name. */
  lemma FallbackQuotesNobody(name: string)
    ensures !Contains(RoutineNarrative, Quoted(name))
  {
    assert Unquoted("Routine");
    assert Unquoted(" security event recorded.");
    assert Unquoted(" No action required.");
    UnquotedAppend("Routine", " security event recorded.");
    UnquotedAppend("Routine" + " security event recorded.", " No action required.");
    forall i | 0 <= i <= |RoutineNarrative| - |Quoted(name)| ensures !OccursAt(RoutineNarrative, Quoted(name), i) {
      assert RoutineNarrative[i..i + |Quoted(name)|][0] == RoutineNarrative[i];
    }
  }

  /** What the templates guarantee: each quotes its subject. */
  lemma MultiLocationWording(user: string, ipCount: int)
    ensures Contains(MultiLocationNarrative(user, ipCount), Quoted(user))
  {
    ContainsInfix(MultiLocationLead, Quoted(user), MultiLocationTail(ipCount));
  }

  lemma StandardLoginWording(user: string)
    ensures Contains(StandardLoginNarrative(user), Quoted(user))
  {
    ContainsInfix(StandardLoginLead, Quoted(user), StandardLoginTail);
  }

  lemma AccessWording(user: string, pattern: Option<string>, ipCount: Option<int>)
    ensures var r := AccessNarrative(user, pattern, ipCount);
            r.Some? ==> Contains(r.value, Quoted(user))
  {
    if pattern == Some("multi_ip_access") {
      if ipCount.Some? {
        MultiLocationCase(user, pattern, ipCount);
        MultiLocationWording(user, ipCount.value);
      }
    } else {
      StandardLoginWording(user);
    }
  }

  lemma MultiLocationCase(user: string, pattern: Option<string>, ipCount: Option<int>)
    requires pattern == Some("multi_ip_access") && ipCount.Some?
    ensures AccessNarrative(user, pattern, ipCount) == Some(MultiLocationNarrative(user, ipCount.value))
  {
  }

  lemma PrivilegeWording(user: string, intent: Option<string>, intentWeight: Option<int>)
    ensures Contains(PrivilegeNarrative(user, intent, intentWeight), Quoted(user))
  {
    ContainsInfix(PrivilegeLead, Quoted(user), PrivilegeTail(intent, intentWeight));
  }

  lemma IamWording(program: string)
    ensures Contains(IamNarrative(program), Quoted(program))
  {
    ContainsInfix(IamLead, Quoted(program), IamTail);
  }

  lemma BruteForceWording(count: int, user: string, ip: string)
    ensures Contains(BruteForceNarrative(count, user, ip), Quoted(user))
  {
    ContainsInfix(BruteForceLead(count), Quoted(user), BruteForceTail(ip));
  }

  lemma FailedAuthWording(source: Option<string>, user: string)
    ensures Contains(FailedAuthNarrative(source, user), Quoted(user))
  {
    ContainsInfix(FailedAuthLead(source), Quoted(user), FailedAuthTail);
  }

  /** The narrative of a signal; `None` where the template reads a missing key.
      Every known signal type gets its own wording, naming the user (or, for an
      identity change, the program); any other type gets the routine fallback. */
  function GenerateNarrative(signalType: string, d: SignalData): (r: Option<string>)
    ensures signalType !in SignalTypes ==> r == Some(RoutineNarrative)
    ensures signalType == "ssh_access_pattern" ==>
              (r.None? <==> d.user.None? || (d.pattern == Some("multi_ip_access") && d.ipCount.None?))
    ensures signalType == "privilege_escalation" || signalType == "failed_auth" ==> (r.None? <==> d.user.None?)
    ensures signalType == "iam_change" ==> (r.None? <==> d.program.None?)
    ensures signalType == "ssh_brute_force" ==> (r.None? <==> d.failureCount.None? || d.user.None? || d.ip.None?)
    ensures signalType in SignalTypes && signalType != "iam_change" && r.Some? ==>
              d.user.Some? && Contains(r.value, Quoted(d.user.value))
    ensures signalType == "iam_change" && r.Some? ==> Contains(r.value, Quoted(d.program.value))
  {
    if signalType == "ssh_access_pattern" then
      if d.user.None? then None
      else
        AccessWording(d.user.value, d.pattern, d.ipCount);
        AccessNarrative(d.user.value, d.pattern, d.ipCount)
    else if signalType == "privilege_escalation" then
      if d.user.None? then None
      else
        PrivilegeWording(d.user.value, d.intent, d.intentWeight);
        Some(PrivilegeNarrative(d.user.value, d.intent, d.intentWeight))
    else if signalType == "iam_change" then
      if d.program.None? then None
      else
        IamWording(d.program.value);
        Some(IamNarrative(d.program.value))
    else if signalType == "ssh_brute_force" then
      if d.failureCount.None? || d.user.None? || d.ip.None? then None
      else
        BruteForceWording(d.failureCount.value, d.user.value, d.ip.value);
        Some(BruteForceNarrative(d.failureCount.value, d.user.value, d.ip.value))
    else if signalType == "failed_auth" then
      if d.user.None? then None
      else
        FailedAuthWording(d.source, d.user.value);
        Some(FailedAuthNarrative(d.source, d.user.value))
    else
      Some(RoutineNarrative)
  }

  /** A known signal type never falls back to the routine narrative. */
  lemma KnownTypesAreNarrated(signalType: string, d: SignalData)
    requires signalType in SignalTypes
    ensures var r := GenerateNarrative(signalType, d);
            r.Some? ==> r.value != RoutineNarrative
  {
    var r := GenerateNarrative(signalType, d);
    if r.Some? {
      if signalType == "iam_change" {
        FallbackQuotesNobody(d.program.value);
      } else {
        FallbackQuotesNobody(d.user.value);
      }
    }
  }

  // ---- recommendations ----

  const BlockRecommendation: string :=
    "Critical" + ": Threshold exceeded. Recommendation: Place IP on temporary firewall blocklist and verify account MFA status."
  const ProbeRecommendation: string :=
    "Insight" + ": Automated probe detected. Recommendation: Ensure password-based authentication is disabled for this user."
  const AuditTipRecommendation: string :=
    "Audit" + " Tip: Review this change against the authorized maintenance window or ticket. No immediate technical action required."
  const DestructiveRecommendation: string :=
    "High" + " Priority: Destructive command detected. Recommendation: Verify authorization immediately and inspect system integrity logs."
  const RoutineTaskRecommendation: string := "Insight" + ": Routine administrative task. No action needed."
  const OwnerRecommendation: string :=
    "Compliance" + " Step: Ensure the newly created or modified user is assigned to a specific business owner in your IAM registry."
  const TravelRecommendation: string :=
    "Precaution" + ": Confirm this user was traveling or using a VPN during this period. If not, consider a password reset."
  const StaleCredentialRecommendation: string :=
    "Investigation" + ": Repeated administrative failures detected. Recommendation: Check for stale credentials in local automation scripts."
  const NoRecommendation: string := "No" + " actionable recommendation for routine events."

  /** The recommended action of a signal. It reads every key with a default, so
      it is total: a brute-force signal above 0.6 asks for a block, a privilege
      window is judged by its intent, an identity change always asks for an
      owner, a multi-location access pattern asks to confirm travel, more than
      five authentication failures ask to look for stale credentials; anything
      else gets no recommendation. */
  function GenerateRecommendation(signalType: string, d: SignalData): (r: string)
    ensures signalType == "ssh_brute_force" ==>
              (r == BlockRecommendation <==> d.riskScore.GetOr(0) > 60)
              && (r == ProbeRecommendation <==> d.riskScore.GetOr(0) <= 60)
    ensures signalType == "privilege_escalation" ==>
              (r == AuditTipRecommendation <==> d.intent == Some("Identity Management"))
              && (r == DestructiveRecommendation <==> d.intent == Some("Impact / Destructive"))
              && (r == RoutineTaskRecommendation <==>
                    d.intent != Some("Identity Management") && d.intent != Some("Impact / Destructive"))
    ensures signalType == "iam_change" ==> r == OwnerRecommendation
    ensures signalType == "ssh_access_pattern" ==>
              (r == TravelRecommendation <==> d.pattern == Some("multi_ip_access"))
              && (r != TravelRecommendation ==> r == NoRecommendation)
    ensures signalType == "failed_auth" ==>
              (r == StaleCredentialRecommendation <==> d.failureCount.GetOr(0) > 5)
              && (r != StaleCredentialRecommendation ==> r == NoRecommendation)
    ensures signalType !in SignalTypes ==> r == NoRecommendation
  {
    var risk := d.riskScore.GetOr(0);
    if signalType == "ssh_brute_force" then
      if risk > 60 then BlockRecommendation else ProbeRecommendation
    else if signalType == "privilege_escalation" then
      if d.intent == Some("Identity Management") then AuditTipRecommendation
      else if d.intent == Some("Impact / Destructive") then DestructiveRecommendation
      else RoutineTaskRecommendation
    else if signalType == "iam_change" then OwnerRecommendation
    else if signalType == "ssh_access_pattern" && d.pattern == Some("multi_ip_access") then TravelRecommendation
    else if signalType == "failed_auth" && d.failureCount.GetOr(0) > 5 then StaleCredentialRecommendation
    else NoRecommendation
  }

  // ---- the templates on the pipeline's own signals ----

  /** Every emitted signal has the keys its template reads and gets its own
      narrative, never the routine fallback. */
  lemma EmittedSignalsAreNarrated(s: Signal)
    ensures var r := GenerateNarrative(TypeName(s), DataOf(s));
            r.Some? && r.value != RoutineNarrative
  {
    KnownTypesAreNarrated(TypeName(s), DataOf(s));
  }

  /** An emitted brute-force signal scores 0.3, so the block recommendation
      (above 0.6) is never given to one. */
  lemma BruteForceNeverBlocks(k: FailureKey, count: nat, idOf: IdOf)
    ensures GenerateRecommendation("ssh_brute_force", DataOf(BruteForceSignal(k, count, idOf))) == ProbeRecommendation
  {
  }

  /** An access pattern asks to confirm travel iff it comes from several addresses. */
  lemma AccessRecommendation(k: UserWindow, ips: set<string>, idOf: IdOf)
    ensures GenerateRecommendation("ssh_access_pattern", DataOf(AccessSignal(k, ips, idOf))) == TravelRecommendation
            <==> |ips| > 1
  {
    AccessPatternKind(k, ips, idOf);
  }

  /** A failed_auth group asks to look for stale credentials iff it has more
      than five failures. */
  lemma FailedAuthRecommendation(k: AuthKey, count: nat, idOf: IdOf)
    ensures (GenerateRecommendation("failed_auth", DataOf(FailedAuthSignal(k, count, idOf)))
               == StaleCredentialRecommendation) <==> count > 5
  {
  }
}
