/** The playbook engine: a fixed list of response playbooks, each triggered by
    one signal type from a minimum risk score on, and the filter that picks the
    playbooks that apply to a signal. */
module Playbooks {
  import opened Wrappers
  import opened WindowAggregator
  import opened Emission

  datatype PlaybookAction = PlaybookAction(name: string, target: string, action: string,
                                           parameters: map<string, string>, requireApproval: bool)

  datatype SecurityPlaybook = SecurityPlaybook(id: string, name: string, triggerSignal: string,
                                               minRiskScore: real, actions: seq<PlaybookAction>)

  /** PB-001: block the address and alert, from a score of 0.7 on. */
  const ContainBruteForce: SecurityPlaybook :=
    SecurityPlaybook("PB-001", "Contain Brute Force", "ssh_brute_force", 0.7,
                     [PlaybookAction("Network Block", "ip", "block", map["duration" := "1h"], true),
                      PlaybookAction("Slack Alert", "user", "notify", map[], false)])

  /** PB-002: a log review of the host, from a score of 0.4 on. */
  const SensitiveIamAudit: SecurityPlaybook :=
    SecurityPlaybook("PB-002", "Sensitive IAM Audit", "privilege_escalation", 0.4,
                     [PlaybookAction("Log Review", "host", "audit", map[], true)])

  /** The playbooks the engine is constructed with, in order. */
  const Configured: seq<SecurityPlaybook> := [ContainBruteForce, SensitiveIamAudit]

  /** A playbook applies to a signal of its trigger type whose score reaches its minimum. */
  predicate Applies(pb: SecurityPlaybook, signalType: string, riskScore: real) {
    pb.triggerSignal == signalType && riskScore >= pb.minRiskScore
  }

  /** `a` is `b` with some elements left out, the rest kept in order. */
  predicate SubsequenceOf<T(==)>(a: seq<T>, b: seq<T>)
    decreases |b|
  {
    a == [] || (b != [] && (SubsequenceOf(a, b[1..]) || (a[0] == b[0] && SubsequenceOf(a[1..], b[1..]))))
  }

  /** The playbooks of `pbs` that apply, in the order of `pbs`. */
  function Select(pbs: seq<SecurityPlaybook>, signalType: string, riskScore: real): (r: seq<SecurityPlaybook>)
    ensures |r| <= |pbs|
    ensures forall pb :: pb in r <==> pb in pbs && Applies(pb, signalType, riskScore)
  {
    if pbs == [] then []
    else (if Applies(pbs[0], signalType, riskScore) then [pbs[0]] else [])
         + Select(pbs[1..], signalType, riskScore)
  }

  /** `get_recommendations`: the configured playbooks that apply to the signal. */
  function GetRecommendations(signalType: string, riskScore: real): (r: seq<SecurityPlaybook>)
    ensures forall pb :: pb in r <==> pb in Configured && Applies(pb, signalType, riskScore)
  {
    Select(Configured, signalType, riskScore)
  }

  /** The selection keeps the playbooks in their configured order. */
  lemma {:induction false} SelectIsSubsequence(pbs: seq<SecurityPlaybook>, signalType: string, riskScore: real)
    ensures SubsequenceOf(Select(pbs, signalType, riskScore), pbs)
  {
    if pbs != [] {
      SelectIsSubsequence(pbs[1..], signalType, riskScore);
      var rest := Select(pbs[1..], signalType, riskScore);
      if Applies(pbs[0], signalType, riskScore) {
        assert ([pbs[0]] + rest)[1..] == rest;
      } else {
        assert [] + rest == rest;
      }
    }
  }

  /** A higher score never drops a playbook: the selection at the lower score is
      a subsequence of the selection at the higher one. */
  lemma {:induction false} SelectMonotone(pbs: seq<SecurityPlaybook>, signalType: string, lo: real, hi: real)
    requires lo <= hi
    ensures SubsequenceOf(Select(pbs, signalType, lo), Select(pbs, signalType, hi))
  {
    if pbs != [] {
      SelectMonotone(pbs[1..], signalType, lo, hi);
      var a := Select(pbs[1..], signalType, lo);
      var b := Select(pbs[1..], signalType, hi);
      if Applies(pbs[0], signalType, lo) {
        assert ([pbs[0]] + a)[1..] == a && ([pbs[0]] + b)[1..] == b;
      } else if Applies(pbs[0], signalType, hi) {
        assert [] + a == a && ([pbs[0]] + b)[1..] == b;
      } else {
        assert [] + a == a && [] + b == b;
      }
    }
  }

  /** The filter over the two configured playbooks, written out. */
  lemma ConfiguredSelection(signalType: string, riskScore: real)
    ensures GetRecommendations(signalType, riskScore)
            == (if Applies(ContainBruteForce, signalType, riskScore) then [ContainBruteForce] else [])
               + (if Applies(SensitiveIamAudit, signalType, riskScore) then [SensitiveIamAudit] else [])
  {
    assert Configured[0] == ContainBruteForce && Configured[1..][0] == SensitiveIamAudit;
    assert Configured[1..][1..] == [];
    assert Select(Configured[1..][1..], signalType, riskScore) == [];
    var second := if Applies(SensitiveIamAudit, signalType, riskScore) then [SensitiveIamAudit] else [];
    assert Select(Configured[1..], signalType, riskScore) == second + [];
    assert second + [] == second;
  }

  /** Brute force gets PB-001 exactly from 0.7 on, the threshold included. */
  lemma BruteForcePlaybook(riskScore: real)
    ensures GetRecommendations("ssh_brute_force", riskScore)
            == if riskScore >= 0.7 then [ContainBruteForce] else []
  {
    ConfiguredSelection("ssh_brute_force", riskScore);
  }

  /** Privilege escalation gets PB-002 exactly from 0.4 on, the threshold included. */
  lemma PrivilegePlaybook(riskScore: real)
    ensures GetRecommendations("privilege_escalation", riskScore)
            == if riskScore >= 0.4 then [SensitiveIamAudit] else []
  {
    ConfiguredSelection("privilege_escalation", riskScore);
  }

  /** No other signal type has a playbook. */
  lemma OtherTypesHaveNone(signalType: string, riskScore: real)
    requires signalType != "ssh_brute_force" && signalType != "privilege_escalation"
    ensures GetRecommendations(signalType, riskScore) == []
  {
    ConfiguredSelection(signalType, riskScore);
  }

  /** A score in hundredths as the engine receives it. */
  function AsFraction(hundredths: int): real {
    hundredths as real / 100.0
  }

  /** Brute-force signals score 0.3, so they never reach PB-001. */
  lemma EmittedBruteForceIsNeverContained(k: FailureKey, count: nat, idOf: IdOf)
    ensures GetRecommendations("ssh_brute_force", AsFraction(BruteForceSignal(k, count, idOf).riskScore)) == []
  {
    BruteForcePlaybook(AsFraction(BruteForceSignal(k, count, idOf).riskScore));
  }

  /** A privilege window gets PB-002 exactly when its intent weight is at least
      0.4, or at least 0.2 with every command of high confidence. */
  lemma PrivilegeWindowAudit(k: UserWindow, entries: seq<CommandEntry>, idOf: IdOf)
    requires entries != []
    ensures var s := PrivilegeSignal(k, entries, idOf);
            GetRecommendations("privilege_escalation", AsFraction(s.riskScore)) == [SensitiveIamAudit]
            <==> s.intentWeight >= 4 || (s.intentWeight >= 2 && s.confidence == "high")
  {
    var s := PrivilegeSignal(k, entries, idOf);
    PrivilegePlaybook(AsFraction(s.riskScore));
    assert SensitiveIamAudit != ContainBruteForce;
    assert [SensitiveIamAudit] != [];
  }
}
