/** The second half of the pipeline's `main`: one signal per accumulator
    entry, section by section (access patterns, privilege windows, identity
    changes, brute force, authentication failures), each in the first-insertion
    order of its dictionary, each scored by the risk scorer.

    `generate_signal_id` is not part of this model: the identifier is the
    parameter `idOf`, applied to the signal type, the window start (or the event
    time for identity changes), the host and the user. */
module Emission {
  import opened Wrappers
  import opened CommandClassifier
  import opened EventExtractor
  import opened WindowAggregator
  import opened RiskScorer

  /** Intent weights and risk scores are in tenths and hundredths. Tag lists
      built from a set are kept as sets. */
  datatype Signal =
    | AccessPattern(id: string, timestamp: int, hostname: string, user: string,
                    uniqueIps: set<string>, ipCount: nat, pattern: string, confidence: string, riskScore: int)
    | PrivilegeWindow(id: string, timestamp: int, hostname: string, user: string,
                      intent: string, intentWeight: nat, mitreTags: set<string>, complianceTags: set<string>,
                      confidence: string, commands: seq<CommandEntry>, riskScore: int)
    | IamSignal(id: string, timestamp: int, hostname: string, user: string, program: string,
                intent: string, intentWeight: nat, mitreTags: set<string>, complianceTags: set<string>,
                message: string, confidence: string, riskScore: int)
    | BruteForce(id: string, timestamp: int, hostname: string, user: string, ip: string,
                 failureCount: nat, confidence: string, riskScore: int)
    | FailedAuth(id: string, timestamp: int, hostname: string, user: string, source: string,
                 failureCount: nat, confidence: string, riskScore: int)

  type IdOf = (string, int, string, string) -> string

  /** The `signal` field. */
  function TypeName(s: Signal): (t: string)
    ensures t in SignalTypes
  {
    match s
    case AccessPattern(_, _, _, _, _, _, _, _, _) => "ssh_access_pattern"
    case PrivilegeWindow(_, _, _, _, _, _, _, _, _, _, _) => "privilege_escalation"
    case IamSignal(_, _, _, _, _, _, _, _, _, _, _, _) => "iam_change"
    case BruteForce(_, _, _, _, _, _, _, _) => "ssh_brute_force"
    case FailedAuth(_, _, _, _, _, _, _, _) => "failed_auth"
  }

  // ---- 1) access patterns ----

  /** The access pattern of an hour of logins: several addresses make it a
      multi-location pattern. */
  function AccessSignal(k: UserWindow, ips: set<string>, idOf: IdOf): (s: Signal)
    ensures s.AccessPattern? && s.ipCount == |s.uniqueIps| && s.uniqueIps == ips
  {
    var pattern := if |ips| > 1 then "multi_ip_access" else "single_ip_access";
    AccessPattern(idOf("ssh_access_pattern", k.window, k.host, k.user), k.window, k.host, k.user,
                  ips, |ips|, pattern, "high",
                  RiskScore("ssh_access_pattern", 0, Some(pattern), Some("high")))
  }

  /** An hour is a multi-location pattern exactly when it saw several addresses,
      and a single-location one otherwise. */
  lemma AccessPatternKind(k: UserWindow, ips: set<string>, idOf: IdOf)
    ensures var s := AccessSignal(k, ips, idOf);
            (s.pattern == "multi_ip_access" <==> |ips| > 1)
            && (s.pattern != "multi_ip_access" ==> s.pattern == "single_ip_access")
  {
  }

  // ---- 2) privilege windows ----

  /** `max(e['risk_weight'] for e in entries)`. */
  function MaxWeight(entries: seq<CommandEntry>): (w: nat)
    requires entries != []
    ensures exists i :: 0 <= i < |entries| && entries[i].weight == w
    ensures forall i :: 0 <= i < |entries| ==> entries[i].weight <= w
  {
    if |entries| == 1 then entries[0].weight
    else
      var rest := MaxWeight(entries[1..]);
      assert forall i :: 1 <= i < |entries| ==> entries[i] == entries[1..][i - 1];
      if entries[0].weight >= rest then entries[0].weight else rest
  }

  /** The intent of the first entry with weight `w`; "General Administration"
      if there is none. */
  function FirstIntentWith(entries: seq<CommandEntry>, w: nat): (intent: string)
    ensures (exists i :: 0 <= i < |entries| && entries[i].weight == w && intent == entries[i].intent
              && forall j :: 0 <= j < i ==> entries[j].weight != w)
            || ((forall j :: 0 <= j < |entries| ==> entries[j].weight != w) && intent == "General Administration")
  {
    if entries == [] then "General Administration"
    else if entries[0].weight == w then entries[0].intent
    else
      var r := FirstIntentWith(entries[1..], w);
      assert forall i :: 1 <= i < |entries| ==> entries[i] == entries[1..][i - 1];
      r
  }

  /** The distinct MITRE techniques of the entries, "N/A" left out. */
  function MitreTags(entries: seq<CommandEntry>): (tags: set<string>)
    ensures forall t :: t in tags <==> t != "N/A" && exists i :: 0 <= i < |entries| && entries[i].mitre == t
  {
    set i | 0 <= i < |entries| && entries[i].mitre != "N/A" :: entries[i].mitre
  }

  /** The distinct compliance controls of the entries, "N/A" left out. */
  function ComplianceTags(entries: seq<CommandEntry>): (tags: set<string>)
    ensures forall t :: t in tags <==> t != "N/A" && exists i :: 0 <= i < |entries| && entries[i].compliance == t
  {
    set i | 0 <= i < |entries| && entries[i].compliance != "N/A" :: entries[i].compliance
  }

  /** "medium" as soon as one entry is medium, "high" otherwise. */
  function CollectiveConfidence(entries: seq<CommandEntry>): (c: string)
    ensures c == "medium" <==> exists i :: 0 <= i < |entries| && entries[i].confidence == "medium"
    ensures c != "medium" ==> c == "high"
  {
    if exists i :: 0 <= i < |entries| && entries[i].confidence == "medium" then "medium" else "high"
  }

  /** The signal of a privilege window. */
  function PrivilegeSignal(k: UserWindow, entries: seq<CommandEntry>, idOf: IdOf): (s: Signal)
    requires entries != []
    ensures s.PrivilegeWindow? && s.commands == entries
    ensures s.id == idOf("privilege_escalation", k.window, k.host, k.user)
            && s.timestamp == k.window && s.hostname == k.host && s.user == k.user
    ensures forall t :: t in s.mitreTags <==>
              t != "N/A" && exists i :: 0 <= i < |entries| && entries[i].mitre == t
    ensures forall t :: t in s.complianceTags <==>
              t != "N/A" && exists i :: 0 <= i < |entries| && entries[i].compliance == t
    ensures s.confidence == "medium" <==> exists i :: 0 <= i < |entries| && entries[i].confidence == "medium"
    ensures s.confidence == "medium" || s.confidence == "high"
    ensures s.riskScore == RiskScore("privilege_escalation", s.intentWeight, None, Some(s.confidence))
  {
    var w := MaxWeight(entries);
    var conf := CollectiveConfidence(entries);
    PrivilegeWindow(idOf("privilege_escalation", k.window, k.host, k.user), k.window, k.host, k.user,
                    FirstIntentWith(entries, w), w, MitreTags(entries), ComplianceTags(entries),
                    conf, entries, RiskScore("privilege_escalation", w, None, Some(conf)))
  }

  /** The intent of a window is that of its first command of maximal weight. */
  lemma PrivilegeIntent(k: UserWindow, entries: seq<CommandEntry>, idOf: IdOf)
    requires entries != []
    ensures var s := PrivilegeSignal(k, entries, idOf);
            (forall i :: 0 <= i < |entries| ==> entries[i].weight <= s.intentWeight)
            && exists i :: 0 <= i < |entries| && entries[i].weight == s.intentWeight
                           && s.intent == entries[i].intent
                           && forall j :: 0 <= j < i ==> entries[j].weight < s.intentWeight
  {
    var w := MaxWeight(entries);
    var s := PrivilegeSignal(k, entries, idOf);
    assert s.intentWeight == w && s.intent == FirstIntentWith(entries, w);
    var m :| 0 <= m < |entries| && entries[m].weight == w;
    assert !(forall j :: 0 <= j < |entries| ==> entries[j].weight != w);
  }

  // ---- 3) identity changes ----

  /** An identity change, classified by its program name, at its own time. */
  function IamChangeSignal(e: Event, idOf: IdOf): (s: Signal)
    requires e.IamChange?
    ensures s.IamSignal? && s.timestamp == e.timestamp && s.program == e.program
    ensures s.id == idOf("iam_change", e.timestamp, e.hostname, e.user)
            && s.hostname == e.hostname && s.user == e.user
            && s.message == e.message && s.confidence == e.confidence
    ensures s.intent == Categorize(e.program).intent && s.intentWeight == Categorize(e.program).weight
    ensures forall t :: t in s.mitreTags <==> t == Categorize(e.program).mitre && t != "N/A"
    ensures forall t :: t in s.complianceTags <==> t == Categorize(e.program).compliance && t != "N/A"
    ensures s.riskScore == RiskScore("iam_change", s.intentWeight, None, Some(s.confidence))
  {
    var meta := Categorize(e.program);
    IamSignal(idOf("iam_change", e.timestamp, e.hostname, e.user), e.timestamp, e.hostname, e.user,
              e.program, meta.intent, meta.weight,
              if meta.mitre != "N/A" then {meta.mitre} else {},
              if meta.compliance != "N/A" then {meta.compliance} else {},
              e.message, e.confidence, RiskScore("iam_change", meta.weight, None, Some(e.confidence)))
  }

  // ---- 4) brute force, 5) authentication failures ----

  /** The count from which failed ssh logins become a brute-force signal. */
  const BruteForceThreshold: nat := 3

  function BruteForceSignal(k: FailureKey, count: nat, idOf: IdOf): (s: Signal)
    ensures s.BruteForce? && s.failureCount == count && s.ip == k.ip && s.riskScore == 30
  {
    BruteForce(idOf("ssh_brute_force", k.window, k.host, k.user), k.window, k.host, k.user, k.ip,
               count, "high", RiskScore("ssh_brute_force", 0, None, Some("high")))
  }

  function FailedAuthSignal(k: AuthKey, count: nat, idOf: IdOf): (s: Signal)
    ensures s.FailedAuth? && s.failureCount == count && s.source == k.source && s.riskScore == 30
  {
    FailedAuth(idOf("failed_auth", k.window, k.host, k.user), k.window, k.host, k.user, k.source,
               count, "high", RiskScore("failed_auth", 0, None, Some("high")))
  }

  // ---- the sections as sequences ----

  function AccessSignals(order: seq<UserWindow>, m: map<UserWindow, set<string>>, idOf: IdOf): (r: seq<Signal>)
    requires forall k :: k in order ==> k in m
    ensures |r| == |order|
    ensures forall i :: 0 <= i < |r| ==> r[i] == AccessSignal(order[i], m[order[i]], idOf)
  {
    seq(|order|, i requires 0 <= i < |order| => AccessSignal(order[i], m[order[i]], idOf))
  }

  function PrivilegeSignals(order: seq<UserWindow>, m: map<UserWindow, seq<CommandEntry>>, idOf: IdOf): (r: seq<Signal>)
    requires forall k :: k in order ==> k in m && m[k] != []
    ensures |r| == |order|
    ensures forall i :: 0 <= i < |r| ==> r[i] == PrivilegeSignal(order[i], m[order[i]], idOf)
  {
    seq(|order|, i requires 0 <= i < |order| => PrivilegeSignal(order[i], m[order[i]], idOf))
  }

  function IamSignals(events: seq<Event>, idOf: IdOf): (r: seq<Signal>)
    requires forall i :: 0 <= i < |events| ==> events[i].IamChange?
    ensures |r| == |events|
    ensures forall i :: 0 <= i < |r| ==> r[i] == IamChangeSignal(events[i], idOf)
  {
    seq(|events|, i requires 0 <= i < |events| => IamChangeSignal(events[i], idOf))
  }

  /** Only counters that reached the threshold, in key order. */
  function BruteForceSignals(order: seq<FailureKey>, m: map<FailureKey, nat>, idOf: IdOf): (r: seq<Signal>)
    requires forall k :: k in order ==> k in m
    ensures forall s :: s in r ==> s.BruteForce? && s.failureCount >= BruteForceThreshold
    ensures forall k :: k in order && m[k] >= BruteForceThreshold ==> BruteForceSignal(k, m[k], idOf) in r
    ensures forall s :: s in r ==> exists k :: k in order && s == BruteForceSignal(k, m[k], idOf)
  {
    if order == [] then []
    else
      var k := order[|order| - 1];
      BruteForceSignals(order[..|order| - 1], m, idOf)
      + (if m[k] >= BruteForceThreshold then [BruteForceSignal(k, m[k], idOf)] else [])
  }

  function FailedAuthSignals(order: seq<AuthKey>, m: map<AuthKey, nat>, idOf: IdOf): (r: seq<Signal>)
    requires forall k :: k in order ==> k in m
    ensures |r| == |order|
    ensures forall i :: 0 <= i < |r| ==> r[i] == FailedAuthSignal(order[i], m[order[i]], idOf)
  {
    seq(|order|, i requires 0 <= i < |order| => FailedAuthSignal(order[i], m[order[i]], idOf))
  }

  /** All signals of the accumulators, section by section. */
  function Emitted(g: Groups, idOf: IdOf): seq<Signal>
    requires Valid(g)
  {
    AccessSignals(g.accessOrder, g.access, idOf)
    + PrivilegeSignals(g.privilegedOrder, g.privileged, idOf)
    + IamSignals(g.iamEvents, idOf)
    + BruteForceSignals(g.failureOrder, g.failures, idOf)
    + FailedAuthSignals(g.authOrder, g.authFailures, idOf)
  }

  // ---- the emission loops ----

  method EmitAccess(order: seq<UserWindow>, m: map<UserWindow, set<string>>, idOf: IdOf) returns (out: seq<Signal>)
    requires forall k :: k in order ==> k in m
    ensures out == AccessSignals(order, m, idOf)
  {
    out := [];
    var i := 0;
    while i < |order|
      invariant i <= |order|
      invariant |out| == i && forall j :: 0 <= j < i ==> out[j] == AccessSignal(order[j], m[order[j]], idOf)
    {
      var k := order[i];
      out := out + [AccessSignal(k, m[k], idOf)];
      i := i + 1;
    }
  }

  method EmitPrivilege(order: seq<UserWindow>, m: map<UserWindow, seq<CommandEntry>>, idOf: IdOf)
    returns (out: seq<Signal>)
    requires forall k :: k in order ==> k in m && m[k] != []
    ensures out == PrivilegeSignals(order, m, idOf)
  {
    out := [];
    var i := 0;
    while i < |order|
      invariant i <= |order|
      invariant |out| == i && forall j :: 0 <= j < i ==> out[j] == PrivilegeSignal(order[j], m[order[j]], idOf)
    {
      var k := order[i];
      out := out + [PrivilegeSignal(k, m[k], idOf)];
      i := i + 1;
    }
  }

  method EmitIam(events: seq<Event>, idOf: IdOf) returns (out: seq<Signal>)
    requires forall i :: 0 <= i < |events| ==> events[i].IamChange?
    ensures out == IamSignals(events, idOf)
  {
    out := [];
    var i := 0;
    while i < |events|
      invariant i <= |events|
      invariant |out| == i && forall j :: 0 <= j < i ==> out[j] == IamChangeSignal(events[j], idOf)
    {
      out := out + [IamChangeSignal(events[i], idOf)];
      i := i + 1;
    }
  }

  method EmitBruteForce(order: seq<FailureKey>, m: map<FailureKey, nat>, idOf: IdOf) returns (out: seq<Signal>)
    requires forall k :: k in order ==> k in m
    ensures out == BruteForceSignals(order, m, idOf)
  {
    out := [];
    var i := 0;
    while i < |order|
      invariant i <= |order|
      invariant out == BruteForceSignals(order[..i], m, idOf)
    {
      var k := order[i];
      if m[k] >= BruteForceThreshold {
        out := out + [BruteForceSignal(k, m[k], idOf)];
      }
      assert order[..i + 1][..i] == order[..i];
      i := i + 1;
    }
    assert order[..i] == order;
  }

  method EmitFailedAuth(order: seq<AuthKey>, m: map<AuthKey, nat>, idOf: IdOf) returns (out: seq<Signal>)
    requires forall k :: k in order ==> k in m
    ensures out == FailedAuthSignals(order, m, idOf)
  {
    out := [];
    var i := 0;
    while i < |order|
      invariant i <= |order|
      invariant |out| == i && forall j :: 0 <= j < i ==> out[j] == FailedAuthSignal(order[j], m[order[j]], idOf)
    {
      var k := order[i];
      out := out + [FailedAuthSignal(k, m[k], idOf)];
      i := i + 1;
    }
  }

  /** The emission half of `main`: the five sections, one after the other. */
  method EmitSignals(g: Groups, idOf: IdOf) returns (signals: seq<Signal>)
    requires Valid(g)
    ensures signals == Emitted(g, idOf)
  {
    var access := EmitAccess(g.accessOrder, g.access, idOf);
    var privileged := EmitPrivilege(g.privilegedOrder, g.privileged, idOf);
    var iam := EmitIam(g.iamEvents, idOf);
    var bruteForce := EmitBruteForce(g.failureOrder, g.failures, idOf);
    var failedAuth := EmitFailedAuth(g.authOrder, g.authFailures, idOf);
    signals := access + privileged + iam + bruteForce + failedAuth;
  }

  // ---- what the signals say about the events ----

  /** Every group of failed ssh logins with at least three failures becomes a
      brute-force signal carrying its count; no smaller group does. */
  lemma BruteForceFromEvents(es: seq<Event>, k: FailureKey, idOf: IdOf)
    ensures Valid(Accumulate(es))
    ensures FailureCount(es, k) >= BruteForceThreshold ==>
              BruteForceSignal(k, FailureCount(es, k), idOf) in Emitted(Accumulate(es), idOf)
    ensures forall s :: s in Emitted(Accumulate(es), idOf) && s.BruteForce? ==>
              s.failureCount >= BruteForceThreshold
  {
    AccumulateValid(es);
    FailuresCounted(es);
    var g := Accumulate(es);
    var brute := BruteForceSignals(g.failureOrder, g.failures, idOf);
    AccessSectionKind(g.accessOrder, g.access, idOf);
    PrivilegeSectionKind(g.privilegedOrder, g.privileged, idOf);
    IamSectionKind(g.iamEvents, idOf);
    FailedAuthSectionKind(g.authOrder, g.authFailures, idOf);
    var a := AccessSignals(g.accessOrder, g.access, idOf);
    var p := PrivilegeSignals(g.privilegedOrder, g.privileged, idOf);
    var i := IamSignals(g.iamEvents, idOf);
    var f := FailedAuthSignals(g.authOrder, g.authFailures, idOf);
    forall s | s in Emitted(g, idOf) && s.BruteForce?
      ensures s.failureCount >= BruteForceThreshold
    {
      OnlyBruteForceSection(a, p, i, brute, f, s);
    }
  }

  /** Of the five sections, only the brute-force one holds brute-force signals. */
  lemma OnlyBruteForceSection(a: seq<Signal>, p: seq<Signal>, i: seq<Signal>, b: seq<Signal>, f: seq<Signal>, s: Signal)
    requires (forall x :: x in a ==> x.AccessPattern?) && (forall x :: x in p ==> x.PrivilegeWindow?)
    requires (forall x :: x in i ==> x.IamSignal?) && (forall x :: x in f ==> x.FailedAuth?)
    requires s in a + p + i + b + f && s.BruteForce?
    ensures s in b
  {
  }

  lemma AccessSectionKind(order: seq<UserWindow>, m: map<UserWindow, set<string>>, idOf: IdOf)
    requires forall k :: k in order ==> k in m
    ensures forall x :: x in AccessSignals(order, m, idOf) ==> x.AccessPattern?
  {
    var r := AccessSignals(order, m, idOf);
    forall x | x in r ensures x.AccessPattern? {
      var j :| 0 <= j < |r| && r[j] == x;
    }
  }

  lemma PrivilegeSectionKind(order: seq<UserWindow>, m: map<UserWindow, seq<CommandEntry>>, idOf: IdOf)
    requires forall k :: k in order ==> k in m && m[k] != []
    ensures forall x :: x in PrivilegeSignals(order, m, idOf) ==> x.PrivilegeWindow?
  {
    var r := PrivilegeSignals(order, m, idOf);
    forall x | x in r ensures x.PrivilegeWindow? {
      var j :| 0 <= j < |r| && r[j] == x;
    }
  }

  lemma IamSectionKind(events: seq<Event>, idOf: IdOf)
    requires forall i :: 0 <= i < |events| ==> events[i].IamChange?
    ensures forall x :: x in IamSignals(events, idOf) ==> x.IamSignal?
  {
    var r := IamSignals(events, idOf);
    forall x | x in r ensures x.IamSignal? {
      var j :| 0 <= j < |r| && r[j] == x;
    }
  }

  lemma FailedAuthSectionKind(order: seq<AuthKey>, m: map<AuthKey, nat>, idOf: IdOf)
    requires forall k :: k in order ==> k in m
    ensures forall x :: x in FailedAuthSignals(order, m, idOf) ==> x.FailedAuth?
  {
    var r := FailedAuthSignals(order, m, idOf);
    forall x | x in r ensures x.FailedAuth? {
      var j :| 0 <= j < |r| && r[j] == x;
    }
  }

  /** Every authentication-failure group becomes a failed_auth signal with its
      count, however small: there is no threshold. */
  lemma FailedAuthFromEvents(es: seq<Event>, k: AuthKey, idOf: IdOf)
    ensures Valid(Accumulate(es))
    ensures AuthCount(es, k) > 0 ==>
              FailedAuthSignal(k, AuthCount(es, k), idOf) in Emitted(Accumulate(es), idOf)
  {
    AccumulateValid(es);
    AuthFailuresCounted(es);
    var g := Accumulate(es);
    if AuthCount(es, k) > 0 {
      var i :| 0 <= i < |g.authOrder| && g.authOrder[i] == k;
      var failed := FailedAuthSignals(g.authOrder, g.authFailures, idOf);
      assert failed[i] == FailedAuthSignal(k, AuthCount(es, k), idOf);
      assert failed[i] in Emitted(g, idOf);
    }
  }

  /** Every hour of logins becomes an access pattern listing the addresses of
      its logins; it is multi-location iff there are several. */
  lemma AccessFromEvents(es: seq<Event>, k: UserWindow, idOf: IdOf)
    ensures Valid(Accumulate(es))
    ensures Addresses(es, k) != {} ==>
              var s := AccessSignal(k, Addresses(es, k), idOf);
              s in Emitted(Accumulate(es), idOf)
              && (s.pattern == "multi_ip_access" <==> |Addresses(es, k)| > 1)
  {
    AccumulateValid(es);
    AddressesCollected(es);
    AccessPatternKind(k, Addresses(es, k), idOf);
    var g := Accumulate(es);
    if Addresses(es, k) != {} {
      var i :| 0 <= i < |g.accessOrder| && g.accessOrder[i] == k;
      var access := AccessSignals(g.accessOrder, g.access, idOf);
      assert access[i] == AccessSignal(k, Addresses(es, k), idOf);
      assert access[i] in Emitted(g, idOf);
    }
  }

  /** Every ten-minute window of escalations becomes one signal holding the
      classified commands of its escalations, in arrival order. */
  lemma PrivilegeFromEvents(es: seq<Event>, k: UserWindow, idOf: IdOf)
    ensures Valid(Accumulate(es))
    ensures Commands(es, k) != [] ==>
              PrivilegeSignal(k, Commands(es, k), idOf) in Emitted(Accumulate(es), idOf)
  {
    AccumulateValid(es);
    CommandsCollected(es);
    var g := Accumulate(es);
    if Commands(es, k) != [] {
      var i :| 0 <= i < |g.privilegedOrder| && g.privilegedOrder[i] == k;
      var privileged := PrivilegeSignals(g.privilegedOrder, g.privileged, idOf);
      assert privileged[i] == PrivilegeSignal(k, Commands(es, k), idOf);
      assert privileged[i] in Emitted(g, idOf);
    }
  }

  /** An identity change of the input is one of the kept ones. */
  lemma {:induction false} IamEventsOfHolds(es: seq<Event>, e: Event)
    requires e in es && e.IamChange?
    ensures e in IamEventsOf(es)
  {
    if es[|es| - 1] != e {
      assert e in es[..|es| - 1] by {
        var i :| 0 <= i < |es| && es[i] == e;
        assert es[..|es| - 1][i] == e;
      }
      IamEventsOfHolds(es[..|es| - 1], e);
    }
  }

  /** Identity changes are not windowed: each one becomes its own signal. */
  lemma IamFromEvents(es: seq<Event>, e: Event, idOf: IdOf)
    requires e in es && e.IamChange?
    ensures Valid(Accumulate(es))
    ensures IamChangeSignal(e, idOf) in Emitted(Accumulate(es), idOf)
  {
    AccumulateValid(es);
    IamEventsKept(es);
    IamEventsOfHolds(es, e);
    var g := Accumulate(es);
    var i :| 0 <= i < |g.iamEvents| && g.iamEvents[i] == e;
    var iam := IamSignals(g.iamEvents, idOf);
    assert iam[i] == IamChangeSignal(e, idOf);
    assert iam[i] in Emitted(g, idOf);
  }

  /** Identity changes are classified by their program name: `groupdel` and
      `chage` are in no rule, so they get weight 0 and score as a bare identity
      change (0.4 at high confidence). */
  lemma UnlistedIamProgramsWeighNothing(e: Event, idOf: IdOf)
    requires e.IamChange? && (e.program == "groupdel" || e.program == "chage")
    ensures var s := IamChangeSignal(e, idOf);
            s.intentWeight == 0 && s.intent == "General Administration"
            && s.mitreTags == {} && s.complianceTags == {}
            && s.riskScore == RiskScore("iam_change", 0, None, Some(e.confidence))
  {
    UnlistedIdentityPrograms(e.program);
  }

  /** Every program whose lines the extractor turns into identity changes is
      classified: `groupdel` and `chage` by the default, the other five by the
      identity rule. */
  lemma IamProgramsClassified(p: string)
    requires p in IamPrograms
    ensures Categorize(p) == if p == "groupdel" || p == "chage" then Default else IdentityRule.meta
  {
    if p == "groupdel" || p == "chage" {
      UnlistedIdentityPrograms(p);
    } else {
      ListedIdentityPrograms(p);
    }
  }

  /** The identity programs of the extractor that `categorize_command` lists
      (`useradd`, `usermod`, `userdel`, `groupadd`, `groupmod`) are Identity
      Management changes of weight 0.4, tagged T1078 and SOC2_CC6.1. */
  lemma ListedIamProgramsAreIdentityManagement(e: Event, idOf: IdOf)
    requires e.IamChange?
    requires e.program == "useradd" || e.program == "usermod" || e.program == "userdel"
             || e.program == "groupadd" || e.program == "groupmod"
    ensures var s := IamChangeSignal(e, idOf);
            s.intentWeight == 4 && s.intent == "Identity Management"
            && s.mitreTags == {"T1078"} && s.complianceTags == {"SOC2_CC6.1"}
            && s.riskScore == RiskScore("iam_change", 4, None, Some(e.confidence))
  {
    ListedIdentityPrograms(e.program);
    var s := IamChangeSignal(e, idOf);
    assert s.mitreTags == {"T1078"};
    assert s.complianceTags == {"SOC2_CC6.1"};
  }
}
