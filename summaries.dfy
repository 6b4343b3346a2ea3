/** `generate_weekly_summary`, which condenses one server's signals into a
    report, and `generate_multi_server_summary`, which folds several reports
    into one. */
module Summaries {
  import opened Wrappers
  import opened Sequences
  import opened Text
  import opened Emission

  /** What a Python call does: return a value or raise (a missing dictionary
      key, a value not in a list). */
  datatype Outcome<+T> = Returned(value: T) | Raised

  const ReviewedTier: string := "Low (Reviewed)"
  const LowTier: string := "Low"
  const ActionTier: string := "Action Recommended"

  /** How many of `signals` satisfy `p`. */
  function CountWhere(signals: seq<Signal>, p: Signal -> bool): (n: nat)
    ensures n <= |signals|
  {
    if signals == [] then 0
    else CountWhere(signals[..|signals| - 1], p) + (if p(signals[|signals| - 1]) then 1 else 0)
  }

  /** Some signal satisfies `p` iff the count is positive. */
  lemma {:induction false} CountPositive(signals: seq<Signal>, p: Signal -> bool)
    ensures CountWhere(signals, p) > 0 <==> exists i :: 0 <= i < |signals| && p(signals[i])
  {
    if signals != [] {
      var front := signals[..|signals| - 1];
      CountPositive(front, p);
      if exists i :: 0 <= i < |front| && p(front[i]) {
        var i :| 0 <= i < |front| && p(front[i]);
        assert signals[i] == front[i];
      }
      if exists i :: 0 <= i < |signals| && p(signals[i]) {
        var i :| 0 <= i < |signals| && p(signals[i]);
        if i < |front| {
          assert front[i] == signals[i];
        }
      }
    }
  }

  predicate IsMultiIp(s: Signal) {
    s.AccessPattern? && s.pattern == "multi_ip_access"
  }

  /** A privilege window or identity change of weight 0.4 or more. */
  predicate IsHighRiskChange(s: Signal) {
    (s.PrivilegeWindow? || s.IamSignal?) && s.intentWeight >= 4
  }

  function RiskSum(signals: seq<Signal>): int {
    if signals == [] then 0 else RiskSum(signals[..|signals| - 1]) + signals[|signals| - 1].riskScore
  }

  /** Bounds on the scores bound their sum. */
  lemma {:induction false} RiskSumBounds(signals: seq<Signal>)
    requires forall i :: 0 <= i < |signals| ==> 0 <= signals[i].riskScore <= 100
    ensures 0 <= RiskSum(signals) <= 100 * |signals|
  {
    if signals != [] {
      RiskSumBounds(signals[..|signals| - 1]);
    }
  }

  /** The counts of a weekly report. */
  datatype Highlights = Highlights(accessPatterns: nat, multiIpInstances: nat, privilegedSessions: nat,
                                   highRiskChanges: nat, iamChanges: nat, bruteForceAttempts: nat,
                                   failedAuthAttempts: nat)

  /** The per-server weekly report. `avgRiskScore` is the exact mean score (in
      units, not hundredths). */
  datatype WeeklySummary = WeeklySummary(overallRisk: string, avgRiskScore: real, serverCount: nat,
                                         highlights: Highlights, narrative: string)

  const WeeklyReportType: string := "weekly_security_summary"

  function OfType(t: string): Signal -> bool {
    s => TypeName(s) == t
  }

  function WeeklyHighlights(signals: seq<Signal>): Highlights {
    Highlights(CountWhere(signals, OfType("ssh_access_pattern")), CountWhere(signals, IsMultiIp),
               CountWhere(signals, OfType("privilege_escalation")), CountWhere(signals, IsHighRiskChange),
               CountWhere(signals, OfType("iam_change")), CountWhere(signals, OfType("ssh_brute_force")),
               CountWhere(signals, OfType("failed_auth")))
  }

  /** Sensitive changes first, then multi-location access, decide the tier. */
  function WeeklyTier(h: Highlights): (tier: string)
    ensures tier == ReviewedTier || tier == LowTier
    ensures tier == ReviewedTier <==> h.highRiskChanges > 0 || h.multiIpInstances > 0
  {
    if h.highRiskChanges > 0 || h.multiIpInstances > 0 then ReviewedTier else LowTier
  }

  /** The two sentences that explain the tier. */
  function WeeklyClauses(h: Highlights): string {
    if h.highRiskChanges > 0 then
      "Security-sensitive administrative or identity changes were detected and reviewed as part of routine maintenance."
      + " These changes are consistent with authorized system updates and no further action is required."
    else if h.multiIpInstances > 0 then
      "System access from multiple locations was observed and reviewed."
      + " This behavior reflects standard team mobility and matches expected usage patterns."
    else
      "All activity matches standard system operations."
      + " No sensitive changes or unusual access patterns were identified."
  }

  function AverageScore(signals: seq<Signal>): real {
    if signals == [] then 0.0 else (RiskSum(signals) as real) / ((100 * |signals|) as real)
  }

  /** The weekly report of one server: a single server's report is never
      "Action Recommended". */
  function GenerateWeeklySummary(signals: seq<Signal>): (w: WeeklySummary)
    ensures w.overallRisk != ActionTier
    ensures w.serverCount == 1 && w.highlights == WeeklyHighlights(signals)
    ensures w.overallRisk == WeeklyTier(w.highlights)
    ensures signals == [] ==> w.avgRiskScore == 0.0
  {
    var h := WeeklyHighlights(signals);
    var level := WeeklyTier(h);
    WeeklySummary(level, AverageScore(signals), 1, h,
                  "This week, your system remains in a '" + level + "' state. " + WeeklyClauses(h)
                  + " Overall, system activity follows your established security baseline.")
  }

  /** The tier is "Low (Reviewed)" exactly when a sensitive change or a
      multi-location access pattern is among the signals. */
  lemma WeeklyTierReasons(signals: seq<Signal>)
    ensures WeeklyTier(WeeklyHighlights(signals)) == ReviewedTier <==>
              (exists i :: 0 <= i < |signals| && IsHighRiskChange(signals[i]))
              || (exists i :: 0 <= i < |signals| && IsMultiIp(signals[i]))
  {
    CountPositive(signals, IsHighRiskChange);
    CountPositive(signals, IsMultiIp);
  }

  /** The five per-type counts partition the signals. */
  lemma {:induction false} TypeCountsAddUp(signals: seq<Signal>)
    ensures CountWhere(signals, OfType("ssh_access_pattern")) + CountWhere(signals, OfType("privilege_escalation"))
            + CountWhere(signals, OfType("iam_change")) + CountWhere(signals, OfType("ssh_brute_force"))
            + CountWhere(signals, OfType("failed_auth")) == |signals|
  {
    if signals != [] {
      TypeCountsAddUp(signals[..|signals| - 1]);
    }
  }

  /** With scores between 0 and 1, as the risk scorer gives them, the mean is
      between 0 and 1 too. */
  lemma AverageBounds(signals: seq<Signal>)
    requires forall i :: 0 <= i < |signals| ==> 0 <= signals[i].riskScore <= 100
    ensures 0.0 <= AverageScore(signals) <= 1.0
  {
    if signals != [] {
      RiskSumBounds(signals);
      var d := (100 * |signals|) as real;
      assert (RiskSum(signals) as real) <= d;
    }
  }

  // ---- reports as dictionaries ----

  /** A report as read back from JSON: any of its keys may be missing. */
  datatype Report = Report(reportType: Option<string>, overallRisk: Option<string>,
                           highlights: Option<map<string, int>>)

  function HighlightsMap(h: Highlights): map<string, int> {
    map["access_patterns" := h.accessPatterns, "multi_ip_instances" := h.multiIpInstances,
        "privileged_sessions" := h.privilegedSessions, "high_risk_changes" := h.highRiskChanges,
        "iam_changes" := h.iamChanges, "ssh_brute_force_attempts" := h.bruteForceAttempts,
        "failed_auth_attempts" := h.failedAuthAttempts]
  }

  /** The dictionary `generate_weekly_summary` returns. */
  function AsReport(w: WeeklySummary): Report {
    Report(Some(WeeklyReportType), Some(w.overallRisk), Some(HighlightsMap(w.highlights)))
  }

  /** A weekly report reads back the count of high-risk changes it was built with. */
  lemma ReportHighRiskChanges(w: WeeklySummary)
    ensures HighlightOr(AsReport(w), "high_risk_changes") == w.highlights.highRiskChanges
  {
    var m := HighlightsMap(w.highlights);
    assert "high_risk_changes" != "iam_changes" && "high_risk_changes" != "ssh_brute_force_attempts"
           && "high_risk_changes" != "failed_auth_attempts";
  }

  /** `highlights.get(field, 0)`, with an absent highlights map read as empty. */
  function HighlightOr(r: Report, field: string): int {
    if r.highlights.Some? && field in r.highlights.value then r.highlights.value[field] else 0
  }

  /** The sum of one highlight over the reports. */
  function FieldSum(rs: seq<Report>, field: string): int {
    if rs == [] then 0 else FieldSum(rs[..|rs| - 1], field) + HighlightOr(rs[|rs| - 1], field)
  }

  lemma {:induction false} FieldSumAppend(a: seq<Report>, b: seq<Report>, field: string)
    ensures FieldSum(a + b, field) == FieldSum(a, field) + FieldSum(b, field)
    decreases |b|
  {
    if b == [] {
      assert a + b == a;
    } else {
      FieldSumAppend(a, b[..|b| - 1], field);
      assert (a + b)[..|a + b| - 1] == a + b[..|b| - 1];
    }
  }

  // ---- the multi-server summary ----

  /** The tiers from most to least urgent. */
  const RiskPriority: seq<string> := [ActionTier, ReviewedTier, LowTier]

  function Rank(tier: string): (k: nat)
    requires tier in RiskPriority
    ensures k < 3 && RiskPriority[k] == tier
  {
    if tier == ActionTier then 0 else if tier == ReviewedTier then 1 else 2
  }

  /** A report the loop can read: it has highlights and a known tier. */
  predicate Readable(r: Report) {
    r.highlights.Some? && r.overallRisk.Some? && r.overallRisk.value in RiskPriority
  }

  predicate AllReadable(rs: seq<Report>) {
    forall i :: 0 <= i < |rs| ==> Readable(rs[i])
  }

  /** The most urgent tier of the reports, "Low" for none. */
  function Highest(rs: seq<Report>): (t: string)
    requires forall i :: 0 <= i < |rs| ==> Readable(rs[i])
    ensures t in RiskPriority
  {
    if rs == [] then LowTier
    else
      var before := Highest(rs[..|rs| - 1]);
      assert Readable(rs[|rs| - 1]);
      var t := rs[|rs| - 1].overallRisk.value;
      if Rank(t) < Rank(before) then t else before
  }

  /** One report alone sets the highest tier. */
  lemma HighestOfOne(r: Report)
    requires Readable(r)
    ensures Highest([r]) == r.overallRisk.value
  {
    assert [r][..0] == [];
    var t := r.overallRisk.value;
    if Rank(t) == 2 {
      assert t == RiskPriority[2];
    }
  }

  /** The five summed highlights of the multi-server summary. */
  datatype Totals = Totals(accessPatterns: int, multiIpInstances: int, privilegedSessions: int,
                           highRiskChanges: int, iamChanges: int)

  const NoTotals: Totals := Totals(0, 0, 0, 0, 0)

  function TotalsOf(rs: seq<Report>): Totals {
    Totals(FieldSum(rs, "access_patterns"), FieldSum(rs, "multi_ip_instances"), FieldSum(rs, "privileged_sessions"),
           FieldSum(rs, "high_risk_changes"), FieldSum(rs, "iam_changes"))
  }

  /** The multi-server summary; its narrative is a function of these fields. */
  datatype MultiSummary = MultiSummary(overallRisk: string, serverCount: nat, highlights: Totals)

  /** The `narrative` of the multi-server summary. */
  function MultiNarrative(m: MultiSummary): string {
    "Across your fleet of " + NatToString(m.serverCount) + " servers, the overall risk status is '" + m.overallRisk
    + "'. We recorded a total of " + IntToString(m.highlights.accessPatterns) + " access patterns and "
    + IntToString(m.highlights.privilegedSessions) + " administrative sessions. "
    + "The environment remains stable, with all activity generally aligning with your authorized maintenance schedules."
  }

  /** What `generate_multi_server_summary` returns: it raises as soon as a
      report lacks highlights or carries no known tier. */
  function MultiServerSpec(rs: seq<Report>): Outcome<MultiSummary> {
    if AllReadable(rs) then Returned(MultiSummary(Highest(rs), |rs|, TotalsOf(rs)))
    else Raised
  }

  /** The loop of `generate_multi_server_summary`: the totals and the most
      urgent tier are updated in place, report by report. */
  method GenerateMultiServerSummary(rs: seq<Report>) returns (out: Outcome<MultiSummary>)
    ensures out == MultiServerSpec(rs)
  {
    var totals := NoTotals;
    var highest := LowTier;
    var i := 0;
    while i < |rs|
      invariant i <= |rs|
      invariant forall j :: 0 <= j < i ==> Readable(rs[j])
      invariant totals == TotalsOf(rs[..i])
      invariant highest == Highest(rs[..i])
    {
      var r := rs[i];
      assert rs[..i + 1][..i] == rs[..i];
      if r.highlights.None? {
        assert !AllReadable(rs) by { assert !Readable(rs[i]); }
        return Raised;
      }
      totals := totals.(accessPatterns := totals.accessPatterns + HighlightOr(r, "access_patterns"));
      totals := totals.(multiIpInstances := totals.multiIpInstances + HighlightOr(r, "multi_ip_instances"));
      totals := totals.(privilegedSessions := totals.privilegedSessions + HighlightOr(r, "privileged_sessions"));
      totals := totals.(highRiskChanges := totals.highRiskChanges + HighlightOr(r, "high_risk_changes"));
      totals := totals.(iamChanges := totals.iamChanges + HighlightOr(r, "iam_changes"));
      if r.overallRisk.None? || r.overallRisk.value !in RiskPriority {
        assert !AllReadable(rs) by { assert !Readable(rs[i]); }
        return Raised;
      }
      if Rank(r.overallRisk.value) < Rank(highest) {
        highest := r.overallRisk.value;
      }
      i := i + 1;
    }
    assert rs[..i] == rs;
    assert AllReadable(rs);
    out := Returned(MultiSummary(highest, |rs|, totals));
  }

  /** The chosen tier is at least as urgent as every report's, and is one of
      them (or "Low" when no report is more urgent). */
  lemma {:induction false} HighestIsMostUrgent(rs: seq<Report>)
    requires forall i :: 0 <= i < |rs| ==> Readable(rs[i])
    ensures forall i :: 0 <= i < |rs| ==> Rank(Highest(rs)) <= Rank(rs[i].overallRisk.value)
    ensures Highest(rs) == LowTier || exists i :: 0 <= i < |rs| && rs[i].overallRisk == Some(Highest(rs))
  {
    if rs != [] {
      var front := rs[..|rs| - 1];
      HighestIsMostUrgent(front);
      assert forall i :: 0 <= i < |front| ==> front[i] == rs[i];
    }
  }

  /** The tier depends on the set of tiers only. */
  lemma {:induction false} SameTiersSameHighest(a: seq<Report>, b: seq<Report>)
    requires forall i :: 0 <= i < |a| ==> Readable(a[i])
    requires forall i :: 0 <= i < |b| ==> Readable(b[i])
    requires forall r :: r in a <==> r in b
    ensures Highest(a) == Highest(b)
  {
    HighestIsMostUrgent(a);
    HighestIsMostUrgent(b);
    var ha, hb := Highest(a), Highest(b);
    if ha != LowTier {
      var i :| 0 <= i < |a| && a[i].overallRisk == Some(ha);
      assert a[i] in b;
      var j :| 0 <= j < |b| && b[j] == a[i];
      assert Rank(hb) <= Rank(ha);
    }
    if hb != LowTier {
      var j :| 0 <= j < |b| && b[j].overallRisk == Some(hb);
      assert b[j] in a;
      var i :| 0 <= i < |a| && a[i] == b[j];
      assert Rank(ha) <= Rank(hb);
    }
    assert Rank(ha) <= 2 && Rank(hb) <= 2;
  }

  /** Any rearrangement of the reports keeps them readable and keeps the
      tier. */
  lemma {:induction false} TiersOrderFree(x: seq<Report>, y: seq<Report>)
    requires multiset(x) == multiset(y)
    ensures AllReadable(x) <==> AllReadable(y)
    ensures AllReadable(x) ==> Highest(x) == Highest(y)
  {
    assert forall r :: r in x <==> r in multiset(x);
    assert forall r :: r in y <==> r in multiset(y);
    assert forall i :: 0 <= i < |x| ==> x[i] in y;
    assert forall i :: 0 <= i < |y| ==> y[i] in x;
    if AllReadable(x) {
      SameTiersSameHighest(x, y);
    }
  }

  /** The order of the reports does not matter. */
  lemma {:induction false} MultiServerOrderFree(x: seq<Report>, y: seq<Report>)
    requires multiset(x) == multiset(y)
    ensures MultiServerSpec(x) == MultiServerSpec(y)
  {
    TiersOrderFree(x, y);
    SumsOrderFree(x, y);
    assert |x| == |multiset(x)| == |y|;
  }

  /** Each summed highlight depends on which reports there are, each as
      often, and not on their order. */
  lemma {:induction false} FieldSumPermuted(x: seq<Report>, y: seq<Report>, field: string)
    requires multiset(x) == multiset(y)
    ensures FieldSum(x, field) == FieldSum(y, field)
    decreases |x|
  {
    if x == [] {
      assert |y| == |multiset(y)| == 0;
    } else {
      var j := RemoveMatching(x, y);
      var r := x[|x| - 1];
      FieldSumPermuted(x[..|x| - 1], y[..j] + y[j + 1..], field);
      assert y == y[..j] + [r] + y[j + 1..];
      FieldSumAppend(y[..j], y[j + 1..], field);
      FieldSumAppend(y[..j] + [r], y[j + 1..], field);
      FieldSumAppend(y[..j], [r], field);
      assert [r][..0] == [];
    }
  }

  lemma SumsOrderFree(x: seq<Report>, y: seq<Report>)
    requires multiset(x) == multiset(y)
    ensures TotalsOf(x) == TotalsOf(y)
  {
    FieldSumPermuted(x, y, "access_patterns");
    FieldSumPermuted(x, y, "multi_ip_instances");
    FieldSumPermuted(x, y, "privileged_sessions");
    FieldSumPermuted(x, y, "high_risk_changes");
    FieldSumPermuted(x, y, "iam_changes");
  }

  /** A weekly report has highlights and a tier the multi-server loop knows,
      and that tier is not "Action Recommended". */
  lemma WeeklyReportReadable(signals: seq<Signal>)
    ensures var r := AsReport(GenerateWeeklySummary(signals));
            Readable(r) && r.overallRisk != Some(ActionTier)
  {
    var w := GenerateWeeklySummary(signals);
    assert w.overallRisk == ReviewedTier || w.overallRisk == LowTier;
    CalmSummaryReadable(w);
  }

  /** The report of a summary tiered short of "Action Recommended" is readable. */
  lemma CalmSummaryReadable(w: WeeklySummary)
    requires w.overallRisk == ReviewedTier || w.overallRisk == LowTier
    ensures Readable(AsReport(w)) && AsReport(w).overallRisk != Some(ActionTier)
  {
    assert w.overallRisk in RiskPriority;
  }

  /** Reports that all have highlights and a tier short of "Action
      Recommended" combine without error into a summary short of it. */
  lemma CalmReportsCombine(rs: seq<Report>)
    requires forall i :: 0 <= i < |rs| ==> Readable(rs[i]) && rs[i].overallRisk != Some(ActionTier)
    ensures MultiServerSpec(rs).Returned?
    ensures MultiServerSpec(rs).value.overallRisk != ActionTier
    ensures MultiServerSpec(rs).value.serverCount == |rs|
  {
    assert AllReadable(rs);
    HighestIsMostUrgent(rs);
    assert MultiServerSpec(rs) == Returned(MultiSummary(Highest(rs), |rs|, TotalsOf(rs)));
  }

  /** The reports `generate_weekly_summary` writes combine without error, and
      the combined tier is never "Action Recommended". */
  lemma {:induction false} WeeklyReportsCombine(weeks: seq<seq<Signal>>, rs: seq<Report>)
    requires |rs| == |weeks|
    requires forall i :: 0 <= i < |rs| ==> rs[i] == AsReport(GenerateWeeklySummary(weeks[i]))
    ensures MultiServerSpec(rs).Returned?
    ensures MultiServerSpec(rs).value.overallRisk != ActionTier
    ensures MultiServerSpec(rs).value.serverCount == |weeks|
  {
    forall i | 0 <= i < |rs|
      ensures Readable(rs[i]) && rs[i].overallRisk != Some(ActionTier)
    {
      WeeklyReportReadable(weeks[i]);
    }
    CalmReportsCombine(rs);
  }
}
