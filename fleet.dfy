/** `aggregate_fleet_summary` and the loader of `aggregate_weekly.py`: the
    canonical per-server weekly reports are summed into one fleet report whose
    tier only "Action Recommended" servers or sensitive changes can raise. */
module Fleet {
  import opened Wrappers
  import opened Sequences
  import opened Text
  import opened Emission
  import opened Summaries

  /** The report type the loader keeps. */
  const CanonicalServerReport: string := "weekly_security_summary"

  /** The loader keeps exactly the reports of the canonical type, in order. */
  function CanonicalSummaries(records: seq<Report>): (kept: seq<Report>)
    ensures |kept| <= |records|
    ensures forall r :: r in kept <==> r in records && r.reportType == Some(CanonicalServerReport)
    ensures forall r :: multiset(kept)[r] == if r.reportType == Some(CanonicalServerReport) then multiset(records)[r] else 0
  {
    if records == [] then []
    else
      var last := records[|records| - 1];
      assert records == records[..|records| - 1] + [last];
      CanonicalSummaries(records[..|records| - 1])
      + (if last.reportType == Some(CanonicalServerReport) then [last] else [])
  }

  /** One step of the loader: the last record is kept or not by its type alone. */
  lemma KeptOfLast(rs: seq<Report>)
    requires rs != []
    ensures CanonicalSummaries(rs) == CanonicalSummaries(rs[..|rs| - 1])
              + (if rs[|rs| - 1].reportType == Some(CanonicalServerReport) then [rs[|rs| - 1]] else [])
  {
  }

  /** The loader keeps the files' order: what it keeps of two runs of records
      is what it keeps of the first followed by what it keeps of the second. */
  lemma {:induction false} CanonicalSummariesAppend(x: seq<Report>, y: seq<Report>)
    ensures CanonicalSummaries(x + y) == CanonicalSummaries(x) + CanonicalSummaries(y)
    decreases |y|
  {
    if y == [] {
      assert x + y == x;
    } else {
      var front, last := y[..|y| - 1], y[|y| - 1];
      var xy := x + y;
      assert xy[..|xy| - 1] == x + front && xy[|xy| - 1] == last;
      KeptOfLast(xy);
      KeptOfLast(y);
      CanonicalSummariesAppend(x, front);
      AppendRegroup(CanonicalSummaries(x), CanonicalSummaries(front),
                    if last.reportType == Some(CanonicalServerReport) then [last] else []);
    }
  }

  /** The reports `generate_weekly_summary` writes are the ones the loader keeps. */
  lemma WeeklyReportsAreCanonical(signals: seq<Signal>)
    ensures AsReport(GenerateWeeklySummary(signals)).reportType == Some(CanonicalServerReport)
  {
  }

  /** The four summed fleet highlights. */
  datatype FleetStats = FleetStats(accessPatterns: int, multiIpInstances: int, privilegedSessions: int,
                                   highRiskChanges: int)

  function StatsOf(rs: seq<Report>): FleetStats {
    FleetStats(FieldSum(rs, "access_patterns"), FieldSum(rs, "multi_ip_instances"),
               FieldSum(rs, "privileged_sessions"), FieldSum(rs, "high_risk_changes"))
  }

  /** `any(s["overall_risk"] == "Action Recommended" for s in ...)`: scanned
      from the front, it stops at the first "Action Recommended" and raises at
      a report without a tier met before one. */
  function ScanForAction(rs: seq<Report>): (r: Outcome<bool>)
    ensures r == Returned(true) <==>
              exists i :: 0 <= i < |rs| && rs[i].overallRisk == Some(ActionTier)
                          && forall j :: 0 <= j < i ==> rs[j].overallRisk.Some?
    ensures r == Raised <==>
              exists i :: 0 <= i < |rs| && rs[i].overallRisk.None?
                          && forall j :: 0 <= j < i ==> rs[j].overallRisk != Some(ActionTier)
  {
    if rs == [] then Returned(false)
    else if rs[0].overallRisk.None? then Raised
    else if rs[0].overallRisk.value == ActionTier then Returned(true)
    else
      var rest := ScanForAction(rs[1..]);
      assert forall i :: 1 <= i < |rs| ==> rs[i] == rs[1..][i - 1];
      rest
  }

  /** Action first, then sensitive changes, decide the fleet tier. */
  function FleetTier(anyAction: bool, highRiskChanges: int): (tier: string)
    ensures tier == ActionTier <==> anyAction
    ensures tier == ReviewedTier <==> !anyAction && highRiskChanges > 0
    ensures tier == LowTier <==> !anyAction && highRiskChanges <= 0
  {
    if anyAction then ActionTier else if highRiskChanges > 0 then ReviewedTier else LowTier
  }

  /** The fleet report; its narrative is a function of these fields. The
      generation time stamp is left out. */
  datatype FleetSummary = FleetSummary(overallRisk: string, serverCount: nat, fleetHighlights: FleetStats)

  /** What `aggregate_fleet_summary` does: `None` for no reports, a raise
      when the tier scan meets a report without a tier, the fleet report
      otherwise. */
  function FleetSpec(rs: seq<Report>): (r: Outcome<Option<FleetSummary>>)
    ensures rs == [] <==> r == Returned(None)
  {
    if rs == [] then Returned(None)
    else
      match ScanForAction(rs)
      case Raised => Raised
      case Returned(anyAction) =>
        var stats := StatsOf(rs);
        Returned(Some(FleetSummary(FleetTier(anyAction, stats.highRiskChanges), |rs|, stats)))
  }

  /** The function itself: the highlights are added up in place, then the tier
      is chosen. */
  method AggregateFleetSummary(rs: seq<Report>) returns (out: Outcome<Option<FleetSummary>>)
    ensures out == FleetSpec(rs)
  {
    if rs == [] {
      return Returned(None);
    }
    var total := FleetStats(0, 0, 0, 0);
    var i := 0;
    while i < |rs|
      invariant i <= |rs|
      invariant total == StatsOf(rs[..i])
    {
      var r := rs[i];
      assert rs[..i + 1][..i] == rs[..i];
      total := total.(accessPatterns := total.accessPatterns + HighlightOr(r, "access_patterns"));
      total := total.(multiIpInstances := total.multiIpInstances + HighlightOr(r, "multi_ip_instances"));
      total := total.(privilegedSessions := total.privilegedSessions + HighlightOr(r, "privileged_sessions"));
      total := total.(highRiskChanges := total.highRiskChanges + HighlightOr(r, "high_risk_changes"));
      i := i + 1;
    }
    assert rs[..i] == rs;
    var scan := ScanForAction(rs);
    if scan.Raised? {
      return Raised;
    }
    out := Returned(Some(FleetSummary(FleetTier(scan.value, total.highRiskChanges), |rs|, total)));
  }

  /** Every report has a tier. */
  predicate AllTiered(rs: seq<Report>) {
    forall i :: 0 <= i < |rs| ==> rs[i].overallRisk.Some?
  }

  /** With every tier present the scan cannot raise, and the fleet tier is
      "Action Recommended" iff some server's is, else "Low (Reviewed)" iff
      sensitive changes were counted, else "Low". */
  lemma FleetTierRule(rs: seq<Report>)
    requires rs != [] && AllTiered(rs)
    ensures FleetSpec(rs).Returned? && FleetSpec(rs).value.Some?
    ensures var f := FleetSpec(rs).value.value;
            && f.serverCount == |rs|
            && (f.overallRisk == ActionTier <==> exists i :: 0 <= i < |rs| && rs[i].overallRisk == Some(ActionTier))
            && (f.overallRisk == ReviewedTier <==>
                  (forall i :: 0 <= i < |rs| ==> rs[i].overallRisk != Some(ActionTier))
                  && FieldSum(rs, "high_risk_changes") > 0)
  {
    var scan := ScanForAction(rs);
    assert scan != Raised;
  }

  /** With every tier present, the order of the reports does not matter:
      any rearrangement gives the same fleet report. */
  lemma {:induction false} FleetOrderFree(x: seq<Report>, y: seq<Report>)
    requires multiset(x) == multiset(y) && AllTiered(x)
    ensures FleetSpec(x) == FleetSpec(y)
  {
    assert forall r :: r in x <==> r in multiset(x);
    assert forall r :: r in y <==> r in multiset(y);
    assert forall i :: 0 <= i < |x| ==> x[i] in y;
    assert forall i :: 0 <= i < |y| ==> y[i] in x;
    assert AllTiered(y);
    assert |x| == |multiset(x)| == |y|;
    FieldSumPermuted(x, y, "access_patterns");
    FieldSumPermuted(x, y, "multi_ip_instances");
    FieldSumPermuted(x, y, "privileged_sessions");
    FieldSumPermuted(x, y, "high_risk_changes");
    assert StatsOf(x) == StatsOf(y);
    ScanTiered(x);
    ScanTiered(y);
    assert (exists i :: 0 <= i < |x| && x[i].overallRisk == Some(ActionTier))
           <==> (exists i :: 0 <= i < |y| && y[i].overallRisk == Some(ActionTier));
  }

  /** With every tier present the scan returns whether some tier is "Action
      Recommended". */
  lemma {:induction false} ScanTiered(rs: seq<Report>)
    requires AllTiered(rs)
    ensures ScanForAction(rs) == Returned(exists i :: 0 <= i < |rs| && rs[i].overallRisk == Some(ActionTier))
  {
    if rs != [] && rs[0].overallRisk != Some(ActionTier) {
      var rest := rs[1..];
      assert AllTiered(rest) by {
        forall i | 0 <= i < |rest| ensures rest[i].overallRisk.Some? { assert rest[i] == rs[i + 1]; }
      }
      ScanTiered(rest);
      if exists i :: 0 <= i < |rs| && rs[i].overallRisk == Some(ActionTier) {
        var i :| 0 <= i < |rs| && rs[i].overallRisk == Some(ActionTier);
        assert rest[i - 1] == rs[i];
      }
      if exists i :: 0 <= i < |rest| && rest[i].overallRisk == Some(ActionTier) {
        var i :| 0 <= i < |rest| && rest[i].overallRisk == Some(ActionTier);
        assert rest[i] == rs[i + 1];
      }
    }
  }

  /** The "Low (Reviewed)" tier a server earns by multi-location access alone
      does not lift the fleet: only sensitive changes or an explicit "Action
      Recommended" do. */
  lemma MultiIpOnlyStaysLow(rs: seq<Report>)
    requires rs != [] && AllTiered(rs)
    requires forall i :: 0 <= i < |rs| ==> rs[i].overallRisk != Some(ActionTier)
    requires FieldSum(rs, "high_risk_changes") <= 0
    ensures FleetSpec(rs) == Returned(Some(FleetSummary(LowTier, |rs|, StatsOf(rs))))
  {
    FleetTierRule(rs);
  }

  /** A week whose only finding is multi-location access is "Low (Reviewed)"
      for its server and for the multi-server summary, but "Low" for the fleet. */
  lemma MultiIpWeekTiers(signals: seq<Signal>)
    requires WeeklyHighlights(signals).highRiskChanges == 0 && WeeklyHighlights(signals).multiIpInstances > 0
    ensures var r := AsReport(GenerateWeeklySummary(signals));
            && r.overallRisk == Some(ReviewedTier)
            && MultiServerSpec([r]) == Returned(MultiSummary(ReviewedTier, 1, TotalsOf([r])))
            && FleetSpec([r]) == Returned(Some(FleetSummary(LowTier, 1, StatsOf([r]))))
  {
    ReviewedWeekTiers(GenerateWeeklySummary(signals));
  }

  /** A reviewed week without high-risk changes, alone in the input. */
  lemma ReviewedWeekTiers(w: WeeklySummary)
    requires w.overallRisk == ReviewedTier && w.highlights.highRiskChanges == 0
    ensures var r := AsReport(w);
            && MultiServerSpec([r]) == Returned(MultiSummary(ReviewedTier, 1, TotalsOf([r])))
            && FleetSpec([r]) == Returned(Some(FleetSummary(LowTier, 1, StatsOf([r]))))
  {
    var r := AsReport(w);
    ReportHighRiskChanges(w);
    assert FieldSum([r], "high_risk_changes") == 0 by {
      assert [r][..0] == [];
    }
    assert AllReadable([r]);
    HighestOfOne(r);
    MultiIpOnlyStaysLow([r]);
  }

  // ---- the fleet narrative ----

  const ConsistentLocations: string := "Login activity originated from consistent network locations."
  const MobilityNote: string :=
    " instance(s) of access from multiple network locations were observed. "
    + "This typically reflects normal team mobility between devices or networks."

  /** The multi-location clause: the count when there were any. */
  function MultiIpDescription(n: int): (d: string)
    ensures n > 0 ==> d == IntToString(n) + MobilityNote
    ensures n <= 0 ==> d == ConsistentLocations
  {
    if n > 0 then IntToString(n) + MobilityNote else ConsistentLocations
  }

  const FollowUpContext: string :=
    "One or more servers reported administrative activity requiring follow-up. "
    + "Please review the corresponding server-level reports."
  const ReviewedContext: string :=
    "A small number of security-sensitive administrative changes were detected and reviewed. No action is required."
  const QuietContext: string := "No security-sensitive changes were detected."

  /** The closing clause, one per tier. */
  function RiskContext(tier: string): string {
    if tier == ActionTier then FollowUpContext
    else if tier == ReviewedTier then ReviewedContext
    else QuietContext
  }

  function FleetOpening(f: FleetSummary): string {
    "This week, security activity across your fleet of " + NatToString(f.serverCount)
    + " servers remained stable. "
    + "Routine logins were recorded across the fleet (" + IntToString(f.fleetHighlights.accessPatterns)
    + " sessions), reflecting normal operational access. "
  }

  function FleetAdministration(f: FleetSummary): string {
    " Administrative activity accounted for " + IntToString(f.fleetHighlights.privilegedSessions)
    + " sessions, consistent with routine system management. "
  }

  /** `b` sits inside `a + b + (c + d)`, which ends with `d`. */
  lemma Framed(a: string, b: string, c: string, d: string)
    ensures Contains(a + b + (c + d), b)
    ensures EndsWith(a + b + (c + d), d)
  {
    var s := a + b + (c + d);
    assert OccursAt(s, b, |a|) by {
      assert s[|a|..|a| + |b|] == b;
    }
    assert s[|s| - |d|..|s|] == d;
  }

  /** The `narrative` of the fleet report: the opening and access clause, the
      multi-location clause, the administration clause, then the closing
      clause of its tier. */
  function FleetNarrative(f: FleetSummary): (r: string)
    ensures Contains(r, MultiIpDescription(f.fleetHighlights.multiIpInstances))
    ensures EndsWith(r, RiskContext(f.overallRisk))
  {
    var multi := MultiIpDescription(f.fleetHighlights.multiIpInstances);
    Framed(FleetOpening(f), multi, FleetAdministration(f), RiskContext(f.overallRisk));
    FleetOpening(f) + multi + (FleetAdministration(f) + RiskContext(f.overallRisk))
  }
}
