/** `calculate_risk_score`: a base score per signal type, raised by the intent
    weight and, for multi-location access, by 0.2, then scaled by the
    confidence multiplier and capped at 1.0.

    Every constant is a multiple of 0.1, so scores are kept exactly in
    hundredths (0.8 is 80): the base, the weight and the bonus in tenths, the
    multiplier in tenths, their product in hundredths. Rounding to two decimals
    is then the identity. */
module RiskScorer {
  import opened Wrappers

  /** The signal types the pipeline emits. */
  const SignalTypes: seq<string> :=
    ["ssh_access_pattern", "ssh_brute_force", "privilege_escalation", "iam_change", "failed_auth"]

  /** The base score of a signal type, in tenths; unknown types get 0.1. */
  function BaseScore(signalType: string): (b: nat)
    ensures 1 <= b <= 4
    ensures signalType !in SignalTypes ==> b == 1
  {
    if signalType == "ssh_access_pattern" then 1
    else if signalType == "ssh_brute_force" then 3
    else if signalType == "privilege_escalation" then 2
    else if signalType == "iam_change" then 4
    else if signalType == "failed_auth" then 3
    else 1
  }

  /** The confidence multiplier, in tenths. An absent confidence counts as
      "medium"; an unknown one gets 0.7 as well. */
  function Multiplier(confidence: Option<string>): (m: nat)
    ensures 4 <= m <= 10
    ensures confidence.None? ==> m == 7
  {
    var c := confidence.GetOr("medium");
    if c == "high" then 10
    else if c == "medium" then 7
    else if c == "low" then 4
    else 7
  }

  /** The extra 0.2 for an access pattern from several locations. */
  function PatternBonus(signalType: string, pattern: Option<string>): (b: nat)
    ensures b == 0 || b == 2
    ensures b == 2 <==> signalType == "ssh_access_pattern" && pattern == Some("multi_ip_access")
  {
    if signalType == "ssh_access_pattern" && pattern == Some("multi_ip_access") then 2 else 0
  }

  /** The risk score in hundredths. `intentWeight` is the signal's weight in
      tenths (0 when it has none). There is no lower cap: only the upper one. */
  function RiskScore(signalType: string, intentWeight: int, pattern: Option<string>,
                     confidence: Option<string>): (r: int)
    ensures r <= 100
    ensures intentWeight >= 0 ==> 4 <= r
    ensures (BaseScore(signalType) + intentWeight + PatternBonus(signalType, pattern)) * Multiplier(confidence) >= 100
            <==> r == 100
  {
    var score := BaseScore(signalType) + intentWeight + PatternBonus(signalType, pattern);
    var m := Multiplier(confidence);
    ScaledFacts(score, m);
    var scaled := score * m;
    if scaled < 100 then scaled else 100
  }

  /** Python's arithmetic on the real values the table holds: base, weight and
      bonus added, scaled by the multiplier, capped at 1.0. */
  function RealRisk(signalType: string, intentWeight: real, pattern: Option<string>,
                    confidence: Option<string>): real
  {
    var s := (BaseScore(signalType) as real + PatternBonus(signalType, pattern) as real) / 10.0 + intentWeight;
    var scaled := s * (Multiplier(confidence) as real / 10.0);
    if scaled < 1.0 then scaled else 1.0
  }

  /** The score in hundredths is exactly the real-valued score of a weight given
      in tenths, so rounding to two decimals changes nothing. */
  lemma RiskScoreIsExact(signalType: string, intentWeight: int, pattern: Option<string>,
                         confidence: Option<string>)
    ensures RiskScore(signalType, intentWeight, pattern, confidence) as real / 100.0
            == RealRisk(signalType, intentWeight as real / 10.0, pattern, confidence)
  {
    var s := BaseScore(signalType) + intentWeight + PatternBonus(signalType, pattern);
    assert (BaseScore(signalType) as real + PatternBonus(signalType, pattern) as real) / 10.0
           + intentWeight as real / 10.0 == s as real / 10.0;
    CappedProductExact(s, Multiplier(confidence));
  }

  /** Capping a product of tenths in hundredths agrees with capping it in reals. */
  lemma CappedProductExact(s: int, m: nat)
    ensures var x := s as real / 10.0 * (m as real / 10.0);
            (if s * m < 100 then s * m else 100) as real / 100.0 == if x < 1.0 then x else 1.0
  {
    assert (s * m) as real == s as real * m as real;
  }

  lemma ScaledFacts(score: int, m: nat)
    requires 4 <= m
    ensures score >= 1 ==> score * m >= 4
  {
    if score >= 1 {
      assert score * m >= 1 * m;
    }
  }

  /** How much a confidence level is trusted: low < medium (or absent or
      unknown) < high. */
  function ConfidenceRank(confidence: Option<string>): (k: nat)
    ensures k <= 2
  {
    var c := confidence.GetOr("medium");
    if c == "high" then 2 else if c == "low" then 0 else 1
  }

  /** The multiplier grows with the rank. */
  lemma MultiplierFollowsRank(c1: Option<string>, c2: Option<string>)
    ensures ConfidenceRank(c1) <= ConfidenceRank(c2) <==> Multiplier(c1) <= Multiplier(c2)
  {
  }

  /** A larger intent weight never lowers the score. */
  lemma ScoreMonotoneInWeight(signalType: string, w1: int, w2: int, pattern: Option<string>,
                              confidence: Option<string>)
    requires w1 <= w2
    ensures RiskScore(signalType, w1, pattern, confidence) <= RiskScore(signalType, w2, pattern, confidence)
  {
    var m := Multiplier(confidence);
    var base := BaseScore(signalType) + PatternBonus(signalType, pattern);
    assert (base + w1) * m <= (base + w2) * m;
  }

  /** A more trusted confidence never lowers the score of a non-negative weight. */
  lemma ScoreMonotoneInConfidence(signalType: string, w: int, pattern: Option<string>,
                                  c1: Option<string>, c2: Option<string>)
    requires w >= 0 && ConfidenceRank(c1) <= ConfidenceRank(c2)
    ensures RiskScore(signalType, w, pattern, c1) <= RiskScore(signalType, w, pattern, c2)
  {
    MultiplierFollowsRank(c1, c2);
    var s := BaseScore(signalType) + w + PatternBonus(signalType, pattern);
    assert s * Multiplier(c1) <= s * Multiplier(c2);
  }

  /** An identity change of weight 0.4 with high confidence scores 0.8. */
  lemma IamIdentityScore()
    ensures RiskScore("iam_change", 4, None, Some("high")) == 80
  {
  }

  /** Confidence values matter only through their rank: an unknown value and an
      absent one score as "medium". */
  lemma UnknownConfidenceIsMedium(signalType: string, w: int, pattern: Option<string>, c: string)
    requires c != "high" && c != "low"
    ensures RiskScore(signalType, w, pattern, Some(c)) == RiskScore(signalType, w, pattern, None)
  {
  }
}
