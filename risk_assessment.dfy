/** The risk assessment agent: traditional, carbon and ESG risk scorers, the
    composite score and its credit-score and category mappings, and the
    rule-based greenwashing detector. */
module RiskAssessment {
  import opened Numeric
  import opened DataCollection

  /** The qualitative labels the agents attach to scores. */
  datatype Label = Strong | Moderate | Low | Medium | High | Clean | Concerning | Improving | Worsening | Developing

  datatype RiskCategory = LowRisk | ModerateRisk | ElevatedRisk | HighRisk
  datatype ComponentRating = Excellent | Good | Fair | NeedsImprovement

  datatype TraditionalRisk = TraditionalRisk(
    riskScore: real,
    revenueAssessment: Label,
    profitabilityAssessment: Label,
    leverageAssessment: Label,
    liquidityAssessment: Label,
    defaultHistory: Label)

  datatype CarbonRisk = CarbonRisk(
    carbonRiskScore: real,
    emissionIntensity: Label,
    trendDirection: Label,
    transitionReadiness: Label,
    regulatoryRisk: Label,
    strandedAssetRisk: Label)

  datatype EsgRisk = EsgRisk(
    esgRiskScore: real,
    environmentalRating: ComponentRating,
    socialRating: ComponentRating,
    governanceRating: ComponentRating,
    sdgAlignedCount: nat,
    reputationalRisk: Label)

  /** What `assess_risk` returns (its timestamp left out). */
  datatype RiskAnalysis = RiskAnalysis(
    traditionalRisk: TraditionalRisk,
    carbonRisk: CarbonRisk,
    esgRisk: EsgRisk,
    compositeRiskScore: real,
    creditScore: int,
    riskCategory: RiskCategory)

  // ---------------------------------------------------------------------------
  // Traditional risk

  /** The unclamped weighted sum of `_assess_traditional_risk`: revenue,
      leverage and liquidity add at most 20, 20 and 30 points, profitability
      30 points per unit of margin, and each default costs 15. */
  function RawTraditionalScore(f: FinancialData): (r: real)
    ensures f.debtToEquity >= 0.0 ==>
      r <= 70.0 + f.profitMargin * 30.0 - (15 * f.paymentDefaults) as real
    ensures f.revenue >= 0.0 && f.debtToEquity <= 2.0 && f.currentRatio >= 0.0 ==>
      r >= f.profitMargin * 30.0 - (15 * f.paymentDefaults) as real
  {
    var revenueScore := Min(100.0, f.revenue / 100000.0);
    var profitabilityScore := f.profitMargin * 100.0;
    var leverageScore := Max(0.0, 100.0 - f.debtToEquity * 50.0);
    var liquidityScore := Min(100.0, f.currentRatio * 40.0);
    var defaultPenalty := (f.paymentDefaults * 15) as real;
    revenueScore * 0.2 + profitabilityScore * 0.3 + leverageScore * 0.2 + liquidityScore * 0.3 - defaultPenalty
  }

  function AssessTraditionalRisk(f: FinancialData): (r: TraditionalRisk)
    ensures 0.0 <= r.riskScore <= 100.0
    ensures 0.0 <= RawTraditionalScore(f) <= 100.0 ==> r.riskScore == RawTraditionalScore(f)
    ensures RawTraditionalScore(f) < 0.0 ==> r.riskScore == 0.0
    ensures RawTraditionalScore(f) > 100.0 ==> r.riskScore == 100.0
    ensures r.defaultHistory == Clean <==> f.paymentDefaults == 0
    ensures r.defaultHistory in {Clean, Concerning}
    ensures r.revenueAssessment == Strong <==> f.revenue > 5000000.0
    ensures r.profitabilityAssessment == Strong <==> f.profitMargin > 0.15
    ensures r.leverageAssessment == Low <==> f.debtToEquity < 1.0
    ensures r.liquidityAssessment == Strong <==> f.currentRatio > 1.5
    ensures r.revenueAssessment in {Strong, Moderate} && r.profitabilityAssessment in {Strong, Moderate}
    ensures r.leverageAssessment in {Low, Moderate} && r.liquidityAssessment in {Strong, Moderate}
  {
    TraditionalRisk(
      Clamp(0.0, 100.0, RawTraditionalScore(f)),
      if f.revenue > 5000000.0 then Strong else Moderate,
      if f.profitMargin > 0.15 then Strong else Moderate,
      if f.debtToEquity < 1.0 then Low else Moderate,
      if f.currentRatio > 1.5 then Strong else Moderate,
      if f.paymentDefaults == 0 then Clean else Concerning)
  }

  /** Each further payment default can only lower the traditional score. */
  lemma MoreDefaultsNeverRaiseTraditionalScore(f: FinancialData, extra: nat)
    ensures AssessTraditionalRisk(f.(paymentDefaults := f.paymentDefaults + extra)).riskScore
         <= AssessTraditionalRisk(f).riskScore
  {
    var g := f.(paymentDefaults := f.paymentDefaults + extra);
    assert RawTraditionalScore(g) == RawTraditionalScore(f) - (extra * 15) as real;
    ClampMonotone(0.0, 100.0, RawTraditionalScore(g), RawTraditionalScore(f));
  }

  // ---------------------------------------------------------------------------
  // Carbon risk

  /** `min(30, offset_tons / 10)`. */
  function OffsetBenefit(offsetTons: real): (b: real)
    ensures b <= 30.0
    ensures offsetTons >= 0.0 ==> b >= 0.0
    ensures offsetTons <= 300.0 ==> b == offsetTons / 10.0
  {
    Min(30.0, offsetTons / 10.0)
  }

  /** The clamped carbon risk before it is inverted for reporting. */
  function InternalCarbonRisk(c: CarbonData): (s: real)
    ensures 0.0 <= s <= 100.0
  {
    var emissionIntensityRisk := Min(100.0, c.totalCo2Tons / 50.0);
    var trendRisk := Max(0.0, c.trend * 100.0);
    var transitionRisk := Max(0.0, 100.0 - c.renewableEnergyPercentage);
    Clamp(0.0, 100.0,
      emissionIntensityRisk * 0.4 + trendRisk * 0.3 + transitionRisk * 0.3
      - OffsetBenefit(c.carbonOffsetTons))
  }

  /** `_assess_regulatory_risk`. */
  function RegulatoryRisk(emissions: real, renewablePct: real): (r: Label)
    ensures r in {Low, Moderate, High}
    ensures r == High <==> emissions > 3000.0 && renewablePct < 30.0
    ensures r == Low <==> emissions <= 1500.0 && renewablePct >= 50.0
  {
    if emissions > 3000.0 && renewablePct < 30.0 then High
    else if emissions > 1500.0 || renewablePct < 50.0 then Moderate
    else Low
  }

  function AssessCarbonRisk(c: CarbonData): (r: CarbonRisk)
    ensures 0.0 <= r.carbonRiskScore <= 100.0
    ensures r.carbonRiskScore == 100.0 - InternalCarbonRisk(c)
    ensures r.regulatoryRisk == RegulatoryRisk(c.totalCo2Tons, c.renewableEnergyPercentage)
    ensures r.trendDirection == Improving <==> c.trend < 0.0
    ensures r.trendDirection in {Improving, Worsening}
    ensures r.emissionIntensity == High <==> c.totalCo2Tons > 2000.0
    ensures r.emissionIntensity in {High, Moderate}
    ensures r.transitionReadiness == Strong <==> c.renewableEnergyPercentage > 50.0
    ensures r.transitionReadiness in {Strong, Developing}
    ensures r.strandedAssetRisk == High <==> c.renewableEnergyPercentage < 20.0
    ensures r.strandedAssetRisk in {High, Low}
  {
    CarbonRisk(
      100.0 - InternalCarbonRisk(c),
      if c.totalCo2Tons > 2000.0 then High else Moderate,
      if c.trend < 0.0 then Improving else Worsening,
      if c.renewableEnergyPercentage > 50.0 then Strong else Developing,
      RegulatoryRisk(c.totalCo2Tons, c.renewableEnergyPercentage),
      if c.renewableEnergyPercentage < 20.0 then High else Low)
  }

  /** Offsets only help and emissions only hurt the reported (inverted)
      carbon score. */
  lemma CarbonScoreMonotone(c: CarbonData, moreOffset: real, lessEmissions: real)
    requires moreOffset >= c.carbonOffsetTons && lessEmissions <= c.totalCo2Tons
    ensures AssessCarbonRisk(c.(carbonOffsetTons := moreOffset, totalCo2Tons := lessEmissions)).carbonRiskScore
         >= AssessCarbonRisk(c).carbonRiskScore
  {
    var d := c.(carbonOffsetTons := moreOffset, totalCo2Tons := lessEmissions);
    var rawC := Min(100.0, c.totalCo2Tons / 50.0) * 0.4 + Max(0.0, c.trend * 100.0) * 0.3
              + Max(0.0, 100.0 - c.renewableEnergyPercentage) * 0.3 - OffsetBenefit(c.carbonOffsetTons);
    var rawD := Min(100.0, d.totalCo2Tons / 50.0) * 0.4 + Max(0.0, d.trend * 100.0) * 0.3
              + Max(0.0, 100.0 - d.renewableEnergyPercentage) * 0.3 - OffsetBenefit(d.carbonOffsetTons);
    assert rawD <= rawC;
    ClampMonotone(0.0, 100.0, rawD, rawC);
  }

  // ---------------------------------------------------------------------------
  // ESG risk

  /** How many flags are set (`sum(1 for v in flags if v)`). */
  function CountTrue(flags: seq<bool>): (n: nat)
    ensures n <= |flags|
    ensures n == 0 <==> forall i :: 0 <= i < |flags| ==> !flags[i]
    ensures n == |flags| <==> forall i :: 0 <= i < |flags| ==> flags[i]
  {
    if flags == [] then 0
    else
      assert forall i :: 1 <= i < |flags| ==> flags[i] == flags[1..][i - 1];
      (if flags[0] then 1 else 0) + CountTrue(flags[1..])
  }

  /** `_rate_component`: thresholds 80/70/60, a boundary belongs to the
      higher band. */
  function RateComponent(score: real): (r: ComponentRating)
    ensures r == Excellent <==> score >= 80.0
    ensures r == Good <==> 70.0 <= score < 80.0
    ensures r == Fair <==> 60.0 <= score < 70.0
    ensures r == NeedsImprovement <==> score < 60.0
  {
    if score >= 80.0 then Excellent
    else if score >= 70.0 then Good
    else if score >= 60.0 then Fair
    else NeedsImprovement
  }

  function EsgWeightedScore(e: EsgData): real
  {
    e.environmentalScore * 0.4 + e.socialScore * 0.3 + e.governanceScore * 0.3
  }

  /** The ESG scores the collector draws are never negative. */
  predicate EsgScoresNonNegative(e: EsgData)
  {
    e.environmentalScore >= 0.0 && e.socialScore >= 0.0 && e.governanceScore >= 0.0
  }

  function AssessEsgRisk(e: EsgData): (r: EsgRisk)
    ensures r.esgRiskScore <= 100.0
    ensures r.sdgAlignedCount == CountTrue(e.sdgAlignment) <= |e.sdgAlignment|
    ensures r.esgRiskScore == Min(100.0, EsgWeightedScore(e) + (5 * r.sdgAlignedCount) as real)
    ensures EsgScoresNonNegative(e) ==> r.esgRiskScore >= 0.0
    ensures r.reputationalRisk == Low <==> r.esgRiskScore > 70.0
    ensures r.environmentalRating == RateComponent(e.environmentalScore)
    ensures r.socialRating == RateComponent(e.socialScore)
    ensures r.governanceRating == RateComponent(e.governanceScore)
  {
    var aligned := CountTrue(e.sdgAlignment);
    var finalScore := Min(100.0, EsgWeightedScore(e) + (aligned * 5) as real);
    EsgRisk(
      finalScore,
      RateComponent(e.environmentalScore),
      RateComponent(e.socialScore),
      RateComponent(e.governanceScore),
      aligned,
      if finalScore > 70.0 then Low else Moderate)
  }

  /** Setting one more SDG flag never lowers the ESG score, and raises it by
      exactly 5 while below the cap. */
  lemma {:induction false} OneMoreSdgFlag(e: EsgData, flags: seq<bool>)
    requires CountTrue(flags) == CountTrue(e.sdgAlignment) + 1
    ensures AssessEsgRisk(e.(sdgAlignment := flags)).esgRiskScore >= AssessEsgRisk(e).esgRiskScore
    ensures EsgWeightedScore(e) + (5 * CountTrue(flags)) as real <= 100.0 ==>
      AssessEsgRisk(e.(sdgAlignment := flags)).esgRiskScore == AssessEsgRisk(e).esgRiskScore + 5.0
  {
  }

  // ---------------------------------------------------------------------------
  // Composite, credit score, category

  /** `_calculate_composite_score`: 50% traditional, 30% carbon, 20% ESG. */
  function CompositeRiskScore(traditional: real, carbon: real, esg: real): (r: real)
    ensures r == traditional * 0.5 + carbon * 0.3 + esg * 0.2
    ensures Min(traditional, Min(carbon, esg)) <= r <= Max(traditional, Max(carbon, esg))
  {
    traditional * 0.5 + carbon * 0.3 + esg * 0.2
  }

  /** `_convert_to_credit_score`: maps a 0-100 score linearly onto 300-850
      and truncates toward zero (`int(...)`). */
  function ConvertToCreditScore(riskScore: real): (r: int)
    ensures 0.0 <= riskScore <= 100.0 ==> 300 <= r <= 850
    ensures riskScore == 0.0 ==> r == 300
    ensures riskScore == 100.0 ==> r == 850
  {
    Trunc(300.0 + (riskScore / 100.0) * 550.0)
  }

  lemma CreditScoreMonotone(a: real, b: real)
    requires a <= b
    ensures ConvertToCreditScore(a) <= ConvertToCreditScore(b)
  {
    TruncMonotone(300.0 + (a / 100.0) * 550.0, 300.0 + (b / 100.0) * 550.0);
  }

  /** `_categorize_risk`: thresholds 80/60/40, a boundary belongs to the
      higher (safer) band. */
  function CategorizeRisk(score: real): (r: RiskCategory)
    ensures r == LowRisk <==> score >= 80.0
    ensures r == ModerateRisk <==> 60.0 <= score < 80.0
    ensures r == ElevatedRisk <==> 40.0 <= score < 60.0
    ensures r == HighRisk <==> score < 40.0
  {
    if score >= 80.0 then LowRisk
    else if score >= 60.0 then ModerateRisk
    else if score >= 40.0 then ElevatedRisk
    else HighRisk
  }

  /** Position of a category from safest (0) to riskiest (3). */
  function CategoryRank(c: RiskCategory): nat
  {
    match c
    case LowRisk => 0
    case ModerateRisk => 1
    case ElevatedRisk => 2
    case HighRisk => 3
  }

  lemma CategoryMonotone(a: real, b: real)
    requires a <= b
    ensures CategoryRank(CategorizeRisk(b)) <= CategoryRank(CategorizeRisk(a))
  {
  }

  /** `assess_risk`: the three assessments, their composite, the credit score
      and the category derived from it. */
  function AssessRisk(d: EntityData): (r: RiskAnalysis)
    ensures r.traditionalRisk == AssessTraditionalRisk(d.financial)
    ensures r.carbonRisk == AssessCarbonRisk(d.carbonEmissions)
    ensures r.esgRisk == AssessEsgRisk(d.esgMetrics)
    ensures r.compositeRiskScore == CompositeRiskScore(
      r.traditionalRisk.riskScore, r.carbonRisk.carbonRiskScore, r.esgRisk.esgRiskScore)
    ensures r.creditScore == ConvertToCreditScore(r.compositeRiskScore)
    ensures r.riskCategory == CategorizeRisk(r.compositeRiskScore)
    ensures r.compositeRiskScore <= 100.0
    ensures EsgScoresNonNegative(d.esgMetrics) ==>
      0.0 <= r.compositeRiskScore && 300 <= r.creditScore <= 850
  {
    var traditional := AssessTraditionalRisk(d.financial);
    var carbon := AssessCarbonRisk(d.carbonEmissions);
    var esg := AssessEsgRisk(d.esgMetrics);
    var composite := CompositeRiskScore(traditional.riskScore, carbon.carbonRiskScore, esg.esgRiskScore);
    RiskAnalysis(traditional, carbon, esg, composite, ConvertToCreditScore(composite), CategorizeRisk(composite))
  }

  // ---------------------------------------------------------------------------
  // Greenwashing

  datatype AnomalyType = HighScoreHighEmissions | ScoreRenewableMismatch | IncreasingEmissionsHighScore

  datatype Anomaly = Anomaly(anomalyType: AnomalyType, description: string, severity: Label)

  /** What `detect_greenwashing` returns; the confidence is a random draw. */
  datatype GreenwashingReport = GreenwashingReport(
    riskIndex: int,
    riskLevel: Label,
    anomalies: seq<Anomaly>,
    anomalyCount: nat,
    recommendations: seq<string>,
    confidence: real)

  /** The four readings the detector compares. */
  datatype Signals = Signals(environmentalScore: real, totalEmissions: real, renewablePercentage: real, trend: real)

  function SignalsOf(d: EntityData): Signals
  {
    Signals(d.esgMetrics.environmentalScore, d.carbonEmissions.totalCo2Tons,
            d.carbonEmissions.renewableEnergyPercentage, d.carbonEmissions.trend)
  }

  /** The detector's rules, in the order it checks them. */
  const Rules: seq<AnomalyType> := [HighScoreHighEmissions, ScoreRenewableMismatch, IncreasingEmissionsHighScore]

  function RuleRank(t: AnomalyType): nat
  {
    match t
    case HighScoreHighEmissions => 0
    case ScoreRenewableMismatch => 1
    case IncreasingEmissionsHighScore => 2
  }

  /** Whether a rule fires; every rule needs an environmental score above
      70, so a modest score is never flagged. */
  predicate Fires(t: AnomalyType, s: Signals)
    ensures Fires(t, s) ==> s.environmentalScore > 70.0
  {
    match t
    case HighScoreHighEmissions => s.environmentalScore > 80.0 && s.totalEmissions > 3000.0
    case ScoreRenewableMismatch => s.environmentalScore > 70.0 && s.renewablePercentage < 20.0
    case IncreasingEmissionsHighScore => s.trend > 0.05 && s.environmentalScore > 75.0
  }

  /** The risk factors a rule adds: 3 for the high-severity rules, 2 for
      the medium one. */
  function RulePoints(t: AnomalyType): (p: int)
    ensures p in {2, 3}
    ensures p == 3 <==> AnomalyFor(t).severity == High
  {
    match t
    case HighScoreHighEmissions => 2
    case ScoreRenewableMismatch => 3
    case IncreasingEmissionsHighScore => 3
  }

  function AnomalyFor(t: AnomalyType): (a: Anomaly)
    ensures a.anomalyType == t
  {
    match t
    case HighScoreHighEmissions =>
      Anomaly(t, "Environmental score is high but emissions are substantial", Medium)
    case ScoreRenewableMismatch =>
      Anomaly(t, "High environmental score but low renewable energy usage", High)
    case IncreasingEmissionsHighScore =>
      Anomaly(t, "Emissions increasing while maintaining high environmental score", High)
  }

  /** The anomaly records of the rules that fire, in rule order. */
  function FiredAnomalies(rules: seq<AnomalyType>, s: Signals): (a: seq<Anomaly>)
    ensures |a| <= |rules|
  {
    if rules == [] then []
    else (if Fires(rules[0], s) then [AnomalyFor(rules[0])] else []) + FiredAnomalies(rules[1..], s)
  }

  /** The sum of the points of the rules that fire. */
  function FiredPoints(rules: seq<AnomalyType>, s: Signals): (p: int)
    ensures 0 <= p <= 3 * |rules|
  {
    if rules == [] then 0
    else (if Fires(rules[0], s) then RulePoints(rules[0]) else 0) + FiredPoints(rules[1..], s)
  }

  /** `min(100, risk_factors * 15)`. */
  function RiskIndex(points: int): (i: int)
    ensures points >= 0 ==> 0 <= i <= 100
    ensures i == 100 <==> points >= 7
    ensures points <= 6 ==> i == 15 * points
  {
    if points * 15 < 100 then points * 15 else 100
  }

  /** High above 60, moderate above 30, low otherwise. */
  function RiskLevel(index: int): (l: Label)
    ensures l in {Low, Moderate, High}
    ensures l == High <==> index > 60
    ensures l == Low <==> index <= 30
  {
    if index > 60 then High else if index > 30 then Moderate else Low
  }

  const ThirdPartyVerification := "Request third-party verification of carbon claims"
  const SupplyChainAudit := "Conduct detailed supply chain emissions audit"
  const MonitorEmissions := "Monitor emissions data more frequently"

  /** The recommendation list: the bands are cumulative, so an index above 50
      collects the two audit items and the monitoring item. */
  function GreenwashingRecommendations(index: int): (r: seq<string>)
    ensures |r| == if index > 50 then 3 else if index > 30 then 1 else 0
    ensures index > 30 ==> r[|r| - 1] == MonitorEmissions
    ensures index > 50 ==> r[0] == ThirdPartyVerification && r[1] == SupplyChainAudit
  {
    (if index > 50 then [ThirdPartyVerification, SupplyChainAudit] else [])
    + (if index > 30 then [MonitorEmissions] else [])
  }

  /** The three rules written out: each contributes its anomaly and points
      exactly when it fires. */
  lemma UnfoldRules(s: Signals)
    ensures FiredAnomalies(Rules, s)
         == (if Fires(HighScoreHighEmissions, s) then [AnomalyFor(HighScoreHighEmissions)] else [])
          + (if Fires(ScoreRenewableMismatch, s) then [AnomalyFor(ScoreRenewableMismatch)] else [])
          + (if Fires(IncreasingEmissionsHighScore, s) then [AnomalyFor(IncreasingEmissionsHighScore)] else [])
    ensures FiredPoints(Rules, s)
         == (if Fires(HighScoreHighEmissions, s) then 2 else 0)
          + (if Fires(ScoreRenewableMismatch, s) then 3 else 0)
          + (if Fires(IncreasingEmissionsHighScore, s) then 3 else 0)
  {
    var r1 := Rules[1..];
    var r2 := r1[1..];
    assert r1 == [ScoreRenewableMismatch, IncreasingEmissionsHighScore];
    assert r2 == [IncreasingEmissionsHighScore];
    assert r2[1..] == [];
    assert FiredAnomalies(r2[1..], s) == [];
    assert FiredPoints(r2[1..], s) == 0;
    assert FiredAnomalies(r2, s)
        == (if Fires(IncreasingEmissionsHighScore, s) then [AnomalyFor(IncreasingEmissionsHighScore)] else []) + [];
    assert FiredAnomalies(r1, s)
        == (if Fires(ScoreRenewableMismatch, s) then [AnomalyFor(ScoreRenewableMismatch)] else [])
         + FiredAnomalies(r2, s);
    assert FiredPoints(r2, s) == (if Fires(IncreasingEmissionsHighScore, s) then 3 else 0);
    assert FiredPoints(r1, s) == (if Fires(ScoreRenewableMismatch, s) then 3 else 0) + FiredPoints(r2, s);
  }

  /** The rule pass of `detect_greenwashing`: checks the three rules in
      order, appending a rule's anomaly and adding its points when it fires. */
  method CheckRules(s: Signals) returns (anomalies: seq<Anomaly>, riskFactors: int)
    ensures anomalies == FiredAnomalies(Rules, s)
    ensures riskFactors == FiredPoints(Rules, s)
  {
    UnfoldRules(s);
    anomalies := [];
    riskFactors := 0;
    if s.environmentalScore > 80.0 && s.totalEmissions > 3000.0 {
      anomalies := anomalies + [AnomalyFor(HighScoreHighEmissions)];
      riskFactors := riskFactors + 2;
    }
    if s.environmentalScore > 70.0 && s.renewablePercentage < 20.0 {
      anomalies := anomalies + [AnomalyFor(ScoreRenewableMismatch)];
      riskFactors := riskFactors + 3;
    }
    if s.trend > 0.05 && s.environmentalScore > 75.0 {
      anomalies := anomalies + [AnomalyFor(IncreasingEmissionsHighScore)];
      riskFactors := riskFactors + 3;
    }
  }

  /** `detect_greenwashing`: the rule pass, then the index capped at 100, the
      level and the cumulative recommendations. */
  method DetectGreenwashing(d: EntityData, confidence: real) returns (report: GreenwashingReport)
    ensures report.anomalies == FiredAnomalies(Rules, SignalsOf(d))
    ensures report.riskIndex == RiskIndex(FiredPoints(Rules, SignalsOf(d)))
    ensures 0 <= report.riskIndex <= 100
    ensures report.anomalyCount == |report.anomalies| <= 3
    ensures report.riskLevel == RiskLevel(report.riskIndex)
    ensures report.recommendations == GreenwashingRecommendations(report.riskIndex)
    ensures report.confidence == confidence
  {
    var anomalies, riskFactors := CheckRules(SignalsOf(d));
    var riskIndex := RiskIndex(riskFactors);

    var recommendations: seq<string> := [];
    if riskIndex > 50 {
      recommendations := recommendations + [ThirdPartyVerification, SupplyChainAudit];
    }
    if riskIndex > 30 {
      recommendations := recommendations + [MonitorEmissions];
    }

    assert recommendations == GreenwashingRecommendations(riskIndex);
    var level := if riskIndex > 60 then High else if riskIndex > 30 then Moderate else Low;
    assert level == RiskLevel(riskIndex);
    report := GreenwashingReport(riskIndex, level, anomalies, |anomalies|, recommendations, confidence);
  }

  /** Every anomaly reported is the record of a rule that fired. */
  lemma {:induction false} FiredAnomaliesAreFiredRules(rules: seq<AnomalyType>, s: Signals)
    ensures forall i :: 0 <= i < |FiredAnomalies(rules, s)| ==>
      FiredAnomalies(rules, s)[i] == AnomalyFor(FiredAnomalies(rules, s)[i].anomalyType)
      && Fires(FiredAnomalies(rules, s)[i].anomalyType, s)
      && FiredAnomalies(rules, s)[i].anomalyType in rules
  {
    if rules != [] {
      FiredAnomaliesAreFiredRules(rules[1..], s);
      var head := if Fires(rules[0], s) then [AnomalyFor(rules[0])] else [];
      var tail := FiredAnomalies(rules[1..], s);
      var a := FiredAnomalies(rules, s);
      assert a == head + tail;
      forall i | 0 <= i < |a|
        ensures a[i] == AnomalyFor(a[i].anomalyType) && Fires(a[i].anomalyType, s) && a[i].anomalyType in rules
      {
        if i < |head| {
          assert a[i] == AnomalyFor(rules[0]);
        } else {
          assert a[i] == tail[i - |head|];
          assert a[i].anomalyType in rules[1..];
        }
      }
    }
  }

  /** A rank bound that holds of every rule holds of every fired anomaly. */
  lemma {:induction false} FiredRanksAbove(rules: seq<AnomalyType>, s: Signals, bound: int)
    requires forall i :: 0 <= i < |rules| ==> bound < RuleRank(rules[i])
    ensures forall i :: 0 <= i < |FiredAnomalies(rules, s)| ==>
      bound < RuleRank(FiredAnomalies(rules, s)[i].anomalyType)
  {
    if rules != [] {
      FiredRanksAbove(rules[1..], s, bound);
      var head := if Fires(rules[0], s) then [AnomalyFor(rules[0])] else [];
      var tail := FiredAnomalies(rules[1..], s);
      var a := FiredAnomalies(rules, s);
      assert a == head + tail;
      forall i | 0 <= i < |a|
        ensures bound < RuleRank(a[i].anomalyType)
      {
        if i < |head| {
          assert a[i] == AnomalyFor(rules[0]);
        } else {
          assert a[i] == tail[i - |head|];
        }
      }
    }
  }

  /** Rules fire independently but their anomalies keep the rules' order. */
  lemma {:induction false} FiredAnomaliesInRuleOrder(rules: seq<AnomalyType>, s: Signals)
    requires forall i, j :: 0 <= i < j < |rules| ==> RuleRank(rules[i]) < RuleRank(rules[j])
    ensures forall i, j :: 0 <= i < j < |FiredAnomalies(rules, s)| ==>
      RuleRank(FiredAnomalies(rules, s)[i].anomalyType) < RuleRank(FiredAnomalies(rules, s)[j].anomalyType)
  {
    if rules != [] {
      var rest := rules[1..];
      FiredAnomaliesInRuleOrder(rest, s);
      var head := if Fires(rules[0], s) then [AnomalyFor(rules[0])] else [];
      var tail := FiredAnomalies(rest, s);
      var a := FiredAnomalies(rules, s);
      assert a == head + tail;
      FiredRanksAbove(rest, s, RuleRank(rules[0]));
      forall i, j | 0 <= i < j < |a|
        ensures RuleRank(a[i].anomalyType) < RuleRank(a[j].anomalyType)
      {
        if i < |head| {
          assert a[i] == AnomalyFor(rules[0]);
          assert a[j] == tail[j - |head|];
        } else {
          assert a[i] == tail[i - |head|] && a[j] == tail[j - |head|];
        }
      }
    }
  }

  lemma RulesAreOrdered()
    ensures forall i, j :: 0 <= i < j < |Rules| ==> RuleRank(Rules[i]) < RuleRank(Rules[j])
  {
  }

  /** The index takes one of six values, one per set of fired rules. */
  lemma RiskIndexValues(s: Signals)
    ensures RiskIndex(FiredPoints(Rules, s)) in {0, 30, 45, 75, 90, 100}
    ensures RiskIndex(FiredPoints(Rules, s)) == 0 <==> FiredAnomalies(Rules, s) == []
  {
    UnfoldRules(s);
  }

  /** A lone medium-severity anomaly scores exactly 30: that is a "low" level
      with no recommendation. */
  lemma LoneMediumAnomalyIsLow(s: Signals)
    requires Fires(HighScoreHighEmissions, s)
    requires !Fires(ScoreRenewableMismatch, s) && !Fires(IncreasingEmissionsHighScore, s)
    ensures FiredAnomalies(Rules, s) == [AnomalyFor(HighScoreHighEmissions)]
    ensures RiskIndex(FiredPoints(Rules, s)) == 30
    ensures RiskLevel(30) == Low && GreenwashingRecommendations(30) == []
  {
    UnfoldRules(s);
  }

  /** All three rules firing give 8 points, which the cap holds at 100. */
  lemma AllRulesFiringHitsCap(s: Signals)
    requires Fires(HighScoreHighEmissions, s) && Fires(ScoreRenewableMismatch, s)
    requires Fires(IncreasingEmissionsHighScore, s)
    ensures FiredPoints(Rules, s) == 8 && RiskIndex(FiredPoints(Rules, s)) == 100
    ensures |FiredAnomalies(Rules, s)| == 3
  {
    UnfoldRules(s);
  }
}
