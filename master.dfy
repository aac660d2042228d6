/** The master agent: the carbon credit score, the final credit rating and
    its recommendations, the carbon comparison of the two portfolios, the
    assembly of a micro-loan answer, and the dispatch of a request to the
    sub-agents. The collector's cache is the only state it changes. */
module Master {
  import opened Numeric
  import opened Wrappers
  import opened DataCollection
  import RiskAssessment
  import Inclusion
  import PortfolioOptimization

  // ---------------------------------------------------------------------------
  // Carbon score

  /** `max(-20, min(20, -trend * 10))`: a falling trend earns up to 20
      points, a rising one costs up to 20. */
  function TrendBonus(trend: real): (b: real)
    ensures -20.0 <= b <= 20.0
    ensures -2.0 <= trend <= 2.0 ==> b == -trend * 10.0
    ensures trend <= 0.0 <==> b >= 0.0
  {
    Max(-20.0, Min(20.0, -trend * 10.0))
  }

  /** The 0-100 carbon score: 100 less a point per thousand tons (not below
      0), the trend bonus, 0.3 points per renewable percent, clamped. */
  function CarbonScore(totalEmissions: real, trend: real, renewablePct: real): (s: real)
    ensures 0.0 <= s <= 100.0
    ensures s == Clamp(0.0, 100.0, Max(0.0, 100.0 - totalEmissions / 1000.0) + TrendBonus(trend) + renewablePct * 0.3)
  {
    Min(100.0, Max(0.0, Max(0.0, 100.0 - totalEmissions / 1000.0) + TrendBonus(trend) + renewablePct * 0.3))
  }

  /** Lower emissions, a lower trend and a higher renewable share never lower
      the score. */
  lemma CarbonScoreMonotone(e1: real, t1: real, r1: real, e2: real, t2: real, r2: real)
    requires e2 <= e1 && t2 <= t1 && r1 <= r2
    ensures CarbonScore(e1, t1, r1) <= CarbonScore(e2, t2, r2)
  {
    var raw1 := Max(0.0, 100.0 - e1 / 1000.0) + TrendBonus(t1) + r1 * 0.3;
    var raw2 := Max(0.0, 100.0 - e2 / 1000.0) + TrendBonus(t2) + r2 * 0.3;
    assert raw1 <= raw2;
    ClampMonotone(0.0, 100.0, raw1, raw2);
  }

  /** `_calculate_carbon_score` as written: the renewable share is looked up
      at the top level of the record, where the collector never puts it, so
      the default 0 is always used. */
  function CalculateCarbonScoreAsWritten(d: EntityData): (s: real)
    ensures 0.0 <= s <= 100.0
  {
    CarbonScore(d.carbonEmissions.totalCo2Tons, d.carbonEmissions.trend, 0.0)
  }

  /** The as-written score does not depend on the renewable share at all. */
  lemma RenewableShareIgnoredAsWritten(d: EntityData, pct: real)
    ensures CalculateCarbonScoreAsWritten(d.(carbonEmissions := d.carbonEmissions.(renewableEnergyPercentage := pct)))
         == CalculateCarbonScoreAsWritten(d)
  {
  }

  /** `_calculate_carbon_score` reading the renewable share from the carbon
      record, where the collector stores it. */
  function CalculateCarbonScore(d: EntityData): (s: real)
    ensures 0.0 <= s <= 100.0
  {
    CarbonScore(d.carbonEmissions.totalCo2Tons, d.carbonEmissions.trend,
                d.carbonEmissions.renewableEnergyPercentage)
  }

  /** With the share read from the carbon record, a non-negative share only
      adds to the as-written score, and each further percent counts. */
  lemma RenewableShareCounts(d: EntityData, pct: real)
    requires d.carbonEmissions.renewableEnergyPercentage >= 0.0
    requires pct >= d.carbonEmissions.renewableEnergyPercentage
    ensures CalculateCarbonScore(d) >= CalculateCarbonScoreAsWritten(d)
    ensures CalculateCarbonScore(d.(carbonEmissions := d.carbonEmissions.(renewableEnergyPercentage := pct)))
         >= CalculateCarbonScore(d)
  {
    var c := d.carbonEmissions;
    CarbonScoreMonotone(c.totalCo2Tons, c.trend, 0.0, c.totalCo2Tons, c.trend, c.renewableEnergyPercentage);
    CarbonScoreMonotone(c.totalCo2Tons, c.trend, c.renewableEnergyPercentage, c.totalCo2Tons, c.trend, pct);
  }

  /** An entity emitting 100000 tons with a flat trend and 80% renewable
      energy scores 0 as written and 24 with the share read correctly. */
  lemma RenewableBonusLostExample(d: EntityData)
    requires d.carbonEmissions.totalCo2Tons == 100000.0 && d.carbonEmissions.trend == 0.0
    requires d.carbonEmissions.renewableEnergyPercentage == 80.0
    ensures CalculateCarbonScoreAsWritten(d) == 0.0
    ensures CalculateCarbonScore(d) == 24.0
  {
    assert TrendBonus(0.0) == 0.0;
    assert Max(0.0, 100.0 - 100000.0 / 1000.0) == 0.0;
    assert CalculateCarbonScoreAsWritten(d) == CarbonScore(100000.0, 0.0, 0.0) == 0.0;
    assert CalculateCarbonScore(d) == CarbonScore(100000.0, 0.0, 80.0) == 24.0;
  }

  // ---------------------------------------------------------------------------
  // Credit rating

  datatype Rating = AAA | AA | A | BBB | BB

  /** A rating and the interest-rate adjustment that goes with it. */
  datatype RatingBand = RatingBand(rating: Rating, adjustment: real)

  /** What `_generate_credit_rating` returns. */
  datatype CreditRating = CreditRating(
    rating: Rating,
    combinedScore: real,
    traditionalScore: real,
    carbonScore: real,
    interestRateAdjustment: real)

  /** 60% traditional, 40% carbon. */
  function CombinedScore(traditional: real, carbon: real): (c: real)
    ensures c == traditional * 0.6 + carbon * 0.4
    ensures Min(traditional, carbon) <= c <= Max(traditional, carbon)
  {
    traditional * 0.6 + carbon * 0.4
  }

  /** The rating bands; a boundary belongs to the higher band. */
  function RatingBandFor(combined: real): (b: RatingBand)
    ensures combined >= 80.0 <==> b == RatingBand(AAA, -0.02)
    ensures 70.0 <= combined < 80.0 <==> b == RatingBand(AA, -0.01)
    ensures 60.0 <= combined < 70.0 <==> b == RatingBand(A, 0.0)
    ensures 50.0 <= combined < 60.0 <==> b == RatingBand(BBB, 0.01)
    ensures combined < 50.0 <==> b == RatingBand(BB, 0.02)
  {
    if combined >= 80.0 then RatingBand(AAA, -0.02)
    else if combined >= 70.0 then RatingBand(AA, -0.01)
    else if combined >= 60.0 then RatingBand(A, 0.0)
    else if combined >= 50.0 then RatingBand(BBB, 0.01)
    else RatingBand(BB, 0.02)
  }

  /** Position of a rating from best (0) to worst (4). */
  function RatingRank(r: Rating): nat
  {
    match r
    case AAA => 0
    case AA => 1
    case A => 2
    case BBB => 3
    case BB => 4
  }

  /** A higher combined score never gives a worse rating nor a larger rate
      adjustment. */
  lemma RatingMonotone(a: real, b: real)
    requires a <= b
    ensures RatingRank(RatingBandFor(b).rating) <= RatingRank(RatingBandFor(a).rating)
    ensures RatingBandFor(b).adjustment <= RatingBandFor(a).adjustment
  {
  }

  function CreditRatingFrom(traditional: real, carbon: real): (r: CreditRating)
    ensures r.combinedScore == CombinedScore(traditional, carbon)
    ensures RatingBand(r.rating, r.interestRateAdjustment) == RatingBandFor(r.combinedScore)
    ensures r.traditionalScore == traditional && r.carbonScore == carbon
  {
    var combined := CombinedScore(traditional, carbon);
    var band := RatingBandFor(combined);
    CreditRating(band.rating, combined, traditional, carbon, band.adjustment)
  }

  /** `_generate_credit_rating` as written: the traditional score it blends
      is the 300-850 credit score. */
  function GenerateCreditRatingAsWritten(risk: RiskAssessment.RiskAnalysis, carbon: real): (r: CreditRating)
    ensures r.traditionalScore == risk.creditScore as real
  {
    CreditRatingFrom(risk.creditScore as real, carbon)
  }

  /** Since the credit score is at least 300, the combined score is at least
      180 and every entity is rated AAA with the full discount. */
  lemma AsWrittenRatingIsAlwaysAAA(d: EntityData, carbon: real)
    requires RiskAssessment.EsgScoresNonNegative(d.esgMetrics) && carbon >= 0.0
    ensures GenerateCreditRatingAsWritten(RiskAssessment.AssessRisk(d), carbon).combinedScore >= 180.0
    ensures GenerateCreditRatingAsWritten(RiskAssessment.AssessRisk(d), carbon).rating == AAA
    ensures GenerateCreditRatingAsWritten(RiskAssessment.AssessRisk(d), carbon).interestRateAdjustment == -0.02
  {
  }

  /** `_generate_credit_rating` blending the 0-100 composite risk score with
      the carbon score, both on the same scale. */
  function GenerateCreditRating(risk: RiskAssessment.RiskAnalysis, carbon: real): (r: CreditRating)
    ensures r.traditionalScore == risk.compositeRiskScore
    ensures 0.0 <= risk.compositeRiskScore <= 100.0 && 0.0 <= carbon <= 100.0 ==> 0.0 <= r.combinedScore <= 100.0
  {
    CreditRatingFrom(risk.compositeRiskScore, carbon)
  }

  /** With the scales aligned every band is reachable: equal composite and
      carbon scores of 100, 75, 65, 55 and 0 give AAA, AA, A, BBB and BB. */
  lemma CorrectedRatingReachesEveryBand()
    ensures CreditRatingFrom(100.0, 100.0).rating == AAA
    ensures CreditRatingFrom(75.0, 75.0).rating == AA
    ensures CreditRatingFrom(65.0, 65.0).rating == A
    ensures CreditRatingFrom(55.0, 55.0).rating == BBB
    ensures CreditRatingFrom(0.0, 0.0).rating == BB
  {
  }

  // ---------------------------------------------------------------------------
  // Recommendations

  const RenewableAdvice := "Consider implementing renewable energy sources to improve carbon score"
  const RoadmapAdvice := "Develop a carbon reduction roadmap to access better financing terms"
  const EsgReportingAdvice := "Improve ESG reporting transparency to enhance investor confidence"

  /** The advice list: two carbon items below a carbon score of 50, one ESG
      item below a combined score of 60. */
  function Recommendations(carbonScore: real, combinedScore: real): (r: seq<string>)
    ensures |r| == (if carbonScore < 50.0 then 2 else 0) + (if combinedScore < 60.0 then 1 else 0)
    ensures |r| <= 3
    ensures r == [] <==> carbonScore >= 50.0 && combinedScore >= 60.0
    ensures carbonScore < 50.0 ==> r[0] == RenewableAdvice && r[1] == RoadmapAdvice
    ensures combinedScore < 60.0 ==> r[|r| - 1] == EsgReportingAdvice
  {
    (if carbonScore < 50.0 then [RenewableAdvice, RoadmapAdvice] else [])
    + (if combinedScore < 60.0 then [EsgReportingAdvice] else [])
  }

  /** `_generate_recommendations`, appending item by item. */
  method GenerateRecommendations(rating: CreditRating) returns (recommendations: seq<string>)
    ensures recommendations == Recommendations(rating.carbonScore, rating.combinedScore)
  {
    recommendations := [];
    if rating.carbonScore < 50.0 {
      recommendations := recommendations + [RenewableAdvice];
      recommendations := recommendations + [RoadmapAdvice];
    }
    if rating.combinedScore < 60.0 {
      recommendations := recommendations + [EsgReportingAdvice];
    }
  }

  /** A low carbon score drags the combined score below 60 unless the
      traditional score is high: below 50 carbon and below 66 traditional,
      all three items are given. */
  lemma WeakProfileGetsAllAdvice(traditional: real, carbon: real)
    requires carbon < 50.0 && traditional < 66.0
    ensures |Recommendations(carbon, CreditRatingFrom(traditional, carbon).combinedScore)| == 3
  {
  }

  // ---------------------------------------------------------------------------
  // Carbon comparison

  datatype CarbonComparison = CarbonComparison(
    traditionalEmissionsTons: real,
    greenEmissionsTons: real,
    reductionTons: real,
    reductionPercentage: real,
    netZeroTimelineYears: real)

  /** The comparison of two emission totals: the reduction, its percentage
      (0 when the traditional total is not positive) and the net-zero
      timeline, which divides by the reduction floored at 1. */
  function ComparisonOf(trad: real, green: real): (c: CarbonComparison)
    ensures c.traditionalEmissionsTons == trad && c.greenEmissionsTons == green
    ensures c.reductionTons == trad - green
    ensures trad <= 0.0 ==> c.reductionPercentage == 0.0
    ensures trad > 0.0 ==> c.reductionPercentage * trad == (trad - green) * 100.0
    ensures trad - green >= 1.0 ==> c.netZeroTimelineYears * (trad - green) == green * 10.0
    ensures trad - green < 1.0 ==> c.netZeroTimelineYears == green * 10.0
  {
    var reduction := trad - green;
    var pct := if trad > 0.0 then reduction / trad * 100.0 else 0.0;
    CarbonComparison(trad, green, reduction, pct, green / Max(1.0, reduction) * 10.0)
  }

  /** Allocations are fractions and tonnages are non-negative. */
  predicate FractionalNonNegative(assets: seq<PortfolioOptimization.Asset>)
  {
    forall i :: 0 <= i < |assets| ==>
      0.0 <= assets[i].allocation <= 1.0 && 0.0 <= assets[i].annualCo2Tons
  }

  /** `sum(annual_co2_tons * allocation)`, the sum the comparison takes as
      written. */
  function AllocationWeightedEmissions(assets: seq<PortfolioOptimization.Asset>): real
  {
    if assets == [] then 0.0
    else assets[0].annualCo2Tons * assets[0].allocation + AllocationWeightedEmissions(assets[1..])
  }

  /** With fractional allocations the weighted sum never exceeds the
      footprint, so the comparison as written can only understate it. */
  lemma {:induction false} AllocationWeightedEmissionsWithinFootprint(assets: seq<PortfolioOptimization.Asset>)
    requires FractionalNonNegative(assets)
    ensures 0.0 <= AllocationWeightedEmissions(assets) <= PortfolioOptimization.CarbonFootprint(assets)
  {
    if assets != [] {
      var tons, share, rest := assets[0].annualCo2Tons, assets[0].allocation, assets[1..];
      assert forall i :: 0 <= i < |rest| ==> rest[i] == assets[i + 1];
      AllocationWeightedEmissionsWithinFootprint(rest);
      WeightedTonsBounded(tons, share);
      assert AllocationWeightedEmissions(assets) == tons * share + AllocationWeightedEmissions(rest);
      assert PortfolioOptimization.CarbonFootprint(assets) == tons + PortfolioOptimization.CarbonFootprint(rest);
    }
  }

  lemma WeightedTonsBounded(tons: real, share: real)
    requires 0.0 <= tons && 0.0 <= share <= 1.0
    ensures 0.0 <= tons * share <= tons
  {
    assert tons * share <= tons * 1.0;
  }

  /** `_compare_carbon_impact` as written: each asset's annual tons, already
      weighted by its allocation, is weighted by it again. */
  function CompareCarbonImpactAsWritten(trad: PortfolioOptimization.Portfolio,
                                        green: PortfolioOptimization.Portfolio): (c: CarbonComparison)
    ensures c == ComparisonOf(AllocationWeightedEmissions(trad.assets), AllocationWeightedEmissions(green.assets))
  {
    ComparisonOf(AllocationWeightedEmissions(trad.assets), AllocationWeightedEmissions(green.assets))
  }

  /** `_compare_carbon_impact` summing the assets' annual tons: the totals
      are the portfolios' own footprints. */
  function CompareCarbonImpact(trad: PortfolioOptimization.Portfolio,
                               green: PortfolioOptimization.Portfolio): (c: CarbonComparison)
    ensures c == ComparisonOf(PortfolioOptimization.CarbonFootprint(trad.assets),
                              PortfolioOptimization.CarbonFootprint(green.assets))
  {
    ComparisonOf(PortfolioOptimization.CarbonFootprint(trad.assets),
                 PortfolioOptimization.CarbonFootprint(green.assets))
  }

  /** For the moderate traditional portfolio the as-written total is 483
      tons, while the portfolio reports a footprint of 1630. */
  lemma AsWrittenComparisonUnderstatesFootprint(capital: real)
    ensures AllocationWeightedEmissions(PortfolioOptimization.TraditionalAssets(capital, "moderate")) == 483.0
    ensures PortfolioOptimization.CarbonFootprint(PortfolioOptimization.TraditionalAssets(capital, "moderate")) == 1630.0
  {
    var assets := PortfolioOptimization.TraditionalAssets(capital, "moderate");
    var t := PortfolioOptimization.TraditionalModerate;
    assert assets == [PortfolioOptimization.TraditionalAsset(t[0], capital),
                      PortfolioOptimization.TraditionalAsset(t[1], capital),
                      PortfolioOptimization.TraditionalAsset(t[2], capital),
                      PortfolioOptimization.TraditionalAsset(t[3], capital)];
    var s1 := assets[1..];
    var s2 := s1[1..];
    var s3 := s2[1..];
    assert s3[1..] == [];
    assert AllocationWeightedEmissions(s3) == 18.0;
    assert AllocationWeightedEmissions(s2) == 100.0 + 18.0;
    assert AllocationWeightedEmissions(s1) == 45.0 + 118.0;
    assert PortfolioOptimization.CarbonFootprint(s3) == 180.0;
    assert PortfolioOptimization.CarbonFootprint(s2) == 500.0 + 180.0;
    assert PortfolioOptimization.CarbonFootprint(s1) == 150.0 + 680.0;
  }

  /** For the portfolios the agent generates at one risk tolerance, the
      corrected comparison reports the two footprints, and the green one
      is always at least 90% lighter (exactly 90% for the conservative tables). */
  lemma CorrectedComparisonOfGeneratedPortfolios(capital: real, riskTolerance: string,
                                                 ratings: seq<PortfolioOptimization.EsgRating>)
    requires |ratings| == 4
    ensures |PortfolioOptimization.GreenTable(riskTolerance)| == 4
    ensures var c := ComparisonOf(
        PortfolioOptimization.CarbonFootprint(PortfolioOptimization.TraditionalAssets(capital, riskTolerance)),
        PortfolioOptimization.CarbonFootprint(PortfolioOptimization.GreenAssets(capital, riskTolerance, ratings)));
      c.traditionalEmissionsTons == PortfolioOptimization.TableFootprint(PortfolioOptimization.TraditionalTable(riskTolerance))
      && c.greenEmissionsTons == PortfolioOptimization.TableFootprint(PortfolioOptimization.GreenTable(riskTolerance))
      && c.reductionTons > 0.0 && c.reductionPercentage >= 90.0
  {
    PortfolioOptimization.TablesWellFormed(riskTolerance);
    PortfolioOptimization.FootprintsOfTables(riskTolerance);
    var trad := PortfolioOptimization.TraditionalAssets(capital, riskTolerance);
    var green := PortfolioOptimization.GreenAssets(capital, riskTolerance, ratings);
    PortfolioOptimization.FootprintIsTableFootprint(trad, PortfolioOptimization.TraditionalTable(riskTolerance));
    PortfolioOptimization.FootprintIsTableFootprint(green, PortfolioOptimization.GreenTable(riskTolerance));
    var c := ComparisonOf(PortfolioOptimization.CarbonFootprint(trad), PortfolioOptimization.CarbonFootprint(green));
    if riskTolerance == "conservative" {
      assert c.reductionPercentage * 950.0 == 855.0 * 100.0;
    } else if riskTolerance == "aggressive" {
      assert c.reductionPercentage * 3050.0 == 2922.5 * 100.0;
    } else {
      assert c.reductionPercentage * 1630.0 == 1513.0 * 100.0;
    }
  }

  // ---------------------------------------------------------------------------
  // Requests

  /** The request parameters the agent reads; absent keys are `None`. */
  datatype RequestParams = RequestParams(
    entityId: Option<string>,
    entityType: Option<string>,
    capital: Option<real>,
    riskTolerance: Option<string>,
    companyId: Option<string>,
    application: Inclusion.Application)

  /** Every random draw and reading a request may consume. */
  datatype RequestDraws = RequestDraws(
    entity: EntityDraws,
    greenwashingConfidence: real,
    simulatedPayments: seq<Inclusion.Payment>,
    assessmentConfidence: real,
    esgRatings: seq<PortfolioOptimization.EsgRating>)

  datatype CreditReport = CreditReport(
    entityId: Option<string>,
    carbonScore: real,
    riskAnalysis: RiskAssessment.RiskAnalysis,
    creditRating: CreditRating,
    recommendations: seq<string>)

  datatype Failure = UnknownRequestType(requestType: string) | MissingLoanAmount

  datatype Response =
    | CreditResponse(report: CreditReport)
    | PortfolioResponse(traditional: PortfolioOptimization.Portfolio, green: PortfolioOptimization.Portfolio,
                        comparison: CarbonComparison, advice: string)
    | MicroLoanResponse(applicantId: Option<string>, assessment: Inclusion.CreditAssessment,
                        loanTerms: Inclusion.LoanTerms, approvalStatus: bool)
    | GreenwashingResponse(companyId: Option<string>, riskIndex: int,
                           anomalies: seq<RiskAssessment.Anomaly>, recommendations: seq<string>)
    | Failed(failure: Failure)

  const PortfolioAdvice := "Consider green portfolio for 40% lower carbon footprint"

  /** The text an absent id takes in the cache key (`str(None)`). */
  function IdText(id: Option<string>): (t: string)
    ensures id.Some? ==> t == id.value
    ensures id.None? ==> t == "None"
  {
    match id
    case Some(s) => s
    case None => "None"
  }

  function OrElse<T>(o: Option<T>, default: T): T
  {
    match o
    case Some(v) => v
    case None => default
  }

  /** The credit report `_assess_credit` returns for a collected record, as
      written: the carbon score ignores the renewable share. */
  function CreditReportOf(entityId: Option<string>, d: EntityData): (r: CreditReport)
    ensures r.entityId == entityId
    ensures r.carbonScore == CalculateCarbonScoreAsWritten(d) && 0.0 <= r.carbonScore <= 100.0
    ensures r.riskAnalysis == RiskAssessment.AssessRisk(d)
    ensures r.creditRating == GenerateCreditRatingAsWritten(r.riskAnalysis, r.carbonScore)
    ensures r.recommendations == Recommendations(r.carbonScore, r.creditRating.combinedScore)
  {
    var carbon := CalculateCarbonScoreAsWritten(d);
    var risk := RiskAssessment.AssessRisk(d);
    var rating := GenerateCreditRatingAsWritten(risk, carbon);
    CreditReport(entityId, carbon, risk, rating, Recommendations(carbon, rating.combinedScore))
  }

  /** For non-negative ESG inputs the report as written always rates AAA
      with the full discount, so the ESG-reporting advice never appears. */
  lemma AsWrittenReportIsAAA(entityId: Option<string>, d: EntityData)
    requires RiskAssessment.EsgScoresNonNegative(d.esgMetrics)
    ensures CreditReportOf(entityId, d).creditRating.combinedScore >= 180.0
    ensures CreditReportOf(entityId, d).creditRating.rating == AAA
    ensures CreditReportOf(entityId, d).creditRating.interestRateAdjustment == -0.02
    ensures EsgReportingAdvice !in CreditReportOf(entityId, d).recommendations
  {
    AsWrittenRatingIsAlwaysAAA(d, CalculateCarbonScoreAsWritten(d));
  }

  /** The credit report with both corrections: the renewable share read from
      the carbon record and the rating blended from the 0-100 composite, so
      the combined score stays on the 0-100 scale of the rating bands. */
  function CorrectedCreditReportOf(entityId: Option<string>, d: EntityData): (r: CreditReport)
    ensures r.entityId == entityId
    ensures r.carbonScore == CalculateCarbonScore(d) && 0.0 <= r.carbonScore <= 100.0
    ensures r.riskAnalysis == RiskAssessment.AssessRisk(d)
    ensures r.creditRating == GenerateCreditRating(r.riskAnalysis, r.carbonScore)
    ensures r.recommendations == Recommendations(r.carbonScore, r.creditRating.combinedScore)
    ensures RiskAssessment.EsgScoresNonNegative(d.esgMetrics) ==> 0.0 <= r.creditRating.combinedScore <= 100.0
  {
    var carbon := CalculateCarbonScore(d);
    var risk := RiskAssessment.AssessRisk(d);
    var rating := GenerateCreditRating(risk, carbon);
    CreditReport(entityId, carbon, risk, rating, Recommendations(carbon, rating.combinedScore))
  }

  /** The answer to a micro-loan request that names an amount: the
      assessment of the applicant, approval at a composite of 55, and the
      terms of the composite's band on the requested amount. */
  predicate IsMicroLoanAnswer(app: Inclusion.Application, simulated: seq<Inclusion.Payment>, r: Response)
    requires app.amount.Some?
  {
    && r.MicroLoanResponse?
    && r.applicantId == app.applicantId
    && r.approvalStatus == r.assessment.approved
    && (r.assessment.approved <==> r.assessment.alternativeCreditScore >= 55.0)
    && r.assessment.applicantId == app.applicantId
    && r.assessment.mobilePaymentScore == Inclusion.AnalyzeMobilePayments(app.mobilePaymentHistory, simulated)
    && r.assessment.greenActivityScore == Inclusion.GreenActivityScore(app.greenActivities)
    && r.assessment.socialScore == Inclusion.SocialScore(app.socialData)
    && r.assessment.alternativeCreditScore == Inclusion.AlternativeCompositeScore(
         r.assessment.mobilePaymentScore, r.assessment.greenActivityScore, r.assessment.socialScore)
    && r.loanTerms.loanTermMonths == 24
    && r.loanTerms.interestRate == Inclusion.LoanBandFor(r.assessment.alternativeCreditScore).interestRate
    && r.loanTerms.approvedAmount
       == Min(app.amount.value, app.amount.value * Inclusion.LoanBandFor(r.assessment.alternativeCreditScore).maxMultiplier)
    && r.loanTerms.approvedAmount <= app.amount.value
    && r.loanTerms.monthlyPayment == Inclusion.MonthlyPayment(app.amount.value, r.loanTerms.interestRate)
    && r.loanTerms.totalRepayment == r.loanTerms.monthlyPayment * 24.0
    && r.loanTerms.totalInterest == r.loanTerms.totalRepayment - app.amount.value
    && r.loanTerms.specialTerms == Inclusion.SpecialTerms(r.assessment.greenActivityScore)
  }

  /** `_process_micro_loan`: the applicant is assessed and loan terms are
      computed on the requested amount whether or not the assessment
      approves; a request without an amount fails in the term computation. */
  method ProcessMicroLoan(app: Inclusion.Application, simulated: seq<Inclusion.Payment>, confidence: real)
    returns (r: Response)
    ensures app.amount == None <==> r == Failed(MissingLoanAmount)
    ensures app.amount.Some? ==> IsMicroLoanAnswer(app, simulated, r)
  {
    var assessment := Inclusion.AssessAlternativeCredit(app, simulated, confidence);
    if app.amount.None? {
      return Failed(MissingLoanAmount);
    }
    var terms := Inclusion.CalculateLoanTerms(assessment, app.amount.value);
    r := MicroLoanResponse(app.applicantId, assessment, terms, assessment.approved);
  }

  /** The request types the agent dispatches. */
  predicate IsKnownRequestType(requestType: string)
  {
    requestType in {"credit_assessment", "portfolio_optimization", "micro_loan", "greenwashing_check"}
  }

  class MasterAgent {
    /** The data collection agent, whose cache survives across requests. */
    const dataAgent: DataCollectionAgent

    constructor ()
      ensures fresh(dataAgent) && dataAgent.dataCache == map[]
    {
      dataAgent := new DataCollectionAgent();
    }

    /** `process_request`: routes the request to its handler; an unknown
        type, like any failure inside a handler, becomes a failed answer
        instead of an exception. Only the two handlers that collect data
        touch the cache. */
    method ProcessRequest(requestType: string, params: RequestParams, now: int, draws: RequestDraws)
      returns (r: Response)
      requires |draws.esgRatings| == 4
      modifies dataAgent
      ensures !IsKnownRequestType(requestType) ==>
        r == Failed(UnknownRequestType(requestType)) && dataAgent.dataCache == old(dataAgent.dataCache)
      ensures requestType == "credit_assessment" ==>
        var entityType := OrElse(params.entityType, "company");
        r == CreditResponse(CreditReportOf(params.entityId,
               CollectedData(old(dataAgent.dataCache), IdText(params.entityId), entityType, now, draws.entity)))
        && dataAgent.dataCache
           == CacheAfter(old(dataAgent.dataCache), IdText(params.entityId), entityType, now, draws.entity)
        && (RiskAssessment.EsgScoresNonNegative(
              CollectedData(old(dataAgent.dataCache), IdText(params.entityId), entityType, now, draws.entity).esgMetrics)
            ==> r.report.creditRating.rating == AAA && EsgReportingAdvice !in r.report.recommendations)
      ensures requestType == "greenwashing_check" ==>
        var d := CollectedData(old(dataAgent.dataCache), IdText(params.companyId), "company", now, draws.entity);
        r.GreenwashingResponse? && r.companyId == params.companyId
        && r.anomalies == RiskAssessment.FiredAnomalies(RiskAssessment.Rules, RiskAssessment.SignalsOf(d))
        && r.riskIndex == RiskAssessment.RiskIndex(
             RiskAssessment.FiredPoints(RiskAssessment.Rules, RiskAssessment.SignalsOf(d)))
        && r.recommendations == RiskAssessment.GreenwashingRecommendations(r.riskIndex)
        && dataAgent.dataCache
           == CacheAfter(old(dataAgent.dataCache), IdText(params.companyId), "company", now, draws.entity)
      ensures requestType == "portfolio_optimization" ==>
        var capital := OrElse(params.capital, 100000.0);
        var tolerance := OrElse(params.riskTolerance, "moderate");
        r.PortfolioResponse?
        && PortfolioOptimization.IsTraditionalPortfolio(r.traditional, capital, tolerance)
        && PortfolioOptimization.IsGreenPortfolio(r.green, capital, tolerance, draws.esgRatings)
        && r.comparison == CompareCarbonImpactAsWritten(r.traditional, r.green)
        && r.advice == PortfolioAdvice
        && dataAgent.dataCache == old(dataAgent.dataCache)
      ensures requestType == "micro_loan" ==>
        (params.application.amount == None <==> r == Failed(MissingLoanAmount))
        && (params.application.amount.Some? ==>
              IsMicroLoanAnswer(params.application, draws.simulatedPayments, r))
        && dataAgent.dataCache == old(dataAgent.dataCache)
    {
      if requestType == "credit_assessment" {
        var entityType := OrElse(params.entityType, "company");
        var data := dataAgent.CollectAllData(IdText(params.entityId), entityType, now, draws.entity);
        var risk := RiskAssessment.AssessRisk(data);
        var carbon := CalculateCarbonScoreAsWritten(data);
        var rating := GenerateCreditRatingAsWritten(risk, carbon);
        var recommendations := GenerateRecommendations(rating);
        r := CreditResponse(CreditReport(params.entityId, carbon, risk, rating, recommendations));
        if RiskAssessment.EsgScoresNonNegative(data.esgMetrics) {
          AsWrittenReportIsAAA(params.entityId, data);
        }
      } else if requestType == "portfolio_optimization" {
        var capital := OrElse(params.capital, 100000.0);
        var tolerance := OrElse(params.riskTolerance, "moderate");
        var traditional := PortfolioOptimization.OptimizeTraditional(capital, tolerance);
        var green := PortfolioOptimization.OptimizeGreen(capital, tolerance, draws.esgRatings);
        r := PortfolioResponse(traditional, green, CompareCarbonImpactAsWritten(traditional, green), PortfolioAdvice);
      } else if requestType == "micro_loan" {
        r := ProcessMicroLoan(params.application, draws.simulatedPayments, draws.assessmentConfidence);
      } else if requestType == "greenwashing_check" {
        var data := dataAgent.CollectAllData(IdText(params.companyId), "company", now, draws.entity);
        var analysis := RiskAssessment.DetectGreenwashing(data, draws.greenwashingConfidence);
        r := GreenwashingResponse(params.companyId, analysis.riskIndex, analysis.anomalies, analysis.recommendations);
      } else {
        r := Failed(UnknownRequestType(requestType));
      }
    }
  }
}
