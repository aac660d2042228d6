/** The inclusion agent: an alternative credit score built from mobile
    payments, green activities and social standing, the loan terms derived
    from it, the special terms attached to a loan, and the education content
    lookup. Random draws and the clock are parameters. */
module Inclusion {
  import opened Numeric
  import opened Wrappers

  /** One mobile payment; a record without an amount counts as 0. */
  datatype Payment = Payment(amount: Option<real>)

  /** The `green_activities` dictionary, its missing keys already defaulted
      (no panels, 0 kWh, no organic farming, no practices). */
  datatype GreenActivities = GreenActivities(
    hasSolarPanels: bool,
    solarGenerationKwh: real,
    organicFarming: bool,
    sustainablePractices: seq<string>)

  /** The `social_data` dictionary, its missing keys already defaulted. */
  datatype SocialData = SocialData(
    communityMember: bool,
    businessReferences: int,
    yearsInCommunity: real)

  /** The applicant record the agent reads. */
  datatype Application = Application(
    applicantId: Option<string>,
    amount: Option<real>,
    mobilePaymentHistory: seq<Payment>,
    greenActivities: GreenActivities,
    socialData: SocialData)

  /** What `assess_alternative_credit` returns (timestamp and method tag
      left out). */
  datatype CreditAssessment = CreditAssessment(
    applicantId: Option<string>,
    alternativeCreditScore: real,
    mobilePaymentScore: real,
    greenActivityScore: real,
    socialScore: real,
    approved: bool,
    confidenceLevel: real)

  /** Interest rate and the multiplier bounding the approved amount. */
  datatype LoanBand = LoanBand(interestRate: real, maxMultiplier: real)

  /** What `calculate_loan_terms` returns (the first payment date left out). */
  datatype LoanTerms = LoanTerms(
    approvedAmount: real,
    interestRate: real,
    loanTermMonths: nat,
    monthlyPayment: real,
    totalRepayment: real,
    totalInterest: real,
    specialTerms: seq<string>)

  /** The agent's base annual rate. */
  const BaseInterestRate: real := 0.08

  /** Every loan runs for two years. */
  const LoanTermMonths: nat := 24

  /** The approval threshold on the composite score. */
  const ApprovalThreshold: real := 55.0

  // ---------------------------------------------------------------------------
  // Mobile payments

  function AmountOf(p: Payment): real
  {
    match p.amount
    case Some(a) => a
    case None => 0.0
  }

  /** `sum(p.get("amount", 0) for p in history)`. */
  function SumAmounts(history: seq<Payment>): real
  {
    if history == [] then 0.0 else AmountOf(history[0]) + SumAmounts(history[1..])
  }

  /** Every payment amount lies in `[lo, hi]`. */
  predicate AmountsWithin(history: seq<Payment>, lo: real, hi: real)
  {
    forall i :: 0 <= i < |history| ==> lo <= AmountOf(history[i]) <= hi
  }

  /** The sum of n amounts in `[lo, hi]` lies in `[n * lo, n * hi]`. */
  lemma {:induction false} SumAmountsWithin(history: seq<Payment>, lo: real, hi: real)
    requires AmountsWithin(history, lo, hi)
    ensures |history| as real * lo <= SumAmounts(history) <= |history| as real * hi
  {
    if history != [] {
      assert AmountsWithin(history[1..], lo, hi) by {
        forall i | 0 <= i < |history[1..]|
          ensures lo <= AmountOf(history[1..][i]) <= hi
        {
          assert history[1..][i] == history[i + 1];
        }
      }
      SumAmountsWithin(history[1..], lo, hi);
      assert lo <= AmountOf(history[0]) <= hi;
    }
  }

  /** Every payment amount is non-negative. */
  predicate AmountsNonNegative(history: seq<Payment>)
  {
    forall i :: 0 <= i < |history| ==> 0.0 <= AmountOf(history[i])
  }

  /** Non-negative amounts have a non-negative sum. */
  lemma {:induction false} SumAmountsNonNegative(history: seq<Payment>)
    requires AmountsNonNegative(history)
    ensures SumAmounts(history) >= 0.0
  {
    if history != [] {
      assert AmountsNonNegative(history[1..]) by {
        forall i | 0 <= i < |history[1..]|
          ensures 0.0 <= AmountOf(history[1..][i])
        {
          assert history[1..][i] == history[i + 1];
        }
      }
      SumAmountsNonNegative(history[1..]);
      assert 0.0 <= AmountOf(history[0]);
    }
  }

  /** The mean amount; the count is floored at 1, so an empty history has
      mean 0 rather than a division by zero. */
  function AverageAmount(history: seq<Payment>): (avg: real)
    ensures history == [] ==> avg == 0.0
  {
    SumAmounts(history) / (if |history| > 1 then |history| else 1) as real
  }

  /** `min(50, count * 2)`. */
  function FrequencyScore(count: nat): (s: real)
    ensures 0.0 <= s <= 50.0
    ensures count >= 25 <==> s == 50.0
  {
    Min(50.0, (count * 2) as real)
  }

  /** `min(50, avg / 10)`. */
  function AmountScore(avg: real): (s: real)
    ensures s <= 50.0
    ensures avg >= 0.0 ==> s >= 0.0
    ensures avg >= 500.0 <==> s == 50.0
  {
    Min(50.0, avg / 10.0)
  }

  /** `_analyze_mobile_payments` on a history it scores as given. */
  function MobilePaymentScore(history: seq<Payment>): (s: real)
    ensures s <= 100.0
    ensures s == Min(100.0, FrequencyScore(|history|) + AmountScore(AverageAmount(history)))
  {
    Min(100.0, FrequencyScore(|history|) + AmountScore(AverageAmount(history)))
  }

  /** A history whose amounts are all non-negative scores at least 0, and
      the score reaches 100 exactly when both parts saturate. */
  lemma MobileScoreRange(history: seq<Payment>)
    requires AmountsNonNegative(history)
    ensures 0.0 <= MobilePaymentScore(history) <= 100.0
    ensures MobilePaymentScore(history) == 100.0 <==>
      |history| >= 25 && AverageAmount(history) >= 500.0
  {
    SumAmountsNonNegative(history);
  }

  /** `_analyze_mobile_payments`: an empty history is replaced by the
      simulated one the caller supplies. */
  function AnalyzeMobilePayments(history: seq<Payment>, simulated: seq<Payment>): (s: real)
    ensures history != [] ==> s == MobilePaymentScore(history)
    ensures history == [] ==> s == MobilePaymentScore(simulated)
  {
    MobilePaymentScore(if history == [] then simulated else history)
  }

  /** The simulated history holds 10 to 30 income payments of 50 to 500:
      it always scores between 25 and 100. */
  lemma SimulatedHistoryScore(simulated: seq<Payment>)
    requires 10 <= |simulated| <= 30
    requires AmountsWithin(simulated, 50.0, 500.0)
    ensures 25.0 <= AnalyzeMobilePayments([], simulated) <= 100.0
  {
    SumAmountsWithin(simulated, 50.0, 500.0);
    var n := |simulated| as real;
    assert n * 50.0 <= SumAmounts(simulated);
    assert AverageAmount(simulated) == SumAmounts(simulated) / n;
    assert AverageAmount(simulated) >= 50.0;
  }

  // ---------------------------------------------------------------------------
  // Green activities

  /** What `_analyze_green_activities` computes: 30 plus `min(20, kWh / 100)`
      for solar panels, 25 for organic farming, `min(25, 8 * practices)`,
      capped at 100. */
  function GreenActivityScore(g: GreenActivities): (r: real)
    ensures r <= 100.0
    ensures g.solarGenerationKwh >= 0.0 ==> r >= 0.0
    ensures !g.hasSolarPanels && !g.organicFarming ==> r <= 25.0
  {
    var solar := if g.hasSolarPanels then 30.0 + Min(20.0, g.solarGenerationKwh / 100.0) else 0.0;
    var organic := if g.organicFarming then 25.0 else 0.0;
    var practices := Min(25.0, (|g.sustainablePractices| * 8) as real);
    Min(100.0, solar + organic + practices)
  }

  /** `_analyze_green_activities`, accumulating the score step by step. */
  method AnalyzeGreenActivities(g: GreenActivities) returns (score: real)
    ensures score == GreenActivityScore(g)
  {
    score := 0.0;
    if g.hasSolarPanels {
      score := score + 30.0;
      score := score + Min(20.0, g.solarGenerationKwh / 100.0);
    }
    if g.organicFarming {
      score := score + 25.0;
    }
    score := score + Min(25.0, (|g.sustainablePractices| * 8) as real);
    score := Min(100.0, score);
  }

  /** For a non-negative generation reading the score lies in [0, 100]; the
      parts add up to at most 100, so the cap never cuts anything off. */
  lemma GreenActivityRange(g: GreenActivities)
    requires g.solarGenerationKwh >= 0.0
    ensures 0.0 <= GreenActivityScore(g) <= 100.0
    ensures GreenActivityScore(g)
         == (if g.hasSolarPanels then 30.0 + Min(20.0, g.solarGenerationKwh / 100.0) else 0.0)
          + (if g.organicFarming then 25.0 else 0.0)
          + Min(25.0, (|g.sustainablePractices| * 8) as real)
  {
  }

  /** Without panels the generation reading is ignored; practices give
      `min(25, 8 * n)`: 24 for three practices, 25 from four on. */
  lemma SolarBonusNeedsPanels(g: GreenActivities, kwh: real)
    requires !g.hasSolarPanels
    ensures GreenActivityScore(g.(solarGenerationKwh := kwh)) == GreenActivityScore(g)
    ensures GreenActivityScore(g) == (if g.organicFarming then 25.0 else 0.0)
                                   + Min(25.0, (|g.sustainablePractices| * 8) as real)
  {
  }

  /** One more sustainable practice never lowers the score. */
  lemma MorePracticesNeverLowerGreenScore(g: GreenActivities, practice: string)
    ensures GreenActivityScore(g.(sustainablePractices := g.sustainablePractices + [practice]))
         >= GreenActivityScore(g)
  {
  }

  // ---------------------------------------------------------------------------
  // Social factors

  /** What `_analyze_social_factors` computes: a base of 50, 15 for community
      membership, `min(20, 5 * references)`, `min(15, 2 * years)`, capped at
      100. */
  function SocialScore(s: SocialData): (r: real)
    ensures r <= 100.0
    ensures !s.communityMember ==> r <= 85.0
  {
    var community := if s.communityMember then 15.0 else 0.0;
    var references := Min(20.0, (s.businessReferences * 5) as real);
    var years := Min(15.0, s.yearsInCommunity * 2.0);
    Min(100.0, 50.0 + community + references + years)
  }

  /** `_analyze_social_factors`, accumulating the score step by step. */
  method AnalyzeSocialFactors(s: SocialData) returns (score: real)
    ensures score == SocialScore(s)
  {
    score := 50.0;
    if s.communityMember {
      score := score + 15.0;
    }
    score := score + Min(20.0, (s.businessReferences * 5) as real);
    score := score + Min(15.0, s.yearsInCommunity * 2.0);
    score := Min(100.0, score);
  }

  /** The social score never exceeds 100 and, for non-negative references and
      years, never falls below the base of 50; it reaches 100 exactly for a
      community member with 4 references and 7.5 years. */
  lemma SocialScoreRange(s: SocialData)
    ensures SocialScore(s) <= 100.0
    ensures s.businessReferences >= 0 && s.yearsInCommunity >= 0.0 ==> SocialScore(s) >= 50.0
    ensures SocialScore(s) == 100.0 <==>
      s.communityMember && s.businessReferences >= 4 && s.yearsInCommunity >= 7.5
  {
  }

  // ---------------------------------------------------------------------------
  // Composite score and approval

  /** 50% mobile, 30% green, 20% social. */
  function AlternativeCompositeScore(mobile: real, green: real, social: real): (r: real)
    ensures r == mobile * 0.5 + green * 0.3 + social * 0.2
    ensures Min(mobile, Min(green, social)) <= r <= Max(mobile, Max(green, social))
  {
    mobile * 0.5 + green * 0.3 + social * 0.2
  }

  predicate IsApproved(composite: real)
  {
    composite >= ApprovalThreshold
  }

  /** `assess_alternative_credit`: scores the three sources, blends them and
      approves at 55; `simulated` stands in for an empty payment history and
      `confidence` is the random confidence draw. */
  method AssessAlternativeCredit(app: Application, simulated: seq<Payment>, confidence: real)
    returns (r: CreditAssessment)
    ensures r.applicantId == app.applicantId
    ensures r.mobilePaymentScore == AnalyzeMobilePayments(app.mobilePaymentHistory, simulated)
    ensures r.greenActivityScore == GreenActivityScore(app.greenActivities)
    ensures r.socialScore == SocialScore(app.socialData)
    ensures r.alternativeCreditScore
         == AlternativeCompositeScore(r.mobilePaymentScore, r.greenActivityScore, r.socialScore)
    ensures r.approved <==> r.alternativeCreditScore >= 55.0
    ensures r.alternativeCreditScore <= 100.0
    ensures r.confidenceLevel == confidence
  {
    var mobile := AnalyzeMobilePayments(app.mobilePaymentHistory, simulated);
    var green := AnalyzeGreenActivities(app.greenActivities);
    var social := AnalyzeSocialFactors(app.socialData);
    var composite := mobile * 0.5 + green * 0.3 + social * 0.2;
    r := CreditAssessment(app.applicantId, composite, mobile, green, social,
                          composite >= ApprovalThreshold, confidence);
  }

  /** An applicant whose three scores all reach 55 is approved; one whose
      three scores all stay below 55 is not. */
  lemma ApprovalFollowsUniformScores(mobile: real, green: real, social: real)
    ensures mobile >= 55.0 && green >= 55.0 && social >= 55.0 ==>
      IsApproved(AlternativeCompositeScore(mobile, green, social))
    ensures mobile < 55.0 && green < 55.0 && social < 55.0 ==>
      !IsApproved(AlternativeCompositeScore(mobile, green, social))
  {
  }

  /** An applicant with no green activities at all and the lowest social
      score a non-negative record can get (50) needs a mobile score of at
      least 90 to be approved. */
  lemma NoGreenActivityNeedsStrongPayments(mobile: real)
    ensures IsApproved(AlternativeCompositeScore(mobile, 0.0, 50.0)) <==> mobile >= 90.0
  {
  }

  // ---------------------------------------------------------------------------
  // Loan terms

  /** The rate and amount bands of `calculate_loan_terms`; a boundary belongs
      to the higher band. */
  function LoanBandFor(creditScore: real): (b: LoanBand)
    ensures creditScore >= 80.0 ==> b == LoanBand(0.06, 1.2)
    ensures 65.0 <= creditScore < 80.0 ==> b == LoanBand(0.08, 1.0)
    ensures 55.0 <= creditScore < 65.0 ==> b == LoanBand(0.10, 0.8)
    ensures creditScore < 55.0 ==> b == LoanBand(0.12, 0.5)
  {
    if creditScore >= 80.0 then LoanBand(BaseInterestRate - 0.02, 1.2)
    else if creditScore >= 65.0 then LoanBand(BaseInterestRate, 1.0)
    else if creditScore >= 55.0 then LoanBand(BaseInterestRate + 0.02, 0.8)
    else LoanBand(BaseInterestRate + 0.04, 0.5)
  }

  /** Every band's rate is positive, so the zero-rate branch of the payment
      formula is never taken; a better score never costs a higher rate nor
      allows a smaller amount. */
  lemma LoanBandsMonotone(a: real, b: real)
    requires a <= b
    ensures LoanBandFor(a).interestRate > 0.0 && LoanBandFor(b).interestRate > 0.0
    ensures LoanBandFor(b).interestRate <= LoanBandFor(a).interestRate
    ensures LoanBandFor(b).maxMultiplier >= LoanBandFor(a).maxMultiplier
  {
  }

  /** The annuity payment over 24 months at `annualRate / 12`, or the plain
      quotient when the monthly rate is not positive. */
  function MonthlyPayment(loanAmount: real, annualRate: real): (p: real)
    ensures annualRate <= 0.0 ==> p == loanAmount / LoanTermMonths as real
    ensures loanAmount > 0.0 && annualRate > 0.0 ==> p > 0.0
  {
    var monthlyRate := annualRate / 12.0;
    if monthlyRate > 0.0 then
      var growth := Pow(1.0 + monthlyRate, LoanTermMonths);
      PowAboveOne(1.0 + monthlyRate, LoanTermMonths);
      assert monthlyRate * growth > 0.0;
      loanAmount * (monthlyRate * growth) / (growth - 1.0)
    else
      loanAmount / LoanTermMonths as real
  }

  const GreenBonusTerm := "Green bonus: 0.5% interest rate reduction for maintaining solar generation"
  const CarbonCreditTerm := "Carbon credit: Earn credits for verified emission reductions"
  const FlexibleRepaymentTerm := "Flexible repayment: Adjust payments based on seasonal income"
  const FinancialLiteracyTerm := "Financial literacy: Free access to online financial education"

  /** The special terms for a green-activity score: the two green items above
      70, flexible repayment above 50, and always financial literacy last. */
  function SpecialTerms(greenScore: real): (t: seq<string>)
    ensures |t| == if greenScore > 70.0 then 4 else if greenScore > 50.0 then 2 else 1
    ensures t[|t| - 1] == FinancialLiteracyTerm
    ensures greenScore > 70.0 ==> t[0] == GreenBonusTerm && t[1] == CarbonCreditTerm
    ensures greenScore > 50.0 ==> t[|t| - 2] == FlexibleRepaymentTerm
  {
    (if greenScore > 70.0 then [GreenBonusTerm, CarbonCreditTerm] else [])
    + (if greenScore > 50.0 then [FlexibleRepaymentTerm] else [])
    + [FinancialLiteracyTerm]
  }

  /** `_generate_special_terms`, appending item by item. */
  method GenerateSpecialTerms(greenScore: real) returns (terms: seq<string>)
    ensures terms == SpecialTerms(greenScore)
  {
    terms := [];
    if greenScore > 70.0 {
      terms := terms + [GreenBonusTerm];
      terms := terms + [CarbonCreditTerm];
    }
    if greenScore > 50.0 {
      terms := terms + [FlexibleRepaymentTerm];
    }
    terms := terms + [FinancialLiteracyTerm];
  }

  /** `calculate_loan_terms`: the band of the assessment's score fixes the
      rate and the cap on the amount; the payment is computed on the
      requested amount. */
  method CalculateLoanTerms(assessment: CreditAssessment, loanAmount: real) returns (t: LoanTerms)
    ensures t.interestRate == LoanBandFor(assessment.alternativeCreditScore).interestRate
    ensures t.approvedAmount
         == Min(loanAmount, loanAmount * LoanBandFor(assessment.alternativeCreditScore).maxMultiplier)
    ensures t.approvedAmount <= loanAmount
    ensures assessment.alternativeCreditScore >= 65.0 && loanAmount >= 0.0 ==> t.approvedAmount == loanAmount
    ensures assessment.alternativeCreditScore < 65.0 && loanAmount > 0.0 ==> t.approvedAmount < loanAmount
    ensures t.loanTermMonths == 24
    ensures t.monthlyPayment == MonthlyPayment(loanAmount, t.interestRate)
    ensures loanAmount > 0.0 ==> t.monthlyPayment > 0.0
    ensures t.totalRepayment == t.monthlyPayment * 24.0
    ensures t.totalInterest == t.totalRepayment - loanAmount
    ensures t.specialTerms == SpecialTerms(assessment.greenActivityScore)
  {
    var band := LoanBandFor(assessment.alternativeCreditScore);
    LoanBandsMonotone(assessment.alternativeCreditScore, assessment.alternativeCreditScore);
    var monthlyPayment := MonthlyPayment(loanAmount, band.interestRate);
    var totalRepayment := monthlyPayment * LoanTermMonths as real;
    var totalInterest := totalRepayment - loanAmount;
    var specialTerms := GenerateSpecialTerms(assessment.greenActivityScore);
    t := LoanTerms(Min(loanAmount, loanAmount * band.maxMultiplier), band.interestRate, LoanTermMonths,
                   monthlyPayment, totalRepayment, totalInterest, specialTerms);
  }

  // ---------------------------------------------------------------------------
  // Financial education content

  const ContentNotAvailable := "Content not available"

  /** The content library, by topic and then by level. */
  const ContentLibrary: map<string, map<string, string>> := map[
    "savings" := map[
      "beginner" := "Start by saving 10% of your income each month. Even small amounts add up over time.",
      "intermediate" := "Consider high-yield savings accounts and emergency funds covering 3-6 months of expenses.",
      "advanced" := "Optimize savings through tax-advantaged accounts and automated investment strategies."],
    "credit" := map[
      "beginner" := "Credit is borrowed money you must repay. Good credit history helps you access better loan terms.",
      "intermediate" := "Maintain credit utilization below 30% and always pay on time to build strong credit.",
      "advanced" := "Leverage credit strategically for business growth while managing debt-to-income ratios."],
    "investment" := map[
      "beginner" := "Investing means putting money into assets that can grow in value over time.",
      "intermediate" := "Diversify investments across stocks, bonds, and other assets to manage risk.",
      "advanced" := "Consider ESG investing to align financial goals with environmental and social values."]]

  const NextSteps: seq<string> := ["Practice with small amounts", "Track your progress", "Ask questions when unsure"]
  const Resources: seq<string> := ["Video tutorials available", "Interactive calculators", "Community support forum"]

  datatype EducationContent = EducationContent(
    topic: string, level: string, content: string, nextSteps: seq<string>, resources: seq<string>)

  predicate InLibrary(topic: string, level: string)
  {
    topic in ContentLibrary && level in ContentLibrary[topic]
  }

  /** `content_library.get(topic, {}).get(level, "Content not available")`. */
  function LookupContent(topic: string, level: string): (c: string)
    ensures InLibrary(topic, level) ==> c == ContentLibrary[topic][level]
    ensures !InLibrary(topic, level) ==> c == ContentNotAvailable
  {
    if InLibrary(topic, level) then ContentLibrary[topic][level] else ContentNotAvailable
  }

  /** `generate_financial_education_content`; an omitted level is
      "beginner". */
  function GenerateEducationContent(topic: string, userLevel: Option<string>): (e: EducationContent)
    ensures userLevel.Some? ==> e.level == userLevel.value
    ensures userLevel.None? ==> e.level == "beginner"
    ensures e.topic == topic && e.content == LookupContent(topic, e.level)
    ensures topic in ContentLibrary && userLevel.None? ==> e.content != ContentNotAvailable
    ensures e.nextSteps == NextSteps && e.resources == Resources
  {
    var level := if userLevel.Some? then userLevel.value else "beginner";
    EducationContent(topic, level, LookupContent(topic, level), NextSteps, Resources)
  }

  /** The library covers exactly three topics at three levels each, and no
      entry reads as the fallback text: the fallback appears exactly when the
      topic or level is unknown. */
  lemma LibraryShape(topic: string, level: string)
    ensures ContentLibrary.Keys == {"savings", "credit", "investment"}
    ensures forall t :: t in ContentLibrary ==> ContentLibrary[t].Keys == {"beginner", "intermediate", "advanced"}
    ensures LookupContent(topic, level) == ContentNotAvailable <==> !InLibrary(topic, level)
  {
  }
}
