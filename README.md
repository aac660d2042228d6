# GreenPulse AI scoring core in Dafny

This project models the deterministic scoring and decision rules of the
GreenPulse AI multi-agent system, written in Dafny:

- **Master agent**
  - routes requests to the other agents;
  - computes a carbon credit score;
  - turns a risk analysis and a carbon score into a credit rating and recommendations;
  - compares the carbon footprint of a traditional and a green portfolio.
- **Data collection agent**
  - aggregates financial, carbon and ESG data for an entity behind a one-hour cache keyed by `"<type>_<id>"`;
  - scores data completeness;
  - generates tickers for simulated stock data.
- **Risk assessment agent**
  - traditional, carbon and ESG risk scorers;
  - the 50/30/20 composite score;
  - the 300–850 credit-score mapping and the risk categories;
  - the three-rule greenwashing detector, with its risk index, level and recommendations.
- **Inclusion agent**
  - alternative credit scoring from mobile payments, green activities and social data;
  - approval at 55;
  - loan terms by score band;
  - special terms;
  - the financial-education content library.
- **Portfolio optimisation agent**
  - allocation tables by risk tolerance;
  - asset generation;
  - portfolio metrics;
  - the carbon-neutrality timeline, including its 10 %-per-year reduction loop;
  - the rebalancing rule.

Form of the model:

- Pure computations are functions with named results.
- Code that builds lists by appending, accumulates with `+=` or loops is a method proved against a specification function. This covers data quality, stock data, green and social scores, special terms, recommendations, the rule checks, the neutrality loop, asset generation and rebalancing.
- The collector's cache is a `map` field of the class `DataCollection.DataCollectionAgent`. `Master.MasterAgent` owns one collector, and that collector's cache persists across requests.

Randomness and the clock are parameters:

- the simulated data draws (`EntityDraws`, `StockDraw`);
- the confidence values;
- the simulated payment history;
- the ESG ratings of green assets;
- the current time `now`, in seconds.

Numbers are `real`.

Modules: `Numeric` (min/max/clamp/truncation/power helpers), `Wrappers` (`Option`),
`DataCollection`, `RiskAssessment`, `Inclusion`, `PortfolioOptimization`, `Master`.

Behaviour worth noting:

- **Neutrality timeline.** The code returns 2 years up to 100 t, 5 up to 500 t and 8 up to 1000 t, and runs the reduction loop above 1000 t.
- **Credit recommendations.** The two renewable/roadmap items are gated on carbon score < 50. A separate ESG-reporting item appears when the combined score is < 60.
- **Greenwashing risk index.** The index is `min(100, 15 * points)` with no random term.
- **Micro-loan terms.** The terms are computed whether or not the assessment approves the applicant.
- **Education content.** The level defaults to "beginner" when the request names none.
- **Request path.** `Master.CreditReportOf` and `Master.MasterAgent.ProcessRequest` follow the program as written, including the three defects under "## Findings". The corrected behaviour is stated separately by `Master.CorrectedCreditReportOf`, `Master.CalculateCarbonScore`, `Master.GenerateCreditRating` and `Master.CompareCarbonImpact`.

## Model

| member | source | states |
|---|---|---|
| DataCollection.CacheKey | src/agents/data_collection_agent.py:39 | the key is the entity type, an underscore, then the entity id |
| DataCollection.CacheKeyInjective | src/agents/data_collection_agent.py:39 | when neither entity type contains `_`, equal keys mean equal (id, type) pairs |
| DataCollection.CacheKeyCollision | src/agents/data_collection_agent.py:39 | without that condition two distinct entities share a key: ("c","a_b") and ("b_c","a") |
| DataCollection.FreshData | src/agents/data_collection_agent.py:47-65 | freshly collected data carries the id, the type, the time, the three drawn records, and a quality score of 100 |
| DataCollection.CollectedData | src/agents/data_collection_agent.py:38-68 | on a cache hit the cached record is returned; otherwise the record carries the id, type, time and the three drawn records |
| DataCollection.CacheAfter | src/agents/data_collection_agent.py:40-68 | after a collection the key holds a live entry, the key set is the old one plus that key, and every other entry is unchanged |
| DataCollection.CollectSemantics | src/agents/data_collection_agent.py:38-70 | on a hit younger than the TTL the cached data is returned and the cache is unchanged; otherwise fresh data is returned and stored under the key with the current time, and no other key changes |
| DataCollection.RepeatWithinTtlIsServedFromCache | src/agents/data_collection_agent.py:40-44 | a second request for the same entity less than 3600 s after a collection returns the first result, whatever the new draws |
| DataCollection.ExpiredEntryIsRecollected | src/agents/data_collection_agent.py:40-44 | 3600 s or more later the entity is collected afresh from the new draws |
| DataCollection.DataCollectionAgent.CollectAllData | src/agents/data_collection_agent.py:29-70 | the returned data and the new cache are those of the cache semantics above |
| DataCollection.DataCollectionAgent.constructor | src/agents/data_collection_agent.py:24-27 | the cache starts empty |
| DataCollection.DataQualityScore | src/agents/data_collection_agent.py:149-163 | the quality score is one of 0, 33, 34, 66, 67 or 100; it is 100 iff all three completeness tests pass and 0 iff none does; the ESG test decides the 34-point part |
| DataCollection.CalculateDataQuality | src/agents/data_collection_agent.py:153-163 | the accumulating method computes `DataQualityScore` |
| DataCollection.NatToStringInjective | src/agents/data_collection_agent.py:141 | decimal rendering of stock numbers is injective |
| DataCollection.TickersDistinct | src/agents/data_collection_agent.py:141 | `STOCK<i+1>` tickers of different indices differ |
| DataCollection.GenerateStockData | src/agents/data_collection_agent.py:136-147 | one record per index carrying `STOCK<i+1>` and the i-th draw; all tickers are pairwise distinct |
| RiskAssessment.AssessTraditionalRisk | src/agents/risk_assessment_agent.py:60-94 | the score is the raw score clamped into [0,100]: 0 for a negative raw score, 100 for a raw score above 100; the default history is clean iff there are no defaults; revenue is strong iff above 5,000,000; profitability is strong iff the margin > 0.15; leverage is low iff debt/equity < 1; liquidity is strong iff the current ratio > 1.5; every label is one of its two values |
| RiskAssessment.RawTraditionalScore | src/agents/risk_assessment_agent.py:66-85 | revenue, leverage and liquidity add at most 20, 20 and 30 points, margin 30 per unit and each default costs 15; so for non-negative leverage the raw score is at most 70 + 30·margin − 15·defaults, and at least 30·margin − 15·defaults when revenue and liquidity are non-negative and leverage ≤ 2 |
| RiskAssessment.MoreDefaultsNeverRaiseTraditionalScore | src/agents/risk_assessment_agent.py:77-88 | adding payment defaults never raises the traditional score |
| RiskAssessment.OffsetBenefit | src/agents/risk_assessment_agent.py:111 | the offset benefit is at most 30, non-negative for non-negative offsets, and offsets/10 up to 300 t |
| RiskAssessment.InternalCarbonRisk | src/agents/risk_assessment_agent.py:107-118 | the internal carbon risk lies in [0,100] |
| RiskAssessment.RegulatoryRisk | src/agents/risk_assessment_agent.py:160-169 | high iff emissions > 3000 and renewables < 30; low iff emissions ≤ 1500 and renewables ≥ 50; moderate otherwise |
| RiskAssessment.AssessCarbonRisk | src/agents/risk_assessment_agent.py:96-130 | the score is 100 minus the internal risk, so it lies in [0,100]; the regulatory label comes from the rule above; the trend is improving iff it is negative; emission intensity is high iff emissions > 2000 t; transition readiness is strong iff renewables > 50 %; stranded-asset risk is high iff renewables < 20 % |
| RiskAssessment.CarbonScoreMonotone | src/agents/risk_assessment_agent.py:102-124 | more offsets and fewer emissions never lower the (inverted) carbon risk score |
| RiskAssessment.CountTrue | src/agents/risk_assessment_agent.py:147 | the SDG count is at most the number of flags; 0 iff none is set; all iff all are set |
| RiskAssessment.RateComponent | src/agents/risk_assessment_agent.py:201-210 | each of the four ratings holds exactly on its score interval |
| RiskAssessment.AssessEsgRisk | src/agents/risk_assessment_agent.py:132-158 | the score is min(100, 0.4·E + 0.3·S + 0.3·G + 5·aligned SDGs); it is non-negative for non-negative inputs; each of the three component ratings is the rating of its own score; reputational risk is low iff the score > 70 |
| RiskAssessment.OneMoreSdgFlag | src/agents/risk_assessment_agent.py:146-149 | one more aligned SDG never lowers the ESG score and raises it by exactly 5 below the cap |
| RiskAssessment.CompositeRiskScore | src/agents/risk_assessment_agent.py:171-182 | the composite is the 50/30/20 weighting and lies between the smallest and the largest input |
| RiskAssessment.ConvertToCreditScore | src/agents/risk_assessment_agent.py:184-188 | a risk score in [0,100] maps into 300..850, with 0 ↦ 300 and 100 ↦ 850 |
| RiskAssessment.CreditScoreMonotone | src/agents/risk_assessment_agent.py:184-188 | the credit-score mapping is monotone |
| RiskAssessment.CategorizeRisk | src/agents/risk_assessment_agent.py:190-199 | each of the four categories holds exactly on its score interval |
| RiskAssessment.CategoryMonotone | src/agents/risk_assessment_agent.py:190-199 | a higher score never gives a riskier category |
| RiskAssessment.AssessRisk | src/agents/risk_assessment_agent.py:24-58 | the analysis holds the traditional, carbon and ESG assessments of the record's three parts; its composite is their 50/30/20 weighting; its credit score and category derive from the composite; the composite is at most 100, and for non-negative ESG inputs it is non-negative with a credit score in 300..850 |
| RiskAssessment.AnomalyFor | src/agents/risk_assessment_agent.py:234-256 | each rule's anomaly carries that rule's type |
| RiskAssessment.Fires | src/agents/risk_assessment_agent.py:234-256 | a rule fires only on an environmental score above 70 |
| RiskAssessment.RulePoints | src/agents/risk_assessment_agent.py:240-256 | a fired rule adds 3 points iff its anomaly is high severity, 2 otherwise |
| RiskAssessment.FiredAnomalies | src/agents/risk_assessment_agent.py:234-256 | at most one anomaly per rule |
| RiskAssessment.FiredPoints | src/agents/risk_assessment_agent.py:240-256 | the risk factors lie between 0 and 3 per rule |
| RiskAssessment.RiskIndex | src/agents/risk_assessment_agent.py:259 | the index lies in [0,100], equals 15·points up to 6 points and is 100 iff there are at least 7 points |
| RiskAssessment.RiskLevel | src/agents/risk_assessment_agent.py:270 | high iff the index > 60; low iff the index ≤ 30; moderate otherwise |
| RiskAssessment.GreenwashingRecommendations | src/agents/risk_assessment_agent.py:261-266 | 3 items above 50, 1 item in (30,50], none otherwise; monitoring comes last, verification and audit first |
| RiskAssessment.UnfoldRules | src/agents/risk_assessment_agent.py:234-256 | the anomalies and points of the three rules, written out in source order |
| RiskAssessment.CheckRules | src/agents/risk_assessment_agent.py:224-256 | the appending/accumulating checks compute the fired anomalies and points of the rule list |
| RiskAssessment.DetectGreenwashing | src/agents/risk_assessment_agent.py:212-275 | the report holds the fired anomalies, index = min(100, 15·points) within [0,100], count = number of anomalies ≤ 3, and the level and recommendations of that index |
| RiskAssessment.FiredAnomaliesAreFiredRules | src/agents/risk_assessment_agent.py:234-256 | every reported anomaly comes from a rule in the list that fires on the data |
| RiskAssessment.FiredRanksAbove | src/agents/risk_assessment_agent.py:234-256 | fired anomalies come only from the rules given, so a lower bound on every rule's rank bounds every anomaly's rank |
| RiskAssessment.FiredAnomaliesInRuleOrder | src/agents/risk_assessment_agent.py:234-256 | anomalies are reported in the order of the rules |
| RiskAssessment.RulesAreOrdered | src/agents/risk_assessment_agent.py:234-256 | the three rules are checked in a fixed order |
| RiskAssessment.RiskIndexValues | src/agents/risk_assessment_agent.py:258-259 | the index takes only the values 0, 30, 45, 75, 90 or 100, and is 0 iff no anomaly fires |
| RiskAssessment.LoneMediumAnomalyIsLow | src/agents/risk_assessment_agent.py:234-270 | a lone medium-severity anomaly gives index 30, level low and no recommendations |
| RiskAssessment.AllRulesFiringHitsCap | src/agents/risk_assessment_agent.py:234-259 | all three rules firing gives 8 points, index 100 and three anomalies |
| Inclusion.SumAmountsWithin | src/agents/inclusion_agent.py:82 | if every amount lies in [lo,hi], the sum lies in [n·lo, n·hi] |
| Inclusion.SumAmountsNonNegative | src/agents/inclusion_agent.py:82 | a history of non-negative amounts has a non-negative sum |
| Inclusion.AverageAmount | src/agents/inclusion_agent.py:82 | the average of an empty history is 0 (division by max(1, n)) |
| Inclusion.FrequencyScore | src/agents/inclusion_agent.py:85 | the frequency score lies in [0,50] and is 50 iff there are at least 25 transactions |
| Inclusion.AmountScore | src/agents/inclusion_agent.py:86 | the amount score is at most 50, non-negative for non-negative averages, and 50 iff the average ≥ 500 |
| Inclusion.MobilePaymentScore | src/agents/inclusion_agent.py:80-88 | the mobile score is the capped sum of frequency and amount scores |
| Inclusion.MobileScoreRange | src/agents/inclusion_agent.py:80-88 | for non-negative amounts the score lies in [0,100]; it is 100 iff there are ≥ 25 transactions averaging ≥ 500 |
| Inclusion.AnalyzeMobilePayments | src/agents/inclusion_agent.py:67-88 | an empty history is replaced by the simulated one |
| Inclusion.SimulatedHistoryScore | src/agents/inclusion_agent.py:73-88 | a simulated history (10..30 payments of 50..500) scores between 25 and 100 |
| Inclusion.AnalyzeGreenActivities | src/agents/inclusion_agent.py:90-112 | the accumulating method computes `GreenActivityScore` |
| Inclusion.GreenActivityScore | src/agents/inclusion_agent.py:90-112 | the green score is at most 100, non-negative for non-negative generation, and at most 25 without panels or organic farming |
| Inclusion.GreenActivityRange | src/agents/inclusion_agent.py:96-112 | for non-negative generation the green score lies in [0,100] and equals the uncapped sum of the four parts |
| Inclusion.SolarBonusNeedsPanels | src/agents/inclusion_agent.py:99-106 | without panels the generation figure is ignored, and only organic farming can score |
| Inclusion.MorePracticesNeverLowerGreenScore | src/agents/inclusion_agent.py:108-112 | one more sustainable practice never lowers the green score |
| Inclusion.AnalyzeSocialFactors | src/agents/inclusion_agent.py:114-134 | the accumulating method computes `SocialScore` |
| Inclusion.SocialScore | src/agents/inclusion_agent.py:114-134 | the social score is at most 100, and at most 85 for a non-member of the community |
| Inclusion.SocialScoreRange | src/agents/inclusion_agent.py:120-134 | the social score is at most 100, at least the base 50 for non-negative inputs, and exactly 100 iff all three bonuses are maxed |
| Inclusion.AlternativeCompositeScore | src/agents/inclusion_agent.py:46-50 | the composite is the 50/30/20 weighting and lies between the smallest and the largest component |
| Inclusion.AssessAlternativeCredit | src/agents/inclusion_agent.py:24-65 | the assessment carries the three component scores and their composite (≤ 100); it is approved iff the composite ≥ 55; it keeps the applicant id and the confidence |
| Inclusion.ApprovalFollowsUniformScores | src/agents/inclusion_agent.py:46-53 | all components ≥ 55 ⇒ approved; all components < 55 ⇒ refused |
| Inclusion.NoGreenActivityNeedsStrongPayments | src/agents/inclusion_agent.py:46-53 | with no green activity and a base social score, approval holds iff the mobile score ≥ 90 |
| Inclusion.LoanBandFor | src/agents/inclusion_agent.py:148-160 | the four (rate, multiplier) bands: 6 %/1.2, 8 %/1.0, 10 %/0.8, 12 %/0.5 |
| Inclusion.LoanBandsMonotone | src/agents/inclusion_agent.py:148-160 | rates are positive; a higher score never gives a higher rate or a smaller multiplier |
| Inclusion.MonthlyPayment | src/agents/inclusion_agent.py:162-175 | a non-positive rate gives amount/24; a positive amount at a positive rate gives a positive payment |
| Inclusion.SpecialTerms | src/agents/inclusion_agent.py:194-211 | 4, 2 or 1 terms by green score (> 70, > 50, otherwise); financial literacy always last |
| Inclusion.GenerateSpecialTerms | src/agents/inclusion_agent.py:194-211 | the appending method computes `SpecialTerms` |
| Inclusion.CalculateLoanTerms | src/agents/inclusion_agent.py:136-186 | the rate of the score's band; approved amount = min(amount, multiplier·amount), never above the request, equal to it from score 65 and below it under 65; 24 months; a positive monthly payment for a positive amount; repayment = 24 payments; interest = repayment − amount; the special terms of the green score |
| Inclusion.LookupContent | src/agents/inclusion_agent.py:268 | library text for a known (topic, level), otherwise "Content not available" |
| Inclusion.GenerateEducationContent | src/agents/inclusion_agent.py:238-283 | the answer echoes the topic and the level, which defaults to "beginner"; it carries the looked-up content, the next steps and the resources; a library topic at the default level is always found |
| Inclusion.LibraryShape | src/agents/inclusion_agent.py:250-268 | three topics, each at three levels; the fallback appears exactly for pairs outside the library |
| PortfolioOptimization.TraditionalTable | src/agents/portfolio_optimization_agent.py:88-109 | conservative and aggressive select their tables; any other tolerance selects the moderate one |
| PortfolioOptimization.GreenTable | src/agents/portfolio_optimization_agent.py:130-151 | the same selection for green tables |
| PortfolioOptimization.TablesWellFormed | src/agents/portfolio_optimization_agent.py:88-151 | every table has four rows with positive weights summing to 1 |
| PortfolioOptimization.TraditionalAsset | src/agents/portfolio_optimization_agent.py:111-121 | a traditional asset takes its row's weight, value capital·weight and CO2 carbon·weight, with no rating and no SDG flag |
| PortfolioOptimization.GreenAsset | src/agents/portfolio_optimization_agent.py:153-165 | a green asset is the same with the drawn rating and the SDG flag set |
| PortfolioOptimization.TraditionalAssets | src/agents/portfolio_optimization_agent.py:82-122 | one asset per row of the selected table, in order |
| PortfolioOptimization.GreenAssets | src/agents/portfolio_optimization_agent.py:124-166 | one green asset per row, paired with its drawn rating |
| PortfolioOptimization.GenerateTraditionalAssets | src/agents/portfolio_optimization_agent.py:82-122 | the appending loop builds `TraditionalAssets` |
| PortfolioOptimization.GenerateGreenAssets | src/agents/portfolio_optimization_agent.py:124-166 | the appending loop builds `GreenAssets` |
| PortfolioOptimization.SharpeRatio | src/agents/portfolio_optimization_agent.py:184-185 | 0 for non-positive volatility; otherwise ratio·volatility = return − 2 %, and positive iff the return beats 2 % |
| PortfolioOptimization.CalculatePortfolioMetrics | src/agents/portfolio_optimization_agent.py:168-206 | the metrics are the weighted return and volatility, their Sharpe ratio, the CO2 sum and the SDG score |
| PortfolioOptimization.SdgScoreCountsAlignedOnly | src/agents/portfolio_optimization_agent.py:193-198 | no aligned asset ⇒ SDG score 0; all aligned ⇒ 100 × total allocation |
| PortfolioOptimization.AllocationsAreWeights | src/agents/portfolio_optimization_agent.py:111-121 | generated allocations sum to the table's weight sum |
| PortfolioOptimization.FootprintIsTableFootprint | src/agents/portfolio_optimization_agent.py:187-191 | a generated portfolio's footprint is its table's Σ carbon·weight |
| PortfolioOptimization.SdgScoresOfGeneratedPortfolios | src/agents/portfolio_optimization_agent.py:193-198 | generated traditional portfolios score 0 and green ones score 100 |
| PortfolioOptimization.FootprintsOfTables | src/agents/portfolio_optimization_agent.py:88-191 | footprints 950/95 (conservative), 3050/127.5 (aggressive), 1630/117 (moderate); the green table is always lighter |
| PortfolioOptimization.LoopYears | src/agents/portfolio_optimization_agent.py:224-229 | the reduction loop stops within 30 years |
| PortfolioOptimization.NeutralityYears | src/agents/portfolio_optimization_agent.py:208-229 | the estimate lies in [0,30] |
| PortfolioOptimization.EstimateNeutralityTimeline | src/agents/portfolio_optimization_agent.py:208-229 | the bucketed estimate and its `while` loop compute `NeutralityYears` |
| PortfolioOptimization.LoopYearsMonotone | src/agents/portfolio_optimization_agent.py:226-228 | a larger footprint never finishes the loop sooner |
| PortfolioOptimization.LoopRunsAtLeast | src/agents/portfolio_optimization_agent.py:226-228 | a footprint above 100·(10/9)^(k−1) keeps the loop running for at least k years |
| PortfolioOptimization.TenNinthsPow21 | src/agents/portfolio_optimization_agent.py:227 | (10/9)^21 < 9.2, the bound used for the loop |
| PortfolioOptimization.LoopAbove1000 | src/agents/portfolio_optimization_agent.py:220-229 | above 1000 t the loop takes at least 22 years, longer than every bucket |
| PortfolioOptimization.NeutralityYearsMonotone | src/agents/portfolio_optimization_agent.py:208-229 | a larger footprint never gives a shorter timeline |
| PortfolioOptimization.GreenTimelineIsShort | src/agents/portfolio_optimization_agent.py:66-68 | the green portfolio's timeline never comes from the loop: 2 years for the conservative table, 5 for the others |
| PortfolioOptimization.OptimizeTraditional | src/agents/portfolio_optimization_agent.py:22-47 | the portfolio is traditional, worth the capital, holds the generated assets, their weighted return and volatility with its Sharpe ratio, and the table footprint, with no timeline and no SDG score |
| PortfolioOptimization.OptimizeGreen | src/agents/portfolio_optimization_agent.py:49-80 | the portfolio is green, worth the capital, holds the generated green assets, their weighted return and volatility with its Sharpe ratio, the table footprint, the neutrality timeline of that footprint and an SDG score of 100 |
| PortfolioOptimization.ActionFor | src/agents/portfolio_optimization_agent.py:248-266 | an action exists iff the allocation is outside [0.05, 0.35]: reduce to 0.30 above, increase to 0.10 below |
| PortfolioOptimization.RebalanceActions | src/agents/portfolio_optimization_agent.py:245-266 | there are never more actions than assets |
| PortfolioOptimization.RebalanceActionsCount | src/agents/portfolio_optimization_agent.py:247-266 | at most one action per asset; none iff every asset is in band |
| PortfolioOptimization.RebalanceActionsConcat | src/agents/portfolio_optimization_agent.py:247-266 | actions of a concatenation are the concatenated actions, so order follows the assets |
| PortfolioOptimization.RebalancePortfolio | src/agents/portfolio_optimization_agent.py:231-273 | the loop builds `RebalanceActions`; rebalancing is required iff an action exists; the cost is 25 per action |
| PortfolioOptimization.ModerateTablesRebalancing | src/agents/portfolio_optimization_agent.py:104-108 | the moderate green portfolio needs no action; the moderate traditional one needs exactly one (Index Funds at 0.40) |
| Master.TrendBonus | src/agents/master_agent.py:195 | the trend bonus lies in [−20,20], equals −10·trend for |trend| ≤ 2, and is non-negative iff the trend is not rising |
| Master.CarbonScore | src/agents/master_agent.py:194-198 | the carbon score is the clamped sum of base, trend and renewable bonuses, in [0,100] |
| Master.CarbonScoreMonotone | src/agents/master_agent.py:194-198 | fewer emissions, a falling trend or more renewables never lower the carbon score |
| Master.CalculateCarbonScoreAsWritten | src/agents/master_agent.py:181-200 | the score as written lies in [0,100] |
| Master.RenewableShareIgnoredAsWritten | src/agents/master_agent.py:191 | as written, the collected renewable share does not affect the score |
| Master.CalculateCarbonScore | src/agents/master_agent.py:181-200 | the corrected score lies in [0,100] |
| Master.RenewableShareCounts | src/agents/master_agent.py:191-196 | corrected, the score is at least the as-written one and never falls as the renewable share rises |
| Master.RenewableBonusLostExample | src/agents/master_agent.py:191-198 | 100000 t, flat trend, 80 % renewables: 0 as written, 24 corrected |
| Master.CombinedScore | src/agents/master_agent.py:211 | the combined score is the 60/40 weighting and lies between its inputs |
| Master.RatingBandFor | src/agents/master_agent.py:213-228 | each of the five (rating, adjustment) bands holds exactly on its score interval |
| Master.RatingMonotone | src/agents/master_agent.py:213-228 | a higher combined score never gives a worse rating or a larger adjustment |
| Master.CreditRatingFrom | src/agents/master_agent.py:202-236 | the rating carries its combined score, band and inputs |
| Master.GenerateCreditRatingAsWritten | src/agents/master_agent.py:208 | as written, the traditional score is the 300–850 credit score |
| Master.AsWrittenRatingIsAlwaysAAA | src/agents/master_agent.py:208-216 | as written, every entity with non-negative ESG inputs and carbon score gets combined ≥ 180 and AAA with −2 % |
| Master.GenerateCreditRating | src/agents/master_agent.py:202-236 | corrected, the traditional score is the 0–100 composite, and the combined score stays in [0,100] |
| Master.CorrectedRatingReachesEveryBand | src/agents/master_agent.py:213-228 | corrected, all five ratings are reachable |
| Master.Recommendations | src/agents/master_agent.py:238-255 | 2 carbon items iff carbon < 50, 1 ESG item iff combined < 60, in that order; empty iff neither holds |
| Master.GenerateRecommendations | src/agents/master_agent.py:238-255 | the appending method computes `Recommendations` |
| Master.WeakProfileGetsAllAdvice | src/agents/master_agent.py:211-253 | carbon < 50 and traditional < 66 yield all three items |
| Master.ComparisonOf | src/agents/master_agent.py:271-280 | reduction = traditional − green; the percentage and the net-zero years satisfy their defining equations, with the 0 and max(1, ·) guards |
| Master.CompareCarbonImpactAsWritten | src/agents/master_agent.py:257-280 | as written, the comparison weights each asset's CO2 by its allocation |
| Master.AllocationWeightedEmissionsWithinFootprint | src/agents/master_agent.py:261-269 | with fractional allocations and non-negative tonnages the re-weighted sum lies between 0 and the portfolio's footprint |
| Master.CompareCarbonImpact | src/agents/master_agent.py:257-280 | corrected, the comparison uses the portfolios' footprints |
| Master.AsWrittenComparisonUnderstatesFootprint | src/agents/master_agent.py:261-264 | moderate traditional portfolio: 483 t as written against a 1630 t footprint |
| Master.CorrectedComparisonOfGeneratedPortfolios | src/agents/master_agent.py:257-280 | corrected, the generated green portfolio is always lighter, by at least 90 % |
| Master.CreditReportOf | src/agents/master_agent.py:63-92 | the report of `_assess_credit` as written: the entity id, the as-written carbon score in [0,100], the risk analysis, the as-written rating and its recommendations |
| Master.AsWrittenReportIsAAA | src/agents/master_agent.py:63-92 | for non-negative ESG inputs the report as written rates AAA with −2 % and combined ≥ 180, and never carries the ESG-reporting advice |
| Master.CorrectedCreditReportOf | src/agents/master_agent.py:63-92 | the report with the corrected carbon score and rating: the combined score lies in [0,100] for non-negative ESG inputs |
| Master.IdText | src/agents/master_agent.py:67-72 | a given id is used as is; a missing one renders as "None" |
| Master.ProcessMicroLoan | src/agents/master_agent.py:131-156 | a missing amount fails; otherwise the answer keeps the applicant id, its assessment carries the applicant's mobile, green and social scores and their composite, and is approved iff the composite ≥ 55; the terms come from the composite's band whether or not approved: band rate, approved amount min(amount, multiplier·amount), 24 months, the amortized payment, repayment = 24 payments, interest = repayment − amount, and the special terms of the applicant's green score |
| Master.MasterAgent.constructor | src/agents/master_agent.py:28-33 | the owned collector starts with an empty cache |
| Master.MasterAgent.ProcessRequest | src/agents/master_agent.py:40-61 | unknown types fail and leave the cache unchanged; credit and greenwashing requests collect through the cache and report from the collected data as written, and a credit report for non-negative ESG inputs is AAA without ESG-reporting advice; portfolio defaults are 100000 and "moderate", both portfolios are in full those `OptimizeTraditional` and `OptimizeGreen` promise, with the as-written comparison; a micro-loan request gives the same answer as `ProcessMicroLoan`; portfolio and micro-loan requests leave the cache unchanged |

## Left out

- **Not modelled:**
  - asyncio, the sleeps and concurrency (`asyncio.gather` runs independent scorers whose results are combined deterministically);
  - logging;
  - `datetime` formatting of timestamps and of the first payment date;
  - the FastAPI layer in `main.py`.
- **Randomness and the clock** (`random.uniform`, `random.randint`, `datetime.now`) are parameters (the draws and `now`). The model constrains their ranges only where a lemma needs them.
- **Rounding:** `round(...)` on outputs is not modelled; the model keeps exact reals. Floating point is not modelled.
- **Not part of this model:**
  - `collect_market_data` (its result is passed to the optimizers, which never read it);
  - `target_return` (passed, never read);
  - `get_system_status`;
  - `provide_multilingual_support`;
  - the master agent's `task_queue` and `results_cache` (never filled; `get_system_status` only reports their sizes).
- **Python dictionary defaults** (`.get(key, default)`) are modelled only where they matter:
  - the request parameters (entity type, capital, risk tolerance) are `Option`s with the source's defaults;
  - a missing `entity_id` becomes the text "None" in the cache key, as the f-string renders it;
  - the entity records produced by the collector always carry every field, so their defaults are not modelled.
- **Micro-loan failures:** a missing loan amount is the only micro-loan failure modelled; in the source it fails inside the term computation and `process_request` turns it into a failed answer.
- Inclusion.MonthlyPayment: for positive rates the contract states only that the payment is positive, not the amortization identity itself.
- Inclusion.CalculateLoanTerms: does not state that total interest is positive for a positive amount; that needs the bound 24·payment > amount on the amortization formula, which is not proved.
- RiskAssessment.FiredAnomalies: its own contract bounds only the count. The per-anomaly facts are the separate lemma `FiredAnomaliesAreFiredRules`.

## Findings

| source | as written | input that shows it | evidently intended | confidence | as-written member | corrected member |
|---|---|---|---|---|---|---|
| src/agents/master_agent.py:208 | the credit rating reads `risk_analysis["credit_score"]` (300–850) as the traditional score, so combined = 0.6·credit + 0.4·carbon ≥ 180 and every entity is AAA | any collected entity, e.g. a composite risk of 0 (credit score 300, combined ≥ 180) | use the 0–100 composite risk score, so the 80/70/60/50 thresholds separate entities | not executed | Master.AsWrittenRatingIsAlwaysAAA | Master.CorrectedRatingReachesEveryBand |
| src/agents/master_agent.py:191 | the carbon score reads `renewable_energy_percentage` from the top level of the data, where the collector never puts it, so the renewable bonus is always 0 | 100000 t, trend 0, 80 % renewables under `carbon_emissions`: score 0 instead of 24 | read the share from `carbon_emissions`, as the risk agent does | not executed | Master.RenewableBonusLostExample | Master.RenewableShareCounts |
| src/agents/master_agent.py:261-269 | the portfolio comparison multiplies `annual_co2_tons` (already carbon × weight) by the allocation again | moderate traditional portfolio: 483 t against its reported 1630 t footprint | compare the portfolios' footprints (the sum of `annual_co2_tons`) | not executed | Master.AsWrittenComparisonUnderstatesFootprint | Master.CorrectedComparisonOfGeneratedPortfolios |
