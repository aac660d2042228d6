/** The portfolio optimization agent: the fixed allocation tables of the
    traditional and green portfolios, the assets generated from them, the
    portfolio metrics, the carbon-neutrality timeline and the rebalancing
    rule. The ESG rating drawn for each green asset is a parameter. */
module PortfolioOptimization {
  import opened Numeric
  import opened Wrappers

  /** One row of an allocation table: name, weight, expected return,
      volatility and the carbon intensity (tons of CO2 per unit weight). */
  datatype AllocationRow = AllocationRow(name: string, weight: real, expectedReturn: real,
                                         volatility: real, carbon: real)

  datatype AssetKind = Traditional | Green

  /** The ESG rating a green asset is given, drawn from {"AA", "AAA"}. */
  datatype EsgRating = AA | AAA

  /** A generated asset; traditional assets carry no rating and are not
      flagged as SDG-aligned. */
  datatype Asset = Asset(
    name: string,
    kind: AssetKind,
    allocation: real,
    value: real,
    expectedReturn: real,
    volatility: real,
    annualCo2Tons: real,
    esgRating: Option<EsgRating>,
    sdgAligned: bool)

  datatype PortfolioMetrics = PortfolioMetrics(
    expectedReturn: real,
    volatility: real,
    sharpeRatio: real,
    carbonFootprint: real,
    sdgScore: real)

  /** What `optimize_traditional` and `optimize_green` return; the timeline
      and the SDG score are only reported for the green portfolio. */
  datatype Portfolio = Portfolio(
    kind: AssetKind,
    totalValue: real,
    assets: seq<Asset>,
    expectedReturn: real,
    volatility: real,
    sharpeRatio: real,
    annualCarbonFootprint: real,
    neutralityYears: Option<real>,
    sdgAlignmentScore: Option<real>)

  const RiskFreeRate: real := 0.02

  // ---------------------------------------------------------------------------
  // Allocation tables

  const TraditionalConservative: seq<AllocationRow> := [
    AllocationRow("Bonds", 0.60, 0.04, 0.05, 500.0),
    AllocationRow("Large Cap Stocks", 0.25, 0.08, 0.15, 2000.0),
    AllocationRow("Real Estate", 0.10, 0.06, 0.12, 1500.0),
    AllocationRow("Cash", 0.05, 0.01, 0.02, 0.0)]

  const TraditionalAggressive: seq<AllocationRow> := [
    AllocationRow("Growth Stocks", 0.50, 0.12, 0.25, 3000.0),
    AllocationRow("Tech Stocks", 0.25, 0.15, 0.30, 2500.0),
    AllocationRow("Emerging Markets", 0.15, 0.10, 0.28, 3500.0),
    AllocationRow("Commodities", 0.10, 0.08, 0.22, 4000.0)]

  const TraditionalModerate: seq<AllocationRow> := [
    AllocationRow("Index Funds", 0.40, 0.08, 0.15, 2000.0),
    AllocationRow("Bonds", 0.30, 0.04, 0.06, 500.0),
    AllocationRow("Stocks", 0.20, 0.10, 0.18, 2500.0),
    AllocationRow("Alternatives", 0.10, 0.07, 0.20, 1800.0)]

  const GreenConservative: seq<AllocationRow> := [
    AllocationRow("Green Bonds", 0.50, 0.045, 0.06, 50.0),
    AllocationRow("Renewable Energy Funds", 0.25, 0.07, 0.12, 100.0),
    AllocationRow("ESG Index Funds", 0.15, 0.065, 0.10, 200.0),
    AllocationRow("Sustainable Real Estate", 0.10, 0.055, 0.09, 150.0)]

  const GreenAggressive: seq<AllocationRow> := [
    AllocationRow("Clean Tech Stocks", 0.40, 0.13, 0.24, 150.0),
    AllocationRow("Solar Energy Companies", 0.25, 0.14, 0.26, 80.0),
    AllocationRow("Electric Vehicle Sector", 0.20, 0.12, 0.23, 200.0),
    AllocationRow("Carbon Credit Futures", 0.15, 0.10, 0.28, 50.0)]

  const GreenModerate: seq<AllocationRow> := [
    AllocationRow("ESG Equity Funds", 0.35, 0.085, 0.14, 180.0),
    AllocationRow("Green Bonds", 0.30, 0.045, 0.06, 50.0),
    AllocationRow("Renewable Infrastructure", 0.20, 0.075, 0.11, 120.0),
    AllocationRow("Sustainable Agriculture", 0.15, 0.070, 0.13, 100.0)]

  /** The traditional table for a risk tolerance; anything other than
      "conservative" or "aggressive" selects the moderate table. */
  function TraditionalTable(riskTolerance: string): (t: seq<AllocationRow>)
    ensures riskTolerance == "conservative" ==> t == TraditionalConservative
    ensures riskTolerance == "aggressive" ==> t == TraditionalAggressive
    ensures riskTolerance != "conservative" && riskTolerance != "aggressive" ==> t == TraditionalModerate
  {
    if riskTolerance == "conservative" then TraditionalConservative
    else if riskTolerance == "aggressive" then TraditionalAggressive
    else TraditionalModerate
  }

  /** The green table for a risk tolerance, with the same fallback. */
  function GreenTable(riskTolerance: string): (t: seq<AllocationRow>)
    ensures riskTolerance == "conservative" ==> t == GreenConservative
    ensures riskTolerance == "aggressive" ==> t == GreenAggressive
    ensures riskTolerance != "conservative" && riskTolerance != "aggressive" ==> t == GreenModerate
  {
    if riskTolerance == "conservative" then GreenConservative
    else if riskTolerance == "aggressive" then GreenAggressive
    else GreenModerate
  }

  function WeightSum(t: seq<AllocationRow>): real
  {
    if t == [] then 0.0 else t[0].weight + WeightSum(t[1..])
  }

  /** Four rows, positive weights, weights summing to 1. */
  predicate WellFormedTable(t: seq<AllocationRow>)
  {
    |t| == 4 && WeightSum(t) == 1.0 && forall i :: 0 <= i < |t| ==> t[i].weight > 0.0
  }

  /** Every table, for every risk tolerance, holds exactly four assets whose
      weights sum to 1. */
  lemma TablesWellFormed(riskTolerance: string)
    ensures WellFormedTable(TraditionalTable(riskTolerance))
    ensures WellFormedTable(GreenTable(riskTolerance))
  {
    assert WellFormedTable(TraditionalConservative);
    assert WellFormedTable(TraditionalAggressive);
    assert WellFormedTable(TraditionalModerate);
    assert WellFormedTable(GreenConservative);
    assert WellFormedTable(GreenAggressive);
    assert WellFormedTable(GreenModerate);
  }

  // ---------------------------------------------------------------------------
  // Asset generation

  function TraditionalAsset(row: AllocationRow, capital: real): (a: Asset)
    ensures a.name == row.name && a.kind == Traditional && a.allocation == row.weight
    ensures a.value == capital * row.weight && a.annualCo2Tons == row.carbon * row.weight
    ensures a.esgRating == None && !a.sdgAligned
  {
    Asset(row.name, Traditional, row.weight, capital * row.weight, row.expectedReturn, row.volatility,
          row.carbon * row.weight, None, false)
  }

  function GreenAsset(row: AllocationRow, capital: real, rating: EsgRating): (a: Asset)
    ensures a.name == row.name && a.kind == Green && a.allocation == row.weight
    ensures a.value == capital * row.weight && a.annualCo2Tons == row.carbon * row.weight
    ensures a.esgRating == Some(rating) && a.sdgAligned
  {
    Asset(row.name, Green, row.weight, capital * row.weight, row.expectedReturn, row.volatility,
          row.carbon * row.weight, Some(rating), true)
  }

  /** The traditional assets, one per table row, in table order. */
  function TraditionalAssets(capital: real, riskTolerance: string): (assets: seq<Asset>)
    ensures |assets| == |TraditionalTable(riskTolerance)|
    ensures forall i :: 0 <= i < |assets| ==> assets[i] == TraditionalAsset(TraditionalTable(riskTolerance)[i], capital)
  {
    var table := TraditionalTable(riskTolerance);
    seq(|table|, i requires 0 <= i < |table| => TraditionalAsset(table[i], capital))
  }

  /** The green assets, one per table row, in table order. */
  function GreenAssets(capital: real, riskTolerance: string, ratings: seq<EsgRating>): (assets: seq<Asset>)
    requires |ratings| == |GreenTable(riskTolerance)|
    ensures |assets| == |GreenTable(riskTolerance)|
    ensures forall i :: 0 <= i < |assets| ==> assets[i] == GreenAsset(GreenTable(riskTolerance)[i], capital, ratings[i])
  {
    var table := GreenTable(riskTolerance);
    seq(|table|, i requires 0 <= i < |table| => GreenAsset(table[i], capital, ratings[i]))
  }

  /** `_generate_traditional_assets`: one asset appended per table row. */
  method GenerateTraditionalAssets(capital: real, riskTolerance: string) returns (assets: seq<Asset>)
    ensures assets == TraditionalAssets(capital, riskTolerance)
    ensures |assets| == 4
    ensures forall i :: 0 <= i < |assets| ==>
      assets[i].name == TraditionalTable(riskTolerance)[i].name
      && assets[i].value == capital * TraditionalTable(riskTolerance)[i].weight
      && assets[i].annualCo2Tons == TraditionalTable(riskTolerance)[i].carbon * TraditionalTable(riskTolerance)[i].weight
  {
    var table := TraditionalTable(riskTolerance);
    assets := [];
    for i := 0 to |table|
      invariant |assets| == i
      invariant forall j :: 0 <= j < i ==> assets[j] == TraditionalAsset(table[j], capital)
    {
      var row := table[i];
      assets := assets + [TraditionalAsset(row, capital)];
    }
  }

  /** `_generate_green_assets`: one asset appended per table row, each with
      the rating drawn for it. */
  method GenerateGreenAssets(capital: real, riskTolerance: string, ratings: seq<EsgRating>)
    returns (assets: seq<Asset>)
    requires |ratings| == 4
    ensures |GreenTable(riskTolerance)| == 4
    ensures assets == GreenAssets(capital, riskTolerance, ratings)
    ensures forall i :: 0 <= i < |assets| ==>
      assets[i].name == GreenTable(riskTolerance)[i].name
      && assets[i].value == capital * GreenTable(riskTolerance)[i].weight
      && assets[i].annualCo2Tons == GreenTable(riskTolerance)[i].carbon * GreenTable(riskTolerance)[i].weight
      && assets[i].sdgAligned
  {
    var table := GreenTable(riskTolerance);
    assets := [];
    for i := 0 to |table|
      invariant |assets| == i
      invariant forall j :: 0 <= j < i ==> assets[j] == GreenAsset(table[j], capital, ratings[j])
    {
      var row := table[i];
      assets := assets + [GreenAsset(row, capital, ratings[i])];
    }
  }

  // ---------------------------------------------------------------------------
  // Portfolio metrics

  /** `sum(expected_return * allocation)`. */
  function WeightedReturn(assets: seq<Asset>): real
  {
    if assets == [] then 0.0 else assets[0].expectedReturn * assets[0].allocation + WeightedReturn(assets[1..])
  }

  /** `sum(volatility * allocation)`. */
  function WeightedVolatility(assets: seq<Asset>): real
  {
    if assets == [] then 0.0 else assets[0].volatility * assets[0].allocation + WeightedVolatility(assets[1..])
  }

  /** `sum(annual_co2_tons)`. */
  function CarbonFootprint(assets: seq<Asset>): real
  {
    if assets == [] then 0.0 else assets[0].annualCo2Tons + CarbonFootprint(assets[1..])
  }

  /** `sum(allocation * 100 for aligned assets)`. */
  function SdgScore(assets: seq<Asset>): real
  {
    if assets == [] then 0.0
    else (if assets[0].sdgAligned then assets[0].allocation * 100.0 else 0.0) + SdgScore(assets[1..])
  }

  /** The Sharpe ratio against a 2% risk-free rate, 0 for a portfolio without
      volatility. */
  function SharpeRatio(totalReturn: real, totalVolatility: real): (s: real)
    ensures totalVolatility <= 0.0 ==> s == 0.0
    ensures totalVolatility > 0.0 ==> s * totalVolatility == totalReturn - RiskFreeRate
    ensures totalVolatility > 0.0 ==> (s > 0.0 <==> totalReturn > RiskFreeRate)
  {
    if totalVolatility > 0.0 then (totalReturn - RiskFreeRate) / totalVolatility else 0.0
  }

  /** `_calculate_portfolio_metrics`. */
  function CalculatePortfolioMetrics(assets: seq<Asset>): (m: PortfolioMetrics)
    ensures m.expectedReturn == WeightedReturn(assets) && m.volatility == WeightedVolatility(assets)
    ensures m.sharpeRatio == SharpeRatio(m.expectedReturn, m.volatility)
    ensures m.carbonFootprint == CarbonFootprint(assets) && m.sdgScore == SdgScore(assets)
  {
    var r := WeightedReturn(assets);
    var v := WeightedVolatility(assets);
    PortfolioMetrics(r, v, SharpeRatio(r, v), CarbonFootprint(assets), SdgScore(assets))
  }

  /** Only aligned assets count towards the SDG score: a portfolio without
      any scores 0, one with all of them scores 100 times its total weight. */
  lemma {:induction false} SdgScoreCountsAlignedOnly(assets: seq<Asset>)
    ensures (forall i :: 0 <= i < |assets| ==> !assets[i].sdgAligned) ==> SdgScore(assets) == 0.0
    ensures (forall i :: 0 <= i < |assets| ==> assets[i].sdgAligned) ==>
      SdgScore(assets) == 100.0 * AllocationSum(assets)
  {
    if assets != [] {
      SdgScoreCountsAlignedOnly(assets[1..]);
      assert forall i :: 1 <= i < |assets| ==> assets[i] == assets[1..][i - 1];
    }
  }

  function AllocationSum(assets: seq<Asset>): real
  {
    if assets == [] then 0.0 else assets[0].allocation + AllocationSum(assets[1..])
  }

  /** The generated assets' allocations are the table's weights, so they sum
      to 1 as well. */
  lemma {:induction false} AllocationsAreWeights(assets: seq<Asset>, table: seq<AllocationRow>)
    requires |assets| == |table|
    requires forall i :: 0 <= i < |assets| ==> assets[i].allocation == table[i].weight
    ensures AllocationSum(assets) == WeightSum(table)
  {
    if assets != [] {
      AllocationsAreWeights(assets[1..], table[1..]);
    }
  }

  /** The footprint of generated assets is the carbon-weighted sum of their
      table. */
  function TableFootprint(t: seq<AllocationRow>): real
  {
    if t == [] then 0.0 else t[0].carbon * t[0].weight + TableFootprint(t[1..])
  }

  lemma {:induction false} FootprintIsTableFootprint(assets: seq<Asset>, table: seq<AllocationRow>)
    requires |assets| == |table|
    requires forall i :: 0 <= i < |assets| ==> assets[i].annualCo2Tons == table[i].carbon * table[i].weight
    ensures CarbonFootprint(assets) == TableFootprint(table)
  {
    if assets != [] {
      FootprintIsTableFootprint(assets[1..], table[1..]);
    }
  }

  /** The traditional portfolio scores 0 on SDG alignment and the green one
      100, whatever the capital and risk tolerance. */
  lemma SdgScoresOfGeneratedPortfolios(capital: real, riskTolerance: string, ratings: seq<EsgRating>)
    requires |ratings| == 4
    ensures SdgScore(TraditionalAssets(capital, riskTolerance)) == 0.0
    ensures |GreenTable(riskTolerance)| == 4
    ensures SdgScore(GreenAssets(capital, riskTolerance, ratings)) == 100.0
  {
    TablesWellFormed(riskTolerance);
    var trad := TraditionalAssets(capital, riskTolerance);
    var green := GreenAssets(capital, riskTolerance, ratings);
    SdgScoreCountsAlignedOnly(trad);
    SdgScoreCountsAlignedOnly(green);
    AllocationsAreWeights(green, GreenTable(riskTolerance));
  }

  /** The table footprints: the green table is lighter than the traditional
      one at every risk tolerance, and every green footprint is at most 127.5
      tons. */
  lemma FootprintsOfTables(riskTolerance: string)
    ensures TableFootprint(TraditionalTable(riskTolerance))
         == (if riskTolerance == "conservative" then 950.0
             else if riskTolerance == "aggressive" then 3050.0 else 1630.0)
    ensures TableFootprint(GreenTable(riskTolerance))
         == (if riskTolerance == "conservative" then 95.0
             else if riskTolerance == "aggressive" then 127.5 else 117.0)
    ensures TableFootprint(GreenTable(riskTolerance)) < TableFootprint(TraditionalTable(riskTolerance))
  {
    assert TableFootprint(TraditionalConservative) == 950.0;
    assert TableFootprint(TraditionalAggressive) == 3050.0;
    assert TableFootprint(TraditionalModerate) == 1630.0;
    assert TableFootprint(GreenConservative) == 95.0;
    assert TableFootprint(GreenAggressive) == 127.5;
    assert TableFootprint(GreenModerate) == 117.0;
  }

  // ---------------------------------------------------------------------------
  // Carbon-neutrality timeline

  /** The years the reduction loop counts from `current` after `years`
      rounds: 10% less per year until at most 100 tons or 30 years. */
  function LoopYears(current: real, years: nat): (r: nat)
    requires years <= 30
    ensures years <= r <= 30
    decreases 30 - years
  {
    if current > 100.0 && years < 30 then LoopYears(current * 0.9, years + 1) else years
  }

  /** What `_estimate_neutrality_timeline` returns. */
  function NeutralityYears(footprint: real): (y: real)
    ensures 0.0 <= y <= 30.0
  {
    if footprint <= 100.0 then 2.0
    else if footprint <= 500.0 then 5.0
    else if footprint <= 1000.0 then 8.0
    else LoopYears(footprint, 0) as real
  }

  /** `_estimate_neutrality_timeline`, with its reduction loop. */
  method EstimateNeutralityTimeline(footprint: real) returns (years: real)
    ensures years == NeutralityYears(footprint)
  {
    if footprint <= 100.0 {
      return 2.0;
    } else if footprint <= 500.0 {
      return 5.0;
    } else if footprint <= 1000.0 {
      return 8.0;
    }
    var count: nat := 0;
    var current := footprint;
    while current > 100.0 && count < 30
      invariant count <= 30
      invariant LoopYears(current, count) == LoopYears(footprint, 0)
      decreases 30 - count
    {
      current := current * 0.9;
      count := count + 1;
    }
    years := count as real;
  }

  /** A larger footprint never counts fewer years. */
  lemma {:induction false} LoopYearsMonotone(a: real, b: real, years: nat)
    requires a <= b && years <= 30
    ensures LoopYears(a, years) <= LoopYears(b, years)
    decreases 30 - years
  {
    if a > 100.0 && years < 30 {
      LoopYearsMonotone(a * 0.9, b * 0.9, years + 1);
    }
  }

  /** The loop runs at least `k` rounds while the footprint stays above 100
      for the first `k - 1` reductions. */
  lemma {:induction false} LoopRunsAtLeast(current: real, years: nat, k: nat)
    requires k >= 1 && years + k <= 30
    requires current > 100.0 * Pow(10.0 / 9.0, k - 1)
    ensures LoopYears(current, years) >= years + k
    decreases k
  {
    PowAboveOne(10.0 / 9.0, k - 1);
    if k > 1 {
      assert Pow(10.0 / 9.0, k - 1) == 10.0 / 9.0 * Pow(10.0 / 9.0, k - 2);
      LoopRunsAtLeast(current * 0.9, years + 1, k - 1);
    }
  }

  /** `(10/9) ** 21 < 9.2`, step by step with four-decimal upper bounds. */
  lemma TenNinthsPow21()
    ensures Pow(10.0 / 9.0, 21) < 9.2
  {
    var x := 10.0 / 9.0;
    assert Pow(x, 1) == x * Pow(x, 0) <= 1.1112;
    assert Pow(x, 2) == x * Pow(x, 1) <= 1.2347;
    assert Pow(x, 3) == x * Pow(x, 2) <= 1.3719;
    assert Pow(x, 4) == x * Pow(x, 3) <= 1.5244;
    assert Pow(x, 5) == x * Pow(x, 4) <= 1.6938;
    assert Pow(x, 6) == x * Pow(x, 5) <= 1.8820;
    assert Pow(x, 7) == x * Pow(x, 6) <= 2.0912;
    assert Pow(x, 8) == x * Pow(x, 7) <= 2.3236;
    assert Pow(x, 9) == x * Pow(x, 8) <= 2.5818;
    assert Pow(x, 10) == x * Pow(x, 9) <= 2.8687;
    assert Pow(x, 11) == x * Pow(x, 10) <= 3.1875;
    assert Pow(x, 12) == x * Pow(x, 11) <= 3.5417;
    assert Pow(x, 13) == x * Pow(x, 12) <= 3.9353;
    assert Pow(x, 14) == x * Pow(x, 13) <= 4.3726;
    assert Pow(x, 15) == x * Pow(x, 14) <= 4.8585;
    assert Pow(x, 16) == x * Pow(x, 15) <= 5.3984;
    assert Pow(x, 17) == x * Pow(x, 16) <= 5.9983;
    assert Pow(x, 18) == x * Pow(x, 17) <= 6.6648;
    assert Pow(x, 19) == x * Pow(x, 18) <= 7.4054;
    assert Pow(x, 20) == x * Pow(x, 19) <= 8.2283;
    assert Pow(x, 21) == x * Pow(x, 20) <= 9.1426;
  }

  /** Above 1000 tons the loop counts at least 22 years; so the timeline
      jumps from 8 to 22 there and is monotone overall. */
  lemma LoopAbove1000(footprint: real)
    requires footprint > 1000.0
    ensures NeutralityYears(footprint) >= 22.0
  {
    TenNinthsPow21();
    LoopRunsAtLeast(footprint, 0, 22);
  }

  lemma NeutralityYearsMonotone(a: real, b: real)
    requires a <= b
    ensures NeutralityYears(a) <= NeutralityYears(b)
  {
    if a > 1000.0 {
      LoopYearsMonotone(a, b, 0);
    } else if b > 1000.0 {
      LoopAbove1000(b);
    }
  }

  /** Every green table's footprint is at most 500 tons, so the green
      portfolio's timeline is 2 or 5 years and never comes from the loop. */
  lemma GreenTimelineIsShort(riskTolerance: string)
    ensures NeutralityYears(TableFootprint(GreenTable(riskTolerance)))
         == (if riskTolerance == "conservative" then 2.0 else 5.0)
  {
    FootprintsOfTables(riskTolerance);
  }

  // ---------------------------------------------------------------------------
  // Portfolios

  /** The traditional portfolio for a capital and a tolerance: the generated
      assets, their metrics, the table footprint, and neither a timeline nor
      an SDG score. */
  predicate IsTraditionalPortfolio(p: Portfolio, capital: real, riskTolerance: string)
  {
    && p.kind == Traditional && p.totalValue == capital
    && p.assets == TraditionalAssets(capital, riskTolerance)
    && p.annualCarbonFootprint == TableFootprint(TraditionalTable(riskTolerance))
    && p.expectedReturn == WeightedReturn(p.assets) && p.volatility == WeightedVolatility(p.assets)
    && p.sharpeRatio == SharpeRatio(p.expectedReturn, p.volatility)
    && p.neutralityYears == None && p.sdgAlignmentScore == None
  }

  /** The green portfolio for a capital, a tolerance and the rating draws: the
      generated green assets, their metrics, the table footprint, the
      neutrality timeline of that footprint and an SDG score of 100. */
  predicate IsGreenPortfolio(p: Portfolio, capital: real, riskTolerance: string, ratings: seq<EsgRating>)
    requires |ratings| == 4
  {
    && |GreenTable(riskTolerance)| == 4
    && p.kind == Green && p.totalValue == capital
    && p.assets == GreenAssets(capital, riskTolerance, ratings)
    && p.annualCarbonFootprint == TableFootprint(GreenTable(riskTolerance))
    && p.expectedReturn == WeightedReturn(p.assets) && p.volatility == WeightedVolatility(p.assets)
    && p.sharpeRatio == SharpeRatio(p.expectedReturn, p.volatility)
    && p.neutralityYears == Some(NeutralityYears(p.annualCarbonFootprint))
    && p.sdgAlignmentScore == Some(100.0)
  }

  /** `optimize_traditional`; the target return and market data it receives
      do not influence the result. */
  method OptimizeTraditional(capital: real, riskTolerance: string) returns (p: Portfolio)
    ensures IsTraditionalPortfolio(p, capital, riskTolerance)
  {
    var assets := GenerateTraditionalAssets(capital, riskTolerance);
    var m := CalculatePortfolioMetrics(assets);
    FootprintIsTableFootprint(assets, TraditionalTable(riskTolerance));
    p := Portfolio(Traditional, capital, assets, m.expectedReturn, m.volatility, m.sharpeRatio,
                   m.carbonFootprint, None, None);
  }

  /** `optimize_green`: the same metrics plus the neutrality timeline of the
      footprint and the SDG alignment score. */
  method OptimizeGreen(capital: real, riskTolerance: string, ratings: seq<EsgRating>) returns (p: Portfolio)
    requires |ratings| == 4
    ensures IsGreenPortfolio(p, capital, riskTolerance, ratings)
  {
    var assets := GenerateGreenAssets(capital, riskTolerance, ratings);
    var m := CalculatePortfolioMetrics(assets);
    FootprintIsTableFootprint(assets, GreenTable(riskTolerance));
    SdgScoresOfGeneratedPortfolios(capital, riskTolerance, ratings);
    var years := EstimateNeutralityTimeline(m.carbonFootprint);
    p := Portfolio(Green, capital, assets, m.expectedReturn, m.volatility, m.sharpeRatio,
                   m.carbonFootprint, Some(years), Some(m.sdgScore));
  }

  // ---------------------------------------------------------------------------
  // Rebalancing

  datatype Direction = Reduce | Increase

  datatype RebalanceAction = RebalanceAction(asset: string, action: Direction, from: real, to: real, reason: string)

  datatype RebalanceResult = RebalanceResult(
    rebalancingRequired: bool, actions: seq<RebalanceAction>, estimatedCost: real)

  /** The rule for one asset: above 35% reduce to 30%, below 5% increase to
      10%, otherwise leave it alone. */
  function ActionFor(a: Asset): (r: seq<RebalanceAction>)
    ensures |r| <= 1
    ensures |r| == 1 <==> a.allocation > 0.35 || a.allocation < 0.05
    ensures a.allocation > 0.35 ==> r == [RebalanceAction(a.name, Reduce, a.allocation, 0.30, "Overweight position")]
    ensures a.allocation < 0.05 ==> r == [RebalanceAction(a.name, Increase, a.allocation, 0.10, "Underweight position")]
  {
    if a.allocation > 0.35 then [RebalanceAction(a.name, Reduce, a.allocation, 0.30, "Overweight position")]
    else if a.allocation < 0.05 then [RebalanceAction(a.name, Increase, a.allocation, 0.10, "Underweight position")]
    else []
  }

  /** The actions for a list of assets, asset by asset in order. */
  function RebalanceActions(assets: seq<Asset>): (r: seq<RebalanceAction>)
    ensures |r| <= |assets|
  {
    if assets == [] then [] else RebalanceActions(assets[..|assets| - 1]) + ActionFor(assets[|assets| - 1])
  }

  predicate InBand(a: Asset)
  {
    0.05 <= a.allocation <= 0.35
  }

  /** At most one action per asset, and none exactly when every allocation
      lies within [0.05, 0.35]. */
  lemma {:induction false} RebalanceActionsCount(assets: seq<Asset>)
    ensures |RebalanceActions(assets)| <= |assets|
    ensures RebalanceActions(assets) == [] <==> forall i :: 0 <= i < |assets| ==> InBand(assets[i])
  {
    if assets != [] {
      var init := assets[..|assets| - 1];
      RebalanceActionsCount(init);
      assert forall i :: 0 <= i < |init| ==> init[i] == assets[i];
    }
  }

  /** Rebalancing distributes over concatenation: the actions of earlier
      assets come first, in the assets' order. */
  lemma {:induction false} RebalanceActionsConcat(s: seq<Asset>, t: seq<Asset>)
    ensures RebalanceActions(s + t) == RebalanceActions(s) + RebalanceActions(t)
    decreases |t|
  {
    if t == [] {
      assert s + t == s;
    } else {
      var init := t[..|t| - 1];
      RebalanceActionsConcat(s, init);
      assert (s + t)[..|s + t| - 1] == s + init;
      assert (s + t)[|s + t| - 1] == t[|t| - 1];
    }
  }

  /** `rebalance_portfolio`: appends each asset's action in order. */
  method RebalancePortfolio(assets: seq<Asset>) returns (r: RebalanceResult)
    ensures r.actions == RebalanceActions(assets)
    ensures r.rebalancingRequired <==> |r.actions| > 0
    ensures r.estimatedCost == |r.actions| as real * 25.0
  {
    var actions: seq<RebalanceAction> := [];
    for i := 0 to |assets|
      invariant actions == RebalanceActions(assets[..i])
    {
      var a := assets[i];
      assert assets[..i + 1][..i] == assets[..i];
      if a.allocation > 0.35 {
        actions := actions + [RebalanceAction(a.name, Reduce, a.allocation, 0.30, "Overweight position")];
      } else if a.allocation < 0.05 {
        actions := actions + [RebalanceAction(a.name, Increase, a.allocation, 0.10, "Underweight position")];
      }
    }
    assert assets[..|assets|] == assets;
    r := RebalanceResult(|actions| > 0, actions, |actions| as real * 25.0);
  }

  /** The moderate green portfolio is balanced (its 35% position sits on the
      boundary and is not reduced), while the moderate traditional one has
      its 40% index funds reduced. */
  lemma ModerateTablesRebalancing(capital: real, ratings: seq<EsgRating>)
    requires |ratings| == 4
    ensures |GreenTable("moderate")| == 4
    ensures RebalanceActions(GreenAssets(capital, "moderate", ratings)) == []
    ensures |RebalanceActions(TraditionalAssets(capital, "moderate"))| == 1
  {
    var green := GreenAssets(capital, "moderate", ratings);
    RebalanceActionsCount(green);
    var trad := TraditionalAssets(capital, "moderate");
    assert trad == [trad[0]] + [trad[1]] + [trad[2]] + [trad[3]];
    RebalanceActionsConcat([trad[0]] + [trad[1]] + [trad[2]], [trad[3]]);
    RebalanceActionsConcat([trad[0]] + [trad[1]], [trad[2]]);
    RebalanceActionsConcat([trad[0]], [trad[1]]);
    assert RebalanceActions([trad[0]]) == ActionFor(trad[0]);
    assert RebalanceActions([trad[1]]) == ActionFor(trad[1]);
    assert RebalanceActions([trad[2]]) == ActionFor(trad[2]);
    assert RebalanceActions([trad[3]]) == ActionFor(trad[3]);
  }
}
