/** The data collection agent: the records it gathers for an entity, its
    time-to-live cache keyed by entity type and id, the completeness score it
    attaches to each record, and the synthetic stock list it builds.
    Every random draw and every clock reading is a parameter. */
module DataCollection {

  /** The financial record of an entity (`_collect_financial_data`). */
  datatype FinancialData = FinancialData(
    revenue: real,
    profitMargin: real,
    debtToEquity: real,
    currentRatio: real,
    creditHistoryYears: int,
    paymentDefaults: int)

  /** The carbon-emission record of an entity (`_collect_carbon_data`). */
  datatype CarbonData = CarbonData(
    totalCo2Tons: real,
    scope1Emissions: real,
    scope2Emissions: real,
    scope3Emissions: real,
    trend: real,
    renewableEnergyPercentage: real,
    carbonOffsetTons: real,
    lastUpdated: int)

  /** The ESG record of an entity (`_collect_esg_data`); `sdgAlignment` holds
      the values of the goal-to-flag dictionary in its order. */
  datatype EsgData = EsgData(
    environmentalScore: real,
    socialScore: real,
    governanceScore: real,
    sdgAlignment: seq<bool>,
    certifications: seq<string>)

  /** The aggregated record `collect_all_data` returns and caches. */
  datatype EntityData = EntityData(
    entityId: string,
    entityType: string,
    timestamp: int,
    financial: FinancialData,
    carbonEmissions: CarbonData,
    esgMetrics: EsgData,
    dataQualityScore: int)

  /** What one fresh collection draws: the three source records. */
  datatype EntityDraws = EntityDraws(financial: FinancialData, carbon: CarbonData, esg: EsgData)

  /** A cache slot: the record and the time (in seconds) it was stored. */
  datatype CacheEntry = CacheEntry(data: EntityData, storedAt: int)

  /** One synthetic stock row and the random values that fill it. */
  datatype StockDraw = StockDraw(price: real, expectedReturn: real, volatility: real, annualCo2Tons: int)
  datatype StockRecord = StockRecord(ticker: string, price: real, expectedReturn: real, volatility: real, annualCo2Tons: int)

  /** Seconds a cached record stays valid. */
  const CacheTtl: int := 3600

  /** Number of keys in the collector's financial and ESG dictionaries. */
  const FinancialFieldCount: nat := 6
  const EsgFieldCount: nat := 5

  // ---------------------------------------------------------------------------
  // Cache key

  /** `f"{entity_type}_{entity_id}"`. */
  function CacheKey(entityId: string, entityType: string): (k: string)
    ensures |k| == |entityType| + 1 + |entityId|
    ensures k[..|entityType|] == entityType && k[|entityType|] == '_'
    ensures k[|entityType| + 1..] == entityId
  {
    entityType + "_" + entityId
  }

  /** Two entity types without an underscore never share a key unless type
      and id both agree (the entity types in use are "company" and
      "individual"). */
  lemma CacheKeyInjective(id1: string, type1: string, id2: string, type2: string)
    requires '_' !in type1 && '_' !in type2
    requires CacheKey(id1, type1) == CacheKey(id2, type2)
    ensures id1 == id2 && type1 == type2
  {
  }

  /** Without that restriction the key is ambiguous: type "a_b" with id "c"
      and type "a" with id "b_c" share the slot "a_b_c". */
  lemma CacheKeyCollision()
    ensures CacheKey("c", "a_b") == CacheKey("b_c", "a")
  {
  }

  // ---------------------------------------------------------------------------
  // Cache semantics, as functions of the cache before the call

  /** A stored record is served when its key is present and it is younger
      than the time-to-live (`now - timestamp < timedelta(seconds=ttl)`). */
  predicate IsHit(cache: map<string, CacheEntry>, key: string, now: int)
  {
    key in cache && now - cache[key].storedAt < CacheTtl
  }

  /** The record a fresh collection aggregates. */
  function FreshData(entityId: string, entityType: string, now: int, draws: EntityDraws): (d: EntityData)
    ensures d.entityId == entityId && d.entityType == entityType && d.timestamp == now
    ensures d.financial == draws.financial && d.carbonEmissions == draws.carbon && d.esgMetrics == draws.esg
    ensures d.dataQualityScore == 100
  {
    EntityData(entityId, entityType, now, draws.financial, draws.carbon, draws.esg,
               DataQualityScore(FinancialFieldCount, true, EsgFieldCount))
  }

  /** The record `collect_all_data` returns: the stored one on a hit,
      otherwise a record stamped now and carrying this call's draws. */
  function CollectedData(cache: map<string, CacheEntry>, entityId: string, entityType: string,
                         now: int, draws: EntityDraws): (d: EntityData)
    ensures IsHit(cache, CacheKey(entityId, entityType), now) ==> d == cache[CacheKey(entityId, entityType)].data
    ensures !IsHit(cache, CacheKey(entityId, entityType), now) ==>
      d.entityId == entityId && d.entityType == entityType && d.timestamp == now
      && d.financial == draws.financial && d.carbonEmissions == draws.carbon && d.esgMetrics == draws.esg
  {
    var key := CacheKey(entityId, entityType);
    if IsHit(cache, key, now) then cache[key].data else FreshData(entityId, entityType, now, draws)
  }

  /** The cache after `collect_all_data`: the entity's key is present and
      fresh at `now`, no key is lost, and every other entry is untouched. */
  function CacheAfter(cache: map<string, CacheEntry>, entityId: string, entityType: string,
                      now: int, draws: EntityDraws): (after: map<string, CacheEntry>)
    ensures IsHit(after, CacheKey(entityId, entityType), now)
    ensures after.Keys == cache.Keys + {CacheKey(entityId, entityType)}
    ensures forall k :: k in cache && k != CacheKey(entityId, entityType) ==> after[k] == cache[k]
  {
    var key := CacheKey(entityId, entityType);
    if IsHit(cache, key, now) then cache
    else cache[key := CacheEntry(FreshData(entityId, entityType, now, draws), now)]
  }

  /** A hit returns the stored record unchanged and leaves the cache alone; a
      miss (absent or expired) returns the fresh record and stores it with the
      current time; either way no other key changes. */
  lemma CollectSemantics(cache: map<string, CacheEntry>, entityId: string, entityType: string,
                         now: int, draws: EntityDraws)
    ensures var key := CacheKey(entityId, entityType);
      && (IsHit(cache, key, now) ==>
            CollectedData(cache, entityId, entityType, now, draws) == cache[key].data
            && CacheAfter(cache, entityId, entityType, now, draws) == cache)
      && (!IsHit(cache, key, now) ==>
            CollectedData(cache, entityId, entityType, now, draws) == FreshData(entityId, entityType, now, draws)
            && CacheAfter(cache, entityId, entityType, now, draws)[key]
               == CacheEntry(FreshData(entityId, entityType, now, draws), now))
    ensures var after := CacheAfter(cache, entityId, entityType, now, draws);
      forall k :: k != CacheKey(entityId, entityType) ==>
        (k in after <==> k in cache) && (k in cache ==> after[k] == cache[k])
  {
  }

  /** After a collection that missed, asking again for the same entity less
      than an hour later returns the record that call stored, whatever the new
      draws. */
  lemma RepeatWithinTtlIsServedFromCache(cache: map<string, CacheEntry>, entityId: string, entityType: string,
                                         now: int, later: int, draws: EntityDraws, draws2: EntityDraws)
    requires !IsHit(cache, CacheKey(entityId, entityType), now)
    requires later - now < CacheTtl
    ensures CollectedData(CacheAfter(cache, entityId, entityType, now, draws), entityId, entityType, later, draws2)
         == CollectedData(cache, entityId, entityType, now, draws)
  {
  }

  /** A record stored at `now` has expired an hour later: that call collects
      afresh. */
  lemma ExpiredEntryIsRecollected(cache: map<string, CacheEntry>, entityId: string, entityType: string,
                                  now: int, later: int, draws: EntityDraws, draws2: EntityDraws)
    requires !IsHit(cache, CacheKey(entityId, entityType), now)
    requires later - now >= CacheTtl
    ensures CollectedData(CacheAfter(cache, entityId, entityType, now, draws), entityId, entityType, later, draws2)
         == FreshData(entityId, entityType, later, draws2)
  {
  }

  // ---------------------------------------------------------------------------
  // Data quality

  /** The completeness credits: 33 for a financial dictionary of at least five
      keys, 33 for a carbon dictionary holding the total, 34 for an ESG
      dictionary of at least four keys. */
  function DataQualityScore(financialFields: nat, carbonHasTotal: bool, esgFields: nat): (q: int)
    ensures q in {0, 33, 34, 66, 67, 100}
    ensures q == 100 <==> financialFields >= 5 && carbonHasTotal && esgFields >= 4
    ensures q == 0 <==> financialFields < 5 && !carbonHasTotal && esgFields < 4
    ensures (esgFields >= 4) <==> q in {34, 67, 100}
  {
    (if financialFields >= 5 then 33 else 0)
    + (if carbonHasTotal then 33 else 0)
    + (if esgFields >= 4 then 34 else 0)
  }

  /** `_calculate_data_quality`: accumulates the credits one check at a time. */
  method CalculateDataQuality(financialFields: nat, carbonHasTotal: bool, esgFields: nat) returns (q: int)
    ensures q == DataQualityScore(financialFields, carbonHasTotal, esgFields)
  {
    q := 0;
    if financialFields >= 5 {
      q := q + 33;
    }
    if carbonHasTotal {
      q := q + 33;
    }
    if esgFields >= 4 {
      q := q + 34;
    }
  }

  // ---------------------------------------------------------------------------
  // Synthetic stock data

  function DigitChar(d: nat): (c: char)
    requires d < 10
    ensures '0' <= c <= '9'
    ensures c as int - '0' as int == d
  {
    (('0' as int) + d) as char
  }

  /** The decimal text of a natural number, as `str(n)` writes it. */
  function NatToString(n: nat): (s: string)
    ensures |s| >= 1
    ensures forall i :: 0 <= i < |s| ==> '0' <= s[i] <= '9'
    ensures n >= 10 ==> |s| >= 2
    decreases n
  {
    if n < 10 then [DigitChar(n)] else NatToString(n / 10) + [DigitChar(n % 10)]
  }

  lemma {:induction false} NatToStringInjective(a: nat, b: nat)
    requires NatToString(a) == NatToString(b)
    ensures a == b
    decreases a
  {
    var s := NatToString(a);
    if a >= 10 && b >= 10 {
      assert s[|s| - 1] == DigitChar(a % 10) == DigitChar(b % 10);
      assert NatToString(a / 10) == s[..|s| - 1] == NatToString(b / 10);
      NatToStringInjective(a / 10, b / 10);
    } else if a < 10 && b < 10 {
      assert s[0] == DigitChar(a) == DigitChar(b);
    }
  }

  /** The ticker of the stock at position `i` (zero-based): `STOCK{i+1}`. */
  function Ticker(i: nat): string
  {
    "STOCK" + NatToString(i + 1)
  }

  lemma TickersDistinct(i: nat, j: nat)
    requires i != j
    ensures Ticker(i) != Ticker(j)
  {
    if Ticker(i) == Ticker(j) {
      assert NatToString(i + 1) == Ticker(i)[5..] == Ticker(j)[5..] == NatToString(j + 1);
      NatToStringInjective(i + 1, j + 1);
    }
  }

  /** `_generate_stock_data(count)`: one record per draw, in order, the i-th
      (zero-based) carrying ticker STOCK{i+1}. */
  method GenerateStockData(count: nat, draws: seq<StockDraw>) returns (stocks: seq<StockRecord>)
    requires |draws| == count
    ensures |stocks| == count
    ensures forall i :: 0 <= i < count ==>
      stocks[i] == StockRecord(Ticker(i), draws[i].price, draws[i].expectedReturn,
                               draws[i].volatility, draws[i].annualCo2Tons)
    ensures forall i, j :: 0 <= i < j < count ==> stocks[i].ticker != stocks[j].ticker
  {
    stocks := [];
    for i := 0 to count
      invariant |stocks| == i
      invariant forall k :: 0 <= k < i ==>
        stocks[k] == StockRecord(Ticker(k), draws[k].price, draws[k].expectedReturn,
                                 draws[k].volatility, draws[k].annualCo2Tons)
    {
      var d := draws[i];
      stocks := stocks + [StockRecord(Ticker(i), d.price, d.expectedReturn, d.volatility, d.annualCo2Tons)];
    }
    forall i, j | 0 <= i < j < count
      ensures stocks[i].ticker != stocks[j].ticker
    {
      TickersDistinct(i, j);
    }
  }

  // ---------------------------------------------------------------------------
  // The agent object and its cache

  class DataCollectionAgent {
    /** `self.data_cache`: cache key to stored record and storage time. */
    var dataCache: map<string, CacheEntry>

    constructor ()
      ensures dataCache == map[]
    {
      dataCache := map[];
    }

    /** `collect_all_data`: serve a fresh-enough cached record, otherwise
        aggregate the drawn records, store them under the key with the current
        time and return them. */
    method CollectAllData(entityId: string, entityType: string, now: int, draws: EntityDraws)
      returns (data: EntityData)
      modifies this
      ensures data == CollectedData(old(dataCache), entityId, entityType, now, draws)
      ensures dataCache == CacheAfter(old(dataCache), entityId, entityType, now, draws)
    {
      var key := CacheKey(entityId, entityType);
      if key in dataCache {
        var entry := dataCache[key];
        if now - entry.storedAt < CacheTtl {
          return entry.data;
        }
      }
      var quality := CalculateDataQuality(FinancialFieldCount, true, EsgFieldCount);
      data := EntityData(entityId, entityType, now, draws.financial, draws.carbon, draws.esg, quality);
      dataCache := dataCache[key := CacheEntry(data, now)];
    }
  }
}
