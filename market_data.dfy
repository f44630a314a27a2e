/**
 * The market-sentiment collector: the cached fear/greed index, the volatility classes,
 * and the combined sentiment score with its label and recommendation. The HTTP fetch
 * and the standard deviation of price changes are inputs.
 */
module MarketData {
  import opened Wrappers

  // ---------------------------------------------------------------- fear and greed

  /** The fear/greed record (value and classification; the timestamps are not modelled). */
  datatype FearGreed = FearGreed(value: int, classification: string, isDefault: bool)

  /** `_get_default_fear_greed` */
  const DEFAULT_FEAR_GREED := FearGreed(50, "Neutral", true)

  /** `cache_duration_minutes`, in seconds. */
  const CACHE_SECONDS: int := 60 * 60

  /** The cache is used when it holds a value stamped less than an hour ago. */
  predicate Fresh(cache: Option<FearGreed>, lastUpdate: Option<int>, now: int)
  {
    cache.Some? && lastUpdate.Some? && now - lastUpdate.value < CACHE_SECONDS
  }

  /**
   * `get_fear_greed_index` with the API's parsed answer as `fetched` (`None` when the
   * call fails or returns no data): the cached value while fresh, else the fetched value,
   * which is cached, else the default, which is not.
   */
  function FearGreedSpec(cache: Option<FearGreed>, lastUpdate: Option<int>, now: int, fetched: Option<FearGreed>)
    : (res: (FearGreed, Option<FearGreed>, Option<int>))
    ensures Fresh(cache, lastUpdate, now) ==> res == (cache.value, cache, lastUpdate)
    ensures !Fresh(cache, lastUpdate, now) && fetched.Some? ==> res == (fetched.value, fetched, Some(now))
    ensures !Fresh(cache, lastUpdate, now) && fetched.None? ==> res == (DEFAULT_FEAR_GREED, cache, lastUpdate)
  {
    if Fresh(cache, lastUpdate, now) then (cache.value, cache, lastUpdate)
    else if fetched.Some? then (fetched.value, fetched, Some(now))
    else (DEFAULT_FEAR_GREED, cache, lastUpdate)
  }

  /** Within the hour after a successful fetch, every call returns that value, whatever the API says. */
  lemma CacheHitIgnoresFetch(cache: Option<FearGreed>, lastUpdate: Option<int>, now: int, fetched: Option<FearGreed>,
                             later: int, refetched: Option<FearGreed>)
    requires !Fresh(cache, lastUpdate, now) && fetched.Some?
    requires now <= later < now + CACHE_SECONDS
    ensures var first := FearGreedSpec(cache, lastUpdate, now, fetched);
      FearGreedSpec(first.1, first.2, later, refetched).0 == fetched.value
  {
  }

  class MarketDataCollector {
    var fearGreedCache: Option<FearGreed>
    var fearGreedLastUpdate: Option<int>

    constructor ()
      ensures fearGreedCache.None? && fearGreedLastUpdate.None?
    {
      fearGreedCache := None;
      fearGreedLastUpdate := None;
    }

    /** `get_fear_greed_index` */
    method GetFearGreedIndex(now: int, fetched: Option<FearGreed>) returns (r: FearGreed)
      modifies this
      ensures (r, fearGreedCache, fearGreedLastUpdate)
           == FearGreedSpec(old(fearGreedCache), old(fearGreedLastUpdate), now, fetched)
    {
      if fearGreedCache.Some? && fearGreedLastUpdate.Some? && now - fearGreedLastUpdate.value < CACHE_SECONDS {
        return fearGreedCache.value;
      }
      if fetched.Some? {
        fearGreedCache := fetched;
        fearGreedLastUpdate := Some(now);
        return fetched.value;
      }
      r := DEFAULT_FEAR_GREED;
    }
  }

  // ---------------------------------------------------------------- volatility

  /** "Very High", "High", "Medium", "Low", "Very Low". */
  datatype VolClass = VeryHigh | High | Medium | Low | VeryLow

  /** A rank for comparing classes: Very Low is 0, Very High is 4. */
  function Rank(c: VolClass): nat
  {
    match c
    case VeryLow => 0
    case Low => 1
    case Medium => 2
    case High => 3
    case VeryHigh => 4
  }

  /** The classification in `calculate_volatility`, on the volatility in percent. */
  function Classify(v: real): (c: VolClass)
    ensures c == VeryHigh <==> v > 5.0
    ensures c == High <==> 3.0 < v <= 5.0
    ensures c == Medium <==> 1.5 < v <= 3.0
    ensures c == Low <==> 0.5 < v <= 1.5
    ensures c == VeryLow <==> v <= 0.5
  {
    if v > 5.0 then VeryHigh
    else if v > 3.0 then High
    else if v > 1.5 then Medium
    else if v > 0.5 then Low
    else VeryLow
  }

  /** Higher volatility never gets a lower class. */
  lemma ClassifyMonotone(v1: real, v2: real)
    requires v1 <= v2
    ensures Rank(Classify(v1)) <= Rank(Classify(v2))
  {
  }

  /** `_get_default_volatility`: 2.0 percent, classed Medium. */
  const DEFAULT_VOLATILITY: real := 2.0

  lemma DefaultVolatilityIsMedium()
    ensures Classify(DEFAULT_VOLATILITY) == Medium
  {
  }

  /** The sentiment points `get_market_sentiment` gives a volatility. */
  function VolatilitySentiment(v: real): (s: int)
    ensures s in {20, 35, 50, 70, 85}
  {
    if v > 5.0 then 20
    else if v > 3.0 then 35
    else if v > 1.5 then 50
    else if v > 0.5 then 70
    else 85
  }

  /** Calmer markets score higher: the map is non-increasing in volatility. */
  lemma VolatilitySentimentAntitone(v1: real, v2: real)
    requires v1 <= v2
    ensures VolatilitySentiment(v1) >= VolatilitySentiment(v2)
  {
  }

  /** The sentiment points depend on the volatility only through its class. */
  lemma SentimentFollowsClass(v1: real, v2: real)
    requires Classify(v1) == Classify(v2)
    ensures VolatilitySentiment(v1) == VolatilitySentiment(v2)
  {
  }

  // ---------------------------------------------------------------- sentiment

  /** "Extreme Greed", "Greed", "Neutral", "Fear", "Extreme Fear". */
  datatype SentimentLabel = ExtremeGreed | Greed | Neutral | Fear | ExtremeFear

  /**
   * "Be Cautious - Extreme Greed", "Consider Taking Profits", "Neutral Market",
   * "Good Buying Opportunity", "Excellent Buying Opportunity - Extreme Fear".
   */
  datatype Recommendation = BeCautious | TakeProfits | NeutralMarket | GoodBuying | ExcellentBuying

  /** 70% fear/greed, 30% volatility sentiment. */
  function Combined(fearGreed: int, volSentiment: int): (c: real)
    ensures 0 <= fearGreed <= 100 && 0 <= volSentiment <= 100 ==> 0.0 <= c <= 100.0
    ensures c - 0.3 * volSentiment as real == 0.7 * fearGreed as real
  {
    fearGreed as real * 0.7 + volSentiment as real * 0.3
  }

  function Label(c: real): (l: SentimentLabel)
    ensures l == ExtremeGreed <==> c >= 75.0
    ensures l == Greed <==> 55.0 <= c < 75.0
    ensures l == Neutral <==> 45.0 <= c < 55.0
    ensures l == Fear <==> 25.0 <= c < 45.0
    ensures l == ExtremeFear <==> c < 25.0
  {
    if c >= 75.0 then ExtremeGreed
    else if c >= 55.0 then Greed
    else if c >= 45.0 then Neutral
    else if c >= 25.0 then Fear
    else ExtremeFear
  }

  /** `_get_sentiment_recommendation` */
  function Recommend(c: real): (r: Recommendation)
    ensures r == BeCautious <==> c >= 80.0
    ensures r == TakeProfits <==> 60.0 <= c < 80.0
    ensures r == NeutralMarket <==> 40.0 <= c < 60.0
    ensures r == GoodBuying <==> 20.0 <= c < 40.0
    ensures r == ExcellentBuying <==> c < 20.0
  {
    if c >= 80.0 then BeCautious
    else if c >= 60.0 then TakeProfits
    else if c >= 40.0 then NeutralMarket
    else if c >= 20.0 then GoodBuying
    else ExcellentBuying
  }

  /** The two scales agree at their extremes and in the middle. */
  lemma RecommendationAgreesWithLabel(c: real)
    ensures Recommend(c) == BeCautious ==> Label(c) == ExtremeGreed
    ensures Recommend(c) == ExcellentBuying ==> Label(c) == ExtremeFear
    ensures Label(c) == Neutral ==> Recommend(c) == NeutralMarket
  {
  }

  datatype Sentiment = Sentiment(combined: real, mood: SentimentLabel, recommendation: Recommendation, isDefault: bool)

  /** `_get_default_sentiment` */
  const DEFAULT_SENTIMENT := Sentiment(50.0, Neutral, NeutralMarket, true)

  /** `get_market_sentiment` from the fear/greed record and the volatility percentage (unrounded). */
  function MarketSentiment(fg: FearGreed, volatility: real): (s: Sentiment)
    ensures s.combined == Combined(fg.value, VolatilitySentiment(volatility))
    ensures s.mood == Label(s.combined) && s.recommendation == Recommend(s.combined)
    ensures 0 <= fg.value <= 100 ==> 0.0 <= s.combined <= 100.0
    ensures !s.isDefault
  {
    var c := Combined(fg.value, VolatilitySentiment(volatility));
    Sentiment(c, Label(c), Recommend(c), false)
  }

  /** The defaults are consistent with each other: default inputs score the default sentiment. */
  lemma DefaultsAgree()
    ensures var s := MarketSentiment(DEFAULT_FEAR_GREED, DEFAULT_VOLATILITY);
      s.combined == DEFAULT_SENTIMENT.combined && s.mood == DEFAULT_SENTIMENT.mood
      && s.recommendation == DEFAULT_SENTIMENT.recommendation
  {
  }

  /** More greed, or a calmer market, never lowers the combined score. */
  lemma CombinedMonotone(fg1: FearGreed, v1: real, fg2: FearGreed, v2: real)
    requires fg1.value <= fg2.value && v2 <= v1
    ensures MarketSentiment(fg1, v1).combined <= MarketSentiment(fg2, v2).combined
  {
    VolatilitySentimentAntitone(v2, v1);
  }
}
