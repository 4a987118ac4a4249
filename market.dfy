/** The mock market service: current prices from a fixed table, advice by
    price trend, the hold-or-sell rule, price histories with a short
    forecast, and the popular-crops summary. The clock and the random
    source are parameters. */
module Market {
  import opened Wrappers
  import opened Text

  /** One row of the mock price table. */
  datatype PriceData = PriceData(currentPrice: real, unit: string, trend: string, trendPercentage: real, market: string)

  const MockPrices: map<string, PriceData> := map[
    "tomato" := PriceData(25.50, "per kg", "increasing", 12.5, "Bangalore APMC"),
    "onion" := PriceData(18.75, "per kg", "stable", 2.1, "Mysore Mandi"),
    "potato" := PriceData(22.00, "per kg", "decreasing", -5.3, "Hassan Market"),
    "rice" := PriceData(45.00, "per kg", "stable", 1.2, "Shimoga APMC"),
    "sugarcane" := PriceData(2800.00, "per ton", "increasing", 8.7, "Mandya Sugar Factory")]

  // ---------------------------------------------------------------------
  // Advice by trend
  // ---------------------------------------------------------------------

  const RisingAdvice: seq<string> := [
    "Good time to sell - prices are rising",
    "Consider holding for 2-3 days if possible",
    "Ensure proper storage to maintain quality"]

  const FallingAdvice: seq<string> := [
    "Consider selling immediately",
    "Avoid holding stock for too long",
    "Look for alternative markets with better rates"]

  const StableAdvice: seq<string> := [
    "Prices are stable - good time to sell",
    "Focus on quality to get better rates",
    "Compare prices across different markets"]

  /** The advice given for a crop outside the table. */
  const GenericAdvice: seq<string> := [
    "Monitor price trends for next few days",
    "Consider nearby markets for better rates",
    "Check quality requirements before selling"]

  /** `_generate_recommendations`: three pieces of advice chosen by the trend;
      any trend other than "increasing" and "decreasing" is treated as stable. */
  function GenerateRecommendations(data: PriceData): seq<string> {
    if data.trend == "increasing" then RisingAdvice
    else if data.trend == "decreasing" then FallingAdvice
    else StableAdvice
  }

  /** The three trend classes the advice distinguishes. */
  datatype TrendClass = Rising | Falling | Steady

  function ClassOf(trend: string): TrendClass {
    if trend == "increasing" then Rising else if trend == "decreasing" then Falling else Steady
  }

  /** Always exactly three pieces of advice; two price rows get the same
      advice exactly when their trends fall in the same class; and the
      advice for a table crop is never the advice for an unknown crop. */
  lemma RecommendationsByTrend(data: PriceData, other: PriceData)
    ensures |GenerateRecommendations(data)| == 3
    ensures ClassOf(data.trend) == Steady ==> GenerateRecommendations(data) == StableAdvice
    ensures GenerateRecommendations(data) == GenerateRecommendations(other) <==> ClassOf(data.trend) == ClassOf(other.trend)
    ensures GenerateRecommendations(data) != GenericAdvice
  {
    assert RisingAdvice[0] != FallingAdvice[0] && RisingAdvice[0] != StableAdvice[0] && FallingAdvice[0] != StableAdvice[0];
    assert GenericAdvice[0] != RisingAdvice[0] && GenericAdvice[0] != FallingAdvice[0] && GenericAdvice[0] != StableAdvice[0];
  }

  // ---------------------------------------------------------------------
  // Current price
  // ---------------------------------------------------------------------

  /** An index into the three trends an unknown crop can be given. */
  type TrendChoice = i: int | 0 <= i < 3

  const RandomTrends: seq<string> := ["increasing", "decreasing", "stable"]

  /** What the clock and the random source supply to one price lookup: the
      date text, and for an unknown crop the drawn price, trend and percentage. */
  datatype Environment = Environment(today: string, randomPrice: real, randomTrend: TrendChoice, randomPercentage: real)

  datatype PriceReport = PriceReport(
    cropName: string, currentPrice: real, priceUnit: string, marketName: string,
    priceDate: string, trend: string, trendPercentage: real, recommendations: seq<string>)

  /** `get_current_price`: the table row of the lower-cased name, reported under
      the caller's spelling, or drawn figures in the local market of `location`. */
  function GetCurrentPrice(cropName: string, location: string, env: Environment): (r: PriceReport)
    ensures r.cropName == cropName && r.priceDate == env.today
    ensures |r.recommendations| == 3
  {
    var cropLower := Lower(cropName);
    if cropLower in MockPrices then
      var data := MockPrices[cropLower];
      PriceReport(cropName, data.currentPrice, data.unit, data.market, env.today,
                  data.trend, data.trendPercentage, GenerateRecommendations(data))
    else
      PriceReport(cropName, env.randomPrice, "per kg", location + " Local Market", env.today,
                  RandomTrends[env.randomTrend], env.randomPercentage, GenericAdvice)
  }

  /** A table crop is found whatever its spelling, its figures are the table's
      unchanged and its advice matches its trend; the location, the date and
      the random draws play no part in the figures. */
  lemma KnownCropReport(cropName: string, location: string, env: Environment, otherName: string, otherLocation: string, otherEnv: Environment)
    requires Lower(cropName) in MockPrices
    requires Lower(otherName) == Lower(cropName)
    ensures var r := GetCurrentPrice(cropName, location, env);
      var data := MockPrices[Lower(cropName)];
      && r.currentPrice == data.currentPrice && r.priceUnit == data.unit && r.marketName == data.market
      && r.trend == data.trend && r.trendPercentage == data.trendPercentage
      && r.recommendations == GenerateRecommendations(data)
    ensures GetCurrentPrice(otherName, otherLocation, otherEnv) ==
      GetCurrentPrice(cropName, location, env).(cropName := otherName, priceDate := otherEnv.today)
  {
  }

  /** A crop outside the table is priced per kg in the caller's local market,
      with one of the three trends and the generic advice. */
  lemma UnknownCropReport(cropName: string, location: string, env: Environment)
    requires Lower(cropName) !in MockPrices
    ensures var r := GetCurrentPrice(cropName, location, env);
      && r.priceUnit == "per kg" && r.marketName == location + " Local Market"
      && r.trend in {"increasing", "decreasing", "stable"}
      && r.recommendations == GenericAdvice
      && r.currentPrice == env.randomPrice
  {
  }

  // ---------------------------------------------------------------------
  // Selling decision
  // ---------------------------------------------------------------------

  datatype Decision = Hold | Sell

  const RisingReason: string := "Prices are rising significantly"
  const FallingReason: string := "Prices are falling, sell to avoid losses"
  const StableReason: string := "Stable prices, good time to sell"

  /** The decision and the reason the rule gives for a trend and its percentage. */
  function DecisionRule(trend: string, trendPercentage: real): (Decision, string) {
    if trend == "increasing" && trendPercentage > 5.0 then (Hold, RisingReason)
    else if trend == "decreasing" && trendPercentage < -3.0 then (Sell, FallingReason)
    else (Sell, StableReason)
  }

  /** Hold exactly for a significant rise; a mild fall, or a rise of at most
      5%, is answered with the stable-prices reason. */
  lemma DecisionRuleCases(trend: string, trendPercentage: real)
    ensures DecisionRule(trend, trendPercentage).0 == Hold <==> trend == "increasing" && trendPercentage > 5.0
    ensures DecisionRule(trend, trendPercentage).1 == RisingReason <==> DecisionRule(trend, trendPercentage).0 == Hold
    ensures trend == "decreasing" && trendPercentage >= -3.0 ==> DecisionRule(trend, trendPercentage) == (Sell, StableReason)
    ensures trend == "increasing" && trendPercentage <= 5.0 ==> DecisionRule(trend, trendPercentage) == (Sell, StableReason)
    ensures trend !in {"increasing", "decreasing"} ==> DecisionRule(trend, trendPercentage) == (Sell, StableReason)
  {
    assert RisingReason[0] != StableReason[0] && RisingReason[11] != FallingReason[11];
  }

  datatype SellingAnalysis = SellingAnalysis(
    cropName: string, decision: Decision, confidence: real, currentPrice: real,
    reasons: seq<string>, recommendations: seq<string>)

  /** `analyze_selling_decision`: start from "hold" with confidence 0.7, then
      let the trend of the current price set the decision and add one reason. */
  method AnalyzeSellingDecision(cropName: string, location: string, env: Environment) returns (r: SellingAnalysis)
    ensures var price := GetCurrentPrice(cropName, location, env);
      && r.cropName == cropName && r.confidence == 0.7
      && r.currentPrice == price.currentPrice && r.recommendations == price.recommendations
      && |r.reasons| == 1
      && (r.decision, r.reasons[0]) == DecisionRule(price.trend, price.trendPercentage)
  {
    var priceData := GetCurrentPrice(cropName, location, env);
    var decision := Hold;
    var confidence := 0.7;
    var reasons: seq<string> := [];
    if priceData.trend == "increasing" && priceData.trendPercentage > 5.0 {
      decision := Hold;
      reasons := reasons + [RisingReason];
    } else if priceData.trend == "decreasing" && priceData.trendPercentage < -3.0 {
      decision := Sell;
      reasons := reasons + [FallingReason];
    } else {
      decision := Sell;
      reasons := reasons + [StableReason];
    }
    r := SellingAnalysis(cropName, decision, confidence, priceData.currentPrice, reasons, priceData.recommendations);
  }

  /** Of the table crops, tomato (up 12.5%) and sugarcane (up 8.7%) are held;
      potato (down 5.3%) is sold as falling, onion and rice as stable. */
  lemma TableDecisions()
    ensures DecisionRule(MockPrices["tomato"].trend, MockPrices["tomato"].trendPercentage).0 == Hold
    ensures DecisionRule(MockPrices["sugarcane"].trend, MockPrices["sugarcane"].trendPercentage).0 == Hold
    ensures DecisionRule(MockPrices["potato"].trend, MockPrices["potato"].trendPercentage) == (Sell, FallingReason)
    ensures DecisionRule(MockPrices["onion"].trend, MockPrices["onion"].trendPercentage) == (Sell, StableReason)
    ensures DecisionRule(MockPrices["rice"].trend, MockPrices["rice"].trendPercentage) == (Sell, StableReason)
  {
    DecisionRuleCases(MockPrices["onion"].trend, MockPrices["onion"].trendPercentage);
  }

  // ---------------------------------------------------------------------
  // Trends
  // ---------------------------------------------------------------------

  /** A past price; `dayOffset` is the date relative to today (negative). */
  datatype HistoricalPrice = HistoricalPrice(dayOffset: int, price: real, market: string)

  /** A predicted price; `dayOffset` is the number of days ahead. */
  datatype ForecastPrice = ForecastPrice(dayOffset: int, predictedPrice: real, confidence: real)

  /** A market insight: the average over the history, or a fixed remark. */
  datatype Insight = AveragePrice(days: int, average: real) | Remark(text: string)

  datatype MarketTrends = MarketTrends(
    cropName: string, historicalPrices: seq<HistoricalPrice>, forecast: seq<ForecastPrice>,
    bestSellingTime: string, marketInsights: seq<Insight>)

  /** The random perturbations of one trend report, by loop index. */
  datatype TrendNoise = TrendNoise(history: int -> real, forecast: int -> real, confidence: int -> real)

  /** The table price of the lower-cased name, 25.0 for any other crop. */
  function BasePrice(cropName: string): real {
    var cropLower := Lower(cropName);
    if cropLower in MockPrices then MockPrices[cropLower].currentPrice else 25.0
  }

  function SumPrices(history: seq<HistoricalPrice>): real {
    if history == [] then 0.0 else SumPrices(history[..|history| - 1]) + history[|history| - 1].price
  }

  /** The history of `days` entries, numbered from the oldest. */
  predicate IsHistory(history: seq<HistoricalPrice>, count: int, days: int, base: real, noise: TrendNoise) {
    && |history| == count
    && forall i :: 0 <= i < count ==>
         history[i] == HistoricalPrice(i - days, base + noise.history(i), "Local APMC")
  }

  /** The three forecast days, tomorrow first. */
  predicate IsForecast(forecast: seq<ForecastPrice>, count: int, base: real, noise: TrendNoise) {
    && |forecast| == count
    && forall j :: 0 <= j < count ==>
         forecast[j] == ForecastPrice(j + 1, base + noise.forecast(j + 1), noise.confidence(j + 1))
  }

  /** The proleptic Gregorian ordinal of 9999-12-31, the last date Python's
      `datetime` can hold; 0001-01-01 has ordinal 1. */
  const MaxOrdinal: int := 3652059

  /** The ordinal of a date `datetime` can hold, as `date.toordinal` gives it. */
  type DayOrdinal = n: int | 1 <= n <= MaxOrdinal witness 1

  /** The message of the `OverflowError` that date arithmetic past either end raises. */
  const DateOutOfRange: string := "date value out of range"

  const TrendRemarks: seq<Insight> := [
    Remark("Demand is seasonal - festival season shows higher prices"),
    Remark("Transportation costs affect final margins"),
    Remark("Quality grading significantly impacts price")]

  /** `get_market_trends` on the date whose ordinal is `today`: one price per
      past day, oldest first, then three predicted prices. The oldest date
      lies before 0001-01-01 when `days` reaches `today`, a forecast date lies
      past 9999-12-31 when `today` is within three days of the end, and a
      history of zero days fails on the average. */
  method GetMarketTrends(cropName: string, days: int, today: DayOrdinal, noise: TrendNoise)
    returns (r: Result<MarketTrends, string>)
    ensures r.Ok? <==> 0 < days < today && today + 3 <= MaxOrdinal
    ensures r.Err? ==>
      r.error == if (days > 0 && days >= today) || today + 3 > MaxOrdinal then DateOutOfRange
                 else "division by zero"
    ensures r.Ok? ==>
      var t := r.value;
      && t.cropName == cropName
      && IsHistory(t.historicalPrices, days, days, BasePrice(cropName), noise)
      && IsForecast(t.forecast, 3, BasePrice(cropName), noise)
      && t.bestSellingTime == "Within next 2-3 days"
      && t.marketInsights == [AveragePrice(days, SumPrices(t.historicalPrices) / days as real)] + TrendRemarks
  {
    var history: seq<HistoricalPrice> := [];
    var basePrice := BasePrice(cropName);
    var i := 0;
    while i < days
      invariant 0 <= i <= if days < 0 then 0 else days
      invariant i > 0 ==> days < today
      invariant IsHistory(history, i, days, basePrice, noise)
    {
      if today - (days - i) < 1 {
        return Err(DateOutOfRange);
      }
      history := history + [HistoricalPrice(i - days, basePrice + noise.history(i), "Local APMC")];
      i := i + 1;
    }
    var forecast: seq<ForecastPrice> := [];
    for j := 1 to 4
      invariant today + (j - 1) <= MaxOrdinal
      invariant IsForecast(forecast, j - 1, basePrice, noise)
    {
      if today + j > MaxOrdinal {
        return Err(DateOutOfRange);
      }
      forecast := forecast + [ForecastPrice(j, basePrice + noise.forecast(j), noise.confidence(j))];
    }
    if |history| == 0 {
      return Err("division by zero");
    }
    var average := SumPrices(history) / |history| as real;
    r := Ok(MarketTrends(cropName, history, forecast, "Within next 2-3 days", [AveragePrice(days, average)] + TrendRemarks));
  }

  /** Every past date precedes today and every forecast date, the dates of
      the history run day by day up to yesterday, and on a successful report
      every date is one `datetime` can hold. */
  lemma TrendDates(history: seq<HistoricalPrice>, forecast: seq<ForecastPrice>, days: int, today: DayOrdinal,
                   base: real, noise: TrendNoise)
    requires 0 < days < today && today + 3 <= MaxOrdinal
    requires IsHistory(history, days, days, base, noise) && IsForecast(forecast, 3, base, noise)
    ensures forall i :: 0 <= i < days ==> 1 <= today + history[i].dayOffset <= MaxOrdinal
    ensures forall j :: 0 <= j < 3 ==> 1 <= today + forecast[j].dayOffset <= MaxOrdinal
    ensures history[0].dayOffset == -days && history[days - 1].dayOffset == -1
    ensures forall i :: 0 <= i < days - 1 ==> history[i + 1].dayOffset == history[i].dayOffset + 1
    ensures forall i, j :: 0 <= i < days && 0 <= j < 3 ==> history[i].dayOffset < 0 < forecast[j].dayOffset
  {
  }

  /** With forecast noise within [-2, 4] and confidences within [0.7, 0.95],
      as the random source draws them, each predicted price lies between 2
      below and 4 above the base price. */
  lemma ForecastNearBase(forecast: seq<ForecastPrice>, base: real, noise: TrendNoise)
    requires IsForecast(forecast, 3, base, noise)
    requires forall j :: 1 <= j <= 3 ==> -2.0 <= noise.forecast(j) <= 4.0
    requires forall j :: 1 <= j <= 3 ==> 0.7 <= noise.confidence(j) <= 0.95
    ensures forall j :: 0 <= j < 3 ==> base - 2.0 <= forecast[j].predictedPrice <= base + 4.0
    ensures forall j :: 0 <= j < 3 ==> 0.7 <= forecast[j].confidence <= 0.95
  {
    assert forall j :: 0 <= j < 3 ==> forecast[j] == ForecastPrice(j + 1, base + noise.forecast(j + 1), noise.confidence(j + 1));
  }

  lemma {:induction false} SumBounds(history: seq<HistoricalPrice>, low: real, high: real)
    requires forall i :: 0 <= i < |history| ==> low <= history[i].price <= high
    ensures |history| as real * low <= SumPrices(history) <= |history| as real * high
    decreases |history|
  {
    if history != [] {
      var front := history[..|history| - 1];
      assert forall i :: 0 <= i < |front| ==> front[i] == history[i];
      SumBounds(front, low, high);
    }
  }

  /** With history noise within [-3, 3], as the random source draws it, the
      reported average lies within 3 of the base price. */
  lemma AverageNearBase(t: MarketTrends, days: int, base: real, noise: TrendNoise)
    requires days > 0
    requires IsHistory(t.historicalPrices, days, days, base, noise)
    requires forall i :: 0 <= i < days ==> -3.0 <= noise.history(i) <= 3.0
    ensures base - 3.0 <= SumPrices(t.historicalPrices) / days as real <= base + 3.0
  {
    var h := t.historicalPrices;
    assert forall i :: 0 <= i < |h| ==> h[i].price == base + noise.history(i);
    SumBounds(h, base - 3.0, base + 3.0);
    assert |h| == days;
    AverageBounds(SumPrices(h), days as real, base - 3.0, base + 3.0);
  }

  lemma AverageBounds(sum: real, n: real, low: real, high: real)
    requires n > 0.0 && n * low <= sum <= n * high
    ensures low <= sum / n <= high
  {
    var average := sum / n;
    assert sum == average * n;
  }

  // ---------------------------------------------------------------------
  // Popular crops
  // ---------------------------------------------------------------------

  const PopularCrops: seq<string> := ["tomato", "onion", "potato", "rice", "sugarcane"]

  datatype CropSummary = CropSummary(name: string, price: real, unit: string, trend: string)

  /** The summary of one crop, from its current price. */
  function Summary(crop: string, env: Environment): CropSummary {
    var price := GetCurrentPrice(crop, "Karnataka", env);
    CropSummary(Title(crop), price.currentPrice, price.priceUnit, price.trend)
  }

  /** `get_popular_crops`: one summary per popular crop, in order. */
  method GetPopularCrops(env: Environment) returns (r: seq<CropSummary>)
    ensures |r| == |PopularCrops|
    ensures forall i :: 0 <= i < |r| ==> r[i] == Summary(PopularCrops[i], env)
  {
    r := SummarizeCrops(PopularCrops, env);
  }

  /** The loop of `get_popular_crops` over a list of crops. */
  method SummarizeCrops(crops: seq<string>, env: Environment) returns (r: seq<CropSummary>)
    ensures |r| == |crops|
    ensures forall i :: 0 <= i < |r| ==> r[i] == Summary(crops[i], env)
  {
    r := [];
    for i := 0 to |crops|
      invariant |r| == i
      invariant forall k :: 0 <= k < i ==> r[k] == Summary(crops[k], env)
    {
      var priceData := GetCurrentPrice(crops[i], "Karnataka", env);
      r := r + [CropSummary(Title(crops[i]), priceData.currentPrice, priceData.priceUnit, priceData.trend)];
    }
  }

  /** The popular crops are exactly the table's crops, so every summary
      carries the table's price, unit and trend, whatever the random source
      draws, under the crop's title-cased name. */
  lemma PopularCropsFromTable(env: Environment, i: nat)
    requires i < |PopularCrops|
    ensures forall c :: c in MockPrices <==> c in PopularCrops
    ensures var c := PopularCrops[i]; var data := MockPrices[c];
      Summary(c, env) == CropSummary(Title(c), data.currentPrice, data.unit, data.trend)
    ensures Summary(PopularCrops[i], env).name[0] == UpperChar(PopularCrops[i][0])
  {
    var c := PopularCrops[i];
    assert MockPrices.Keys == {"tomato", "onion", "potato", "rice", "sugarcane"};
    assert forall k :: 0 <= k < |c| ==> !IsUpper(c[k]);
    LowerOfLowercase(c);
  }
}
