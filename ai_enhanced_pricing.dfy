/**
 * The renderer's AI-enhanced price check: it combines the standard
 * poeprices.info estimate with the AI bridge's insights and degrades
 * gracefully when either is unavailable. The three awaited calls (the
 * poeprices request, the bridge's health check and its price check) are
 * replaced by their outcomes; an `Err` outcome is a call that threw.
 */
module EnhancedPricing {
  import opened JsValues
  import opened Upstream

  /** One line of a price explanation: `{ name, contrib }`. */
  datatype Explanation = Explanation(name: string, contrib: real)

  /** A poeprices estimate: `{ min, max, confidence, currency, explanation }`. */
  datatype RareItemPrice = RareItemPrice(
    min: real,
    max: real,
    confidence: real,
    currency: string,
    explanation: seq<Explanation>)

  /**
   * An insight record: `{ analysis?, confidence, source }`, or the server's
   * degraded record `{ error, fallback: true }`, which the bridge client passes
   * through unchanged.
   */
  datatype Insights =
    | Insights(analysis: Option<string>, confidence: string, source: string)
    | InsightsUnavailable(error: string)

  /** The `pricing` part of a bridge answer; of its fields only `error` is consulted here. */
  datatype BridgePricing = BridgePricing(error: Option<string>)

  /** The bridge's answer to a price check: `{ success, pricing?, aiInsights? }`. */
  datatype BridgeResult = BridgeResult(success: bool, pricing: Option<BridgePricing>, aiInsights: Option<Insights>)

  /** Where the final price came from: `'poeprices' | 'ai-bridge' | 'fallback'`. */
  datatype DataSource = Poeprices | AIBridge | Fallback

  /** The combined result: the price fields spread in, plus `aiInsights`, `dataSource` and `enhanced`. */
  datatype EnhancedPriceResult = EnhancedPriceResult(
    price: RareItemPrice,
    aiInsights: Option<Insights>,
    dataSource: DataSource,
    enhanced: bool)

  const DefaultLeague := "Hardcore"
  const DefaultCurrency := "divine"
  const DivCurrency := "div"
  const AIAnalysisName := "AI Analysis"
  const LowConfidence := "low"
  const FallbackSource := "fallback"
  const BothUnavailable := "Unable to determine price - both poeprices.info and AI analysis unavailable"
  const AssistantUnavailable := "AI assistant is currently unavailable"

  /** `createFallbackPricing`: a zero price at medium confidence, attributed wholly to the AI analysis. */
  const FallbackPricing := RareItemPrice(0.0, 0.0, 50.0, DivCurrency, [Explanation(AIAnalysisName, 100.0)])

  /** The fixed result returned when no price could be obtained from either service. */
  const AllFailed := EnhancedPriceResult(
    RareItemPrice(0.0, 0.0, 0.0, DivCurrency, []),
    Some(Insights(Some(BothUnavailable), LowConfidence, FallbackSource)),
    Fallback,
    false)

  /** The health check resolved to `true` (a rejected check counts as unavailable). */
  predicate Healthy(health: Outcome<bool>) {
    health == Ok(true)
  }

  /** The bridge was queried and answered with `success` and an `aiInsights` object. */
  predicate InsightsObtained(health: Outcome<bool>, bridge: Outcome<BridgeResult>) {
    Healthy(health) && bridge.Ok? && bridge.data.success && bridge.data.aiInsights.Some?
  }

  /** The bridge's answer carries a `pricing` object whose `error` is falsy. */
  predicate BridgePricingUsable(bridge: Outcome<BridgeResult>) {
    bridge.Ok? && bridge.data.pricing.Some? && !TruthyStr(bridge.data.pricing.value.error)
  }

  /** A price exists: poeprices answered, or the bridge's insights came with usable pricing. */
  predicate PriceExists(poeprices: Outcome<RareItemPrice>, health: Outcome<bool>, bridge: Outcome<BridgeResult>) {
    poeprices.Ok? || (InsightsObtained(health, bridge) && BridgePricingUsable(bridge))
  }

  /** The league sent with the bridge query: the selected league when it is non-empty, else `'Hardcore'`. */
  function QueryLeague(selectedLeague: Option<string>): (r: string)
    ensures TruthyStr(selectedLeague) ==> r == selectedLeague.value
    ensures !TruthyStr(selectedLeague) ==> r == DefaultLeague
    ensures r != ""
  {
    StrOr(selectedLeague, DefaultLeague)
  }

  /**
   * The result of an enhanced price check, as a function of the three outcomes:
   * the standard price when there is one, else the bridge-derived fallback
   * price, else the fixed all-failed result.
   */
  function EnhancedPricing(poeprices: Outcome<RareItemPrice>, health: Outcome<bool>, bridge: Outcome<BridgeResult>): (r: EnhancedPriceResult)
    // `enhanced` holds exactly when insights were obtained and a price exists
    ensures r.enhanced <==> InsightsObtained(health, bridge) && PriceExists(poeprices, health, bridge)
    // the source is the bridge exactly when the result is enhanced
    ensures r.dataSource == AIBridge <==> r.enhanced
    ensures r.dataSource == Poeprices <==> poeprices.Ok? && !InsightsObtained(health, bridge)
    ensures r.dataSource == Fallback <==> !PriceExists(poeprices, health, bridge)
    // a standard price is carried through unchanged, whatever the bridge did
    ensures poeprices.Ok? ==> r.price == poeprices.data
    // the bridge's fallback price is used only when poeprices failed
    ensures poeprices.Err? && PriceExists(poeprices, health, bridge) ==> r.price == FallbackPricing
    // with a price, the insights are the bridge's, or absent
    ensures PriceExists(poeprices, health, bridge) && InsightsObtained(health, bridge) ==> r.aiInsights == bridge.data.aiInsights
    ensures PriceExists(poeprices, health, bridge) && !InsightsObtained(health, bridge) ==> r.aiInsights.None?
    // without a price, the result is fixed and any obtained insights are discarded
    ensures !PriceExists(poeprices, health, bridge) ==> r == AllFailed
    // an unhealthy bridge leaves only the standard price or the fixed result
    ensures !Healthy(health) ==> !r.enhanced && (r.dataSource == Poeprices || r == AllFailed)
  {
    if poeprices.Ok? && InsightsObtained(health, bridge) then
      EnhancedPriceResult(poeprices.data, bridge.data.aiInsights, AIBridge, true)
    else if poeprices.Ok? then
      EnhancedPriceResult(poeprices.data, None, Poeprices, false)
    else if InsightsObtained(health, bridge) && BridgePricingUsable(bridge) then
      EnhancedPriceResult(FallbackPricing, bridge.data.aiInsights, AIBridge, true)
    else
      AllFailed
  }

  /**
   * The server's degraded `{ error, fallback: true }` insight record still counts
   * as obtained insights: alongside a standard price the result is marked
   * enhanced and attributed to the bridge, carrying that record.
   */
  lemma DegradedInsightsEnhance(price: RareItemPrice, pricing: Option<BridgePricing>, error: string)
    ensures var bridge := Ok(BridgeResult(true, pricing, Some(InsightsUnavailable(error))));
      var r := EnhancedPricing(Ok(price), Ok(true), bridge);
      r.enhanced && r.dataSource == AIBridge && r.price == price && r.aiInsights == Some(InsightsUnavailable(error))
  {
  }

  /**
   * `getEnhancedPricing`: the standard request first, then (only when the
   * health check says so) the bridge query, updating the local price,
   * insights and source as each step succeeds. `query` is the league the
   * bridge was asked about, or `None` when it was not asked.
   */
  method GetEnhancedPricing(
    poeprices: Outcome<RareItemPrice>,
    health: Outcome<bool>,
    selectedLeague: Option<string>,
    bridge: Outcome<BridgeResult>)
    returns (r: EnhancedPriceResult, query: Option<string>)
    ensures r == EnhancedPricing(poeprices, health, bridge)
    ensures query.Some? <==> Healthy(health)
    ensures query.Some? ==> query.value == QueryLeague(selectedLeague)
  {
    var standardResult: Option<RareItemPrice> := None;
    var aiInsights: Option<Insights> := None;
    var dataSource := Fallback;
    query := None;

    if poeprices.Ok? {
      standardResult := Some(poeprices.data);
      dataSource := Poeprices;
    }

    if health.Ok? && health.data {
      query := Some(QueryLeague(selectedLeague));
      if bridge.Ok? && bridge.data.success && bridge.data.aiInsights.Some? {
        aiInsights := bridge.data.aiInsights;
        dataSource := AIBridge;
        if standardResult.None? && bridge.data.pricing.Some? && !TruthyStr(bridge.data.pricing.value.error) {
          standardResult := Some(FallbackPricing);
        }
      }
    }

    if standardResult.Some? {
      r := EnhancedPriceResult(standardResult.value, aiInsights, dataSource, aiInsights.Some?);
    } else {
      r := AllFailed;
    }
  }

  /** `isAIEnhancementAvailable`: the health check's answer, and `false` when it throws. */
  function AIEnhancementAvailable(health: Outcome<bool>): (r: bool)
    ensures r <==> Healthy(health)
    ensures health.Err? ==> !r
  {
    match health
    case Ok(b) => b
    case Err(_, _) => false
  }

  /** A market-analysis query to the bridge: `(league, currency)`. */
  datatype MarketQuery = MarketQuery(league: string, currency: string)

  /** What `getMarketInsights` resolves to, with the query it issued, if any. */
  datatype MarketFetch<+A> = MarketFetch(analysis: Option<A>, query: Option<MarketQuery>)

  /**
   * `getMarketInsights(league, currency = 'divine')`: `null` when the bridge is
   * unhealthy or either call throws, else the bridge's analysis. The currency
   * default applies only when the argument is omitted.
   */
  function MarketInsights<A>(league: string, currency: Option<string>, health: Outcome<bool>, analysis: Outcome<A>): (r: MarketFetch<A>)
    ensures r.analysis.Some? <==> AIEnhancementAvailable(health) && analysis.Ok?
    ensures r.analysis.Some? ==> r.analysis.value == analysis.data
    ensures r.query.Some? <==> AIEnhancementAvailable(health)
    ensures r.query.Some? ==> r.query.value.league == league
    ensures r.query.Some? && currency.None? ==> r.query.value.currency == DefaultCurrency
    ensures r.query.Some? && currency.Some? ==> r.query.value.currency == currency.value
  {
    var q := MarketQuery(league, if currency.Some? then currency.value else DefaultCurrency);
    match health
    case Err(_, _) => MarketFetch(None, None)
    case Ok(available) =>
      if !available then MarketFetch(None, None)
      else match analysis
        case Ok(a) => MarketFetch(Some(a), Some(q))
        case Err(_, _) => MarketFetch(None, Some(q))
  }

  /**
   * `askAIAboutItem`: rejects with "AI assistant is currently unavailable" when
   * the health check says no, rethrows the health check's or the question's
   * own error, and otherwise resolves to the bridge's answer. `asked` says
   * whether the question was sent.
   */
  function AskAboutItem<A>(health: Outcome<bool>, answer: Outcome<A>): (r: (Outcome<A>, bool))
    ensures r.1 <==> AIEnhancementAvailable(health)
    ensures r.0.Ok? <==> AIEnhancementAvailable(health) && answer.Ok?
    ensures r.1 ==> r.0 == answer
    ensures health == Ok(false) ==> r.0 == Err(AssistantUnavailable, None)
    ensures health.Err? ==> r.0 == Err(health.message, health.status)
  {
    match health
    case Err(m, s) => (Err(m, s), false)
    case Ok(available) =>
      if available then (answer, true) else (Err(AssistantUnavailable, None), false)
  }
}
