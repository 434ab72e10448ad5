/**
 * The AI bridge's HTTP endpoints (ai-bridge/server.js): the rate-limit
 * rejection, the `/api/price-check` pipeline (parse, trade search, AI insight)
 * and the `/api/market/:league` pipeline (placeholder market data, AI analysis).
 *
 * Every upstream call is replaced by its outcome, given as a parameter; the
 * requests the handler would send are returned alongside the response, so that
 * "no upstream call was made" can be stated.
 */
module AiBridgeServer {
  import opened JsValues
  import opened JsStrings
  import opened Upstream
  import opened ItemText

  /** The model every chat request of the bridge names. */
  const ChatModel := "Multimodal Lite"

  /** The league a price check searches when the request names none. */
  const DefaultLeague := "Hardcore"

  /** The trade search keeps at most this many listings. */
  const MaxResults := 10

  /** What `fetchPriceData` returns: the search summary, or the `{ error, fallback: true }` record. */
  datatype PriceData =
    | Priced(searchId: Option<string>, total: Option<int>, results: seq<Json>)
    | PriceUnavailable(error: string)

  datatype Confidence = Low | Medium

  /** What `getAIInsights` and `getMarketAnalysis` return: an analysis, or the `{ error, fallback: true }` record. */
  datatype Insight =
    | Insight(analysis: Option<string>, confidence: Confidence, source: string)
    | InsightUnavailable(error: string)

  /** A request the bridge sends upstream. */
  datatype Outbound =
    | TradeSearch(league: string, name: string, itemType: string)
    | ChatRequest(text: string, model: string)

  /** The placeholder record `fetchMarketData` returns. */
  datatype MarketData = MarketData(league: string, currency: string, timestamp: string, note: string)

  /** Whether the rate limiter let the request through, and if not, how long until it would. */
  datatype Admission = Admitted | Rejected(msBeforeNext: int)

  /** The limiter's configuration: 45 points per IP in each window of 60 seconds. */
  const Points := 45
  const DurationMs := 60000

  /** One IP's record in the in-memory limiter: when its window opened and the points consumed in it. */
  datatype Window = Window(start: int, consumed: nat)

  /**
   * `rateLimiter.consume(ip)` on one IP's record at time `now` (ms): a missing or
   * expired record opens a new window with one point consumed; otherwise the
   * point is added, and once more than `Points` are consumed the request is
   * rejected with the time left in the window as `msBeforeNext`.
   */
  function Consume(w: Option<Window>, now: int): (r: (Window, Admission))
    ensures r.1.Rejected? <==> w.Some? && now < w.value.start + DurationMs && w.value.consumed >= Points
    ensures r.1.Rejected? ==> r.1.msBeforeNext == w.value.start + DurationMs - now > 0
    ensures w.None? || now >= w.value.start + DurationMs ==> r.0 == Window(now, 1)
    ensures w.Some? && now < w.value.start + DurationMs ==> r.0 == Window(w.value.start, w.value.consumed + 1)
  {
    if w.None? || now >= w.value.start + DurationMs then
      (Window(now, 1), Admitted)
    else
      var c := w.value.consumed + 1;
      (Window(w.value.start, c), if c > Points then Rejected(w.value.start + DurationMs - now) else Admitted)
  }

  /** `consume(req.ip)` on the limiter's records, one per IP: only the requesting IP's record changes. */
  function ConsumeIp(limiter: map<string, Window>, ip: string, now: int): (r: (map<string, Window>, Admission))
    ensures r.0.Keys == limiter.Keys + {ip}
    ensures forall k | k in limiter && k != ip :: r.0[k] == limiter[k]
    ensures (r.0[ip], r.1) == Consume(if ip in limiter then Some(limiter[ip]) else None, now)
  {
    var c := Consume(if ip in limiter then Some(limiter[ip]) else None, now);
    (limiter[ip := c.0], c.1)
  }

  /** The record and the admissions after requests from one IP at the given times, in order. */
  function Admissions(w: Option<Window>, times: seq<int>): (r: (Option<Window>, seq<Admission>))
    ensures |r.1| == |times|
    ensures times != [] ==> r.0.Some?
    decreases |times|
  {
    if times == [] then (w, [])
    else
      var p := Admissions(w, times[..|times| - 1]);
      var c := Consume(p.0, times[|times| - 1]);
      (Some(c.0), p.1 + [c.1])
  }

  /**
   * Requests from a fresh IP that all fall inside the window the first one
   * opens: the first `Points` are admitted and every later one is rejected
   * with the time left in that window.
   */
  lemma {:induction false} WindowBurst(times: seq<int>)
    requires times != []
    requires forall i | 0 <= i < |times| :: times[0] <= times[i] < times[0] + DurationMs
    ensures Admissions(None, times).0 == Some(Window(times[0], |times|))
    ensures forall i | 0 <= i < |times| ::
      Admissions(None, times).1[i] == (if i < Points then Admitted else Rejected(times[0] + DurationMs - times[i]))
    decreases |times|
  {
    var last := |times| - 1;
    var init := times[..last];
    if init == [] {
      assert Admissions(None, init) == (None, []);
    } else {
      assert forall i | 0 <= i < |init| :: init[i] == times[i];
      WindowBurst(init);
      var p := Admissions(None, init);
      var c := Consume(p.0, times[last]);
      assert Admissions(None, times) == (Some(c.0), p.1 + [c.1]);
      assert c.0 == Window(times[0], |times|);
      forall i | 0 <= i < |times|
        ensures Admissions(None, times).1[i] == (if i < Points then Admitted else Rejected(times[0] + DurationMs - times[i]))
      {
        if i < last {
          assert Admissions(None, times).1[i] == p.1[i];
        }
      }
    }
  }

  /**
   * Within one window, the 46th request of an IP is rejected: a price check then
   * answers 429 with a `retryAfter` of at least one second and calls nothing upstream.
   */
  lemma FortySixthRejected(times: seq<int>, body: PriceCheckBody, search: Outcome<TradeSearchData>,
                           reply: Outcome<ChatReply>, timestamp: string)
    requires |times| == Points + 1
    requires forall i | 0 <= i < |times| :: times[0] <= times[i] < times[0] + DurationMs
    ensures forall i | 0 <= i < Points :: Admissions(None, times).1[i] == Admitted
    ensures var a := Admissions(None, times).1[Points];
      a.Rejected? && a.msBeforeNext > 0 &&
      var x := PriceCheck(a, body, search, reply, timestamp);
      x.calls == [] && x.response.TooManyRequests? && x.response.retryAfter >= 1
  {
    WindowBurst(times);
  }

  /** Once the window has run out, the same IP is admitted again, whatever it consumed. */
  lemma WindowReopens(w: Window, now: int)
    requires now >= w.start + DurationMs
    ensures Consume(Some(w), now) == (Window(now, 1), Admitted)
  {
  }

  /** The JSON body of a price-check request; `itemText` may be any JSON value or absent. */
  datatype PriceCheckBody = PriceCheckBody(itemText: Option<Json>, league: Option<string>)

  /** The responses the endpoints send. */
  datatype Response =
    | PriceCheckResult(item: ParsedItem, pricing: PriceData, aiInsights: Insight, timestamp: string)
    | MarketResult(league: string, market: MarketData, analysis: Insight, timestamp: string)
    | TooManyRequests(error: string, message: Option<string>, retryAfter: int)
    | Failed(status: int, error: string, message: Option<string>)

  /** The response and the upstream requests made while producing it, in order. */
  datatype Exchange = Exchange(response: Response, calls: seq<Outbound>)

  /** The HTTP status of a response. */
  function Status(r: Response): int {
    match r
    case PriceCheckResult(_, _, _, _) => 200
    case MarketResult(_, _, _, _) => 200
    case TooManyRequests(_, _, _) => 429
    case Failed(status, _, _) => status
  }

  /** The `success` field of a response body, where it has one. */
  predicate Success(r: Response) {
    r.PriceCheckResult? || r.MarketResult?
  }

  /** `Math.round(n)` of a rational `n`: round half up, i.e. the floor of `n + 1/2`. */
  function RoundHalfUp(n: real): (r: int)
    ensures r as real <= n + 0.5 < r as real + 1.0
  {
    (n + 0.5).Floor
  }

  /** `Math.round(msBeforeNext / 1000) || 1`: the 429 body's `retryAfter`, in seconds. */
  function RetryAfter(msBeforeNext: int): (r: int)
    ensures r != 0
  {
    var s := RoundHalfUp(msBeforeNext as real / 1000.0);
    if s == 0 then 1 else s
  }

  /** For a wait that is not negative, the client is told to wait at least one second. */
  lemma RetryAfterPositive(ms: int)
    requires ms >= 0
    ensures RetryAfter(ms) >= 1
  {
  }

  /** A wait of half a second or more is reported as the nearest whole number of seconds, halves rounded up. */
  lemma RetryAfterRounds(ms: int)
    requires ms >= 500
    ensures RetryAfter(ms) * 1000 - 500 <= ms < RetryAfter(ms) * 1000 + 500
  {
    var s := RoundHalfUp(ms as real / 1000.0);
    assert s >= 1;
    assert s as real * 1000.0 <= ms as real + 500.0 < s as real * 1000.0 + 1000.0;
  }

  /** The sub-second waits, for which `Math.round` gives 0 and the `|| 1` applies. */
  lemma RetryAfterShortWait(ms: int)
    requires -500 <= ms < 500
    ensures RetryAfter(ms) == 1
  {
  }

  const TooManyError := "Too Many Requests"
  const RateLimitMessage := "API rate limit exceeded. Please try again later."

  /** The response of the rate-limit middleware to a rejected request. */
  function RateLimitResponse(msBeforeNext: int): (r: Response)
    ensures r.TooManyRequests? && Status(r) == 429 && !Success(r)
    ensures r.error == TooManyError && r.message == Some(RateLimitMessage)
    ensures msBeforeNext >= 0 ==> r.retryAfter >= 1
  {
    RetryAfterPositive(if msBeforeNext >= 0 then msBeforeNext else 0);
    TooManyRequests(TooManyError, Some(RateLimitMessage), RetryAfter(msBeforeNext))
  }

  /** `result.slice(0, 10)`. */
  function FirstResults(results: seq<Json>): (r: seq<Json>)
    ensures |r| == if |results| < MaxResults then |results| else MaxResults
    ensures r == results[..|r|]
  {
    if |results| <= MaxResults then results else results[..MaxResults]
  }

  /** The trade search `fetchPriceData` posts for a parsed item. */
  function TradeSearchRequest(item: ParsedItem, league: string): Outbound {
    TradeSearch(league, item.name, item.itemType)
  }

  /**
   * `fetchPriceData`: the search id and total copied through and the first ten
   * listings kept; any failure, including a response without a `result` array
   * (on which `.slice` throws), gives the fallback record.
   */
  function FetchPriceData(search: Outcome<TradeSearchData>): (r: PriceData)
    ensures r.Priced? <==> search.Ok? && search.data.result.Some?
    ensures r.Priced? ==>
      var upstream := search.data.result.value;
      && r.searchId == search.data.id
      && r.total == search.data.total
      && |r.results| == (if |upstream| < MaxResults then |upstream| else MaxResults)
      && r.results == upstream[..|r.results|]
    ensures r.PriceUnavailable? ==> r.error == "Official API unavailable"
  {
    match search
    case Ok(d) =>
      if d.result.Some? then Priced(d.id, d.total, FirstResults(d.result.value))
      else PriceUnavailable("Official API unavailable")
    case Err(_, _) => PriceUnavailable("Official API unavailable")
  }

  /** `priceData.total || 0`: the listing count the insight prompt shows. */
  function ListingCount(price: PriceData): (n: int)
    ensures price.Priced? && price.total.Some? ==> n == price.total.value
    ensures !(price.Priced? && price.total.Some?) ==> n == 0
  {
    if price.Priced? && price.total.Some? then price.total.value else 0
  }

  /** The lines of the insight prompt's template that show the item and its price data. */
  function InsightItemLines(item: ParsedItem, price: PriceData): seq<string> {
    [ "Analyze this " + "Path of Exile 2 item:",
      "    ",
      "Item: " + item.name,
      "Type: " + item.itemType,
      "Mods: " + Join(item.mods, ", "),
      "Price Data: " + IntToString(ListingCount(price)) + " listings found" ]
  }

  /** The fixed questions that close the insight prompt. */
  const InsightQuestions: seq<string> :=
    [ "",
      "Provide insights on:",
      "1. Item value assessment",
      "2. Market position",
      "3. Trading recommendations",
      "4. Build relevance",
      "",
      "Keep response concise and actionable." ]

  /** The lines of the insight prompt's template. */
  function InsightPromptLines(item: ParsedItem, price: PriceData): seq<string> {
    InsightItemLines(item, price) + InsightQuestions
  }

  /** The text `getAIInsights` sends. */
  function InsightPrompt(item: ParsedItem, price: PriceData): string {
    Join(InsightPromptLines(item, price), "\n")
  }

  /** The chat request `getAIInsights` posts. */
  function InsightRequest(item: ParsedItem, price: PriceData): Outbound {
    ChatRequest(InsightPrompt(item, price), ChatModel)
  }

  /**
   * `getAIInsights`: on a reply, `text || response` with medium confidence and
   * source "ai"; on any failure the fallback record.
   */
  function GetAIInsights(reply: Outcome<ChatReply>): (r: Insight)
    ensures r.Insight? <==> reply.Ok?
    ensures r.Insight? ==> r.analysis == ReplyText(reply.data) && r.confidence == Medium && r.source == "ai"
    ensures r.InsightUnavailable? ==> r.error == "AI analysis unavailable"
  {
    match reply
    case Ok(d) => Insight(ReplyText(d), Medium, "ai")
    case Err(_, _) => InsightUnavailable("AI analysis unavailable")
  }

  /** A decimal numeral holds no line feed. */
  lemma NumeralLineFree(n: int)
    ensures '\n' !in IntToString(n)
  {
    var r := IntToString(n);
    assert forall i | 0 <= i < |r| :: r[i] != '\n';
  }

  /** Each of the first six lines of the insight prompt holds no line feed when the item's fields hold none. */
  lemma InsightLineFree(item: ParsedItem, price: PriceData, k: int)
    requires '\n' !in item.name && '\n' !in item.itemType
    requires forall k | 0 <= k < |item.mods| :: '\n' !in item.mods[k]
    requires 0 <= k < 6
    ensures '\n' !in InsightItemLines(item, price)[k]
  {
    var lines := InsightItemLines(item, price);
    if k == 0 {
      ConcatLacks("Analyze this ", "Path of Exile 2 item:", '\n');
    } else if k == 1 {
      assert lines[1] == "    ";
    } else if k == 2 {
      ConcatLacks("Item: ", item.name, '\n');
    } else if k == 3 {
      ConcatLacks("Type: ", item.itemType, '\n');
    } else if k == 4 {
      JoinLacks(item.mods, ", ", '\n');
      ConcatLacks("Mods: ", Join(item.mods, ", "), '\n');
    } else {
      var n := IntToString(ListingCount(price));
      NumeralLineFree(ListingCount(price));
      ConcatLacks("Price Data: ", n, '\n');
      ConcatLacks("Price Data: " + n, " listings found", '\n');
    }
  }

  /** The prompt is read back line by line: its third to sixth lines show the item's name, type, modifiers and listing count. */
  lemma InsightPromptShowsItem(item: ParsedItem, price: PriceData)
    requires '\n' !in item.name && '\n' !in item.itemType
    requires forall k | 0 <= k < |item.mods| :: '\n' !in item.mods[k]
    ensures var lines := Split(InsightPrompt(item, price), '\n');
      && |lines| > 6
      && lines[2] == "Item: " + item.name
      && lines[3] == "Type: " + item.itemType
      && lines[4] == "Mods: " + Join(item.mods, ", ")
      && lines[5] == "Price Data: " + IntToString(ListingCount(price)) + " listings found"
  {
    var lines := InsightPromptLines(item, price);
    forall k | 0 <= k < 6
      ensures '\n' !in lines[k]
    {
      InsightLineFree(item, price, k);
      assert lines[k] == InsightItemLines(item, price)[k];
    }
    SplitJoinPrefix(lines, 6, '\n');
  }

  /** `fetchMarketData`: a placeholder naming the league and the currency, which defaults to divine. */
  function FetchMarketData(league: string, currency: Option<string>, timestamp: string): (r: MarketData)
    ensures r.league == league && r.timestamp == timestamp
    ensures TruthyStr(currency) ==> r.currency == currency.value
    ensures !TruthyStr(currency) ==> r.currency == "divine"
    ensures r.note == "Market data integration pending - poe2scout.com API"
  {
    MarketData(league, StrOr(currency, "divine"), timestamp, "Market data integration pending - poe2scout.com API")
  }

  /** The lines of the market prompt's template that name the league and the currency. */
  function MarketLeagueLines(market: MarketData, league: string): seq<string> {
    [ "Analyze Path of Exile 2 " + "market conditions for " + league + " league:",
      "",
      "Current data indicates " + "market activity for " + market.currency + " currency." ]
  }

  /** The fixed requests that close the market prompt. */
  const MarketQuestions: seq<string> :=
    [ "",
      "Provide:",
      "1. Market trend assessment",
      "2. Currency recommendations",
      "3. Trading timing suggestions",
      "4. Risk factors",
      "",
      "Keep analysis brief and actionable." ]

  /** The lines of the market prompt's template. */
  function MarketPromptLines(market: MarketData, league: string): seq<string> {
    MarketLeagueLines(market, league) + MarketQuestions
  }

  /** The text `getMarketAnalysis` sends. */
  function MarketPrompt(market: MarketData, league: string): string {
    Join(MarketPromptLines(market, league), "\n")
  }

  /** The first line of the market prompt holds no line feed when the league's name holds none. */
  lemma LeagueLineFree(league: string)
    requires '\n' !in league
    ensures '\n' !in "Analyze Path of Exile 2 " + "market conditions for " + league + " league:"
  {
    var a, b := "Analyze Path of Exile 2 ", "market conditions for ";
    assert forall i | 0 <= i < |a| :: a[i] != '\n';
    assert forall i | 0 <= i < |b| :: b[i] != '\n';
    ConcatLacks(a, b, '\n');
    ConcatLacks(a + b, league, '\n');
    ConcatLacks(a + b + league, " league:", '\n');
  }

  /** The third line of the market prompt holds no line feed when the currency's name holds none. */
  lemma CurrencyLineFree(currency: string)
    requires '\n' !in currency
    ensures '\n' !in "Current data indicates " + "market activity for " + currency + " currency."
  {
    var a, b := "Current data indicates ", "market activity for ";
    assert forall i | 0 <= i < |a| :: a[i] != '\n';
    assert forall i | 0 <= i < |b| :: b[i] != '\n';
    ConcatLacks(a, b, '\n');
    ConcatLacks(a + b, currency, '\n');
    ConcatLacks(a + b + currency, " currency.", '\n');
  }

  /** The market prompt names the league on its first line and the currency on its third. */
  lemma MarketPromptShowsLeague(market: MarketData, league: string)
    requires '\n' !in league && '\n' !in market.currency
    ensures var lines := Split(MarketPrompt(market, league), '\n');
      && |lines| > 3
      && lines[0] == "Analyze Path of Exile 2 " + "market conditions for " + league + " league:"
      && lines[2] == "Current data indicates " + "market activity for " + market.currency + " currency."
  {
    var lines := MarketPromptLines(market, league);
    var head := MarketLeagueLines(market, league);
    forall k | 0 <= k < 3
      ensures '\n' !in lines[k]
    {
      assert lines[k] == head[k];
      if k == 0 {
        LeagueLineFree(league);
      } else if k == 2 {
        CurrencyLineFree(market.currency);
      }
    }
    SplitJoinPrefix(lines, 3, '\n');
  }

  /** `getMarketAnalysis`: on a reply, `text || response` with low confidence; on failure the fallback record. */
  function GetMarketAnalysis(reply: Outcome<ChatReply>): (r: Insight)
    ensures r.Insight? <==> reply.Ok?
    ensures r.Insight? ==> r.analysis == ReplyText(reply.data) && r.confidence == Low && r.source == "ai"
    ensures r.InsightUnavailable? ==> r.error == "Market analysis unavailable"
  {
    match reply
    case Ok(d) => Insight(ReplyText(d), Low, "ai")
    case Err(_, _) => InsightUnavailable("Market analysis unavailable")
  }

  /**
   * `POST /api/price-check`. A rejected request gets 429. A falsy `itemText`
   * gets 400. A truthy `itemText` that is not a string makes `itemText.split`
   * throw, which the handler turns into a 500. A string is parsed, priced in
   * the requested league (Hardcore by default) and analysed; the response is
   * `success: true` whatever the two upstream calls returned.
   */
  function PriceCheck(admission: Admission, body: PriceCheckBody, search: Outcome<TradeSearchData>,
                      reply: Outcome<ChatReply>, timestamp: string): (x: Exchange)
    ensures admission.Rejected? ==> x.response == RateLimitResponse(admission.msBeforeNext) && x.calls == []
    ensures admission.Admitted? && !(body.itemText.Some? && Truthy(body.itemText.value)) ==>
      x.response == Failed(400, "Item text is required", None) && x.calls == []
    ensures admission.Admitted? && body.itemText.Some? && Truthy(body.itemText.value) && !body.itemText.value.JStr? ==>
      x.response == Failed(500, "Price check failed", Some("itemText.split is not a function")) && x.calls == []
    ensures admission.Admitted? && body.itemText.Some? && body.itemText.value.JStr? && body.itemText.value.s != "" ==>
      var item := ParseItemText(body.itemText.value.s);
      var pricing := FetchPriceData(search);
      && x.response == PriceCheckResult(item, pricing, GetAIInsights(reply), timestamp)
      && x.calls == [TradeSearchRequest(item, StrOr(body.league, DefaultLeague)), InsightRequest(item, pricing)]
  {
    if admission.Rejected? then
      Exchange(RateLimitResponse(admission.msBeforeNext), [])
    else if !(body.itemText.Some? && Truthy(body.itemText.value)) then
      Exchange(Failed(400, "Item text is required", None), [])
    else if !body.itemText.value.JStr? then
      Exchange(Failed(500, "Price check failed", Some("itemText.split is not a function")), [])
    else
      var item := ParseItemText(body.itemText.value.s);
      var league := StrOr(body.league, DefaultLeague);
      var pricing := FetchPriceData(search);
      var insights := GetAIInsights(reply);
      Exchange(PriceCheckResult(item, pricing, insights, timestamp),
               [TradeSearchRequest(item, league), InsightRequest(item, pricing)])
  }

  /** An admitted price check with item text succeeds whatever the trade search and the chat backend did. */
  lemma PriceCheckDegradesGracefully(body: PriceCheckBody, search: Outcome<TradeSearchData>,
                                     reply: Outcome<ChatReply>, timestamp: string)
    requires body.itemText.Some? && body.itemText.value.JStr? && body.itemText.value.s != ""
    ensures var x := PriceCheck(Admitted, body, search, reply, timestamp);
      && Success(x.response) && Status(x.response) == 200
      && (search.Err? ==> x.response.pricing == PriceUnavailable("Official API unavailable"))
      && (reply.Err? ==> x.response.aiInsights == InsightUnavailable("AI analysis unavailable"))
      && |x.calls| == 2
  {
    var x := PriceCheck(Admitted, body, search, reply, timestamp);
    var item := ParseItemText(body.itemText.value.s);
    assert x.response == PriceCheckResult(item, FetchPriceData(search), GetAIInsights(reply), timestamp);
  }

  /** A price check reaches the upstream services only when it is admitted and carries item text. */
  lemma PriceCheckCallsOnlyWithText(admission: Admission, body: PriceCheckBody, search: Outcome<TradeSearchData>,
                                    reply: Outcome<ChatReply>, timestamp: string)
    ensures var x := PriceCheck(admission, body, search, reply, timestamp);
      x.calls != [] <==> admission.Admitted? && body.itemText.Some? && body.itemText.value.JStr? && body.itemText.value.s != ""
    ensures var x := PriceCheck(admission, body, search, reply, timestamp);
      Success(x.response) <==> x.calls != []
  {
  }

  /** The trade search goes to the requested league, or to Hardcore when the request names none. */
  lemma PriceCheckLeague(body: PriceCheckBody, search: Outcome<TradeSearchData>, reply: Outcome<ChatReply>, timestamp: string)
    requires body.itemText.Some? && body.itemText.value.JStr? && body.itemText.value.s != ""
    ensures var x := PriceCheck(Admitted, body, search, reply, timestamp);
      x.calls[0].TradeSearch? &&
      x.calls[0].league == (if TruthyStr(body.league) then body.league.value else DefaultLeague)
  {
  }

  /** For every item text, the insight prompt shows the parsed name, type and modifiers on lines of their own. */
  lemma PriceCheckPromptShowsItem(text: string, search: Outcome<TradeSearchData>)
    ensures var item := ParseItemText(text);
      var lines := Split(InsightPrompt(item, FetchPriceData(search)), '\n');
      && |lines| > 6
      && lines[2] == "Item: " + item.name
      && lines[3] == "Type: " + item.itemType
      && lines[4] == "Mods: " + Join(item.mods, ", ")
  {
    var item := ParseItemText(text);
    ParsedItemLineFree(text);
    InsightPromptShowsItem(item, FetchPriceData(search));
  }

  /**
   * `GET /api/market/:league`: a rejected request gets 429; otherwise the
   * placeholder market data (which cannot fail) and the analysis of it, always
   * with `success: true`.
   */
  function Market(admission: Admission, league: string, currency: Option<string>,
                  reply: Outcome<ChatReply>, timestamp: string): (x: Exchange)
    ensures admission.Rejected? ==> x.response == RateLimitResponse(admission.msBeforeNext) && x.calls == []
    ensures admission.Admitted? ==>
      var market := FetchMarketData(league, currency, timestamp);
      && x.response == MarketResult(league, market, GetMarketAnalysis(reply), timestamp)
      && x.calls == [ChatRequest(MarketPrompt(market, league), ChatModel)]
  {
    if admission.Rejected? then
      Exchange(RateLimitResponse(admission.msBeforeNext), [])
    else
      var market := FetchMarketData(league, currency, timestamp);
      Exchange(MarketResult(league, market, GetMarketAnalysis(reply), timestamp),
               [ChatRequest(MarketPrompt(market, league), ChatModel)])
  }

  /** An admitted market request succeeds whatever the chat backend did, and its analysis is never more than low confidence. */
  lemma MarketAlwaysSucceeds(league: string, currency: Option<string>, reply: Outcome<ChatReply>, timestamp: string)
    ensures var x := Market(Admitted, league, currency, reply, timestamp);
      && Success(x.response) && Status(x.response) == 200
      && (x.response.analysis.Insight? ==> x.response.analysis.confidence == Low)
      && (reply.Err? ==> x.response.analysis == InsightUnavailable("Market analysis unavailable"))
  {
  }
}
