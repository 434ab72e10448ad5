/**
 * The chat-service integration: a client object that remembers the current
 * conversation (`conversationId`) and the last reply (`parentMessageId`), sends
 * messages with that context, and builds the three analysis prompts.
 *
 * The HTTP post is replaced by its outcome, passed in by the caller; the
 * request that would be posted is returned so that its payload can be examined.
 */
module LibreChat {
  import opened JsValues
  import opened JsStrings
  import opened Upstream

  const DefaultBaseUrl := "http://localhost:3080"
  const MessagesPath := "/api/messages"
  /** Milliseconds the client waits for a reply (not modelled as time). */
  const RequestTimeout := 30000
  const DefaultModel := "gpt-3.5-turbo"
  const AnalysisModel := "gpt-4"
  const FallbackStatus := 500

  const TextKey := "text"
  const ConversationKey := "conversationId"
  const ParentKey := "parentMessageId"
  const ModelKey := "model"

  /** The stored conversation context; `None` is `null`. */
  datatype Ids = Ids(conversationId: Option<string>, parentMessageId: Option<string>)

  /** The request `sendMessage` posts: the endpoint and the JSON payload. */
  datatype Post = Post(url: string, payload: Obj)

  /** What `sendMessage` resolves to. */
  datatype SendResult =
    | Sent(response: Option<string>, conversationId: Option<string>, messageId: Option<string>, model: Option<string>)
    | Failed(error: string, status: int)

  function IdJson(id: Option<string>): Json {
    if id.Some? then JStr(id.value) else JNull
  }

  /** `context[k] || fallback`. */
  function OrJson(context: Obj, k: string, fallback: Json): (r: Json)
    ensures TruthyAt(context, k) ==> r == context[k]
    ensures !TruthyAt(context, k) ==> r == fallback
  {
    if TruthyAt(context, k) then context[k] else fallback
  }

  /** `context.model || process.env.LIBRECHAT_DEFAULT_MODEL || 'gpt-3.5-turbo'`. */
  function ModelFallback(context: Obj, env: Option<string>): Json {
    OrJson(context, ModelKey, JStr(StrOr(env, DefaultModel)))
  }

  /** The fields written before the spread. */
  function BasePayload(message: string, context: Obj, ids: Ids, env: Option<string>): Obj {
    map[TextKey := JStr(message),
        ConversationKey := OrJson(context, ConversationKey, IdJson(ids.conversationId)),
        ParentKey := OrJson(context, ParentKey, IdJson(ids.parentMessageId)),
        ModelKey := ModelFallback(context, env)]
  }

  /** `{ text, conversationId, parentMessageId, model, ...context }`: the context's keys are written last. */
  function Payload(message: string, context: Obj, ids: Ids, env: Option<string>): Obj {
    BasePayload(message, context, ids, env) + context
  }

  lemma PayloadKeysDistinct()
    ensures TextKey != ConversationKey && TextKey != ParentKey && TextKey != ModelKey
    ensures ConversationKey != ParentKey && ConversationKey != ModelKey && ParentKey != ModelKey
  {
    assert |TextKey| == 4 && |ConversationKey| == 14 && |ParentKey| == 15 && |ModelKey| == 5;
  }

  /**
   * Every key of the context reaches the payload unchanged (the spread comes
   * last); without one, the stored ids and the model fallback chain fill in;
   * the payload holds exactly those four keys and the context's.
   */
  lemma PayloadFields(message: string, context: Obj, ids: Ids, env: Option<string>)
    ensures var p := Payload(message, context, ids, env);
      (forall k | k in context :: k in p && p[k] == context[k])
      && p.Keys == {TextKey, ConversationKey, ParentKey, ModelKey} + context.Keys
      && (TextKey !in context ==> p[TextKey] == JStr(message))
      && (ConversationKey !in context ==> p[ConversationKey] == IdJson(ids.conversationId))
      && (ParentKey !in context ==> p[ParentKey] == IdJson(ids.parentMessageId))
      && (ModelKey !in context ==> p[ModelKey] == JStr(if TruthyStr(env) then env.value else DefaultModel))
  {
    PayloadKeysDistinct();
  }

  /** `error.response?.status || 500`: a missing or zero status becomes 500. */
  function FailureStatus(status: Option<int>): (r: int)
    ensures r != 0
    ensures status.Some? && status.value != 0 ==> r == status.value
  {
    if status.Some? && status.value != 0 then status.value else FallbackStatus
  }

  /** The context after a reply: an id is replaced only by a truthy one from a successful reply. */
  function AfterReply(ids: Ids, reply: Outcome<ChatReply>): (r: Ids)
    ensures reply.Err? ==> r == ids
    ensures r.conversationId == ids.conversationId
      || (reply.Ok? && TruthyStr(reply.data.conversationId) && r.conversationId == reply.data.conversationId)
    ensures r.parentMessageId == ids.parentMessageId
      || (reply.Ok? && TruthyStr(reply.data.messageId) && r.parentMessageId == reply.data.messageId)
    ensures TruthyStr(ids.conversationId) ==> TruthyStr(r.conversationId)
    ensures TruthyStr(ids.parentMessageId) ==> TruthyStr(r.parentMessageId)
  {
    match reply
    case Err(_, _) => ids
    case Ok(d) => Ids(if TruthyStr(d.conversationId) then d.conversationId else ids.conversationId,
                      if TruthyStr(d.messageId) then d.messageId else ids.parentMessageId)
  }

  /** The resolved value: the reply's `text || response` and ids, or the error with a truthy status. */
  function ResultOf(reply: Outcome<ChatReply>): (r: SendResult)
    ensures r.Sent? <==> reply.Ok?
    ensures r.Sent? ==> (r.response == ReplyText(reply.data) && r.conversationId == reply.data.conversationId
      && r.messageId == reply.data.messageId && r.model == reply.data.model)
    ensures r.Failed? ==> r.error == reply.message && r.status == FailureStatus(reply.status)
  {
    match reply
    case Ok(d) => Sent(ReplyText(d), d.conversationId, d.messageId, d.model)
    case Err(message, status) => Failed(message, FailureStatus(status))
  }

  /**
   * Conversation continuity: after a successful reply that names the
   * conversation and the message, the next message without those context keys
   * continues that conversation as a reply to that message.
   */
  lemma NextMessageContinues(ids: Ids, d: ChatReply, message: string, context: Obj, env: Option<string>)
    requires TruthyStr(d.conversationId) && TruthyStr(d.messageId)
    requires ConversationKey !in context && ParentKey !in context
    ensures var p := Payload(message, context, AfterReply(ids, Ok(d)), env);
      p[ConversationKey] == JStr(d.conversationId.value) && p[ParentKey] == JStr(d.messageId.value)
  {
    PayloadFields(message, context, AfterReply(ids, Ok(d)), env);
  }

  // ---------------------------------------------------------------------------
  // Prompt templates
  // ---------------------------------------------------------------------------

  /** The item fields the prompts interpolate. */
  datatype ItemData = ItemData(name: string, itemType: string, mods: seq<string>, itemLevel: Option<int>)

  /** The search summary the price-analysis prompt interpolates. */
  datatype PriceInfo = PriceInfo(total: Option<int>, searchId: Option<string>)

  datatype MarketInfo = MarketInfo(currency: string, timestamp: string)

  datatype CraftingOptions = CraftingOptions(goals: Option<string>, budget: Option<string>)

  const ModSeparator := " | "
  const NoSearchId := "N/A"
  const UnknownLevel := "Unknown"
  const DefaultGoals := "Maximize value"
  const DefaultBudget := "Moderate"

  /** `x || 0` and `x || 'Unknown'` on an optional number. */
  function CountOrZero(n: Option<int>): int {
    if n.Some? then n.value else 0
  }

  function LevelText(n: Option<int>): string {
    if n.Some? && n.value != 0 then IntToString(n.value) else UnknownLevel
  }

  /** Split reads back each line-feed-free head line of a prompt joined from head and tail lines. */
  lemma HeadLinesShown(head: seq<string>, tail: seq<string>)
    requires tail != []
    requires forall k | 0 <= k < |head| :: LineFree(head[k])
    ensures var lines := Split(Join(head + tail, "\n"), '\n');
      |lines| > |head| && forall k | 0 <= k < |head| :: lines[k] == head[k]
  {
    var parts := head + tail;
    assert forall k | 0 <= k < |head| :: parts[k] == head[k];
    SplitJoinPrefix(parts, |head|, '\n');
  }

  /** Strings without a line feed. */
  predicate LineFree(s: string) {
    '\n' !in s
  }

  predicate ModsLineFree(mods: seq<string>) {
    forall k | 0 <= k < |mods| :: LineFree(mods[k])
  }

  lemma ConstLineFree(s: string)
    requires forall i | 0 <= i < |s| :: s[i] != '\n'
    ensures LineFree(s)
  {
  }

  lemma JoinedModsLineFree(mods: seq<string>)
    requires ModsLineFree(mods)
    ensures LineFree(Join(mods, ModSeparator))
  {
    assert forall i | 0 <= i < |ModSeparator| :: ModSeparator[i] != '\n';
    JoinLacks(mods, ModSeparator, '\n');
  }

  lemma NumeralFree(n: int)
    ensures LineFree(IntToString(n))
  {
    var r := IntToString(n);
    assert forall i | 0 <= i < |r| :: r[i] != '\n';
  }

  // The price-analysis prompt.

  const PriceIntroHead := "As an expert Path of Exile 2 "
  const PriceIntroTail := "trader, analyze this item:"
  const ItemDetailsHeading := "**Item Details:**"
  const NameLabel := "- Name: "
  const TypeLabel := "- Type: "
  const ModsLabel := "- Mods: "
  const MarketDataHeading := "**Market Data:**"
  const ListingsLead := "- "
  const ListingsTail := " similar listings found"
  const SearchIdLabel := "- Search ID: "

  const PriceRequests: seq<string> := [
    "",
    "**Please provide:**",
    "1. **Value Assessment** - Is this item valuable? Why?",
    "2. **Market Position** - How does it compare to similar items?",
    "3. **Trading Advice** - Best pricing and timing strategy",
    "4. **Build Relevance** - Which builds would want this item?",
    "",
    "Keep your analysis concise but comprehensive. Focus on actionable insights for trading decisions."]

  function PriceHeadLines(item: ItemData, price: PriceInfo): seq<string> {
    [PriceIntroHead + PriceIntroTail, [], ItemDetailsHeading,
     NameLabel + item.name,
     TypeLabel + item.itemType,
     ModsLabel + Join(item.mods, ModSeparator),
     [], MarketDataHeading,
     ListingsLead + IntToString(CountOrZero(price.total)) + ListingsTail,
     SearchIdLabel + StrOr(price.searchId, NoSearchId)]
  }

  /** The text `sendPriceAnalysisRequest` sends. */
  function PriceAnalysisPrompt(item: ItemData, price: PriceInfo): string {
    Join(PriceHeadLines(item, price) + PriceRequests, "\n")
  }

  lemma PriceHeadLineFree(item: ItemData, price: PriceInfo, k: int)
    requires LineFree(item.name) && LineFree(item.itemType) && ModsLineFree(item.mods)
    requires price.searchId.Some? ==> LineFree(price.searchId.value)
    requires 0 <= k < 10
    ensures LineFree(PriceHeadLines(item, price)[k])
  {
    var lines := PriceHeadLines(item, price);
    if k == 0 {
      ConstLineFree(PriceIntroHead);
      ConstLineFree(PriceIntroTail);
      ConcatLacks(PriceIntroHead, PriceIntroTail, '\n');
    } else if k == 2 {
      ConstLineFree(ItemDetailsHeading);
    } else if k == 3 {
      ConstLineFree(NameLabel);
      ConcatLacks(NameLabel, item.name, '\n');
    } else if k == 4 {
      ConstLineFree(TypeLabel);
      ConcatLacks(TypeLabel, item.itemType, '\n');
    } else if k == 5 {
      ConstLineFree(ModsLabel);
      JoinedModsLineFree(item.mods);
      ConcatLacks(ModsLabel, Join(item.mods, ModSeparator), '\n');
    } else if k == 7 {
      ConstLineFree(MarketDataHeading);
    } else if k == 8 {
      var n := IntToString(CountOrZero(price.total));
      ConstLineFree(ListingsLead);
      ConstLineFree(ListingsTail);
      NumeralFree(CountOrZero(price.total));
      ConcatLacks(ListingsLead, n, '\n');
      ConcatLacks(ListingsLead + n, ListingsTail, '\n');
    } else if k == 9 {
      ConstLineFree(SearchIdLabel);
      ConstLineFree(NoSearchId);
      ConcatLacks(SearchIdLabel, StrOr(price.searchId, NoSearchId), '\n');
    }
  }

  /**
   * Read back line by line, the price-analysis prompt shows the name, the type,
   * the modifiers joined by " | ", `total || 0` listings and `searchId || 'N/A'`.
   */
  lemma PriceAnalysisPromptShows(item: ItemData, price: PriceInfo)
    requires LineFree(item.name) && LineFree(item.itemType) && ModsLineFree(item.mods)
    requires price.searchId.Some? ==> LineFree(price.searchId.value)
    ensures var lines := Split(PriceAnalysisPrompt(item, price), '\n');
      |lines| > 10
      && lines[3] == NameLabel + item.name
      && lines[4] == TypeLabel + item.itemType
      && lines[5] == ModsLabel + Join(item.mods, ModSeparator)
      && lines[8] == ListingsLead + IntToString(CountOrZero(price.total)) + ListingsTail
      && lines[9] == SearchIdLabel + (if TruthyStr(price.searchId) then price.searchId.value else NoSearchId)
  {
    var head := PriceHeadLines(item, price);
    forall k | 0 <= k < 10 ensures LineFree(head[k]) {
      PriceHeadLineFree(item, price, k);
    }
    HeadLinesShown(head, PriceRequests);
  }

  // The market-analysis prompt.

  const MarketIntroHead := "Analyze the Path of Exile 2 "
  const MarketIntroMid := "market conditions for **"
  const MarketIntroTail := "** league:"
  const CurrentMarketHeading := "**Current Market Data:**"
  const CurrencyLabel := "- Currency: "
  const LeagueLabel := "- League: "
  const UpdatedLabel := "- Last Updated: "

  const MarketRequests: seq<string> := [
    "",
    "**Analysis Needed:**",
    "1. **Market Trends** - Current price movements and patterns",
    "2. **Currency Recommendations** - Best currencies to hold/trade",
    "3. **Timing Strategy** - When to buy/sell for maximum profit",
    "4. **Risk Assessment** - Market stability and volatility factors",
    "",
    "Provide practical trading advice based on current market conditions. Consider both short-term opportunities and long-term investment strategies."]

  function MarketHeadLines(market: MarketInfo, league: string): seq<string> {
    [MarketIntroHead + MarketIntroMid + league + MarketIntroTail, [], CurrentMarketHeading,
     CurrencyLabel + market.currency,
     LeagueLabel + league,
     UpdatedLabel + market.timestamp]
  }

  /** The text `sendMarketAnalysisRequest` sends. */
  function MarketAnalysisPrompt(market: MarketInfo, league: string): string {
    Join(MarketHeadLines(market, league) + MarketRequests, "\n")
  }

  lemma MarketHeadLineFree(market: MarketInfo, league: string, k: int)
    requires LineFree(market.currency) && LineFree(market.timestamp) && LineFree(league)
    requires 0 <= k < 6
    ensures LineFree(MarketHeadLines(market, league)[k])
  {
    if k == 0 {
      var intro := MarketIntroHead + MarketIntroMid;
      ConstLineFree(MarketIntroHead);
      ConstLineFree(MarketIntroMid);
      ConstLineFree(MarketIntroTail);
      ConcatLacks(MarketIntroHead, MarketIntroMid, '\n');
      ConcatLacks(intro, league, '\n');
      ConcatLacks(intro + league, MarketIntroTail, '\n');
    } else if k == 2 {
      ConstLineFree(CurrentMarketHeading);
    } else if k == 3 {
      ConstLineFree(CurrencyLabel);
      ConcatLacks(CurrencyLabel, market.currency, '\n');
    } else if k == 4 {
      ConstLineFree(LeagueLabel);
      ConcatLacks(LeagueLabel, league, '\n');
    } else if k == 5 {
      ConstLineFree(UpdatedLabel);
      ConcatLacks(UpdatedLabel, market.timestamp, '\n');
    }
  }

  /** Read back line by line, the market prompt names the league twice, the currency and the timestamp. */
  lemma MarketAnalysisPromptShows(market: MarketInfo, league: string)
    requires LineFree(market.currency) && LineFree(market.timestamp) && LineFree(league)
    ensures var lines := Split(MarketAnalysisPrompt(market, league), '\n');
      |lines| > 6
      && lines[0] == MarketIntroHead + MarketIntroMid + league + MarketIntroTail
      && lines[3] == CurrencyLabel + market.currency
      && lines[4] == LeagueLabel + league
      && lines[5] == UpdatedLabel + market.timestamp
  {
    var head := MarketHeadLines(market, league);
    forall k | 0 <= k < 6 ensures LineFree(head[k]) {
      MarketHeadLineFree(market, league, k);
    }
    HeadLinesShown(head, MarketRequests);
  }

  // The crafting-advice prompt.

  const CraftIntroHead := "As a Path of Exile 2 crafting "
  const CraftIntroTail := "expert, advise on this item:"
  const CraftItemHeading := "**Item to Craft:**"
  const BaseLabel := "- Base: "
  const CurrentModsLabel := "- Current Mods: "
  const LevelLabel := "- Item Level: "
  const GoalsHeading := "**Crafting Goals:**"
  const BudgetLabel := "**Budget:** "

  const CraftRequests: seq<string> := [
    "",
    "**Please provide:**",
    "1. **Crafting Strategy** - Step-by-step crafting approach",
    "2. **Currency Requirements** - What currencies and quantities needed",
    "3. **Success Probability** - Realistic chances of achieving goals",
    "4. **Risk vs Reward** - Is this crafting project worth it?",
    "5. **Alternative Options** - Other approaches or buying suggestions",
    "",
    "Consider the current PoE2 crafting mechanics including Runes, Omens, and Essences."]

  function CraftHeadLines(item: ItemData, options: CraftingOptions): seq<string> {
    [CraftIntroHead + CraftIntroTail, [], CraftItemHeading,
     BaseLabel + item.itemType,
     CurrentModsLabel + Join(item.mods, ModSeparator),
     LevelLabel + LevelText(item.itemLevel),
     [], GoalsHeading,
     StrOr(options.goals, DefaultGoals),
     [],
     BudgetLabel + StrOr(options.budget, DefaultBudget)]
  }

  /** The text `sendCraftingAdviceRequest` sends. */
  function CraftingAdvicePrompt(item: ItemData, options: CraftingOptions): string {
    Join(CraftHeadLines(item, options) + CraftRequests, "\n")
  }

  lemma CraftHeadLineFree(item: ItemData, options: CraftingOptions, k: int)
    requires LineFree(item.itemType) && ModsLineFree(item.mods)
    requires options.goals.Some? ==> LineFree(options.goals.value)
    requires options.budget.Some? ==> LineFree(options.budget.value)
    requires 0 <= k < 6
    ensures LineFree(CraftHeadLines(item, options)[k])
  {
    if k == 0 {
      ConstLineFree(CraftIntroHead);
      ConstLineFree(CraftIntroTail);
      ConcatLacks(CraftIntroHead, CraftIntroTail, '\n');
    } else if k == 2 {
      ConstLineFree(CraftItemHeading);
    } else if k == 3 {
      ConstLineFree(BaseLabel);
      ConcatLacks(BaseLabel, item.itemType, '\n');
    } else if k == 4 {
      ConstLineFree(CurrentModsLabel);
      JoinedModsLineFree(item.mods);
      ConcatLacks(CurrentModsLabel, Join(item.mods, ModSeparator), '\n');
    } else if k == 5 {
      ConstLineFree(LevelLabel);
      ConstLineFree(UnknownLevel);
      if item.itemLevel.Some? {
        NumeralFree(item.itemLevel.value);
      }
      ConcatLacks(LevelLabel, LevelText(item.itemLevel), '\n');
    }
  }

  lemma CraftGoalLineFree(item: ItemData, options: CraftingOptions, k: int)
    requires options.goals.Some? ==> LineFree(options.goals.value)
    requires options.budget.Some? ==> LineFree(options.budget.value)
    requires 6 <= k < 11
    ensures LineFree(CraftHeadLines(item, options)[k])
  {
    if k == 7 {
      ConstLineFree(GoalsHeading);
    } else if k == 8 {
      ConstLineFree(DefaultGoals);
    } else if k == 10 {
      ConstLineFree(BudgetLabel);
      ConstLineFree(DefaultBudget);
      ConcatLacks(BudgetLabel, StrOr(options.budget, DefaultBudget), '\n');
    }
  }

  /**
   * Read back line by line, the crafting prompt shows the base type, the
   * modifiers, the item level or "Unknown", the goals or "Maximize value" and
   * the budget or "Moderate".
   */
  lemma CraftingAdvicePromptShows(item: ItemData, options: CraftingOptions)
    requires LineFree(item.itemType) && ModsLineFree(item.mods)
    requires options.goals.Some? ==> LineFree(options.goals.value)
    requires options.budget.Some? ==> LineFree(options.budget.value)
    ensures var lines := Split(CraftingAdvicePrompt(item, options), '\n');
      |lines| > 11
      && lines[3] == BaseLabel + item.itemType
      && lines[4] == CurrentModsLabel + Join(item.mods, ModSeparator)
      && lines[5] == LevelLabel + (if item.itemLevel.Some? && item.itemLevel.value != 0
                                   then IntToString(item.itemLevel.value) else UnknownLevel)
      && lines[8] == (if TruthyStr(options.goals) then options.goals.value else DefaultGoals)
      && lines[10] == BudgetLabel + (if TruthyStr(options.budget) then options.budget.value else DefaultBudget)
  {
    var head := CraftHeadLines(item, options);
    forall k | 0 <= k < 11 ensures LineFree(head[k]) {
      if k < 6 {
        CraftHeadLineFree(item, options, k);
      } else {
        CraftGoalLineFree(item, options, k);
      }
    }
    HeadLinesShown(head, CraftRequests);
  }

  /** The context the three prompt builders pass: `{ model: 'gpt-4' }`. */
  const AnalysisContext: Obj := map[ModelKey := JStr(AnalysisModel)]

  /** A prompt sent by a builder carries the prompt as text and "gpt-4" as model, whatever the environment. */
  lemma AnalysisPayload(prompt: string, ids: Ids, env: Option<string>)
    ensures var p := Payload(prompt, AnalysisContext, ids, env);
      p[TextKey] == JStr(prompt) && p[ModelKey] == JStr(AnalysisModel)
      && p[ConversationKey] == IdJson(ids.conversationId) && p[ParentKey] == IdJson(ids.parentMessageId)
  {
    PayloadKeysDistinct();
    PayloadFields(prompt, AnalysisContext, ids, env);
  }

  // ---------------------------------------------------------------------------
  // The client object
  // ---------------------------------------------------------------------------

  class LibreChatIntegration {
    const baseUrl: string
    const timeout: int
    var conversationId: Option<string>
    var parentMessageId: Option<string>

    function Context(): Ids
      reads this
    {
      Ids(conversationId, parentMessageId)
    }

    /** `new LibreChatIntegration(baseUrl = 'http://localhost:3080')`: no conversation yet. */
    constructor(baseUrl: Option<string>)
      ensures this.baseUrl == (if baseUrl.Some? then baseUrl.value else DefaultBaseUrl)
      ensures timeout == RequestTimeout
      ensures Context() == Ids(None, None)
    {
      this.baseUrl := if baseUrl.Some? then baseUrl.value else DefaultBaseUrl;
      timeout := RequestTimeout;
      conversationId, parentMessageId := None, None;
    }

    /**
     * `sendMessage(message, context)`: posts the payload to `/api/messages`,
     * then keeps the returned ids when truthy; a failure changes nothing.
     */
    method SendMessage(message: string, context: Obj, env: Option<string>, reply: Outcome<ChatReply>)
      returns (request: Post, result: SendResult)
      modifies this
      ensures request == Post(baseUrl + MessagesPath, Payload(message, context, old(Context()), env))
      ensures Context() == AfterReply(old(Context()), reply)
      ensures result == ResultOf(reply)
    {
      var payload := BasePayload(message, context, Context(), env) + context;
      request := Post(baseUrl + MessagesPath, payload);
      match reply {
        case Ok(d) =>
          if TruthyStr(d.conversationId) {
            conversationId := d.conversationId;
          }
          if TruthyStr(d.messageId) {
            parentMessageId := d.messageId;
          }
          result := Sent(ReplyText(d), d.conversationId, d.messageId, d.model);
        case Err(error, status) =>
          result := Failed(error, FailureStatus(status));
      }
    }

    method SendPriceAnalysisRequest(item: ItemData, price: PriceInfo, env: Option<string>, reply: Outcome<ChatReply>)
      returns (request: Post, result: SendResult)
      modifies this
      ensures request == Post(baseUrl + MessagesPath,
        Payload(PriceAnalysisPrompt(item, price), AnalysisContext, old(Context()), env))
      ensures Context() == AfterReply(old(Context()), reply)
      ensures result == ResultOf(reply)
    {
      request, result := SendMessage(PriceAnalysisPrompt(item, price), AnalysisContext, env, reply);
    }

    method SendMarketAnalysisRequest(market: MarketInfo, league: string, env: Option<string>, reply: Outcome<ChatReply>)
      returns (request: Post, result: SendResult)
      modifies this
      ensures request == Post(baseUrl + MessagesPath,
        Payload(MarketAnalysisPrompt(market, league), AnalysisContext, old(Context()), env))
      ensures Context() == AfterReply(old(Context()), reply)
      ensures result == ResultOf(reply)
    {
      request, result := SendMessage(MarketAnalysisPrompt(market, league), AnalysisContext, env, reply);
    }

    method SendCraftingAdviceRequest(item: ItemData, options: CraftingOptions, env: Option<string>,
                                     reply: Outcome<ChatReply>)
      returns (request: Post, result: SendResult)
      modifies this
      ensures request == Post(baseUrl + MessagesPath,
        Payload(CraftingAdvicePrompt(item, options), AnalysisContext, old(Context()), env))
      ensures Context() == AfterReply(old(Context()), reply)
      ensures result == ResultOf(reply)
    {
      request, result := SendMessage(CraftingAdvicePrompt(item, options), AnalysisContext, env, reply);
    }

    /** `resetConversation()`: forget both ids. */
    method ResetConversation()
      modifies this
      ensures Context() == Ids(None, None)
    {
      conversationId, parentMessageId := None, None;
    }
  }

  /** After a reset, a message without context ids starts a new conversation (both ids `null`). */
  lemma ResetStartsFresh(message: string, context: Obj, env: Option<string>)
    requires ConversationKey !in context && ParentKey !in context
    ensures var p := Payload(message, context, Ids(None, None), env);
      p[ConversationKey] == JNull && p[ParentKey] == JNull
  {
    PayloadFields(message, context, Ids(None, None), env);
  }
}
