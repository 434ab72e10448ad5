# Exiled Exchange 2 AI bridge: a Dafny model

This project models the sequential logic of the Exiled Exchange 2 AI bridge. The bridge adds AI insight to an overlay that price-checks Path of Exile 2 items, and it degrades gracefully when a service is down. The model has five parts:

- **The bridge server** (`AiBridgeServer`, `ItemText`, `SampleItem`). It covers:
  - the item-text heuristics (`parseItemText`, `extractItemType`, `extractMods`);
  - how the trade-search and chat replies become success or `{ error, fallback: true }` records;
  - the `/api/price-check` and `/api/market/:league` decisions;
  - the per-IP fixed-window limiter, configured for 45 points per 60 seconds, and the 429 body with its `retryAfter` arithmetic.

  The handlers take the limiter's verdict, `Admitted | Rejected(msBeforeNext)`, as a parameter. `Consume` computes that verdict from one IP's window record, counting consumed points in a window of 60 000 ms. The sample item of `ai-bridge/demo.js` is worked through under the parser's literal rules.
- **The safe data parser** (`SafeData`). It covers:
  - the clipboard line splitter;
  - the accumulated validation errors;
  - the sliding-window limiter held in `requests`, with the clock as a parameter and the sleep as a returned duration;
  - the text block `saveItem` appends, which the clipboard splitter reads back.
- **The enhanced-features script** (`EnhancedFeatures`). It updates a configuration in place:
  - enhancement tables are written where they differ, with each change recorded;
  - two hotkeys are set only when they are unset;
  - default commands are appended, de-duplicated by `text`;
  - the file is written only when a change was recorded.

  The main properties are that a second run changes nothing, and that "written" holds exactly when the configuration changed.
- **The chat-service integration** (`LibreChat`). It covers:
  - the client's conversation context (`conversationId`, `parentMessageId`);
  - the payload `sendMessage` posts, with the context's own keys written last;
  - the context update after a reply;
  - the resolved result or error, and `resetConversation`;
  - the three analysis prompt templates, read back line by line.
- **The client-side combiner** (`EnhancedPricing`). `getEnhancedPricing` runs the poeprices request, then the health check, then the bridge query. From their outcomes it builds one result with `dataSource` and `enhanced` flags, or a fixed all-failed result. The model also covers the `null`/`false`/rethrow fallbacks of `getMarketInsights`, `isAIEnhancementAvailable` and `askAIAboutItem`.

Notes on the model:
- **Upstream calls.** Every HTTP or IPC call is replaced by its outcome, `Upstream.Outcome`: the response data, or the error it raised. The caller of the model supplies it. Where it matters, the request that would have been sent is returned beside the result.
- **JSON values.** JSON numbers are rationals. An absent property is `None`. JavaScript truthiness is stated explicitly (`JsValues`).
- **Strings.** String operations (`trim` with the ECMAScript white-space set, `split`, `join`, `includes`, integer-to-string) are defined in `JsStrings` over `seq<char>`.
- **Enhanced flag.** The client marks a result `enhanced` for any insight record it obtained. This includes the server's own degraded record `{ error: 'AI analysis unavailable', fallback: true }` (`EnhancedPricing.InsightsUnavailable`), which the bridge client passes through unchanged: the flag depends only on the bridge's `success` and the presence of `aiInsights` (`EnhancedPricing.EnhancedPricing`, `EnhancedPricing.DegradedInsightsEnhance`). The only record with `source: 'fallback'` is the client's own all-failed record.

## Model

| member | source | states |
|---|---|---|
| AiBridgeServer.RoundHalfUp | ai-bridge/server.js:49 | `Math.round` of a rational is the integer within half a unit below or at it, halves rounded up |
| AiBridgeServer.RetryAfter | ai-bridge/server.js:49 | `Math.round(ms / 1000) \|\| 1` is never 0 |
| AiBridgeServer.RetryAfterPositive | ai-bridge/server.js:49 | a wait that is not negative is reported as at least one second |
| AiBridgeServer.RetryAfterRounds | ai-bridge/server.js:49 | a wait of 500 ms or more is reported as the nearest whole second, halves up |
| AiBridgeServer.RetryAfterShortWait | ai-bridge/server.js:49 | a wait under half a second (either sign) is reported as 1 by the `\|\| 1` |
| AiBridgeServer.RateLimitResponse | ai-bridge/server.js:44-51 | a rejection answers 429, unsuccessful, with `error` "Too Many Requests", `message` "API rate limit exceeded. Please try again later." and `retryAfter` at least 1 for a non-negative wait |
| AiBridgeServer.Consume | ai-bridge/server.js:28-32 | one request of an IP: rejected exactly when its window is still open and 45 points are already consumed, with `msBeforeNext` the positive time left in the window; a missing or expired window reopens with one point |
| AiBridgeServer.ConsumeIp | ai-bridge/server.js:41-42 | `consume(req.ip)` changes only the requesting IP's record |
| AiBridgeServer.Admissions | ai-bridge/server.js:28-32 | one verdict per request of a sequence, in order |
| AiBridgeServer.WindowBurst | ai-bridge/server.js:28-32 | requests of a fresh IP inside one window: the first 45 are admitted, each later one rejected with the time left in the window |
| AiBridgeServer.FortySixthRejected | ai-bridge/server.js:28-51 | the 46th request in one window is rejected, and a price check then answers 429 with `retryAfter` at least 1 and calls nothing upstream |
| AiBridgeServer.WindowReopens | ai-bridge/server.js:28-32 | after its 60 000 ms, the window reopens and the request is admitted, whatever was consumed |
| AiBridgeServer.FirstResults | ai-bridge/server.js:221 | `slice(0, 10)` keeps the first `min(n, 10)` listings, in order |
| AiBridgeServer.TradeSearchRequest | ai-bridge/server.js:204-216 | defines the search posted for a parsed item: the league of the URL with the item's name and type; stated in PriceCheck and PriceCheckLeague |
| AiBridgeServer.FetchPriceData | ai-bridge/server.js:201-228 | the summary (id, total, first ten results) exactly when the search answered with a result list, else the "Official API unavailable" fallback record |
| AiBridgeServer.ListingCount | ai-bridge/server.js:237 | `priceData.total \|\| 0`: the total of a priced summary when present, 0 otherwise |
| AiBridgeServer.InsightPrompt | ai-bridge/server.js:232-245 | defines the insight prompt template, with the mods joined by ", " and the listing count; its lines are read back in InsightPromptShowsItem |
| AiBridgeServer.GetAIInsights | ai-bridge/server.js:230-262 | an insight exactly when the chat reply arrived: its `text \|\| response`, medium confidence, source "ai"; else the "AI analysis unavailable" record |
| AiBridgeServer.NumeralLineFree | ai-bridge/server.js:237 | the listing count's digits hold no line feed |
| AiBridgeServer.InsightLineFree | ai-bridge/server.js:232-237 | each interpolated line of the insight prompt is line-feed free when the item's fields are |
| AiBridgeServer.InsightPromptShowsItem | ai-bridge/server.js:232-245 | split on line feeds, the insight prompt's lines 3-6 are the item's name, type, comma-joined mods and listing count |
| AiBridgeServer.FetchMarketData | ai-bridge/server.js:264-272 | the placeholder record names the league, the currency or "divine" when it is falsy, and the fixed note |
| AiBridgeServer.MarketPrompt | ai-bridge/server.js:276-286 | defines the market prompt template naming the league and the currency; its lines are read back in MarketPromptShowsLeague |
| AiBridgeServer.LeagueLineFree | ai-bridge/server.js:276 | the market prompt's first line has no line feed when the league has none |
| AiBridgeServer.CurrencyLineFree | ai-bridge/server.js:278 | the market prompt's currency line has no line feed when the currency has none |
| AiBridgeServer.MarketPromptShowsLeague | ai-bridge/server.js:274-286 | split on line feeds, the market prompt names the league on line 0 and the currency on line 2 |
| AiBridgeServer.GetMarketAnalysis | ai-bridge/server.js:274-303 | an analysis exactly when the chat reply arrived, at low confidence; else the "Market analysis unavailable" record |
| AiBridgeServer.PriceCheck | ai-bridge/server.js:97-132 | rejected: the 429 and no upstream call; falsy `itemText`: 400 and no call; non-string text: 500; text: 200 with parsed item, pricing and insight, after exactly the trade search then the chat request |
| AiBridgeServer.PriceCheckDegradesGracefully | ai-bridge/server.js:108-122 | an admitted price check with text succeeds whatever the two upstream outcomes are |
| AiBridgeServer.PriceCheckCallsOnlyWithText | ai-bridge/server.js:101-114 | upstream requests are made only for an admitted request with truthy text |
| AiBridgeServer.PriceCheckLeague | ai-bridge/server.js:111 | the trade search goes to the requested league, or to "Hardcore" when it is falsy |
| AiBridgeServer.PriceCheckPromptShowsItem | ai-bridge/server.js:108-114 | for every text, the insight prompt shows the parsed name, type and modifiers on lines of their own |
| AiBridgeServer.Market | ai-bridge/server.js:135-164 | rejected: the 429 and no call; admitted: 200 with the placeholder market data and the analysis of the one chat request |
| AiBridgeServer.MarketAlwaysSucceeds | ai-bridge/server.js:143-154 | an admitted market request succeeds whatever the chat backend did, never above low confidence |
| Upstream.ReplyText | ai-bridge/server.js:253 | `data.text \|\| data.response`: the text when it is non-empty, else the response field |
| ItemText.NonBlankLines | ai-bridge/server.js:169 | the filter keeps at most the input's lines, each of them non-blank after trimming |
| ItemText.NonBlankLinesLack | ai-bridge/server.js:169 | the filter keeps only input lines, so a character absent from every line stays absent |
| ItemText.NonBlankLinesHead | ai-bridge/server.js:169-172 | the filter is empty exactly when every line is blank, and otherwise starts with the first non-blank line |
| ItemText.ItemTypeOf | ai-bridge/server.js:179-189 | defines the item-type rule over the lines; stated in ItemTypeIsFirstCandidate and computed by ExtractItemType |
| ItemText.ItemTypeIsFirstCandidate | ai-bridge/server.js:179-189 | the type is the trimmed first line that has no "Rarity:", no "---", no colon and more than 3 characters, else "Unknown" |
| ItemText.ExtractItemType | ai-bridge/server.js:179-189 | the loop with early return computes that first-candidate rule |
| ItemText.ModsOf | ai-bridge/server.js:191-199 | defines the trimmed modifier lines in order; stated in ModsOfMembers and ModsOfAppend and computed by ExtractMods |
| ItemText.ModsOfAppend | ai-bridge/server.js:191-199 | modifier collection distributes over concatenation, so modifiers keep the lines' order |
| ItemText.ModsOfMembers | ai-bridge/server.js:191-199 | a string is a modifier exactly when some line with "%", "to ", "increased" or "Adds" trims to it; never more modifiers than lines |
| ItemText.ExtractMods | ai-bridge/server.js:191-199 | the pushing loop computes exactly the trimmed modifier lines, in order |
| ItemText.ModsIgnoreBlankLines | ai-bridge/server.js:169-174 | filtering blank lines first does not change the modifiers |
| ItemText.ParseItemText | ai-bridge/server.js:167-177 | never fails, and `rawText` is the input unchanged |
| ItemText.ParsedName | ai-bridge/server.js:169-172 | the name is the first non-blank line verbatim (untrimmed), or "Unknown Item" when every line is blank |
| ItemText.ParsedMods | ai-bridge/server.js:169-174 | the modifiers are those of all the text's lines, in order |
| ItemText.ItemTypeOfNonBlank | ai-bridge/server.js:169-189 | the type comes from the first line that is both non-blank and a type candidate, else "Unknown" |
| ItemText.ItemTypeLineFree | ai-bridge/server.js:185 | a type taken from line-feed-free lines has no line feed |
| ItemText.ModsLineFree | ai-bridge/server.js:195 | modifiers taken from line-feed-free lines have no line feed |
| ItemText.ParsedItemLineFree | ai-bridge/server.js:167-177 | the parsed name, type and every modifier hold no line feed |
| ItemText.ItemTypeFromLines | ai-bridge/server.js:179-189 | the type is "Unknown" or the trim of one of the lines |
| SampleItem.SampleParsedName | ai-bridge/demo.js:20-40 | the sample's name is "Rarity: Rare" (the rarity line is not filtered) |
| SampleItem.SampleParsedType | ai-bridge/demo.js:20-40 | the sample's type is "Bone Sword" |
| SampleItem.SampleParsedMods | ai-bridge/demo.js:20-40 | the sample's modifiers are the critical-chance line and the four affix lines |
| SampleItem.SampleItemParse | ai-bridge/demo.js:20-40 | the whole parsed record of the sample, with the five modifiers written out |
| SafeData.ParseClipboardItem | safe-data-parser.js:32-47 | `null` exactly when the trimmed text has fewer than two lines; else line 0 as name, line 1 as type, the rest as stats, source "clipboard" |
| SafeData.ParseClipboardNoneIff | safe-data-parser.js:33-34 | the text is refused exactly when its trim holds no line feed |
| SafeData.MessageInjective | safe-data-parser.js:149-164 | the four checks push four different messages |
| SafeData.ErrorsByCheck | safe-data-parser.js:146-165 | the error list is each check's message, present when that check fails, in the order the checks run |
| SafeData.ErrorsOrder | safe-data-parser.js:146-165 | the errors are the failing checks' messages in run order, at most four |
| SafeData.ErrorsMembers | safe-data-parser.js:146-165 | a check's message is listed exactly when that check fails |
| SafeData.ValidIff | safe-data-parser.js:146-169 | valid exactly when the name and the type are non-blank, the name is at most 100 long and the source does not mention "automated" |
| SafeData.ClipboardSourceAllowed | safe-data-parser.js:162 | the clipboard source never trips the automated-source check |
| SafeData.ValidationErrors | safe-data-parser.js:146-170 | defines the error list of an item: the messages of its failing checks in run order; stated in ErrorsByCheck, ErrorsOrder, ErrorsMembers and ValidIff |
| SafeData.Retained | safe-data-parser.js:178-180 | the filter keeps at most the recorded timestamps, each still inside the window |
| SafeData.RetainedMembers | safe-data-parser.js:178-180 | a timestamp is kept exactly when it was recorded and is less than 10000 ms old |
| SafeData.RetainedAll | safe-data-parser.js:178-180 | on ordered timestamps whose oldest is in the window, all are kept |
| SafeData.RetainedSuffix | safe-data-parser.js:178-180 | on ordered timestamps the filter drops a prefix of the oldest and keeps the rest in order |
| SafeData.WaitTime | safe-data-parser.js:182-186 | a wait exactly when 5 or more calls are in the window, positive and ending when the oldest leaves it |
| SafeData.SavedText | safe-data-parser.js:231-236 | defines the block `saveItem` appends: a line feed, then the name, type and each stat, each ending in a line feed; read back in SavedTextRoundTrip |
| SafeData.SavedTextRoundTrip | safe-data-parser.js:231-236 | reading the saved block back as clipboard text gives the same name, type and stats |
| SafeData.ItemBlock | safe-data-parser.js:231-236 | the `+=` loop builds a line feed, then the name, type and each stat, each followed by a line feed |
| SafeData.SafeDataParser.constructor | safe-data-parser.js:16-27 | no timestamps recorded, nothing appended |
| SafeData.SafeDataParser.ValidateItemFormat | safe-data-parser.js:146-170 | the pushed errors are the specified error list, and `valid` holds exactly when it is empty |
| SafeData.SafeDataParser.SafeApiCall | safe-data-parser.js:175-197 | `requests` becomes the retained timestamps plus `now`, and the wait is the specified one; the result is the fixed success record |
| SafeData.SafeDataParser.SaveItem | safe-data-parser.js:219-251 | appends the saved block exactly when validation passes, else appends nothing and returns false |
| SafeData.SafeApiCallRecords | safe-data-parser.js:178-189 | each call leaves at most one more timestamp than before, ending with `now`, and none outside the window |
| SafeData.SafeApiCallKeepsOrder | safe-data-parser.js:178-189 | with a clock that does not go back, the recorded timestamps stay in order |
| EnhancedFeatures.ApplyTargets | enable-enhanced-features.js:67-72 | after an enhancement table runs, every key holds its target value |
| EnhancedFeatures.ApplyFrame | enable-enhanced-features.js:67-72 | keys outside the table keep their values |
| EnhancedFeatures.ChangesOfDiffering | enable-enhanced-features.js:67-72 | the recorded lines are one `prefix key = value` per entry whose original value differed, in table order |
| EnhancedFeatures.DifferingMembers | enable-enhanced-features.js:68 | an entry is recorded exactly when the original value differs (`!==`) from its target |
| EnhancedFeatures.NoopWhenHeld | enable-enhanced-features.js:67-72 | when every target already holds, nothing changes and nothing is recorded |
| EnhancedFeatures.UnchangedWhenSilent | enable-enhanced-features.js:67-72 | when nothing is recorded, the object is unchanged |
| EnhancedFeatures.ApplyIdempotent | enable-enhanced-features.js:67-72 | a second run of a table changes and records nothing |
| EnhancedFeatures.ApplyEntries | enable-enhanced-features.js:67-72 | the `forEach` loop computes the table's object and change lines |
| EnhancedFeatures.Apply | enable-enhanced-features.js:67-72 | defines the object after every `o[key] = value` of a table, in order; stated in ApplyTargets, ApplyFrame and ApplyIdempotent |
| EnhancedFeatures.FindWidget | enable-enhanced-features.js:51 | `find` gives the first widget of the type, or none when no widget has it |
| EnhancedFeatures.FindAfterUpdate | enable-enhanced-features.js:80-111 | updating a widget without touching `wmType` does not change what a later `find` returns |
| EnhancedFeatures.FillIfUnsetEffect | enable-enhanced-features.js:103-106 | a set-if-unset step keeps a truthy value and otherwise writes only its key, recording one line |
| EnhancedFeatures.WidgetStep | enable-enhanced-features.js:51-116 | defines one widget block: find the first widget of its type and run its step on it, or change nothing; stated in WidgetStepFrame, StepSettles and StepKeepsType |
| EnhancedFeatures.StepKeepsType | enable-enhanced-features.js:53-116 | no widget step writes `wmType` |
| EnhancedFeatures.StepSettles | enable-enhanced-features.js:53-116 | a widget step reaches its fixed point in one application |
| EnhancedFeatures.StepSilentUnchanged | enable-enhanced-features.js:53-116 | a widget step that records nothing changes nothing |
| EnhancedFeatures.WidgetStepFrame | enable-enhanced-features.js:51-116 | a widget block changes only the widget it found, keeps the array's length, and without a widget changes nothing |
| EnhancedFeatures.AtRestStep | enable-enhanced-features.js:51-116 | a block whose widget is at its fixed point changes and records nothing |
| EnhancedFeatures.AtRestPreserved | enable-enhanced-features.js:51-116 | a block for another widget type keeps a settled block settled |
| EnhancedFeatures.AtRestPreservedAll | enable-enhanced-features.js:51-116 | blocks for other widget types keep a settled block settled |
| EnhancedFeatures.WidgetsAtRest | enable-enhanced-features.js:51-116 | after the widget blocks, every block's widget is at its fixed point |
| EnhancedFeatures.WidgetsNoop | enable-enhanced-features.js:51-116 | when every block is settled, the blocks change and record nothing |
| EnhancedFeatures.WidgetsIdempotent | enable-enhanced-features.js:51-116 | a second run of the widget blocks changes and records nothing |
| EnhancedFeatures.WidgetsSilentUnchanged | enable-enhanced-features.js:51-116 | widget blocks that record nothing leave the widgets as they were |
| EnhancedFeatures.CommandObj | enable-enhanced-features.js:135-141 | the pushed command object carries the default's text |
| EnhancedFeatures.AddCommands | enable-enhanced-features.js:143-149 | defines the commands after trying each default in order, appending it when no command has its text; stated in AddCommandsPrefix, AddCommandsPresent, AddCommandsNew and AddCommandsNoop |
| EnhancedFeatures.AddCommandsPrefix | enable-enhanced-features.js:143-149 | existing commands stay in front, and one line is recorded per appended command |
| EnhancedFeatures.AddCommandsPresent | enable-enhanced-features.js:143-149 | afterwards every default's text is present |
| EnhancedFeatures.AddCommandsNew | enable-enhanced-features.js:143-149 | each appended command is a default whose text was absent beforehand |
| EnhancedFeatures.AddCommandsTo | enable-enhanced-features.js:143-149 | the `forEach` loop computes the commands and change lines of the default-command block |
| EnhancedFeatures.AddCommandsNoop | enable-enhanced-features.js:143-149 | when every default's text is already present, nothing is appended or recorded |
| EnhancedFeatures.PriceCheckKeys | enable-enhanced-features.js:53-65 | the eleven price-check keys are distinct and none is `wmType` |
| EnhancedFeatures.ItemCheckKeys | enable-enhanced-features.js:82-86 | the two item-check hotkeys are distinct and neither is `wmType` |
| EnhancedFeatures.GlobalKeys | enable-enhanced-features.js:119-125 | the five global keys are distinct |
| EnhancedFeatures.ScriptSectionsOk | enable-enhanced-features.js:51-116 | the four widget blocks target distinct types and have type-keeping, settling steps |
| EnhancedFeatures.ScriptWidgetsIdempotent | enable-enhanced-features.js:51-116 | the script's widget blocks are idempotent and silent on a second run |
| EnhancedFeatures.ScriptWidgetsSilentIff | enable-enhanced-features.js:51-116 | the widget blocks record a change exactly when they change the widgets |
| EnhancedFeatures.GlobalIdempotent | enable-enhanced-features.js:119-132 | the global block is idempotent and silent on a second run |
| EnhancedFeatures.GlobalSilentIff | enable-enhanced-features.js:119-132 | the global block records a change exactly when it changes the settings |
| EnhancedFeatures.CommandsIdempotent | enable-enhanced-features.js:135-149 | the default-command block is idempotent and silent on a second run |
| EnhancedFeatures.CommandsSilentIff | enable-enhanced-features.js:135-149 | the default-command block records a change exactly when it appends a command |
| EnhancedFeatures.Merged | enable-enhanced-features.js:51-149 | defines the configuration after the four widget blocks, the global settings and the default commands; stated in MergeIdempotent and ConfigEnhancer.Run |
| EnhancedFeatures.MergeChanges | enable-enhanced-features.js:51-149 | defines the change lines in script order: widget blocks, global settings, commands; stated in WrittenIffChanged and ConfigEnhancer.Run |
| EnhancedFeatures.MergeIdempotent | enable-enhanced-features.js:51-149 | running the whole merge on its own output changes nothing and records nothing |
| EnhancedFeatures.WrittenIffChanged | enable-enhanced-features.js:48-152 | the file is written exactly when the merge changed the configuration |
| EnhancedFeatures.ConfigEnhancer.constructor | enable-enhanced-features.js:48 | the loaded configuration, with an empty `changes` array |
| EnhancedFeatures.ConfigEnhancer.EnhanceWidget | enable-enhanced-features.js:51-116 | one widget block updates the widgets in place and appends its change lines; the settings and commands are untouched |
| EnhancedFeatures.ConfigEnhancer.EnhanceGlobal | enable-enhanced-features.js:127-132 | the global block updates the settings and appends its change lines; the widgets and commands are untouched |
| EnhancedFeatures.ConfigEnhancer.AddDefaultCommands | enable-enhanced-features.js:143-149 | the default-command block updates the commands and appends its change lines |
| EnhancedFeatures.ConfigEnhancer.Run | enable-enhanced-features.js:48-163 | the whole script leaves the merged configuration and the merge's change lines, and writes exactly when a change was recorded |
| LibreChat.OrJson | ai-bridge/integrations/librechat.js:27-29 | `context[k] \|\| fallback` |
| LibreChat.Payload | ai-bridge/integrations/librechat.js:25-31 | defines the posted payload: the four fields, then the context's own keys written over them; stated in PayloadFields |
| LibreChat.PayloadKeysDistinct | ai-bridge/integrations/librechat.js:25-31 | the four payload keys are distinct |
| LibreChat.PayloadFields | ai-bridge/integrations/librechat.js:25-31 | the payload has the context's keys plus the four, context values win, and absent keys fall back to the message, the stored ids and the model chain |
| LibreChat.FailureStatus | ai-bridge/integrations/librechat.js:72 | `status \|\| 500` is never 0 and keeps a non-zero status |
| LibreChat.AfterReply | ai-bridge/integrations/librechat.js:46-52 | a failure keeps both ids; each id is replaced only by a truthy one from the reply; a stored truthy id stays truthy |
| LibreChat.ResultOf | ai-bridge/integrations/librechat.js:54-73 | a reply resolves to its text-or-response and ids; a failure to the error message and a non-zero status |
| LibreChat.NextMessageContinues | ai-bridge/integrations/librechat.js:25-52 | after a reply with both ids, the next message without context ids continues that conversation from that message |
| LibreChat.PriceHeadLineFree | ai-bridge/integrations/librechat.js:78-87 | every interpolated line of the price prompt is line-feed free when the item's fields are |
| LibreChat.PriceAnalysisPrompt | ai-bridge/integrations/librechat.js:78-95 | defines the price-analysis template; read back in PriceAnalysisPromptShows |
| LibreChat.PriceAnalysisPromptShows | ai-bridge/integrations/librechat.js:77-98 | read back line by line, the price prompt shows the name, type, " \| "-joined mods, listing count (0 when absent) and search id ("N/A" when falsy) |
| LibreChat.MarketHeadLineFree | ai-bridge/integrations/librechat.js:101-106 | every interpolated line of the market prompt is line-feed free when its fields are |
| LibreChat.MarketAnalysisPrompt | ai-bridge/integrations/librechat.js:101-114 | defines the market-analysis template; read back in MarketAnalysisPromptShows |
| LibreChat.MarketAnalysisPromptShows | ai-bridge/integrations/librechat.js:100-117 | read back line by line, the market prompt names the league twice, the currency and the timestamp |
| LibreChat.CraftHeadLineFree | ai-bridge/integrations/librechat.js:120-125 | the item lines of the crafting prompt are line-feed free when the item's fields are |
| LibreChat.CraftGoalLineFree | ai-bridge/integrations/librechat.js:127-130 | the goal and budget lines of the crafting prompt are line-feed free |
| LibreChat.CraftingAdvicePrompt | ai-bridge/integrations/librechat.js:120-139 | defines the crafting-advice template; read back in CraftingAdvicePromptShows |
| LibreChat.CraftingAdvicePromptShows | ai-bridge/integrations/librechat.js:119-142 | read back line by line, the crafting prompt shows the base, mods, item level ("Unknown" when falsy), goals ("Maximize value") and budget ("Moderate") |
| LibreChat.AnalysisPayload | ai-bridge/integrations/librechat.js:97 | a builder's request carries the prompt as text and "gpt-4" as model, with the stored ids, whatever the environment |
| LibreChat.LibreChatIntegration.constructor | ai-bridge/integrations/librechat.js:16-21 | base URL (default "http://localhost:3080"), 30000 ms timeout, no conversation |
| LibreChat.LibreChatIntegration.SendMessage | ai-bridge/integrations/librechat.js:23-75 | posts the payload to `/api/messages`, updates the context as `AfterReply` says, and resolves as `ResultOf` says |
| LibreChat.LibreChatIntegration.SendPriceAnalysisRequest | ai-bridge/integrations/librechat.js:77-98 | sends the price prompt with model "gpt-4" |
| LibreChat.LibreChatIntegration.SendMarketAnalysisRequest | ai-bridge/integrations/librechat.js:100-117 | sends the market prompt with model "gpt-4" |
| LibreChat.LibreChatIntegration.SendCraftingAdviceRequest | ai-bridge/integrations/librechat.js:119-142 | sends the crafting prompt with model "gpt-4" |
| LibreChat.LibreChatIntegration.ResetConversation | ai-bridge/integrations/librechat.js:164-168 | both ids become `null` |
| LibreChat.ResetStartsFresh | ai-bridge/integrations/librechat.js:164-168 | after a reset, a message without context ids starts a new conversation |
| EnhancedPricing.QueryLeague | renderer/src/web/price-check/price-prediction/ai-enhanced-pricing.ts:35 | the selected league when it is non-empty, else "Hardcore" |
| EnhancedPricing.EnhancedPricing | renderer/src/web/price-check/price-prediction/ai-enhanced-pricing.ts:19-77 | enhanced exactly when insights were obtained and a price exists; source "ai-bridge" exactly when enhanced, "poeprices" exactly after a poeprices success without insights, "fallback" exactly when no price exists; a poeprices price is carried through; the AI fallback price only after a poeprices failure; no price gives the fixed all-failed result |
| EnhancedPricing.DegradedInsightsEnhance | renderer/src/web/price-check/price-prediction/ai-enhanced-pricing.ts:38-60 | a bridge answer whose `aiInsights` is the server's degraded `{ error, fallback: true }` record, beside a standard price, gives an enhanced result from the bridge carrying that record |
| EnhancedPricing.GetEnhancedPricing | renderer/src/web/price-check/price-prediction/ai-enhanced-pricing.ts:16-78 | the sequential updates compute that result, and the bridge is queried (with the selected league or "Hardcore") exactly when the health check returned true |
| EnhancedPricing.AIEnhancementAvailable | renderer/src/web/price-check/price-prediction/ai-enhanced-pricing.ts:136-142 | true exactly when the health check resolved to true; false when it throws |
| EnhancedPricing.MarketInsights | renderer/src/web/price-check/price-prediction/ai-enhanced-pricing.ts:83-96 | the analysis exactly when the bridge is healthy and answered, else `null`; queried only when healthy, currency "divine" when omitted |
| EnhancedPricing.AskAboutItem | renderer/src/web/price-check/price-prediction/ai-enhanced-pricing.ts:101-113 | the answer exactly when healthy and answered; "AI assistant is currently unavailable" when unhealthy; a thrown health check is rethrown |

## Left out

- Logging, console output, and the wall clock. Timestamps are opaque string inputs.
- Request timeouts (5 s, 10 s, 15 s, 30 s) as time. A timeout is an `Err` outcome. The constants are kept only where the source stores them.
- HTTP plumbing: the Express setup, helmet, cors, the JSON body parser, the 404 and error handlers, `app.listen`, the signal handlers and `GET /health`.
- The `/api/chat` relay endpoint in ai-bridge/server.js. It only forwards to the chat service.
- The rate-limiter library's code is not part of this model. `AiBridgeServer.Consume` states the fixed-window behaviour that ai-bridge/server.js:28-32 configures: a window opens at its first request, every request consumes one point, and a request is rejected once more than 45 points are consumed before the window's 60 000 ms expire. The library's timers and storage are not modelled.
- The fixed fields of the trade-search payload (status "online", price ascending) and the request headers. Only the league and the outcome matter to the model.
- AiBridgeServer.PriceCheck: for truthy `itemText` that is not a string, the 500 message is assumed to be the runtime's "itemText.split is not a function".
- AiBridgeServer.RoundHalfUp: JSON numbers are exact rationals, not IEEE doubles.
- JsStrings.IntToString: prints the plain decimal digits of an unbounded integer. JavaScript's `String(n)` works on doubles and switches to exponent notation from 1e21. The listing count (`${priceData.total || 0}` in ai-bridge/server.js:237 and ai-bridge/integrations/librechat.js:86) and the item level (librechat.js:125) render through it.
- String lengths are counted in characters, not UTF-16 code units. This matters for the 100-character name limit and the 3-character type rule.
- In safe-data-parser.js, these have no model:
  - `addItemManually`, `question` and `main` (readline and the command line);
  - `importCommunityData`, `logMissingItem` and `backupData` (filesystem);
  - the audit-log entry of `saveItem`.

  `saveItem` calls `backupData` before validating. That file copy is not modelled.
- SafeData.SafeDataParser.SafeApiCall: the `setTimeout` sleep is returned as a wait duration rather than awaited. The endpoint and data arguments are unused in the source.
- In enable-enhanced-features.js:
  - reading, backing up and writing the configuration file;
  - `process.exit` on a write failure;
  - the summary and hotkey printout (lines 166-221).
- EnhancedFeatures: widgets are modelled as objects and `widgets`/`commands` as arrays or absent. A non-object widget, or a `widgets`/`commands` value of another type, is not modelled.
- EnhancedFeatures.Render: a change line renders booleans, strings and whole numbers as JavaScript does. Every value in the script's tables is one of these. A fractional number renders as its floor, and `null`, arrays and objects render as empty text.
- EnhancedFeatures.AddCommandsTo: the `config.commands` test is taken once, before the loop. The script repeats it for each default, but nothing in the loop can change it.
- LibreChat: `healthCheck` is not modelled; it is a GET whose result is only reported.
- LibreChat: `process.env.LIBRECHAT_DEFAULT_MODEL` is a parameter.
- LibreChat: a reply with no `data` is not modelled.
- LibreChat: a context value that is present but `undefined` is not distinguished from an absent key.
- EnhancedPricing: two functions are not modelled, because they only forward to the bridge client's `enabled` flag, and the client is not part of this model:
  - `configureAIEnhancements`;
  - `getAIStatus` (which always reports `healthy: false`).
- EnhancedPricing: of an answered insight record, only `analysis`, `confidence` and `source` are kept. Of the server's degraded record, only `error` is kept; its `fallback: true` is implied by the `InsightsUnavailable` variant. Of the bridge's `pricing`, only `error` is kept. The other fields are carried through untouched in the source and play no part in its decisions.
- EnhancedPricing: the parsed item passed to the calls is not modelled. The outcomes stand for the calls made with it.
