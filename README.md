# NiveshIPO dashboard logic, modelled in Dafny

NiveshIPO is a React dashboard for Indian IPOs. It asks a generative model
for live listings and for a risk analysis of one listing, and it offers a
chat assistant, a community board and a news ticker. The logic under the
markup is small. Untrusted AI text must be turned into JSON and then into
records. Those records are reconciled with a three-record fallback
fixture, de-duplicated by symbol and filtered. A handful of widgets keep
small state machines.

The project models that logic, one module per source file:

- `Json` (JSON values and JavaScript truthiness) and `JsText` (`trim`,
  `toLowerCase`, `includes`, `split`, decimal numbers) hold the JavaScript
  built-ins the code relies on.
- `Types` holds the types of `types.ts` as datatypes.
- `Constants` holds the `MOCK_IPOS` fixture with day-number dates.
- `GeminiService` holds source extraction, `parseJsonFromText` with its two
  regex searches written as index searches, the array coercion of
  `getLiveIPOData` and the field defaulting of `getRiskAnalysis`.
- `App` holds `calculateStatus`, `processItems`, the symbol de-duplication,
  the catch path, the `fetchData` state update (class `Dashboard`) and the
  `filteredIpos` predicate.
- `ChatBot` holds `FormattedMessage` (lines, `**bold**` runs, bullets) and the
  chat panel's send/receive cycle (class `ChatPanel`).
- `Community` holds codenames and the post cycle with its stored list
  (class `Board`).
- `RiskEngine` holds the weight sliders, the analysis lifecycle (class
  `Panel`) and the display fallbacks.
- `NewsTicker` holds the doubled list and its row keys.

Several inputs are parameters of the model rather than parts of it:

- `JSON.parse` is a function parameter `parse`; `None` means it throws.
- Date parsing is a parameter `toDay`; `None` is an invalid date.
- Dates are day numbers, and "today" is an argument.
- The assistant calls are `CallOutcome` values: a returned reply or a throw.
- `Math.random` draws, generated ids and the clock label are arguments.

Reconciled listings are `map<string, JValue>` records. The code spreads the
AI item over a fixture record, so a listing holds whatever values the AI
sent, not a checked `IPO`.

## Model

| member | source | states |
|---|---|---|
| GeminiService.KeptIndicesSpec | services/geminiService.ts:10-11 | the filter keeps exactly the chunks whose `web.uri` is set, at increasing positions |
| GeminiService.SourcesOfFrom | services/geminiService.ts:10-15 | the k-th mapped source is built from the k-th kept chunk |
| GeminiService.ExtractSourcesKeepsUriChunks | services/geminiService.ts:7-15 | sources are, in order, exactly the chunks with a URI; the URI is copied and the title is `web.title` or else `'Source'` |
| GeminiService.FindFrom | services/geminiService.ts:21 | the search returns the first occurrence at or after the start, and None only when there is none |
| GeminiService.FindFenceIsLeftmostShortest | services/geminiService.ts:21 | the fence search finds the leftmost ```` ```json\n ```` and the nearest closing fence after it (a lazy match), or None when no match exists |
| GeminiService.LastIndex | services/geminiService.ts:21 | the last position of a character, or None when it does not occur |
| GeminiService.FindBracketFromSpec | services/geminiService.ts:21 | from a start position, the bracket search finds the leftmost `{`/`[` and the farthest matching closer (a greedy match) |
| GeminiService.FindBracketIsLeftmostLongest | services/geminiService.ts:21 | over the whole text, the bracket match is leftmost and then longest, or None when no pair exists |
| GeminiService.CandidateBounds | services/geminiService.ts:21-27 | the slice handed to `JSON.parse` lies within the text |
| GeminiService.ParseJsonFromTextSpec | services/geminiService.ts:19-33 | never throws; parses the interior of the regex's first fence (the whole fence when the interior is empty), else the leftmost-longest brace or bracket span, else the whole text, and gives `null` when that parse fails; a first match exists whenever either pattern matches |
| GeminiService.FencedBlockIsParsed | services/geminiService.ts:21-24 | a first fence with a non-empty interior has exactly that interior parsed, whatever follows |
| GeminiService.EmptyFenceParsesWholeFence | services/geminiService.ts:21-24 | an empty fence interior is falsy, so the whole fence, backticks included, is parsed |
| GeminiService.UnfencedCandidate | services/geminiService.ts:21-27 | without a fence the leftmost-longest bracket span is parsed; with neither, the whole text is parsed and a failure gives `null` |
| GeminiService.GetLiveIpoData | services/geminiService.ts:46-66 | the data is an array kept as is, else the object's array `ipos` (tried before `data`), else its array `data`, else `[]`; the sources are the extracted ones; a throw gives two empty lists |
| GeminiService.Defaulted | services/geminiService.ts:98-111 | each field is the parsed value when truthy, else its named default; each list is the parsed array when non-empty, else its default list; the result is fully populated |
| GeminiService.GetRiskAnalysis | services/geminiService.ts:95-129 | every field is the parsed value if truthy, else its named default; the lists are kept only as non-empty arrays; the sources are the extracted ones; a throw gives the fixed error analysis; the result is always fully populated |
| GeminiService.EmptyObjectGetsDefaults | services/geminiService.ts:99-111 | a reply parsing to `{}` gets every named default ('Moderate' levels, score 50, the default persona and texts) |
| GeminiService.ZeroScoreBecomesFifty | services/geminiService.ts:108 | a parsed suitability score of 0 is falsy and becomes 50 |
| Constants.DateMinus | constants.ts:5-12 | `dateMinus(n)` is a date text that reads back as the day n days before today |
| Constants.DatePlus | constants.ts:14-18 | `datePlus(n)` is a date text that reads back as the day n days after today |
| Constants.MockIposDateTexts | constants.ts:30-102 | every stored date text of the fixture, and TechVeda's `updatedAt`, is the `dateMinus`/`datePlus` text of its offset |
| Constants.MockIposShape | constants.ts:20-117 | three records, ids '1','2','3', symbols TECHVEDA, NXGN, GGRID, pairwise distinct |
| Constants.MockIposDates | constants.ts:30-102 | the offsets are (−25,−22,−15), (−1,+2,+8), (+15,+18,+25), so every record opens, then closes, then lists |
| Constants.OnlyGreenGridLacksSubscription | constants.ts:38-117 | only the GGRID record has no subscription snapshot |
| Constants.FallbackRecordFacts | constants.ts:21-56 | the first record, the one every AI item is overlaid on, has score 35 and a subscription |
| Types.ReadDayString | constants.ts:6 | a day written into a record is read back as the same day |
| JsText.TrimIsEmptyIffBlank | components/ChatBot.tsx:45 | `s.trim()` is empty exactly when `s` is all whitespace; otherwise it starts with the first non-blank character |
| JsText.ToLowerIdempotent | App.tsx:82-84 | a lower-cased text holds no upper-case ASCII letter, and lower-casing it again changes nothing |
| JsText.IncludesToLower | App.tsx:82-84 | a text that occurs in another still occurs after both are lower-cased, so the search ignores case |
| JsText.SplitJoin | components/ChatBot.tsx:7 | the pieces of `split('\n')` join back to the text, and none holds a newline |
| JsText.SplitAfterWord | components/Community.tsx:166 | a word followed by the separator is the first piece of the split |
| JsText.NatToStringRoundTrip | components/NewsTicker.tsx:22 | reading the decimal digits of an index gives the index back |
| JsText.NatToStringInjective | components/NewsTicker.tsx:22 | distinct indices have distinct decimal forms |
| JsText.AfterLastOfJoin | components/NewsTicker.tsx:22 | in `id + "-" + digits`, the text after the last dash is the digits |
| App.ClosedWins | App.tsx:30-38 | a valid close date before today makes an item Closed, even when it opens in the future |
| App.MissingDatesAreLive | App.tsx:33-37 | an item without usable dates is Live |
| App.StatusFollowsWindow | App.tsx:35-37 | with valid dates, Closed after the close date, Upcoming before the open date, else Live |
| App.RecordStatusIsWindow | App.tsx:30-38 | a fixture record's stored dates give the status of its window |
| App.RiskBreakpoints | App.tsx:55 | scores 39/40/69/70 give Low/Moderate/Moderate/High |
| App.LevelIsMonotone | App.tsx:55 | a higher score never gives a lower level |
| App.LevelBands | App.tsx:55 | Low iff score < 40, Moderate iff 40 ≤ score < 70, High iff score ≥ 70 |
| App.MissingOrZeroScoreIsModerate | App.tsx:55 | a missing score or a score of 0 defaults to 50, which is Moderate |
| App.IndexKeysSpec | App.tsx:52 | spreading an array contributes exactly one key per index, the index in decimal |
| App.OverlayOfThree | App.tsx:50-56 | in `{...base, ...top, ...last}` the keys are the union, `top` wins over `base`, and `base` fills the rest |
| App.ProcessedRecordOverlay | App.tsx:50-54 | a processed record has the fallback's, the item's and the three computed keys; item fields override the fallback's |
| App.ProcessedRecordComputed | App.tsx:53-55 | the id is the item's id if truthy, else the generated token; the status and level are recomputed from the raw item |
| App.MapOrThrow | App.tsx:50-56 | a map that does not throw has one result per element |
| App.MapOrThrowSpec | App.tsx:50-56 | the map throws exactly when some callback throws; otherwise element k is the callback on item k |
| App.ProcessItems | App.tsx:48-57 | a non-array gives `[]`; an array gives one record per item |
| App.ProcessItemsSpec | App.tsx:48-57 | processing throws exactly when an item is `null`; otherwise record k is the processed item k |
| App.FixtureIsConsistent | constants.ts:20-117 | on its load day every fixture record's stored status and level equal what the reconciler derives |
| App.RecordLevelAgrees | App.tsx:55 | a record with a non-zero score gets back the level its score band gives |
| App.ProcessingKeepsConsistentRecord | App.tsx:60 | processing a consistent fixture record keeps every stored field |
| App.MissingScoreKeepsFallbackScore | App.tsx:51-55 | an AI item without a score carries the fallback record's score (35 for the fixture) but level Moderate |
| App.ScoreFromFallback | App.tsx:51-55 | for any fallback record holding a score, an item without one takes that score and is rated Moderate |
| App.MissingSubscriptionIsBorrowed | App.tsx:51-52 | a listing without a subscription snapshot shows the fallback's |
| App.FindIndex | App.tsx:63 | `findIndex` returns the first position whose symbol is `===` to the element's |
| App.Kept | App.tsx:62-64 | the kept positions lie within the list |
| App.KeptSpec | App.tsx:62-64 | the filter keeps, in increasing order, exactly the positions that are their own first occurrence |
| App.FindIndexIsFirst | App.tsx:63 | a first occurrence is its own first occurrence |
| App.DedupSymbolsAreUnique | App.tsx:62-64 | no two merged records share a symbol that `===` compares by value |
| App.DedupKeepsFirstOccurrences | App.tsx:62-64 | the merged list is the first occurrences, in input order, and every record's first occurrence is kept |
| App.FindIndexOfPrefix | App.tsx:63 | appending records does not change the first occurrence found in the prefix |
| App.KeptOfAppend | App.tsx:62-64 | the positions kept from `a + b` are those kept from `a`, then the rest |
| App.DedupOfAppendKeepsPrefix | App.tsx:62-64 | de-duplicating `a + b` starts with de-duplicated `a`, unchanged |
| App.DedupTailElement | App.tsx:62-64 | a record after that prefix comes from the fixture and shares no comparable symbol with any AI record |
| App.AiRecordsWin | App.tsx:59-64 | AI records come first and win over fixture records with the same symbol |
| App.AsObjects | App.tsx:60 | the fixture handed to `processItems` is one object per record |
| App.KeptAll | App.tsx:62-64 | with pairwise distinct symbols every position is kept |
| App.DedupOfDistinct | App.tsx:62-64 | de-duplicating records with pairwise distinct symbols is the identity |
| App.ProcessedFixture | App.tsx:60 | processing consistent fixture records throws for none, and record k keeps every stored field and symbol of fixture record k |
| App.EmptyReplyShowsProcessedFixture | App.tsx:59-64 | with no AI items, consistent records and distinct symbols, the merged list is the processed fixture, record for record, each keeping its stored fields |
| App.FailedFetchShowsFixture | App.tsx:59-69 | when the service call throws, the list is TECHVEDA, NXGN, GGRID in that order, each with every stored field, and GGRID shows TECHVEDA's subscription |
| App.CatchPathSpec | App.tsx:69 | on any day and with any date reader, the catch path has one record per fixture record, each with the stored record's keys, its status recomputed and every other stored value (the risk level included) kept |
| App.CatchPathIsStoredFixture | App.tsx:69 | on a day where the fixture is consistent, the catch path is the fixture as stored |
| App.ReconcileCatchesNull | App.tsx:59-69 | a `null` item sends the fetch to the catch path; otherwise the list is the merge of processed AI and fixture records |
| App.Dashboard.constructor | App.tsx:13-20 | nothing fetched, no sources, loading |
| App.Dashboard.FetchData | App.tsx:41-73 | loading ends; when the service settles, sources and refresh label are set and the list is the reconciled one; when it rejects (the client constructor throws outside the service's `try`), sources and label are unchanged and the list is the catch path |
| App.PulseLabel | App.tsx:124 | the header label is never empty: the refresh label once set, else the syncing text |
| App.FilteredIposSpec | App.tsx:77-104 | throws iff some record's callback throws; otherwise a sublist holding exactly the records shown |
| App.FilterOfAppend | App.tsx:77 | the filter preserves order: filtering `a + b` is filtering `a`, then `b` |
| App.EmptySearchShowsAll | App.tsx:81-84 | an empty term with no status or type filter shows every record with a string name |
| App.NonStringNameThrows | App.tsx:81-82 | a record without a string company name makes the filter throw |
| App.ClosedWindow | App.tsx:89-94 | under 'Closed', a Closed record shows iff its close date is within 30 days, or is invalid |
| App.ExactFilters | App.tsx:95-101 | the Live/Upcoming and type filters are exact comparisons |
| ChatBot.BoldEnd | components/ChatBot.tsx:11 | a bold match spans at least four characters and stays within the line |
| ChatBot.BoldEndToken | components/ChatBot.tsx:11 | a match is `**`, a text without line terminators or inner `**`, then `**` |
| ChatBot.ConcatAppend | components/ChatBot.tsx:11 | concatenation distributes over appended part lists |
| ChatBot.SplitFromConcat | components/ChatBot.tsx:11 | the split from any position loses nothing: its parts join back to the text from that position |
| ChatBot.SplitFromAlternates | components/ChatBot.tsx:11 | the split from any position has an odd number of parts, and exactly the odd-indexed ones are `**…**` matches |
| ChatBot.SplitBoldSpec | components/ChatBot.tsx:11 | the parts concatenate back to the line, there is an odd number of them, and every odd-indexed part is a bold match |
| ChatBot.EmptyLineOnePart | components/ChatBot.tsx:11 | an empty line splits into one empty part |
| ChatBot.RenderPart | components/ChatBot.tsx:16-19 | a part is bold iff it starts and ends with `**`; a bold part's text drops two characters at each end |
| ChatBot.MatchedRunsRenderBold | components/ChatBot.tsx:16-17 | every matched run renders bold without its stars |
| ChatBot.BareStarsRenderEmptyBold | components/ChatBot.tsx:16-17 | `**` and `***` render as empty bold text |
| ChatBot.RenderParts | components/ChatBot.tsx:15-20 | one piece per part, in order |
| ChatBot.BulletIffFirstMark | components/ChatBot.tsx:12 | a line is a bullet iff its first non-blank character is `-` or `*` |
| ChatBot.BoldOpeningIsBullet | components/ChatBot.tsx:12 | a line opening with `**` is a bullet |
| ChatBot.RenderLines | components/ChatBot.tsx:10-23 | one paragraph per line, in order, with its bullet flag and pieces |
| ChatBot.FormattedMessageFollowsLines | components/ChatBot.tsx:6-26 | one paragraph per newline-separated line; the lines join back to the text |
| ChatBot.RoleNamesDistinct | components/ChatBot.tsx:52 | 'user' and 'model' differ, so the history keeps who spoke |
| ChatBot.History | components/ChatBot.tsx:52 | one entry per message, in order, with its text; user → 'user', ai → 'model' |
| ChatBot.VisibleSources | components/ChatBot.tsx:137-139 | at most the first three sources are shown |
| ChatBot.ChatPanel.constructor | components/ChatBot.tsx:30-34 | no messages, empty input, not loading, no mic error |
| ChatBot.ChatPanel.Send | components/ChatBot.tsx:42-52 | a blank message (override, else input) or a pending reply changes nothing; otherwise the input and mic error are cleared, the user message is appended, loading starts, and the history sent excludes the new message |
| ChatBot.ChatPanel.Receive | components/ChatBot.tsx:53-56 | runs only while a send is loading; a reply appends an AI message with its text and sources and ends loading; a failed call leaves loading on |
| ChatBot.Exchange | components/ChatBot.tsx:42-56 | on a fresh panel, a blank question sends nothing and shows nothing; a non-blank question then a reply leaves exactly those two messages and loading over |
| Community.Pick | components/Community.tsx:8-9 | `floor(random * n)` is an index below n |
| Community.TagNumber | components/Community.tsx:10 | the codename number lies between 100 and 998 |
| Community.NoSpaceInWords | components/Community.tsx:6-7 | no adjective or noun contains a space |
| Community.CodenameShape | components/Community.tsx:5-11 | a codename is three words: a listed adjective, a listed noun, and `#` with a number from 100 to 998 |
| Community.NewPost | components/Community.tsx:50-56 | the new message has the captured text and channel and the timestamp 'Just now' |
| Community.Board.constructor | components/Community.tsx:15-18 | empty list and draft, channel 'suggestion', not transmitting |
| Community.Board.Load | components/Community.tsx:20-42 | the stored list if present, else the two seed messages with ids '1' and '2' |
| Community.Board.Edit | components/Community.tsx:119 | typing changes only the draft |
| Community.Board.TypeChange | components/Community.tsx:66-68 | only the selected channel changes |
| Community.Board.Submit | components/Community.tsx:44-49 | a blank draft or a post in flight is ignored; otherwise transmission starts and the draft, channel and list are captured |
| Community.Board.Complete | components/Community.tsx:49-63 | the new message goes first and the captured list follows unchanged; storage holds exactly that list; the draft is cleared; transmission ends |
| Community.PostWhileEditing | components/Community.tsx:44-68 | text typed and a channel chosen during transmission are not posted, and the draft ends empty |
| RiskEngine.WithWeight | components/RiskEngine.tsx:69 | only the moved key changes |
| RiskEngine.WithWeightLastWins | components/RiskEngine.tsx:69 | moving one slider twice keeps the last position |
| RiskEngine.WithWeightCommutes | components/RiskEngine.tsx:69 | moves of two different sliders commute |
| RiskEngine.Panel.constructor | components/RiskEngine.tsx:11-17 | weights 40/40/20, no analysis, not loading |
| RiskEngine.Panel.SetWeight | components/RiskEngine.tsx:64-69 | the moved key takes a value in 0..100, and the other weights stay |
| RiskEngine.Panel.Start | components/RiskEngine.tsx:19-22 | loading starts; the listing and weights are sent; the shown analysis stays |
| RiskEngine.Panel.Finish | components/RiskEngine.tsx:22-28 | a result replaces the analysis, a failure keeps the old one, and loading always ends |
| RiskEngine.Panel.Launch | components/RiskEngine.tsx:77-79 | the button does nothing while loading |
| RiskEngine.Panel.IpoChanged | components/RiskEngine.tsx:31-33 | a new listing restarts the analysis for it |
| RiskEngine.ShowSummary | components/RiskEngine.tsx:126-130 | the summary is quoted iff it is truthy and not "Analysis unavailable." |
| RiskEngine.RingOffsetInCircle | components/RiskEngine.tsx:157 | for a score in [0,100] the ring offset lies in [0,502] |
| RiskEngine.RingOffsetDecreases | components/RiskEngine.tsx:157 | a higher positive score fills more of the ring |
| RiskEngine.ZeroScoreRingAndLabelDisagree | components/RiskEngine.tsx:157-163 | a score of 0 draws a half ring but is labelled 0 |
| RiskEngine.ShowOutlook | components/RiskEngine.tsx:181 | the outlook, or the pending sentence when it is falsy |
| RiskEngine.ShowList | components/RiskEngine.tsx:194-230 | a list is shown item by item iff non-empty, else its placeholder note |
| RiskEngine.ShowSources | components/RiskEngine.tsx:235 | the sources block appears iff there are sources |
| RiskEngine.ServiceAnalysisShowsLists | components/RiskEngine.tsx:181-230 | an analysis from the service always shows both lists and its own outlook; the error analysis shows no sources |
| RiskEngine.ServiceSummaryQuoted | components/RiskEngine.tsx:126-130 | a service summary shows the placeholder only when it is exactly "Analysis unavailable." |
| RiskEngine.Analyse | components/RiskEngine.tsx:19-33 | a run on a new listing sends the initial weights, stores the service's analysis and ends loading |
| NewsTicker.DoubleNews | components/NewsTicker.tsx:12 | length 2n, and item i equals item i+n |
| NewsTicker.Rows | components/NewsTicker.tsx:20-22 | one row per item, in order, row i keyed `${id}-${i}` |
| NewsTicker.Render | components/NewsTicker.tsx:10-12 | nothing for an empty list, else 2n rows |
| NewsTicker.RowKeyIndex | components/NewsTicker.tsx:22 | the text after a key's last dash is its index |
| NewsTicker.RowKeysDistinct | components/NewsTicker.tsx:20-22 | all row keys are pairwise distinct, though each item appears twice |
| NewsTicker.SecondHalfRepeatsFirst | components/NewsTicker.tsx:12 | the second half of the ticker repeats the first |

## Left out

- The generative-model calls, their prompts and configuration are not modelled. A call is a returned reply or a throw caught inside the service; for `getLiveIPOData`, a rejection from the client constructor (services/geminiService.ts line 36, outside the `try`) is the `Rejected` case of `FetchData`.
- `chatWithFinancialAI` and `transcribeAudio` are imported by the chat panel. They are not defined in services/geminiService.ts and are not part of this model. A chat reply, or its failure, is an input of `ChatPanel.Receive`.
- `JSON.parse` is not modelled; it is the parameter `parse`. The JavaScript regex engine is replaced by index searches, proved to give the leftmost lazy (fence) and leftmost greedy (bracket) matches.
- `Date`, time zones, `toISOString` and `toLocaleTimeString` are not modelled:
  - Dates are day numbers, written into records as decimal text (`DayString`) and read back by `ReadDay`.
  - Other date texts go through the `toDay` parameter.
  - The 30-day window of the Closed filter is a difference of day numbers; `Math.ceil` of a millisecond difference is not modelled.
  - The refresh label is the argument `clockLabel`.
- The `console.warn` and `console.error` calls are not modelled (services/geminiService.ts lines 30, 64 and 115; App.tsx line 68; components/ChatBot.tsx line 84; components/RiskEngine.tsx line 25). They only log.
- App.WindowStatus compares day numbers and ignores time zones. In App.tsx lines 31-34, `today` is local midnight but `new Date("YYYY-MM-DD")` is UTC midnight. East of UTC (India, for example), a listing on its opening day is therefore Upcoming in the program, while `WindowStatus` says Live.
- App.ToNumber: strings are read as optionally signed decimal integers. Decimal fractions, exponents, hexadecimal, a leading `+` and `Infinity` are treated as NaN, so `RiskLevelOf` is weaker than `Number()` for those strings. An object is always NaN; `valueOf` and `toString` overrides are not modelled.
- JsText.ToLower folds ASCII letters only; Unicode case mapping is not modelled.
- Spreading a string gives one key per UTF-16 code unit in JavaScript. The model uses one key per `char`.
- App.SameSymbol: an array or object symbol counts as the same symbol only at the same position. This assumes distinct records never share one parsed object.
- The generated ids come from one `tokens` function shared by both `processItems` calls. Only the AI items' ids are visible, because the fixture records all carry ids.
- `localStorage` is a map from key to the stored list. JSON serialisation, a stored value that fails to parse, and a stored empty string are not modelled.
- The `setTimeout` delay of a community post is the separate `Board.Complete` step.
- The microphone, `MediaRecorder` and `FileReader`, auto-scrolling, the dark-mode toggle, the chat panel's open state and the selected-listing modal are not modelled.
- Async ordering is not modelled. An older analysis finishing after a newer one, or a reply arriving after the panel closes, are outside the model.
- Layout, IPODetailModal, MarketStats, RiskBadge and IPOCard are presentation only; IPOCard's `min(retail*10, 100)` bar width is not modelled.
- RiskEngine.RingOffset: the ring arithmetic uses exact reals; floating-point rounding is not modelled.
