# WhatsApp trading bot — a verified model of its core

The bot receives chart screenshots over WhatsApp, has them analysed, and replies with an
analysis in Smart Money Concept terms. This project models the parts of it that make
decisions. Each part is proved against a specification.

- **The delivery and connection layer** (`WhatsApp.WhatsAppService`). It covers:
  - readiness and its counters across the `qr`, `ready`, `auth_failure` and `disconnected` events;
  - bounded reconnection;
  - a per-chat sliding-window rate limiter;
  - the queue of messages held back while the client is not ready, and its drain with a
    five-minute staleness cut-off;
  - the line-greedy message splitter with hard splitting of over-long lines;
  - the bounded retry of `sendMessage`;
  - media validation and download.

  The WhatsApp client is a transport (`WhatsApp.Client`) whose calls either deliver or throw,
  scripted by a list of outcomes. Time is an integer field that the program's own timers
  advance by what a Node.js timer waits; transport calls take no time.
- **The rule-based half of the trading service** (`Trading`). It covers:
  - the keyword classifiers for direction, liquidity and confidence;
  - take-profit numbering and notes over the captures of the extraction patterns;
  - the risk/reward guards;
  - the ordered validation error list;
  - the plan-rule builders;
  - the analysis cache with its one-hour time-to-live (`Trading.TradingService`).
- **The table of saved analyses** (`AnalysisStore.AnalysisModel`). The JSON file becomes a
  sequence field. The table supports:
  - append with a cap of 1000;
  - per-user newest-first queries;
  - look-up and update by id;
  - statistics;
  - age-based deletion.
- **The configuration list parsers** (`WhatsAppConfig`). These are `parseGroupIds` and
  `parsePhoneNumbers` with its country-code rule, plus the configuration defaults.
- **The environment-driven helper predicates** (`Helpers`). These are the user, group and
  image-format checks.

Supporting modules:

- `Wrappers` holds `Option`.
- `Delivery` is the functional specification of the delivery path (`sendMessage`, `sendMedia`, the drain of
  `processMessageQueue`) over the state it touches: the rate-limit entries, the clock, the transport's
  scripted outcomes and what has been delivered. The service's methods are proved to compute exactly
  these functions, and the delivery properties are lemmas about them.
- `Seqs` holds `Filter` and `Count` with their lemmas, and the associativity of concatenation.
- `JsString` writes out the JavaScript string operations the source relies on: `trim`, `split`,
  `includes`, `startsWith`, `replace`, ASCII `toLowerCase`, `join` and number formatting.
- `MessageSplit` is the functional specification of the splitter.
- `RateLimit` is the functional specification of one rate-limit decision.

How the model differs from how the system is usually described:

- `splitMessage` is not lossless. Chunks are trimmed, so the newlines between chunks and the
  indentation at a chunk's start are lost (`MessageSplit.IndentationLost`).
- A gathered text made only of blank lines is pushed as an empty message
  (`MessageSplit.BlankLinesGiveEmptyMessage`).
- `sendMedia` rejects nothing. It performs no format or size validation and never retries.
  Validation happens only in `downloadMedia`.
- A retry of `sendMessage` is a full new call. It checks the rate limit again, uses up a
  further slot, and resends every chunk of the message, including chunks that were already
  delivered (`Delivery.RetryRechecks`).
- `auth_failure` restarts the client every time. There is no fail-fast on repeated failures.
- The `qr` handler and `handleDisconnection` read `qrCodeRetries` and `restartDelay` from
  `config.client`, which `getClientConfig()` never sets. As written, the QR limit is never reached and
  every reconnection waits 1 ms (see Findings).
- The drain does not stop when the connection leaves the ready state mid-drain. In the source,
  such an item would be queued again by `sendMessage`.
- The comma lists of the helper predicates are compared without trimming, so `"627, 628"` does
  not authorize `"628"` (`Helpers.EntriesNotTrimmed`). The lists read by the service are
  trimmed (`WhatsAppConfig.ParseGroupIds`).
- `extractConfidenceFromText` reads "kurang yakin" ("not quite sure") as high confidence,
  because the text contains "yakin". The table-driven `extractConfidence` reads it as low
  (`Trading.DoubtReadAsHigh`).

## Model

| member | source | states |
|---|---|---|
| WhatsAppConfig.ParseGroupIds | src/config/whatsapp.js:129-136 | a missing or empty input gives no ids; there are never more ids than comma segments |
| WhatsAppConfig.GroupIdsTrimmed | src/config/whatsapp.js:132-135 | no group id is empty, and every id is already trimmed |
| WhatsAppConfig.GroupIdsInOrder | src/config/whatsapp.js:132-135 | the ids of `a,b` are the ids of `a` followed by the ids of `b`: input order is kept |
| WhatsAppConfig.GroupIdMembership | src/config/whatsapp.js:132-135 | a string is an id exactly when some comma segment trims to it and it is not empty |
| WhatsAppConfig.ParsePhoneNumbers | src/config/whatsapp.js:113-127 | a missing or empty input gives no numbers; otherwise one number per group id, in order, each under the country-code rule |
| WhatsAppConfig.LocalNumberGetsCountryCode | src/config/whatsapp.js:122-124 | a number starting with neither "+" nor "62" gets "62" in front |
| WhatsAppConfig.InternationalPlusDropped | src/config/whatsapp.js:125 | "+62…" becomes "62…" |
| WhatsAppConfig.CountryCodeKept | src/config/whatsapp.js:125 | a number starting with "62" keeps its start, and only the first later "+" is removed |
| Helpers.IsAuthorizedUser | src/utils/helpers.js:15-20 | unset or empty ADMIN_NUMBERS lets everyone in; otherwise the number must equal one comma-split entry |
| Helpers.IsAuthorizedGroup | src/utils/helpers.js:22-28 | the same two rules over ALLOWED_GROUPS |
| Helpers.ListedEntryAuthorized | src/utils/helpers.js:15-28 | every entry of a comma-joined list authorizes itself as a user and as a group |
| Helpers.EntriesNotTrimmed | src/utils/helpers.js:18-19 | entries are compared untrimmed: "627, 628" does not authorize "628" |
| Helpers.IsValidImageFormat | src/utils/helpers.js:46-54 | valid exactly when the mimetype has a second "/"-field and that field is in the supported list |
| Helpers.NoSlashRejected | src/utils/helpers.js:51-53 | a mimetype without "/" is always rejected |
| Helpers.DefaultFormats | src/utils/helpers.js:48-50 | with SUPPORTED_FORMATS unset the list is jpg, jpeg, png, webp |
| Helpers.SubtypeDecides | src/utils/helpers.js:51-53 | for `kind/subtype` the subtype alone decides |
| MessageSplit.RunLength | src/services/whatsappService.js:328-330 | the greedy match of `.{1,k}` is at most k long, holds no line terminator, and stops only at a terminator, the end, or k |
| MessageSplit.HardSplit | src/services/whatsappService.js:326-331 | an over-long line is split only when maxLen > 50 and the expression matches something; otherwise the source throws |
| MessageSplit.PieceBounded | src/services/whatsappService.js:328-331 | every hard-split piece is 1 to maxLen − 50 characters long and holds no line terminator |
| MessageSplit.PiecesConcat | src/services/whatsappService.js:328-331 | the pieces put together are the line with its line terminators removed, in order |
| MessageSplit.CeilDiv | src/services/whatsappService.js:328-331 | the fewest blocks of k that hold n: (r − 1)·k < n ≤ r·k |
| MessageSplit.PiecesCount | src/services/whatsappService.js:328-331 | a terminator-free line is cut into ceil(length / k) pieces |
| MessageSplit.PiecesLossless | src/services/whatsappService.js:328-331 | a terminator-free line is recovered exactly from its pieces |
| MessageSplit.ChunksFit | src/services/whatsappService.js:308-345 | every message `splitMessage` returns is at most maxMessageLength long |
| MessageSplit.LongLineSplit | src/services/whatsappService.js:319-331 | one over-long line becomes its pieces, which concatenate back to the line, ceil(length / (maxLen − 50)) of them |
| MessageSplit.NineThousandIsThreeMessages | src/services/whatsappService.js:326-331 | under the default limit of 4000, a 9000-character line goes out as three messages |
| MessageSplit.StepGathers | src/services/whatsappService.js:335-337 | a line that still fits is appended, with its newline, to the gathered text |
| MessageSplit.StepStartsAfresh | src/services/whatsappService.js:320-334 | a line that does not fit flushes the gathered text, trimmed, and starts a new one |
| MessageSplit.FinishTrims | src/services/whatsappService.js:340-342 | the last gathered line is pushed without its newline |
| MessageSplit.SplitMessageEndsOn | src/services/whatsappService.js:338-344 | a loop that ends on a gathered line returns the earlier messages followed by that line |
| MessageSplit.IndentationLost | src/services/whatsappService.js:320-342 | the split is not lossless: with limit 3, "  a\nb" becomes ["a", "b"] |
| MessageSplit.BlankLinesGiveEmptyMessage | src/services/whatsappService.js:321-322 | blank gathered lines are pushed as an empty message: with limit 3, "\n\nabc" becomes ["", "abc"] |
| RateLimit.Decide | src/services/whatsappService.js:271-285 | admitted exactly when fewer than `limit` stored times lie in the window; a refusal keeps the stored list, and an admission stores the in-window times followed by now |
| RateLimit.AdmissionWithinLimit | src/services/whatsappService.js:278-283 | after an admission the chat holds at most `limit` times |
| RateLimit.AdmissionKeepsOnlyRecent | src/services/whatsappService.js:274-283 | after an admission every stored time lies inside the window ending at now |
| RateLimit.ExpiredIgnored | src/services/whatsappService.js:274-276 | times that have left the window change neither the answer nor what an admission stores |
| RateLimit.AdmittedCounted | src/services/whatsappService.js:271-285 | once a burst within one window admits anything, the earlier in-burst times plus the admissions are at most `limit` |
| RateLimit.BurstAdmittedAtMostLimit | src/services/whatsappService.js:259-286 | however many checks a chat makes within one window, at most `limit` are admitted |
| WhatsApp.Client.Send | src/services/whatsappService.js:134 | each transport call uses up one scripted outcome; only a successful call is delivered |
| Delivery.ChunksOk | src/services/whatsappService.js:132-140 | the chunk loop succeeds exactly when every one of its calls goes through |
| Delivery.ChunksDelivered | src/services/whatsappService.js:132-140 | the chunk loop delivers exactly the chunks before the first call that throws, in split order, and stops there |
| Delivery.ChunksScript | src/services/whatsappService.js:132-140 | the chunk loop uses up one outcome per call it makes: every chunk's when none throws, else up to and including the one that throws |
| Delivery.ChunksFrame | src/services/whatsappService.js:132-140 | the chunk loop leaves the rate-limit entries alone and never turns the clock back |
| Delivery.PassFrame | src/services/whatsappService.js:123-140 | a pass leaves the rate-limit entries alone, never turns the clock back, and delivers to its chat only |
| Delivery.PassExact | src/services/whatsappService.js:123-143 | a pass goes through exactly when the typing indicator (if enabled) goes through, the split does not throw and every chunk goes through; it then has delivered exactly the typing indicator and the chunks, and used one outcome per call |
| Delivery.CleanPass | src/services/whatsappService.js:123-143 | over a transport that never throws, a pass goes through exactly when the split does not throw |
| Delivery.SendPasses | src/services/whatsappService.js:144-164 | `sendMessage` makes at least one pass and at most 1 + maxRetries − retryCount; with `retry` off exactly one |
| Delivery.SendRefused | src/services/whatsappService.js:117-121 | a refused rate check is final: false, one pass, nothing sent, and only the chat's entry is written, with its old times |
| Delivery.SendSucceeds | src/services/whatsappService.js:103-143 | an admitted message whose split does not throw, over a transport that never throws, goes through in one pass and delivers exactly the typing indicator (if enabled) and its chunks |
| Delivery.SendDelivers | src/services/whatsappService.js:103-166 | whatever happens, deliveries go to the chat only, no other chat's rate entry changes and the clock never goes back; true means the split did not throw and its full transcript is the last thing delivered |
| Delivery.RetryRechecks | src/services/whatsappService.js:116-161 | for every configuration: a retry runs its own rate-limit check, later than the first, against a window that holds the failed pass's time; the send's answer is the retry's, with one more pass; a refused retry ends the send with false after two passes |
| Delivery.RetryTakesSecondSlot | src/services/whatsappService.js:147-161 | a retry checks the rate limit again: with one message per window and a first pass that throws, the retry is refused, so the answer is false after two passes and nothing is delivered |
| Delivery.MediaOneCall | src/services/whatsappService.js:168-213 | one rate check; when admitted, exactly one transport call whatever the media, whose outcome is the answer and whose delivery is the attachment with its caption |
| Delivery.MediaUnvalidated | src/services/whatsappService.js:188-205 | the answer of `sendMedia` does not depend on the media |
| Delivery.DrainAppend | src/services/whatsappService.js:355-356 | the queue is drained first in, first out: draining a + b drains a, then b |
| Delivery.DrainAllStale | src/services/whatsappService.js:359-362 | a queue of items all older than 300000 ms is dropped without a send, a rate check or a delay |
| Delivery.StaleItemSkipped | src/services/whatsappService.js:359-362 | an item that is stale when its turn comes is skipped as if it had never been queued |
| Delivery.TakeTime | src/services/whatsappService.js:355-378 | taking an item off the queue never turns the clock back |
| Delivery.DrainTime | src/services/whatsappService.js:355-379 | a drain never turns the clock back |
| Delivery.TakeClean | src/services/whatsappService.js:364-378 | with rate limiting off and a transport that never throws, a fresh item delivers its transcript (when its split does not throw) or its attachment |
| Delivery.DrainDeliversAll | src/services/whatsappService.js:347-385 | with rate limiting off and a transport that never throws, a drain whose items are all still fresh delivers every item's transcript or attachment, in queue order, and nothing else |
| WhatsApp.WhatsAppService.constructor | src/services/whatsappService.js:7-17 | not ready, counters at zero, no rate-limit entries, an empty queue, no drain running |
| Delivery.TimerWait | src/services/whatsappService.js:477-479 | a Node.js timer waits the delay when it is a number from 1 to 2147483647, and 1 ms for anything else, including a delay that is not a number |
| WhatsApp.WhatsAppService.Delay | src/services/whatsappService.js:477-479 | time moves on by exactly what the timer waits for the given delay |
| WhatsApp.WhatsAppService.OnQr | src/services/whatsappService.js:42-51 | as written: the QR counter goes up by one and no restart follows, because the limit read from `config.client` is undefined |
| WhatsApp.QrLimitUnset | src/services/whatsappService.js:47-50 | no QR count exceeds the undefined limit, while a count exceeds the configured default of 3 exactly when it is above 3 |
| WhatsApp.WhatsAppService.OnQrIntended | src/services/whatsappService.js:42-51 | corrected: the QR counter goes up by one, and one restart follows exactly when the count passes the configured `qrCodeRetries` |
| WhatsApp.WhatsAppService.OnAuthFailure | src/services/whatsappService.js:76-79 | every authentication failure restarts the client |
| WhatsApp.WhatsAppService.HandleDisconnection | src/services/whatsappService.js:387-407 | as written: nothing happens at 5 attempts; otherwise the counter goes up, the wait (undefined × counter) is 1 ms, and one restart follows |
| WhatsApp.ReconnectWaitUnset | src/services/whatsappService.js:400 | the as-written wait is 1 ms for every attempt, where the configured default of 5000 would wait 5000 ms times the attempt number |
| WhatsApp.WhatsAppService.HandleDisconnectionIntended | src/services/whatsappService.js:387-407 | corrected: nothing happens at 5 attempts; otherwise the counter goes up, the clock advances by the timer wait of restartDelay × counter (exactly that product when it is a valid timer delay), and one restart follows |
| WhatsApp.WhatsAppService.OnDisconnected | src/services/whatsappService.js:82-88 | not ready, then the reconnection rule as written: below 5 attempts the counter goes up, the clock moves on 1 ms and one restart follows; at 5 nothing else changes |
| WhatsApp.WhatsAppService.Destroy | src/services/whatsappService.js:481-493 | the service is no longer ready |
| WhatsApp.WhatsAppService.CheckRateLimit | src/services/whatsappService.js:259-286 | exactly the decision `Delivery.Admit` defines: with rate limiting off, true and no entry created; otherwise the answer of `RateLimit.Decide` on the chat's times, whose stored list replaces only that chat's entry |
| WhatsApp.WhatsAppService.IsAuthorizedUser | src/services/whatsappService.js:288-296 | an empty admin list lets everyone in; otherwise only listed numbers get in |
| WhatsApp.WhatsAppService.IsAuthorizedGroup | src/services/whatsappService.js:298-306 | an empty group list lets every group in; otherwise only listed groups get in |
| WhatsApp.WhatsAppService.ValidateMedia | src/services/whatsappService.js:241-257 | valid exactly when the mimetype's subtype is a supported format and the size is at most maxFileSize |
| WhatsApp.WhatsAppService.DownloadMedia | src/services/whatsappService.js:215-239 | the media comes back exactly when the message has some, the download yields it and it validates; otherwise nothing |
| WhatsApp.WhatsAppService.SplitMessage | src/services/whatsappService.js:308-345 | the loop computes exactly `MessageSplit.SplitMessage`: a short message comes back whole, no chunk is over the limit, and `None` means the source throws |
| WhatsApp.WhatsAppService.Transmit | src/services/whatsappService.js:123-140 | the try block after the rate check computes exactly `Delivery.Pass` (typing, split, chunk loop) on the state it starts from |
| WhatsApp.WhatsAppService.SendTyping | src/services/whatsappService.js:124-128 | computes exactly `Delivery.TypingStep`: the indicator and typingDelay when typing is enabled and not switched off; a throw delivers nothing |
| WhatsApp.WhatsAppService.SendSplit | src/services/whatsappService.js:130-140 | computes exactly `Delivery.SplitStep` on the message's split: a split that throws sends nothing, otherwise the chunk loop runs |
| WhatsApp.WhatsAppService.SendChunks | src/services/whatsappService.js:132-139 | the loop computes exactly `Delivery.ChunksFrom` from chunk 0: one send per chunk, messageDelay between chunks, stop at the first throw |
| WhatsApp.WhatsAppService.SendMessage | src/services/whatsappService.js:103-166 | not ready: one text item queued with the current time, nothing sent, false; ready: answer and new state are exactly `Delivery.MessageSend` on the configured splitter, with the queue untouched |
| WhatsApp.WhatsAppService.SendMedia | src/services/whatsappService.js:168-213 | not ready: one media item queued, nothing sent, false; ready: answer and new state are exactly `Delivery.MediaSend` |
| WhatsApp.WhatsAppService.ProcessMessageQueue | src/services/whatsappService.js:347-385 | a no-op while draining or not ready; otherwise the queue ends empty, the flag cleared, and the state is exactly `Delivery.Drain` of the old queue from the old state |
| WhatsApp.WhatsAppService.OnReady | src/services/whatsappService.js:54-67 | ready with both counters at zero; unless a drain is already running, the queue is drained exactly as `Delivery.Drain` defines, so every drain lemma applies |
| WhatsApp.DefaultMediaRules | src/services/whatsappService.js:241-257 | under the default configuration, media validation agrees with `isValidImageFormat` plus the 5 MB bound |
| WhatsApp.GroupsFromEnvironment | src/services/whatsappService.js:298-306 | with groups read from ALLOWED_GROUPS, a group gets in exactly when a comma segment trims to its id, or when no segment names a group |
| WhatsApp.LocalAdminNumber | src/services/whatsappService.js:288-296 | a local number in ADMIN_NUMBERS authorizes the sender whose number is "62" plus that entry |
| Trading.DetermineTradeDirection | src/services/tradingService.js:315-333 | buy exactly when a buy word occurs; sell exactly when a sell word and no buy word occurs; unknown exactly when neither occurs |
| Trading.DetermineLiquidityType | src/services/tradingService.js:335-347 | each type exactly when its words occur and no earlier type's words do (equal high, equal low, sweep); general exactly when none occurs |
| Trading.ExtractConfidenceFromText | src/services/tradingService.js:275-293 | high exactly when a strong word occurs; low exactly when a weak word and no strong word occurs; medium exactly when neither occurs |
| Trading.ExtractConfidence | src/services/tradingService.js:257-273 | the first level, in high, medium, low order, with a keyword in the lower-cased text, or medium; a high keyword always gives high |
| Trading.ClassifiersIgnoreCase | src/services/tradingService.js:276 | the classifiers give the same answer on the lower-cased text |
| Trading.TopPriorityIsFinal | src/services/tradingService.js:315-347 | once the top-priority answer is given, appending text never takes it back |
| Trading.DoubtReadAsHigh | src/services/tradingService.js:275-283 | text containing "kurang yakin" is read as high by `extractConfidenceFromText`, and as low by the table when no high or medium keyword occurs |
| Trading.CalculateRiskReward | src/services/tradingService.js:349-382 | nothing when a part is missing, a price is missing or zero, or risk is 0; otherwise risk = abs(e − sl) > 0, reward = abs(tp − e), ratio · risk = reward, acceptable exactly when ratio ≥ 1.2 |
| Trading.LongSetupAcceptance | src/services/tradingService.js:365-376 | for stop < entry < target: acceptable exactly when target − entry ≥ 1.2 · (entry − stop) |
| Trading.RatioThreshold | src/services/tradingService.js:370-376 | with a positive risk, comparing the ratio and comparing the reward against the scaled risk agree |
| Trading.ErrorOf | src/services/tradingService.js:485-512 | check k reports the error of rank k |
| Trading.ChecksFrom | src/services/tradingService.js:485-512 | an error is listed exactly when its check fails, in checking order |
| Trading.ValidateAnalysis | src/services/tradingService.js:481-518 | valid exactly when there are no errors; each of the five errors is listed exactly when its condition holds; the equality check needs both prices truthy; errors come in fixed order |
| Trading.AcceptableAnalysisIsValid | src/services/tradingService.js:481-518 | an analysis with an acceptable risk/reward computed from its own parts passes validation |
| Trading.Numbered | src/services/tradingService.js:219-225 | one pattern's targets have levels 1..k over its prices in order, each described by the trimmed capture |
| Trading.ExtractTakeProfit | src/services/tradingService.js:204-230 | the targets of all matched patterns in pattern order, or null exactly when there are none |
| Trading.PushNumbered | src/services/tradingService.js:219-225 | the push loop appends exactly one pattern's numbered targets |
| Trading.TargetsNumbered | src/services/tradingService.js:213-226 | every target comes from a matched pattern, and its level numbers its price among that capture's prices |
| Trading.OnePatternLevels | src/services/tradingService.js:213-226 | when a single pattern matches, the targets are its prices numbered 1, 2, … |
| Trading.ExtractNotes | src/services/tradingService.js:295-313 | the trimmed captures joined with ". ", or null exactly when no pattern matched |
| Trading.NoteListed | src/services/tradingService.js:305-310 | a matched pattern's trimmed capture is among the notes |
| Trading.NotesEmpty | src/services/tradingService.js:312 | there are no notes exactly when no pattern matched |
| Trading.NoteInText | src/services/tradingService.js:295-313 | whatever a note pattern captured appears, trimmed, in the notes text |
| Trading.EntryZoneRules | src/services/tradingService.js:414-424 | the entry line, plus the confirmation for a known direction only |
| Trading.EntryRules | src/services/tradingService.js:411-431 | the entry zone's lines (entry line, then the confirmation for a known direction) followed by the order-block reminder exactly when there are order blocks, and nothing else |
| Trading.ExitRules | src/services/tradingService.js:433-453 | the stop-loss line when present, one "TPn: description" line per target in order, and the closing rule last |
| Trading.RiskManagement | src/services/tradingService.js:455-469 | four fixed rules, with the ratio rule in the middle exactly when the ratio is truthy |
| Trading.Lookup | src/services/tradingService.js:599-607 | the stored analysis exactly when an entry exists that is younger than one hour |
| Trading.CleanedExactly | src/services/tradingService.js:619-627 | cleaning deletes exactly the entries older than one hour and leaves the rest unchanged |
| Trading.CleaningKeepsLookups | src/services/tradingService.js:599-627 | cleaning never changes a lookup at the same instant |
| Trading.AgedExactlyTTL | src/services/tradingService.js:602-623 | an entry exactly one hour old survives cleaning but is no longer returned |
| Trading.TradingService.constructor | src/services/tradingService.js:5-12 | the cache starts empty |
| Trading.TradingService.GetCachedAnalysis | src/services/tradingService.js:599-607 | returns what `Lookup` gives on the cache |
| Trading.TradingService.SetCachedAnalysis | src/services/tradingService.js:609-627 | stores at one clock reading and cleans at a second one, as `cleanCache` reads the clock again; the new entry survives iff the clock moved on by at most the time-to-live, and then a lookup at the storing time returns it |
| Trading.TradingService.CleanCache | src/services/tradingService.js:619-627 | the cache becomes exactly its unexpired entries |
| AnalysisStore.OrDefault | src/models/analysisModel.js:33-41 | a missing or empty string falls back to the default |
| AnalysisStore.NewRecord | src/models/analysisModel.js:28-43 | the fields are copied, except the order blocks, which the record does not keep; userName defaults to "Unknown", confidence to "medium", and status is "active" |
| AnalysisStore.KeepLast | src/models/analysisModel.js:47-50 | `slice(-n)`: the last n elements, in order, or everything when there are no more than n |
| AnalysisStore.SliceTo | src/models/analysisModel.js:78 | `slice(0, end)`: a prefix of length end, counted from the back when end is negative |
| AnalysisStore.NewestFirstPairwise | src/models/analysisModel.js:77 | newest-first order holds between every pair, not only neighbours |
| AnalysisStore.InsertByAge | src/models/analysisModel.js:77 | insertion keeps newest-first order and adds exactly the one record |
| AnalysisStore.SortNewestFirst | src/models/analysisModel.js:77 | the sort gives newest-first order and a permutation of its input |
| AnalysisStore.FindIndex | src/models/analysisModel.js:98-100 | the first index with the id, or none exactly when no record has it |
| AnalysisStore.StatsOf | src/models/analysisModel.js:131-159 | last24h ≤ last7days ≤ last30days ≤ total, and active + completed + failed ≤ total |
| AnalysisStore.AnalysisModel.constructor | src/models/analysisModel.js:11-22 | the table starts empty |
| AnalysisStore.AnalysisModel.SaveAnalysis | src/models/analysisModel.js:24-60 | returns the new record; the table is the old one plus that record at the end, cut to the last 1000 |
| AnalysisStore.CapKeepsNewest | src/models/analysisModel.js:47-50 | when the cap trims, the table is the old table minus its oldest entries, then the new record |
| AnalysisStore.PrefixNewest | src/models/analysisModel.js:77-78 | in a newest-first list, anything outside a prefix is no newer than anything inside it |
| AnalysisStore.NewestPrefix | src/models/analysisModel.js:77-78 | sort then `slice(0, limit)` keeps part of the input, min(limit, length) records of it, all of them when the limit allows, and no record left out is newer than one kept |
| AnalysisStore.AnalysisModel.GetAnalysesByUser | src/models/analysisModel.js:72-83 | only that user's records, newest first, min(limit, the user's count) of them, all when the limit allows, and none of the user's records left out is newer than one returned |
| AnalysisStore.AnalysisModel.GetAnalysisById | src/models/analysisModel.js:85-93 | the first record with the id, or none exactly when no record has it |
| AnalysisStore.AnalysisModel.UpdateAnalysisStatus | src/models/analysisModel.js:95-120 | false and nothing written when no record has the id; otherwise only the first match changes, in status, updatedAt and (for a truthy result) result |
| AnalysisStore.AnalysisModel.GetAnalysisStats | src/models/analysisModel.js:122-165 | the count orderings, over the user's records when a user id is given and over all records otherwise |
| AnalysisStore.AnalysisModel.DeleteOldAnalyses | src/models/analysisModel.js:167-190 | keeps exactly the records newer than the cutoff, in order; returns the number removed; writes nothing when none went |
| AnalysisStore.DeletionSurvivors | src/models/analysisModel.js:173-175 | every survivor is newer than the cutoff, and every newer record survives |

## Left out

- The whatsapp-web.js client is replaced by a transport that delivers or throws. This covers:
  - its initialization and session strategy;
  - QR printing;
  - `getChatById` before the typing indicator;
  - `getChats`, `getChatById`, `getContactById` and `getClientInfo`.

  These are calls into a library whose behaviour is not part of this model.
- `restart`, `initialize` and `destroy` on the client: a restart is counted in `restartRequests`, and the two-second wait inside `restart` is not modelled. Their bodies are library calls.
- `MessageMedia` construction from a path, a buffer or an object, and base64 decoding. Media is a mimetype with a decoded byte length.
- Asynchronous interleaving: event callbacks cannot run during a drain or a send. Because of this, the readiness flag cannot change mid-drain. The path where a drained text item is queued again with a fresh timestamp (`sendMessage` reached from the drain while not ready) is therefore unreachable in the model.
- The `catch` of `processMessageQueue` is not modelled: nothing in the drain throws, since `sendMessage` and `sendMedia` catch every failure themselves.
- Regular expressions in the trading service. Each extraction pattern is represented by its capture (`None` when it did not match), and `extractPrices`, with its float parsing, is a function parameter.
- Trading.CalculateRiskReward: the stored ratio, risk and reward are exact reals, where the source stores them rounded by `toFixed(2)` and `toFixed(5)`. `isAcceptable` is computed from the unrounded ratio in both.
- Trading.ValidateAnalysis: compares the exact ratio with 1.2, where the source compares the stored, rounded one. For a ratio in [1.195, 1.2) the model reports `RatioBelowMinimum` and the source reports no error.
- Trading.RiskManagement: tests and shows the exact ratio, where the source tests and shows the rounded one. A ratio below 0.005 rounds to 0 in the source, which then leaves out the ratio rule; the model keeps it.
- Trading.CalculateRiskReward: the non-array `takeProfit` branch is not modelled, because targets are always a list here.
- Trading.ExitRules: the non-array "Take Profit:" line is not modelled, for the same reason.
- Trading.Message and Trading.RiskManagement take number formatting as a parameter.
- `parseAnalysisResponse`, `extractMarketStructure`, `extractEntryZone`, `extractStopLoss`, `extractOrderBlocks`, `generateTradingPlan`, `generateSetupDescription`, `generateScenarios` and `formatAnalysisForDisplay` are not modelled. They are regex extraction, fixed text and date formatting around the modelled rules.
- MessageSplit.HardSplit: a limit of 50 or less is treated as a throw. With a limit of exactly 50, `{1,0}` is a syntax error and the source throws too. Below 50, JavaScript's legacy (Annex B) syntax reads `.{1,-n}` as any character followed by the literal text `{1,-n}`. The source then throws only for a line without that text; a line containing it is cut into those matches, which the model does not capture.
- Strings are sequences of characters. Lengths are not UTF-16 code-unit counts, and `toLowerCase` maps ASCII letters only.
- Dates are milliseconds. The trading cache and the analysis table take clock readings as
  parameters; `WhatsApp.WhatsAppService` keeps its clock in a field. Not modelled:
  - ISO strings;
  - `setDate` across daylight-saving changes (a day is always 86400000 ms);
  - md5 image hashes;
  - `generateId`.
- The JSON file reads and writes of `analysisModel.js` are not modelled. The table is a field; read errors falling back to an empty table are not modelled.
- AnalysisStore.AnalysisModel.GetAnalysesByUser: does not state which of several records with the same timestamp are kept when the limit cuts between them (the source's sort is stable). It states the newest-first order, the count, and that nothing left out is newer than anything returned.
- AnalysisStore.NewRecord: `marketStructure` is not carried in records, because the market-structure text comes from `extractMarketStructure`, which is not modelled.
- Environment parsing with `parseInt` fallbacks, logging and the configuration validation are not modelled. The configuration is a record, and `DefaultConfig` holds the values the source falls back to. `qrCodeRetries` and `restartDelay` are fields of the configuration object itself; `config.client`, where the service looks for them, is `GetClientConfig()`, which has neither.
- Delivery: the send and drain lemmas take the message splitter as a parameter and hold for any splitter. The service passes `MessageSplit.SplitMessage` under the configured limit (`Delivery.Splitter`).
- Delivery.Take, Delivery.Drain and WhatsApp.WhatsAppService.Delay: transport calls (`getChatById`, `sendStateTyping`, `sendMessage` for text and media) take no time in the model. The clock advances only by the program's own timers, and between calls by `Delay`. In the source, `Date.now()` keeps running while those calls are awaited. So the times the drain tests for staleness, and the times the rate limiter stores and compares, are lower bounds of the source's: after slow sends the source may skip as stale an item the model still delivers, and may find a window emptier than the model does.
- Delivery.DrainDeliversAll: is stated for a drain with rate limiting off over a transport that never throws. With rate limiting on or failures, what each item does is still exactly `Delivery.Take`, and the send lemmas apply to it.

## Findings

| source | as written | input that shows it | evidently intended | confidence | as-written member | corrected member |
|---|---|---|---|---|---|---|
| src/services/whatsappService.js:47-50 | compares the QR count with `this.config.client.qrCodeRetries`, which `getClientConfig()` never sets, so the comparison is always false | a fourth QR code under the default configuration: 4 > undefined is false, and the client is not restarted | restart once the count passes the configured `qrCodeRetries` (default 3) | not executed | WhatsApp.WhatsAppService.OnQr, WhatsApp.QrLimitUnset | WhatsApp.WhatsAppService.OnQrIntended |
| src/services/whatsappService.js:400 | waits `this.config.client.restartDelay * this.reconnectAttempts`, which is undefined times a number, so the timer fires after 1 ms | the first disconnection under the default configuration waits 1 ms instead of 5000 ms | wait `restartDelay` (default 5000 ms) times the attempt number | not executed | WhatsApp.WhatsAppService.HandleDisconnection, WhatsApp.ReconnectWaitUnset | WhatsApp.WhatsAppService.HandleDisconnectionIntended |
