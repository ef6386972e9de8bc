# YouTube Live Chat Translator: a verified model

The extension watches the live chat of a YouTube page. Its content script:

- finds the chat container;
- picks up new chat messages as they are inserted;
- decides with a heuristic filter which messages need translating;
- asks its background service worker for a translation;
- appends the translation after the message text.

The background worker holds the Azure Translator credentials. It lets at
most five calls out per window, where a window starts at the first call that
comes more than a second after the previous window's start (not a rolling
one-second window). It turns the service's answers into results or errors. It also answers a few status and test messages.

This project models that core in Dafny and proves properties of it.

- `wrappers.dfy`: `Option` and `Result`.
- `jsstring.dfy`: the JavaScript string semantics the code relies on:
  - `includes`, the `\s` class, `trim`;
  - `length` in UTF-16 code units;
  - the decimal form of an integer, and what `\d+` consumes.
- `filter.dfy`: `shouldTranslate`, both as written and corrected (see Findings).
- `dom.dfy`:
  - elements as a value tree, and the simple CSS selectors the script uses;
  - `querySelector`/`querySelectorAll` in document order;
  - `textContent` and `appendChild`.
- `discovery.dfy`:
  - a generic "first candidate that yields something" resolver;
  - the selector tables;
  - `setupObserver`'s container discovery, as a method with the source's loops;
  - `observeLiveChat`'s message search, including iframes;
  - the mutation callback's candidate filter.
- `protocol.dfy`: the runtime messages and replies.
- `gateway.dfy`: the worker's `translateText` (request, error and result shaping) and `handleDirectTest`'s status-code extraction.
- `ratelimit.dfy`: the rate limiter as a step function on the two counters with an explicit clock, plus traces of several requests.
- `background.dfy`: the `onMessage` routing as a function, and a `Worker` class whose fields are the worker's module-level variables.
- `content.dfy`:
  - the settings and quota gate (`translateText`);
  - the deduplicating pipeline (`processChatMessage`) as functions on a session;
  - a `ContentScript` class whose methods are proved equal to those functions:
    - the observer set-up;
    - navigation reset;
    - the periodic check;
    - the mutation callback.

Time (`Date.now()`) is an integer parameter. The HTTP exchange (`fetch`) is a
function parameter from request to outcome. On the content side, the worker's
answer to a runtime message is a function parameter `respond`; it gives
`None` when `sendMessage` rejects.

Behaviour of the code that a reader might not expect; the model follows the
code in each of these, with the one exception stated in the last item:

- The rate limiter's window is not a rolling one. A window starts at the first
  request more than 1000 ms after the previous window's start. Ten requests
  within three milliseconds can all go out (`RateLimit.TenWithinThreeMilliseconds`).
- A request re-evaluated exactly at the end of its wait still finds the window
  full, because the reset needs strictly more than 1000 ms. It waits again for
  0 ms (`RateLimit.RetryAtDeadline`).
- `setupObserver` searches no iframes: only the document's selectors, the
  ancestor walk and the body. Only `observeLiveChat` looks into iframes.
- The mutation callback checks a node, then its descendants matching
  `yt-live-chat-text-message-renderer, [id*="message"]`.
- Every message without an `id` attribute is recorded under the empty string.
  After one such message is processed, the others are skipped for the rest of
  the session (`Content.IdlessMessagesShareOneSlot`).
- Navigation starts a new observer without disconnecting the previous one
  (`Content.ContentScript.OnNavigate`).
- The observer watches the whole subtree whenever the container it found is
  the body element, also when a selector or the ancestor walk found it
  (`Content.SelectedBodyWatchesSubtree`).
- The emoji test of `shouldTranslate` never fires (see Findings). The content
  gate uses the corrected test, so the model sends no pure-emoji text where the
  code does; on every other text the two gates agree
  (`Content.GateAgreesWithSourceAwayFromEmoji`).

## Model

| member | source | states |
|---|---|---|
| `JsString.Trim` | src/content.ts:183 | `trim` yields a contiguous slice of the input with no whitespace at either end, and everything before and after that slice is whitespace; it is empty exactly when the input is all whitespace |
| `JsString.Utf16Length` | src/background.ts:90 | `length` counts code units: between one and two per code point |
| `JsString.Utf16LengthOfBmp` | src/content.ts:65 | on text without astral code points, `length` is the number of characters |
| `JsString.NatToDecimal` | src/background.ts:75 | the status in the error message is a non-empty run of digits with no leading zero |
| `JsString.DecimalRoundTrip` | src/background.ts:75 | the decimal form of a status reads back as the same number |
| `JsString.DigitRun` | src/background.ts:170 | `\d+` consumes a digit-only prefix and stops at the first non-digit |
| `JsString.DigitRunOfDigitsThenOther` | src/background.ts:170 | digits followed by a non-digit are consumed exactly |
| `Filter.ShouldTranslateExactly` | src/content.ts:63-96 | the filter accepts a text exactly when it is at least 2 code units long, is not pure emoji, has no "http", is not English-looking with target `en`, and has no Japanese-range character with target `ja` |
| `Filter.ShortTextRejected` | src/content.ts:65-68 | the empty text and a single BMP character are rejected, by both filters |
| `Filter.UrlRejected` | src/content.ts:76-79 | any text containing "http" is rejected, whatever the target, by both filters |
| `Filter.AsciiTextRejectedForEnglish` | src/content.ts:82-85 | with target `en`, text made only of ASCII letters, digits, whitespace and punctuation is rejected |
| `Filter.JapaneseTextRejectedForJapanese` | src/content.ts:88-92 | with target `ja`, one character in any of the six Japanese ranges rejects the text |
| `Filter.GreetingAcceptedForEnglish` | src/content.ts:462-465 | the start-up test text "こんにちは" passes the filter for English |
| `Filter.EmojiPatternNeverMatches` | src/content.ts:71 | the emoji regex as written, read by code points, matches no string |
| `Filter.AsWrittenAgreesAwayFromEmoji` | src/content.ts:71-74 | the filter as written and the corrected filter agree on every text that is not pure emoji |
| `Filter.AsWrittenSendsPureEmoji` | src/content.ts:71-74 | two emoji pass the filter as written and are rejected by the corrected one |
| `Dom.QueryAll` | src/content.ts:242 | every element `querySelectorAll` returns matches one of the selectors |
| `Dom.QueryAllComplete` | src/content.ts:242 | every element of the tree, reached by any path of child indices, that matches one of the selectors is among the hits of `querySelectorAll` |
| `Dom.QueryAllSound` | src/content.ts:242 | every hit of `querySelectorAll` is an element of the tree, reached by some path of child indices |
| `Dom.NoHitMeansNoMatch` | src/content.ts:315 | when `querySelector` finds nothing, no element of the tree matches the selectors |
| `Dom.QueryFirstIsFirstOfAll` | src/content.ts:315 | `querySelector` returns the first element `querySelectorAll` lists, or nothing when that list is empty |
| `Dom.AppendChildKeepsText` | src/content.ts:218 | after `appendChild`, the parent's text content is its old text content followed by the child's |
| `Discovery.FirstMatch` | src/content.ts:314-320 | the resolver gives nothing exactly when no candidate yields a value; otherwise it reports a candidate that yields that value and before which none yields anything |
| `Discovery.FirstMatchAt` | src/content.ts:314-320 | the first candidate in list order that yields a value decides the result |
| `Discovery.WalkUp` | src/content.ts:338-349 | the walk adopts the nearest ancestor whose id contains "items" or "chat", within 10 steps; all nearer ones do not qualify; with no adoption, none of the first 10 ancestors qualifies |
| `Discovery.FirstContainerSelectorWins` | src/content.ts:299-320 | the first container selector in list order that matches gives the container |
| `Discovery.AdoptedAncestorIsNear` | src/content.ts:322-354 | a container found by ascent means no container selector matched; it is container-like; it lies at most 10 steps above the first element some message selector finds |
| `Discovery.BodyIsLastResort` | src/content.ts:356-360 | with no selector match and no adopted ancestor, the body is observed |
| `Discovery.ParentWalk` | src/content.ts:338-349 | the loop over `parentElement` adopts exactly the ancestor the bounded walk above names, or nothing |
| `Discovery.FindContainer` | src/content.ts:298-360 | the selector loop with `break`, the bounded parent walk and the body fallback compute the discovery order above |
| `Discovery.PageItemsShadowFrames` | src/content.ts:240-250 | when a selector finds messages in the page, exactly the messages of the first such selector are processed and no iframe is searched |
| `Discovery.FramesSearchedInOrder` | src/content.ts:250-281 | when no selector finds anything in the page, the first reachable iframe in which some selector finds items decides, with all the items of the first such selector there |
| `Discovery.MessageNodeByToken` | src/content.ts:374-379 | an added element passes the test exactly when it has a tag name and "message" occurs in its tag name, id or class |
| `Discovery.NodeCandidatesMentionMessage` | src/content.ts:372-396 | each element an added node hands on has "message" in its tag name, id or class |
| `Discovery.MutationCandidatesMentionMessage` | src/content.ts:365-404 | each element a mutation batch hands to `processChatMessage` has "message" in its tag name, id or class |
| `Gateway.MissingKeyFailsBeforeRequest` | src/background.ts:45-48 | without an API key the call fails with the key-missing error and sends no request |
| `Gateway.KeySendsOneRequest` | src/background.ts:51-65 | with a key, exactly one request goes out: to the target language's URL, carrying the key, the region and the text |
| `Gateway.NonOkStatusFails` | src/background.ts:71-76 | a non-ok status fails with "API error: <status> - <body>" |
| `Gateway.BadShapeFails` | src/background.ts:82-85 | an ok response whose JSON is not an array, or is an array without `data[0].translations[0]`, fails with the format error |
| `Gateway.SuccessCountsText` | src/background.ts:87-91 | a success comes from an ok, well-shaped response; it carries the first translation, the detected language, and `charCount` equal to the text's UTF-16 length |
| `Gateway.StatusMatchFrom` | src/background.ts:170 | a match of `API error: (\d+)` captures a non-empty run of digits |
| `Gateway.StatusMatchFromIsLeftmost` | src/background.ts:170-173 | the regex search finds nothing exactly when "API error: " followed by a digit occurs nowhere at or after the start; otherwise it captures the digit run after the leftmost such occurrence |
| `Gateway.ExtractStatusCodeIsLeftmost` | src/background.ts:168-174 | for any error message, the status code is "Unknown" exactly when `API error: (\d+)` matches nowhere, and otherwise the digits after its leftmost match |
| `Gateway.StatusCodeRoundTrip` | src/background.ts:168-177 | the status code read out of an "API error" message is the decimal form of the status it was built from, whatever the body says |
| `Gateway.NoColonNoStatus` | src/background.ts:168-174 | a message without a colon yields "Unknown" |
| `Gateway.FormatErrorHasNoStatus` | src/background.ts:168-174 | the format error yields "Unknown" |
| `Gateway.DirectTestReportsStatus` | src/background.ts:159-180 | a direct test that meets a non-ok status reports the error message and that status's digits |
| `RateLimit.StaleWindowResets` | src/background.ts:111-128 | a request to a stale window is dispatched, with the counter at 1 and the window starting at `now` |
| `RateLimit.WaitIsRestOfWindow` | src/background.ts:118-122 | a request waits only when the counter is at 5 or more; the wait is `1000 - (now - lastRequestTime)`, at least 0, and at most 1000 when the clock has not gone back; the window stays |
| `RateLimit.DispatchCountsOne` | src/background.ts:118-125 | a dispatch adds exactly one to the counter; it dispatches exactly when the counter is under 5; a counter within [0, 5] stays there |
| `RateLimit.AtMostFivePerWindow` | src/background.ts:104-129 | requests within one window dispatch no more than the counter has room for |
| `RateLimit.RunAllAppend` | src/background.ts:109-129 | handling two batches of requests in turn is handling their concatenation |
| `RateLimit.BurstWithinRoom` | src/background.ts:118-125 | simultaneous requests inside a window all dispatch while the counter has room |
| `RateLimit.SixAtOnce` | src/background.ts:118-122 | of six simultaneous requests to an empty window, five dispatch and the sixth waits for the rest of the window |
| `RateLimit.RetryAtDeadline` | src/background.ts:112-121 | a request re-evaluated when its wait ends waits again for 0 ms; one millisecond later it dispatches |
| `RateLimit.TenWithinThreeMilliseconds` | src/background.ts:111-125 | ten requests at 999 ms and 1001 ms after a window's start all dispatch |
| `Background.StatusActions` | src/background.ts:183-236 | `ping` gets "alive" and `test` gets "Test endpoint working"; neither touches the limiter or the network; exactly the actions outside the four handled ones go unanswered |
| `Background.TranslateIsRateLimited` | src/background.ts:192-211 | a translate message passes the limiter step: it is put off exactly when the step says wait, for the step's time; it reaches the network only on a dispatch and with a key |
| `Background.TranslateReplyShape` | src/background.ts:192-211 | a dispatched translate answers with the gateway's outcome; without a key that is "Error: API key not set…" and no request |
| `Background.DirectTestBypassesLimiter` | src/background.ts:214-228 | the direct test leaves the limiter untouched and answers with `handleDirectTest`'s result |
| `Background.HandlingKeepsLimiterValid` | src/background.ts:183-236 | whatever message arrives, the counter stays within [0, 5] |
| `Background.Worker.constructor` | src/background.ts:20-23 | at start-up there is no key, the region is "eastus", and the window is empty and starts now |
| `Background.Worker.LoadStoredSettings` | src/background.ts:26-31 | a stored key or region replaces the current one only when it is present and non-empty; the limiter is unchanged |
| `Background.Worker.OnStorageChanged` | src/background.ts:34-39 | each changed setting takes its new value; the limiter is unchanged |
| `Background.Worker.HandleTranslationRequest` | src/background.ts:109-129 | the new counters and the result are those of one limiter step followed, on dispatch, by the gateway call |
| `Background.Worker.OnMessage` | src/background.ts:183-236 | the listener's answer, request and new counters are those of the routing function |
| `Content.GateDecidesRequest` | src/content.ts:100-121 | disabled, at or over 2,000,000, or filtered out: nothing is sent or returned and the quota stays; otherwise exactly one "translate" message goes out, with the text and the target language |
| `Content.GateAgreesWithSourceAwayFromEmoji` | src/content.ts:63-121 | on every text that is not pure emoji, the model's gate admits a text exactly when the source's gate, with its emoji test as written, does |
| `Content.QuotaGrowsByCharCount` | src/content.ts:125-139 | the quota grows by exactly the reply's `charCount` when a non-empty translation comes back; on every other path it is unchanged; it never shrinks |
| `Content.QuotaCountsUtf16Units` | src/content.ts:117-131 | with the worker's reply to a successful call, the quota grows by the text's length in UTF-16 code units |
| `Content.TextElementByFirstSelector` | src/content.ts:166-174 | the text element is what the first of `span#message`, `#content-text`, `#message`, `#content`, `.chat-message` to find anything inside the message finds |
| `Content.ClaimOf` | src/content.ts:149-187 | a message is taken on with its own id, its text element and a non-empty trimmed text |
| `Content.ClaimExactly` | src/content.ts:143-192 | a message is taken on exactly when it has a tag name, a new id, a text element and non-empty trimmed text. Then exactly its id is added and only the quota may change. A skipped message changes nothing, and no id is ever removed |
| `Content.ClaimedTextIsRequested` | src/content.ts:183-195 | the claimed text is the trimmed text content of the text element, lies within it, and is the text the translation request carries |
| `Content.AnnotationAppendsOneSpan` | src/content.ts:196-218 | a non-empty translation appends exactly one span; the text element keeps its content and gains " 🌐 " and the translation at the end |
| `Content.ReprocessingIsNoOp` | src/content.ts:155-159 | once a message is taken on, it and any other message with the same id are skipped, whatever the translation did |
| `Content.IdlessMessagesShareOneSlot` | src/content.ts:155-159 | after one message without an id is taken on, every later message without an id is skipped |
| `Content.ProcessBatchAppend` | src/content.ts:450-455 | two passes of the pipeline in turn are one pass over the concatenated messages |
| `Content.BatchRecordsClaims` | src/content.ts:241-247 | a pass adds exactly the ids it took on and removes none; it only raises the quota and changes no other setting |
| `Content.BatchClaimsFresh` | src/content.ts:245-247 | each message a pass takes on is the one at that position, and its id was not recorded when the pass began |
| `Content.BatchClaimsDistinct` | src/content.ts:245-247 | no id is taken on twice in a pass: each message is translated at most once per session |
| `Content.FreshSessionClaimsNewIds` | src/content.ts:441-446 | after a reset, a pass takes on every message with a tag name, text, and an id no earlier message of the pass had |
| `Content.BodyFallbackWatchesSubtree` | src/content.ts:356-410 | when discovery falls back to the body, the observer watches the whole subtree |
| `Content.SelectedBodyWatchesSubtree` | src/content.ts:314-409 | when the first container selector that matches finds an element (the loop at src/content.ts:314-320), the observer watches the whole subtree exactly when that element is `document.body` (the test at src/content.ts:407-409) |
| `Content.ContentScript.constructor` | src/content.ts:20-31 | the script starts enabled, targeting "en", with quota 0, an empty processed set and no observer |
| `Content.ContentScript.LoadSettings` | src/content.ts:45-52 | a stored flag or quota replaces the current one when present; a stored language replaces it only when non-empty |
| `Content.ContentScript.OnSettingsChanged` | src/content.ts:55-60 | each changed setting takes its new value |
| `Content.ContentScript.TranslateText` | src/content.ts:99-140 | the request, the result and the new quota are those of the gate-and-quota function; no other setting changes |
| `Content.ContentScript.ProcessChatMessage` | src/content.ts:143-225 | the new processed set, the new quota and the outcome are those of the pipeline function; the order of recording and asking is in the body only, since the contract sees one completed call (asynchronous order is left out) |
| `Content.ContentScript.ProcessAll` | src/content.ts:245-247 | processing a list element by element gives the pass function's state and outcomes |
| `Content.ContentScript.ObserveLiveChat` | src/content.ts:228-284 | the messages of the live-chat search go through the pipeline in order |
| `Content.ContentScript.SetupObserver` | src/content.ts:290-416 | when an observer is already set up, nothing changes. Otherwise one observer is added on the discovered container (whole subtree exactly when that container is `document.body`), the flag is set, and the existing messages are processed |
| `Content.ContentScript.OnNavigate` | src/content.ts:441-446 | navigation empties the processed set and clears the flag; set-up then runs again from the empty set, and the earlier observers stay attached |
| `Content.ContentScript.Tick` | src/content.ts:450-455 | the interval sets up when no observer is live, then searches again; the state and outcomes are one pass over the messages searched |
| `Content.ContentScript.OnMutations` | src/content.ts:365-404 | the mutation callback passes every candidate of every `childList` record to the pipeline, in order |

## Left out

- I/O is not modelled: `chrome.storage` reads and writes, including persisting the quota, `chrome.runtime.sendMessage`, `fetch`, and logging. Each appears only as a parameter or a state change.
- Timers and events are not modelled: the keep-alive interval, `setTimeout` scheduling, the `load` and `DOMContentLoaded` listeners and `onInstalled`. The model's methods are the handlers those events call.
- The order in which asynchronous translations complete is not modelled. `processChatMessage` records the id, translates and annotates in one call; a translation that resolves after a navigation is not modelled. As a consequence, in the code every message of one synchronous batch reads the quota (src/content.ts:105) before any charge lands after the `await` (src/content.ts:127), so a batch can overshoot `MAX_QUOTA`; in the model each message sees the charges of the messages before it, so that overshoot is not captured.
- The rate limiter's wait is not modelled as a suspended call. A `Later(ms)` answer stands for it, and the caller re-submits with a later clock reading, so other requests may run in between.
- Content.ContentScript.ProcessChatMessage: appending the annotation changes the page in place in the source. The model returns the annotated copy of the text element and does not write it back into the page tree. The inline `style.cssText` is left out. As a consequence, the model does not show a message being annotated twice. In the code, navigation empties the processed set (src/content.ts:443-444) while annotated messages stay on the page; the next pass reads the text element's `textContent` again (src/content.ts:182), which now ends with " 🌐 " and the translation (src/content.ts:206, 218). When that text still passes the filter, the message is translated again, charged to the quota again and given a second span. In the model every pass reads the caller's page, which carries no annotation, so `Content.AnnotationAppendsOneSpan` and `Content.FreshSessionClaimsNewIds` do not rule this out.
- Content.Translate: gates with the corrected emoji test (`Filter.ShouldTranslate`), so pure-emoji text is never sent, while the code's test never fires and sends it; `Content.GateAgreesWithSourceAwayFromEmoji` shows the two gates agree on all other text.
- Content.GateDecidesRequest: states the gate with the corrected emoji test, for the reason given on the line above.
- Content.ContentScript.TranslateText: gates with the corrected emoji test, for the reason given two lines above.
- Dom.QueryAll: that hits come in document order follows from its definition (the element, then its descendants, then its later siblings) but is not stated as a separate property; soundness and completeness are (`Dom.QueryAllSound`, `Dom.QueryAllComplete`).
- Element identity is compared by value: `chatContainer === document.body` holds in the model when the container equals the first `body` child of the document element. A page without a body makes the code call `observe(null)`, which throws; the model records a subtree observation of the fallback instead.
- CSS matching covers only the selectors the script uses: tag, `#id`, `.class`, `[id*=]`, `[class*=]`, and one descendant combinator. An element-scoped query sees only the element itself as context for a descendant combinator.
- Tag names are lower-case local names; `textContent` puts an element's own text before its children's.
- `\p{P}` is modelled for ASCII and Latin-1 only; other Unicode punctuation is not recognised as English-looking.
- Iframes whose document cannot be reached are `None`; the cross-origin exception itself is not modelled.
- The `respond` parameter answers the same request the same way each time. How the worker's answer depends on its state is modelled separately in `Background`.
- JavaScript strings may hold lone surrogate code units, which a Dafny `char` cannot; strings are modelled as sequences of Unicode scalar values, and `.length` is computed from them by `JsString.Utf16Length`. The script never builds a lone surrogate itself.
- A removed storage value is read as the empty string; JavaScript's `undefined` is not modelled.
- The options page, the popup, the build script and the Next.js translate handler are not part of this model: they are UI and plumbing around the same calls.

## Findings

| source | as written | input that shows it | evidently intended | confidence | as-written member | corrected member |
|---|---|---|---|---|---|---|
| src/content.ts:71 | `/^[\uD800-\uDBFF][\uDC00-\uDFFF]+$/u`: with the `u` flag the regex reads code points, so it asks for lone surrogates, which a well-formed string never holds; the emoji test never fires | "😀😀" (two U+1F600) reaches the service with target `en` | reject text made only of surrogate pairs, that is, only of code points above U+FFFF | high; not executed | `Filter.ShouldTranslateAsWritten`, shown by `Filter.AsWrittenSendsPureEmoji` and `Filter.EmojiPatternNeverMatches` | `Filter.ShouldTranslate`, proved by `Filter.ShouldTranslateExactly` and `Filter.AsWrittenAgreesAwayFromEmoji` |
