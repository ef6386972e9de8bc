/** The background service worker: its API settings, its rate-limiter
    counters and the routing of runtime messages. The worker's module-level
    variables are the fields of one object; the clock reading (`Date.now()`)
    and the HTTP exchange (`fetch`) are parameters. */
module Background {
  import opened Wrappers
  import opened Protocol
  import opened Gateway
  import opened RateLimit

  const DefaultRegion := "eastus"
  const AliveStatus := "alive"
  const TestStatus := "Test endpoint working"

  /** What the listener does with a message: nothing (no listener answers),
      answer it, or put a translation request off for `ms` milliseconds, after
      which it is handled again as a fresh attempt. */
  datatype Handling = Ignored | Respond(reply: Reply) | Later(ms: int)

  /** A handling together with the limiter window after it and the HTTP
      request it sent, if any. */
  datatype Handled = Handled(handling: Handling, window: Window, request: Option<HttpRequest>)

  /** The reply to a "translate" message once `translateText` settles: the
      result object, or `{ error: String(error) }`. */
  function TranslateReply(call: GatewayCall): Reply
  {
    match call.result
    case Success(result) => Translated(result)
    case Failure(e) => Failed(ErrorString(e))
  }

  /** One evaluation of `handleTranslationRequest`: pass the limiter, then
      call the service; or wait. */
  function TranslationAttempt(apiKey: string, apiRegion: string, w: Window, text: string, targetLang: string,
                              now: int, fetch: HttpRequest -> HttpOutcome): Handled
  {
    var step := Step(w, now);
    match step.decision
    case Wait(ms) => Handled(Later(ms), step.window, None)
    case Dispatch =>
      var call := TranslateText(apiKey, apiRegion, text, targetLang, fetch);
      Handled(Respond(TranslateReply(call)), step.window, call.request)
  }

  /** The `onMessage` listener, by action. */
  function HandleMessage(apiKey: string, apiRegion: string, w: Window, msg: Message,
                         now: int, fetch: HttpRequest -> HttpOutcome): Handled
  {
    if msg.action == "ping" then Handled(Respond(Status(AliveStatus)), w, None)
    else if msg.action == "translate" then
      TranslationAttempt(apiKey, apiRegion, w, msg.text, msg.targetLang, now, fetch)
    else if msg.action == "direct_translate_test" then
      var call := TranslateText(apiKey, apiRegion, msg.text, msg.targetLang, fetch);
      Handled(Respond(DirectTest(call)), w, call.request)
    else if msg.action == "test" then Handled(Respond(Status(TestStatus)), w, None)
    else Handled(Ignored, w, None)
  }

  predicate Routed(action: string)
  {
    action in {"ping", "translate", "direct_translate_test", "test"}
  }

  /** The liveness and test actions answer with fixed statuses, touch neither
      the limiter nor the network, and nothing else is answered. */
  lemma StatusActions(apiKey: string, apiRegion: string, w: Window, msg: Message,
                      now: int, fetch: HttpRequest -> HttpOutcome)
    ensures msg.action == "ping" ==> HandleMessage(apiKey, apiRegion, w, msg, now, fetch) == Handled(Respond(Status("alive")), w, None)
    ensures msg.action == "test" ==> HandleMessage(apiKey, apiRegion, w, msg, now, fetch) == Handled(Respond(Status("Test endpoint working")), w, None)
    ensures !Routed(msg.action) ==> HandleMessage(apiKey, apiRegion, w, msg, now, fetch) == Handled(Ignored, w, None)
    ensures HandleMessage(apiKey, apiRegion, w, msg, now, fetch).handling.Ignored? <==> !Routed(msg.action)
  {
  }

  /** A translate message goes through the limiter: it reaches the network
      only on a dispatch, and the limiter window afterwards is the step's. */
  lemma TranslateIsRateLimited(apiKey: string, apiRegion: string, w: Window, msg: Message,
                               now: int, fetch: HttpRequest -> HttpOutcome)
    requires msg.action == "translate"
    ensures var h := HandleMessage(apiKey, apiRegion, w, msg, now, fetch);
      && h.window == Step(w, now).window
      && (h.handling.Later? <==> Step(w, now).decision.Wait?)
      && (h.handling.Later? ==> h.handling.ms == Step(w, now).decision.ms && h.request.None?)
      && (h.request.Some? ==> Step(w, now).decision.Dispatch? && apiKey != "")
  {
  }

  /** A dispatched translate answers with the translation or with the error's
      string form; with no key that is the key-missing error and no request. */
  lemma TranslateReplyShape(apiKey: string, apiRegion: string, w: Window, msg: Message,
                            now: int, fetch: HttpRequest -> HttpOutcome)
    requires msg.action == "translate" && Step(w, now).decision.Dispatch?
    ensures var h := HandleMessage(apiKey, apiRegion, w, msg, now, fetch);
      var call := TranslateText(apiKey, apiRegion, msg.text, msg.targetLang, fetch);
      && h.handling == Respond(TranslateReply(call))
      && h.request == call.request
      && (apiKey == "" ==> h.handling.reply == Failed("Error: " + KeyMissingMessage) && h.request.None?)
  {
  }

  /** The popup's direct test bypasses the limiter entirely. */
  lemma DirectTestBypassesLimiter(apiKey: string, apiRegion: string, w: Window, msg: Message,
                                  now: int, fetch: HttpRequest -> HttpOutcome)
    requires msg.action == "direct_translate_test"
    ensures var h := HandleMessage(apiKey, apiRegion, w, msg, now, fetch);
      && h.window == w
      && h.handling == Respond(DirectTest(TranslateText(apiKey, apiRegion, msg.text, msg.targetLang, fetch)))
  {
  }

  /** Whatever message arrives, the counter stays within [0, 5]. */
  lemma HandlingKeepsLimiterValid(apiKey: string, apiRegion: string, w: Window, msg: Message,
                                  now: int, fetch: HttpRequest -> HttpOutcome)
    requires Valid(w)
    ensures Valid(HandleMessage(apiKey, apiRegion, w, msg, now, fetch).window)
  {
    if msg.action == "translate" {
      DispatchCountsOne(w, now);
    }
  }

  /** The worker's module-level state. */
  class Worker {
    var apiKey: string
    var apiRegion: string
    var requestsInLastSecond: int
    var lastRequestTime: int

    function Limiter(): Window
      reads this
    {
      Window(requestsInLastSecond, lastRequestTime)
    }

    predicate Valid()
      reads this
    {
      RateLimit.Valid(Limiter())
    }

    /** Start-up, at time `now`: no key, the default region, an empty window. */
    constructor(now: int)
      ensures apiKey == "" && apiRegion == DefaultRegion
      ensures Limiter() == Window(0, now)
      ensures Valid()
    {
      apiKey := "";
      apiRegion := DefaultRegion;
      requestsInLastSecond := 0;
      lastRequestTime := now;
    }

    /** The `chrome.storage.local.get` callback: a stored value replaces the
        current one only when it is present and non-empty. */
    method LoadStoredSettings(storedKey: Option<string>, storedRegion: Option<string>)
      modifies this
      ensures apiKey == (if storedKey.Some? && storedKey.value != "" then storedKey.value else old(apiKey))
      ensures apiRegion == (if storedRegion.Some? && storedRegion.value != "" then storedRegion.value else old(apiRegion))
      ensures Limiter() == old(Limiter())
    {
      if storedKey.Some? && storedKey.value != "" {
        apiKey := storedKey.value;
      }
      if storedRegion.Some? && storedRegion.value != "" {
        apiRegion := storedRegion.value;
      }
    }

    /** The `chrome.storage.onChanged` listener: every changed setting takes its
        new value, even an empty one. A removed setting reads as "". */
    method OnStorageChanged(newKey: Option<string>, newRegion: Option<string>)
      modifies this
      ensures apiKey == (if newKey.Some? then newKey.value else old(apiKey))
      ensures apiRegion == (if newRegion.Some? then newRegion.value else old(apiRegion))
      ensures Limiter() == old(Limiter())
    {
      if newKey.Some? {
        apiKey := newKey.value;
      }
      if newRegion.Some? {
        apiRegion := newRegion.value;
      }
    }

    /** `handleTranslationRequest` at time `now`. A `Later(ms)` result is the
        wait; the caller re-submits with a later clock reading. */
    method HandleTranslationRequest(text: string, targetLang: string, now: int, fetch: HttpRequest -> HttpOutcome)
      returns (h: Handling, request: Option<HttpRequest>)
      requires Valid()
      modifies this`requestsInLastSecond, this`lastRequestTime
      ensures Valid()
      ensures Handled(h, Limiter(), request) == TranslationAttempt(apiKey, apiRegion, old(Limiter()), text, targetLang, now, fetch)
    {
      if now - lastRequestTime > WindowMs {
        requestsInLastSecond := 0;
        lastRequestTime := now;
      }
      if requestsInLastSecond >= MaxRequestsPerSecond {
        return Later(WindowMs - (now - lastRequestTime)), None;
      }
      requestsInLastSecond := requestsInLastSecond + 1;
      var call := TranslateText(apiKey, apiRegion, text, targetLang, fetch);
      h, request := Respond(TranslateReply(call)), call.request;
    }

    /** The `onMessage` listener. */
    method OnMessage(msg: Message, now: int, fetch: HttpRequest -> HttpOutcome)
      returns (h: Handling, request: Option<HttpRequest>)
      requires Valid()
      modifies this`requestsInLastSecond, this`lastRequestTime
      ensures Valid()
      ensures Handled(h, Limiter(), request) == HandleMessage(apiKey, apiRegion, old(Limiter()), msg, now, fetch)
    {
      if msg.action == "ping" {
        h, request := Respond(Status(AliveStatus)), None;
      } else if msg.action == "translate" {
        h, request := HandleTranslationRequest(msg.text, msg.targetLang, now, fetch);
      } else if msg.action == "direct_translate_test" {
        var call := TranslateText(apiKey, apiRegion, msg.text, msg.targetLang, fetch);
        h, request := Respond(DirectTest(call)), call.request;
      } else if msg.action == "test" {
        h, request := Respond(Status(TestStatus)), None;
      } else {
        h, request := Ignored, None;
      }
    }
  }
}
