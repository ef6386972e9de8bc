/** The background worker's call to the Azure Translator service
    (`translateText`) and the status-code extraction of `handleDirectTest`.
    The HTTP exchange itself is a parameter: `fetch` gives the outcome of a
    request. */
module Gateway {
  import opened Wrappers
  import opened JsString
  import opened Protocol

  const DefaultEndpoint := "https://api.cognitive.microsofttranslator.com"

  /** A thrown JavaScript error. */
  datatype JsError = JsError(name: string, message: string)

  /** `String(error)`, that is `Error.prototype.toString`: the name alone when
      the message is empty, the message alone when the name is empty. */
  function ErrorString(e: JsError): string
  {
    if e.name == "" then e.message
    else if e.message == "" then e.name
    else e.name + ": " + e.message
  }

  /** The POST the worker sends: URL, the two subscription headers and the
      text it puts in the JSON body. */
  datatype HttpRequest = HttpRequest(url: string, subscriptionKey: string, region: string, text: string)

  datatype TranslationEntry = TranslationEntry(text: string)

  /** One element of the service's JSON array; `translations` is `None` when
      the field is missing or not an array. */
  datatype ResultItem = ResultItem(translations: Option<seq<TranslationEntry>>, detectedLanguage: Option<string>)

  /** What `response.json()` gives: a parse error, a value that is not an
      array, or an array of result items. */
  datatype Body = Unparseable(error: JsError) | NotAnArray | Items(items: seq<ResultItem>)

  /** What `fetch` gives: a rejected promise, or a response with its status,
      its body as text and its body as JSON. */
  datatype HttpOutcome = NetworkFailure(error: JsError) | Response(status: nat, bodyText: string, json: Body)

  /** One call of `translateText`: the request it sent, if any, and its result. */
  datatype GatewayCall = GatewayCall(request: Option<HttpRequest>, result: Result<TranslationResult, JsError>)

  const KeyMissingMessage := "API key not set. Please set your Azure Translator API key in the extension options."
  const FormatErrorMessage := "Invalid API response format"
  const ApiErrorPrefix := "API error: "

  /** The message thrown for a non-ok status. */
  function ApiErrorMessage(status: nat, body: string): string
  {
    ApiErrorPrefix + NatToDecimal(status) + " - " + body
  }

  /** `response.ok`. */
  predicate IsOk(status: nat)
  {
    200 <= status <= 299
  }

  function TranslateUrl(targetLang: string): string
  {
    DefaultEndpoint + "/translate?api-version=3.0&to=" + targetLang
  }

  /** `data[0].translations[0]` exists. */
  predicate WellShaped(items: seq<ResultItem>)
  {
    items != [] && items[0].translations.Some? && items[0].translations.value != []
  }

  /** What `translateText` makes of the HTTP outcome for `text`. */
  function Interpret(text: string, outcome: HttpOutcome): Result<TranslationResult, JsError>
  {
    match outcome
    case NetworkFailure(e) => Failure(e)
    case Response(status, bodyText, json) =>
      if !IsOk(status) then Failure(JsError("Error", ApiErrorMessage(status, bodyText)))
      else match json
        case Unparseable(e) => Failure(e)
        case NotAnArray => Failure(JsError("Error", FormatErrorMessage))
        case Items(items) =>
          if !WellShaped(items) then Failure(JsError("Error", FormatErrorMessage))
          else Success(TranslationResult(items[0].translations.value[0].text, items[0].detectedLanguage, Utf16Length(text)))
  }

  /** `translateText(text, targetLang)` with the worker's key and region. */
  function TranslateText(apiKey: string, apiRegion: string, text: string, targetLang: string,
                         fetch: HttpRequest -> HttpOutcome): GatewayCall
  {
    if apiKey == "" then GatewayCall(None, Failure(JsError("Error", KeyMissingMessage)))
    else
      var request := HttpRequest(TranslateUrl(targetLang), apiKey, apiRegion, text);
      GatewayCall(Some(request), Interpret(text, fetch(request)))
  }

  /** Without a key the call fails before any request is made. */
  lemma MissingKeyFailsBeforeRequest(apiRegion: string, text: string, targetLang: string, fetch: HttpRequest -> HttpOutcome)
    ensures TranslateText("", apiRegion, text, targetLang, fetch) ==
      GatewayCall(None, Failure(JsError("Error", KeyMissingMessage)))
  {
  }

  /** With a key, exactly one request goes out, to the target language's URL,
      carrying the key, the region and the text. */
  lemma KeySendsOneRequest(apiKey: string, apiRegion: string, text: string, targetLang: string, fetch: HttpRequest -> HttpOutcome)
    requires apiKey != ""
    ensures TranslateText(apiKey, apiRegion, text, targetLang, fetch).request ==
      Some(HttpRequest(TranslateUrl(targetLang), apiKey, apiRegion, text))
  {
  }

  /** A non-ok status fails with "API error: <status> - <body>". */
  lemma NonOkStatusFails(apiKey: string, apiRegion: string, text: string, targetLang: string,
                         fetch: HttpRequest -> HttpOutcome, status: nat, bodyText: string, json: Body)
    requires apiKey != ""
    requires fetch(HttpRequest(TranslateUrl(targetLang), apiKey, apiRegion, text)) == Response(status, bodyText, json)
    requires !IsOk(status)
    ensures TranslateText(apiKey, apiRegion, text, targetLang, fetch).result ==
      Failure(JsError("Error", ApiErrorMessage(status, bodyText)))
  {
  }

  /** An ok response whose JSON is not an array, or is an array without
      `data[0].translations[0]`, is a format error. */
  lemma BadShapeFails(apiKey: string, apiRegion: string, text: string, targetLang: string,
                      fetch: HttpRequest -> HttpOutcome, status: nat, bodyText: string, json: Body)
    requires apiKey != ""
    requires fetch(HttpRequest(TranslateUrl(targetLang), apiKey, apiRegion, text)) == Response(status, bodyText, json)
    requires IsOk(status)
    requires json == NotAnArray || (json.Items? && !WellShaped(json.items))
    ensures TranslateText(apiKey, apiRegion, text, targetLang, fetch).result == Failure(JsError("Error", FormatErrorMessage))
  {
  }

  /** A success comes from an ok, well-shaped response and counts the text's
      UTF-16 length. */
  lemma SuccessCountsText(apiKey: string, apiRegion: string, text: string, targetLang: string, fetch: HttpRequest -> HttpOutcome)
    requires TranslateText(apiKey, apiRegion, text, targetLang, fetch).result.Success?
    ensures apiKey != ""
    ensures var outcome := fetch(HttpRequest(TranslateUrl(targetLang), apiKey, apiRegion, text));
      outcome.Response? && IsOk(outcome.status) && outcome.json.Items? && WellShaped(outcome.json.items)
      && TranslateText(apiKey, apiRegion, text, targetLang, fetch).result.value ==
         TranslationResult(outcome.json.items[0].translations.value[0].text,
                           outcome.json.items[0].detectedLanguage, Utf16Length(text))
  {
  }

  /** `/API error: (\d+)/` can match at `j`: the prefix followed by a digit. */
  predicate StatusAt(msg: string, j: nat)
  {
    j + |ApiErrorPrefix| < |msg| && OccursAt(msg, ApiErrorPrefix, j) && IsDigit(msg[j + |ApiErrorPrefix|])
  }

  /** The digits `/API error: (\d+)/` captures at its leftmost match at or
      after `i`, if there is one. */
  function StatusMatchFrom(msg: string, i: nat): (r: Option<string>)
    decreases |msg| - i
    ensures r.Some? ==> |r.value| > 0 && AllDigits(r.value)
  {
    if i + |ApiErrorPrefix| >= |msg| then None
    else if OccursAt(msg, ApiErrorPrefix, i) && IsDigit(msg[i + |ApiErrorPrefix|]) then
      Some(DigitRun(msg[i + |ApiErrorPrefix|..]))
    else StatusMatchFrom(msg, i + 1)
  }

  /** The search finds nothing exactly when the pattern matches nowhere at or
      after `i`; otherwise it captures the digits after the leftmost match. */
  lemma {:induction false} StatusMatchFromIsLeftmost(msg: string, i: nat)
    decreases |msg| - i
    ensures StatusMatchFrom(msg, i).None? <==> forall j :: i <= j ==> !StatusAt(msg, j)
    ensures StatusMatchFrom(msg, i).Some? ==> exists j: nat ::
      LeftmostStatusFrom(msg, i, j) && StatusMatchFrom(msg, i).value == DigitRun(msg[j + |ApiErrorPrefix|..])
  {
    if i + |ApiErrorPrefix| >= |msg| {
    } else if StatusAt(msg, i) {
      assert LeftmostStatusFrom(msg, i, i);
    } else {
      StatusMatchFromIsLeftmost(msg, i + 1);
      var r := StatusMatchFrom(msg, i + 1);
      if r.Some? {
        var j: nat :| LeftmostStatusFrom(msg, i + 1, j) && r.value == DigitRun(msg[j + |ApiErrorPrefix|..]);
        assert LeftmostStatusFrom(msg, i, j);
      } else {
        assert forall j :: i + 1 <= j ==> !StatusAt(msg, j);
      }
    }
  }

  /** `j` is the leftmost place at or after `i` where the pattern can match. */
  predicate LeftmostStatusFrom(msg: string, i: nat, j: nat)
  {
    i <= j && StatusAt(msg, j) && forall j' :: i <= j' < j ==> !StatusAt(msg, j')
  }

  /** `handleDirectTest`'s `statusCode`: the digits after "API error: " when
      the message has them, else "Unknown". */
  function ExtractStatusCode(msg: string): string
  {
    if Contains(msg, ApiErrorPrefix) then
      match StatusMatchFrom(msg, 0)
      case Some(digits) => digits
      case None => "Unknown"
    else "Unknown"
  }

  /** For any message: "Unknown" exactly when `/API error: (\d+)/` matches
      nowhere, and otherwise the digits after its leftmost match. */
  lemma ExtractStatusCodeIsLeftmost(msg: string)
    ensures ExtractStatusCode(msg) == "Unknown" <==> forall j :: 0 <= j ==> !StatusAt(msg, j)
    ensures forall j: nat :: LeftmostStatusFrom(msg, 0, j) ==>
      ExtractStatusCode(msg) == DigitRun(msg[j + |ApiErrorPrefix|..])
  {
    StatusMatchFromIsLeftmost(msg, 0);
    forall j: nat | StatusAt(msg, j) ensures Contains(msg, ApiErrorPrefix) {
      assert OccursAt(msg, ApiErrorPrefix, j);
    }
    var r := StatusMatchFrom(msg, 0);
    if r.Some? {
      assert r.value[0] != 'U';
    }
  }

  /** Reading the status back out of an "API error" message gives the status's
      decimal form, whatever the body says. */
  lemma StatusCodeRoundTrip(status: nat, body: string)
    ensures ExtractStatusCode(ApiErrorMessage(status, body)) == NatToDecimal(status)
  {
    var msg := ApiErrorMessage(status, body);
    var digits := NatToDecimal(status);
    var n := |ApiErrorPrefix|;
    assert OccursAt(msg, ApiErrorPrefix, 0);
    assert msg[n..] == digits + (" - " + body);
    DigitRunOfDigitsThenOther(digits, " - " + body);
  }

  lemma PrefixHasColon(msg: string, i: nat)
    requires OccursAt(msg, ApiErrorPrefix, i)
    ensures msg[i + 9] == ':'
  {
    assert msg[i + 9] == msg[i..i + |ApiErrorPrefix|][9];
  }

  /** A message without a colon carries no status code. */
  lemma NoColonNoStatus(msg: string)
    requires forall i :: 0 <= i < |msg| ==> msg[i] != ':'
    ensures ExtractStatusCode(msg) == "Unknown"
  {
    if Contains(msg, ApiErrorPrefix) {
      var i :| 0 <= i <= |msg| - |ApiErrorPrefix| && OccursAt(msg, ApiErrorPrefix, i);
      PrefixHasColon(msg, i);
      assert false;
    }
  }

  /** The format error reports "Unknown". */
  lemma FormatErrorHasNoStatus()
    ensures ExtractStatusCode(FormatErrorMessage) == "Unknown"
  {
    assert forall i :: 0 <= i < |FormatErrorMessage| ==> FormatErrorMessage[i] != ':';
    NoColonNoStatus(FormatErrorMessage);
  }

  /** `handleDirectTest`: the translation result, or the error's message with
      the status code read out of it. */
  function DirectTest(call: GatewayCall): Reply
  {
    match call.result
    case Success(r) => Translated(r)
    case Failure(e) => TestFailed(e.message, ExtractStatusCode(e.message))
  }

  /** A direct test that meets a non-ok status reports that status. */
  lemma DirectTestReportsStatus(apiKey: string, apiRegion: string, text: string, targetLang: string,
                                fetch: HttpRequest -> HttpOutcome, status: nat, bodyText: string, json: Body)
    requires apiKey != ""
    requires fetch(HttpRequest(TranslateUrl(targetLang), apiKey, apiRegion, text)) == Response(status, bodyText, json)
    requires !IsOk(status)
    ensures DirectTest(TranslateText(apiKey, apiRegion, text, targetLang, fetch)) ==
      TestFailed(ApiErrorMessage(status, bodyText), NatToDecimal(status))
  {
    StatusCodeRoundTrip(status, bodyText);
  }
}
