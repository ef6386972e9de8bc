/** The content script: its settings and quota gate, the deduplicating
    message pipeline (`processChatMessage`), and the session state that the
    observer set-up and YouTube's in-page navigation act on. The background
    worker's answer to a runtime message is a parameter `respond` (`None`
    when `sendMessage` rejects); the page is a value of `Dom.Page`. */
module Content {
  import opened Wrappers
  import opened JsString
  import opened Dom
  import opened Filter
  import opened Protocol
  import opened Discovery
  import Gateway
  import Background

  /** The free tier's monthly ceiling, in UTF-16 code units. */
  const MaxQuota := 2000000

  datatype Settings = Settings(isEnabled: bool, targetLang: string, quota: int)

  const DefaultSettings := Settings(true, "en", 0)

  const TranslationClass := "yt-translator-translation"

  /** What `translateText` did: the message it sent, if any, the translation
      it returned, if any, and the quota afterwards. */
  datatype TranslateOutcome = TranslateOutcome(request: Option<Message>, translated: Option<string>, quota: int)

  /** The gate in front of the request: enabled, under the ceiling, and the
      text passes the filter for the target language. */
  predicate Open(s: Settings, text: string)
  {
    s.isEnabled && s.quota < MaxQuota && ShouldTranslate(text, s.targetLang)
  }

  /** `response && response.translatedText`: a translation with a non-empty text. */
  function TranslationOf(response: Option<Reply>): Option<TranslationResult>
  {
    match response
    case Some(Translated(result)) => if result.translatedText != "" then Some(result) else None
    case _ => None
  }

  /** `translateText(text)` with settings `s`. */
  function Translate(s: Settings, text: string, respond: Message -> Option<Reply>): TranslateOutcome
  {
    if !Open(s, text) then TranslateOutcome(None, None, s.quota)
    else
      var msg := Message("translate", text, s.targetLang);
      match TranslationOf(respond(msg))
      case None => TranslateOutcome(Some(msg), None, s.quota)
      case Some(result) => TranslateOutcome(Some(msg), Some(result.translatedText), s.quota + result.charCount)
  }

  /** Disabled, over the ceiling or filtered out: nothing is sent, nothing is
      returned and the quota stays. Otherwise exactly one "translate" message
      carrying the text and the target language goes out. */
  lemma GateDecidesRequest(s: Settings, text: string, respond: Message -> Option<Reply>)
    ensures !s.isEnabled ==> Translate(s, text, respond) == TranslateOutcome(None, None, s.quota)
    ensures s.quota >= MaxQuota ==> Translate(s, text, respond) == TranslateOutcome(None, None, s.quota)
    ensures !ShouldTranslate(text, s.targetLang) ==> Translate(s, text, respond) == TranslateOutcome(None, None, s.quota)
    ensures Translate(s, text, respond).request.Some? <==> Open(s, text)
    ensures Open(s, text) ==> Translate(s, text, respond).request == Some(Message("translate", text, s.targetLang))
  {
  }

  /** The gate admits the same texts as the source's, whose emoji test never
      fires, on every text that is not pure emoji. */
  lemma GateAgreesWithSourceAwayFromEmoji(s: Settings, text: string)
    requires !EmojiOnly(text)
    ensures Open(s, text) <==> s.isEnabled && s.quota < MaxQuota && ShouldTranslateAsWritten(text, s.targetLang)
  {
    AsWrittenAgreesAwayFromEmoji(text, s.targetLang);
  }

  /** The quota grows by exactly the reply's `charCount` when a non-empty
      translation comes back, and stays put on every other path; it never
      shrinks. */
  lemma QuotaGrowsByCharCount(s: Settings, text: string, respond: Message -> Option<Reply>)
    ensures var out := Translate(s, text, respond);
      && (out.translated.Some? <==> out.request.Some? && TranslationOf(respond(out.request.value)).Some?)
      && (out.translated.Some? ==>
            var r := TranslationOf(respond(out.request.value)).value;
            out.translated.value == r.translatedText && out.translated.value != "" && out.quota == s.quota + r.charCount)
      && (out.translated.None? ==> out.quota == s.quota)
      && out.quota >= s.quota
  {
  }

  /** Joined with the worker: when the worker dispatches the request and the
      service answers, the quota grows by the text's length in UTF-16 code
      units. */
  lemma QuotaCountsUtf16Units(s: Settings, text: string, apiKey: string, apiRegion: string,
                              fetch: Gateway.HttpRequest -> Gateway.HttpOutcome)
    requires Open(s, text)
    requires Gateway.TranslateText(apiKey, apiRegion, text, s.targetLang, fetch).result.Success?
    requires Gateway.TranslateText(apiKey, apiRegion, text, s.targetLang, fetch).result.value.translatedText != ""
    ensures var respond := (m: Message) => Some(Background.TranslateReply(Gateway.TranslateText(apiKey, apiRegion, m.text, m.targetLang, fetch)));
      Translate(s, text, respond).quota == s.quota + Utf16Length(text)
  {
    Gateway.SuccessCountsText(apiKey, apiRegion, text, s.targetLang, fetch);
  }

  /** The selectors tried for the message text, in order: `span#message`,
      then `#content-text`, `#message`, `#content` and `.chat-message`. */
  const TextSelectors: seq<Selector> := [
    Plain(AnyElement.(tag := Some("span"), id := Some("message"))),
    Plain(IdIs("content-text")),
    Plain(IdIs("message")),
    Plain(IdIs("content")),
    Plain(ClassIs("chat-message"))
  ]

  function TextProbe(e: Element): Selector -> Option<Hit>
  {
    (s: Selector) => ElementQuery(e, [s])
  }

  /** The element holding a message's text: what the first selector that
      finds anything inside the message finds. */
  function TextElement(e: Element): Option<Element>
  {
    match FirstMatch(TextSelectors, TextProbe(e))
    case None => None
    case Some(found) => Some(found.value.element)
  }

  /** The text element is the one the first selector, in list order, finds
      inside the message. */
  lemma TextElementByFirstSelector(e: Element, i: nat)
    requires i < |TextSelectors| && ElementQuery(e, [TextSelectors[i]]).Some?
    requires forall j :: 0 <= j < i ==> ElementQuery(e, [TextSelectors[j]]).None?
    ensures TextElement(e) == Some(ElementQuery(e, [TextSelectors[i]]).value.element)
  {
    FirstMatchAt(TextSelectors, TextProbe(e), i);
  }

  /** Why a message is passed over. */
  datatype Skip = NoTagName | AlreadyProcessed | NoTextElement | EmptyText

  /** A message the pipeline takes on: its id, its text element and the
      trimmed text. */
  datatype Claim = Claim(id: string, textElement: Element, text: string)

  /** The checks of `processChatMessage` in source order. */
  function ClaimOf(processed: set<string>, e: Element): (r: Result<Claim, Skip>)
    ensures r.Success? ==> r.value.id == e.id && r.value.text != "" && TextElement(e) == Some(r.value.textElement)
  {
    if e.tag == "" then Failure(NoTagName)
    else if e.id in processed then Failure(AlreadyProcessed)
    else match TextElement(e)
      case None => Failure(NoTextElement)
      case Some(span) =>
        var text := Trim(TextContent(span));
        if text == "" then Failure(EmptyText) else Success(Claim(e.id, span, text))
  }

  /** The span appended after a translation `t`. */
  function Annotation(t: string): Element
  {
    Element("span", "", TranslationClass, " \U{1F310} " + t, [])
  }

  /** What one call of `processChatMessage` did. */
  datatype Outcome =
    | Skipped(reason: Skip)
    | Claimed(claim: Claim, request: Option<Message>, annotated: Option<Element>)

  /** The state the pipeline reads and writes. */
  datatype Session = Session(processed: set<string>, settings: Settings)

  datatype Processed = Processed(session: Session, outcome: Outcome)

  /** `processChatMessage(e)` in session `st`. */
  function ProcessOne(st: Session, e: Element, respond: Message -> Option<Reply>): Processed
  {
    match ClaimOf(st.processed, e)
    case Failure(reason) => Processed(st, Skipped(reason))
    case Success(c) =>
      var out := Translate(st.settings, c.text, respond);
      var annotated := match out.translated
        case None => None
        case Some(t) => Some(AppendChild(c.textElement, Annotation(t)));
      Processed(Session(st.processed + {c.id}, st.settings.(quota := out.quota)), Claimed(c, out.request, annotated))
  }

  /** A message is taken on exactly when it has a tag name, its id is new,
      a text element is found and its trimmed text is not empty; then exactly
      its id is added. A skipped message changes nothing. */
  lemma ClaimExactly(st: Session, e: Element, respond: Message -> Option<Reply>)
    ensures var p := ProcessOne(st, e, respond);
      && (p.outcome.Claimed? <==>
            e.tag != "" && e.id !in st.processed && TextElement(e).Some? && Trim(TextContent(TextElement(e).value)) != "")
      && (p.outcome.Claimed? ==> p.session.processed == st.processed + {e.id} && p.outcome.claim.id == e.id)
      && (p.outcome.Skipped? ==> p.session == st)
      && st.processed <= p.session.processed
      && p.session.settings == st.settings.(quota := p.session.settings.quota)
  {
  }

  /** The claimed text is the trimmed text content of the text element, and
      it is what the translation request carries. */
  lemma ClaimedTextIsRequested(st: Session, e: Element, respond: Message -> Option<Reply>)
    requires ProcessOne(st, e, respond).outcome.Claimed?
    ensures var o := ProcessOne(st, e, respond).outcome;
      && o.claim.text == Trim(TextContent(o.claim.textElement))
      && Contains(TextContent(o.claim.textElement), o.claim.text)
      && (o.request.Some? ==> o.request.value == Message("translate", o.claim.text, st.settings.targetLang))
  {
  }

  /** A translation is shown by appending one span after the text element's
      content: the element keeps its own text and children and gains the
      globe marker and the translation at the end. */
  lemma AnnotationAppendsOneSpan(st: Session, e: Element, respond: Message -> Option<Reply>)
    requires ProcessOne(st, e, respond).outcome.Claimed?
    requires ProcessOne(st, e, respond).outcome.annotated.Some?
    ensures var o := ProcessOne(st, e, respond).outcome;
      var a := o.annotated.value;
      var t := Translate(st.settings, o.claim.text, respond).translated.value;
      && t != ""
      && a.children == o.claim.textElement.children + [Annotation(t)]
      && TextContent(a) == TextContent(o.claim.textElement) + " \U{1F310} " + t
  {
    var o := ProcessOne(st, e, respond).outcome;
    var t := Translate(st.settings, o.claim.text, respond).translated.value;
    AppendChildKeepsText(o.claim.textElement, Annotation(t));
  }

  /** Once taken on, a message is skipped from then on, whatever the
      translation did; and so is any other message with the same id. */
  lemma ReprocessingIsNoOp(st: Session, e: Element, e2: Element, respond: Message -> Option<Reply>)
    requires ProcessOne(st, e, respond).outcome.Claimed?
    requires e2.tag != "" && e2.id == e.id
    ensures var after := ProcessOne(st, e, respond).session;
      ProcessOne(after, e2, respond) == Processed(after, Skipped(AlreadyProcessed))
  {
  }

  /** A message without an id is recorded under "": after one is taken on,
      every later message without an id is skipped for the session. */
  lemma IdlessMessagesShareOneSlot(st: Session, e: Element, e2: Element, respond: Message -> Option<Reply>)
    requires e.id == "" && e2.id == "" && e2.tag != ""
    requires ProcessOne(st, e, respond).outcome.Claimed?
    ensures ProcessOne(ProcessOne(st, e, respond).session, e2, respond).outcome == Skipped(AlreadyProcessed)
  {
  }

  /** The pipeline run over a sequence of messages, in order. */
  datatype Batch = Batch(session: Session, outcomes: seq<Outcome>)

  function ProcessBatch(st: Session, es: seq<Element>, respond: Message -> Option<Reply>): (b: Batch)
    decreases |es|
    ensures |b.outcomes| == |es|
  {
    if es == [] then Batch(st, [])
    else
      var prev := ProcessBatch(st, es[..|es| - 1], respond);
      var p := ProcessOne(prev.session, es[|es| - 1], respond);
      Batch(p.session, prev.outcomes + [p.outcome])
  }

  /** Two runs one after the other are one run over the concatenation. */
  lemma {:induction false} ProcessBatchAppend(st: Session, a: seq<Element>, b: seq<Element>, respond: Message -> Option<Reply>)
    decreases |b|
    ensures var first := ProcessBatch(st, a, respond);
      var second := ProcessBatch(first.session, b, respond);
      ProcessBatch(st, a + b, respond) == Batch(second.session, first.outcomes + second.outcomes)
  {
    if b == [] {
      assert a + b == a;
    } else {
      assert (a + b)[..|a + b| - 1] == a + b[..|b| - 1];
      assert (a + b)[|a + b| - 1] == b[|b| - 1];
      ProcessBatchAppend(st, a, b[..|b| - 1], respond);
    }
  }

  /** The ids of the messages a run took on. */
  function ClaimedIds(outcomes: seq<Outcome>): set<string>
  {
    set k | 0 <= k < |outcomes| && outcomes[k].Claimed? :: outcomes[k].claim.id
  }

  lemma ClaimedIdsSnoc(outs: seq<Outcome>, o: Outcome)
    ensures ClaimedIds(outs + [o]) == ClaimedIds(outs) + (if o.Claimed? then {o.claim.id} else {})
  {
    var all := outs + [o];
    forall x | x in ClaimedIds(all) ensures x in ClaimedIds(outs) + (if o.Claimed? then {o.claim.id} else {}) {
      var k :| 0 <= k < |all| && all[k].Claimed? && all[k].claim.id == x;
      if k < |outs| {
        assert outs[k] == all[k];
      }
    }
    forall x | x in ClaimedIds(outs) ensures x in ClaimedIds(all) {
      var k :| 0 <= k < |outs| && outs[k].Claimed? && outs[k].claim.id == x;
      assert all[k] == outs[k];
    }
    if o.Claimed? {
      assert all[|outs|] == o;
    }
  }

  /** A run adds exactly the ids it took on and never removes one; it only
      ever raises the quota and changes no other setting. */
  lemma {:induction false} BatchRecordsClaims(st: Session, es: seq<Element>, respond: Message -> Option<Reply>)
    decreases |es|
    ensures var b := ProcessBatch(st, es, respond);
      && b.session.processed == st.processed + ClaimedIds(b.outcomes)
      && b.session.settings == st.settings.(quota := b.session.settings.quota)
      && b.session.settings.quota >= st.settings.quota
  {
    if es != [] {
      var init := es[..|es| - 1];
      var prev := ProcessBatch(st, init, respond);
      BatchRecordsClaims(st, init, respond);
      var e := es[|es| - 1];
      ClaimExactly(prev.session, e, respond);
      ClaimedIdsSnoc(prev.outcomes, ProcessOne(prev.session, e, respond).outcome);
      var claim := ClaimOf(prev.session.processed, e);
      if claim.Success? {
        QuotaGrowsByCharCount(prev.session.settings, claim.value.text, respond);
      }
    }
  }

  /** One more message, after earlier ones that only added ids: if it is
      taken on, it is under its own id and that id was not recorded at first. */
  lemma ClaimIsFresh(initial: set<string>, st: Session, e: Element, respond: Message -> Option<Reply>)
    requires initial <= st.processed
    ensures var o := ProcessOne(st, e, respond).outcome;
      o.Claimed? ==> o.claim.id !in initial && o.claim.id == e.id
  {
    ClaimExactly(st, e, respond);
  }

  /** Every message a run takes on is the one at that position, and its id
      was not recorded when the run began. */
  lemma {:induction false} BatchClaimsFresh(st: Session, es: seq<Element>, respond: Message -> Option<Reply>)
    decreases |es|
    ensures var b := ProcessBatch(st, es, respond);
      forall k :: 0 <= k < |b.outcomes| && b.outcomes[k].Claimed? ==>
        b.outcomes[k].claim.id !in st.processed && b.outcomes[k].claim.id == es[k].id
  {
    if es != [] {
      var init := es[..|es| - 1];
      var prev := ProcessBatch(st, init, respond);
      BatchClaimsFresh(st, init, respond);
      assert st.processed <= prev.session.processed by {
        BatchRecordsClaims(st, init, respond);
      }
      var e := es[|es| - 1];
      var o := ProcessOne(prev.session, e, respond).outcome;
      ClaimIsFresh(st.processed, prev.session, e, respond);
      FreshClaimsSnoc(st.processed, init, e, prev.outcomes, o);
      assert es == init + [e];
    }
  }

  /** Appending one outcome whose claim, if any, is fresh and under the new
      message's id keeps every claim fresh and under its own message's id. */
  lemma FreshClaimsSnoc(initial: set<string>, init: seq<Element>, e: Element, outs: seq<Outcome>, o: Outcome)
    requires |outs| == |init|
    requires forall k :: 0 <= k < |outs| && outs[k].Claimed? ==>
      outs[k].claim.id !in initial && outs[k].claim.id == init[k].id
    requires o.Claimed? ==> o.claim.id !in initial && o.claim.id == e.id
    ensures var all := outs + [o]; var es := init + [e];
      forall k :: 0 <= k < |all| && all[k].Claimed? ==>
        all[k].claim.id !in initial && all[k].claim.id == es[k].id
  {
    var all := outs + [o];
    var es := init + [e];
    forall k | 0 <= k < |all| && all[k].Claimed?
      ensures all[k].claim.id !in initial && all[k].claim.id == es[k].id
    {
      if k < |outs| {
        assert all[k] == outs[k] && es[k] == init[k];
      }
    }
  }

  /** Within a run, no id is taken on twice: each message is translated at
      most once per session. */
  lemma {:induction false} BatchClaimsDistinct(st: Session, es: seq<Element>, respond: Message -> Option<Reply>)
    decreases |es|
    ensures var b := ProcessBatch(st, es, respond);
      forall k, l :: 0 <= k < l < |b.outcomes| && b.outcomes[k].Claimed? && b.outcomes[l].Claimed? ==>
        b.outcomes[k].claim.id != b.outcomes[l].claim.id
  {
    if es != [] {
      var init := es[..|es| - 1];
      var prev := ProcessBatch(st, init, respond);
      BatchClaimsDistinct(st, init, respond);
      BatchRecordsClaims(st, init, respond);
      var e := es[|es| - 1];
      ClaimExactly(prev.session, e, respond);
      var outs := ProcessBatch(st, es, respond).outcomes;
      assert forall k :: 0 <= k < |init| ==> outs[k] == prev.outcomes[k];
      forall k, l | 0 <= k < l < |outs| && outs[k].Claimed? && outs[l].Claimed?
        ensures outs[k].claim.id != outs[l].claim.id
      {
        if l == |init| {
          assert outs[k].claim.id in ClaimedIds(prev.outcomes);
        }
      }
    }
  }

  /** A run that starts from an empty set, as after a navigation, takes on a
      message that has a tag name and a non-empty text and whose id no
      earlier message of the run had. */
  lemma {:induction false} FreshSessionClaimsNewIds(settings: Settings, es: seq<Element>, respond: Message -> Option<Reply>, k: nat)
    requires k < |es| && es[k].tag != "" && TextElement(es[k]).Some? && Trim(TextContent(TextElement(es[k]).value)) != ""
    requires forall j :: 0 <= j < k ==> es[j].id != es[k].id
    ensures ProcessBatch(Session({}, settings), es, respond).outcomes[k].Claimed?
    decreases |es|
  {
    var st := Session({}, settings);
    if k < |es| - 1 {
      FreshSessionClaimsNewIds(settings, es[..|es| - 1], respond, k);
      assert ProcessBatch(st, es, respond).outcomes[k] == ProcessBatch(st, es[..|es| - 1], respond).outcomes[k];
    } else {
      var init := es[..|es| - 1];
      var prev := ProcessBatch(st, init, respond);
      assert es[k].id !in prev.session.processed by {
        BatchRecordsClaims(st, init, respond);
        BatchClaimsFresh(st, init, respond);
        forall j | 0 <= j < |prev.outcomes| && prev.outcomes[j].Claimed?
          ensures prev.outcomes[j].claim.id != es[k].id
        {
          assert init[j] == es[j];
        }
      }
      ClaimExactly(prev.session, es[k], respond);
      assert ProcessBatch(st, es, respond).outcomes[k] == ProcessOne(prev.session, es[k], respond).outcome;
    }
  }

  /** Where an observer is attached, and whether it watches the whole
      subtree (only when the container is the body element). */
  datatype Observation = Observation(container: Container, subtree: bool)

  /** The observer options: `subtree` exactly when `chatContainer ===
      document.body`. */
  function ObservationOf(c: Container, root: Element): Observation
  {
    Observation(c, ObservedElement(c, root) == DocumentBody(root))
  }

  /** The body fallback watches the whole subtree. */
  lemma BodyFallbackWatchesSubtree(root: Element)
    requires DiscoverContainer(root).Body?
    ensures ObservationOf(DiscoverContainer(root), root).subtree
  {
  }

  /** A container selector that finds the body element itself also watches
      the whole subtree; one that finds any other element watches only the
      container's children. */
  lemma SelectedBodyWatchesSubtree(root: Element, i: nat)
    requires i < |ContainerSelectors| && DocumentQuery(root, [ContainerSelectors[i]]).Some?
    requires forall j :: 0 <= j < i ==> DocumentQuery(root, [ContainerSelectors[j]]).None?
    ensures var e := DocumentQuery(root, [ContainerSelectors[i]]).value.element;
      ObservationOf(DiscoverContainer(root), root) == Observation(BySelector(i, e), DocumentBody(root) == Some(e))
  {
    FirstContainerSelectorWins(root, i);
  }

  /** The content script's module-level state. `observers` lists every
      MutationObserver it has started, in order; none is ever disconnected. */
  class ContentScript {
    var settings: Settings
    var processedMessages: set<string>
    var observerInitialized: bool
    var observers: seq<Observation>

    function Current(): Session
      reads this
    {
      Session(processedMessages, settings)
    }

    constructor()
      ensures settings == DefaultSettings && processedMessages == {}
      ensures !observerInitialized && observers == []
    {
      settings := DefaultSettings;
      processedMessages := {};
      observerInitialized := false;
      observers := [];
    }

    /** `loadSettings`' storage callback: a stored flag or quota replaces the
        current one when present; a stored language only when non-empty. */
    method LoadSettings(isEnabled: Option<bool>, targetLang: Option<string>, quota: Option<int>)
      modifies this`settings
      ensures settings.isEnabled == (if isEnabled.Some? then isEnabled.value else old(settings.isEnabled))
      ensures settings.targetLang == (if targetLang.Some? && targetLang.value != "" then targetLang.value else old(settings.targetLang))
      ensures settings.quota == (if quota.Some? then quota.value else old(settings.quota))
    {
      if isEnabled.Some? {
        settings := settings.(isEnabled := isEnabled.value);
      }
      if targetLang.Some? && targetLang.value != "" {
        settings := settings.(targetLang := targetLang.value);
      }
      if quota.Some? {
        settings := settings.(quota := quota.value);
      }
    }

    /** The `chrome.storage.onChanged` listener: every changed setting takes
        its new value. */
    method OnSettingsChanged(isEnabled: Option<bool>, targetLang: Option<string>, quota: Option<int>)
      modifies this`settings
      ensures settings.isEnabled == (if isEnabled.Some? then isEnabled.value else old(settings.isEnabled))
      ensures settings.targetLang == (if targetLang.Some? then targetLang.value else old(settings.targetLang))
      ensures settings.quota == (if quota.Some? then quota.value else old(settings.quota))
    {
      if isEnabled.Some? {
        settings := settings.(isEnabled := isEnabled.value);
      }
      if targetLang.Some? {
        settings := settings.(targetLang := targetLang.value);
      }
      if quota.Some? {
        settings := settings.(quota := quota.value);
      }
    }

    /** `translateText`: only the quota changes. */
    method TranslateText(text: string, respond: Message -> Option<Reply>) returns (translated: Option<string>, request: Option<Message>)
      modifies this`settings
      ensures TranslateOutcome(request, translated, settings.quota) == Translate(old(settings), text, respond)
      ensures settings == old(settings).(quota := settings.quota)
    {
      if !settings.isEnabled {
        return None, None;
      }
      if settings.quota >= MaxQuota {
        return None, None;
      }
      if !ShouldTranslate(text, settings.targetLang) {
        return None, None;
      }
      var msg := Message("translate", text, settings.targetLang);
      request := Some(msg);
      var response := respond(msg);
      match TranslationOf(response)
      case Some(result) =>
        settings := settings.(quota := settings.quota + result.charCount);
        translated := Some(result.translatedText);
      case None =>
        translated := None;
    }

    /** `processChatMessage`: the id is recorded before the translation is
        asked for; a translation is appended to (a copy of) the text element,
        which is returned in the outcome. */
    method ProcessChatMessage(e: Element, respond: Message -> Option<Reply>) returns (outcome: Outcome)
      modifies this`processedMessages, this`settings
      ensures Processed(Current(), outcome) == ProcessOne(old(Current()), e, respond)
    {
      if e.tag == "" {
        return Skipped(NoTagName);
      }
      var messageId := e.id;
      if messageId in processedMessages {
        return Skipped(AlreadyProcessed);
      }
      var messageSpan := TextElement(e);
      if messageSpan.None? {
        return Skipped(NoTextElement);
      }
      var originalText := Trim(TextContent(messageSpan.value));
      if originalText == "" {
        return Skipped(EmptyText);
      }
      processedMessages := processedMessages + {messageId};
      var translated, request := TranslateText(originalText, respond);
      var annotated: Option<Element> := None;
      if translated.Some? {
        annotated := Some(AppendChild(messageSpan.value, Annotation(translated.value)));
      }
      outcome := Claimed(Claim(messageId, messageSpan.value, originalText), request, annotated);
    }

    /** `processChatMessage` on each element in order. */
    method ProcessAll(es: seq<Element>, respond: Message -> Option<Reply>) returns (outcomes: seq<Outcome>)
      modifies this`processedMessages, this`settings
      ensures Batch(Current(), outcomes) == ProcessBatch(old(Current()), es, respond)
    {
      outcomes := [];
      var i := 0;
      while i < |es|
        invariant 0 <= i <= |es|
        invariant Batch(Current(), outcomes) == ProcessBatch(old(Current()), es[..i], respond)
      {
        assert es[..i + 1][..i] == es[..i];
        var o := ProcessChatMessage(es[i], respond);
        outcomes := outcomes + [o];
        i := i + 1;
      }
      assert es[..i] == es;
    }

    /** `observeLiveChat`: the messages found in the page (or its first
        reachable iframe that has some) go through the pipeline. */
    method ObserveLiveChat(page: Page, respond: Message -> Option<Reply>) returns (outcomes: seq<Outcome>)
      modifies this`processedMessages, this`settings
      ensures Batch(Current(), outcomes) == ProcessBatch(old(Current()), LiveChatMessages(page), respond)
    {
      outcomes := ProcessAll(LiveChatMessages(page), respond);
    }

    /** `setupObserver`: once per session, attach an observer to the
        discovered container, then process the messages already there. */
    method SetupObserver(page: Page, respond: Message -> Option<Reply>) returns (outcomes: seq<Outcome>)
      modifies this
      ensures observerInitialized
      ensures old(observerInitialized) ==> outcomes == [] && observers == old(observers) && Current() == old(Current())
      ensures !old(observerInitialized) ==>
        && observers == old(observers) + [ObservationOf(DiscoverContainer(page.root), page.root)]
        && Batch(Current(), outcomes) == ProcessBatch(old(Current()), LiveChatMessages(page), respond)
    {
      if observerInitialized {
        return [];
      }
      var chatContainer := FindContainer(page.root);
      observers := observers + [ObservationOf(chatContainer, page.root)];
      observerInitialized := true;
      outcomes := ObserveLiveChat(page, respond);
    }

    /** The `yt-navigate-finish` listener: forget the session, then set up
        again. The previous observer stays attached. */
    method OnNavigate(page: Page, respond: Message -> Option<Reply>) returns (outcomes: seq<Outcome>)
      modifies this
      ensures observerInitialized
      ensures observers == old(observers) + [ObservationOf(DiscoverContainer(page.root), page.root)]
      ensures Batch(Current(), outcomes) == ProcessBatch(Session({}, old(settings)), LiveChatMessages(page), respond)
    {
      observerInitialized := false;
      processedMessages := {};
      outcomes := SetupObserver(page, respond);
    }

    /** The five-second interval: set up if no observer is live, then search
        for messages again. */
    method Tick(page: Page, respond: Message -> Option<Reply>) returns (outcomes: seq<Outcome>)
      modifies this
      ensures observerInitialized
      ensures observers == old(observers) + (if old(observerInitialized) then [] else [ObservationOf(DiscoverContainer(page.root), page.root)])
      ensures Batch(Current(), outcomes) == ProcessBatch(old(Current()),
        (if old(observerInitialized) then [] else LiveChatMessages(page)) + LiveChatMessages(page), respond)
    {
      outcomes := [];
      if !observerInitialized {
        outcomes := SetupObserver(page, respond);
      }
      var more := ObserveLiveChat(page, respond);
      ProcessBatchAppend(old(Current()), if old(observerInitialized) then [] else LiveChatMessages(page), LiveChatMessages(page), respond);
      outcomes := outcomes + more;
    }

    /** The mutation callback: every candidate of every record, in order. */
    method OnMutations(records: seq<MutationRecord>, respond: Message -> Option<Reply>) returns (outcomes: seq<Outcome>)
      modifies this`processedMessages, this`settings
      ensures Batch(Current(), outcomes) == ProcessBatch(old(Current()), MutationCandidates(records), respond)
    {
      outcomes := ProcessAll(MutationCandidates(records), respond);
    }
  }
}
