/** How the content script finds things in YouTube's page: one generic
    "first candidate that yields something" resolver, the selector tables it
    is applied to, the chat-container discovery of `setupObserver`, the
    message search of `observeLiveChat` and the added-node filter of the
    mutation callback. */
module Discovery {
  import opened Wrappers
  import opened JsString
  import opened Dom

  /** The candidate at `index` was the first to yield `value`. */
  datatype Found<+R> = Found(index: nat, value: R)

  /** Try the candidates in order and stop at the first that yields a value. */
  function FirstMatch<S, R>(xs: seq<S>, f: S -> Option<R>): (r: Option<Found<R>>)
    ensures r.None? <==> forall i :: 0 <= i < |xs| ==> f(xs[i]).None?
    ensures r.Some? ==> r.value.index < |xs| && f(xs[r.value.index]) == Some(r.value.value)
    ensures r.Some? ==> forall j :: 0 <= j < r.value.index ==> f(xs[j]).None?
  {
    if xs == [] then None
    else match f(xs[0])
      case Some(v) => Some(Found(0, v))
      case None =>
        match FirstMatch(xs[1..], f)
        case None => None
        case Some(found) => Some(Found(found.index + 1, found.value))
  }

  /** The first-match result is pinned down by the candidate it reports: the
      first one, in list order, that yields a value. */
  lemma FirstMatchAt<S, R>(xs: seq<S>, f: S -> Option<R>, i: nat)
    requires i < |xs| && f(xs[i]).Some?
    requires forall j :: 0 <= j < i ==> f(xs[j]).None?
    ensures FirstMatch(xs, f) == Some(Found(i, f(xs[i]).value))
  {
  }

  const MessageRenderer := "yt-live-chat-text-message-renderer"
  const PaidMessageRenderer := "yt-live-chat-paid-message-renderer"
  const ItemListRenderer := "yt-live-chat-item-list-renderer"

  /** `setupObserver`'s container selectors, most specific first. */
  const ContainerSelectors: seq<Selector> := [
    Within(TagIs(ItemListRenderer), IdIs("items")),
    Plain(TagIs(ItemListRenderer)),
    Within(IdIs("chat"), IdIs("items")),
    Plain(IdIs("chat-messages")),
    Within(IdIs("item-list"), IdIs("items")),
    Plain(IdIs("chat")),
    Plain(IdIs("live-chat")),
    Plain(IdHas("live-chat")),
    Plain(IdHas("chat"))
  ]

  /** The selectors for "any existing message" that the ancestor walk starts from. */
  const MessageSelectors: seq<Selector> := [
    Plain(TagIs(MessageRenderer)),
    Plain(TagIs(PaidMessageRenderer)),
    Plain(IdHas("message")),
    Plain(ClassHas("chat-message"))
  ]

  /** `observeLiveChat`'s selectors for chat messages. */
  const ChatItemSelectors: seq<Selector> := [
    Plain(TagIs(MessageRenderer)),
    Plain(TagIs(PaidMessageRenderer)),
    Plain(TagIs("yt-live-chat-legacy-paid-message-renderer")),
    Within(IdHas("live-chat"), IdHas("message")),
    Within(ClassHas("chat"), IdHas("message"))
  ]

  /** The selector list the mutation callback runs inside each added element. */
  const NestedMessageSelectors: seq<Selector> := [
    Plain(TagIs(MessageRenderer)),
    Plain(IdHas("message"))
  ]

  /** The ancestor walk looks at no more than this many ancestors. */
  const MaxAncestorSteps := 10

  /** Where the observer is attached. */
  datatype Container =
    | BySelector(index: nat, element: Element)
    | ByAncestor(element: Element)
    | Body

  /** `document.body`: the first `body` child of the document element. */
  function DocumentBody(root: Element): Option<Element>
  {
    match FirstMatch(root.children, (c: Element) => if c.tag == "body" then Some(c) else None)
    case None => None
    case Some(found) => Some(found.value)
  }

  /** The element the observer is attached to (`document.body` for the
      fallback, which is `None` in a page without a body). */
  function ObservedElement(c: Container, root: Element): Option<Element>
  {
    match c
    case BySelector(_, e) => Some(e)
    case ByAncestor(e) => Some(e)
    case Body => DocumentBody(root)
  }

  /** The ancestor `k` steps above a hit (0 is the parent). */
  function Up(ancestors: seq<Element>, k: nat): Element
    requires k < |ancestors|
  {
    ancestors[|ancestors| - 1 - k]
  }

  /** An ancestor the walk adopts: its id mentions "items" or "chat". */
  predicate ContainerLike(e: Element)
  {
    e.id != "" && (Contains(e.id, "items") || Contains(e.id, "chat"))
  }

  /** The number of steps up at which the walk stops on a container-like
      ancestor, looking at no more than `budget` ancestors. */
  function WalkUp(ancestors: seq<Element>, budget: nat): (r: Option<nat>)
    ensures r.Some? ==> r.value < budget && r.value < |ancestors| && ContainerLike(Up(ancestors, r.value))
    ensures r.Some? ==> forall j :: 0 <= j < r.value ==> !ContainerLike(Up(ancestors, j))
    ensures r.None? ==> forall k :: 0 <= k < budget && k < |ancestors| ==> !ContainerLike(Up(ancestors, k))
  {
    if budget == 0 || ancestors == [] then None
    else if ContainerLike(Up(ancestors, 0)) then Some(0)
    else
      var rest := ancestors[..|ancestors| - 1];
      assert forall j :: 1 <= j < |ancestors| ==> Up(ancestors, j) == Up(rest, j - 1);
      match WalkUp(rest, budget - 1)
      case None => None
      case Some(k) => Some(k + 1)
  }

  /** The container the walk adopts above the first element `s` selects. */
  function AdoptAncestor(root: Element, s: Selector): Option<Element>
  {
    match DocumentQuery(root, [s])
    case None => None
    case Some(hit) =>
      match WalkUp(hit.ancestors, MaxAncestorSteps)
      case None => None
      case Some(k) => Some(Up(hit.ancestors, k))
  }

  function ContainerProbe(root: Element): Selector -> Option<Hit>
  {
    (s: Selector) => DocumentQuery(root, [s])
  }

  function AncestorProbe(root: Element): Selector -> Option<Element>
  {
    (s: Selector) => AdoptAncestor(root, s)
  }

  /** The discovery order of `setupObserver`: the container selectors, then
      the ancestor walk from each message selector, then the body. */
  function DiscoverContainer(root: Element): Container
  {
    match FirstMatch(ContainerSelectors, ContainerProbe(root))
    case Some(found) => BySelector(found.index, found.value.element)
    case None =>
      match FirstMatch(MessageSelectors, AncestorProbe(root))
      case Some(found) => ByAncestor(found.value)
      case None => Body
  }

  /** The first container selector, in list order, that matches decides. */
  lemma FirstContainerSelectorWins(root: Element, i: nat)
    requires i < |ContainerSelectors| && DocumentQuery(root, [ContainerSelectors[i]]).Some?
    requires forall j :: 0 <= j < i ==> DocumentQuery(root, [ContainerSelectors[j]]).None?
    ensures DiscoverContainer(root) == BySelector(i, DocumentQuery(root, [ContainerSelectors[i]]).value.element)
  {
    FirstMatchAt(ContainerSelectors, ContainerProbe(root), i);
  }

  /** `e` is `k` steps above the first element message selector `i` finds,
      and `k` is within the walk's bound. */
  predicate AdoptedFrom(root: Element, i: nat, k: nat, e: Element)
  {
    && i < |MessageSelectors| && k < MaxAncestorSteps
    && var hit := DocumentQuery(root, [MessageSelectors[i]]);
    && hit.Some? && k < |hit.value.ancestors| && e == Up(hit.value.ancestors, k)
  }

  /** An adopted ancestor is container-like, at most ten steps above a message
      element, and no container selector matched. */
  lemma AdoptedAncestorIsNear(root: Element)
    requires DiscoverContainer(root).ByAncestor?
    ensures forall j :: 0 <= j < |ContainerSelectors| ==> DocumentQuery(root, [ContainerSelectors[j]]).None?
    ensures ContainerLike(DiscoverContainer(root).element)
    ensures exists i, k :: AdoptedFrom(root, i, k, DiscoverContainer(root).element)
  {
    var found := FirstMatch(MessageSelectors, AncestorProbe(root)).value;
    var hit := DocumentQuery(root, [MessageSelectors[found.index]]).value;
    var k := WalkUp(hit.ancestors, MaxAncestorSteps).value;
    assert AdoptedFrom(root, found.index, k, DiscoverContainer(root).element);
  }

  /** With no selector matching and no ancestor adopted, the body is observed. */
  lemma BodyIsLastResort(root: Element)
    requires forall j :: 0 <= j < |ContainerSelectors| ==> DocumentQuery(root, [ContainerSelectors[j]]).None?
    requires forall j :: 0 <= j < |MessageSelectors| ==> AdoptAncestor(root, MessageSelectors[j]).None?
    ensures DiscoverContainer(root) == Body
  {
    assert FirstMatch(ContainerSelectors, ContainerProbe(root)).None?;
    assert FirstMatch(MessageSelectors, AncestorProbe(root)).None?;
  }

  /** `setupObserver`'s search, as the source writes it: a selector loop that
      breaks at the first match, then for each message selector a walk up the
      parents that stops after ten steps, then the body. */
  method FindContainer(root: Element) returns (c: Container)
    ensures c == DiscoverContainer(root)
  {
    var i := 0;
    var chat: Option<Hit> := None;
    while i < |ContainerSelectors|
      invariant 0 <= i <= |ContainerSelectors|
      invariant forall j :: 0 <= j < i ==> DocumentQuery(root, [ContainerSelectors[j]]).None?
      invariant chat.None?
    {
      chat := DocumentQuery(root, [ContainerSelectors[i]]);
      if chat.Some? {
        break;
      }
      i := i + 1;
    }
    if chat.Some? {
      FirstMatchAt(ContainerSelectors, ContainerProbe(root), i);
      return BySelector(i, chat.value.element);
    }
    assert FirstMatch(ContainerSelectors, ContainerProbe(root)).None?;

    var m := 0;
    while m < |MessageSelectors|
      invariant 0 <= m <= |MessageSelectors|
      invariant forall j :: 0 <= j < m ==> AdoptAncestor(root, MessageSelectors[j]).None?
    {
      var anyMessage := DocumentQuery(root, [MessageSelectors[m]]);
      if anyMessage.Some? {
        var adopted := ParentWalk(anyMessage.value.ancestors);
        assert AdoptAncestor(root, MessageSelectors[m]) == adopted;
        if adopted.Some? {
          FirstMatchAt(MessageSelectors, AncestorProbe(root), m);
          return ByAncestor(adopted.value);
        }
      }
      m := m + 1;
    }
    assert FirstMatch(MessageSelectors, AncestorProbe(root)).None?;
    c := Body;
  }

  /** The walk up the `parentElement` chain: at most ten steps, stopping at
      the first container-like ancestor. */
  method ParentWalk(ancestors: seq<Element>) returns (adopted: Option<Element>)
    ensures adopted == (match WalkUp(ancestors, MaxAncestorSteps)
                        case None => None
                        case Some(k) => Some(Up(ancestors, k)))
  {
    var iteration := 0;
    adopted := None;
    while iteration < |ancestors| && iteration < MaxAncestorSteps
      invariant 0 <= iteration <= |ancestors| && iteration <= MaxAncestorSteps
      invariant forall j :: 0 <= j < iteration ==> !ContainerLike(Up(ancestors, j))
      invariant adopted.None?
    {
      var parent := Up(ancestors, iteration);
      if ContainerLike(parent) {
        return Some(parent);
      }
      iteration := iteration + 1;
    }
  }

  function NonEmpty(hits: seq<Hit>): Option<seq<Hit>>
  {
    if hits == [] then None else Some(hits)
  }

  /** The first chat-item selector that finds anything in a document, and
      everything it finds there. */
  function ChatItemsIn(root: Element): Option<Found<seq<Hit>>>
  {
    FirstMatch(ChatItemSelectors, (s: Selector) => NonEmpty(DocumentQueryAll(root, [s])))
  }

  function FrameChatItems(frame: Option<Element>): Option<seq<Hit>>
  {
    match frame
    case None => None
    case Some(root) =>
      match ChatItemsIn(root)
      case None => None
      case Some(found) => Some(found.value)
  }

  /** The messages `observeLiveChat` hands on, in order: those of the first
      selector that matches in the page, else those of the first reachable
      iframe in which some selector matches, else none. */
  function LiveChatMessages(page: Page): seq<Element>
  {
    match ChatItemsIn(page.root)
    case Some(found) => Elements(found.value)
    case None =>
      match FirstMatch(page.frames, FrameChatItems)
      case Some(found) => Elements(found.value)
      case None => []
  }

  /** When the page itself has chat items, the iframes are not searched and
      the messages are all those of the first selector that finds some. */
  lemma PageItemsShadowFrames(page: Page, i: nat)
    requires i < |ChatItemSelectors| && DocumentQueryAll(page.root, [ChatItemSelectors[i]]) != []
    requires forall j :: 0 <= j < i ==> DocumentQueryAll(page.root, [ChatItemSelectors[j]]) == []
    ensures LiveChatMessages(page) == Elements(DocumentQueryAll(page.root, [ChatItemSelectors[i]]))
  {
    var f := (s: Selector) => NonEmpty(DocumentQueryAll(page.root, [s]));
    FirstMatchAt(ChatItemSelectors, f, i);
  }

  /** When no selector finds anything in the page, the iframes are searched
      in order: the first reachable one in which some selector finds items
      decides, with the items of the first such selector there. */
  lemma FramesSearchedInOrder(page: Page, i: nat, k: nat)
    requires forall m :: 0 <= m < |ChatItemSelectors| ==> DocumentQueryAll(page.root, [ChatItemSelectors[m]]) == []
    requires forall j, m :: 0 <= j < i && 0 <= m < |ChatItemSelectors| && j < |page.frames| && page.frames[j].Some? ==>
      DocumentQueryAll(page.frames[j].value, [ChatItemSelectors[m]]) == []
    requires i < |page.frames| && page.frames[i].Some?
    requires k < |ChatItemSelectors| && DocumentQueryAll(page.frames[i].value, [ChatItemSelectors[k]]) != []
    requires forall m :: 0 <= m < k ==> DocumentQueryAll(page.frames[i].value, [ChatItemSelectors[m]]) == []
    ensures LiveChatMessages(page) == Elements(DocumentQueryAll(page.frames[i].value, [ChatItemSelectors[k]]))
  {
    var root := page.frames[i].value;
    var f := (s: Selector) => NonEmpty(DocumentQueryAll(root, [s]));
    FirstMatchAt(ChatItemSelectors, f, k);
    forall j | 0 <= j < i && page.frames[j].Some?
      ensures FrameChatItems(page.frames[j]).None?
    {
      NoChatItemsIn(page.frames[j].value);
    }
    NoChatItemsIn(page.root);
    FirstMatchAt(page.frames, FrameChatItems, i);
  }

  /** A document in which no chat-item selector finds anything yields no items. */
  lemma NoChatItemsIn(root: Element)
    requires forall m :: 0 <= m < |ChatItemSelectors| ==> DocumentQueryAll(root, [ChatItemSelectors[m]]) == []
    ensures ChatItemsIn(root).None?
  {
    var f := (s: Selector) => NonEmpty(DocumentQueryAll(root, [s]));
    assert forall m :: 0 <= m < |ChatItemSelectors| ==> f(ChatItemSelectors[m]).None?;
  }

  /** A node the mutation observer reports as added. */
  datatype AddedNode = HtmlElement(element: Element) | OtherNode

  datatype MutationRecord = MutationRecord(kind: string, addedNodes: seq<AddedNode>)

  /** The mutation callback's test of an added element. */
  predicate IsMessageNode(e: Element)
  {
    e.tag != "" &&
    (Contains(e.tag, "message") || Contains(e.id, "message") || Contains(e.className, "message")
     || e.tag == MessageRenderer)
  }

  predicate MentionsMessage(e: Element)
  {
    Contains(e.tag, "message") || Contains(e.id, "message") || Contains(e.className, "message")
  }

  /** The last alternative of the test is already covered by the first: the
      renderer's tag name contains "message". */
  lemma MessageNodeByToken(e: Element)
    ensures IsMessageNode(e) <==> e.tag != "" && MentionsMessage(e)
  {
    if e.tag == MessageRenderer {
      assert OccursAt(e.tag, "message", 18);
    }
  }

  /** The elements one added node sends to `processChatMessage`, in order:
      the node itself when it passes the test, then its descendants that match
      the nested selector list. */
  function NodeCandidates(n: AddedNode): seq<Element>
  {
    match n
    case OtherNode => []
    case HtmlElement(e) =>
      (if IsMessageNode(e) then [e] else []) + Elements(ElementQueryAll(e, NestedMessageSelectors))
  }

  function NodesCandidates(nodes: seq<AddedNode>): seq<Element>
  {
    if nodes == [] then [] else NodeCandidates(nodes[0]) + NodesCandidates(nodes[1..])
  }

  /** Every element a batch of mutation records sends on, in order; only
      `childList` records count. */
  function MutationCandidates(records: seq<MutationRecord>): seq<Element>
  {
    if records == [] then []
    else
      (if records[0].kind == "childList" then NodesCandidates(records[0].addedNodes) else [])
      + MutationCandidates(records[1..])
  }

  lemma NodeCandidatesMentionMessage(n: AddedNode)
    ensures forall c :: c in NodeCandidates(n) ==> MentionsMessage(c)
  {
    if n.HtmlElement? {
      var e := n.element;
      MessageNodeByToken(e);
      var hits := ElementQueryAll(e, NestedMessageSelectors);
      forall k | 0 <= k < |hits| ensures MentionsMessage(hits[k].element) {
        var x := hits[k].element;
        assert MatchesAny(NestedMessageSelectors, x, hits[k].ancestors);
        if x.tag == MessageRenderer {
          assert OccursAt(x.tag, "message", 18);
        }
      }
    }
  }

  lemma {:induction false} NodesCandidatesMentionMessage(nodes: seq<AddedNode>)
    ensures forall c :: c in NodesCandidates(nodes) ==> MentionsMessage(c)
  {
    if nodes != [] {
      NodeCandidatesMentionMessage(nodes[0]);
      NodesCandidatesMentionMessage(nodes[1..]);
    }
  }

  /** Whatever the mutation callback hands to `processChatMessage` has
      "message" in its tag name, id or class. */
  lemma {:induction false} MutationCandidatesMentionMessage(records: seq<MutationRecord>)
    ensures forall c :: c in MutationCandidates(records) ==> MentionsMessage(c)
  {
    if records != [] {
      NodesCandidatesMentionMessage(records[0].addedNodes);
      MutationCandidatesMentionMessage(records[1..]);
    }
  }
}
