/** The part of the DOM the content script touches: elements with a tag, an
    `id`, a `class` attribute, text and children; the simple CSS selectors it
    queries with; `querySelector`/`querySelectorAll` in document order;
    `textContent` and `appendChild`. */
module Dom {
  import opened Wrappers
  import opened JsString

  /** An element. `tag` is the lower-case tag name, `id` is "" when the
      attribute is absent, `text` is the element's own text, placed before
      the text of its children. */
  datatype Element = Element(tag: string, id: string, className: string, text: string, children: seq<Element>)

  /** A page: its document element and, in document order, the documents of
      its iframes (`None` where the frame's document cannot be reached). */
  datatype Page = Page(root: Element, frames: seq<Option<Element>>)

  /** A compound selector: every part that is present must hold.
      `tag` is a type selector, `id` is `#id`, `classToken` is `.class`,
      `idHas` is `[id*="v"]` and `classHas` is `[class*="v"]`. */
  datatype Compound = Compound(tag: Option<string>, id: Option<string>, classToken: Option<string>,
                               idHas: Option<string>, classHas: Option<string>)

  /** `subject`, or `context subject` (descendant combinator) when a context is given. */
  datatype Selector = Selector(context: Option<Compound>, subject: Compound)

  /** A match together with the path from the search's top down to its parent. */
  datatype Hit = Hit(element: Element, ancestors: seq<Element>)

  const AnyElement := Compound(None, None, None, None, None)

  function TagIs(t: string): Compound { AnyElement.(tag := Some(t)) }
  function IdIs(i: string): Compound { AnyElement.(id := Some(i)) }
  function IdHas(v: string): Compound { AnyElement.(idHas := Some(v)) }
  function ClassHas(v: string): Compound { AnyElement.(classHas := Some(v)) }
  function ClassIs(c: string): Compound { AnyElement.(classToken := Some(c)) }
  function Plain(c: Compound): Selector { Selector(None, c) }
  function Within(context: Compound, c: Compound): Selector { Selector(Some(context), c) }

  /** HTML's ASCII whitespace (TAB, LF, FF, CR, SPACE), which separates the
      tokens of a `class` attribute. */
  predicate IsAsciiWhitespace(c: char)
  {
    c == '\t' || c == '\n' || c as int == 0x0C || c == '\r' || c == ' '
  }

  /** `cls` is one of the whitespace-separated tokens of `className`. */
  predicate HasClassToken(className: string, cls: string)
  {
    exists i | 0 <= i <= |className| - |cls| ::
      && OccursAt(className, cls, i)
      && (i == 0 || IsAsciiWhitespace(className[i - 1]))
      && (i + |cls| == |className| || IsAsciiWhitespace(className[i + |cls|]))
  }

  predicate MatchesCompound(c: Compound, e: Element)
  {
    && (c.tag.Some? ==> e.tag == c.tag.value)
    && (c.id.Some? ==> e.id == c.id.value)
    && (c.classToken.Some? ==> HasClassToken(e.className, c.classToken.value))
    && (c.idHas.Some? ==> e.id != "" && Contains(e.id, c.idHas.value))
    && (c.classHas.Some? ==> e.className != "" && Contains(e.className, c.classHas.value))
  }

  predicate Matches(s: Selector, e: Element, ancestors: seq<Element>)
  {
    && MatchesCompound(s.subject, e)
    && (s.context.Some? ==> exists k | 0 <= k < |ancestors| :: MatchesCompound(s.context.value, ancestors[k]))
  }

  /** `e` matches one selector of the comma-separated list `sels`. */
  predicate MatchesAny(sels: seq<Selector>, e: Element, ancestors: seq<Element>)
  {
    exists j | 0 <= j < |sels| :: Matches(sels[j], e, ancestors)
  }

  function Size(e: Element): (n: nat)
    ensures n >= 1
  {
    1 + ForestSize(e.children)
  }

  function ForestSize(forest: seq<Element>): nat
  {
    if forest == [] then 0 else Size(forest[0]) + ForestSize(forest[1..])
  }

  /** Every element of `forest` and below that matches `sels`, in document
      (pre-)order; `ancestors` is the path above `forest`. */
  function QueryAll(forest: seq<Element>, ancestors: seq<Element>, sels: seq<Selector>): (hits: seq<Hit>)
    decreases ForestSize(forest)
    ensures forall k :: 0 <= k < |hits| ==> MatchesAny(sels, hits[k].element, hits[k].ancestors)
  {
    if forest == [] then []
    else
      assert ForestSize(forest) == Size(forest[0]) + ForestSize(forest[1..]);
      var head := forest[0];
      (if MatchesAny(sels, head, ancestors) then [Hit(head, ancestors)] else [])
      + QueryAll(head.children, ancestors + [head], sels)
      + QueryAll(forest[1..], ancestors, sels)
  }

  /** The first element of `forest` and below, in document order, that
      matches `sels`. */
  function QueryFirst(forest: seq<Element>, ancestors: seq<Element>, sels: seq<Selector>): Option<Hit>
    decreases ForestSize(forest)
  {
    if forest == [] then None
    else
      assert ForestSize(forest) == Size(forest[0]) + ForestSize(forest[1..]);
      var head := forest[0];
      if MatchesAny(sels, head, ancestors) then Some(Hit(head, ancestors))
      else match QueryFirst(head.children, ancestors + [head], sels)
        case Some(h) => Some(h)
        case None => QueryFirst(forest[1..], ancestors, sels)
  }

  /** The node reached from `forest` by following `path`, one child index per
      level, together with the elements above it: an independent account of
      which elements a forest holds. */
  function At(forest: seq<Element>, ancestors: seq<Element>, path: seq<nat>): Option<Hit>
    decreases |path|
  {
    if path == [] || path[0] >= |forest| then None
    else if |path| == 1 then Some(Hit(forest[path[0]], ancestors))
    else At(forest[path[0]].children, ancestors + [forest[path[0]]], path[1..])
  }

  /** `querySelectorAll` finds every element of the forest that matches. */
  lemma {:induction false} QueryAllComplete(forest: seq<Element>, ancestors: seq<Element>, sels: seq<Selector>, path: seq<nat>)
    requires At(forest, ancestors, path).Some?
    requires var h := At(forest, ancestors, path).value; MatchesAny(sels, h.element, h.ancestors)
    ensures At(forest, ancestors, path).value in QueryAll(forest, ancestors, sels)
    decreases ForestSize(forest)
  {
    assert ForestSize(forest) == Size(forest[0]) + ForestSize(forest[1..]);
    var h := At(forest, ancestors, path).value;
    var head := forest[0];
    var all := QueryAll(forest, ancestors, sels);
    var own := if MatchesAny(sels, head, ancestors) then [Hit(head, ancestors)] else [];
    var below := QueryAll(head.children, ancestors + [head], sels);
    var rest := QueryAll(forest[1..], ancestors, sels);
    assert all == own + below + rest;
    if path[0] == 0 {
      if |path| == 1 {
        assert h in own;
      } else {
        QueryAllComplete(head.children, ancestors + [head], sels, path[1..]);
        assert h in below;
      }
    } else {
      var p := [path[0] - 1] + path[1..];
      assert forest[1..][p[0]] == forest[path[0]];
      assert p[1..] == path[1..];
      assert At(forest[1..], ancestors, p) == At(forest, ancestors, path);
      QueryAllComplete(forest[1..], ancestors, sels, p);
      assert h in rest;
    }
  }

  /** ... and nothing else: every hit is an element of the forest. */
  lemma {:induction false} QueryAllSound(forest: seq<Element>, ancestors: seq<Element>, sels: seq<Selector>, h: Hit)
    requires h in QueryAll(forest, ancestors, sels)
    ensures exists path :: At(forest, ancestors, path) == Some(h)
    decreases ForestSize(forest)
  {
    assert ForestSize(forest) == Size(forest[0]) + ForestSize(forest[1..]);
    var head := forest[0];
    var own := if MatchesAny(sels, head, ancestors) then [Hit(head, ancestors)] else [];
    var below := QueryAll(head.children, ancestors + [head], sels);
    var rest := QueryAll(forest[1..], ancestors, sels);
    assert QueryAll(forest, ancestors, sels) == own + below + rest;
    if h in own {
      assert At(forest, ancestors, [0]) == Some(h);
    } else if h in below {
      QueryAllSound(head.children, ancestors + [head], sels, h);
      var p :| At(head.children, ancestors + [head], p) == Some(h);
      assert ([0] + p)[1..] == p;
      assert At(forest, ancestors, [0] + p) == Some(h);
    } else {
      QueryAllSound(forest[1..], ancestors, sels, h);
      var p :| At(forest[1..], ancestors, p) == Some(h);
      var q := [p[0] + 1] + p[1..];
      assert q[1..] == p[1..];
      assert forest[q[0]] == forest[1..][p[0]];
      assert At(forest, ancestors, q) == Some(h);
    }
  }

  /** `querySelector` stops at the first element `querySelectorAll` lists. */
  lemma {:induction false} QueryFirstIsFirstOfAll(forest: seq<Element>, ancestors: seq<Element>, sels: seq<Selector>)
    decreases ForestSize(forest)
    ensures QueryFirst(forest, ancestors, sels) ==
      (var all := QueryAll(forest, ancestors, sels); if all == [] then None else Some(all[0]))
  {
    if forest != [] {
      assert ForestSize(forest) == Size(forest[0]) + ForestSize(forest[1..]);
      var head := forest[0];
      QueryFirstIsFirstOfAll(head.children, ancestors + [head], sels);
      QueryFirstIsFirstOfAll(forest[1..], ancestors, sels);
    }
  }

  /** When `querySelector` finds nothing, no element of the forest matches. */
  lemma NoHitMeansNoMatch(forest: seq<Element>, ancestors: seq<Element>, sels: seq<Selector>, path: seq<nat>)
    requires QueryFirst(forest, ancestors, sels).None? && At(forest, ancestors, path).Some?
    ensures var h := At(forest, ancestors, path).value; !MatchesAny(sels, h.element, h.ancestors)
  {
    QueryFirstIsFirstOfAll(forest, ancestors, sels);
    var h := At(forest, ancestors, path).value;
    if MatchesAny(sels, h.element, h.ancestors) {
      QueryAllComplete(forest, ancestors, sels, path);
    }
  }

  /** `document.querySelector(sels)` on a document element. */
  function DocumentQuery(root: Element, sels: seq<Selector>): Option<Hit>
  {
    QueryFirst([root], [], sels)
  }

  /** `document.querySelectorAll(sels)`. */
  function DocumentQueryAll(root: Element, sels: seq<Selector>): seq<Hit>
  {
    QueryAll([root], [], sels)
  }

  /** `e.querySelector(sels)`: descendants of `e` only. */
  function ElementQuery(e: Element, sels: seq<Selector>): Option<Hit>
  {
    QueryFirst(e.children, [e], sels)
  }

  /** `e.querySelectorAll(sels)`. */
  function ElementQueryAll(e: Element, sels: seq<Selector>): seq<Hit>
  {
    QueryAll(e.children, [e], sels)
  }

  function Elements(hits: seq<Hit>): (es: seq<Element>)
    ensures |es| == |hits| && forall k :: 0 <= k < |hits| ==> es[k] == hits[k].element
  {
    if hits == [] then [] else [hits[0].element] + Elements(hits[1..])
  }

  /** `e.textContent`. */
  function TextContent(e: Element): string
  {
    e.text + ForestText(e.children)
  }

  function ForestText(forest: seq<Element>): string
  {
    if forest == [] then "" else TextContent(forest[0]) + ForestText(forest[1..])
  }

  /** `parent.appendChild(child)`. */
  function AppendChild(parent: Element, child: Element): Element
  {
    parent.(children := parent.children + [child])
  }

  lemma {:induction false} ForestTextAppend(forest: seq<Element>, last: Element)
    ensures ForestText(forest + [last]) == ForestText(forest) + TextContent(last)
  {
    if forest != [] {
      assert (forest + [last])[1..] == forest[1..] + [last];
      ForestTextAppend(forest[1..], last);
    }
  }

  /** Appending a child keeps the parent's text and adds the child's after it. */
  lemma AppendChildKeepsText(parent: Element, child: Element)
    ensures TextContent(AppendChild(parent, child)) == TextContent(parent) + TextContent(child)
  {
    ForestTextAppend(parent.children, child);
  }
}
