/** An abstract page: a tree of elements, the CSS-like selectors the page agent
    uses to find them, `querySelector`/`querySelectorAll`/`closest` over that
    tree in document order, and the actions the agent performs on elements. */
module Dom {
  import opened Js
  import opened Text

  /** One element: lower-case tag name, its `textContent`, its rendered text
      (`innerText`), its attributes, whether it is rendered (`offsetParent !== null`)
      and its child elements. */
  datatype Element = Element(
    tag: string,
    text: string,
    rendered: string,
    attrs: map<string, string>,
    visible: bool,
    children: seq<Element>)

  /** `getAttribute(name)`. */
  function Attr(e: Element, name: string): Option<string> {
    if name in e.attrs then Some(e.attrs[name]) else None
  }

  /** `className`: the class attribute, `""` when absent. */
  function ClassName(e: Element): string {
    if "class" in e.attrs then e.attrs["class"] else ""
  }

  /** `classList.contains(c)`. */
  predicate HasClass(e: Element, c: string) {
    c in Words(ClassName(e))
  }

  /** One attribute or class condition of a compound selector. */
  datatype Cond =
    | AttrIs(name: string, value: string)      // [name="value"]
    | AttrHas(name: string, sub: string)       // [name*="sub"]
    | AttrSet(name: string)                    // [name]
    | ClassIs(cls: string)                     // .cls
    | Not(cond: Cond)                          // :not(...)

  /** A compound selector: a tag (`""` for any) and conditions on the element. */
  datatype Compound = Compound(tag: string, conds: seq<Cond>)

  /** A selector: a compound, or a compound inside an ancestor (descendant combinator). */
  datatype Selector = Sel(c: Compound) | Within(ancestor: Compound, c: Compound)

  predicate Holds(e: Element, c: Cond)
    decreases c
  {
    match c
    case AttrIs(n, v) => Attr(e, n) == Some(v)
    case AttrHas(n, sub) => n in e.attrs && Contains(e.attrs[n], sub)
    case AttrSet(n) => n in e.attrs
    case ClassIs(cls) => HasClass(e, cls)
    case Not(inner) => !Holds(e, inner)
  }

  predicate CompoundMatches(e: Element, c: Compound) {
    (c.tag == "" || e.tag == c.tag) && forall k :: 0 <= k < |c.conds| ==> Holds(e, c.conds[k])
  }

  /** An element in place: the element and its ancestors, outermost first. */
  datatype Node = Node(el: Element, ancestors: seq<Element>)

  predicate Matches(n: Node, s: Selector) {
    match s
    case Sel(c) => CompoundMatches(n.el, c)
    case Within(a, c) =>
      CompoundMatches(n.el, c) && exists k :: 0 <= k < |n.ancestors| && CompoundMatches(n.ancestors[k], a)
  }

  /** A comma-separated selector list matches when one of its members does. */
  predicate MatchesAny(n: Node, sels: seq<Selector>) {
    exists k :: 0 <= k < |sels| && Matches(n, sels[k])
  }

  /** The elements of a forest in document (pre-)order, each with its ancestors. */
  function NodesOf(es: seq<Element>, ancestors: seq<Element>): (ns: seq<Node>)
    ensures |es| > 0 ==> |ns| > 0 && ns[0] == Node(es[0], ancestors)
    decreases es
  {
    if es == [] then []
    else [Node(es[0], ancestors)] + NodesOf(es[0].children, ancestors + [es[0]]) + NodesOf(es[1..], ancestors)
  }

  /** Every element of the document, in document order. */
  function AllNodes(roots: seq<Element>): seq<Node> {
    NodesOf(roots, [])
  }

  /** The descendants of a node, in document order (the scope of `el.querySelector`). */
  function Descendants(n: Node): seq<Node> {
    NodesOf(n.el.children, n.ancestors + [n.el])
  }

  /** Every node of a forest carries the forest's ancestors as a prefix of its own. */
  lemma {:induction false} NodesOfAncestors(es: seq<Element>, anc: seq<Element>)
    ensures forall n :: n in NodesOf(es, anc) ==> |anc| <= |n.ancestors| && n.ancestors[..|anc|] == anc
    decreases es
  {
    if es != [] {
      NodesOfAncestors(es[0].children, anc + [es[0]]);
      NodesOfAncestors(es[1..], anc);
      forall n | n in NodesOf(es[0].children, anc + [es[0]])
        ensures n.ancestors[..|anc|] == anc
      {
        assert n.ancestors[..|anc|] == n.ancestors[..|anc| + 1][..|anc|];
      }
    }
  }

  /** `el.parentElement` as a node. */
  function ParentNode(n: Node): Option<Node> {
    if n.ancestors == [] then None
    else Some(Node(n.ancestors[|n.ancestors| - 1], n.ancestors[..|n.ancestors| - 1]))
  }

  /** The index of the first node satisfying `p`. */
  function FirstIndex(ns: seq<Node>, p: Node -> bool): (r: Option<nat>)
    ensures r.Some? ==> r.value < |ns| && p(ns[r.value])
    ensures r.Some? ==> forall j :: 0 <= j < r.value ==> !p(ns[j])
    ensures r.None? ==> forall j :: 0 <= j < |ns| ==> !p(ns[j])
  {
    if ns == [] then None
    else if p(ns[0]) then Some(0)
    else match FirstIndex(ns[1..], p)
      case None => None
      case Some(i) => Some(i + 1)
  }

  /** A descendant of a node has a parent element. */
  lemma DescendantHasParent(p: Node, n: Node)
    requires n in Descendants(p)
    ensures ParentNode(n).Some?
  {
    NodesOfAncestors(p.el.children, p.ancestors + [p.el]);
  }

  /** `Array.from(nodes).find(p)`. */
  function Find(ns: seq<Node>, p: Node -> bool): (r: Option<Node>)
    ensures r.Some? ==> r.value in ns && p(r.value)
    ensures r.None? ==> forall j :: 0 <= j < |ns| ==> !p(ns[j])
  {
    match FirstIndex(ns, p)
    case None => None
    case Some(i) => Some(ns[i])
  }

  /** `querySelectorAll(sels)` over a scope. */
  function QueryAll(ns: seq<Node>, sels: seq<Selector>): (r: seq<Node>)
    ensures forall j :: 0 <= j < |r| ==> r[j] in ns && MatchesAny(r[j], sels)
    ensures forall n :: n in ns && MatchesAny(n, sels) ==> n in r
  {
    if ns == [] then []
    else (if MatchesAny(ns[0], sels) then [ns[0]] else []) + QueryAll(ns[1..], sels)
  }

  /** `querySelector(sels)` over a scope: the first match in document order. */
  function Query(ns: seq<Node>, sels: seq<Selector>): (r: Option<Node>)
    ensures r.Some? ==> r.value in ns && MatchesAny(r.value, sels)
    ensures r.None? ==> forall j :: 0 <= j < |ns| ==> !MatchesAny(ns[j], sels)
  {
    Find(ns, n => MatchesAny(n, sels))
  }

  /** `el.closest(compound)`: the element itself or its nearest ancestor that matches. */
  function Closest(n: Node, c: Compound): (r: Option<Element>)
    ensures r.Some? ==> CompoundMatches(r.value, c) && (r.value == n.el || r.value in n.ancestors)
    ensures r.None? ==> !CompoundMatches(n.el, c) && forall k :: 0 <= k < |n.ancestors| ==> !CompoundMatches(n.ancestors[k], c)
    decreases |n.ancestors|
  {
    if CompoundMatches(n.el, c) then Some(n.el)
    else match ParentNode(n)
      case None => None
      case Some(p) => Closest(p, c)
  }

  /** A single-compound selector list. */
  function S(tag: string, conds: seq<Cond>): seq<Selector> {
    [Sel(Compound(tag, conds))]
  }

  /** The events the agent synthesises with `dispatchEvent`. */
  datatype Event =
    | KeyDown(key: string)
    | KeyPress(key: string)
    | InputEvent(data: Option<string>)
    | ChangeEvent
    | PasteEvent(text: string)
    | CompositionStart
    | CompositionUpdate
    | CompositionEnd
    | MouseDown
    | MouseUp
    | MouseClick

  /** One action the agent performs on the page, in the order performed. */
  datatype Action =
    | Click(target: Element)                   // el.click()
    | Focus(target: Element)
    | Blur(target: Element)
    | Fire(target: Element, event: Event)      // el.dispatchEvent(...)
    | SelectContents(target: Element)          // a selection range over the element's contents
    | ClearSelection                           // selection.removeAllRanges()
    | Exec(command: string, arg: Option<string>)  // document.execCommand(command, false, arg)
    | SetValue(target: Element, value: string) // el.value = ...
    | SetText(target: Element, value: string)  // el.textContent = ...
    | Reseed(target: Element)                  // innerHTML replaced by one empty Draft.js block
    | BlankText(target: Element)               // every text node under the element emptied
    | ScrollIntoView(target: Element)

  /** What a handler replies and the actions it performed on the way. */
  datatype Run = Run(outcome: Outcome, actions: seq<Action>)
}
