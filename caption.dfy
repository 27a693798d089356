/** Filling the caption (`setCaption`): the editor chosen by a fixed selector
    priority, the Draft.js plan with its three clearing passes and its partial
    typing, the character-by-character fallback it falls back on when it throws,
    and the plan for every other editor. Each plan is the sequence of actions
    performed on the page. */
module Caption {
  import opened Js
  import opened Text
  import opened Dom

  const Editable: Cond := AttrIs("contenteditable", "true")

  /** The editor selectors of `setCaption`, highest priority first. */
  const EditorSelectors: seq<Selector> :=
    S("", [ClassIs("public-DraftEditor-content"), Editable])
    + S("", [Editable, ClassIs("DraftEditor-content")])
    + S("", [Editable])
    + S("textarea", [])
    + S("input", [AttrIs("type", "text")])
    + S("", [ClassIs("caption-input")])
    + S("", [ClassIs("caption-editor")])

  const NoEditor := "Could not find caption input field"
  const DraftDone := "Caption set successfully in Draft.js editor"
  const FallbackDone := "Caption set via character-by-character typing"
  const GenericDone := "Caption set successfully in generic editor"
  const CaptionFailed := "Failed to set caption: "

  /** The index of the first selector, from `from` on, that matches some node. */
  function FirstMatching(ns: seq<Node>, sels: seq<Selector>, from: nat): (k: nat)
    requires from <= |sels|
    ensures from <= k <= |sels|
    ensures k < |sels| ==> Query(ns, [sels[k]]).Some?
    ensures forall j :: from <= j < k ==> Query(ns, [sels[j]]).None?
    decreases |sels| - from
  {
    if from == |sels| || Query(ns, [sels[from]]).Some? then from
    else FirstMatching(ns, sels, from + 1)
  }

  /** The editor: the first match, in document order, of the first selector that matches. */
  function FindEditor(ns: seq<Node>): (r: Option<Node>)
    ensures r.Some? ==> r.value in ns && MatchesAny(r.value, EditorSelectors)
    ensures r.None? ==> forall j :: 0 <= j < |ns| ==> !MatchesAny(ns[j], EditorSelectors)
  {
    var k := FirstMatching(ns, EditorSelectors, 0);
    if k < |EditorSelectors| then Query(ns, [EditorSelectors[k]]) else None
  }

  /** A node matched by the `k`-th editor selector guarantees an editor of rank at most `k`. */
  lemma EditorPriority(ns: seq<Node>, k: nat, n: Node)
    requires k < |EditorSelectors| && n in ns && Matches(n, EditorSelectors[k])
    ensures FindEditor(ns).Some?
    ensures FirstMatching(ns, EditorSelectors, 0) <= k
  {
    assert [EditorSelectors[k]][0] == EditorSelectors[k];
    assert MatchesAny(n, [EditorSelectors[k]]);
    var i :| 0 <= i < |ns| && ns[i] == n;
  }

  /** The Draft.js branch is taken when the class attribute mentions the Draft.js content class. */
  predicate IsDraftJs(e: Element) {
    Contains(ClassName(e), "public-DraftEditor-content")
  }

  lemma {:induction false} WordContained(s: string, w: string)
    requires w in Words(s)
    ensures Contains(s, w)
    decreases |s|
  {
    if s[0] in ClassSpaces {
      WordContained(s[1..], w);
      ContainsAt(s[1..], w);
      var i :| OccursAt(s[1..], w, i);
      assert s[i + 1..i + 1 + |w|] == s[1..][i..i + |w|];
      assert OccursAt(s, w, i + 1);
      ContainsAt(s, w);
    } else {
      var first := TakeUntil(s, ClassSpaces);
      if w == first {
        assert StartsWith(s, w);
      } else {
        var rest := s[|first|..];
        assert w in Words(rest);
        WordContained(rest, w);
        ContainsAt(rest, w);
        var i :| OccursAt(rest, w, i);
        assert s[|first| + i..|first| + i + |w|] == rest[i..i + |w|];
        assert OccursAt(s, w, |first| + i);
        ContainsAt(s, w);
      }
    }
  }

  /** An editor matched by the top-priority selector anywhere in the page wins, and it
      takes the Draft.js branch. */
  lemma DraftEditorPreferred(ns: seq<Node>, n: Node)
    requires n in ns && Matches(n, EditorSelectors[0])
    ensures FindEditor(ns).Some?
    ensures Matches(FindEditor(ns).value, EditorSelectors[0])
    ensures IsDraftJs(FindEditor(ns).value.el)
  {
    EditorPriority(ns, 0, n);
    var e := FindEditor(ns).value;
    assert [EditorSelectors[0]][0] == EditorSelectors[0];
    assert MatchesAny(e, [EditorSelectors[0]]);
    var c := EditorSelectors[0].c;
    assert CompoundMatches(e.el, c);
    assert c.conds[0] == ClassIs("public-DraftEditor-content");
    assert Holds(e.el, c.conds[0]);
    WordContained(ClassName(e.el), "public-DraftEditor-content");
  }

  /** `n` copies of a plan, one after the other. */
  function Repeat(plan: seq<Action>, n: nat): (r: seq<Action>)
    ensures |r| == n * |plan|
    ensures forall a :: a in r ==> a in plan
  {
    if n == 0 then [] else Repeat(plan, n - 1) + plan
  }

  /** One select-all-and-delete pass of the Draft.js clearing loop. */
  function ClearPass(e: Element): seq<Action> {
    [Focus(e), SelectContents(e), Fire(e, KeyDown("Backspace")), Fire(e, KeyDown("Delete")), Exec("delete", None)]
  }

  /** The three clearing passes. */
  method ClearPasses(e: Element) returns (trace: seq<Action>)
    ensures trace == Repeat(ClearPass(e), 3)
  {
    trace := [];
    var i := 0;
    while i < 3
      invariant 0 <= i <= 3
      invariant trace == Repeat(ClearPass(e), i)
    {
      trace := trace + ClearPass(e);
      i := i + 1;
    }
  }

  /** The key down, key press and input event of typing one character. */
  function Keystroke(e: Element, c: char): seq<Action> {
    [Fire(e, KeyDown([c])), Fire(e, KeyPress([c])), Fire(e, InputEvent(Some([c])))]
  }

  /** The keystrokes of typing `s` into `e`, character by character. */
  function Typed(e: Element, s: string): (r: seq<Action>)
    ensures forall a :: a in r ==> a.Fire? && a.target == e
    decreases |s|
  {
    if s == [] then [] else Typed(e, s[..|s| - 1]) + Keystroke(e, s[|s| - 1])
  }

  /** The typing loops of the Draft.js plan and of the fallback. */
  method TypeChars(e: Element, s: string) returns (trace: seq<Action>)
    ensures trace == Typed(e, s)
  {
    trace := [];
    var i := 0;
    while i < |s|
      invariant 0 <= i <= |s|
      invariant trace == Typed(e, s[..i])
    {
      assert s[..i + 1][..i] == s[..i];
      trace := trace + Keystroke(e, s[i]);
      i := i + 1;
    }
    assert s[..|s|] == s;
  }

  /** Typing `s` dispatches three events per character, each triple for the next character. */
  lemma {:induction false} TypedShape(e: Element, s: string)
    ensures |Typed(e, s)| == 3 * |s|
    ensures forall i :: 0 <= i < |s| ==> Typed(e, s)[3 * i..3 * i + 3] == Keystroke(e, s[i])
    decreases |s|
  {
    if s != [] {
      var init := s[..|s| - 1];
      TypedShape(e, init);
      var t := Typed(e, s);
      assert t == Typed(e, init) + Keystroke(e, s[|s| - 1]);
      forall i | 0 <= i < |s|
        ensures t[3 * i..3 * i + 3] == Keystroke(e, s[i])
      {
        if i < |s| - 1 {
          assert t[3 * i..3 * i + 3] == Typed(e, init)[3 * i..3 * i + 3];
          assert init[i] == s[i];
        } else {
          assert t[3 * i..3 * i + 3] == Keystroke(e, s[|s| - 1]);
        }
      }
    }
  }

  /** The data-text spans emptied one by one. */
  function Blanked(spans: seq<Node>): (r: seq<Action>)
    ensures |r| == |spans|
    ensures forall i :: 0 <= i < |spans| ==> r[i] == SetText(spans[i].el, "")
    ensures forall a :: a in r ==> a.SetText?
  {
    seq(|spans|, i requires 0 <= i < |spans| => SetText(spans[i].el, ""))
  }

  /** The `forEach` over the data-text spans. */
  method BlankSpans(spans: seq<Node>) returns (trace: seq<Action>)
    ensures trace == Blanked(spans)
  {
    trace := [];
    var i := 0;
    while i < |spans|
      invariant 0 <= i <= |spans|
      invariant trace == Blanked(spans[..i])
    {
      trace := trace + [SetText(spans[i].el, "")];
      i := i + 1;
    }
    assert spans[..|spans|] == spans;
  }

  /** The tree walk that empties every text node of the editor, on the text nodes' contents. */
  method ClearTextNodes(texts: array<string>)
    modifies texts
    ensures forall i :: 0 <= i < texts.Length ==> texts[i] == ""
  {
    var i := 0;
    while i < texts.Length
      invariant 0 <= i <= texts.Length
      invariant forall j :: 0 <= j < i ==> texts[j] == ""
    {
      texts[i] := "";
      i := i + 1;
    }
  }

  /** What happened to the simulated paste: the editor filled, it stayed empty, or it threw. */
  datatype PasteOutcome = Filled | StayedEmpty | Threw

  function PasteActions(e: Element, text: string, paste: PasteOutcome): seq<Action> {
    match paste
    case Filled => [Fire(e, PasteEvent(text))]
    case StayedEmpty => [Fire(e, PasteEvent(text)), Exec("insertText", Some(text))]
    case Threw => [Exec("insertText", Some(text))]
  }

  const SpanSelector: seq<Selector> := S("span", [AttrIs("data-text", "true")])
  const ContentsSelector: seq<Selector> := S("div", [AttrIs("data-contents", "true")])

  /** The Draft.js plan up to the partial typing: focus, three clearing passes, the spans,
      the text nodes, the contents block, a programmatic clear, then paste and the input event. */
  function DraftLead(e: Element, spans: seq<Node>, contents: Option<Node>, text: string, paste: PasteOutcome): seq<Action> {
    [Focus(e)] + Repeat(ClearPass(e), 3) + LeadRest(e, spans, contents, text, paste)
  }

  /** The Draft.js plan after the clearing passes and before the typing. */
  function LeadRest(e: Element, spans: seq<Node>, contents: Option<Node>, text: string, paste: PasteOutcome): seq<Action> {
    Blanked(spans) + [BlankText(e)] + (if contents.Some? then [Reseed(contents.value.el)] else [])
    + [SetText(e, ""), Focus(e)] + PasteActions(e, text, paste) + [Fire(e, InputEvent(Some(text)))]
  }

  /** The data-text spans inside the editor. */
  function Spans(editor: Node): seq<Node> {
    QueryAll(Descendants(editor), SpanSelector)
  }

  /** The data-contents block inside the editor. */
  function ContentsBlock(editor: Node): Option<Node> {
    Query(Descendants(editor), ContentsSelector)
  }

  /** The Draft.js plan after the partial typing: composition and change events, a click,
      arrow keys and the blur/focus cycles. */
  function DraftTail(e: Element): seq<Action> {
    [Fire(e, CompositionStart), Fire(e, CompositionUpdate), Fire(e, CompositionEnd), Fire(e, ChangeEvent),
     Fire(e, MouseClick), Focus(e), Fire(e, KeyDown("ArrowRight")), Fire(e, KeyDown("ArrowLeft")),
     Blur(e), Focus(e), Blur(e), Focus(e), Blur(e)]
  }

  /** `handleDraftJsEditor` when nothing throws. */
  function DraftActions(editor: Node, text: string, paste: PasteOutcome): seq<Action> {
    DraftLead(editor.el, Spans(editor), ContentsBlock(editor), text, paste)
    + Typed(editor.el, Prefix(text, 10)) + DraftTail(editor.el)
  }

  /** `fallbackCharacterTyping` when nothing throws. */
  function FallbackActions(e: Element, text: string): seq<Action> {
    [Focus(e), SelectContents(e), Fire(e, KeyDown("Delete")), ClearSelection] + Typed(e, text) + [Blur(e), Focus(e)]
  }

  /** `editor.contentEditable === "true"`. */
  predicate EditableTrue(e: Element) {
    Attr(e, "contenteditable").Some? && Lower(Attr(e, "contenteditable").value) in {"true", ""}
  }

  predicate IsField(e: Element) {
    e.tag == "textarea" || e.tag == "input"
  }

  /** `handleGenericEditor` when nothing throws; `inserted` is what `execCommand("insertText")` returned. */
  function GenericActions(e: Element, text: string, inserted: bool): seq<Action> {
    [Focus(e)] + (if IsField(e) || EditableTrue(e) then [SelectContents(e)] else [])
    + [Fire(e, KeyDown("Delete"))]
    + (if IsField(e) then [SetValue(e, "")] else if EditableTrue(e) then [SetText(e, "")] else [])
    + [Exec("insertText", Some(text))]
    + (if !inserted && IsField(e) then [SetValue(e, text)]
       else if !inserted && EditableTrue(e) then [SetText(e, text)] else [])
    + [Fire(e, InputEvent(None)), Fire(e, ChangeEvent), Blur(e)]
  }

  /** An exception thrown after the first `after` actions of a plan. */
  datatype Fault = Fault(after: nat, message: string)

  /** The part of a plan performed before the fault. */
  function Upto(plan: seq<Action>, f: Fault): (r: seq<Action>)
    ensures |r| <= |plan| && r == plan[..|r|]
  {
    plan[..if f.after < |plan| then f.after else |plan|]
  }

  /** The page's reactions the plans depend on, and where (if anywhere) each plan throws. */
  datatype CaptionEnv = CaptionEnv(
    paste: PasteOutcome,
    execInserted: bool,
    draftFault: Option<Fault>,
    fallbackFault: Option<Fault>,
    genericFault: Option<Fault>)

  function DraftRun(editor: Node, text: string, env: CaptionEnv): (r: Run)
    ensures r.outcome.Failure? ==> StartsWith(r.outcome.error, CaptionFailed)
    ensures r.outcome.Success? ==> r.outcome.message == DraftDone || r.outcome.message == FallbackDone
    ensures r.outcome == Success(DraftDone) <==> env.draftFault.None?
  {
    var plan := DraftActions(editor, text, env.paste);
    match env.draftFault
    case None => Run(Success(DraftDone), plan)
    case Some(f) =>
      var fallback := FallbackActions(editor.el, text);
      match env.fallbackFault
      case None => Run(Success(FallbackDone), Upto(plan, f) + fallback)
      case Some(g) => Run(Failure(CaptionFailed + g.message), Upto(plan, f) + Upto(fallback, g))
  }

  function GenericRun(e: Element, text: string, env: CaptionEnv): (r: Run)
    ensures r.outcome.Failure? ==> StartsWith(r.outcome.error, CaptionFailed)
    ensures forall a :: a in r.actions ==> !a.BlankText?
    ensures r.outcome.Success? <==> r.outcome == Success(GenericDone)
    ensures r.outcome.Success? <==> env.genericFault.None?
  {
    var plan := GenericActions(e, text, env.execInserted);
    match env.genericFault
    case None => Run(Success(GenericDone), plan)
    case Some(g) => Run(Failure(CaptionFailed + g.message), Upto(plan, g))
  }

  /** `setCaption`: the reply and the actions performed. */
  function CaptionOf(ns: seq<Node>, caption: string, env: CaptionEnv): (r: Run)
    ensures FindEditor(ns).None? <==> r == Run(Failure(NoEditor), [])
    ensures r.outcome.Failure? && FindEditor(ns).Some? ==> StartsWith(r.outcome.error, CaptionFailed)
    ensures FindEditor(ns).Some? && r.outcome.Success? ==>
      (r.outcome.message != GenericDone <==> IsDraftJs(FindEditor(ns).value.el))
  {
    var text := Trim(caption);
    match FindEditor(ns)
    case None => Run(Failure(NoEditor), [])
    case Some(editor) =>
      var r := if IsDraftJs(editor.el) then DraftRun(editor, text, env) else GenericRun(editor.el, text, env);
      assert !StartsWith(NoEditor, CaptionFailed) by {
        assert NoEditor[0] != CaptionFailed[0];
      }
      assert |DraftDone| != |GenericDone| && |FallbackDone| != |GenericDone|;
      r
  }

  /** The run reached the text-node walk. */
  predicate Walked(r: Run) {
    exists a :: a in r.actions && a.BlankText?
  }

  /** The Draft.js plan built with its loops. */
  method DraftPlan(editor: Node, text: string, paste: PasteOutcome) returns (plan: seq<Action>)
    ensures plan == DraftActions(editor, text, paste)
  {
    var e := editor.el;
    var clears := ClearPasses(e);
    var spans := BlankSpans(Spans(editor));
    var contents := ContentsBlock(editor);
    var reseed := if contents.Some? then [Reseed(contents.value.el)] else [];
    var typed := TypeChars(e, Prefix(text, 10));
    var rest := spans + [BlankText(e)] + reseed + [SetText(e, ""), Focus(e)]
      + PasteActions(e, text, paste) + [Fire(e, InputEvent(Some(text)))];
    assert rest == LeadRest(e, Spans(editor), contents, text, paste);
    plan := [Focus(e)] + clears + rest + typed + DraftTail(e);
  }

  /** `setCaption` with its loops; the text-node contents of the editor are emptied
      exactly when the run reaches the tree walk. */
  method SetCaption(ns: seq<Node>, caption: string, env: CaptionEnv, texts: array<string>) returns (r: Run)
    modifies texts
    ensures r == CaptionOf(ns, caption, env)
    ensures Walked(r) ==> forall i :: 0 <= i < texts.Length ==> texts[i] == ""
    ensures !Walked(r) ==> texts[..] == old(texts[..])
  {
    var text := Trim(caption);
    var found := FindEditor(ns);
    if found.None? {
      r := Run(Failure(NoEditor), []);
      return;
    }
    var editor := found.value;
    if IsDraftJs(editor.el) {
      var plan := DraftPlan(editor, text, env.paste);
      match env.draftFault {
        case None =>
          r := Run(Success(DraftDone), plan);
        case Some(f) =>
          var typed := TypeChars(editor.el, text);
          var fallback := [Focus(editor.el), SelectContents(editor.el), Fire(editor.el, KeyDown("Delete")), ClearSelection]
            + typed + [Blur(editor.el), Focus(editor.el)];
          assert fallback == FallbackActions(editor.el, text);
          match env.fallbackFault {
            case None => r := Run(Success(FallbackDone), Upto(plan, f) + fallback);
            case Some(g) => r := Run(Failure(CaptionFailed + g.message), Upto(plan, f) + Upto(fallback, g));
          }
      }
    } else {
      r := GenericRun(editor.el, text, env);
    }
    if Walked(r) {
      ClearTextNodes(texts);
    }
  }

  predicate IsPress(a: Action) {
    a.Fire? && a.event.KeyPress?
  }

  /** The keys of the key-press events of a trace, in order. */
  function Pressed(t: seq<Action>): seq<string> {
    if t == [] then [] else (if IsPress(t[0]) then [t[0].event.key] else []) + Pressed(t[1..])
  }

  /** The one-character keys of a text. */
  function Keys(s: string): (r: seq<string>)
    ensures |r| == |s|
    ensures forall i :: 0 <= i < |s| ==> r[i] == [s[i]]
  {
    seq(|s|, i requires 0 <= i < |s| => [s[i]])
  }

  lemma {:induction false} PressedAppend(a: seq<Action>, b: seq<Action>)
    ensures Pressed(a + b) == Pressed(a) + Pressed(b)
    decreases |a|
  {
    if a == [] {
      assert a + b == b;
    } else {
      assert (a + b)[1..] == a[1..] + b;
      PressedAppend(a[1..], b);
    }
  }

  lemma PressedCons(a: Action, t: seq<Action>)
    ensures Pressed([a] + t) == (if IsPress(a) then [a.event.key] else []) + Pressed(t)
  {
    assert ([a] + t)[1..] == t;
  }

  lemma {:induction false} PressedNone(t: seq<Action>)
    requires forall a :: a in t ==> !IsPress(a)
    ensures Pressed(t) == []
    decreases |t|
  {
    if t != [] {
      assert t[0] in t;
      assert forall a :: a in t[1..] ==> a in t;
      PressedNone(t[1..]);
    }
  }

  /** Typing a text presses its characters, in order. */
  lemma {:induction false} PressedTyped(e: Element, s: string)
    ensures Pressed(Typed(e, s)) == Keys(s)
    decreases |s|
  {
    if s != [] {
      var init := s[..|s| - 1];
      var c := s[|s| - 1];
      PressedTyped(e, init);
      PressedAppend(Typed(e, init), Keystroke(e, c));
      var k := Keystroke(e, c);
      PressedCons(k[2], []);
      assert Pressed([k[2]]) == [];
      PressedCons(k[1], [k[2]]);
      PressedCons(k[0], [k[1], k[2]]);
      assert k == [k[0]] + ([k[1]] + [k[2]]);
      assert Pressed(k) == [[c]];
      assert Keys(s) == Keys(init) + [[c]];
    }
  }

  /** The Draft.js plan types exactly the first `min(10, |text|)` characters, in order. */
  lemma DraftTypesFirstTen(editor: Node, text: string, paste: PasteOutcome)
    ensures Pressed(DraftActions(editor, text, paste)) == Keys(Prefix(text, 10))
    ensures |Pressed(DraftActions(editor, text, paste))| == if |text| < 10 then |text| else 10
  {
    var lead := DraftLead(editor.el, Spans(editor), ContentsBlock(editor), text, paste);
    var typed := Typed(editor.el, Prefix(text, 10));
    var tail := DraftTail(editor.el);
    assert DraftActions(editor, text, paste) == lead + typed + tail;
    PressedAppend(lead + typed, tail);
    PressedAppend(lead, typed);
    LeadPressesNothing(editor.el, Spans(editor), ContentsBlock(editor), text, paste);
    TailPressesNothing(editor.el);
    PressedTyped(editor.el, Prefix(text, 10));
    assert Pressed(lead + typed + tail) == Keys(Prefix(text, 10));
  }

  lemma TailPressesNothing(e: Element)
    ensures Pressed(DraftTail(e)) == []
  {
    PressedNone(DraftTail(e));
  }

  lemma LeadPressesNothing(e: Element, spans: seq<Node>, contents: Option<Node>, text: string, paste: PasteOutcome)
    ensures Pressed(DraftLead(e, spans, contents, text, paste)) == []
  {
    assert forall a :: a in Repeat(ClearPass(e), 3) ==> a in ClearPass(e);
    PressedNone(DraftLead(e, spans, contents, text, paste));
  }

  /** The fallback types every character of the text, in order. */
  lemma FallbackTypesAll(e: Element, text: string)
    ensures Pressed(FallbackActions(e, text)) == Keys(text)
  {
    var lead := [Focus(e), SelectContents(e), Fire(e, KeyDown("Delete")), ClearSelection];
    var tail := [Blur(e), Focus(e)];
    PressedAppend(lead + Typed(e, text), tail);
    PressedAppend(lead, Typed(e, text));
    PressedNone(lead);
    PressedNone(tail);
    PressedTyped(e, text);
  }

  /** The number of occurrences of an action in a trace. */
  function Count(t: seq<Action>, x: Action): nat {
    if t == [] then 0 else (if t[0] == x then 1 else 0) + Count(t[1..], x)
  }

  lemma {:induction false} CountAppend(a: seq<Action>, b: seq<Action>, x: Action)
    ensures Count(a + b, x) == Count(a, x) + Count(b, x)
    decreases |a|
  {
    if a == [] {
      assert a + b == b;
    } else {
      assert (a + b)[1..] == a[1..] + b;
      CountAppend(a[1..], b, x);
    }
  }

  lemma {:induction false} CountAbsent(t: seq<Action>, x: Action)
    requires x !in t
    ensures Count(t, x) == 0
    decreases |t|
  {
    if t != [] {
      assert forall a :: a in t[1..] ==> a in t;
      CountAbsent(t[1..], x);
    }
  }

  /** The Draft.js plan runs the select-all-and-delete pass exactly three times. */
  lemma DraftClearsThrice(editor: Node, text: string, paste: PasteOutcome)
    ensures Count(DraftActions(editor, text, paste), Exec("delete", None)) == 3
  {
    var e := editor.el;
    var del := Exec("delete", None);
    var lead := DraftLead(e, Spans(editor), ContentsBlock(editor), text, paste);
    var typed := Typed(e, Prefix(text, 10));
    LeadDeletesThrice(e, Spans(editor), ContentsBlock(editor), text, paste);
    TypedDeletesNothing(e, Prefix(text, 10));
    TailDeletesNothing(e);
    CountAppend(lead + typed, DraftTail(e), del);
    CountAppend(lead, typed, del);
  }

  lemma TypedDeletesNothing(e: Element, s: string)
    ensures Count(Typed(e, s), Exec("delete", None)) == 0
  {
    CountAbsent(Typed(e, s), Exec("delete", None));
  }

  lemma TailDeletesNothing(e: Element)
    ensures Count(DraftTail(e), Exec("delete", None)) == 0
  {
    CountAbsent(DraftTail(e), Exec("delete", None));
  }

  /** The three clearing passes delete three times. */
  lemma PassesDeleteThrice(e: Element)
    ensures Count(Repeat(ClearPass(e), 3), Exec("delete", None)) == 3
  {
    var del := Exec("delete", None);
    var p := ClearPass(e);
    PassDeletesOnce(e);
    assert Repeat(p, 3) == p + p + p by {
      assert Repeat(p, 1) == p;
      assert Repeat(p, 2) == p + p;
    }
    CountAppend(p, p, del);
    CountAppend(p + p, p, del);
  }

  lemma RestDeletesNothing(e: Element, spans: seq<Node>, contents: Option<Node>, text: string, paste: PasteOutcome)
    ensures Count(LeadRest(e, spans, contents, text, paste), Exec("delete", None)) == 0
  {
    var del := Exec("delete", None);
    assert del !in PasteActions(e, text, paste);
    assert del !in LeadRest(e, spans, contents, text, paste);
    CountAbsent(LeadRest(e, spans, contents, text, paste), del);
  }

  lemma LeadDeletesThrice(e: Element, spans: seq<Node>, contents: Option<Node>, text: string, paste: PasteOutcome)
    ensures Count(DraftLead(e, spans, contents, text, paste), Exec("delete", None)) == 3
  {
    var del := Exec("delete", None);
    var r := Repeat(ClearPass(e), 3);
    var rest := LeadRest(e, spans, contents, text, paste);
    PassesDeleteThrice(e);
    RestDeletesNothing(e, spans, contents, text, paste);
    CountAbsent([Focus(e)], del);
    CountAppend([Focus(e)], r, del);
    CountAppend([Focus(e)] + r, rest, del);
  }

  lemma PassDeletesOnce(e: Element)
    ensures Count(ClearPass(e), Exec("delete", None)) == 1
  {
    var del := Exec("delete", None);
    var p := ClearPass(e);
    var q := p[..4];
    assert p == q + [del];
    assert del !in q;
    CountAbsent(q, del);
    CountAppend(q, [del], del);
    assert [del][1..] == [];
    assert Count([del], del) == 1;
  }

  /** Without a fault, a Draft.js editor receives the trimmed caption by paste or by
      `insertText`, and the reply is the Draft.js success. */
  lemma DraftDeliversTrimmed(ns: seq<Node>, caption: string, env: CaptionEnv)
    requires FindEditor(ns).Some? && IsDraftJs(FindEditor(ns).value.el) && env.draftFault.None?
    ensures CaptionOf(ns, caption, env).outcome == Success(DraftDone)
    ensures env.paste != Threw ==>
      Fire(FindEditor(ns).value.el, PasteEvent(Trim(caption))) in CaptionOf(ns, caption, env).actions
    ensures env.paste != Filled ==> Exec("insertText", Some(Trim(caption))) in CaptionOf(ns, caption, env).actions
  {
    var editor := FindEditor(ns).value;
    var text := Trim(caption);
    var lead := DraftLead(editor.el, Spans(editor), ContentsBlock(editor), text, env.paste);
    assert CaptionOf(ns, caption, env) == Run(Success(DraftDone), DraftActions(editor, text, env.paste));
    LeadDelivers(editor.el, Spans(editor), ContentsBlock(editor), text, env.paste);
  }

  lemma LeadDelivers(e: Element, spans: seq<Node>, contents: Option<Node>, text: string, paste: PasteOutcome)
    ensures paste != Threw ==> Fire(e, PasteEvent(text)) in DraftLead(e, spans, contents, text, paste)
    ensures paste != Filled ==> Exec("insertText", Some(text)) in DraftLead(e, spans, contents, text, paste)
  {
    var p := PasteActions(e, text, paste);
    assert forall a :: a in p ==> a in DraftLead(e, spans, contents, text, paste);
  }

  /** When the Draft.js plan throws, the fallback runs after the actions already performed
      and types the whole trimmed caption. */
  lemma DraftFaultFallsBack(ns: seq<Node>, caption: string, env: CaptionEnv)
    requires FindEditor(ns).Some? && IsDraftJs(FindEditor(ns).value.el)
    requires env.draftFault.Some? && env.fallbackFault.None?
    ensures CaptionOf(ns, caption, env).outcome == Success(FallbackDone)
    ensures var acts := CaptionOf(ns, caption, env).actions;
      var fb := FallbackActions(FindEditor(ns).value.el, Trim(caption));
      |fb| <= |acts| && acts[|acts| - |fb|..] == fb
    ensures Pressed(FallbackActions(FindEditor(ns).value.el, Trim(caption))) == Keys(Trim(caption))
  {
    var editor := FindEditor(ns).value;
    var text := Trim(caption);
    var r := CaptionOf(ns, caption, env);
    var fb := FallbackActions(editor.el, text);
    var before := Upto(DraftActions(editor, text, env.paste), env.draftFault.value);
    assert r.actions == before + fb;
    assert r.actions[|r.actions| - |fb|..] == fb;
    FallbackTypesAll(editor.el, text);
  }

  /** A generic editor that is neither a text field nor editable, and whose `insertText`
      is refused, still gets the success reply although no action carried the text. */
  lemma GenericReportsSuccessUnset(e: Element, text: string, env: CaptionEnv)
    requires !IsField(e) && !EditableTrue(e) && !env.execInserted && env.genericFault.None?
    ensures GenericRun(e, text, env).outcome == Success(GenericDone)
    ensures forall a :: a in GenericRun(e, text, env).actions ==> !a.SetValue? && !a.SetText?
  {
  }

  /** A text field whose `insertText` is refused gets the text assigned to its value. */
  lemma GenericFieldAssigned(e: Element, text: string, env: CaptionEnv)
    requires IsField(e) && !env.execInserted && env.genericFault.None?
    ensures SetValue(e, text) in GenericRun(e, text, env).actions
    ensures GenericRun(e, text, env).outcome == Success(GenericDone)
  {
    var plan := GenericActions(e, text, false);
    assert plan[|plan| - 4] == SetValue(e, text);
  }
}
