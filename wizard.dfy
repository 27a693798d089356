/** Attaching a product (`addProduct`): a fixed sequence of steps through the
    link wizard, each looking for its target on the page as it is at that
    moment, and stopping with an error at the first target that is missing. */
module ProductWizard {
  import opened Js
  import opened Text
  import opened Dom

  /** The page as each step sees it (the wizard changes it between steps). */
  datatype WizardPages = WizardPages(
    addLink: seq<Node>,     // step 1: the "+ Add" link button
    linkType: seq<Node>,    // step 2: the link-type modal
    showcase: seq<Node>,    // step 3: the showcase tab
    search: seq<Node>,      // step 4: the search input and its icon
    results: seq<Node>,     // step 5: the results table
    footer: seq<Node>,      // step 6: the modal footer after selection
    confirm: seq<Node>)     // step 7: the confirmation screen

  const NoAddLink := "Could not find '+ Add' link button"
  const NoLinkNext := "Could not find 'Next' button on Link type modal"
  const NoSearchInput := "Could not find product search input"
  const NoFooterNext := "Could not find 'Next' button. DOM might have changed."
  const NoFinalAdd := "Could not find 'Add' button on final confirmation screen"
  const ProductAdded := "Product added successfully"
  /** The message of the `TypeError` thrown when the search input has no parent element. */
  const NullParent := "Cannot read properties of null (reading 'querySelector')"

  function NotFound(id: string): string {
    "Product " + id + " not found in results table"
  }

  function TrimText(n: Node): string {
    Trim(n.el.text)
  }

  /** The trimmed `textContent` or the trimmed `innerText` is exactly `s`. */
  predicate Reads(n: Node, s: string) {
    TrimText(n) == s || Trim(n.el.rendered) == s
  }

  const ButtonC := Compound("button", [])
  const FooterC := Compound("", [ClassIs("common-modal-footer")])
  const PrimaryC := Compound("", [ClassIs("TUXButton--primary")])
  const FooterButtons: seq<Selector> := [Within(FooterC, ButtonC)]
  const FooterPrimary: seq<Selector> := [Within(FooterC, PrimaryC)]

  /** Step 1: the first button or button-role element whose trimmed `textContent` is "Add" or "+ Add". */
  function AddLink(ns: seq<Node>): Option<Node> {
    Find(QueryAll(ns, S("button", []) + S("", [AttrIs("role", "button")])),
      n => TrimText(n) == "Add" || TrimText(n) == "+ Add")
  }

  /** Step 2: the first button whose trimmed `textContent` is "Next". */
  function LinkNext(ns: seq<Node>): Option<Node> {
    Find(QueryAll(ns, S("button", [])), n => TrimText(n) == "Next")
  }

  /** Step 3: a button whose `textContent` or `innerText` mentions the showcase tab, else a
      text element whose trimmed `textContent` or `innerText` names it exactly. */
  function ShowcaseTab(ns: seq<Node>): Option<Node> {
    match Find(QueryAll(ns, S("button", [])), (n: Node) => Contains(n.el.text, "Showcase products") || Contains(n.el.rendered, "Showcase products"))
    case Some(b) => Some(b)
    case None =>
      Find(QueryAll(ns, S("div", []) + S("span", []) + S("p", []) + S("li", [])),
        n => Reads(n, "Showcase products"))
  }

  /** The tab is clicked, then its closest button (itself, when it is a button). */
  function ShowcaseClicks(tab: Option<Node>): (r: seq<Action>)
    ensures forall a :: a in r ==> a.Click?
  {
    match tab
    case None => []
    case Some(t) =>
      [Click(t.el)] + match Closest(t, ButtonC) { case Some(b) => [Click(b)] case None => [] }
  }

  /** Step 4: the TUX text input, else an input whose placeholder mentions a search or a product. */
  function SearchInput(ns: seq<Node>): Option<Node> {
    match Query(ns, S("", [ClassIs("TUXTextInputCore-input")]))
    case Some(i) => Some(i)
    case None => Query(ns, S("input", [AttrHas("placeholder", "Search")]) + S("input", [AttrHas("placeholder", "product")]))
  }

  /** Filling the search input; `value` is the input's value after `insertText`. */
  function FillActions(input: Element, id: string, value: string): (r: seq<Action>)
    ensures SetValue(input, id) in r <==> value != id
  {
    [Focus(input), Exec("selectAll", None), Exec("insertText", Some(id))]
    + (if value != id then [SetValue(input, id)] else [])
    + [Fire(input, InputEvent(None)), Fire(input, ChangeEvent)]
  }

  /** Starting the search: the parent of the first svg under the input's parent is clicked,
      then the trailing icon wrapper around it; without an svg, Enter is pressed. */
  function SearchTrigger(input: Node, parent: Node): (r: seq<Action>)
    ensures forall a :: a in r ==> a.Click? || a == Fire(input.el, KeyDown("Enter"))
  {
    match Query(Descendants(parent), S("svg", []))
    case None => [Fire(input.el, KeyDown("Enter"))]
    case Some(svg) =>
      assert ParentNode(svg).Some? by { DescendantHasParent(parent, svg); }
      [Click(ParentNode(svg).value.el)]
      + match Closest(svg, Compound("", [ClassIs("TUXTextInputCore-trailingIconWrapper")]))
        { case Some(w) => [Click(w)] case None => [] }
  }

  /** Step 5: the first product row whose text contains the id. */
  function TargetRow(ns: seq<Node>, id: string): Option<Node> {
    Find(QueryAll(ns, S("tr", [ClassIs("product-tb-row")])), (n: Node) => Contains(n.el.text, id))
  }

  /** An HTML element, which has `click`; an element in an svg subtree has none. */
  predicate HasClick(n: Node) {
    n.el.tag != "svg" && forall k :: 0 <= k < |n.ancestors| ==> n.ancestors[k].tag != "svg"
  }

  const CircleSelector: seq<Selector> := [Within(Compound("svg", []), Compound("circle", []))]

  /** The parents of the circles that have `click`, clicked in order. */
  function CircleClicks(circles: seq<Node>): (r: seq<Action>)
    ensures forall a :: a in r ==> a.Click?
  {
    if circles == [] then []
    else
      (match ParentNode(circles[0]) { case Some(p) => if HasClick(p) then [Click(p.el)] else [] case None => [] })
      + CircleClicks(circles[1..])
  }

  function Circles(row: Node): seq<Node> {
    QueryAll(Descendants(row), CircleSelector)
  }

  /** The `forEach` over the svg circles of the row. */
  method ClickCircles(circles: seq<Node>) returns (clicks: seq<Action>)
    ensures clicks == CircleClicks(circles)
  {
    clicks := [];
    var i := |circles|;
    while i > 0
      invariant 0 <= i <= |circles|
      invariant clicks == CircleClicks(circles[i..])
    {
      i := i - 1;
      var c := circles[i];
      assert circles[i..][1..] == circles[i + 1..];
      match ParentNode(c) {
        case Some(p) =>
          if HasClick(p) {
            clicks := [Click(p.el)] + clicks;
          }
        case None =>
      }
    }
  }

  const RadioSelector: seq<Selector> :=
    S("", [ClassIs("TUXRadioStandalone-input")]) + S("input", [AttrIs("type", "radio")])

  /** Selecting the row: its radio input, the circles' parents and the radio container;
      the whole row when it has no radio input. */
  function RowClicks(row: Node): (r: seq<Action>)
    ensures forall a :: a in r ==> a.Click?
  {
    match Query(Descendants(row), RadioSelector)
    case None => [Click(row.el)]
    case Some(radio) =>
      [Click(radio.el)] + CircleClicks(Circles(row))
      + match Closest(radio, Compound("", [ClassIs("TUXRadioStandalone")])) { case Some(c) => [Click(c)] case None => [] }
  }

  /** Step 6: a footer button whose trimmed `textContent` or `innerText` is "Next", else the footer's primary button. */
  function FooterNext(ns: seq<Node>): Option<Node> {
    var buttons := QueryAll(ns, FooterButtons + [Within(Compound("", [AttrHas("class", "common-modal-footer")]), ButtonC)]);
    match Find(buttons, n => Reads(n, "Next"))
    case Some(b) => Some(b)
    case None => Query(ns, FooterPrimary)
  }

  /** The test the final step applies to the footer buttons: visible, and reading "Add" by `textContent` or `innerText`. */
  predicate ReadsAdd(n: Node) {
    Reads(n, "Add") && n.el.visible
  }

  /** Step 7: a visible footer button reading "Add", else the footer's primary button. */
  function FinalAdd(ns: seq<Node>): Option<Node> {
    match Find(QueryAll(ns, FooterButtons), ReadsAdd)
    case Some(b) => Some(b)
    case None => Query(ns, FooterPrimary)
  }

  /** The click sequence on the final button. */
  function Commit(b: Element): seq<Action> {
    [Focus(b), Fire(b, MouseDown), Fire(b, MouseUp), Fire(b, MouseClick)]
  }

  /** `addProduct` as a function of the pages the steps see: steps 1 to 3. */
  function Wizard(pages: WizardPages, id: string, value: string): (r: Run)
    ensures r.actions == [] <==> AddLink(pages.addLink).None?
    ensures r.outcome.Success? ==>
      (LinkNext(pages.linkType).Some? && SearchInput(pages.search).Some? && TargetRow(pages.results, id).Some?)
  {
    match AddLink(pages.addLink)
    case None => Run(Failure(NoAddLink), [])
    case Some(add) =>
      match LinkNext(pages.linkType)
      case None => Run(Failure(NoLinkNext), [Click(add.el)])
      case Some(next) =>
        FromSearch(pages, id, value, [Click(add.el), Click(next.el)] + ShowcaseClicks(ShowcaseTab(pages.showcase)))
  }

  /** Steps 4 and 5, after the actions `done`. */
  function FromSearch(pages: WizardPages, id: string, value: string, done: seq<Action>): (r: Run)
    ensures done <= r.actions
    ensures r.outcome.Success? ==> SearchInput(pages.search).Some? && TargetRow(pages.results, id).Some?
  {
    match SearchInput(pages.search)
    case None => Run(Failure(NoSearchInput), done)
    case Some(input) =>
      var filled := done + FillActions(input.el, id, value);
      match ParentNode(input)
      case None => Run(Failure(NullParent), filled)
      case Some(parent) =>
        var searched := filled + SearchTrigger(input, parent);
        match TargetRow(pages.results, id)
        case None => Run(Failure(NotFound(id)), searched)
        case Some(row) => FromFooter(pages, searched + RowClicks(row))
  }

  /** Steps 6 and 7, after the actions `done`. */
  function FromFooter(pages: WizardPages, done: seq<Action>): (r: Run)
    ensures done <= r.actions
    ensures r.outcome.Success? <==> |r.actions| == |done| + 6
    ensures r.outcome.Success? ==> r.outcome == Success(ProductAdded)
    ensures r.outcome.Success? ==>
      && FooterNext(pages.footer).Some? && FinalAdd(pages.confirm).Some?
      && r.actions == done + [Focus(FooterNext(pages.footer).value.el), Click(FooterNext(pages.footer).value.el)]
           + Commit(FinalAdd(pages.confirm).value.el)
  {
    match FooterNext(pages.footer)
    case None => Run(Failure(NoFooterNext), done)
    case Some(fn) =>
      var confirmed := done + [Focus(fn.el), Click(fn.el)];
      var fin := FinalAdd(pages.confirm);
      if fin.Some? && Contains(fin.value.el.text, "Add") then
        Run(Success(ProductAdded), confirmed + Commit(fin.value.el))
      else Run(Failure(NoFinalAdd), confirmed)
  }

  /** `addProduct`, step by step with early returns. */
  method AddProduct(pages: WizardPages, id: string, value: string) returns (r: Run)
    ensures r == Wizard(pages, id, value)
  {
    var add := AddLink(pages.addLink);
    if add.None? {
      return Run(Failure(NoAddLink), []);
    }
    var actions := [Click(add.value.el)];
    var next := LinkNext(pages.linkType);
    if next.None? {
      return Run(Failure(NoLinkNext), actions);
    }
    var tabClicks := ShowcaseStep(ShowcaseTab(pages.showcase));
    actions := [Click(add.value.el), Click(next.value.el)] + tabClicks;
    EnterSearch(pages, id, value);
    r := SearchSteps(pages, id, value, actions);
  }

  /** Step 3: the optional showcase tab. */
  method ShowcaseStep(tab: Option<Node>) returns (clicks: seq<Action>)
    ensures clicks == ShowcaseClicks(tab)
  {
    clicks := [];
    if tab.Some? {
      clicks := [Click(tab.value.el)];
      var b := Closest(tab.value, ButtonC);
      if b.Some? {
        clicks := clicks + [Click(b.value)];
      }
    }
  }

  /** Past steps 1 and 2 the wizard continues with the search. */
  lemma EnterSearch(pages: WizardPages, id: string, value: string)
    requires AddLink(pages.addLink).Some? && LinkNext(pages.linkType).Some?
    ensures Wizard(pages, id, value) == FromSearch(pages, id, value,
      [Click(AddLink(pages.addLink).value.el), Click(LinkNext(pages.linkType).value.el)]
      + ShowcaseClicks(ShowcaseTab(pages.showcase)))
  {
  }

  /** Steps 4 and 5 of `addProduct`. */
  method SearchSteps(pages: WizardPages, id: string, value: string, done: seq<Action>) returns (r: Run)
    ensures r == FromSearch(pages, id, value, done)
  {
    var actions := done;
    var input := SearchInput(pages.search);
    if input.None? {
      return Run(Failure(NoSearchInput), actions);
    }
    actions := actions + FillActions(input.value.el, id, value);
    var parent := ParentNode(input.value);
    if parent.None? {
      return Run(Failure(NullParent), actions);
    }
    actions := actions + SearchTrigger(input.value, parent.value);
    var row := TargetRow(pages.results, id);
    if row.None? {
      return Run(Failure(NotFound(id)), actions);
    }
    var clicks := SelectRow(row.value);
    r := FooterSteps(pages, actions + clicks);
  }

  /** Selecting the product row. */
  method SelectRow(row: Node) returns (clicks: seq<Action>)
    ensures clicks == RowClicks(row)
  {
    var radio := Query(Descendants(row), RadioSelector);
    if radio.Some? {
      var circles := ClickCircles(Circles(row));
      clicks := [Click(radio.value.el)] + circles;
      var container := Closest(radio.value, Compound("", [ClassIs("TUXRadioStandalone")]));
      if container.Some? {
        clicks := clicks + [Click(container.value)];
      }
    } else {
      clicks := [Click(row.el)];
    }
  }

  /** Steps 6 and 7 of `addProduct`. */
  method FooterSteps(pages: WizardPages, done: seq<Action>) returns (r: Run)
    ensures r == FromFooter(pages, done)
  {
    var fn := FooterNext(pages.footer);
    if fn.None? {
      return Run(Failure(NoFooterNext), done);
    }
    var actions := done + [Focus(fn.value.el), Click(fn.value.el)];
    var fin := FinalAdd(pages.confirm);
    if fin.None? || !Contains(fin.value.el.text, "Add") {
      return Run(Failure(NoFinalAdd), actions);
    }
    r := Run(Success(ProductAdded), actions + Commit(fin.value.el));
  }

  predicate Presses(a: Action) {
    a.Fire? && a.event.MouseDown?
  }

  /** A run presses the mouse only if it succeeds, and a success ends with the click sequence
      on the final button, whose text contains "Add". */
  predicate CommitShape(pages: WizardPages, r: Run) {
    && (forall a :: a in r.actions && Presses(a) ==> r.outcome.Success?)
    && (r.outcome.Success? ==> (FinalAdd(pages.confirm).Some?
        && Contains(FinalAdd(pages.confirm).value.el.text, "Add")
        && |r.actions| >= 4 && r.actions[|r.actions| - 4..] == Commit(FinalAdd(pages.confirm).value.el)))
  }

  lemma FooterCommit(pages: WizardPages, done: seq<Action>)
    requires Quiet(done)
    ensures CommitShape(pages, FromFooter(pages, done))
  {
    match FooterNext(pages.footer)
    case None =>
    case Some(fn) =>
      var confirmed := done + [Focus(fn.el), Click(fn.el)];
      assert Quiet(confirmed) by {
        QuietAppend(done, [Focus(fn.el), Click(fn.el)]);
      }
      var fin := FinalAdd(pages.confirm);
      if fin.Some? && Contains(fin.value.el.text, "Add") {
        var acts := confirmed + Commit(fin.value.el);
        assert FromFooter(pages, done) == Run(Success(ProductAdded), acts);
        assert acts[|acts| - 4..] == Commit(fin.value.el);
      } else {
        assert FromFooter(pages, done) == Run(Failure(NoFinalAdd), confirmed);
      }
  }

  /** No action of `t` presses the mouse. */
  predicate Quiet(t: seq<Action>) {
    forall a :: a in t ==> !Presses(a)
  }

  lemma QuietAppend(t: seq<Action>, u: seq<Action>)
    requires Quiet(t) && Quiet(u)
    ensures Quiet(t + u)
  {
  }

  lemma SearchCommit(pages: WizardPages, id: string, value: string, done: seq<Action>)
    requires Quiet(done)
    ensures CommitShape(pages, FromSearch(pages, id, value, done))
  {
    match SearchInput(pages.search)
    case None =>
    case Some(input) =>
      var fill := FillActions(input.el, id, value);
      assert Quiet(fill);
      QuietAppend(done, fill);
      var filled := done + fill;
      match ParentNode(input)
      case None =>
      case Some(parent) =>
        var trigger := SearchTrigger(input, parent);
        assert Quiet(trigger);
        QuietAppend(filled, trigger);
        var searched := filled + trigger;
        match TargetRow(pages.results, id)
        case None =>
        case Some(row) =>
          var clicks := RowClicks(row);
          assert Quiet(clicks);
          QuietAppend(searched, clicks);
          FooterCommit(pages, searched + clicks);
  }

  /** The steps before the final one never press the mouse: the click sequence on the final
      button happens only on success, and success always ends with it on a button whose text
      contains "Add". */
  lemma CommitOnlyOnSuccess(pages: WizardPages, id: string, value: string)
    ensures CommitShape(pages, Wizard(pages, id, value))
  {
    if AddLink(pages.addLink).None? || LinkNext(pages.linkType).None? {
      EarlyStopClicksOnly(pages, id, value);
    } else {
      CommitAfterLinks(pages, id, value);
    }
  }

  /** Past the link steps only clicks have happened when the search starts. */
  lemma CommitAfterLinks(pages: WizardPages, id: string, value: string)
    requires AddLink(pages.addLink).Some? && LinkNext(pages.linkType).Some?
    ensures CommitShape(pages, Wizard(pages, id, value))
  {
    OpenedClicksOnly(pages);
    SearchCommit(pages, id, value, Opened(pages));
    WizardStopsEarly(pages, id, value);
  }

  /** A footer button the final step prefers: visible, with trimmed `textContent` or trimmed
      `innerText` exactly "Add". */
  predicate VisibleAdd(n: Node) {
    MatchesAny(n, FooterButtons) && ReadsAdd(n)
  }

  /** The final button is a visible footer "Add" button whenever the confirmation screen has
      one, and the footer's primary button only when it has none. The "Add" check before the
      click reads `textContent` alone: a preferred button whose `textContent` reads "Add"
      passes it, one chosen for its `innerText` alone whose `textContent` lacks "Add" ends the
      run with `NoFinalAdd` even when the primary button would have passed, and a committed
      button, preferred or not, contains "Add". */
  lemma FinalButtonRule(pages: WizardPages, done: seq<Action>)
    requires FinalAdd(pages.confirm).Some?
    ensures var b := FinalAdd(pages.confirm).value;
      b in pages.confirm && (VisibleAdd(b) || MatchesAny(b, FooterPrimary))
    ensures (exists n :: n in pages.confirm && VisibleAdd(n)) ==> VisibleAdd(FinalAdd(pages.confirm).value)
    ensures !(exists n :: n in pages.confirm && VisibleAdd(n)) ==>
      FinalAdd(pages.confirm) == Query(pages.confirm, FooterPrimary)
    ensures var b := FinalAdd(pages.confirm).value;
      VisibleAdd(b) && TrimText(b) == "Add" ==> Contains(b.el.text, "Add")
    ensures var b := FinalAdd(pages.confirm).value;
      (VisibleAdd(b) && FooterNext(pages.footer).Some? && !Contains(b.el.text, "Add")) ==>
        FromFooter(pages, done) == Run(Failure(NoFinalAdd), ConfirmedFrom(pages, done))
    ensures FromFooter(pages, done).outcome.Success? ==> Contains(FinalAdd(pages.confirm).value.el.text, "Add")
  {
    var ns := pages.confirm;
    var found := Find(QueryAll(ns, FooterButtons), ReadsAdd);
    PreferredFound(ns);
    if found.Some? {
      assert FinalAdd(ns) == found;
    } else {
      assert FinalAdd(ns) == Query(ns, FooterPrimary);
    }
    VisibleAddContains(FinalAdd(ns).value);
    FooterStops(pages, done);
  }

  /** The search for the preferred button finds one exactly when the screen has one. */
  lemma PreferredFound(ns: seq<Node>)
    ensures var found := Find(QueryAll(ns, FooterButtons), ReadsAdd);
      && (found.Some? <==> exists n :: n in ns && VisibleAdd(n))
      && (found.Some? ==> found.value in ns && VisibleAdd(found.value))
  {
    PreferredSound(ns);
    if n :| n in ns && VisibleAdd(n) {
      PreferredComplete(ns, n);
    }
  }

  lemma PreferredSound(ns: seq<Node>)
    ensures var found := Find(QueryAll(ns, FooterButtons), ReadsAdd);
      found.Some? ==> found.value in ns && VisibleAdd(found.value)
  {
    var buttons := QueryAll(ns, FooterButtons);
    var found := Find(buttons, ReadsAdd);
    if found.Some? {
      var j :| 0 <= j < |buttons| && buttons[j] == found.value;
    }
  }

  lemma PreferredComplete(ns: seq<Node>, n: Node)
    requires n in ns && VisibleAdd(n)
    ensures Find(QueryAll(ns, FooterButtons), ReadsAdd).Some?
  {
    var buttons := QueryAll(ns, FooterButtons);
    assert n in buttons;
    var j :| 0 <= j < |buttons| && buttons[j] == n;
    assert ReadsAdd(buttons[j]);
  }

  /** A trimmed `textContent` of "Add" occurs in the untrimmed `textContent`. */
  lemma VisibleAddContains(n: Node)
    ensures VisibleAdd(n) && TrimText(n) == "Add" ==> Contains(n.el.text, "Add")
  {
    if VisibleAdd(n) && TrimText(n) == "Add" {
      var i :| OccursAt(n.el.text, Trim(n.el.text), i);
      ContainsAt(n.el.text, "Add");
    }
  }

  lemma FooterOutcome(pages: WizardPages, d1: seq<Action>, d2: seq<Action>)
    ensures FromFooter(pages, d1).outcome == FromFooter(pages, d2).outcome
  {
  }

  lemma SearchOutcome(pages: WizardPages, id: string, value: string, d1: seq<Action>, d2: seq<Action>)
    ensures FromSearch(pages, id, value, d1).outcome == FromSearch(pages, id, value, d2).outcome
  {
    match SearchInput(pages.search)
    case None =>
    case Some(input) =>
      match ParentNode(input)
      case None =>
      case Some(parent) =>
        match TargetRow(pages.results, id)
        case None =>
        case Some(row) =>
          FooterOutcome(pages, d1 + FillActions(input.el, id, value) + SearchTrigger(input, parent) + RowClicks(row),
            d2 + FillActions(input.el, id, value) + SearchTrigger(input, parent) + RowClicks(row));
  }

  /** The later steps do not look at the showcase tab's page. */
  lemma SearchIgnoresShowcase(pages: WizardPages, other: seq<Node>, id: string, value: string, done: seq<Action>)
    ensures FromSearch(pages.(showcase := other), id, value, done) == FromSearch(pages, id, value, done)
  {
    var p2 := pages.(showcase := other);
    assert p2.search == pages.search && p2.results == pages.results;
    assert p2.footer == pages.footer && p2.confirm == pages.confirm;
  }

  /** The showcase tab is optional: whether and how the wizard ends does not depend on it. */
  lemma ShowcaseOnlyWarns(pages: WizardPages, id: string, value: string, other: seq<Node>)
    ensures Wizard(pages.(showcase := other), id, value).outcome == Wizard(pages, id, value).outcome
  {
    match AddLink(pages.addLink)
    case None =>
    case Some(add) =>
      match LinkNext(pages.linkType)
      case None =>
      case Some(next) =>
        var d1 := [Click(add.el), Click(next.el)] + ShowcaseClicks(ShowcaseTab(other));
        var d2 := [Click(add.el), Click(next.el)] + ShowcaseClicks(ShowcaseTab(pages.showcase));
        SearchIgnoresShowcase(pages, other, id, value, d1);
        SearchOutcome(pages, id, value, d1, d2);
  }

  /** When every action before the search step is a click, the id is typed from the search
      step on exactly when the search input is found. */
  lemma SearchTypesOnlyWithInput(pages: WizardPages, id: string, value: string, done: seq<Action>)
    requires forall a :: a in done ==> a.Click?
    ensures Exec("insertText", Some(id)) in FromSearch(pages, id, value, done).actions <==> SearchInput(pages.search).Some?
  {
    if SearchInput(pages.search).Some? {
      TypesOnceInputFound(pages, id, value, done);
    }
  }

  lemma TypesOnceInputFound(pages: WizardPages, id: string, value: string, done: seq<Action>)
    requires SearchInput(pages.search).Some?
    ensures Exec("insertText", Some(id)) in FromSearch(pages, id, value, done).actions
  {
    var filled := FilledFrom(pages, id, value, done);
    assert filled[|done| + 2] == Exec("insertText", Some(id));
    SearchStops(pages, id, value, done);
    if ParentNode(SearchInput(pages.search).value).Some? && TargetRow(pages.results, id).Some? {
      assert filled <= SelectedFrom(pages, id, value, done);
    }
  }

  /** The product id is typed only once the link button, the modal's Next button and the
      search input were all found. */
  lemma TypedOnlyWithInput(pages: WizardPages, id: string, value: string)
    ensures Exec("insertText", Some(id)) in Wizard(pages, id, value).actions ==>
      AddLink(pages.addLink).Some? && LinkNext(pages.linkType).Some? && SearchInput(pages.search).Some?
  {
    WizardStopsEarly(pages, id, value);
    if AddLink(pages.addLink).Some? && LinkNext(pages.linkType).Some? {
      OpenedClicksOnly(pages);
      SearchTypesOnlyWithInput(pages, id, value, Opened(pages));
    } else {
      EarlyStopClicksOnly(pages, id, value);
    }
  }

  /** A wizard stopped at step 1 or 2 has clicked at most the link button: nothing when
      the link button is missing, that button alone when the modal's Next is missing. */
  lemma EarlyStopClicksOnly(pages: WizardPages, id: string, value: string)
    requires AddLink(pages.addLink).None? || LinkNext(pages.linkType).None?
    ensures forall a :: a in Wizard(pages, id, value).actions ==> a.Click?
    ensures AddLink(pages.addLink).None? ==> Wizard(pages, id, value).actions == []
    ensures AddLink(pages.addLink).Some? ==>
      Wizard(pages, id, value).actions == [Click(AddLink(pages.addLink).value.el)]
  {
  }

  /** The clicks of steps 1 to 3 once both link targets are found. */
  function Opened(pages: WizardPages): seq<Action>
    requires AddLink(pages.addLink).Some? && LinkNext(pages.linkType).Some?
  {
    [Click(AddLink(pages.addLink).value.el), Click(LinkNext(pages.linkType).value.el)]
    + ShowcaseClicks(ShowcaseTab(pages.showcase))
  }

  lemma OpenedClicksOnly(pages: WizardPages)
    requires AddLink(pages.addLink).Some? && LinkNext(pages.linkType).Some?
    ensures forall a :: a in Opened(pages) ==> a.Click?
  {
  }

  /** The actions up to the filled search input. */
  function FilledFrom(pages: WizardPages, id: string, value: string, done: seq<Action>): seq<Action>
    requires SearchInput(pages.search).Some?
  {
    done + FillActions(SearchInput(pages.search).value.el, id, value)
  }

  /** The actions up to the started search. */
  function SearchedFrom(pages: WizardPages, id: string, value: string, done: seq<Action>): seq<Action>
    requires SearchInput(pages.search).Some? && ParentNode(SearchInput(pages.search).value).Some?
  {
    FilledFrom(pages, id, value, done)
    + SearchTrigger(SearchInput(pages.search).value, ParentNode(SearchInput(pages.search).value).value)
  }

  /** The actions up to the selected row. */
  function SelectedFrom(pages: WizardPages, id: string, value: string, done: seq<Action>): seq<Action>
    requires SearchInput(pages.search).Some? && ParentNode(SearchInput(pages.search).value).Some?
    requires TargetRow(pages.results, id).Some?
  {
    SearchedFrom(pages, id, value, done) + RowClicks(TargetRow(pages.results, id).value)
  }

  /** The actions up to the footer's Next click. */
  function ConfirmedFrom(pages: WizardPages, done: seq<Action>): seq<Action>
    requires FooterNext(pages.footer).Some?
  {
    done + [Focus(FooterNext(pages.footer).value.el), Click(FooterNext(pages.footer).value.el)]
  }

  /** Every target of the later steps was found. */
  predicate LaterStepsFound(pages: WizardPages, id: string) {
    SearchInput(pages.search).Some? && ParentNode(SearchInput(pages.search).value).Some?
    && TargetRow(pages.results, id).Some? && FooterNext(pages.footer).Some?
    && FinalAdd(pages.confirm).Some? && Contains(FinalAdd(pages.confirm).value.el.text, "Add")
  }

  /** Steps 6 and 7 succeed exactly when both footer targets are found; a missing footer
      Next stops before any footer action, a missing final button right after the Next click. */
  lemma FooterStops(pages: WizardPages, done: seq<Action>)
    ensures FromFooter(pages, done).outcome.Success? <==>
      FooterNext(pages.footer).Some? && FinalAdd(pages.confirm).Some? && Contains(FinalAdd(pages.confirm).value.el.text, "Add")
    ensures FooterNext(pages.footer).None? ==> FromFooter(pages, done) == Run(Failure(NoFooterNext), done)
    ensures (FooterNext(pages.footer).Some?
      && !(FinalAdd(pages.confirm).Some? && Contains(FinalAdd(pages.confirm).value.el.text, "Add"))) ==>
      FromFooter(pages, done) == Run(Failure(NoFinalAdd), ConfirmedFrom(pages, done))
  {
  }

  /** Steps 4 to 7 succeed exactly when all their targets are found, and each missing target
      ends the run with its own message right after the actions of the steps before it. */
  lemma SearchStops(pages: WizardPages, id: string, value: string, done: seq<Action>)
    ensures FromSearch(pages, id, value, done).outcome.Success? <==> LaterStepsFound(pages, id)
    ensures SearchInput(pages.search).None? ==> FromSearch(pages, id, value, done) == Run(Failure(NoSearchInput), done)
    ensures (SearchInput(pages.search).Some? && ParentNode(SearchInput(pages.search).value).None?) ==>
      FromSearch(pages, id, value, done) == Run(Failure(NullParent), FilledFrom(pages, id, value, done))
    ensures (SearchInput(pages.search).Some? && ParentNode(SearchInput(pages.search).value).Some?
      && TargetRow(pages.results, id).None?) ==>
      FromSearch(pages, id, value, done) == Run(Failure(NotFound(id)), SearchedFrom(pages, id, value, done))
    ensures (SearchInput(pages.search).Some? && ParentNode(SearchInput(pages.search).value).Some?
      && TargetRow(pages.results, id).Some?) ==>
      FromSearch(pages, id, value, done) == FromFooter(pages, SelectedFrom(pages, id, value, done))
  {
    match SearchInput(pages.search)
    case None =>
    case Some(input) =>
      match ParentNode(input)
      case None =>
      case Some(parent) =>
        match TargetRow(pages.results, id)
        case None =>
        case Some(row) =>
          FooterStops(pages, SelectedFrom(pages, id, value, done));
  }

  /** The wizard stops at a missing link button before any action, and at a missing Next
      button of the link-type modal after the link button's click; past both, it runs the
      search steps after the link clicks. */
  lemma WizardStopsEarly(pages: WizardPages, id: string, value: string)
    ensures AddLink(pages.addLink).None? ==> Wizard(pages, id, value) == Run(Failure(NoAddLink), [])
    ensures AddLink(pages.addLink).Some? && LinkNext(pages.linkType).None? ==>
      Wizard(pages, id, value) == Run(Failure(NoLinkNext), [Click(AddLink(pages.addLink).value.el)])
    ensures AddLink(pages.addLink).Some? && LinkNext(pages.linkType).Some? ==>
      Wizard(pages, id, value) == FromSearch(pages, id, value, Opened(pages))
  {
  }

  /** The wizard succeeds exactly when every step finds its target, and the first missing
      target ends it with that step's own message, after the actions of the earlier steps
      and before any action of the later ones. */
  lemma WizardStopsAtFirstMissing(pages: WizardPages, id: string, value: string)
    ensures Wizard(pages, id, value).outcome.Success? <==>
      AddLink(pages.addLink).Some? && LinkNext(pages.linkType).Some? && LaterStepsFound(pages, id)
    ensures AddLink(pages.addLink).None? ==> Wizard(pages, id, value) == Run(Failure(NoAddLink), [])
    ensures AddLink(pages.addLink).Some? && LinkNext(pages.linkType).None? ==>
      Wizard(pages, id, value) == Run(Failure(NoLinkNext), [Click(AddLink(pages.addLink).value.el)])
    ensures (AddLink(pages.addLink).Some? && LinkNext(pages.linkType).Some? && SearchInput(pages.search).None?) ==>
      Wizard(pages, id, value) == Run(Failure(NoSearchInput), Opened(pages))
    ensures (AddLink(pages.addLink).Some? && LinkNext(pages.linkType).Some? && SearchInput(pages.search).Some?
      && ParentNode(SearchInput(pages.search).value).None?) ==>
      Wizard(pages, id, value) == Run(Failure(NullParent), FilledFrom(pages, id, value, Opened(pages)))
    ensures (AddLink(pages.addLink).Some? && LinkNext(pages.linkType).Some? && SearchInput(pages.search).Some?
      && ParentNode(SearchInput(pages.search).value).Some? && TargetRow(pages.results, id).None?) ==>
      Wizard(pages, id, value) == Run(Failure(NotFound(id)), SearchedFrom(pages, id, value, Opened(pages)))
    ensures (AddLink(pages.addLink).Some? && LinkNext(pages.linkType).Some? && SearchInput(pages.search).Some?
      && ParentNode(SearchInput(pages.search).value).Some? && TargetRow(pages.results, id).Some?
      && FooterNext(pages.footer).None?) ==>
      Wizard(pages, id, value) == Run(Failure(NoFooterNext), SelectedFrom(pages, id, value, Opened(pages)))
    ensures (AddLink(pages.addLink).Some? && LinkNext(pages.linkType).Some? && SearchInput(pages.search).Some?
      && ParentNode(SearchInput(pages.search).value).Some? && TargetRow(pages.results, id).Some?
      && FooterNext(pages.footer).Some?
      && !(FinalAdd(pages.confirm).Some? && Contains(FinalAdd(pages.confirm).value.el.text, "Add"))) ==>
      Wizard(pages, id, value) == Run(Failure(NoFinalAdd), ConfirmedFrom(pages, SelectedFrom(pages, id, value, Opened(pages))))
  {
    WizardStopsEarly(pages, id, value);
    if AddLink(pages.addLink).Some? && LinkNext(pages.linkType).Some? {
      SearchStops(pages, id, value, Opened(pages));
      if SearchInput(pages.search).Some? && ParentNode(SearchInput(pages.search).value).Some?
        && TargetRow(pages.results, id).Some? {
        FooterStops(pages, SelectedFrom(pages, id, value, Opened(pages)));
      }
    }
  }

  /** A missing product row ends the wizard with the id in the message, after the search
      has been typed and started and before any step of the footer. */
  lemma MissingRow(pages: WizardPages, id: string, value: string)
    requires AddLink(pages.addLink).Some? && LinkNext(pages.linkType).Some?
    requires SearchInput(pages.search).Some? && ParentNode(SearchInput(pages.search).value).Some?
    requires TargetRow(pages.results, id).None?
    ensures Wizard(pages, id, value).outcome == Failure("Product " + id + " not found in results table")
    ensures Wizard(pages, id, value).actions == SearchedFrom(pages, id, value, Opened(pages))
    ensures Exec("insertText", Some(id)) in Wizard(pages, id, value).actions
  {
    WizardStopsAtFirstMissing(pages, id, value);
    var filled := FilledFrom(pages, id, value, Opened(pages));
    assert Exec("insertText", Some(id)) in filled;
  }

  /** A circle matched by `svg circle` lies in an svg subtree, so its parent has no `click`:
      the circle loop never clicks anything. */
  lemma CircleParentsNeverClicked(row: Node)
    ensures CircleClicks(Circles(row)) == []
  {
    var cs := Circles(row);
    assert forall i :: 0 <= i < |cs| ==> MatchesAny(cs[i], CircleSelector);
    CircleClicksNone(cs);
  }

  lemma {:induction false} CircleClicksNone(circles: seq<Node>)
    requires forall i :: 0 <= i < |circles| ==> Matches(circles[i], CircleSelector[0])
    ensures CircleClicks(circles) == []
    decreases |circles|
  {
    if circles != [] {
      var c := circles[0];
      assert Matches(c, CircleSelector[0]);
      var k :| 0 <= k < |c.ancestors| && CompoundMatches(c.ancestors[k], Compound("svg", []));
      match ParentNode(c) {
        case Some(p) =>
          if k < |c.ancestors| - 1 {
            assert p.ancestors[k] == c.ancestors[k];
          } else {
            assert p.el == c.ancestors[k];
          }
          assert !HasClick(p);
        case None =>
      }
      CircleClicksNone(circles[1..]);
    }
  }

  /** A tab found among the buttons is its own closest button, so it is clicked twice. */
  lemma ButtonTabClickedTwice(t: Node)
    requires t.el.tag == "button"
    ensures ShowcaseClicks(Some(t)) == [Click(t.el), Click(t.el)]
  {
  }
}
