/** Switching on the AI-generated-content label (`toggleAIContent`): reveal the
    advanced settings when the AI container is hidden, find its switch, and
    click it only when it is not already on. */
module AiToggle {
  import opened Js
  import opened Text
  import opened Dom

  const NoShowMore := "Could not find 'Show more' button"
  const NoAiMenu := "Could not find AI menu even after expansion"
  const NoSwitch := "Could not find AI switch button"
  const AlreadyOn := "AI content is already enabled"
  const SwitchedOn := "AI content enabled successfully!"

  const AigcContainer: seq<Selector> := S("", [AttrIs("data-e2e", "aigc_container")])
  const AdvancedSettings: seq<Selector> := S("", [AttrIs("data-e2e", "advanced_settings_container")])
  const SwitchSelector: seq<Selector> := S("", [ClassIs("Switch__content")]) + S("", [AttrIs("role", "switch")])

  /** The container is missing, not rendered, or inside (or itself) a `[hidden]` element. */
  predicate Hidden(c: Option<Node>) {
    c.None? || !c.value.el.visible || Closest(c.value, Compound("", [AttrSet("hidden")])).Some?
  }

  /** The "Show more" control: `.more-btn` in the advanced settings, else the first div,
      span or button whose trimmed, lower-cased text is exactly "show more". */
  function ShowMore(ns: seq<Node>): Option<Node> {
    var inSettings := match Query(ns, AdvancedSettings) {
      case Some(adv) => Query(Descendants(adv), S("", [ClassIs("more-btn")]))
      case None => None
    };
    if inSettings.Some? then inSettings
    else Find(QueryAll(ns, S("div", []) + S("span", []) + S("button", [])),
      (n: Node) => Lower(Trim(n.el.text)) == "show more")
  }

  /** The switch is on when `aria-checked` is "true" or `data-state` is "checked". */
  predicate Checked(e: Element) {
    Attr(e, "aria-checked") == Some("true") || Attr(e, "data-state") == Some("checked")
  }

  /** The clicks that turn the switch on. */
  function SwitchOn(t: Element): seq<Action> {
    [Focus(t), Click(t), Fire(t, MouseDown), Fire(t, MouseUp)]
  }

  /** From the container on: find the switch and click it unless it is on. */
  function FromContainer(container: Option<Node>, done: seq<Action>): (r: Run)
    ensures r.outcome == Failure(NoAiMenu) <==> container.None?
    ensures r.outcome.Failure? ==> r.actions == done
    ensures |r.actions| <= |done| + 4
    ensures |done| <= |r.actions| && r.actions[..|done|] == done
  {
    match container
    case None => Run(Failure(NoAiMenu), done)
    case Some(c) =>
      match Query(Descendants(c), SwitchSelector)
      case None => Run(Failure(NoSwitch), done)
      case Some(t) =>
        if Checked(t.el) then Run(Success(AlreadyOn), done)
        else Run(Success(SwitchedOn), done + SwitchOn(t.el))
  }

  /** `toggleAIContent`; `before` is the page when it starts, `after` the page once the
      "Show more" click has expanded the settings. A failed run has clicked at most
      "Show more", and no run goes beyond that click and the four switch actions. */
  function Toggle(before: seq<Node>, after: seq<Node>): (r: Run)
    ensures r.outcome.Failure? ==> |r.actions| <= 1
    ensures |r.actions| <= 5
  {
    var container := Query(before, AigcContainer);
    if !Hidden(container) then FromContainer(container, [])
    else match ShowMore(before)
      case None => Run(Failure(NoShowMore), [])
      case Some(b) => FromContainer(Query(after, AigcContainer), [Click(b.el)])
  }

  /** The switch that the run acts on, if any. */
  function SwitchOf(before: seq<Node>, after: seq<Node>): Option<Node> {
    var container := Query(before, AigcContainer);
    var c := if !Hidden(container) then container
      else if ShowMore(before).Some? then Query(after, AigcContainer) else None;
    match c
    case None => None
    case Some(cn) => Query(Descendants(cn), SwitchSelector)
  }

  /** The switch is clicked exactly when it was found and was off; a switch that is
      already on is left alone and reported as such. */
  lemma ClickedOnlyWhenOff(before: seq<Node>, after: seq<Node>)
    ensures var r := Toggle(before, after); var t := SwitchOf(before, after);
      r.outcome == Success(SwitchedOn) <==> (t.Some? && !Checked(t.value.el))
    ensures var r := Toggle(before, after); var t := SwitchOf(before, after);
      r.outcome == Success(AlreadyOn) <==> (t.Some? && Checked(t.value.el))
    ensures var r := Toggle(before, after); var t := SwitchOf(before, after);
      t.Some? && !Checked(t.value.el) ==> |r.actions| >= 4 && r.actions[|r.actions| - 4..] == SwitchOn(t.value.el)
    ensures var r := Toggle(before, after);
      r.outcome != Success(SwitchedOn) ==> forall a :: a in r.actions ==> a.Click?
  {
  }

  /** A visible, unhidden container needs no "Show more" click. */
  lemma VisibleNeedsNoExpansion(before: seq<Node>, after: seq<Node>)
    requires !Hidden(Query(before, AigcContainer))
    ensures Toggle(before, after) == FromContainer(Query(before, AigcContainer), [])
    ensures Toggle(before, after).outcome != Failure(NoShowMore)
  {
    assert NoShowMore[15] != NoAiMenu[15] && NoShowMore[15] != NoSwitch[15];
  }

  /** A hidden container is expanded through "Show more"; without one the run stops
      with no action, and with one the click is the first action. */
  lemma HiddenNeedsExpansion(before: seq<Node>, after: seq<Node>)
    requires Hidden(Query(before, AigcContainer))
    ensures ShowMore(before).None? ==> Toggle(before, after) == Run(Failure(NoShowMore), [])
    ensures ShowMore(before).Some? ==>
      |Toggle(before, after).actions| > 0 && Toggle(before, after).actions[0] == Click(ShowMore(before).value.el)
  {
    match ShowMore(before)
    case None =>
    case Some(b) =>
      var r := FromContainer(Query(after, AigcContainer), [Click(b.el)]);
      assert Toggle(before, after) == r;
      assert r.actions[..1] == [Click(b.el)];
  }

  /** A container found hidden is looked up again after the expansion: the page before it
      decides nothing beyond the "Show more" control. */
  lemma ExpansionRereads(before: seq<Node>, after1: seq<Node>, after2: seq<Node>)
    requires Hidden(Query(before, AigcContainer)) && ShowMore(before).Some?
    requires Query(after1, AigcContainer) == Query(after2, AigcContainer)
    ensures Toggle(before, after1) == Toggle(before, after2)
  {
  }
}
