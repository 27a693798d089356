/** Pressing the post button (`clickPostButton`): the first visible post button,
    refused while it is locked, pressed with a scroll, focus and mouse sequence,
    then either the "Continue to post?" dialog is confirmed or the success poller
    is started. */
module PostSubmit {
  import opened Js
  import opened Text
  import opened Dom

  const NoPostButton := "หาปุ่ม Post ไม่เจอ (ลองตรวจสอบว่าวิดีโอโหลดเสร็จหรือยัง)"
  const LockedButton := "ปุ่มยังเป็นสีเทา (Disabled) ลองรอให้ระบบเช็คลิขสิทธิ์ (Copyright) ให้เสร็จก่อนครับ"
  const PostedAndConfirmed := "คลิกปุ่ม Post และยืนยันใน Popup เรียบร้อยแล้ว!"
  const Posted := "คลิกปุ่ม Post เรียบร้อยแล้ว!"

  const PostSelector: seq<Selector> := S("", [AttrIs("data-e2e", "post_video_button")])
  const ConfirmModal: seq<Selector> := S("", [ClassIs("common-modal-confirm-modal")])

  /** The first post button that is rendered. */
  function PostButton(ns: seq<Node>): (r: Option<Node>)
    ensures r.Some? ==> r.value.el.visible && MatchesAny(r.value, PostSelector)
    ensures r.None? ==> forall n :: n in ns && MatchesAny(n, PostSelector) ==> !n.el.visible
  {
    var candidates := QueryAll(ns, PostSelector);
    var r := Find(candidates, (n: Node) => n.el.visible);
    assert r.None? ==> forall n :: n in candidates ==> !n.el.visible by {
      if r.None? {
        forall n | n in candidates ensures !n.el.visible {
          var j :| 0 <= j < |candidates| && candidates[j] == n;
        }
      }
    }
    r
  }

  /** Elements whose `disabled` property reflects the `disabled` attribute. */
  const FormControls: set<string> := {"button", "input", "select", "textarea", "fieldset", "optgroup", "option"}

  /** The lock test: the `disabled` property, `aria-disabled="true"`, `data-disabled="true"`
      or the class `Button--disabled`. */
  predicate Locked(e: Element) {
    || (e.tag in FormControls && "disabled" in e.attrs)
    || Attr(e, "aria-disabled") == Some("true")
    || Attr(e, "data-disabled") == Some("true")
    || HasClass(e, "Button--disabled")
  }

  /** Scroll, focus, mouse down, mouse up and click on the button, then a click on its
      `.Button__content` when it has one. */
  function Press(b: Node): (r: seq<Action>)
    ensures 5 <= |r| <= 6
    ensures r[0] == ScrollIntoView(b.el)
  {
    [ScrollIntoView(b.el), Focus(b.el), Fire(b.el, MouseDown), Fire(b.el, MouseUp), Click(b.el)]
    + match Query(Descendants(b), S("", [ClassIs("Button__content")])) {
        case Some(inner) => [Click(inner.el)]
        case None => []
      }
  }

  /** The "Post now" button of a "Continue to post?" dialog, on the page after the press. */
  function ConfirmButton(after: seq<Node>): Option<Node> {
    match Query(after, ConfirmModal)
    case None => None
    case Some(m) =>
      if Contains(m.el.text, "Continue to post?") then
        Find(QueryAll(Descendants(m), S("button", [])), (n: Node) => Contains(n.el.text, "Post now"))
      else None
  }

  /** The reply, the actions, and whether the success poller was started. */
  datatype Submission = Submission(run: Run, pollerStarted: bool)

  /** `clickPostButton`; `page` is the page when it starts, `after` the page once the press
      has had time to open a dialog. */
  function ClickPost(page: seq<Node>, after: seq<Node>): (s: Submission)
    ensures s.run.outcome.Failure? <==> s.run.actions == []
    ensures s.pollerStarted ==> s.run.outcome == Success(Posted)
  {
    match PostButton(page)
    case None => Submission(Run(Failure(NoPostButton), []), false)
    case Some(b) =>
      if Locked(b.el) then Submission(Run(Failure(LockedButton), []), false)
      else match ConfirmButton(after)
        case Some(ok) => Submission(Run(Success(PostedAndConfirmed), Press(b) + [Click(ok.el)]), false)
        case None => Submission(Run(Success(Posted), Press(b)), true)
  }

  /** Both refusals happen before any action; every success starts by scrolling to an
      unlocked, visible post button. */
  lemma RefusedBeforeAnyAction(page: seq<Node>, after: seq<Node>)
    ensures var s := ClickPost(page, after);
      s.run.outcome.Failure? <==> s.run.actions == []
    ensures var s := ClickPost(page, after);
      s.run.outcome.Failure? ==> !s.pollerStarted
    ensures var s := ClickPost(page, after);
      s.run.outcome.Success? ==>
        (PostButton(page).Some? && !Locked(PostButton(page).value.el)
         && s.run.actions[0] == ScrollIntoView(PostButton(page).value.el))
  {
  }

  /** No rendered post button, or a locked one, and the call fails with its own message. */
  lemma RefusalReasons(page: seq<Node>, after: seq<Node>)
    ensures ClickPost(page, after).run.outcome == Failure(NoPostButton) <==> PostButton(page).None?
    ensures ClickPost(page, after).run.outcome == Failure(LockedButton) <==>
      PostButton(page).Some? && Locked(PostButton(page).value.el)
  {
    assert |NoPostButton| != |LockedButton|;
  }

  /** Confirming the dialog returns before the success poller is started; the poller runs
      exactly when the button was pressed and no dialog asked for confirmation. */
  lemma ConfirmSkipsPoller(page: seq<Node>, after: seq<Node>)
    ensures var s := ClickPost(page, after);
      s.pollerStarted <==> PostButton(page).Some? && !Locked(PostButton(page).value.el) && ConfirmButton(after).None?
    ensures var s := ClickPost(page, after);
      s.run.outcome == Success(PostedAndConfirmed) ==> !s.pollerStarted
  {
  }
}
