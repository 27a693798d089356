/** The page agent's message handling and its task bookkeeping: the dispatch of
    the message listener, the order of checks in `handleVideoUpload`, the task id
    kept in `window.currentTaskId` and in a `localStorage` marker, the webhook
    payloads sent on a detected post, the check made when a page loads and the
    success poller started after the post button is pressed. */
module PageAgentTasks {
  import opened Js
  import opened Text
  import opened Dom
  import opened PageUrl
  import opened LoginCheck

  /** The handlers of the message listener. */
  datatype Route = UploadVideo | SetCaption | AddProduct | ClickPost | ToggleAi | CheckLogin | GetPageInfo | Unknown

  /** The listener's chain of action tests. */
  function RouteOf(action: string): Route {
    if action == "UPLOAD_VIDEO" then UploadVideo
    else if action == "SET_CAPTION" then SetCaption
    else if action == "ADD_PRODUCT" then AddProduct
    else if action == "CLICK_POST" || action == "CLICK_POST_BUTTON" then ClickPost
    else if action == "TOGGLE_AI_CONTENT" then ToggleAi
    else if action == "CHECK_LOGIN_STATUS" then CheckLogin
    else if action == "GET_PAGE_INFO" then GetPageInfo
    else Unknown
  }

  /** The action names the listener accepts, one per handler. */
  function ActionName(r: Route): string {
    match r
    case UploadVideo => "UPLOAD_VIDEO"
    case SetCaption => "SET_CAPTION"
    case AddProduct => "ADD_PRODUCT"
    case ClickPost => "CLICK_POST"
    case ToggleAi => "TOGGLE_AI_CONTENT"
    case CheckLogin => "CHECK_LOGIN_STATUS"
    case GetPageInfo => "GET_PAGE_INFO"
    case Unknown => ""
  }

  const UnknownAction := "Unknown action"

  /** Every handler is reached by its action name, the post button by two names, and
      nothing else reaches a handler. */
  lemma RoutesAreExact(action: string)
    ensures forall r :: r != Unknown ==> RouteOf(ActionName(r)) == r
    ensures RouteOf("CLICK_POST_BUTTON") == ClickPost
    ensures RouteOf(action) != Unknown <==>
      action in {"UPLOAD_VIDEO", "SET_CAPTION", "ADD_PRODUCT", "CLICK_POST", "CLICK_POST_BUTTON",
                 "TOGGLE_AI_CONTENT", "CHECK_LOGIN_STATUS", "GET_PAGE_INFO"}
  {
  }

  const WrongPage :=
    "Not on TikTok upload page. Please navigate to:\n"
    + "1. https://www.tiktok.com/upload (regular upload)\n"
    + "2. https://www.tiktok.com/tiktokstudio/upload (studio upload)\n\n"
    + "Note: URLs with query parameters like ?from=creator_center are also supported."
  const NotLoggedIn := "Not logged into TikTok. Please log in first."
  const Uploaded := "Video uploaded! Use the 'Caption' button in the extension to fill the text."

  /** The reply of `handleVideoUpload` and whether it went on to wait for the page and
      fetch the video. */
  datatype UploadReply = UploadReply(outcome: Outcome, uploadStarted: bool)

  /** `handleVideoUpload`; `upload` is the result of fetching and injecting the video. */
  function HandleVideoUpload(doc: Document, storage: map<string, string>, upload: Outcome): (r: UploadReply)
    ensures r.uploadStarted ==> IsUploadPage(Href(doc.loc)) && StatusOf(doc, storage).isLoggedIn
    ensures r.outcome.Success? ==> r.uploadStarted && upload.Success?
    ensures r.uploadStarted && upload.Failure? ==> r.outcome == upload
  {
    if !IsUploadPage(Href(doc.loc)) then UploadReply(Failure(WrongPage), false)
    else if !StatusOf(doc, storage).isLoggedIn then UploadReply(Failure(NotLoggedIn), false)
    else if upload.Failure? then UploadReply(upload, true)
    else UploadReply(Success(Uploaded), true)
  }

  /** The page check comes first and the login check second; either refusal happens
      before the upload starts, and the upload starts on every other path. */
  lemma UploadChecksInOrder(doc: Document, storage: map<string, string>, upload: Outcome)
    ensures var r := HandleVideoUpload(doc, storage, upload);
      !IsUploadPage(Href(doc.loc)) ==> r == UploadReply(Failure(WrongPage), false)
    ensures var r := HandleVideoUpload(doc, storage, upload);
      IsUploadPage(Href(doc.loc)) && !StatusOf(doc, storage).isLoggedIn ==> r == UploadReply(Failure(NotLoggedIn), false)
    ensures var r := HandleVideoUpload(doc, storage, upload);
      r.uploadStarted <==> IsUploadPage(Href(doc.loc)) && StatusOf(doc, storage).isLoggedIn
    ensures var r := HandleVideoUpload(doc, storage, upload);
      r.outcome.Success? ==> r.uploadStarted && upload.Success?
  {
  }

  /** The key of the task marker in `localStorage`. */
  const Marker := "tt_automator_last_task_id"

  /** The body of the success webhook (its timestamp is left out). */
  datatype Payload = Payload(taskId: string, status: string, url: string, detectionMethod: string)

  function Webhook(taskId: string, url: string, detectionMethod: string): Payload {
    Payload(taskId, "success", url, detectionMethod)
  }

  /** What the agent keeps between messages: `window.currentTaskId`, `localStorage`
      and the webhooks sent so far, in order. */
  datatype AgentState = AgentState(currentTaskId: Option<string>, storage: map<string, string>, sent: seq<Payload>)

  /** The check made when the script loads on a page at `href`. */
  function AfterLoad(href: string, storage: map<string, string>): (st: AgentState)
    ensures st.currentTaskId == None
  {
    var marker := Get(storage, Marker);
    if IsContentHref(href) && Truthy(marker) then
      AgentState(None, storage - {Marker}, [Webhook(marker.value, href, "redirect_on_load")])
    else AgentState(None, storage, [])
  }

  /** A message with action `action` and, when present, the task id of its data. */
  function AfterReceive(st: AgentState, action: string, taskId: Option<string>): AgentState {
    if action == "UPLOAD_VIDEO" && Truthy(taskId) then
      st.(currentTaskId := taskId, storage := st.storage[Marker := taskId.value])
    else st
  }

  /** A load on the post-listing page consumes a marker and reports it; any other load
      sends nothing and leaves storage alone. */
  lemma LoadConsumesMarker(href: string, storage: map<string, string>)
    ensures var st := AfterLoad(href, storage);
      st.sent != [] <==> IsContentHref(href) && Truthy(Get(storage, Marker))
    ensures var st := AfterLoad(href, storage);
      st.sent != [] ==>
        (st.sent == [Payload(storage[Marker], "success", href, "redirect_on_load")]
         && Marker !in st.storage && st.storage == storage - {Marker})
    ensures var st := AfterLoad(href, storage);
      st.sent == [] ==> st.storage == storage
  {
  }

  /** `UPLOAD_VIDEO` with a task id writes both the in-memory id and the marker; every
      other message leaves the bookkeeping alone. */
  lemma ReceiveRecordsTask(st: AgentState, action: string, taskId: Option<string>)
    ensures var st' := AfterReceive(st, action, taskId);
      action == "UPLOAD_VIDEO" && Truthy(taskId) ==>
        st'.currentTaskId == taskId && Get(st'.storage, Marker) == taskId && st'.sent == st.sent
        && forall k :: k != Marker ==> Get(st'.storage, k) == Get(st.storage, k)
    ensures !(action == "UPLOAD_VIDEO" && Truthy(taskId)) ==> AfterReceive(st, action, taskId) == st
  {
  }

  /** What the poller sees at one tick. */
  datatype Snapshot = Snapshot(bodyText: string, href: string, nodes: seq<Node>)

  const SuccessIndicators: seq<string> :=
    ["Post successful", "Your video is being uploaded", "Manage your posts", "View post", "Post another video"]

  const SuccessModal: seq<Selector> :=
    S("", [ClassIs("common-modal-confirm-modal")]) + S("", [AttrHas("class", "success")])

  predicate TextSuccess(s: Snapshot) {
    exists i :: 0 <= i < |SuccessIndicators| && Contains(s.bodyText, SuccessIndicators[i])
  }

  predicate ModalSuccess(s: Snapshot) {
    match Query(s.nodes, SuccessModal)
    case None => false
    case Some(m) => Contains(m.el.text, "successful") || Contains(m.el.text, "uploaded")
  }

  predicate Positive(s: Snapshot) {
    TextSuccess(s) || ModalSuccess(s) || IsContentHref(s.href)
  }

  /** The detection method, by priority: redirect, then modal, then text. */
  function DetectionMethod(s: Snapshot): (m: string)
    requires Positive(s)
    ensures m == "redirect" <==> IsContentHref(s.href)
    ensures m == "modal" <==> !IsContentHref(s.href) && ModalSuccess(s)
    ensures m == "text" <==> !IsContentHref(s.href) && !ModalSuccess(s) && TextSuccess(s)
  {
    if IsContentHref(s.href) then "redirect" else if ModalSuccess(s) then "modal" else "text"
  }

  /** The poll period and the timeout, in milliseconds. */
  const Interval := 2000
  const Timeout := 60000
  /** The first tick whose elapsed time exceeds the timeout. */
  const MaxTicks := 31

  /** Tick `k` is taken to run exactly `Interval * k` milliseconds after the start: the
      model's clock is ideal. On a real page `setInterval` drifts late, so
      `Date.now() - startTime` can already exceed the timeout at tick 30, which is then the
      last poll; the model always polls 31 times. */
  lemma MaxTicksIsTimeout()
    ensures Interval * MaxTicks > Timeout && Interval * (MaxTicks - 1) <= Timeout
  {
  }

  /** The tick (counted from 1) at which the poller stops, looking from tick `k` on. */
  function StopFrom(pages: seq<Snapshot>, k: nat): (r: nat)
    requires 1 <= k <= MaxTicks <= |pages|
    ensures k <= r <= MaxTicks
    ensures Positive(pages[r - 1]) || r == MaxTicks
    ensures forall j :: k - 1 <= j < r - 1 ==> !Positive(pages[j])
    decreases MaxTicks - k
  {
    if Positive(pages[k - 1]) then k
    else if Interval * k > Timeout then
      assert k == MaxTicks;
      k
    else
      assert k < MaxTicks;
      var r := StopFrom(pages, k + 1);
      assert !Positive(pages[k - 1]) && forall j :: k <= j < r - 1 ==> !Positive(pages[j]);
      r
  }

  /** The tick at which the poller stops: the first positive one, else the timeout. */
  function StopTick(pages: seq<Snapshot>): nat
    requires MaxTicks <= |pages|
  {
    StopFrom(pages, 1)
  }

  /** The effect of the poller: at the stopping tick, a positive signal with a task id (the
      in-memory one first, then the marker) sends one webhook and removes the marker. */
  function AfterPoll(st: AgentState, pages: seq<Snapshot>): AgentState
    requires MaxTicks <= |pages|
  {
    var s := pages[StopTick(pages) - 1];
    var taskId := Or(st.currentTaskId, Get(st.storage, Marker));
    if Positive(s) && Truthy(taskId) then
      st.(sent := st.sent + [Webhook(taskId.value, s.href, DetectionMethod(s))], storage := st.storage - {Marker})
    else st
  }

  /** A poller that sees no positive signal in its 31 ticks times out and sends nothing. */
  lemma TimeoutSendsNothing(st: AgentState, pages: seq<Snapshot>)
    requires MaxTicks <= |pages|
    requires forall j :: 0 <= j < MaxTicks ==> !Positive(pages[j])
    ensures StopTick(pages) == MaxTicks
    ensures AfterPoll(st, pages) == st
  {
    var k := StopTick(pages);
    assert !Positive(pages[k - 1]);
  }

  /** The poller stops at the first positive tick and sends at most one webhook: for that
      tick, with the preferred task id, after which the marker is gone. */
  lemma PollSendsAtMostOnce(st: AgentState, pages: seq<Snapshot>)
    requires MaxTicks <= |pages|
    ensures var k := StopTick(pages);
      1 <= k <= MaxTicks && forall j :: 0 <= j < k - 1 ==> !Positive(pages[j])
    ensures var st' := AfterPoll(st, pages);
      st'.currentTaskId == st.currentTaskId && (st'.sent == st.sent || |st'.sent| == |st.sent| + 1)
    ensures var st' := AfterPoll(st, pages); var s := pages[StopTick(pages) - 1];
      |st'.sent| == |st.sent| + 1 ==>
        && st'.sent[..|st.sent|] == st.sent
        && Positive(s)
        && st'.sent[|st.sent|] == Webhook(Or(st.currentTaskId, Get(st.storage, Marker)).value, s.href, DetectionMethod(s))
        && Marker !in st'.storage
  {
  }

  /** The in-memory task id wins over the marker. */
  lemma InMemoryIdFirst(st: AgentState, pages: seq<Snapshot>)
    requires MaxTicks <= |pages| && Truthy(st.currentTaskId)
    requires Positive(pages[StopTick(pages) - 1])
    ensures var st' := AfterPoll(st, pages);
      |st'.sent| == |st.sent| + 1 && st'.sent[|st.sent|].taskId == st.currentTaskId.value
  {
  }

  /** `window.currentTaskId` is never cleared: a second poll that sees a success again
      sends a second webhook for the same task, although the marker is already gone. */
  lemma RepeatPollResends(st: AgentState, pages: seq<Snapshot>)
    requires MaxTicks <= |pages| && Truthy(st.currentTaskId)
    requires Positive(pages[0])
    ensures var twice := AfterPoll(AfterPoll(st, pages), pages);
      |twice.sent| == |st.sent| + 2
      && twice.sent[|st.sent|] == twice.sent[|st.sent| + 1]
      && twice.sent[|st.sent|].taskId == st.currentTaskId.value
  {
    assert StopTick(pages) == 1;
  }

  /** The agent of one page: `window.currentTaskId`, the page's `localStorage` and the
      webhooks it has sent. */
  class PageAgent {
    var currentTaskId: Option<string>
    var storage: map<string, string>
    var sent: seq<Payload>

    function State(): AgentState
      reads this
    {
      AgentState(currentTaskId, storage, sent)
    }

    /** The script loads on a page at `href` whose `localStorage` is `initial`. */
    constructor Load(href: string, initial: map<string, string>)
      ensures State() == AfterLoad(href, initial)
    {
      currentTaskId := None;
      var marker := Get(initial, Marker);
      if IsContentHref(href) && Truthy(marker) {
        sent := [Webhook(marker.value, href, "redirect_on_load")];
        storage := initial - {Marker};
      } else {
        sent := [];
        storage := initial;
      }
    }

    /** The listener's bookkeeping before it hands the message to a handler. */
    method Receive(action: string, taskId: Option<string>) returns (route: Route)
      modifies this
      ensures route == RouteOf(action)
      ensures State() == AfterReceive(old(State()), action, taskId)
    {
      route := RouteOf(action);
      if action == "UPLOAD_VIDEO" && Truthy(taskId) {
        currentTaskId := taskId;
        storage := storage[Marker := taskId.value];
      }
    }

    /** `checkPostSuccessAndNotify`: one snapshot of the page per tick. */
    method Poll(pages: seq<Snapshot>) returns (ticks: nat)
      requires MaxTicks <= |pages|
      modifies this
      ensures ticks == StopTick(pages)
      ensures State() == AfterPoll(old(State()), pages)
    {
      var k := 1;
      while !(Positive(pages[k - 1]) || Interval * k > Timeout)
        invariant 1 <= k <= MaxTicks
        invariant StopFrom(pages, k) == StopTick(pages)
        decreases MaxTicks - k
      {
        k := k + 1;
      }
      ticks := k;
      var s := pages[k - 1];
      if Positive(s) {
        var taskId := Or(currentTaskId, Get(storage, Marker));
        if Truthy(taskId) {
          sent := sent + [Webhook(taskId.value, s.href, DetectionMethod(s))];
          storage := storage - {Marker};
        }
      }
    }
  }
}
