/** The background coordinator: its message dispatch, the checks of a post request
    and the mapping of the page's answer, cookie installation, the fetch proxy's
    defaults and error mapping, the storage cleanup selection, the login formula of
    its tab check, and the single persistent window it opens and closes. */
module Coordinator {
  import opened Js
  import opened Text
  import opened PageUrl

  // ---------------------------------------------------------------- dispatch

  datatype Handler =
    | OpenWindow | CloseWindow | ExtensionId | Ping | PostVideo | SetCookies
    | UserLoggedIn | FetchApi | Unknown

  /** The action name each known handler answers to. */
  function ActionOf(h: Handler): string {
    match h
    case OpenWindow => "OPEN_PERSISTENT_WINDOW"
    case CloseWindow => "CLOSE_PERSISTENT_WINDOW"
    case ExtensionId => "EXTENSION_ID_REQUEST"
    case Ping => "PING"
    case PostVideo => "POST_VIDEO"
    case SetCookies => "SET_TIKTOK_COOKIES"
    case UserLoggedIn => "USER_LOGGED_IN"
    case FetchApi => "FETCH_API"
    case Unknown => ""
  }

  /** The `if (message.action === …)` chain of the message listener. */
  function HandlerOf(action: Option<string>): Handler {
    if action == Some("OPEN_PERSISTENT_WINDOW") then OpenWindow
    else if action == Some("CLOSE_PERSISTENT_WINDOW") then CloseWindow
    else if action == Some("EXTENSION_ID_REQUEST") then ExtensionId
    else if action == Some("PING") then Ping
    else if action == Some("POST_VIDEO") then PostVideo
    else if action == Some("SET_TIKTOK_COOKIES") then SetCookies
    else if action == Some("USER_LOGGED_IN") then UserLoggedIn
    else if action == Some("FETCH_API") then FetchApi
    else Unknown
  }

  /** Each known action reaches its own handler and nothing else does. */
  lemma DispatchExact(action: Option<string>, h: Handler)
    requires h != Unknown
    ensures HandlerOf(action) == h <==> action == Some(ActionOf(h))
  {
    assert |"PING"| != |"POST_VIDEO"| && |"FETCH_API"| != |"POST_VIDEO"|;
    assert "OPEN_PERSISTENT_WINDOW"[0] != "CLOSE_PERSISTENT_WINDOW"[0];
    assert "POST_VIDEO"[0] != "USER_LOGGED_IN"[0];
    assert "EXTENSION_ID_REQUEST"[0] != "SET_TIKTOK_COOKIES"[0];
    assert |"EXTENSION_ID_REQUEST"| != |"SET_TIKTOK_COOKIES"|;
    assert |"FETCH_API"| != |"EXTENSION_ID_REQUEST"| && |"FETCH_API"| != |"SET_TIKTOK_COOKIES"|;
    assert |"PING"| != |"FETCH_API"|;
  }

  /** The listener's own answer; the post, cookie and fetch handlers answer later. */
  datatype Reply =
    | Done(message: Option<string>)
    | ExtensionIdReply(extensionId: string, source: string, version: string)
    | Alive(aliveMessage: string, timestamp: int)
    | UnknownAction(error: string, receivedAction: Option<string>)
    | Later

  /** The reply to a message; `extensionId` is the runtime id and `now` the clock. */
  function Dispatch(action: Option<string>, extensionId: string, now: int): (r: Reply)
    ensures r.UnknownAction? <==> HandlerOf(action) == Unknown
    ensures r.Later? <==> HandlerOf(action) in {PostVideo, SetCookies, FetchApi}
    ensures r.Alive? ==> r.timestamp == now
  {
    match HandlerOf(action)
    case OpenWindow => Done(Some("Opening persistent window"))
    case CloseWindow => Done(Some("Closing persistent window"))
    case ExtensionId => ExtensionIdReply(extensionId, "tiktok_automator_extension", "1.0.0")
    case Ping => Alive("Extension is alive", now)
    case PostVideo => Later
    case SetCookies => Later
    case UserLoggedIn => Done(None)
    case FetchApi => Later
    case Unknown => UnknownAction("Unknown action", action)
  }

  /** An unrecognised action, a missing one included, is refused and echoed back; every
      recognised one is answered with success now or by its handler. */
  lemma UnknownActionEchoed(action: Option<string>, extensionId: string, now: int)
    ensures Dispatch(action, extensionId, now).UnknownAction? <==> HandlerOf(action) == Unknown
    ensures HandlerOf(action) == Unknown ==>
      Dispatch(action, extensionId, now) == UnknownAction("Unknown action", action)
    ensures Dispatch(action, extensionId, now).Later? <==>
      HandlerOf(action) in {PostVideo, SetCookies, FetchApi}
  {
  }

  // ---------------------------------------------------------------- POST_VIDEO

  datatype Cookie = Cookie(
    name: string,
    value: Option<string>,
    domain: Option<string>,
    path: Option<string>,
    secure: Option<bool>,
    httpOnly: Option<bool>,
    sameSite: Option<string>,
    expirationDate: Option<int>)

  /** The `cookies` field of a request: absent or null, some other value (with its
      truthiness), or an array. */
  datatype CookiesField = Missing | NotArray(truthy: bool) | CookieList(cookies: seq<Cookie>)

  predicate CookiesTruthy(f: CookiesField) {
    f.CookieList? || (f.NotArray? && f.truthy)
  }

  datatype PostData = PostData(videoUrl: Option<string>, caption: Option<string>, cookies: CookiesField)

  const MissingData := "Missing required data: videoUrl, caption, or cookies"
  const UploadLocation := Location("https", TikTokHost, "/upload", "", "")
  const InvalidResponse := "Invalid response from content script"
  const CommunicationFailed := "Failed to communicate with TikTok page: "

  /** A value the page's content script answers with. */
  datatype Answer = Object(outcome: Outcome) | NonObject

  /** What the upload tab gave back: a messaging error with its optional message, or an
      answer. */
  datatype TabReply = LastError(message: Option<string>) | Answered(answer: Answer)

  /** Whether an upload tab was opened, and the response sent back to the caller. */
  datatype PostResult = PostResult(tabOpened: bool, response: Outcome)

  /** `handlePostVideo`; `tabError` is the message of a failed tab creation and `reply`
      the content script's answer to `UPLOAD_VIDEO`. */
  function HandlePostVideo(d: PostData, tabError: Option<string>, reply: TabReply): (r: PostResult)
    ensures r.tabOpened ==> Truthy(d.videoUrl) && Truthy(d.caption) && CookiesTruthy(d.cookies) && tabError.None?
    ensures !r.tabOpened ==> r.response.Failure?
  {
    if !Truthy(d.videoUrl) || !Truthy(d.caption) || !CookiesTruthy(d.cookies) then
      PostResult(false, Failure(MissingData))
    else if tabError.Some? then PostResult(false, Failure(tabError.value))
    else match reply
      case LastError(m) => PostResult(true, Failure(CommunicationFailed + OrDefault(m, "Unknown error")))
      case Answered(Object(o)) => PostResult(true, o)
      case Answered(NonObject) => PostResult(true, Failure(InvalidResponse))
  }

  /** A request without a video URL, a caption or cookies fails before any tab is opened;
      an empty cookie array counts as present. */
  lemma PostValidation(d: PostData, tabError: Option<string>, reply: TabReply)
    ensures !Truthy(d.videoUrl) || !Truthy(d.caption) || !CookiesTruthy(d.cookies) ==>
      HandlePostVideo(d, tabError, reply) == PostResult(false, Failure(MissingData))
    ensures HandlePostVideo(d, tabError, reply).tabOpened <==>
      Truthy(d.videoUrl) && Truthy(d.caption) && CookiesTruthy(d.cookies) && tabError.None?
    ensures d.cookies == CookieList([]) && Truthy(d.videoUrl) && Truthy(d.caption) && tabError.None? ==>
      HandlePostVideo(d, tabError, reply).tabOpened
  {
  }

  /** Once the tab is open the caller gets the page's object answer unchanged, and a
      failure for a messaging error or an answer that is not an object. */
  lemma PostResponseMapping(d: PostData, reply: TabReply)
    requires HandlePostVideo(d, None, reply).tabOpened
    ensures reply.Answered? && reply.answer.Object? ==>
      HandlePostVideo(d, None, reply).response == reply.answer.outcome
    ensures reply == Answered(NonObject) ==> HandlePostVideo(d, None, reply).response == Failure(InvalidResponse)
    ensures reply.LastError? ==> (HandlePostVideo(d, None, reply).response.Failure?
      && StartsWith(HandlePostVideo(d, None, reply).response.error, CommunicationFailed))
    ensures reply == LastError(None) || reply == LastError(Some("")) ==>
      HandlePostVideo(d, None, reply).response == Failure(CommunicationFailed + "Unknown error")
  {
    if reply.LastError? {
      var m := OrDefault(reply.message, "Unknown error");
      assert (CommunicationFailed + m)[..|CommunicationFailed|] == CommunicationFailed;
    }
  }

  /** The tab the coordinator opens is the regular upload page of the page agent. */
  lemma OpensRegularUploadPage()
    ensures Classify(Href(UploadLocation)) == RegularUpload
  {
    TikTokHostPlain();
    assert WellFormed(UploadLocation);
    UploadPageExact(UploadLocation);
  }

  // ---------------------------------------------------------------- SET_TIKTOK_COOKIES

  const CookieUrl := "https://www.tiktok.com"

  /** The details passed to `chrome.cookies.set` for one cookie. */
  datatype CookieRequest = CookieRequest(
    url: string,
    name: string,
    value: Option<string>,
    domain: string,
    path: string,
    secure: bool,
    httpOnly: bool,
    sameSite: string,
    expirationDate: Option<int>)

  function RequestOf(c: Cookie): CookieRequest {
    CookieRequest(CookieUrl, c.name, c.value,
      OrDefault(c.domain, ".tiktok.com"),
      OrDefault(c.path, "/"),
      c.secure != Some(false),
      c.httpOnly == Some(true),
      OrDefault(c.sameSite, "lax"),
      c.expirationDate)
  }

  /** The defaults: domain ".tiktok.com", path "/", secure unless explicitly false,
      not http-only unless set, same-site "lax"; given values are kept. */
  lemma CookieDefaults(c: Cookie)
    ensures c.domain.None? ==> RequestOf(c).domain == ".tiktok.com"
    ensures c.path.None? ==> RequestOf(c).path == "/"
    ensures c.sameSite.None? ==> RequestOf(c).sameSite == "lax"
    ensures c.secure.None? ==> RequestOf(c).secure
    ensures RequestOf(c).secure <==> c.secure != Some(false)
    ensures c.httpOnly.None? ==> !RequestOf(c).httpOnly
    ensures Truthy(c.domain) ==> RequestOf(c).domain == c.domain.value
    ensures Truthy(c.path) ==> RequestOf(c).path == c.path.value
    ensures RequestOf(c).name == c.name && RequestOf(c).url == CookieUrl
  {
  }

  datatype CookieResult = CookieResult(name: string, success: bool, error: Option<string>)

  /** The result of one `chrome.cookies.set`; `failure` is the thrown error's message. */
  function ResultOf(c: Cookie, failure: Option<string>): CookieResult {
    if failure.None? then CookieResult(c.name, true, None) else CookieResult(c.name, false, failure)
  }

  /** How many results succeeded. */
  function Succeeded(results: seq<CookieResult>): (n: nat)
    ensures n <= |results|
    ensures n == |results| <==> forall k :: 0 <= k < |results| ==> results[k].success
    decreases |results|
  {
    if results == [] then 0
    else
      var rest := Succeeded(results[1..]);
      assert forall k :: 1 <= k < |results| ==> results[k] == results[1..][k - 1];
      (if results[0].success then 1 else 0) + rest
  }

  /** A cookie name that marks a session: it contains "session" or "login", ignoring case. */
  predicate SessionName(name: string) {
    Contains(Lower(name), "session") || Contains(Lower(name), "login")
  }

  datatype CookieReply =
    | InvalidCookies(error: string)
    | CookiesSet(success: bool, results: seq<CookieResult>, hasSessionCookie: bool, message: string)

  /** `handleSetCookies`; `failures[k]` is what setting the k-th cookie threw, if anything.
      Returns the requests made and the reply. */
  method HandleSetCookies(field: CookiesField, failures: seq<Option<string>>)
    returns (requests: seq<CookieRequest>, reply: CookieReply)
    requires field.CookieList? ==> |failures| == |field.cookies|
    ensures !field.CookieList? ==> requests == [] && reply == InvalidCookies("Invalid cookies data")
    ensures field.CookieList? ==>
      var cs := field.cookies;
      && reply.CookiesSet?
      && |requests| == |cs| && |reply.results| == |cs|
      && (forall k :: 0 <= k < |cs| ==> requests[k] == RequestOf(cs[k]))
      && (forall k :: 0 <= k < |cs| ==> reply.results[k] == ResultOf(cs[k], failures[k]))
      && (reply.success <==> forall k :: 0 <= k < |cs| ==> failures[k].None?)
      && (reply.hasSessionCookie <==> exists k :: 0 <= k < |cs| && SessionName(cs[k].name))
      && reply.message == "Set " + NatToString(Succeeded(reply.results)) + " of " + NatToString(|cs|) + " cookies"
  {
    requests := [];
    if !field.CookieList? {
      reply := InvalidCookies("Invalid cookies data");
      return;
    }
    var cs := field.cookies;
    var results: seq<CookieResult> := [];
    for i := 0 to |cs|
      invariant |requests| == i && |results| == i
      invariant forall k :: 0 <= k < i ==> requests[k] == RequestOf(cs[k])
      invariant forall k :: 0 <= k < i ==> results[k] == ResultOf(cs[k], failures[k])
    {
      requests := requests + [RequestOf(cs[i])];
      results := results + [ResultOf(cs[i], failures[i])];
    }
    var hasSession := false;
    for i := 0 to |cs|
      invariant hasSession <==> exists k :: 0 <= k < i && SessionName(cs[k].name)
    {
      hasSession := hasSession || SessionName(cs[i].name);
    }
    reply := CookiesSet(Succeeded(results) == |results|, results, hasSession,
      "Set " + NatToString(Succeeded(results)) + " of " + NatToString(|cs|) + " cookies");
  }

  /** The outcomes of a result list, as `results.map(r => r.success)`. */
  function Outcomes(results: seq<CookieResult>): seq<bool> {
    seq(|results|, k requires 0 <= k < |results| => results[k].success)
  }

  /** The count in the message is the number of successful results. */
  lemma {:induction false} SucceededCounts(results: seq<CookieResult>)
    ensures Succeeded(results) == multiset(Outcomes(results))[true]
    decreases |results|
  {
    if results != [] {
      SucceededCounts(results[1..]);
      assert Outcomes(results) == [results[0].success] + Outcomes(results[1..]);
    }
  }

  // ---------------------------------------------------------------- FETCH_API

  /** The fetch options a caller passes: `credentials` and the rest, passed through. */
  datatype FetchOptions = FetchOptions(credentials: Option<string>, rest: map<string, string>)

  /** The options handed to `fetch`: credentials "omit" unless truthy, and a 30-second
      abort signal. */
  datatype FetchRequest = FetchRequest(credentials: string, rest: map<string, string>, timeoutMs: int)

  function RequestOptions(o: FetchOptions): FetchRequest {
    FetchRequest(OrDefault(o.credentials, "omit"), o.rest, 30000)
  }

  /** Credentials default to "omit" when absent or empty; given ones and every other
      option are passed through. */
  lemma CredentialsDefault(o: FetchOptions)
    ensures !Truthy(o.credentials) ==> RequestOptions(o).credentials == "omit"
    ensures Truthy(o.credentials) ==> RequestOptions(o).credentials == o.credentials.value
    ensures RequestOptions(o).rest == o.rest && RequestOptions(o).timeoutMs == 30000
  {
  }

  /** What `fetch` did: a response (its body already read), or a thrown error. */
  datatype FetchOutcome =
    | Responded(ok: bool, status: int, statusText: string, body: string)
    | Threw(name: string, message: string)

  datatype FetchReply = FetchReply(ok: bool, status: int, statusText: string, error: Option<string>, data: Option<string>)

  const TimeoutMessage := "Request timeout after 30 seconds"
  const NetworkMessage := "Network error: Failed to connect to server"

  function FetchReplyOf(r: FetchOutcome): FetchReply {
    match r
    case Responded(ok, status, statusText, body) => FetchReply(ok, status, statusText, None, Some(body))
    case Threw(name, message) =>
      if name == "AbortError" then FetchReply(false, 408, TimeoutMessage, Some(TimeoutMessage), None)
      else if Contains(message, "Failed to fetch") then FetchReply(false, 0, NetworkMessage, Some(NetworkMessage), None)
      else FetchReply(false, 0, message, Some(message), None)
  }

  /** A thrown fetch is reported as not ok with no data; an abort is a 408 with the
      timeout message, a failed connection status 0 with the network message, and any
      other error status 0 with its own message. A response passes through. */
  lemma FetchErrorMapping(r: FetchOutcome)
    ensures r.Threw? ==> (!FetchReplyOf(r).ok && FetchReplyOf(r).data.None?
      && FetchReplyOf(r).error == Some(FetchReplyOf(r).statusText))
    ensures r.Threw? ==> (FetchReplyOf(r).status == 408 <==> r.name == "AbortError")
    ensures r.Threw? && r.name != "AbortError" ==> FetchReplyOf(r).status == 0
    ensures r.Threw? && r.name != "AbortError" && Contains(r.message, "Failed to fetch") ==>
      FetchReplyOf(r).error == Some(NetworkMessage)
    ensures r.Threw? && r.name != "AbortError" && !Contains(r.message, "Failed to fetch") ==>
      FetchReplyOf(r).error == Some(r.message)
    ensures r.Responded? ==> (FetchReplyOf(r).ok == r.ok && FetchReplyOf(r).status == r.status
      && FetchReplyOf(r).data == Some(r.body) && FetchReplyOf(r).error.None?)
  {
  }

  // ---------------------------------------------------------------- cleanup

  /** A stored value as the cleanup reads it: null, an object with an optional numeric
      `timestamp`, or any other value (whose `timestamp` is undefined). */
  datatype Stored = NullValue | Record(timestamp: Option<int>) | OtherValue

  const WeekMs := 7 * 24 * 60 * 60 * 1000

  predicate TempKey(key: string) {
    StartsWith(key, "temp_")
  }

  /** A temporary entry with a truthy timestamp older than the cutoff. */
  predicate Stale(key: string, v: Stored, cutoff: int) {
    TempKey(key) && v.Record? && v.timestamp.Some? && v.timestamp.value != 0 && v.timestamp.value < cutoff
  }

  /** Reading `timestamp` of null throws, which ends the cleanup with nothing removed. */
  predicate Throws(key: string, v: Stored) {
    TempKey(key) && v.NullValue?
  }

  /** The `itemsToRemove` loop of `cleanupOldData`: the keys to remove, or `None` when it
      throws. Keys are selected in storage order. */
  method SelectStale(entries: seq<(string, Stored)>, now: int) returns (r: Option<seq<string>>)
    ensures r.None? <==> exists i :: 0 <= i < |entries| && Throws(entries[i].0, entries[i].1)
    ensures r.Some? ==> forall key :: key in r.value <==>
      exists i :: 0 <= i < |entries| && entries[i].0 == key && Stale(key, entries[i].1, now - WeekMs)
    ensures r.Some? ==> |r.value| <= |entries|
  {
    var cutoff := now - WeekMs;
    var items: seq<string> := [];
    for i := 0 to |entries|
      invariant |items| <= i
      invariant forall j :: 0 <= j < i ==> !Throws(entries[j].0, entries[j].1)
      invariant forall key :: key in items <==>
        exists j :: 0 <= j < i && entries[j].0 == key && Stale(key, entries[j].1, cutoff)
    {
      var (key, value) := entries[i];
      if TempKey(key) {
        if value.NullValue? {
          return None;
        }
        if value.Record? && value.timestamp.Some? && value.timestamp.value != 0 && value.timestamp.value < cutoff {
          items := items + [key];
        }
      }
    }
    r := Some(items);
  }

  // ---------------------------------------------------------------- tab login check

  /** A tab is checked once it has loaded and its URL mentions "tiktok.com". */
  predicate ChecksTab(status: string, url: Option<string>) {
    status == "complete" && url.Some? && Contains(url.value, "tiktok.com")
  }

  /** The verdict of the injected check. */
  predicate TabLoggedIn(hasLoginButton: bool, hasUploadButton: bool, hasUserAvatar: bool) {
    !hasLoginButton && (hasUploadButton || hasUserAvatar)
  }

  /** A login button rules login out; without one, an upload button or an avatar is
      enough, and neither means not logged in. */
  lemma TabLoginFormula(hasLoginButton: bool, hasUploadButton: bool, hasUserAvatar: bool)
    ensures hasLoginButton ==> !TabLoggedIn(hasLoginButton, hasUploadButton, hasUserAvatar)
    ensures !hasLoginButton ==> (TabLoggedIn(hasLoginButton, hasUploadButton, hasUserAvatar) <==> hasUploadButton || hasUserAvatar)
  {
  }

  /** The three signals the injected check reports. */
  datatype TabSignals = TabSignals(hasLoginButton: bool, hasUploadButton: bool, hasUserAvatar: bool)

  /** One `tabs.onUpdated` event: the change's status, the tab's URL, what the injected check
      reported (`None` when `executeScript` threw or gave no result) and the clock. */
  datatype TabEvent = TabEvent(status: string, url: Option<string>, signals: Option<TabSignals>, now: int)

  /** The event stores a login: the tab was checked and the check says logged in. */
  predicate Records(e: TabEvent) {
    && ChecksTab(e.status, e.url)
    && e.signals.Some?
    && TabLoggedIn(e.signals.value.hasLoginButton, e.signals.value.hasUploadButton, e.signals.value.hasUserAvatar)
  }

  /** The stored login after one event. Only `tiktokLoggedIn: true` is ever written, together
      with `tiktokLoginCheck`, so the pair is the time of the check (`None`: never written). */
  function OnTabUpdated(lastCheck: Option<int>, e: TabEvent): (r: Option<int>)
    ensures Records(e) ==> r == Some(e.now)
    ensures !Records(e) ==> r == lastCheck
    ensures r != lastCheck ==> r == Some(e.now)
    ensures lastCheck.Some? ==> r.Some?
    ensures e.signals.Some? && e.signals.value.hasLoginButton ==> r == lastCheck
  {
    if Records(e) then Some(e.now) else lastCheck
  }

  /** The stored login after a series of events. */
  function TabReplay(lastCheck: Option<int>, es: seq<TabEvent>): Option<int>
    decreases |es|
  {
    if es == [] then lastCheck else TabReplay(OnTabUpdated(lastCheck, es[0]), es[1..])
  }

  /** No event from index `k` on stores a login. */
  predicate QuietFrom(es: seq<TabEvent>, k: nat) {
    forall j :: k <= j < |es| ==> !Records(es[j])
  }

  lemma QuietShift(es: seq<TabEvent>, k: nat)
    requires es != [] && 1 <= k && QuietFrom(es, k)
    ensures QuietFrom(es[1..], k - 1)
  {
    forall j | k - 1 <= j < |es[1..]| ensures !Records(es[1..][j]) {
      assert es[1..][j] == es[j + 1];
    }
  }

  /** The stored check time is that of the last event that found the user logged in; with no
      such event the stored login is left as it was, never cleared. */
  lemma TabReplayKeepsLast(lastCheck: Option<int>, es: seq<TabEvent>)
    ensures QuietFrom(es, 0) ==> TabReplay(lastCheck, es) == lastCheck
    ensures forall i :: 0 <= i < |es| && Records(es[i]) && QuietFrom(es, i + 1) ==>
      TabReplay(lastCheck, es) == Some(es[i].now)
  {
    if QuietFrom(es, 0) {
      TabReplayUnchanged(lastCheck, es);
    }
    forall i | 0 <= i < |es| && Records(es[i]) && QuietFrom(es, i + 1)
      ensures TabReplay(lastCheck, es) == Some(es[i].now)
    {
      TabReplayLast(lastCheck, es, i);
    }
  }

  lemma {:induction false} TabReplayUnchanged(lastCheck: Option<int>, es: seq<TabEvent>)
    requires QuietFrom(es, 0)
    ensures TabReplay(lastCheck, es) == lastCheck
    decreases |es|
  {
    if es != [] {
      assert !Records(es[0]);
      QuietShift(es, 1);
      TabReplayUnchanged(lastCheck, es[1..]);
    }
  }

  lemma {:induction false} TabReplayLast(lastCheck: Option<int>, es: seq<TabEvent>, i: nat)
    requires i < |es| && Records(es[i]) && QuietFrom(es, i + 1)
    ensures TabReplay(lastCheck, es) == Some(es[i].now)
    decreases |es|
  {
    var next := OnTabUpdated(lastCheck, es[0]);
    if i == 0 {
      QuietShift(es, 1);
      TabReplayUnchanged(next, es[1..]);
    } else {
      assert es[1..][i - 1] == es[i];
      QuietShift(es, i + 1);
      TabReplayLast(next, es[1..], i - 1);
    }
  }

  // ---------------------------------------------------------------- persistent window

  /** How looking up the tracked window went: it exists and was focused, `windows.get`
      threw, or the focusing `windows.update` threw (both inside the same `try`). */
  datatype Lookup = Focused | GetFailed | FocusFailed

  datatype WindowEvent =
    | Open(lookup: Lookup, created: Option<int>)
    | Close(removed: bool)
    | Removed(windowId: int)

  /** The tracked id after an event, and whether a window was created. */
  datatype WindowStep = WindowStep(tracked: Option<int>, createdWindow: bool)

  /** `openPersistentWindow`, `closePersistentWindow` and the removal listener; `created`
      is the new window's id, or `None` when creation threw; `removed` says whether
      `windows.remove` succeeded. */
  function Next(tracked: Option<int>, e: WindowEvent): (w: WindowStep)
    ensures w.createdWindow ==> e.Open? && w.tracked == e.created && w.tracked.Some?
    ensures !e.Open? ==> w.tracked == tracked || w.tracked.None?
  {
    match e
    case Open(lookup, created) =>
      if tracked.Some? && lookup == Focused then WindowStep(tracked, false)
      else if created.Some? then WindowStep(created, true)
      else WindowStep(None, false)
    case Close(removed) =>
      if tracked.Some? && removed then WindowStep(None, false) else WindowStep(tracked, false)
    case Removed(id) =>
      if tracked == Some(id) then WindowStep(None, false) else WindowStep(tracked, false)
  }

  /** A live tracked window is only focused: no second window is created. A failed lookup
      forgets the id and tracks the new window, if one was made. */
  lemma OpenCreatesAtMostOne(tracked: Option<int>, lookup: Lookup, created: Option<int>)
    ensures tracked.Some? && lookup == Focused ==>
      Next(tracked, Open(lookup, created)) == WindowStep(tracked, false)
    ensures Next(tracked, Open(lookup, created)).createdWindow <==>
      !(tracked.Some? && lookup == Focused) && created.Some?
    ensures Next(tracked, Open(lookup, created)).createdWindow ==>
      Next(tracked, Open(lookup, created)).tracked == created
    ensures tracked.Some? && lookup != Focused && created.None? ==>
      Next(tracked, Open(lookup, created)).tracked.None?
  {
  }

  /** Closing, when the removal works, and the removal listener for the tracked window
      both forget the id; a failed removal or another window's removal changes nothing. */
  lemma CloseForgets(tracked: Option<int>, removed: bool, id: int)
    ensures removed ==> Next(tracked, Close(removed)).tracked.None?
    ensures !removed ==> Next(tracked, Close(removed)).tracked == tracked
    ensures Next(tracked, Removed(id)).tracked == (if tracked == Some(id) then None else tracked)
    ensures !Next(tracked, Close(removed)).createdWindow && !Next(tracked, Removed(id)).createdWindow
  {
  }

  /** The tracked window after a series of events. */
  function Replay(tracked: Option<int>, es: seq<WindowEvent>): Option<int>
    decreases |es|
  {
    if es == [] then tracked else Replay(Next(tracked, es[0]).tracked, es[1..])
  }

  /** An id the coordinator tracks was handed to it by a window creation (or was there
      at the start). */
  lemma {:induction false} TrackedWasCreated(tracked: Option<int>, es: seq<WindowEvent>)
    ensures var t := Replay(tracked, es);
      t.None? || t == tracked || exists k :: 0 <= k < |es| && es[k].Open? && es[k].created == t
    decreases |es|
  {
    if es != [] {
      var t1 := Next(tracked, es[0]).tracked;
      TrackedWasCreated(t1, es[1..]);
      var t := Replay(tracked, es);
      if t.Some? && t != tracked {
        if t == t1 {
          assert es[0].Open? && es[0].created == t;
        } else {
          var k :| 0 <= k < |es[1..]| && es[1..][k].Open? && es[1..][k].created == t;
          assert es[k + 1] == es[1..][k];
        }
      }
    }
  }

  /** The coordinator's `persistentWindowId`. */
  class PersistentWindow {
    var tracked: Option<int>

    constructor ()
      ensures tracked.None?
    {
      tracked := None;
    }

    method OpenWindow(lookup: Lookup, created: Option<int>) returns (createdWindow: bool)
      modifies this
      ensures Next(old(tracked), Open(lookup, created)) == WindowStep(tracked, createdWindow)
    {
      createdWindow := false;
      if tracked.Some? {
        if lookup == Focused {
          return;
        }
        tracked := None;
      }
      if created.Some? {
        tracked := created;
        createdWindow := true;
      }
    }

    method CloseWindow(removed: bool)
      modifies this
      ensures tracked == Next(old(tracked), Close(removed)).tracked
    {
      if tracked.Some? && removed {
        tracked := None;
      }
    }

    /** The `windows.onRemoved` listener registered with the window. */
    method OnRemoved(windowId: int)
      modifies this
      ensures tracked == Next(old(tracked), Removed(windowId)).tracked
    {
      if tracked == Some(windowId) {
        tracked := None;
      }
    }
  }
}
