/** The page agent's login check (`checkLoginStatus`): text searches over
    buttons and links, presence tests for user elements, the logged-in hints
    in the page source and in local storage, and the two verdict formulas,
    one for the studio and one for the regular upload page. */
module LoginCheck {
  import opened Js
  import opened Text
  import opened Dom
  import opened PageUrl

  /** Attribute selector shorthands. */
  function E2e(v: string): Cond { AttrIs("data-e2e", v) }

  const LoginSelectors: seq<Selector> :=
    S("", [E2e("login-button")]) + S("", [E2e("login")]) + S("button", [AttrHas("data-e2e", "login")])
    + S("a", [AttrHas("href", "login")]) + S("button", []) + S("a", [AttrIs("role", "button")])
  const LoginPhrases: seq<string> := ["log in", "sign in", "login"]

  const UploadSelectors: seq<Selector> :=
    S("", [E2e("upload-btn")]) + S("button", [AttrHas("data-e2e", "upload")])
    + S("button", [AttrHas("aria-label", "upload")]) + S("button", [])
  const UploadPhrases: seq<string> := ["upload", "post", "publish"]

  const PostPhrases: seq<string> := ["post", "publish"]

  const AvatarSelectors: seq<Selector> :=
    S("", [E2e("user-avatar")]) + S("", [E2e("avatar")]) + S("img", [AttrHas("alt", "avatar")]) + S("", [ClassIs("avatar")])
  const MenuSelectors: seq<Selector> :=
    S("", [E2e("user-menu")]) + S("", [E2e("menu")]) + S("", [AttrHas("aria-label", "menu")])
  const ProfileSelectors: seq<Selector> :=
    S("", [AttrHas("href", "/@"), Not(AttrHas("href", "tiktok.com/@tiktok"))])
  const DropdownSelectors: seq<Selector> :=
    S("", [E2e("dropdown-menu")]) + S("", [AttrIs("role", "menu")])
  const StudioSelectors: seq<Selector> :=
    S("", [ClassIs("tiktok-studio")]) + S("", [AttrHas("data-e2e", "studio")])
  const UserInfoSelectors: seq<Selector> :=
    S("", [E2e("user-info")]) + S("", [ClassIs("user-info")])
  const EnabledFileInput: seq<Selector> :=
    S("input", [AttrIs("type", "file"), Not(AttrSet("disabled"))])

  /** The lower-cased `textContent` of an element includes one of `words`. */
  predicate Mentions(e: Element, words: seq<string>) {
    exists w :: w in words && Contains(Lower(e.text), w)
  }

  /** Some element matched by one of `sels` mentions one of `words`. */
  predicate SomeMentions(ns: seq<Node>, sels: seq<Selector>, words: seq<string>) {
    exists n :: n in ns && MatchesAny(n, sels) && Mentions(n.el, words)
  }

  /** `!!document.querySelector(sels)`. */
  predicate Present(ns: seq<Node>, sels: seq<Selector>) {
    exists n :: n in ns && MatchesAny(n, sels)
  }

  lemma QueryPresent(ns: seq<Node>, sels: seq<Selector>)
    ensures Query(ns, sels).Some? <==> Present(ns, sels)
  {
    if Present(ns, sels) {
      var n :| n in ns && MatchesAny(n, sels);
      var j :| 0 <= j < |ns| && ns[j] == n;
    }
  }

  /** The search loop shared by the login, upload and post-button tests: for each
      selector in turn, each element it matches, stop at the first whose text
      mentions one of the words. */
  method SearchText(ns: seq<Node>, sels: seq<Selector>, words: seq<string>) returns (found: bool)
    ensures found <==> SomeMentions(ns, sels, words)
  {
    found := false;
    var k := 0;
    while k < |sels| && !found
      invariant 0 <= k <= |sels|
      invariant found ==> SomeMentions(ns, sels, words)
      invariant !found ==> forall n :: n in ns && Mentions(n.el, words) ==>
        forall k' :: 0 <= k' < k ==> !Matches(n, sels[k'])
    {
      var elements := QueryAll(ns, [sels[k]]);
      var j := 0;
      while j < |elements| && !found
        invariant 0 <= j <= |elements|
        invariant found ==> SomeMentions(ns, sels, words)
        invariant !found ==> forall i :: 0 <= i < j ==> !Mentions(elements[i].el, words)
      {
        if Mentions(elements[j].el, words) {
          assert MatchesAny(elements[j], [sels[k]]);
          assert Matches(elements[j], sels[k]);
          found := true;
        }
        j := j + 1;
      }
      if !found {
        forall n | n in ns && Mentions(n.el, words)
          ensures !Matches(n, sels[k])
        {
          if Matches(n, sels[k]) {
            assert [sels[k]][0] == sels[k];
            assert MatchesAny(n, [sels[k]]);
          }
        }
      }
      k := k + 1;
    }
  }

  /** The logged-in hints of the page source and of local storage. */
  predicate LoggedInUI(doc: Document, storage: map<string, string>) {
    || Contains(doc.bodyHtml, "\"isLoggedIn\":true")
    || Contains(doc.bodyHtml, "\"loggedIn\":true")
    || Contains(doc.bodyHtml, "isAuthenticated")
    || Truthy(Get(storage, "tt-target-id"))
    || Truthy(Get(storage, "sid_tt"))
  }

  /** `localStorage.getItem(key)`. */
  function Get(storage: map<string, string>, key: string): Option<string> {
    if key in storage then Some(storage[key]) else None
  }

  /** The result of `checkLoginStatus`. */
  datatype LoginStatus = LoginStatus(
    isLoggedIn: bool,
    hasLoginButton: bool,
    hasUploadButton: bool,
    hasUserAvatar: bool,
    hasUserMenu: bool,
    hasUserProfile: bool,
    hasUserDropdown: bool,
    hasStudioElements: bool,
    hasLoggedInUI: bool,
    isStudioPage: bool,
    url: string)

  /** The studio-only signs of a session: a user-info block, an enabled file input, or a
      button whose text mentions posting or publishing. */
  predicate StudioSignals(ns: seq<Node>) {
    Present(ns, UserInfoSelectors) || Present(ns, EnabledFileInput) || SomeMentions(ns, S("button", []), PostPhrases)
  }

  /** What `checkLoginStatus` reports about a page, as a function of the page. */
  function StatusOf(doc: Document, storage: map<string, string>): (st: LoginStatus)
    ensures st.isLoggedIn ==> !st.hasLoginButton
    ensures st.isStudioPage <==> IsStudioHref(Href(doc.loc))
    ensures st.url == Href(doc.loc)
  {
    var ns := AllNodes(doc.roots);
    var login := SomeMentions(ns, LoginSelectors, LoginPhrases);
    var upload := SomeMentions(ns, UploadSelectors, UploadPhrases);
    var avatar := Present(ns, AvatarSelectors);
    var menu := Present(ns, MenuSelectors);
    var profile := Present(ns, ProfileSelectors);
    var dropdown := Present(ns, DropdownSelectors);
    var studio := Present(ns, StudioSelectors);
    var ui := LoggedInUI(doc, storage);
    var href := Href(doc.loc);
    if IsStudioHref(href) then
      var post := SomeMentions(ns, S("button", []), PostPhrases);
      var studioLoggedIn := Present(ns, UserInfoSelectors) || Present(ns, EnabledFileInput)
        || post || avatar || menu || profile;
      LoginStatus(!login && studioLoggedIn, login, upload, avatar, menu, profile, dropdown, studio, ui, true, href)
    else
      LoginStatus(!login && (upload || avatar || menu || profile || dropdown || ui),
        login, upload, avatar, menu, profile, dropdown, studio, ui, false, href)
  }

  /** The verdict follows from the reported signals alone, and `hasStudioElements` is
      never one of them: off the studio, no login text and one of the upload button, the
      avatar, the menu, the profile link, the dropdown or a logged-in hint; on the studio,
      no login text and one of the studio signs, the avatar, the menu or the profile link. */
  lemma VerdictFromSignals(doc: Document, storage: map<string, string>)
    ensures var st := StatusOf(doc, storage);
      && (st.hasLoginButton <==> SomeMentions(AllNodes(doc.roots), LoginSelectors, LoginPhrases))
      && (st.hasLoggedInUI <==> LoggedInUI(doc, storage))
    ensures var st := StatusOf(doc, storage);
      !st.isStudioPage ==>
        (st.isLoggedIn <==> (!st.hasLoginButton
          && (st.hasUploadButton || st.hasUserAvatar || st.hasUserMenu || st.hasUserProfile
            || st.hasUserDropdown || st.hasLoggedInUI)))
    ensures var st := StatusOf(doc, storage);
      st.isStudioPage ==>
        (st.isLoggedIn <==> (!st.hasLoginButton
          && (StudioSignals(AllNodes(doc.roots)) || st.hasUserAvatar || st.hasUserMenu || st.hasUserProfile)))
  {
  }

  /** `checkLoginStatus`, with its search loops. */
  method CheckLoginStatus(doc: Document, storage: map<string, string>) returns (st: LoginStatus)
    ensures st == StatusOf(doc, storage)
  {
    var ns := AllNodes(doc.roots);
    QueryPresent(ns, AvatarSelectors);
    QueryPresent(ns, MenuSelectors);
    QueryPresent(ns, ProfileSelectors);
    QueryPresent(ns, DropdownSelectors);
    QueryPresent(ns, StudioSelectors);
    QueryPresent(ns, UserInfoSelectors);
    QueryPresent(ns, EnabledFileInput);
    var login := SearchText(ns, LoginSelectors, LoginPhrases);
    var avatar := Query(ns, AvatarSelectors).Some?;
    var menu := Query(ns, MenuSelectors).Some?;
    var profile := Query(ns, ProfileSelectors).Some?;
    var dropdown := Query(ns, DropdownSelectors).Some?;
    var upload := SearchText(ns, UploadSelectors, UploadPhrases);
    var studio := Query(ns, StudioSelectors).Some?;
    var ui := LoggedInUI(doc, storage);
    var href := Href(doc.loc);
    if IsStudioHref(href) {
      var post := SearchText(ns, S("button", []), PostPhrases);
      var studioLoggedIn := Query(ns, UserInfoSelectors).Some? || Query(ns, EnabledFileInput).Some?
        || post || avatar || menu || profile;
      st := LoginStatus(!login && studioLoggedIn, login, upload, avatar, menu, profile, dropdown, studio, ui, true, href);
    } else {
      st := LoginStatus(!login && (upload || avatar || menu || profile || dropdown || ui),
        login, upload, avatar, menu, profile, dropdown, studio, ui, false, href);
    }
  }

  /** Any element a login selector matches (a login control, a login link, any button,
      a link styled as a button) whose text says "log in", "sign in" or "login" makes the
      page count as logged out, whatever else it shows. */
  lemma LoginTextBlocks(doc: Document, storage: map<string, string>, n: Node, phrase: string)
    requires n in AllNodes(doc.roots) && MatchesAny(n, LoginSelectors)
    requires phrase in LoginPhrases && Contains(Lower(n.el.text), phrase)
    ensures StatusOf(doc, storage).hasLoginButton
    ensures !StatusOf(doc, storage).isLoggedIn
  {
    assert Mentions(n.el, LoginPhrases);
  }

  /** Every button counts, whatever its attributes. */
  lemma ButtonIsLoginControl(n: Node)
    requires n.el.tag == "button"
    ensures MatchesAny(n, LoginSelectors)
  {
    assert Matches(n, LoginSelectors[4]);
  }

  /** On the studio page, an enabled file input is enough when no login text shows. */
  lemma StudioFileInputSuffices(doc: Document, storage: map<string, string>, n: Node)
    requires IsStudioHref(Href(doc.loc))
    requires !SomeMentions(AllNodes(doc.roots), LoginSelectors, LoginPhrases)
    requires n in AllNodes(doc.roots) && n.el.tag == "input"
    requires Attr(n.el, "type") == Some("file") && "disabled" !in n.el.attrs
    ensures StatusOf(doc, storage).isLoggedIn
  {
    assert Holds(n.el, Not(AttrSet("disabled")));
    assert Matches(n, EnabledFileInput[0]);
  }

  /** On a regular page, a non-empty "tt-target-id" or "sid_tt" item in local storage is
      enough when no login text shows. */
  lemma StorageHintSuffices(doc: Document, storage: map<string, string>)
    requires !IsStudioHref(Href(doc.loc))
    requires !SomeMentions(AllNodes(doc.roots), LoginSelectors, LoginPhrases)
    requires ("tt-target-id" in storage && storage["tt-target-id"] != "") || ("sid_tt" in storage && storage["sid_tt"] != "")
    ensures StatusOf(doc, storage).isLoggedIn
    ensures StatusOf(doc, storage).hasLoggedInUI
  {
  }

  /** The studio verdict ignores the page source and local storage. */
  lemma StudioVerdictIgnoresHints(doc: Document, s1: map<string, string>, s2: map<string, string>, html: string)
    requires IsStudioHref(Href(doc.loc))
    ensures StatusOf(doc, s1).isLoggedIn == StatusOf(doc.(bodyHtml := html), s2).isLoggedIn
  {
  }

  /** A page whose only sign of a session is the storage hint counts as logged in on the
      regular upload page and as logged out on the studio page. */
  lemma HintCountsOnlyOffStudio(doc: Document, storage: map<string, string>)
    requires doc.roots == []
    requires "sid_tt" in storage && storage["sid_tt"] != ""
    ensures StatusOf(doc, storage).isLoggedIn <==> !IsStudioHref(Href(doc.loc))
  {
    var ns := AllNodes(doc.roots);
    assert ns == [];
  }
}
