/** Where the page agent is: the location of the page, the pathname the URL
    parser extracts from it, the upload-page classifier of `handleVideoUpload`
    and `getPageInfo`, and the substring tests on the full href. */
module PageUrl {
  import opened Js
  import opened Text
  import opened Dom

  /** `window.location` by parts; its href is their concatenation. */
  datatype Location = Location(scheme: string, host: string, pathname: string, search: string, hash: string)

  function Href(loc: Location): string {
    loc.scheme + "://" + loc.host + loc.pathname + loc.search + loc.hash
  }

  predicate NoneOf(s: string, cs: set<char>) {
    forall i :: 0 <= i < |s| ==> s[i] !in cs
  }

  /** The shape of every location a browser reports for an http(s) page. */
  predicate WellFormed(loc: Location) {
    && NoneOf(loc.scheme, {':', '/', '?', '#'})
    && NoneOf(loc.host, {'/', '?', '#'})
    && |loc.pathname| > 0 && loc.pathname[0] == '/' && NoneOf(loc.pathname, {'?', '#'})
    && (loc.search == [] || loc.search[0] == '?') && NoneOf(loc.search, {'#'})
    && (loc.hash == [] || loc.hash[0] == '#')
  }

  /** `new URL(href).pathname`: the text after the authority, up to the query or fragment. */
  function Pathname(href: string): string {
    var afterScheme := DropUntil(href, {':'});
    var authority := if |afterScheme| >= 3 then afterScheme[3..] else [];
    var path := TakeUntil(DropUntil(authority, {'/', '?', '#'}), {'?', '#'});
    if path == [] then "/" else path
  }

  /** The scheme ends at the first colon. */
  lemma AfterScheme(scheme: string, authority: string)
    requires NoneOf(scheme, {':', '/', '?', '#'})
    ensures DropUntil(scheme + ("://" + authority), {':'}) == "://" + authority
  {
    assert NoneOf(scheme, {':'});
    DropUntilAppend(scheme, "://" + authority, {':'});
  }

  /** The path starts at the first slash after the host. */
  lemma AfterHost(host: string, fromPath: string)
    requires NoneOf(host, {'/', '?', '#'})
    requires |fromPath| > 0 && fromPath[0] == '/'
    ensures DropUntil(host + fromPath, {'/', '?', '#'}) == fromPath
  {
    DropUntilAppend(host, fromPath, {'/', '?', '#'});
  }

  /** The path ends at the query or the fragment. */
  lemma PathOnly(pathname: string, search: string, hash: string)
    requires NoneOf(pathname, {'?', '#'})
    requires search == [] || search[0] == '?'
    requires hash == [] || hash[0] == '#'
    ensures TakeUntil(pathname + (search + hash), {'?', '#'}) == pathname
  {
    var tail := search + hash;
    if search == [] {
      assert tail == hash;
    } else {
      assert tail[0] == search[0];
    }
    TakeUntilAppend(pathname, tail, {'?', '#'});
  }

  /** The parser recovers the pathname of every well-formed location. */
  lemma PathnameOfHref(loc: Location)
    requires WellFormed(loc)
    ensures Pathname(Href(loc)) == loc.pathname
  {
    var fromPath := loc.pathname + (loc.search + loc.hash);
    var authority := loc.host + fromPath;
    assert Href(loc) == loc.scheme + ("://" + authority);
    AfterScheme(loc.scheme, authority);
    assert ("://" + authority)[3..] == authority;
    AfterHost(loc.host, fromPath);
    PathOnly(loc.pathname, loc.search, loc.hash);
  }

  /** The four upload locations, with or without trailing slash. */
  datatype PageType = RegularUpload | StudioUpload | Other

  function PathType(path: string): PageType {
    if path == "/upload" || path == "/upload/" then RegularUpload
    else if path == "/tiktokstudio/upload" || path == "/tiktokstudio/upload/" then StudioUpload
    else Other
  }

  /** The classifier of `handleVideoUpload` and `getPageInfo`. */
  function Classify(href: string): (t: PageType)
    ensures t != Other <==> Pathname(href) in {"/upload", "/upload/", "/tiktokstudio/upload", "/tiktokstudio/upload/"}
    ensures t == StudioUpload <==> Pathname(href) in {"/tiktokstudio/upload", "/tiktokstudio/upload/"}
  {
    PathType(Pathname(href))
  }

  predicate IsUploadPage(href: string) {
    Classify(href) != Other
  }

  /** A location is an upload page exactly when its pathname is one of the four paths. */
  lemma UploadPageExact(loc: Location)
    requires WellFormed(loc)
    ensures IsUploadPage(Href(loc)) <==>
      loc.pathname in {"/upload", "/upload/", "/tiktokstudio/upload", "/tiktokstudio/upload/"}
    ensures Classify(Href(loc)) == StudioUpload <==>
      loc.pathname in {"/tiktokstudio/upload", "/tiktokstudio/upload/"}
  {
    PathnameOfHref(loc);
  }

  /** Neither the query string nor the fragment affects the classification. */
  lemma ClassifyIgnoresQuery(loc: Location, search: string, hash: string)
    requires WellFormed(loc) && WellFormed(loc.(search := search, hash := hash))
    ensures Classify(Href(loc.(search := search, hash := hash))) == Classify(Href(loc))
  {
    PathnameOfHref(loc);
    PathnameOfHref(loc.(search := search, hash := hash));
  }

  /** The production host, as the browser reports it. */
  const TikTokHost := "www.tiktok.com"

  lemma TikTokHostPlain()
    ensures NoneOf(TikTokHost, {'/', '?', '#'})
  {
    forall i | 0 <= i < |TikTokHost|
      ensures TikTokHost[i] !in {'/', '?', '#'}
    {
      assert TikTokHost[i] in {'w', '.', 't', 'i', 'k', 'o', 'c', 'm'};
    }
  }

  /** A studio upload page with a query string is still the studio upload page. */
  lemma StudioUploadWithQuery()
    ensures Classify(Href(Location("https", TikTokHost, "/tiktokstudio/upload/", "?from=x", ""))) == StudioUpload
  {
    var loc := Location("https", TikTokHost, "/tiktokstudio/upload/", "?from=x", "");
    TikTokHostPlain();
    assert WellFormed(loc);
    UploadPageExact(loc);
  }

  /** `window.location.href.includes("tiktokstudio")`: the login check's studio test. */
  predicate IsStudioHref(href: string) {
    Contains(href, "tiktokstudio")
  }

  /** `window.location.href.includes("/tiktokstudio/content")`: the post-listing page. */
  predicate IsContentHref(href: string) {
    Contains(href, "/tiktokstudio/content")
  }

  /** The href contains every part of the location. */
  lemma HrefContainsSearch(loc: Location, sub: string)
    requires Contains(loc.search, sub)
    ensures Contains(Href(loc), sub)
  {
    var front := loc.scheme + "://" + loc.host + loc.pathname;
    ContainsAt(loc.search, sub);
    var i :| OccursAt(loc.search, sub, i);
    assert Href(loc) == front + loc.search + loc.hash;
    assert (front + loc.search + loc.hash)[|front| + i..|front| + i + |sub|] == loc.search[i..i + |sub|];
    assert OccursAt(Href(loc), sub, |front| + i);
    ContainsAt(Href(loc), sub);
  }

  /** The studio test reads the whole href: a regular upload page whose query names
      the studio is judged with the studio login formula. */
  lemma StudioTestSeesQuery()
    ensures Classify(Href(Location("https", TikTokHost, "/upload", "?from=tiktokstudio", ""))) == RegularUpload
    ensures IsStudioHref(Href(Location("https", TikTokHost, "/upload", "?from=tiktokstudio", "")))
  {
    var loc := Location("https", TikTokHost, "/upload", "?from=tiktokstudio", "");
    TikTokHostPlain();
    assert WellFormed(loc);
    UploadPageExact(loc);
    StudioQueryNamesStudio();
    HrefContainsSearch(loc, "tiktokstudio");
  }

  lemma StudioQueryNamesStudio()
    ensures Contains("?from=tiktokstudio", "tiktokstudio")
  {
    var search := "?from=tiktokstudio";
    assert search[6..18] == "tiktokstudio";
    assert OccursAt(search, "tiktokstudio", 6);
    ContainsAt(search, "tiktokstudio");
  }

  /** What the page agent can read of the page at one moment: its location, title,
      element tree and the serialised body (`document.body.innerHTML`). */
  datatype Document = Document(loc: Location, title: string, roots: seq<Element>, bodyHtml: string)

  /** The result of `getPageInfo` (its timestamp is left out). */
  datatype PageInfo = PageInfo(
    url: string,
    title: string,
    isUploadPage: bool,
    hasVideoInput: bool,
    hasCaptionInput: bool)

  const FileInput: seq<Selector> := S("input", [AttrIs("type", "file")])
  const CaptionInput: seq<Selector> :=
    S("textarea", []) + S("", [AttrIs("contenteditable", "true")])

  /** `getPageInfo`: the classifier plus two presence tests. */
  function GetPageInfo(doc: Document): (info: PageInfo)
    ensures info.url == Href(doc.loc) && info.title == doc.title
    ensures WellFormed(doc.loc) ==> (info.isUploadPage <==>
      doc.loc.pathname in {"/upload", "/upload/", "/tiktokstudio/upload", "/tiktokstudio/upload/"})
    ensures info.hasVideoInput <==> exists n :: n in AllNodes(doc.roots) && MatchesAny(n, FileInput)
    ensures info.hasCaptionInput <==> exists n :: n in AllNodes(doc.roots) && MatchesAny(n, CaptionInput)
  {
    assert WellFormed(doc.loc) ==> (IsUploadPage(Href(doc.loc)) <==>
      doc.loc.pathname in {"/upload", "/upload/", "/tiktokstudio/upload", "/tiktokstudio/upload/"}) by {
      if WellFormed(doc.loc) { UploadPageExact(doc.loc); }
    }
    PageInfo(
      Href(doc.loc),
      doc.title,
      IsUploadPage(Href(doc.loc)),
      Query(AllNodes(doc.roots), FileInput).Some?,
      Query(AllNodes(doc.roots), CaptionInput).Some?)
  }
}
