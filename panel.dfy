/** The extension panel's data logic: which videos it lists, the status badge
    of each, the thumbnail it shows, the defaults of a video card, the account
    names in the account filter and the test for an open upload tab. */
module Panel {
  import opened Js
  import opened Text

  /** A video task as the web app returns it; absent fields are `None`, except that the
      title and the price, which the card renders, tell `null` from a missing field. */
  datatype Video = Video(
    id: string,
    status: Option<string>,
    tiktokId: Option<string>,
    videoType: Option<string>,
    productId: Option<string>,
    title: Value,
    price: Value,
    imageUrl: Option<string>,
    showcaseUrl: Option<string>,
    selectedImage: Option<string>,
    completeVideo: Option<string>,
    videoUrl: Option<string>,
    tone: Option<string>)

  const ReadyToPost := "Ready to Post"

  /** `s` keeps the elements of `t` it holds, in the order `t` has them. */
  predicate Subseq<T(==)>(s: seq<T>, t: seq<T>)
    decreases |t|
  {
    if s == [] then true
    else if t == [] then false
    else (s[0] == t[0] && Subseq(s[1..], t[1..])) || Subseq(s, t[1..])
  }

  lemma {:induction false} SubseqRefl<T>(s: seq<T>)
    ensures Subseq(s, s)
    decreases |s|
  {
    if s != [] {
      SubseqRefl(s[1..]);
    }
  }

  lemma {:induction false} SubseqTrans<T>(a: seq<T>, b: seq<T>, c: seq<T>)
    requires Subseq(a, b) && Subseq(b, c)
    ensures Subseq(a, c)
    decreases |c|
  {
    if a != [] {
      if b[0] == c[0] && Subseq(b[1..], c[1..]) {
        if a[0] == b[0] && Subseq(a[1..], b[1..]) {
          SubseqTrans(a[1..], b[1..], c[1..]);
        } else {
          SubseqTrans(a, b[1..], c[1..]);
        }
      } else {
        SubseqTrans(a, b, c[1..]);
      }
    }
  }

  /** `vs.filter(p)`. */
  function Keep(vs: seq<Video>, p: Video -> bool): (r: seq<Video>)
    ensures forall v :: v in r <==> v in vs && p(v)
    ensures Subseq(r, vs)
  {
    if vs == [] then []
    else
      var rest := Keep(vs[1..], p);
      assert vs == [vs[0]] + vs[1..];
      if p(vs[0]) then
        assert ([vs[0]] + rest)[1..] == rest;
        [vs[0]] + rest
      else rest
  }

  /** The account filter: a truthy `tiktok_id` equal to the selected value. */
  predicate OfAccount(v: Video, account: string) {
    Truthy(v.tiktokId) && v.tiktokId.value == account
  }

  /** A missing video type counts as "Showcase". */
  function TypeOf(v: Video): string {
    OrDefault(v.videoType, "Showcase")
  }

  /** The type filter of `renderVideos`, with every alternative it lists. */
  predicate TypeMatches(videoType: string, filter: string) {
    if filter == "video viral" then
      var l := Lower(videoType);
      || Contains(l, "viral") || l == "video viral" || l == "viral video" || l == "viral"
      || l == "viral-video" || l == "video_viral" || l == "viral_video"
      || Contains(l, "viral video") || Contains(l, "video viral")
    else if filter == "Showcase" then
      var l := Lower(videoType);
      l == "showcase" || Contains(l, "showcase") || videoType == "Showcase"
    else Lower(videoType) == Lower(filter)
  }

  /** The list `renderVideos` shows: ready videos, then the account filter, then the
      type filter, each applied only when it is not "all". */
  function Listed(videos: seq<Video>, account: string, typeFilter: string): (r: seq<Video>)
    ensures forall v :: v in r ==> v in videos && v.status == Some(ReadyToPost)
    ensures account == "all" && typeFilter == "all" ==>
      forall v :: v in videos && v.status == Some(ReadyToPost) ==> v in r
  {
    var ready := Keep(videos, (v: Video) => v.status == Some(ReadyToPost));
    var mine := if account == "all" then ready else Keep(ready, (v: Video) => OfAccount(v, account));
    if typeFilter == "all" then mine else Keep(mine, (v: Video) => TypeMatches(TypeOf(v), typeFilter))
  }

  /** The listed videos keep their order, and a video is listed exactly when it is ready
      and passes the filters in force. */
  lemma ListedIsFiltered(videos: seq<Video>, account: string, typeFilter: string)
    ensures Subseq(Listed(videos, account, typeFilter), videos)
    ensures forall v :: v in Listed(videos, account, typeFilter) <==>
      && v in videos
      && v.status == Some(ReadyToPost)
      && (account == "all" || OfAccount(v, account))
      && (typeFilter == "all" || TypeMatches(TypeOf(v), typeFilter))
  {
    var ready := Keep(videos, (v: Video) => v.status == Some(ReadyToPost));
    var mine := if account == "all" then ready else Keep(ready, (v: Video) => OfAccount(v, account));
    var r := Listed(videos, account, typeFilter);
    SubseqRefl(ready);
    SubseqRefl(mine);
    SubseqTrans(mine, ready, videos);
    SubseqTrans(r, mine, videos);
  }

  lemma OccursContains(s: string, sub: string, i: int)
    requires OccursAt(s, sub, i)
    ensures Contains(s, sub)
  {
    ContainsAt(s, sub);
  }

  /** The literal alternatives of the viral filter that end in "viral". */
  lemma ViralAtSix()
    ensures Contains("video viral", "viral") && Contains("video_viral", "viral")
  {
    assert "video viral"[6..11] == "viral";
    OccursContains("video viral", "viral", 6);
    assert "video_viral"[6..11] == "viral";
    OccursContains("video_viral", "viral", 6);
  }

  /** The literal alternatives of the viral filter that start with "viral". */
  lemma ViralAtZero()
    ensures Contains("viral video", "viral") && Contains("viral", "viral")
    ensures Contains("viral-video", "viral") && Contains("viral_video", "viral")
  {
    assert "viral video"[0..5] == "viral";
    OccursContains("viral video", "viral", 0);
    ContainsSelf("viral");
    assert "viral-video"[0..5] == "viral";
    OccursContains("viral-video", "viral", 0);
    assert "viral_video"[0..5] == "viral";
    OccursContains("viral_video", "viral", 0);
  }

  /** Every alternative of the viral filter contains "viral": the filter keeps exactly the
      types whose lower case contains "viral". */
  lemma ViralFilterIsContains(videoType: string)
    ensures TypeMatches(videoType, "video viral") <==> Contains(Lower(videoType), "viral")
  {
    var l := Lower(videoType);
    ViralAtSix();
    ViralAtZero();
    if Contains(l, "viral video") {
      ContainsTransitive(l, "viral video", "viral");
    }
    if Contains(l, "video viral") {
      ContainsTransitive(l, "video viral", "viral");
    }
  }

  /** The showcase filter keeps exactly the types whose lower case contains "showcase". */
  lemma ShowcaseFilterIsContains(videoType: string)
    ensures TypeMatches(videoType, "Showcase") <==> Contains(Lower(videoType), "showcase")
  {
    var l := Lower(videoType);
    if l == "showcase" {
      ContainsSelf(l);
    }
    if videoType == "Showcase" {
      assert l == "showcase";
      ContainsSelf(l);
    }
  }

  /** A video without a type is listed under the "Showcase" filter. */
  lemma MissingTypeIsShowcase(v: Video)
    requires v.videoType.None?
    ensures TypeMatches(TypeOf(v), "Showcase")
  {
    assert TypeOf(v) == "Showcase";
  }

  /** `getStatusClass`. */
  function StatusClass(status: Option<string>): (r: string)
    ensures r in {"completed", "posted", "ready", "other"}
  {
    if !Truthy(status) then "other"
    else
      var l := Lower(status.value);
      if Contains(l, "completed") || Contains(l, "ready") then "completed"
      else if Contains(l, "posted") then "posted"
      else if Contains(l, "scheduled") then "ready"
      else "other"
  }

  /** The badge ignores letter case, and its keywords take priority in the order
      completed or ready, posted, scheduled. */
  lemma StatusClassIgnoresCase(s: string)
    requires s != ""
    ensures StatusClass(Some(s)) == StatusClass(Some(Lower(s)))
    ensures Contains(Lower(s), "posted") && StatusClass(Some(s)) != "posted" ==> StatusClass(Some(s)) == "completed"
    ensures Contains(Lower(s), "completed") || Contains(Lower(s), "ready") ==> StatusClass(Some(s)) == "completed"
    ensures StatusClass(Some(s)) == "posted" <==>
      Contains(Lower(s), "posted") && !Contains(Lower(s), "completed") && !Contains(Lower(s), "ready")
    ensures StatusClass(Some(s)) == "ready" <==>
      Contains(Lower(s), "scheduled") && !Contains(Lower(s), "posted") && !Contains(Lower(s), "completed") && !Contains(Lower(s), "ready")
  {
    LowerIdempotent(s);
  }

  /** Every listed video carries the "completed" badge. */
  lemma ListedBadgeIsCompleted(videos: seq<Video>, account: string, typeFilter: string, v: Video)
    requires v in Listed(videos, account, typeFilter)
    ensures StatusClass(v.status) == "completed"
  {
    ListedIsFiltered(videos, account, typeFilter);
    var l := Lower(ReadyToPost);
    assert l[0..5] == "ready";
    OccursContains(l, "ready", 0);
  }

  /** `getStatusText`: a status longer than 15 characters is cut before its first space. */
  function StatusText(status: Option<string>): (r: string)
    ensures !Truthy(status) ==> r == "Unknown"
    ensures Truthy(status) ==> |r| <= |status.value| && r == status.value[..|r|]
    ensures Truthy(status) && |status.value| > 15 ==> ' ' !in r
    ensures Truthy(status) && |status.value| > 15 && |r| < |status.value| ==> status.value[|r|] == ' '
    ensures Truthy(status) && |status.value| <= 15 ==> r == status.value
  {
    if !Truthy(status) then "Unknown"
    else if |status.value| > 15 then FirstWord(status.value)
    else status.value
  }

  /** A long status whose first space is at index `i` is shown as its first `i` characters. */
  lemma StatusTextShortens(s: string, i: nat)
    requires |s| > 15 && i < |s| && s[i] == ' ' && ' ' !in s[..i]
    ensures StatusText(Some(s)) == s[..i]
  {
    assert s == s[..i] + s[i..];
    TakeUntilAppend(s[..i], s[i..], {' '});
  }

  /** A long status without a space is shown whole. */
  lemma StatusTextNoSpace(s: string)
    requires |s| > 15 && ' ' !in s
    ensures StatusText(Some(s)) == s
  {
    TakeUntilAppend(s, [], {' '});
    assert s + [] == s;
  }

  const ApiBase := "https://automatorx.thairiches.com"
  const Placeholder := "https://via.placeholder.com" + "/160x100/1e293b/94a3b8?text=No+Thumbnail"

  /** An image field the panel can use: truthy and not "none". */
  predicate Usable(u: Option<string>) {
    Truthy(u) && u.value != "none"
  }

  /** A path without "http" is resolved against the API base: an absolute URL is kept as
      it is, a relative one gets the base in front, and either way the result ends with
      the original text. */
  function Absolute(u: string): (r: string)
    ensures r == u || r == ApiBase + u
    ensures EndsWith(r, u)
  {
    if Contains(u, "http") then u
    else
      assert (ApiBase + u)[|ApiBase + u| - |u|..] == u;
      ApiBase + u
  }

  /** `getVideoThumbnail`: image, then showcase, then selected image, then the placeholder. */
  function Thumbnail(v: Video): (r: string)
    ensures Usable(v.imageUrl) ==> EndsWith(r, v.imageUrl.value)
    ensures !Usable(v.imageUrl) && !Usable(v.showcaseUrl) && !Usable(v.selectedImage) ==> r == Placeholder
  {
    if Usable(v.imageUrl) then Absolute(v.imageUrl.value)
    else if Usable(v.showcaseUrl) then Absolute(v.showcaseUrl.value)
    else if Usable(v.selectedImage) then Absolute(v.selectedImage.value)
    else Placeholder
  }

  lemma StartsHttp(s: string)
    requires StartsWith(s, "https://")
    ensures Contains(s, "http")
  {
    assert s[..4] == "http";
    ContainsPrefix(s, "http");
  }

  /** Every thumbnail is an absolute URL: it contains "http". */
  lemma ThumbnailIsAbsolute(v: Video)
    ensures Contains(Thumbnail(v), "http")
  {
    assert StartsWith(ApiBase, "https://");
    StartsHttp(ApiBase);
    assert StartsWith(Placeholder, "https://");
    StartsHttp(Placeholder);
    forall u: string | !Contains(u, "http") ensures Contains(ApiBase + u, "http") {
      ContainsAppend(ApiBase, "http", u);
    }
  }

  /** The first usable field wins, whatever the later ones hold; with none usable the
      placeholder is shown. */
  lemma ThumbnailPriority(v: Video)
    ensures Usable(v.imageUrl) ==> Thumbnail(v) == Absolute(v.imageUrl.value)
    ensures !Usable(v.imageUrl) && Usable(v.showcaseUrl) ==> Thumbnail(v) == Absolute(v.showcaseUrl.value)
    ensures !Usable(v.imageUrl) && !Usable(v.showcaseUrl) && Usable(v.selectedImage) ==>
      Thumbnail(v) == Absolute(v.selectedImage.value)
    ensures !Usable(v.imageUrl) && !Usable(v.showcaseUrl) && !Usable(v.selectedImage) ==> Thumbnail(v) == Placeholder
  {
  }

  /** A product id the panel lists a product for: truthy, not "manual", not "none". */
  predicate Eligible(v: Video) {
    Truthy(v.productId) && v.productId.value != "manual" && v.productId.value != "none"
  }

  /** What a video card derives from the video. */
  datatype Card = Card(videoUrl: Option<string>, playable: bool, caption: string, hasProductId: bool)

  /** The defaults of `createVideoCard`. */
  function CardOf(v: Video): (c: Card)
    ensures Truthy(v.completeVideo) ==> c.videoUrl == v.completeVideo
    ensures c.playable ==> Truthy(c.videoUrl)
    ensures c.hasProductId ==> Eligible(v)
  {
    var url := Or(v.completeVideo, v.videoUrl);
    Card(
      url,
      Truthy(url) && (v.status == Some(ReadyToPost) || v.status == Some("Posted to Tiktok")),
      OrDefault(v.tone, Render(v.title) + " - " + Render(v.price)),
      Eligible(v) && Trim(v.productId.value) != "")
  }

  /** A card offers its product id exactly for a product the products list has and whose
      id is not all white space; such a blank id is listed as a product but gets no button. */
  lemma ProductButtonNeedsProduct(v: Video)
    ensures CardOf(v).hasProductId <==> Eligible(v) && exists i :: 0 <= i < |v.productId.value| && !IsSpace(v.productId.value[i])
    ensures (Eligible(v) && forall i :: 0 <= i < |v.productId.value| ==> IsSpace(v.productId.value[i])) ==>
      !CardOf(v).hasProductId
  {
    if Eligible(v) {
      TrimEmpty(v.productId.value);
    }
  }

  /** A video without a tone gets a caption built from its title and price, rendered as a
      template literal renders them: "undefined" for a missing field and "null" for `null`;
      a truthy tone is the caption itself. */
  lemma CaptionDefault(v: Video)
    ensures Truthy(v.tone) ==> CardOf(v).caption == v.tone.value
    ensures !Truthy(v.tone) && v.title.Undefined? && v.price.Undefined? ==> CardOf(v).caption == "undefined - undefined"
    ensures !Truthy(v.tone) && v.title.Null? && v.price.Null? ==> CardOf(v).caption == "null - null"
    ensures !Truthy(v.tone) && v.title.Str? && v.price.Str? ==> CardOf(v).caption == v.title.s + " - " + v.price.s
  {
  }

  const MaxNickname := 15

  /** The display name of an account in the account filter. */
  function DisplayNickname(nickname: Option<string>): (r: string)
    ensures |r| <= MaxNickname + 3
  {
    var d := OrDefault(nickname, "Unknown");
    if |d| > MaxNickname then d[..MaxNickname] + "..." else d
  }

  /** Short names are shown whole; long ones keep their first 15 characters and end in
      "...", so two long names that agree on those characters look the same. */
  lemma NicknameTruncation(n1: string, n2: string)
    requires |n1| > MaxNickname && |n2| > MaxNickname && n1[..MaxNickname] == n2[..MaxNickname]
    ensures DisplayNickname(Some(n1)) == DisplayNickname(Some(n2))
    ensures EndsWith(DisplayNickname(Some(n1)), "...") && StartsWith(DisplayNickname(Some(n1)), n1[..MaxNickname])
  {
  }

  lemma ShortNicknameKept(n: string)
    requires 0 < |n| <= MaxNickname
    ensures DisplayNickname(Some(n)) == n
  {
  }

  /** An account as the web app returns it. */
  datatype Account = Account(id: string, tiktokId: Option<string>, uniqueId: Option<string>,
    uniqueIdSnake: Option<string>, nickname: Option<string>)

  /** An option of the account filter: its value and its text. */
  datatype AccountOption = AccountOption(value: string, caption: string)

  function OptionOf(a: Account): (o: AccountOption)
    ensures Truthy(a.tiktokId) ==> o.value == a.tiktokId.value
    ensures !Truthy(a.tiktokId) && !Truthy(a.uniqueId) && !Truthy(a.uniqueIdSnake) ==> o.value == a.id
    ensures EndsWith(o.caption, ")")
  {
    var tiktokId := Or(Or(a.tiktokId, a.uniqueId), a.uniqueIdSnake);
    AccountOption(OrDefault(tiktokId, a.id), DisplayNickname(a.nickname) + " (" + OrDefault(tiktokId, "unknown") + ")")
  }

  /** Choosing the option of an account with a `tiktok_id` lists exactly that account's
      ready videos (before the type filter). */
  lemma AccountOptionSelects(a: Account, videos: seq<Video>)
    requires Truthy(a.tiktokId) && OptionOf(a).value != "all"
    ensures forall v :: v in Listed(videos, OptionOf(a).value, "all") <==>
      v in videos && v.status == Some(ReadyToPost) && Truthy(v.tiktokId) && v.tiktokId == a.tiktokId
  {
    ListedIsFiltered(videos, OptionOf(a).value, "all");
  }

  /** The tab test of `checkUploadPageStatus`. */
  predicate IsUploadTab(url: Option<string>) {
    Truthy(url)
    && (Contains(Lower(url.value), "tiktok.com/upload") || Contains(Lower(url.value), "tiktok.com/tiktokstudio/upload"))
  }

  /** A URL too short to hold "tiktok.com/upload" (17 characters) never passes the tab test. */
  lemma UploadTabLongEnough(url: Option<string>)
    ensures IsUploadTab(url) ==> Truthy(url) && |url.value| >= 17
  {
    if IsUploadTab(url) {
      ContainsAt(Lower(url.value), "tiktok.com/upload");
      ContainsAt(Lower(url.value), "tiktok.com/tiktokstudio/upload");
    }
  }

  predicate HasUploadTab(tabs: seq<Option<string>>) {
    exists i :: 0 <= i < |tabs| && IsUploadTab(tabs[i])
  }

  lemma LowerIdempotent(s: string)
    ensures Lower(Lower(s)) == Lower(s)
  {
    LowerOfLower(Lower(s));
  }

  /** The tab test ignores letter case. */
  lemma UploadTabIgnoresCase(u: string)
    requires u != ""
    ensures IsUploadTab(Some(u)) <==> IsUploadTab(Some(Lower(u)))
  {
    LowerIdempotent(u);
  }

  /** A tab without a URL never counts, and a regular upload URL does. */
  lemma UploadTabExamples()
    ensures !IsUploadTab(None)
    ensures IsUploadTab(Some("www.tiktok.com/upload"))
  {
    var u := "www.tiktok.com/upload";
    forall i | 0 <= i < |u| ensures !('A' <= u[i] <= 'Z') {
      assert u[i] in {'w', '.', 't', 'i', 'k', 'o', 'c', 'm', '/', 'u', 'p', 'l', 'a', 'd'};
    }
    LowerOfLower(u);
    assert u[4..21] == "tiktok.com/upload";
    OccursContains(u, "tiktok.com/upload", 4);
  }
}
