/** The panel's product list (`extractProductsFromVideos`) and the panel state its
    loaders reassign: one product per distinct product id, in the order the ids
    first appear, counting the videos that carry it. */
module PanelProducts {
  import opened Js
  import opened Panel

  /** A product row of the products table. */
  datatype Product = Product(id: string, title: string, price: string, status: string, videoCount: nat)

  /** The video carries the product id `id` and the panel lists a product for it. */
  predicate HasId(v: Video, id: string) {
    Eligible(v) && v.productId.value == id
  }

  predicate Distinct(ids: seq<string>) {
    forall i, j :: 0 <= i < j < |ids| ==> ids[i] != ids[j]
  }

  /** The keys of the product map, in insertion order. */
  function Ids(vs: seq<Video>): seq<string>
    decreases |vs|
  {
    if vs == [] then []
    else
      var init := Ids(vs[..|vs| - 1]);
      var v := vs[|vs| - 1];
      if Eligible(v) && v.productId.value !in init then init + [v.productId.value] else init
  }

  /** How many videos carry the product id. */
  function CountId(vs: seq<Video>, id: string): nat
    decreases |vs|
  {
    if vs == [] then 0
    else CountId(vs[..|vs| - 1], id) + (if HasId(vs[|vs| - 1], id) then 1 else 0)
  }

  /** The first video that carries the product id. */
  function FirstWith(vs: seq<Video>, id: string): Option<Video>
    decreases |vs|
  {
    if vs == [] then None
    else
      var f := FirstWith(vs[..|vs| - 1], id);
      if f.Some? then f
      else if HasId(vs[|vs| - 1], id) then Some(vs[|vs| - 1])
      else None
  }

  /** The product for an id: title and price of its first video, with the defaults
      "Product <id>" and "N/A", status "Active", and the number of its videos. */
  function ProductFor(vs: seq<Video>, id: string): Product {
    var first := FirstWith(vs, id);
    Product(id,
      OrDefault(if first.Some? then Opt(first.value.title) else None, "Product " + id),
      OrDefault(if first.Some? then Opt(first.value.price) else None, "N/A"),
      "Active",
      CountId(vs, id))
  }

  /** A product keeps its first video's title and price when they are non-empty strings;
      a missing, `null` or empty one falls back to "Product <id>" or "N/A". */
  lemma ProductDefaults(vs: seq<Video>, id: string)
    requires FirstWith(vs, id).Some?
    ensures var v, p := FirstWith(vs, id).value, ProductFor(vs, id);
      && (v.title.Str? && v.title.s != "" ==> p.title == v.title.s)
      && (v.title.Undefined? || v.title.Null? || v.title == Str("") ==> p.title == "Product " + id)
      && (v.price.Str? && v.price.s != "" ==> p.price == v.price.s)
      && (v.price.Undefined? || v.price.Null? || v.price == Str("") ==> p.price == "N/A")
  {
  }

  /** The products for a list of ids, in that order. */
  function ProductsOf(vs: seq<Video>, ids: seq<string>): (r: seq<Product>)
    ensures |r| == |ids|
    ensures forall k :: 0 <= k < |ids| ==> r[k] == ProductFor(vs, ids[k])
    decreases |ids|
  {
    if ids == [] then []
    else ProductsOf(vs, ids[..|ids| - 1]) + [ProductFor(vs, ids[|ids| - 1])]
  }

  /** The value of `extractProductsFromVideos`. */
  function Products(vs: seq<Video>): (r: seq<Product>)
    ensures |r| == |Ids(vs)|
    ensures forall k :: 0 <= k < |r| ==> r[k].id == Ids(vs)[k]
  {
    ProductsOf(vs, Ids(vs))
  }

  /** The sum of the video counts of a product list. */
  function TotalCount(ps: seq<Product>): nat
    decreases |ps|
  {
    if ps == [] then 0 else TotalCount(ps[..|ps| - 1]) + ps[|ps| - 1].videoCount
  }

  /** No product id is listed twice. */
  lemma {:induction false} IdsDistinct(vs: seq<Video>)
    ensures Distinct(Ids(vs))
    decreases |vs|
  {
    if vs != [] {
      var init := vs[..|vs| - 1];
      IdsDistinct(init);
    }
  }

  /** An id is listed exactly when some video carries it; then it has a first video and
      a positive count, otherwise neither. */
  lemma {:induction false} IdsExact(vs: seq<Video>, id: string)
    ensures id in Ids(vs) <==> exists i :: 0 <= i < |vs| && HasId(vs[i], id)
    ensures id in Ids(vs) <==> FirstWith(vs, id).Some?
    ensures id in Ids(vs) <==> CountId(vs, id) > 0
    decreases |vs|
  {
    if vs != [] {
      var init := vs[..|vs| - 1];
      IdsExact(init, id);
      if exists i :: 0 <= i < |init| && HasId(init[i], id) {
        var i :| 0 <= i < |init| && HasId(init[i], id);
        assert vs[i] == init[i];
      }
      if exists i :: 0 <= i < |vs| && HasId(vs[i], id) {
        var i :| 0 <= i < |vs| && HasId(vs[i], id);
        if i < |init| {
          assert init[i] == vs[i];
        }
      }
    }
  }

  /** The video a product takes its title and price from is the first that carries its id. */
  lemma {:induction false} FirstIsFirst(vs: seq<Video>, id: string)
    requires FirstWith(vs, id).Some?
    ensures exists i :: (0 <= i < |vs| && vs[i] == FirstWith(vs, id).value && HasId(vs[i], id)
      && forall j :: 0 <= j < i ==> !HasId(vs[j], id))
    decreases |vs|
  {
    var init := vs[..|vs| - 1];
    if FirstWith(init, id).Some? {
      FirstIsFirst(init, id);
      var i :| 0 <= i < |init| && init[i] == FirstWith(init, id).value && HasId(init[i], id)
        && forall j :: 0 <= j < i ==> !HasId(init[j], id);
      assert vs[i] == init[i];
      assert forall j :: 0 <= j < i ==> vs[j] == init[j];
    } else {
      IdsExact(init, id);
      assert forall j :: 0 <= j < |init| ==> vs[j] == init[j];
      assert forall j :: 0 <= j < |vs| - 1 ==> !HasId(vs[j], id);
    }
  }

  /** Ids keep the order in which they first appear: later videos only append. */
  lemma {:induction false} IdsKeepOrder(vs: seq<Video>, ws: seq<Video>)
    ensures |Ids(vs)| <= |Ids(vs + ws)| && Ids(vs + ws)[..|Ids(vs)|] == Ids(vs)
    decreases |ws|
  {
    if ws == [] {
      assert vs + ws == vs;
    } else {
      var init := ws[..|ws| - 1];
      IdsKeepOrder(vs, init);
      assert (vs + ws)[..|vs + ws| - 1] == vs + init;
    }
  }

  /** The product a first video of an id starts. */
  function FirstProduct(v: Video, id: string): Product {
    Product(id, OrDefault(Opt(v.title), "Product " + id), OrDefault(Opt(v.price), "N/A"), "Active", 1)
  }

  /** What one more video does to the product of an id: nothing when it does not carry
      the id, one more video for a listed id, and a new product for a new id. */
  lemma ProductStep(vs: seq<Video>, v: Video, x: string)
    ensures !HasId(v, x) ==> ProductFor(vs + [v], x) == ProductFor(vs, x)
    ensures HasId(v, x) && x in Ids(vs) ==>
      ProductFor(vs + [v], x) == ProductFor(vs, x).(videoCount := ProductFor(vs, x).videoCount + 1)
    ensures HasId(v, x) && x !in Ids(vs) ==>
      ProductFor(vs + [v], x) == FirstProduct(v, x)
  {
    assert (vs + [v])[..|vs|] == vs;
    IdsExact(vs, x);
  }

  /** How the id list grows by one video. */
  lemma IdsStep(vs: seq<Video>, v: Video)
    ensures Ids(vs + [v]) ==
      if Eligible(v) && v.productId.value !in Ids(vs) then Ids(vs) + [v.productId.value] else Ids(vs)
  {
    assert (vs + [v])[..|vs|] == vs;
  }

  /** One video's effect on the map from ids to products. */
  function Filled(byId: map<string, Product>, v: Video): map<string, Product> {
    if !Eligible(v) then byId
    else
      var id := v.productId.value;
      if id !in byId then byId[id := FirstProduct(v, id)]
      else byId[id := byId[id].(videoCount := byId[id].videoCount + 1)]
  }

  /** A map holding the products of the ids of `vs` holds, after one more video, the
      products of the ids of `vs + [v]`. */
  lemma MapStep(vs: seq<Video>, v: Video, byId: map<string, Product>)
    requires forall id :: id in byId <==> id in Ids(vs)
    requires forall id :: id in byId ==> byId[id] == ProductFor(vs, id)
    ensures forall id :: id in Filled(byId, v) <==> id in Ids(vs + [v])
    ensures forall id :: id in Filled(byId, v) ==> Filled(byId, v)[id] == ProductFor(vs + [v], id)
  {
    IdsStep(vs, v);
    forall x {
      ProductStep(vs, v, x);
    }
  }

  /** The `forEach` filling the `Map`: `order` is the key order of the map. */
  method FillProducts(videos: seq<Video>) returns (order: seq<string>, byId: map<string, Product>)
    ensures order == Ids(videos)
    ensures forall id :: id in byId <==> id in order
    ensures forall id :: id in byId ==> byId[id] == ProductFor(videos, id)
  {
    order := [];
    byId := map[];
    var i := 0;
    while i < |videos|
      invariant 0 <= i <= |videos|
      invariant order == Ids(videos[..i])
      invariant forall id :: id in byId <==> id in order
      invariant forall id :: id in byId ==> byId[id] == ProductFor(videos[..i], id)
    {
      var v := videos[i];
      assert videos[..i + 1] == videos[..i] + [v];
      IdsStep(videos[..i], v);
      MapStep(videos[..i], v, byId);
      if Eligible(v) {
        var id := v.productId.value;
        if id !in byId {
          byId := byId[id := FirstProduct(v, id)];
          order := order + [id];
        } else {
          var p := byId[id];
          byId := byId[id := p.(videoCount := p.videoCount + 1)];
        }
      }
      i := i + 1;
    }
    assert videos[..i] == videos;
  }

  /** The `Map` fill and the `Array.from(productMap.values())` read-out. */
  method ExtractProducts(videos: seq<Video>) returns (ps: seq<Product>)
    ensures ps == Products(videos)
  {
    var order, byId := FillProducts(videos);
    ps := [];
    var k := 0;
    while k < |order|
      invariant 0 <= k <= |order|
      invariant ps == ProductsOf(videos, order[..k])
    {
      assert order[..k + 1][..k] == order[..k];
      ps := ps + [byId[order[k]]];
      k := k + 1;
    }
    assert order[..k] == order;
  }

  /** `vs.filter(p)` grows by at most the one new video. */
  lemma {:induction false} KeepAppend(vs: seq<Video>, v: Video, p: Video -> bool)
    ensures Keep(vs + [v], p) == Keep(vs, p) + (if p(v) then [v] else [])
    decreases |vs|
  {
    if vs == [] {
      assert ([] + [v])[1..] == [];
    } else {
      KeepAppend(vs[1..], v, p);
      assert (vs + [v])[1..] == vs[1..] + [v];
    }
  }

  /** One more video adds one to the total exactly when it carries a listed id. */
  lemma {:induction false} TotalStep(vs: seq<Video>, v: Video, ids: seq<string>)
    requires Distinct(ids)
    ensures TotalCount(ProductsOf(vs + [v], ids)) ==
      TotalCount(ProductsOf(vs, ids)) + (if Eligible(v) && v.productId.value in ids then 1 else 0)
    decreases |ids|
  {
    if ids != [] {
      var init := ids[..|ids| - 1];
      var x := ids[|ids| - 1];
      assert Distinct(init);
      TotalStep(vs, v, init);
      ProductStep(vs, v, x);
      assert x !in init;
      var after := ProductsOf(vs + [v], ids);
      var before := ProductsOf(vs, ids);
      assert after[..|init|] == ProductsOf(vs + [v], init);
      assert before[..|init|] == ProductsOf(vs, init);
      assert TotalCount(after) == TotalCount(ProductsOf(vs + [v], init)) + ProductFor(vs + [v], x).videoCount;
      assert TotalCount(before) == TotalCount(ProductsOf(vs, init)) + ProductFor(vs, x).videoCount;
    }
  }

  /** Every video the products table accounts for is counted exactly once: the counts add
      up to the number of videos with an eligible product id. */
  lemma {:induction false} CountsCoverEligible(vs: seq<Video>)
    ensures TotalCount(Products(vs)) == |Keep(vs, Eligible)|
    decreases |vs|
  {
    if vs != [] {
      var init := vs[..|vs| - 1];
      var v := vs[|vs| - 1];
      assert vs == init + [v];
      CountsCoverEligible(init);
      KeepAppend(init, v, Eligible);
      IdsStep(init, v);
      IdsDistinct(init);
      TotalStep(init, v, Ids(init));
      if Eligible(v) && v.productId.value !in Ids(init) {
        var id := v.productId.value;
        ProductStep(init, v, id);
        assert ProductsOf(vs, Ids(init) + [id])[..|Ids(init)|] == ProductsOf(vs, Ids(init));
      }
    }
  }

  /** The reply to the video-task request: the `tasks` field of a successful reply, or
      no list for a failed or thrown request. */
  datatype TasksReply = Loaded(tasks: Option<seq<Video>>) | NotLoaded

  /** The panel's module state that the loaders reassign. */
  class PanelState {
    var signedIn: bool
    var videos: seq<Video>
    var products: seq<Product>
    var typeFilter: string

    /** The panel as it opens, once the sign-in check has decided `signedIn`. */
    constructor Open(signedIn: bool)
      ensures this.signedIn == signedIn && videos == [] && products == [] && typeFilter == "all"
    {
      this.signedIn := signedIn;
      videos := [];
      products := [];
      typeFilter := "all";
    }

    /** The videos the grid lists for an account filter. */
    function Shown(account: string): seq<Video>
      reads this
    {
      Listed(videos, account, typeFilter)
    }

    /** `loadVideos`: nothing without a user; a reply replaces the list (`tasks || []`);
        a failed request keeps it. */
    method LoadVideos(reply: TasksReply)
      modifies this
      ensures videos == (if !old(signedIn) || reply.NotLoaded? then old(videos)
        else if reply.tasks.Some? then reply.tasks.value else [])
      ensures signedIn == old(signedIn) && products == old(products) && typeFilter == old(typeFilter)
    {
      if !signedIn {
        return;
      }
      if reply.Loaded? {
        videos := if reply.tasks.Some? then reply.tasks.value else [];
      }
    }

    /** `loadProducts`: nothing without a user, else the products of the current videos. */
    method LoadProducts()
      modifies this
      ensures products == (if signedIn then Products(videos) else old(products))
      ensures signedIn == old(signedIn) && videos == old(videos) && typeFilter == old(typeFilter)
    {
      if signedIn {
        products := ExtractProducts(videos);
      }
    }

    /** `loadAllData` as written: `loadProducts` runs while `loadVideos` still waits for
        its reply, so the products come from the videos held before the reload. */
    method LoadAllData(reply: TasksReply)
      modifies this
      ensures products == (if signedIn then Products(old(videos)) else old(products))
      ensures videos == (if !signedIn || reply.NotLoaded? then old(videos)
        else if reply.tasks.Some? then reply.tasks.value else [])
      ensures signedIn == old(signedIn) && typeFilter == old(typeFilter)
    {
      LoadProducts();
      LoadVideos(reply);
    }

    /** `loadAllData` with the products extracted once the videos have arrived. */
    method LoadAllDataInOrder(reply: TasksReply)
      modifies this
      ensures products == (if signedIn then Products(videos) else old(products))
      ensures videos == (if !signedIn || reply.NotLoaded? then old(videos)
        else if reply.tasks.Some? then reply.tasks.value else [])
      ensures signedIn == old(signedIn) && typeFilter == old(typeFilter)
    {
      LoadVideos(reply);
      LoadProducts();
    }

    /** `switchVideoType`: only the type filter changes. */
    method SwitchVideoType(videoType: string)
      modifies this
      ensures typeFilter == videoType
      ensures signedIn == old(signedIn) && videos == old(videos) && products == old(products)
    {
      typeFilter := videoType;
    }
  }

  /** A video of product "p1", as a first reply may carry it. */
  const FirstVideo := Video("1", Some(ReadyToPost), None, None, Some("p1"), Undefined, Undefined,
    None, None, None, None, None, None)

  /** On the first opening the videos held before the reload are none, so the as-written
      load leaves the products table empty although the loaded video carries a product. */
  lemma FirstLoadListsNoProducts()
    ensures Products([]) == []
    ensures Products([FirstVideo]) == [Product("p1", "Product p1", "N/A", "Active", 1)]
  {
    assert "p1" != "manual" && "p1" != "none";
    assert HasId(FirstVideo, "p1");
    IdsStep([], FirstVideo);
    assert [] + [FirstVideo] == [FirstVideo];
    ProductStep([], FirstVideo, "p1");
    assert Ids([FirstVideo]) == ["p1"];
    assert "Product " + "p1" == "Product p1";
  }
}
