// The decisions the shopping front end's views take: session guards, the
// category path, the image rewriting of product dicts, the search routing,
// the category page cap and the no-cache headers. Rendering is abstracted as
// the template name and the values handed to it.

module FlaskRoutes {
  import opened Common
  import opened FlaskUtils

  // ---------------------------------------------------------------------------
  // What a view answers

  /** The values a template is rendered with. `current` holds the three
      `current_level` values (`JNull` for Python's `None`). */
  datatype Context = Context(products: seq<Row>, hierarchy: Option<Tree>, current: seq<Json>,
                             query: Option<string>, error: Option<string>,
                             recommendations: map<string, seq<Row>>)

  datatype View =
    | RedirectTo(endpoint: string)
    | Render(template: string, context: Context)
    | JsonReply(status: int, body: Json)
    | ServerError(msg: string)   // an exception escaped the view: Flask answers 500

  /** A view's answer once Flask has made a response of it. */
  datatype Response = Response(view: View, headers: map<string, string>)

  const NoLevels: seq<Json> := [JNull, JNull, JNull]

  function Page(products: seq<Row>, hierarchy: Tree, current: seq<Json>): Context {
    Context(products, Some(hierarchy), current, None, None, map[])
  }

  /** Whether the table has the three columns the category tree reads. */
  predicate HasLevels(df: Frame) {
    Level1 in df.columns && Level2 in df.columns && Level3 in df.columns
  }

  // ---------------------------------------------------------------------------
  // no_cache

  const CacheControl: string := "no-store, no-cache, must-revalidate, max-age=0"

  /** The `no_cache` decorator: sets three headers and keeps the rest. */
  function NoCache(r: Response): (out: Response)
    ensures out.view == r.view
    ensures out.headers.Keys == r.headers.Keys + {"Cache-Control", "Pragma", "Expires"}
    ensures out.headers["Cache-Control"] == CacheControl
    ensures out.headers["Pragma"] == "no-cache" && out.headers["Expires"] == "-1"
    ensures forall h :: h in r.headers && h !in {"Cache-Control", "Pragma", "Expires"} ==> out.headers[h] == r.headers[h]
  {
    Response(r.view, r.headers["Cache-Control" := CacheControl]["Pragma" := "no-cache"]["Expires" := "-1"])
  }

  /** Applying the decorator twice gives the same response as once. */
  lemma NoCacheIdempotent(r: Response)
    ensures NoCache(NoCache(r)) == NoCache(r)
  {
    assert NoCache(NoCache(r)).headers == NoCache(r).headers;
  }

  // ---------------------------------------------------------------------------
  // The session

  /** Flask's `session`: a dict kept between requests. */
  class Session {
    var data: map<string, Json>

    constructor()
      ensures data == map[]
    {
      data := map[];
    }

    /** `start_session`: stores the fresh id and sends the browser home. */
    method Start(freshId: string) returns (v: View)
      modifies this
      ensures data == old(data)["user_id" := JStr(freshId)]
      ensures v == RedirectTo("main.home")
    {
      data := data["user_id" := JStr(freshId)];
      v := RedirectTo("main.home");
    }

    /** `reset_session`: forgets everything and sends the browser to the
        landing page. */
    method Reset() returns (v: View)
      modifies this
      ensures data == map[]
      ensures v == RedirectTo("main.index")
    {
      data := map[];
      v := RedirectTo("main.index");
    }
  }

  // ---------------------------------------------------------------------------
  // The category path

  /** The levels of a category path; the first is always there. */
  datatype Levels = Levels(level1: string, level2: Option<string>, level3: Option<string>)

  /** `category_path.split('/')` read as up to three levels; further segments
      are ignored. */
  function SplitCategoryPath(path: string): (l: Levels)
    ensures l.level3.Some? ==> l.level2.Some?
    ensures '/' !in l.level1
    ensures l.level2.Some? ==> '/' !in l.level2.value
    ensures l.level3.Some? ==> '/' !in l.level3.value
  {
    var parts := Split(path, '/');
    SplitPiecesFree(path, '/');
    Levels(parts[0], if |parts| > 1 then Some(parts[1]) else None, if |parts| > 2 then Some(parts[2]) else None)
  }

  /** The levels that are present, in order. */
  function Present(l: Levels): seq<string> {
    [l.level1] + (if l.level2.Some? then [l.level2.value] else []) + (if l.level3.Some? then [l.level3.value] else [])
  }

  function Current(l: Levels): seq<Json> {
    [JStr(l.level1), if l.level2.Some? then JStr(l.level2.value) else JNull,
     if l.level3.Some? then JStr(l.level3.value) else JNull]
  }

  /** A level is present exactly when the path has that many segments, and
      the present levels are the path's first segments. */
  lemma CategoryPathLevels(path: string)
    ensures var l := SplitCategoryPath(path);
      |Present(l)| == Min(3, |Split(path, '/')|) &&
      Present(l) == Split(path, '/')[..|Present(l)|]
  {
  }

  /** A path of at most three segments is the present levels joined by `/`. */
  lemma CategoryPathRoundTrip(path: string)
    requires |Split(path, '/')| <= 3
    ensures Join("/", Present(SplitCategoryPath(path))) == path
  {
    var parts := Split(path, '/');
    assert Present(SplitCategoryPath(path)) == parts;
    SplitJoin(path, '/');
  }

  /** Joining levels free of `/` and splitting the result gives them back. */
  lemma JoinedLevelsSplit(l: Levels)
    requires l.level3.Some? ==> l.level2.Some?
    requires '/' !in l.level1
    requires l.level2.Some? ==> '/' !in l.level2.value
    requires l.level3.Some? ==> '/' !in l.level3.value
    ensures SplitCategoryPath(Join("/", Present(l))) == l
  {
    SplitNoSeparator(l.level1, '/');
    if l.level2.Some? {
      var a, b := l.level1, l.level2.value;
      SplitLastPiece(a, '/', b);
      assert Split(a + "/" + b, '/') == [a, b];
      if l.level3.Some? {
        JoinedThreeSplit(a, b, l.level3.value);
        assert Present(l) == [a, b, l.level3.value];
      } else {
        assert Present(l) == [a, b];
        assert Join("/", Present(l)) == a + "/" + b;
      }
    } else {
      assert Present(l) == [l.level1];
    }
  }

  lemma JoinedThreeSplit(a: string, b: string, c: string)
    requires Split(a + "/" + b, '/') == [a, b]
    requires '/' !in c
    ensures Split(Join("/", [a, b, c]), '/') == [a, b, c]
  {
    assert [a, b, c][1..] == [b, c];
    assert Join("/", [b, c]) == b + "/" + c;
    assert Join("/", [a, b, c]) == (a + "/" + b) + "/" + c;
    SplitLastPiece(a + "/" + b, '/', c);
  }

  // ---------------------------------------------------------------------------
  // Rewriting image fields

  /** What `process_image_url` leaves in a dict: the URL, or `None`. */
  function ImageJson(o: Option<string>): Json {
    match o
    case Some(s) => JStr(s)
    case None => JNull
  }

  /** A product whose `product_image` makes `process_image_url` raise. */
  predicate BadImage(row: Row) {
    "product_image" in row && Truthy(row["product_image"]) && !row["product_image"].JStr?
  }

  /** One pass of the loop body: a product with a `product_image` gets the
      processed URL under `target`; other keys are kept. */
  function RewriteRow(row: Row, target: string, reachable: string -> bool, proxy: string -> string): (r: Result<Row>)
    ensures r.Err? <==> BadImage(row)
    ensures r.Ok? ==> r.value.Keys == (if "product_image" in row then row.Keys + {target} else row.Keys)
    ensures r.Ok? ==> forall k :: k in row && k != target ==> r.value[k] == row[k]
    ensures r.Ok? && "product_image" in row ==>
              r.value[target] == ImageJson(ImageUrl(row["product_image"], reachable, proxy).value)
  {
    if "product_image" !in row then Ok(row)
    else match ImageUrl(row["product_image"], reachable, proxy)
      case Err(m) => Err(m)
      case Ok(u) => Ok(row[target := ImageJson(u)])
  }

  function RewriteStep(target: string, reachable: string -> bool, proxy: string -> string): Row -> Result<Row> {
    row => RewriteRow(row, target, reachable, proxy)
  }

  /** The whole loop: every product rewritten, or the first exception. */
  function RewriteAll(rows: seq<Row>, target: string, reachable: string -> bool, proxy: string -> string): (r: Result<seq<Row>>)
    ensures r.Err? <==> exists i :: 0 <= i < |rows| && BadImage(rows[i])
    ensures r.Ok? ==> |r.value| == |rows|
    ensures r.Ok? ==> forall i :: 0 <= i < |rows| ==> RewriteRow(rows[i], target, reachable, proxy) == Ok(r.value[i])
  {
    MapAll(rows, RewriteStep(target, reachable, proxy))
  }

  /** The loop stops at the first product that raises, with its message. */
  lemma RewriteAllFirstError(rows: seq<Row>, k: nat, target: string, reachable: string -> bool, proxy: string -> string)
    requires k < |rows| && BadImage(rows[k])
    requires forall i :: 0 <= i < k ==> !BadImage(rows[i])
    ensures RewriteAll(rows, target, reachable, proxy) == Err(RewriteRow(rows[k], target, reachable, proxy).msg)
  {
    MapAllFirstError(rows, RewriteStep(target, reachable, proxy), k);
  }

  /** The loops at routes.py lines 58-60 and 90-92, updating each product dict
      of the list in turn. */
  method RewriteImages(rows: seq<Row>, target: string, reachable: string -> bool, proxy: string -> string)
    returns (r: Result<seq<Row>>)
    ensures r == RewriteAll(rows, target, reachable, proxy)
  {
    var products := rows;
    var k := 0;
    while k < |products|
      invariant 0 <= k <= |rows| && |products| == |rows|
      invariant forall i :: 0 <= i < k ==> RewriteRow(rows[i], target, reachable, proxy) == Ok(products[i])
      invariant forall i :: k <= i < |rows| ==> products[i] == rows[i]
    {
      var product := products[k];
      if "product_image" in product {
        var url := ImageUrl(product["product_image"], reachable, proxy);
        if url.Err? {
          RewriteAllFirstError(rows, k, target, reachable, proxy);
          return Err(url.msg);
        }
        products := products[k := product[target := ImageJson(url.value)]];
      }
      k := k + 1;
    }
    var all := RewriteAll(rows, target, reachable, proxy);
    assert all.Ok?;
    assert all.value == products;
    r := Ok(products);
  }

  /** A rewritten product is its row with only `target` changed. */
  ghost predicate Agrees(p: Row, row: Row, target: string) {
    forall k :: k in row && k != target ==> k in p && p[k] == row[k]
  }

  /** Rewriting leaves the category columns of every product alone, so the
      products still pass any category filter the rows passed. */
  lemma RewriteKeepsMatches(rows: seq<Row>, target: string, reachable: string -> bool, proxy: string -> string,
                            level1: Option<string>, level2: Option<string>, level3: Option<string>)
    requires RewriteAll(rows, target, reachable, proxy).Ok?
    requires target != Level1 && target != Level2 && target != Level3
    ensures var out := RewriteAll(rows, target, reachable, proxy).value;
      forall i :: 0 <= i < |rows| ==>
        (Agrees(out[i], rows[i], target) &&
         (Matches(out[i], level1, level2, level3) <==> Matches(rows[i], level1, level2, level3)))
  {
    var out := RewriteAll(rows, target, reachable, proxy).value;
    forall i | 0 <= i < |rows|
      ensures Agrees(out[i], rows[i], target)
      ensures Matches(out[i], level1, level2, level3) <==> Matches(rows[i], level1, level2, level3)
    {
      assert RewriteRow(rows[i], target, reachable, proxy) == Ok(out[i]);
      assert Cell(out[i], Level1) == Cell(rows[i], Level1);
      assert Cell(out[i], Level2) == Cell(rows[i], Level2);
      assert Cell(out[i], Level3) == Cell(rows[i], Level3);
    }
  }

  // ---------------------------------------------------------------------------
  // The views

  /** `index`: the landing page with the category tree. */
  method Index(df: Frame) returns (v: View)
    ensures v.ServerError? <==> !HasLevels(df)
    ensures v.Render? ==> v.template == "index.html" && v.context.current == NoLevels &&
                          v.context.hierarchy.Some? && IsTree(v.context.hierarchy.value, Dedup(CategoriesOf(df.rows)))
    ensures v.Render? || v.ServerError?
  {
    var h := NestedCategoryHierarchy(df);
    if h.Err? {
      return ServerError(h.msg);
    }
    v := Render("index.html", Page([], h.value, NoLevels));
  }

  function UserParams(uid: Json): map<string, Json> {
    map["user_id" := uid, "limit" := JNum(30)]
  }

  /** The products of the home page before rendering: the recommended rows,
      each with its processed image under `image`. */
  function HomeProducts(uid: Json, df: Frame, base: string, net: (string, map<string, Json>) -> HttpReply,
                        reachable: string -> bool, proxy: string -> string): Result<seq<Row>> {
    match ProductsBySkus(df, GetRecommendations(base, "user_recommendations", UserParams(uid), net))
    case Err(m) => Err(m)
    case Ok(rows) => RewriteAll(rows, "image", reachable, proxy)
  }

  /** `home`. */
  method Home(session: map<string, Json>, df: Frame, base: string, net: (string, map<string, Json>) -> HttpReply,
              reachable: string -> bool, proxy: string -> string) returns (v: View)
    ensures "user_id" !in session ==> v == RedirectTo("main.index")
    ensures "user_id" in session ==>
              (v.ServerError? <==> HomeProducts(session["user_id"], df, base, net, reachable, proxy).Err? || !HasLevels(df))
    ensures v.Render? ==>
              ("user_id" in session && v.template == "home.html" &&
               HomeProducts(session["user_id"], df, base, net, reachable, proxy) == Ok(v.context.products) &&
               v.context.current == NoLevels &&
               v.context.hierarchy.Some? && IsTree(v.context.hierarchy.value, Dedup(CategoriesOf(df.rows))))
    ensures v.RedirectTo? || v.Render? || v.ServerError?
  {
    if "user_id" !in session {
      return RedirectTo("main.index");
    }
    var ids := GetRecommendations(base, "user_recommendations", UserParams(session["user_id"]), net);
    var found := ProductsBySkus(df, ids);
    if found.Err? {
      return ServerError(found.msg);
    }
    var products := RewriteImages(found.value, "image", reachable, proxy);
    if products.Err? {
      return ServerError(products.msg);
    }
    var h := NestedCategoryHierarchy(df);
    if h.Err? {
      return ServerError(h.msg);
    }
    v := Render("home.html", Page(products.value, h.value, NoLevels));
  }

  /** Every product on the home page is a row of the table with its image
      field added, and when each recommended SKU names exactly one row they
      come in recommendation order. */
  lemma HomeProductsRows(uid: Json, df: Frame, base: string, net: (string, map<string, Json>) -> HttpReply,
                         reachable: string -> bool, proxy: string -> string)
    requires HomeProducts(uid, df, base, net, reachable, proxy).Ok?
    ensures var found := ProductsBySkus(df, GetRecommendations(base, "user_recommendations", UserParams(uid), net));
      var out := HomeProducts(uid, df, base, net, reachable, proxy).value;
      found.Ok? && |out| == |found.value| &&
      forall i :: 0 <= i < |out| ==> found.value[i] in df.rows && Agrees(out[i], found.value[i], "image")
  {
    var found := ProductsBySkus(df, GetRecommendations(base, "user_recommendations", UserParams(uid), net));
    var out := HomeProducts(uid, df, base, net, reachable, proxy).value;
    forall i | 0 <= i < |out|
      ensures found.value[i] in df.rows && Agrees(out[i], found.value[i], "image")
    {
      assert RewriteRow(found.value[i], "image", reachable, proxy) == Ok(out[i]);
    }
  }

  /** The category page's products before the cap. */
  function CategoryProducts(df: Frame, l: Levels, reachable: string -> bool, proxy: string -> string): Result<seq<Row>> {
    RewriteAll(Filter(df.rows, MatchMask(Some(l.level1), l.level2, l.level3)), "product_image", reachable, proxy)
  }

  /** `category`. */
  method CategoryView(session: map<string, Json>, path: string, df: Frame,
                      reachable: string -> bool, proxy: string -> string) returns (v: View)
    ensures "user_id" !in session ==> v == RedirectTo("main.index")
    ensures "user_id" in session ==>
              var l := SplitCategoryPath(path);
              (v.ServerError? <==> !HasLevels(df) || MissingLevel(df.columns, Some(l.level1), l.level2, l.level3).Some? ||
                                   CategoryProducts(df, l, reachable, proxy).Err?)
    ensures v.Render? ==>
              ("user_id" in session && v.template == "category.html" &&
               var l := SplitCategoryPath(path);
               CategoryProducts(df, l, reachable, proxy).Ok? &&
               v.context.products == PyTake(CategoryProducts(df, l, reachable, proxy).value, 500) &&
               v.context.current == Current(l) &&
               v.context.hierarchy.Some? && IsTree(v.context.hierarchy.value, Dedup(CategoriesOf(df.rows))))
    ensures v.Render? ==> |v.context.products| <= 500
    ensures v.RedirectTo? || v.Render? || v.ServerError?
  {
    if "user_id" !in session {
      return RedirectTo("main.index");
    }
    var l := SplitCategoryPath(path);
    var h := NestedCategoryHierarchy(df);
    if h.Err? {
      return ServerError(h.msg);
    }
    var filtered := GetFilteredProducts(df, Some(l.level1), l.level2, l.level3);
    if filtered.Err? {
      return ServerError(filtered.msg);
    }
    var products := RewriteImages(filtered.value, "product_image", reachable, proxy);
    if products.Err? {
      return ServerError(products.msg);
    }
    v := Render("category.html", Page(PyTake(products.value, 500), h.value, Current(l)));
  }

  /** Every product on a category page belongs to the category of its path. */
  lemma CategoryProductsMatch(df: Frame, l: Levels, reachable: string -> bool, proxy: string -> string)
    requires CategoryProducts(df, l, reachable, proxy).Ok?
    ensures forall p :: p in PyTake(CategoryProducts(df, l, reachable, proxy).value, 500) ==>
              Matches(p, Some(l.level1), l.level2, l.level3)
  {
    var rows := Filter(df.rows, MatchMask(Some(l.level1), l.level2, l.level3));
    var out := CategoryProducts(df, l, reachable, proxy).value;
    RewriteKeepsMatches(rows, "product_image", reachable, proxy, Some(l.level1), l.level2, l.level3);
    forall p | p in PyTake(out, 500)
      ensures Matches(p, Some(l.level1), l.level2, l.level3)
    {
      var i :| 0 <= i < |PyTake(out, 500)| && PyTake(out, 500)[i] == p;
      assert out[i] == p;
      assert rows[i] in rows;
      assert MatchMask(Some(l.level1), l.level2, l.level3)(rows[i]);
    }
  }

  function ItemParams(sku: string): map<string, Json> {
    map["item_id" := JStr(sku), "limit" := JNum(20)]
  }

  const RecommendationKinds: seq<(string, string)> := [
    ("similar", "item_similarity"),
    ("complementary_by_users", "item_users_similarity"),
    ("complementary_category", "item_complement_topic"),
    ("popular_for_item", "item_popularity")
  ]

  /** The `i`-th recommendation list of a product page: fetched, then looked
      up in the table. */
  function Fetch(df: Frame, sku: string, base: string, net: (string, map<string, Json>) -> HttpReply, i: nat): Result<seq<Row>>
    requires i < |RecommendationKinds|
  {
    ProductsBySkus(df, GetRecommendations(base, RecommendationKinds[i].1, ItemParams(sku), net))
  }

  /** The four recommendation lists of a product page under their names;
      the first lookup that raises is the result. */
  function ProductRecommendations(df: Frame, sku: string, base: string,
                                  net: (string, map<string, Json>) -> HttpReply): Result<map<string, seq<Row>>> {
    Named(Fetch(df, sku, base, net, 0), Fetch(df, sku, base, net, 1),
          Fetch(df, sku, base, net, 2), Fetch(df, sku, base, net, 3))
  }

  /** The dict of the four fetched lists, evaluated in order: the first
      failed fetch is the result. */
  function Named(similar: Result<seq<Row>>, byUsers: Result<seq<Row>>, byCategory: Result<seq<Row>>,
                 popular: Result<seq<Row>>): (r: Result<map<string, seq<Row>>>)
    ensures r.Ok? <==> similar.Ok? && byUsers.Ok? && byCategory.Ok? && popular.Ok?
    ensures similar.Err? ==> r == Err(similar.msg)
    ensures similar.Ok? && byUsers.Err? ==> r == Err(byUsers.msg)
    ensures similar.Ok? && byUsers.Ok? && byCategory.Err? ==> r == Err(byCategory.msg)
    ensures r.Ok? ==> r.value.Keys == {"similar", "complementary_by_users", "complementary_category", "popular_for_item"}
    ensures r.Ok? ==> r.value["similar"] == similar.value
    ensures r.Ok? ==> r.value["complementary_by_users"] == byUsers.value
    ensures r.Ok? ==> r.value["complementary_category"] == byCategory.value
    ensures r.Ok? ==> r.value["popular_for_item"] == popular.value
  {
    if similar.Err? then Err(similar.msg)
    else if byUsers.Err? then Err(byUsers.msg)
    else if byCategory.Err? then Err(byCategory.msg)
    else if popular.Err? then Err(popular.msg)
    else
      Ok(map["similar" := similar.value, "complementary_by_users" := byUsers.value,
             "complementary_category" := byCategory.value, "popular_for_item" := popular.value])
  }

  /** `product`. The out-parameter `posted` is the `product_viewed` event
      the view sent, if it got that far. */
  method ProductView(session: map<string, Json>, sku: string, df: Frame, base: string, now: int,
                     net: (string, map<string, Json>) -> HttpReply) returns (v: View, posted: Option<map<string, Json>>)
    ensures "user_id" !in session ==> v == RedirectTo("main.index") && posted == None
    ensures v.Render? ==>
              ("user_id" in session && v.template == "product.html" &&
               ParseInt(sku).Some? && "sku" in df.columns &&
               var matching := RowsWithSku(df.rows, ParseInt(sku).value);
               matching != [] && v.context.products == [matching[0]] &&
               v.context.current == [Cell(matching[0], Level1), Cell(matching[0], Level2), Cell(matching[0], Level3)] &&
               ProductRecommendations(df, sku, base, net) == Ok(v.context.recommendations))
    ensures posted.Some? <==>
              ("user_id" in session && ParseInt(sku).Some? && "sku" in df.columns &&
               RowsWithSku(df.rows, ParseInt(sku).value) != [] && HasLevels(df))
    ensures posted.Some? ==> posted.value == FireEvent(base, session["user_id"], JStr(sku), "product_viewed", now, net).1
    ensures v.Render? <==> posted.Some? && ProductRecommendations(df, sku, base, net).Ok?
    ensures "user_id" in session && "sku" !in df.columns ==> v == ServerError(KeyError("sku"))
    ensures "user_id" in session && "sku" in df.columns && ParseInt(sku).None? ==> v == ServerError(IntError(JStr(sku)))
    ensures v.RedirectTo? || v.Render? || v.ServerError?
  {
    posted := None;
    if "user_id" !in session {
      return RedirectTo("main.index"), None;
    }
    if "sku" !in df.columns {
      return ServerError(KeyError("sku")), None;
    }
    var n := ParseInt(sku);
    if n.None? {
      return ServerError(IntError(JStr(sku))), None;
    }
    var matching := RowsWithSku(df.rows, n.value);
    if matching == [] {
      return ServerError("single positional indexer is out-of-bounds"), None;
    }
    var product := matching[0];
    var h := NestedCategoryHierarchy(df);
    if h.Err? {
      return ServerError(h.msg), None;
    }
    var (_, event) := FireEvent(base, session["user_id"], JStr(sku), "product_viewed", now, net);
    posted := Some(event);
    var recs := ProductRecommendations(df, sku, base, net);
    if recs.Err? {
      return ServerError(recs.msg), posted;
    }
    v := Render("product.html", Context([product], Some(h.value),
                                        [Cell(product, Level1), Cell(product, Level2), Cell(product, Level3)],
                                        None, None, recs.value));
  }

  /** `add_to_cart`: the reply, and the `product_added` event it sent. The
      reply does not depend on whether the event went through. */
  function AddToCart(session: map<string, Json>, sku: string, base: string, now: int,
                     net: (string, map<string, Json>) -> HttpReply): (r: (View, Option<map<string, Json>>))
    ensures "user_id" !in session ==> r.0 == JsonReply(401, JObj(map["error" := JStr("No session")])) && r.1 == None
    ensures "user_id" in session ==>
              r.0 == JsonReply(200, JObj(map["success" := JBool(true)])) &&
              r.1 == Some(map["user" := session["user_id"], "product" := JStr(sku),
                              "event_type" := JStr("product_added"), "created_at" := JNum(now)])
  {
    if "user_id" !in session then (JsonReply(401, JObj(map["error" := JStr("No session")])), None)
    else
      var (_, event) := FireEvent(base, session["user_id"], JStr(sku), "product_added", now, net);
      (JsonReply(200, JObj(map["success" := JBool(true)])), Some(event))
  }

  function QueryParams(q: string): map<string, Json> {
    map["query" := JStr(q), "limit" := JNum(100)]
  }

  const SearchError: string := "Sorry, there was an error processing your search."

  /** `search`, with the `no_cache` headers on whatever it answers. A failure
      inside the search renders the page with no products and an error
      message rather than escaping. */
  method Search(session: map<string, Json>, args: map<string, string>, df: Frame, base: string,
                net: (string, map<string, Json>) -> HttpReply) returns (resp: Response)
    ensures resp == NoCache(Response(resp.view, map[]))
    ensures "user_id" !in session ==> resp.view == RedirectTo("main.index")
    ensures "user_id" in session && ("q" !in args || args["q"] == "") ==> resp.view == RedirectTo("main.home")
    ensures "user_id" in session && "q" in args && args["q"] != "" ==>
              var found := ProductsBySkus(df, GetRecommendations(base, "nlq2item", QueryParams(args["q"]), net));
              resp.view.Render? && resp.view.template == "search_results.html" &&
              resp.view.context.query == Some(args["q"]) &&
              (if found.Ok? && HasLevels(df)
               then resp.view.context.products == found.value && resp.view.context.error == None &&
                    resp.view.context.hierarchy.Some? &&
                    IsTree(resp.view.context.hierarchy.value, Dedup(CategoriesOf(df.rows)))
               else resp.view.context.products == [] && resp.view.context.error == Some(SearchError))
    ensures !resp.view.ServerError?
  {
    var v: View;
    if "user_id" !in session {
      v := RedirectTo("main.index");
    } else {
      var query := if "q" in args then args["q"] else "";
      if query == "" {
        v := RedirectTo("main.home");
      } else {
        var failed := Context([], None, [], Some(query), Some(SearchError), map[]);
        var found := ProductsBySkus(df, GetRecommendations(base, "nlq2item", QueryParams(query), net));
        if found.Err? {
          v := Render("search_results.html", failed);
        } else {
          var h := NestedCategoryHierarchy(df);
          if h.Err? {
            v := Render("search_results.html", failed);
          } else {
            v := Render("search_results.html", Context(found.value, Some(h.value), [], Some(query), None, map[]));
          }
        }
      }
    }
    resp := NoCache(Response(v, map[]));
  }
}
