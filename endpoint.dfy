/** The request-shaping helpers of the e-commerce wrapper service: the table of
    vector-search endpoints, the classification of a POST's outcome, the
    interleaving of per-topic result lists, the stripping of `vector_parts`
    from result metadata and the placeholder record for a new user. The HTTP
    exchange itself is an abstract `Transport` outcome. */
module Endpoint {
  import opened Common

  // The paths below BASE_SL_URL, one per entry of SL_API_MAP.
  const IngestEventPath: string := "/api/v1/ingest/event_schema"
  const IngestProductPath: string := "/api/v1/ingest/product_schema"
  const IngestUserPath: string := "/api/v1/ingest/user_schema"
  const Item2ItemPath: string := "/api/v1/search/item2item"
  const User2ItemPath: string := "/api/v1/search/user2item"
  const ProductItem2vecPath: string := "/api/v1/search/product_item2vec"
  const UserItem2vecPath: string := "/api/v1/search/user_item2vec"
  const PopularityPath: string := "/api/v1/search/item_popularity"
  const FilteredPopularityPath: string := "/api/v1/search/topic_popularity"
  const Nlq2ItemPath: string := "/api/v1/search/nlq2item"
  const DataLoaderRunPath: string := "/data-loader/product_schema/run"

  /** SL_API_MAP: path name -> path below BASE_SL_URL. */
  const SlApiMap: map<string, string> := map[
    "ingest_event" := IngestEventPath,
    "ingest_product" := IngestProductPath,
    "ingest_user" := IngestUserPath,
    "item2item" := Item2ItemPath,
    "user2item" := User2ItemPath,
    "product_item2vec" := ProductItem2vecPath,
    "user_item2vec" := UserItem2vecPath,
    "popularity" := PopularityPath,
    "filtered_popularity" := FilteredPopularityPath,
    "nlq2item" := Nlq2ItemPath,
    "data_loader_run" := DataLoaderRunPath
  ]

  /** A POST the wrapper sends: the endpoint's URL and the JSON body. */
  datatype Request = Request(url: string, body: Json)

  /** What the HTTP layer produced for one POST. `statusError` is the text of
      the exception `raise_for_status` raises for a 4xx/5xx status; `decoded`
      is the body parsed as JSON, `None` when it is not valid JSON. */
  datatype Transport =
    | Response(status: int, text: string, decoded: Option<Json>, statusError: string)
    | RequestFailed(reason: string)
    | OtherFailure(reason: string)

  /** The `(status_code, body)` pair `call_sl_url` returns. */
  datatype Reply = Reply(status: int, body: Json)

  function ErrorBody(msg: string): Json {
    JObj(map["error" := JStr(msg)])
  }

  /** The request `call_sl_url(name, data)` sends; `None` for an unknown path
      name, for which nothing is sent. A falsy `data` is sent as `{}`. */
  function RequestFor(base: string, name: string, data: Json): (q: Option<Request>)
    ensures q.Some? <==> name in SlApiMap
    ensures q.Some? ==> q.value.url == base + SlApiMap[name] && Truthy(q.value.body) == Truthy(data)
    ensures q.Some? ==> q.value.body == (if Truthy(data) then data else JObj(map[]))
  {
    if name in SlApiMap then Some(Request(base + SlApiMap[name], if Truthy(data) then data else JObj(map[])))
    else None
  }

  /** `requests`' `raise_for_status` raises for client and server errors. */
  predicate StatusRaises(status: int) {
    400 <= status < 600
  }

  /** How `call_sl_url` turns one transport outcome into `(status, body)`. */
  function ReplyOf(t: Transport): Reply {
    match t
    case Response(status, text, decoded, statusError) =>
      if StatusRaises(status) then Reply(500, ErrorBody(statusError))
      else if Blank(text) then Reply(status, JObj(map[]))
      else if decoded.Some? then Reply(status, decoded.value)
      else Reply(status, JObj(map["error" := JStr("Invalid JSON response"), "raw_response" := JStr(text)]))
    case RequestFailed(reason) => Reply(500, ErrorBody(reason))
    case OtherFailure(reason) => Reply(500, ErrorBody(reason))
  }

  /** `call_sl_url`: ValueError for an unknown path name, otherwise the reply
      classified from the transport outcome. */
  function CallSlUrl(name: string, t: Transport): (r: Result<Reply>)
    ensures r.Err? <==> name !in SlApiMap
    ensures r.Err? ==> r.msg == "Invalid path name: " + name
  {
    if name !in SlApiMap then Err("Invalid path name: " + name)
    else Ok(ReplyOf(t))
  }

  /** `call_sl_url(name, data)` against a network that answers request `q`
      with `net(q)`. */
  function Call(base: string, name: string, data: Json, net: Request -> Transport): (r: Result<Reply>)
    ensures r.Err? <==> name !in SlApiMap
  {
    match RequestFor(base, name, data)
    case None => CallSlUrl(name, RequestFailed(""))
    case Some(q) => CallSlUrl(name, net(q))
  }

  /** The four outcome classes of `call_sl_url` on a known path: a blank body,
      an undecodable body, a decoded body, and a raised request error. */
  lemma CallSlUrlOutcomes(name: string, t: Transport)
    requires name in SlApiMap
    ensures t.Response? && !StatusRaises(t.status) && Blank(t.text) ==>
      CallSlUrl(name, t) == Ok(Reply(t.status, JObj(map[])))
    ensures t.Response? && !StatusRaises(t.status) && !Blank(t.text) && t.decoded.None? ==>
      CallSlUrl(name, t) == Ok(Reply(t.status, JObj(map["error" := JStr("Invalid JSON response"), "raw_response" := JStr(t.text)])))
    ensures t.Response? && !StatusRaises(t.status) && !Blank(t.text) && t.decoded.Some? ==>
      CallSlUrl(name, t) == Ok(Reply(t.status, t.decoded.value))
    ensures !t.Response? || StatusRaises(t.status) ==> CallSlUrl(name, t).value.status == 500
    ensures t.RequestFailed? ==> CallSlUrl(name, t) == Ok(Reply(500, ErrorBody(t.reason)))
  {
  }

  /** The reply's status is the HTTP status exactly when no exception was raised. */
  lemma CallSlUrlStatus(name: string, t: Transport)
    requires name in SlApiMap
    ensures CallSlUrl(name, t).value.status != 500 ==> t.Response? && t.status == CallSlUrl(name, t).value.status
    ensures t.Response? && !StatusRaises(t.status) ==> CallSlUrl(name, t).value.status == t.status
  {
  }

  predicate Success2xx(status: int) {
    200 <= status < 300
  }

  // ---------------------------------------------------------------------------
  // Result lists

  /** `results['entries']` as a list of entries; an `entries` value that is
      not a list is an error. */
  function EntriesOf(body: Json): (r: Result<seq<Json>>)
    ensures r.Ok? <==> body.JObj? && "entries" in body.fields && body.fields["entries"].JArr?
    ensures r.Ok? ==> r.value == body.fields["entries"].elems
    ensures body.JObj? && "entries" !in body.fields ==> r == Err("'entries'")
  {
    match Subscript(body, "entries")
    case Err(m) => Err(m)
    case Ok(e) => if e.JArr? then Ok(e.elems) else Err("entries is not a list")
  }

  /** `len(data['entries'])`. */
  function EntriesLen(body: Json): (r: Result<nat>)
    ensures EntriesOf(body).Ok? ==> r == Ok(|EntriesOf(body).value|)
    ensures !(body.JObj? && "entries" in body.fields) ==> r.Err?
  {
    match Subscript(body, "entries")
    case Err(m) => Err(m)
    case Ok(e) =>
      match e
      case JArr(xs) => Ok(|xs|)
      case JObj(f) => Ok(|f|)
      case JStr(s) => Ok(|s|)
      case _ => Err("object of type '" + TypeName(e) + "' has no len()")
  }

  /** `len(zip(*recs))`: the length of the shortest list, 0 for no lists. */
  function ZipLen<T>(recs: seq<seq<T>>): (n: nat)
    ensures forall j :: 0 <= j < |recs| ==> n <= |recs[j]|
    ensures |recs| > 0 ==> exists j :: 0 <= j < |recs| && n == |recs[j]|
    decreases |recs|
  {
    if |recs| == 0 then 0
    else if |recs| == 1 then |recs[0]|
    else
      var m := ZipLen(recs[..|recs| - 1]);
      var last := |recs[|recs| - 1]|;
      if last <= m then last else m
  }

  /** The i-th tuple of `zip(*recs)`. */
  function Column<T>(recs: seq<seq<T>>, i: nat): (c: seq<T>)
    requires i < ZipLen(recs)
    ensures |c| == |recs|
  {
    seq(|recs|, j requires 0 <= j < |recs| => recs[j][i])
  }

  /** The tuples `zip(*recs)` produces, one per position of the shortest list. */
  function Columns<T>(recs: seq<seq<T>>): (cols: seq<seq<T>>)
    ensures |cols| == ZipLen(recs)
    ensures forall i :: 0 <= i < |cols| ==> cols[i] == Column(recs, i)
  {
    seq(ZipLen(recs), i requires 0 <= i < ZipLen(recs) => Column(recs, i))
  }

  /** `[x for s in zip(*recs) for x in s][:limit]`: one element of each list in
      turn, stopping with the shortest list, then cut to `limit`. */
  function Interleave<T>(recs: seq<seq<T>>, limit: int): seq<T> {
    PyTake(Flatten(Columns(recs)), limit)
  }

  /** `i * k`, counted up one block at a time. */
  function Offset(i: nat, k: nat): nat {
    if i == 0 then 0 else Offset(i - 1, k) + k
  }

  lemma {:induction false} OffsetProduct(i: nat, k: nat)
    ensures Offset(i, k) == i * k == k * i
  {
    if i > 0 {
      OffsetProduct(i - 1, k);
      assert i * k == (i - 1) * k + k;
      assert k * i == k * (i - 1) + k;
    }
  }

  /** Concatenating n blocks of k elements each gives n*k elements. */
  lemma {:induction false} FlattenBlocksLength<T>(ss: seq<seq<T>>, k: nat)
    requires forall i :: 0 <= i < |ss| ==> |ss[i]| == k
    ensures |Flatten(ss)| == Offset(|ss|, k)
    decreases |ss|
  {
    if ss != [] {
      FlattenBlocksLength(ss[..|ss| - 1], k);
    }
  }

  /** ... and puts block i's j-th element at position i*k + j. */
  lemma {:induction false} FlattenBlocksAt<T>(ss: seq<seq<T>>, k: nat, i: nat, j: nat)
    requires forall i :: 0 <= i < |ss| ==> |ss[i]| == k
    requires i < |ss| && j < k
    ensures Offset(i, k) + j < |Flatten(ss)| && Flatten(ss)[Offset(i, k) + j] == ss[i][j]
    decreases |ss|
  {
    var n := |ss|;
    var pre := ss[..n - 1];
    FlattenBlocksLength(pre, k);
    assert Flatten(ss) == Flatten(pre) + ss[n - 1];
    if i < n - 1 {
      FlattenBlocksAt(pre, k, i, j);
      OffsetMonotone(i + 1, n - 1, k);
    }
  }

  lemma {:induction false} OffsetMonotone(i: nat, n: nat, k: nat)
    requires i <= n
    ensures Offset(i, k) <= Offset(n, k)
    decreases n - i
  {
    if i < n {
      OffsetMonotone(i + 1, n, k);
    }
  }

  /** Every element of a concatenation comes from one of the pieces. */
  lemma {:induction false} FlattenMember<T>(ss: seq<seq<T>>, x: T)
    requires x in Flatten(ss)
    ensures exists i :: 0 <= i < |ss| && x in ss[i]
    decreases |ss|
  {
    var n := |ss|;
    var pre := ss[..n - 1];
    if x in Flatten(pre) {
      FlattenMember(pre, x);
      var i :| 0 <= i < |pre| && x in pre[i];
      assert ss[i] == pre[i];
    } else {
      assert x in ss[n - 1];
    }
  }

  /** Interleaving puts `recs[j][i]` at position `i*k + j` (k lists), as far as
      the limit reaches, and yields `min(limit, k * shortest)` elements. */
  lemma InterleaveSpec<T>(recs: seq<seq<T>>, limit: int)
    ensures limit >= 0 ==> |Interleave(recs, limit)| == Min(limit, |recs| * ZipLen(recs))
    ensures forall i, j :: 0 <= i < ZipLen(recs) && 0 <= j < |recs| && i * |recs| + j < |Interleave(recs, limit)| ==>
      Interleave(recs, limit)[i * |recs| + j] == recs[j][i]
  {
    InterleaveSize(recs, limit);
    InterleavePositions(recs, limit);
  }

  lemma InterleaveSize<T>(recs: seq<seq<T>>, limit: int)
    ensures limit >= 0 ==> |Interleave(recs, limit)| == Min(limit, |recs| * ZipLen(recs))
  {
    InterleaveLength(recs);
    OffsetProduct(ZipLen(recs), |recs|);
  }

  lemma InterleavePositions<T>(recs: seq<seq<T>>, limit: int)
    ensures forall i, j :: 0 <= i < ZipLen(recs) && 0 <= j < |recs| && i * |recs| + j < |Interleave(recs, limit)| ==>
      Interleave(recs, limit)[i * |recs| + j] == recs[j][i]
  {
    forall i, j | 0 <= i < ZipLen(recs) && 0 <= j < |recs| && i * |recs| + j < |Interleave(recs, limit)|
      ensures Interleave(recs, limit)[i * |recs| + j] == recs[j][i]
    {
      OffsetProduct(i, |recs|);
      InterleaveAt(recs, limit, i, j);
    }
  }

  lemma InterleaveLength<T>(recs: seq<seq<T>>)
    ensures |Flatten(Columns(recs))| == Offset(ZipLen(recs), |recs|)
  {
    ColumnsSized(recs);
    FlattenBlocksLength(Columns(recs), |recs|);
  }

  /** Every tuple of `zip(*recs)` has one element per list. */
  lemma ColumnsSized<T>(recs: seq<seq<T>>)
    ensures forall i :: 0 <= i < |Columns(recs)| ==> |Columns(recs)[i]| == |recs|
  {
    var cols := Columns(recs);
    forall i | 0 <= i < |cols|
      ensures |cols[i]| == |recs|
    {
      assert cols[i] == Column(recs, i);
    }
  }

  lemma InterleaveAt<T>(recs: seq<seq<T>>, limit: int, i: nat, j: nat)
    requires i < ZipLen(recs) && j < |recs| && Offset(i, |recs|) + j < |Interleave(recs, limit)|
    ensures Interleave(recs, limit)[Offset(i, |recs|) + j] == recs[j][i]
  {
    var cols := Columns(recs);
    ColumnsSized(recs);
    FlattenBlocksAt(cols, |recs|, i, j);
    PyTakeAt(Flatten(cols), limit, Offset(i, |recs|) + j);
    ColumnAt(recs, i, j);
  }

  lemma ColumnAt<T>(recs: seq<seq<T>>, i: nat, j: nat)
    requires i < ZipLen(recs) && j < |recs|
    ensures Columns(recs)[i][j] == recs[j][i]
  {
    assert Columns(recs)[i] == Column(recs, i);
  }

  /** Every interleaved element comes from one of the lists. */
  lemma InterleaveFrom<T>(recs: seq<seq<T>>, limit: int, x: T)
    requires x in Interleave(recs, limit)
    ensures exists j :: 0 <= j < |recs| && x in recs[j]
  {
    var m := ZipLen(recs);
    var cols := Columns(recs);
    assert x in Flatten(cols);
    FlattenMember(cols, x);
    var i :| 0 <= i < m && x in cols[i];
    var j :| 0 <= j < |recs| && cols[i][j] == x;
    assert x in recs[j];
  }

  // ---------------------------------------------------------------------------
  // clean_metadata_from_results

  /** Python's `"vector_parts" in metadata` for the kinds of value that support `in`. */
  function HasVectorParts(metadata: Json): Result<bool> {
    match metadata
    case JObj(f) => Ok("vector_parts" in f)
    case JArr(e) => Ok(JStr("vector_parts") in e)
    case JStr(s) => Ok(Contains(s, "vector_parts"))
    case _ => Err("argument of type '" + TypeName(metadata) + "' is not iterable")
  }

  /** One item of `clean_metadata_from_results`: a copy whose metadata dict has
      no `vector_parts` key. Only dicts and lists have `.copy()`; a non-dict
      metadata that contains `vector_parts` has no `.items()`. */
  function CleanItem(item: Json): (r: Result<Json>)
    ensures r.Ok? && item.JObj? ==> r.value.JObj? && r.value.fields.Keys == item.fields.Keys
    ensures r.Ok? && item.JObj? ==> forall k :: k in item.fields && k != "metadata" ==> r.value.fields[k] == item.fields[k]
  {
    match item
    case JObj(f) =>
      if "metadata" !in f then Ok(item)
      else
        (match HasVectorParts(f["metadata"])
         case Err(m) => Err(m)
         case Ok(has) =>
           if !has then Ok(item)
           else if f["metadata"].JObj? then Ok(JObj(f["metadata" := JObj(f["metadata"].fields - {"vector_parts"})]))
           else Err("'" + TypeName(f["metadata"]) + "' object has no attribute 'items'"))
    case JArr(e) => if JStr("metadata") in e then Err("list indices must be integers or slices, not str") else Ok(item)
    case _ => Err("'" + TypeName(item) + "' object has no attribute 'copy'")
  }

  /** The metadata of a cleaned dict item is the original metadata without
      `vector_parts`; items without metadata or `vector_parts` are unchanged. */
  lemma CleanItemSpec(item: Json)
    requires item.JObj?
    ensures var f := item.fields;
      "metadata" in f && f["metadata"].JObj? ==>
        CleanItem(item) == Ok(JObj(f["metadata" := JObj(f["metadata"].fields - {"vector_parts"})]))
    ensures var f := item.fields;
      "metadata" !in f || (f["metadata"].JObj? && "vector_parts" !in f["metadata"].fields) ==>
        CleanItem(item) == Ok(item)
  {
    var f := item.fields;
    if "metadata" in f && f["metadata"].JObj? && "vector_parts" !in f["metadata"].fields {
      assert f["metadata"].fields - {"vector_parts"} == f["metadata"].fields;
      assert f["metadata" := f["metadata"]] == f;
    }
  }

  /** Cleaning a cleaned item changes nothing. */
  lemma CleanItemIdempotent(item: Json)
    requires CleanItem(item).Ok?
    ensures CleanItem(CleanItem(item).value) == CleanItem(item)
  {
    var c := CleanItem(item).value;
    if item.JObj? && "metadata" in item.fields && item.fields["metadata"].JObj? {
      var f := item.fields;
      CleanItemSpec(item);
      assert c.fields["metadata"] == JObj(f["metadata"].fields - {"vector_parts"});
      CleanItemSpec(c);
    }
  }

  /** The whole list: every item cleaned in order, or the first failure. */
  function CleanAll(items: seq<Json>): (r: Result<seq<Json>>)
    ensures r.Ok? ==> |r.value| == |items| && forall i :: 0 <= i < |items| ==> CleanItem(items[i]) == Ok(r.value[i])
    ensures r.Err? ==> exists i :: 0 <= i < |items| && CleanItem(items[i]).Err?
    decreases |items|
  {
    if items == [] then Ok([])
    else
      match CleanAll(items[..|items| - 1])
      case Err(m) => Err(m)
      case Ok(pre) =>
        (match CleanItem(items[|items| - 1])
         case Err(m) => Err(m)
         case Ok(c) => Ok(pre + [c]))
  }

  /** `clean_metadata_from_results`, the loop that copies and appends. */
  method CleanMetadata(results: seq<Json>) returns (r: Result<seq<Json>>)
    ensures r == CleanAll(results)
  {
    var cleaned: seq<Json> := [];
    var i := 0;
    while i < |results|
      invariant 0 <= i <= |results|
      invariant CleanAll(results[..i]) == Ok(cleaned)
    {
      assert results[..i + 1][..i] == results[..i];
      var c := CleanItem(results[i]);
      if c.Err? {
        assert CleanAll(results[..i + 1]) == Err(c.msg);
        ErrPersists(results, i + 1);
        return Err(c.msg);
      }
      cleaned := cleaned + [c.value];
      i := i + 1;
    }
    assert results[..i] == results;
    r := Ok(cleaned);
  }

  /** Once a prefix fails, the whole list fails with the same message. */
  lemma {:induction false} ErrPersists(items: seq<Json>, n: nat)
    requires n <= |items| && CleanAll(items[..n]).Err?
    ensures CleanAll(items) == CleanAll(items[..n])
    decreases |items| - n
  {
    if n < |items| {
      assert items[..n + 1][..n] == items[..n];
      ErrPersists(items, n + 1);
    } else {
      assert items[..n] == items;
    }
  }

  // ---------------------------------------------------------------------------
  // get_user_dummy_vector

  const W2vDimension := 100

  /** `get_user_dummy_vector(x)`: the record ingested for a user with no vectors. */
  function DummyUser(userId: string, emptyImage: string): (d: map<string, Json>)
    ensures d.Keys == {"id", "user_id", "user_topic", "user_brand", "user_product_type", "user_item_w2v", "user_image"}
    ensures d["id"] == d["user_id"] == JStr(userId)
    ensures d["user_topic"] == d["user_brand"] == d["user_product_type"] == JStr("")
    ensures d["user_item_w2v"].JArr? && |d["user_item_w2v"].elems| == 100
    ensures forall i :: 0 <= i < |d["user_item_w2v"].elems| ==> d["user_item_w2v"].elems[i] == JNum(0)
    ensures d["user_image"] == JStr(emptyImage)
  {
    map[
      "id" := JStr(userId),
      "user_id" := JStr(userId),
      "user_topic" := JStr(""),
      "user_brand" := JStr(""),
      "user_product_type" := JStr(""),
      "user_item_w2v" := JArr(seq(W2vDimension, _ => JNum(0))),
      "user_image" := JStr(emptyImage)
    ]
  }
}
