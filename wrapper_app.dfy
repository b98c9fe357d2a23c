/** The e-commerce wrapper service's shared state and three of its handlers:
    popularity recommendations with their routing (`get_popularity`),
    per-user recommendations with the popularity fallback
    (`get_user_recommendations`) and event ingestion (`ingest_event`). The
    vector-search service is a function from request to transport outcome,
    Redis is a `TopicStore`, and `random.shuffle` picks some permutation. */
module WrapperApp {
  import opened Common
  import opened Endpoint
  import opened RedisKv

  /** The placeholder image URL `_generate_empty_image` returns. */
  const EmptyImage := "https://storage.googleapis.com/superlinked-recipes/ecommerce-recsys/images/blank_image.jpg"

  /** One row of the product dataset, reduced to the columns the service reads. */
  datatype Product = Product(id: int, topic: Json, productType: Json)

  datatype ProductColumn = TopicColumn | TypeColumn

  function Cell(p: Product, c: ProductColumn): Json {
    match c
    case TopicColumn => p.topic
    case TypeColumn => p.productType
  }

  /** The row index of the last row with id `id`. */
  predicate LastWithId(products: seq<Product>, i: int) {
    0 <= i < |products| && forall j :: i < j < |products| ==> products[j].id != products[i].id
  }

  /** `products_df.set_index("id")[column].to_dict()`. */
  function IndexBy(products: seq<Product>, c: ProductColumn): map<int, Json>
    decreases |products|
  {
    if products == [] then map[]
    else IndexBy(products[..|products| - 1], c)[products[|products| - 1].id := Cell(products[|products| - 1], c)]
  }

  /** The table has exactly the ids of the dataset as keys ... */
  lemma {:induction false} IndexByKeys(products: seq<Product>, c: ProductColumn, id: int)
    ensures id in IndexBy(products, c) <==> exists i :: 0 <= i < |products| && products[i].id == id
    decreases |products|
  {
    if products != [] {
      var n := |products|;
      var pre := products[..n - 1];
      IndexByKeys(pre, c, id);
      if id in IndexBy(pre, c) {
        var i :| 0 <= i < |pre| && pre[i].id == id;
        assert products[i].id == id;
      }
      if i :| 0 <= i < n - 1 && products[i].id == id {
        assert pre[i].id == id;
      }
    }
  }

  /** ... and maps every id to the value in the last row that carries it. */
  lemma {:induction false} IndexByLastWins(products: seq<Product>, c: ProductColumn, i: int)
    requires LastWithId(products, i)
    ensures products[i].id in IndexBy(products, c)
    ensures IndexBy(products, c)[products[i].id] == Cell(products[i], c)
    decreases |products|
  {
    var n := |products|;
    var pre := products[..n - 1];
    if i < n - 1 {
      assert LastWithId(pre, i);
      IndexByLastWins(pre, c, i);
    }
  }

  /** `dict.get(k)` followed by an `is None` test: a missing key and a JSON
      null both give `None`. */
  function Lookup(m: map<int, Json>, k: int): (r: Option<Json>)
    ensures r.Some? <==> k in m && !m[k].JNull?
    ensures r.Some? ==> r.value == m[k]
  {
    if k in m && !m[k].JNull? then Some(m[k]) else None
  }

  // ---------------------------------------------------------------------------
  // The requests the handlers send

  /** The body of a topic-filtered popularity query. */
  function TopicQuery(topic: Json, productType: Json): Json {
    JObj(map["query_topic" := topic, "query_product_type" := productType, "limit" := JNum(100)])
  }

  /** The single query of `get_popularity` when no stored user topics are
      used: topic-filtered when a topic is given (with `product_type or ""`),
      otherwise global with limit `max(limit, 100)`. */
  function PopularityRequest(base: string, topic: Json, productType: Json, limit: int): (q: Request)
    ensures Truthy(topic) ==>
      && q.url == base + FilteredPopularityPath && q.body.JObj?
      && "query_topic" in q.body.fields && q.body.fields["query_topic"] == topic
      && "query_product_type" in q.body.fields
      && q.body.fields["query_product_type"] == (if Truthy(productType) then productType else JStr(""))
      && "limit" in q.body.fields && q.body.fields["limit"] == JNum(100)
    ensures !Truthy(topic) ==> q == Request(base + PopularityPath, JObj(map["limit" := JNum(Max(limit, 100))]))
  {
    if Truthy(topic) then
      Request(base + FilteredPopularityPath, TopicQuery(topic, if Truthy(productType) then productType else JStr("")))
    else
      Request(base + PopularityPath, JObj(map["limit" := JNum(Max(limit, 100))]))
  }

  /** One topic-filtered query per stored topic, in the order read. */
  function UserTopicRequests(base: string, topics: seq<string>): (qs: seq<Request>)
    ensures |qs| == |topics|
    ensures forall i :: 0 <= i < |topics| ==>
      qs[i] == Request(base + FilteredPopularityPath, TopicQuery(JStr(topics[i]), JStr("")))
  {
    seq(|topics|, i requires 0 <= i < |topics| =>
      Request(base + FilteredPopularityPath, TopicQuery(JStr(topics[i]), JStr(""))))
  }

  /** The `entries` of the reply to request `q`. */
  function EntriesAt(net: Request -> Transport, q: Request): Result<seq<Json>> {
    EntriesOf(ReplyOf(net(q)).body)
  }

  /** `x` is one of the entries of the reply to one of the requests `sent`. */
  predicate FromSome(net: Request -> Transport, sent: seq<Request>, x: Json) {
    exists i :: 0 <= i < |sent| && EntriesAt(net, sent[i]).Ok? && x in EntriesAt(net, sent[i]).value
  }

  /** Every item of `xs` is an entry of the reply to one of the requests `sent`. */
  predicate AllFromSome(net: Request -> Transport, sent: seq<Request>, xs: seq<Json>) {
    forall x :: x in xs ==> FromSome(net, sent, x)
  }

  /** `msg` is the error of reading the entries of some reply to `sent`. */
  predicate FailedAt(net: Request -> Transport, sent: seq<Request>, msg: string) {
    exists i :: 0 <= i < |sent| && EntriesAt(net, sent[i]) == Err(msg)
  }

  /** `x` is the cleaned copy of an entry of the reply to one of the requests `sent`. */
  predicate CleanedFromSome(net: Request -> Transport, sent: seq<Request>, x: Json) {
    exists i, e :: 0 <= i < |sent| && EntriesAt(net, sent[i]).Ok? && e in EntriesAt(net, sent[i]).value && CleanItem(e) == Ok(x)
  }

  /** Every item of `xs` is the cleaned copy of an entry of some reply. */
  predicate AllCleanedFromSome(net: Request -> Transport, sent: seq<Request>, xs: seq<Json>) {
    forall x :: x in xs ==> CleanedFromSome(net, sent, x)
  }

  /** `now` has the keys of `was` and agrees with it except at `key`. */
  predicate KeptBut(was: map<string, Json>, now: map<string, Json>, key: string) {
    now.Keys == was.Keys && forall k :: k in now && k != key ==> now[k] == was[k]
  }

  /** `query_config.get('user')['params']` exists and is a dict. */
  predicate UserParamsOk(cfg: map<string, Json>) {
    "user" in cfg && cfg["user"].JObj? && "params" in cfg["user"].fields && cfg["user"].fields["params"].JObj?
  }

  /** A `user2item` query for composite user `uid` with collaborative vector
      `vec` and limit `n`. */
  predicate UserQueryFor(q: Request, base: string, uid: string, vec: Json, n: int) {
    && q.url == base + User2ItemPath && q.body.JObj?
    && "user_id" in q.body.fields && q.body.fields["user_id"] == JStr(uid)
    && "collaborative_vector" in q.body.fields && q.body.fields["collaborative_vector"] == vec
    && "limit" in q.body.fields && q.body.fields["limit"] == JNum(n)
  }

  /** `sent[i]`, for each of the first `|sent|` topics in order, is the
      `user2item` query of the composite user `userId_topic` with its
      collaborative vector and limit `n`. */
  predicate UserQueries(sent: seq<Request>, base: string, userId: string, topics: seq<string>,
                        vectorFor: string -> Result<Json>, n: int) {
    |sent| <= |topics| &&
    forall i :: 0 <= i < |sent| ==>
      vectorFor(userId + "_" + topics[i]).Ok?
      && UserQueryFor(sent[i], base, userId + "_" + topics[i], vectorFor(userId + "_" + topics[i]).value, n)
  }

  lemma UserQueriesAppend(sent: seq<Request>, base: string, userId: string, topics: seq<string>,
                          vectorFor: string -> Result<Json>, n: int, q: Request)
    requires UserQueries(sent, base, userId, topics, vectorFor, n) && |sent| < |topics|
    requires vectorFor(userId + "_" + topics[|sent|]).Ok?
    requires UserQueryFor(q, base, userId + "_" + topics[|sent|], vectorFor(userId + "_" + topics[|sent|]).value, n)
    ensures UserQueries(sent + [q], base, userId, topics, vectorFor, n)
  {
  }

  /** `recs[j]` is the entries of the reply to `sent[j]`. */
  predicate RepliesAre(net: Request -> Transport, sent: seq<Request>, recs: seq<seq<Json>>) {
    |sent| == |recs| && forall j :: 0 <= j < |sent| ==> EntriesAt(net, sent[j]) == Ok(recs[j])
  }

  lemma RepliesAppend(net: Request -> Transport, sent: seq<Request>, recs: seq<seq<Json>>, q: Request, e: seq<Json>)
    requires RepliesAre(net, sent, recs) && EntriesAt(net, q) == Ok(e)
    ensures RepliesAre(net, sent + [q], recs + [e])
  {
  }

  /** `taken` is some reordering of the entries `entries` read, cut as
      `[:n]` cuts a list. */
  predicate ShuffledCut(entries: Result<seq<Json>>, taken: seq<Json>, n: int) {
    && entries.Ok? && multiset(taken) <= multiset(entries.value)
    && (n >= 0 ==> |taken| == Min(n, |entries.value|))
    && (n < 0 ==> |taken| == Max(0, |entries.value| + n))
  }

  /** `recs[j]` is a shuffled cut of the entries of the reply to `sent[j]`. */
  predicate ShuffledCuts(net: Request -> Transport, sent: seq<Request>, recs: seq<seq<Json>>, n: int) {
    |recs| == |sent| && forall j :: 0 <= j < |recs| ==> ShuffledCut(EntriesAt(net, sent[j]), recs[j], n)
  }

  lemma ShuffledCutsAppend(net: Request -> Transport, sent: seq<Request>, recs: seq<seq<Json>>, n: int,
                           q: Request, taken: seq<Json>)
    requires ShuffledCuts(net, sent, recs, n) && ShuffledCut(EntriesAt(net, q), taken, n)
    ensures ShuffledCuts(net, sent + [q], recs + [taken], n)
  {
  }

  /** An item of a shuffled cut is one of the entries. */
  lemma CutMember(entries: Result<seq<Json>>, taken: seq<Json>, n: int, x: Json)
    requires ShuffledCut(entries, taken, n) && x in taken
    ensures x in entries.value
  {
    assert x in multiset(taken);
  }

  /** How a successful `get_popularity` computed its result from the replies
      to `sent`: without stored topics (`single`) the one reply's shuffled
      cut, otherwise the interleave, cut to `n`, of one shuffled cut per
      stored topic. */
  datatype PopularityTrace = PopularityTrace(single: bool, recs: seq<seq<Json>>)

  predicate PopularityFrom(net: Request -> Transport, sent: seq<Request>, n: int, r: seq<Json>, t: PopularityTrace) {
    && ShuffledCuts(net, sent, t.recs, n)
    && (t.single ==> |sent| == 1 && t.recs == [r])
    && (!t.single ==> r == Interleave(t.recs, n))
  }

  /** Every item of a popularity result comes from a reply, and there are at
      most `n` of them. */
  lemma PopularityFromSent(net: Request -> Transport, sent: seq<Request>, n: int, r: seq<Json>, t: PopularityTrace)
    requires PopularityFrom(net, sent, n, r, t)
    ensures AllFromSome(net, sent, r)
    ensures n >= 0 ==> |r| <= n
  {
    forall x | x in r
      ensures FromSome(net, sent, x)
    {
      var j: int;
      if t.single {
        j := 0;
      } else {
        InterleaveFrom(t.recs, n, x);
        j :| 0 <= j < |t.recs| && x in t.recs[j];
      }
      CutMember(EntriesAt(net, sent[j]), t.recs[j], n, x);
    }
    if !t.single && n >= 0 {
      assert |r| <= n;
    }
  }

  /** `random.shuffle(entries)` followed by `entries[:n]`: the shuffle picks
      some reordering, so the result is some `n` (or, for negative `n`, all
      but the last `-n`) entries in some order. */
  method ShuffleTake(entries: seq<Json>, n: int) returns (r: seq<Json>)
    ensures multiset(r) <= multiset(entries)
    ensures forall x :: x in r ==> x in entries
    ensures n >= 0 ==> |r| == Min(n, |entries|)
    ensures n < 0 ==> |r| == Max(0, |entries| + n)
  {
    assert multiset(entries) == multiset(entries);
    var shuffled: seq<Json> :| multiset(shuffled) == multiset(entries);
    TakeWithin(shuffled, n);
    assert |shuffled| == |multiset(shuffled)| == |multiset(entries)| == |entries|;
    r := PyTake(shuffled, n);
    forall x | x in r
      ensures x in entries
    {
      assert x in shuffled;
      assert x in multiset(entries);
    }
  }

  lemma TakeWithin<T>(s: seq<T>, n: int)
    ensures multiset(PyTake(s, n)) <= multiset(s)
    ensures forall x :: x in PyTake(s, n) ==> x in s
  {
    var k := |PyTake(s, n)|;
    assert s == s[..k] + s[k..];
    assert multiset(s) == multiset(s[..k]) + multiset(s[k..]);
  }

  // ---------------------------------------------------------------------------
  // ingest_event

  /** What `ingest_event` answers: `{"status": "success", "err": ""}`,
      `{"status": "failed", "err": ...}`, or nothing (`None`) when an
      ingestion call did not return 2xx. */
  datatype IngestReply = Succeeded | Failed(err: string) | NoReply

  function IngestReplyJson(r: IngestReply): Option<Json> {
    match r
    case Succeeded => Some(JObj(map["status" := JStr("success"), "err" := JStr("")]))
    case Failed(e) => Some(JObj(map["status" := JStr("failed"), "err" := JStr(e)]))
    case NoReply => None
  }

  /** The ZADD `set_user_event_topic` performs: member and score as Redis sees them. */
  datatype TopicWrite = TopicWrite(userId: string, topic: string, createdAt: int)

  /** The decisions of one `ingest_event` call, with the Redis write that
      remains to be done; `reply` is the answer when that write succeeds. */
  datatype IngestPlan = IngestPlan(reply: IngestReply, sent: seq<Request>, write: Option<TopicWrite>)

  /** The event with an `id` added when it has none. */
  function WithId(event: map<string, Json>, freshId: string): (e: map<string, Json>)
    ensures "id" in e && e.Keys == event.Keys + {"id"}
    ensures "id" in event ==> e == event
    ensures "id" !in event ==> e["id"] == JStr(freshId)
    ensures forall k :: k in event && k != "id" ==> e[k] == event[k]
  {
    if "id" in event then event else event["id" := JStr(freshId)]
  }

  /** redis-py refuses to encode values other than strings and numbers. */
  function EncodeError(v: Json): Option<string> {
    if v.JStr? || v.JNum? then None
    else Some("Invalid input of type: '" + TypeName(v) + "'. Convert to a bytes, string, int or float first.")
  }

  /** ZADD's member and score for a topic and a `created_at` value: encoding
      errors (score first), then Redis's own check on the score. Building the
      mapping `{topic: created_at}` hashes the topic before any of these. */
  function Encoded(userId: string, topic: Json, createdAt: Json): (r: Result<TopicWrite>)
    ensures topic.JArr? || topic.JObj? ==> r == Err("unhashable type: '" + TypeName(topic) + "'")
    ensures r.Ok? ==> r.value.userId == userId
    ensures r.Ok? ==> createdAt.JNum? ==> r.value.createdAt == createdAt.n
    ensures topic.JStr? && createdAt.JNum? ==> r == Ok(TopicWrite(userId, topic.s, createdAt.n))
  {
    if UnhashableError(topic).Some? then Err(UnhashableError(topic).value)
    else if EncodeError(createdAt).Some? then Err(EncodeError(createdAt).value)
    else if EncodeError(topic).Some? then Err(EncodeError(topic).value)
    else
      var member := if topic.JStr? then topic.s else IntToString(topic.n);
      if createdAt.JNum? then Ok(TopicWrite(userId, member, createdAt.n))
      else match ParseInt(createdAt.s)
        case None => Err("value is not a valid float")
        case Some(score) => Ok(TopicWrite(userId, member, score))
  }

  /** The step after a 2xx `ingest_user` (or an existing user): send the
      rewritten event; on 2xx the topic is to be recorded under the original
      user with the event's `created_at`. */
  function AfterEventIngest(user: Json, ev: map<string, Json>, topic: Json, sent: seq<Request>,
                            net: Request -> Transport): (p: IngestPlan)
    requires |sent| > 0
    ensures p.sent == sent
    ensures p.write.Some? ==> Success2xx(ReplyOf(net(sent[|sent| - 1])).status) && p.reply == Succeeded
    ensures p.write.Some? ==> p.write.value.userId == Str(user)
    ensures !Success2xx(ReplyOf(net(sent[|sent| - 1])).status) ==> p == IngestPlan(NoReply, sent, None)
  {
    if !Success2xx(ReplyOf(net(sent[|sent| - 1])).status) then IngestPlan(NoReply, sent, None)
    else if "created_at" !in ev then IngestPlan(Failed("'created_at'"), sent, None)
    else match Encoded(Str(user), topic, ev["created_at"])
      case Err(m) => IngestPlan(Failed(m), sent, None)
      case Ok(w) => IngestPlan(Succeeded, sent, Some(w))
  }

  /** The request that looks the composite user up. */
  function UserCheckRequest(base: string, uid: string): Request {
    Request(base + UserItem2vecPath, JObj(map["user_id" := JStr(uid)]))
  }

  /** The request that creates the composite user with the dummy record. */
  function DummyUserRequest(base: string, uid: string, emptyImage: string): Request {
    Request(base + IngestUserPath, JObj(DummyUser(uid, emptyImage)))
  }

  /** The event as it is sent: with an id and with `user` rewritten. */
  function EventRequest(base: string, event: map<string, Json>, freshId: string, uid: string): (q: Request)
    ensures q.url == base + IngestEventPath
    ensures q.body.JObj? && "user" in q.body.fields && q.body.fields["user"] == JStr(uid)
    ensures "id" in q.body.fields && q.body.fields["id"] == if "id" in event then event["id"] else JStr(freshId)
    ensures q.body.fields.Keys == event.Keys + {"id", "user"}
    ensures forall k :: k in event && k != "id" && k != "user" ==> q.body.fields[k] == event[k]
  {
    Request(base + IngestEventPath, JObj(WithId(event, freshId)["user" := JStr(uid)]))
  }

  /** The composite user id `f"{user_id}_{topic}"`. */
  function CompositeId(user: Json, topic: Json): string {
    Str(user) + "_" + Str(topic)
  }

  /** The decision flow of `ingest_event` once the product's topic is known:
      look the composite user up, create it when it has no vectors, send the
      rewritten event, and record the topic after a 2xx event ingest. */
  function PlanForTopic(event: map<string, Json>, freshId: string, base: string, emptyImage: string,
                        net: Request -> Transport, topic: Json): (p: IngestPlan)
    requires "user" in event
    ensures p.write.Some? <==> p.reply.Succeeded?
    ensures p.write.Some? ==> p.write.value.userId == Str(event["user"])
    ensures p.write.Some? ==> |p.sent| >= 2 && Success2xx(ReplyOf(net(p.sent[|p.sent| - 1])).status)
    ensures p.write.Some? ==> p.sent[|p.sent| - 1] == EventRequest(base, event, freshId, CompositeId(event["user"], topic))
  {
    var check := UserCheckRequest(base, CompositeId(event["user"], topic));
    match EntriesLen(ReplyOf(net(check)).body)
    case Err(m) => IngestPlan(Failed(m), [check], None)
    case Ok(count) => PlanAfterCheck(event, freshId, base, emptyImage, net, topic, count > 0)
  }

  /** The part of `PlanForTopic` after the composite user was looked up
      (`known`: it has vectors). */
  function PlanAfterCheck(event: map<string, Json>, freshId: string, base: string, emptyImage: string,
                          net: Request -> Transport, topic: Json, known: bool): (p: IngestPlan)
    requires "user" in event
  {
    var uid := CompositeId(event["user"], topic);
    var check := UserCheckRequest(base, uid);
    var evq := EventRequest(base, event, freshId, uid);
    if known then AfterEventIngest(event["user"], evq.body.fields, topic, [check] + [evq], net)
    else
      var uq := DummyUserRequest(base, uid, emptyImage);
      if !Success2xx(ReplyOf(net(uq)).status) then IngestPlan(NoReply, [check, uq], None)
      else AfterEventIngest(event["user"], evq.body.fields, topic, [check, uq] + [evq], net)
  }

  /** The decision flow of `ingest_event` for a product-topic table `topics`. */
  function PlanIngest(event: map<string, Json>, freshId: string, base: string, topics: map<int, Json>,
                      emptyImage: string, net: Request -> Transport): (p: IngestPlan)
    ensures "user" !in event ==> p == IngestPlan(Failed("'user'"), [], None)
    ensures "user" in event && "product" !in event ==> p == IngestPlan(Failed("'product'"), [], None)
    ensures "user" in event && "product" in event && PyInt(event["product"]).None? ==>
      p == IngestPlan(Failed(IntError(event["product"])), [], None)
    ensures ("user" in event && "product" in event && PyInt(event["product"]).Some?
             && Lookup(topics, PyInt(event["product"]).value).None?) ==>
      p == IngestPlan(Failed("Missing data for product " + Str(event["product"])), [], None)
    ensures ("user" in event && "product" in event && PyInt(event["product"]).Some?
             && Lookup(topics, PyInt(event["product"]).value).Some?) ==>
      p == PlanForTopic(event, freshId, base, emptyImage, net, Lookup(topics, PyInt(event["product"]).value).value)
    ensures p.write.Some? <==> p.reply.Succeeded?
    ensures p.write.Some? ==> "user" in event && p.write.value.userId == Str(event["user"])
  {
    if "user" !in event then IngestPlan(Failed("'user'"), [], None)
    else if "product" !in event then IngestPlan(Failed("'product'"), [], None)
    else match PyInt(event["product"])
      case None => IngestPlan(Failed(IntError(event["product"])), [], None)
      case Some(pid) =>
        match Lookup(topics, pid)
        case None => IngestPlan(Failed("Missing data for product " + Str(event["product"])), [], None)
        case Some(topic) => PlanForTopic(event, freshId, base, emptyImage, net, topic)
  }

  /** An existing composite user gets the event directly; a new one first gets
      the dummy record, and the event only after that succeeded. */
  lemma IngestSequence(event: map<string, Json>, freshId: string, base: string, emptyImage: string,
                       net: Request -> Transport, topic: Json)
    requires "user" in event
    ensures var uid := CompositeId(event["user"], topic);
      var p := PlanForTopic(event, freshId, base, emptyImage, net, topic);
      var found := EntriesLen(ReplyOf(net(UserCheckRequest(base, uid))).body);
      && (found.Err? ==> p == IngestPlan(Failed(found.msg), [UserCheckRequest(base, uid)], None))
      && (found.Ok? && found.value > 0 ==>
            p.sent == [UserCheckRequest(base, uid), EventRequest(base, event, freshId, uid)])
      && (found.Ok? && found.value == 0 ==>
            p.sent[..2] == [UserCheckRequest(base, uid), DummyUserRequest(base, uid, emptyImage)]
            && (Success2xx(ReplyOf(net(DummyUserRequest(base, uid, emptyImage))).status) <==> |p.sent| == 3)
            && (|p.sent| == 3 ==> p.sent[2] == EventRequest(base, event, freshId, uid)))
  {
    var uid := CompositeId(event["user"], topic);
    var check := UserCheckRequest(base, uid);
    var evq := EventRequest(base, event, freshId, uid);
    var uq := DummyUserRequest(base, uid, emptyImage);
    var found := EntriesLen(ReplyOf(net(check)).body);
    if found.Ok? {
      var p := PlanAfterCheck(event, freshId, base, emptyImage, net, topic, found.value > 0);
      assert PlanForTopic(event, freshId, base, emptyImage, net, topic) == p;
      if found.value > 0 {
        assert p.sent == [check] + [evq] == [check, evq];
      } else if Success2xx(ReplyOf(net(uq)).status) {
        assert p.sent == [check, uq] + [evq] == [check, uq, evq];
      } else {
        assert p.sent == [check, uq];
      }
    }
  }

  /** The effect of the ZADD `w` (no ttl) on the store's sets: a failing
      command is reported as `failed` and changes nothing. */
  predicate WriteDone(w: TopicWrite, fault: WriteFault, reply: IngestReply,
                      before: map<string, ZSet>, after: map<string, ZSet>) {
    var key := UserKey(w.userId);
    var z := if key in before then before[key] else map[];
    if fault.ZAddFails? then reply == Failed(fault.zaddMsg) && after == before
    else reply == Succeeded && after == before[key := ZAdd(z, w.topic, w.createdAt)]
  }

  // ---------------------------------------------------------------------------
  // The shared state

  /** The `user2item` request for composite user `uid`: the parameter dict
      with the limit set, then `user_id` and `collaborative_vector`. */
  lemma UserRequestFor(base: string, params: map<string, Json>, uid: string, vec: Json, n: int)
    requires "limit" in params && params["limit"] == JNum(n)
    ensures var body := JObj(params["user_id" := JStr(uid)]["collaborative_vector" := vec]);
      RequestFor(base, "user2item", body).Some? && UserQueryFor(RequestFor(base, "user2item", body).value, base, uid, vec, n)
  {
    var fields := params["user_id" := JStr(uid)]["collaborative_vector" := vec];
    assert "limit" in fields && fields != map[];
  }

  class AppState {
    /** BASE_SL_URL */
    const base: string
    /** The Redis connection. */
    const store: TopicStore
    const emptyImage: string
    var products: seq<Product>
    var productIdToTopic: map<int, Json>
    var productIdToType: map<int, Json>
    var queryConfig: map<string, Json>

    /** `AppState().init()`: the dataset, the Redis store, the empty image and
        the query configuration, as read at startup. */
    constructor (base: string, store: TopicStore, products: seq<Product>, queryConfig: map<string, Json>)
      ensures this.base == base && this.store == store && emptyImage == EmptyImage
      ensures this.products == products && this.queryConfig == queryConfig
      ensures productIdToTopic == IndexBy(products, TopicColumn)
      ensures productIdToType == IndexBy(products, TypeColumn)
    {
      this.base := base;
      this.store := store;
      this.products := products;
      productIdToTopic := IndexBy(products, TopicColumn);
      productIdToType := IndexBy(products, TypeColumn);
      emptyImage := EmptyImage;
      this.queryConfig := queryConfig;
    }

    /** `recalc`: reload the dataset and rebuild both id tables. */
    method Recalc(products: seq<Product>)
      modifies this
      ensures this.products == products
      ensures productIdToTopic == IndexBy(products, TopicColumn)
      ensures productIdToType == IndexBy(products, TypeColumn)
      ensures queryConfig == old(queryConfig)
    {
      this.products := products;
      productIdToTopic := IndexBy(products, TopicColumn);
      productIdToType := IndexBy(products, TypeColumn);
    }

    /** The `/api/get_user_topics` endpoint: every stored topic, most recent first. */
    method AllUserTopics(userId: string, redisFault: bool) returns (topics: seq<string>)
      ensures redisFault ==> topics == []
      ensures !redisFault ==> IsRevRange(store.SetAt(UserKey(userId)), -1, topics)
      ensures !redisFault ==> Distinct(topics) && forall m :: m in store.SetAt(UserKey(userId)) <==> m in topics
    {
      topics := store.GetUserTopics(userId, 0, redisFault);
      if !redisFault {
        FullRangeCovers(store.SetAt(UserKey(userId)), topics);
      }
    }

    /** `get_popularity`. `sent` lists the queries issued, `userTopics` the
        stored topics used (empty when there is no truthy user id), and `t`
        how the result was drawn from the replies. */
    method GetPopularity(topic: Json, productType: Json, userId: Option<string>, limit: Json,
                         net: Request -> Transport, redisFault: bool)
      returns (r: Result<seq<Json>>, sent: seq<Request>, userTopics: seq<string>, ghost t: PopularityTrace)
      ensures PyInt(limit).None? ==> r == Err(IntError(limit)) && sent == [] && userTopics == []
      ensures !Given(userId) || redisFault ==> userTopics == []
      ensures |userTopics| <= 3
      ensures PyInt(limit).Some? && Given(userId) && !redisFault ==>
        IsRevRange(store.SetAt(UserKey(userId.value)), 2, userTopics)
      ensures PyInt(limit).Some? ==> PopularityOutcome(net, userTopics, topic, productType, PyInt(limit).value, r, sent, t)
      ensures r.Ok? ==> PyInt(limit).Some?
    {
      userTopics := [];
      if PyInt(limit).None? {
        return Err(IntError(limit)), [], userTopics, PopularityTrace(true, []);
      }
      var n := PyInt(limit).value;
      if Given(userId) {
        userTopics := store.GetUserTopics(userId.value, 3, redisFault);
        if !redisFault {
          TopCount(|store.SetAt(UserKey(userId.value))|, 3);
        }
      }
      r, sent, t := PopularityFor(topic, productType, userTopics, n, net);
    }

    /** What `get_popularity` sends and returns once `limit` is the integer
        `n` and the stored topics `userTopics` have been read: one query per
        stored topic when there are any, otherwise the single query; on
        success at most `n` items drawn from the replies as `t` says. */
    predicate PopularityOutcome(net: Request -> Transport, userTopics: seq<string>, topic: Json, productType: Json,
                                n: int, r: Result<seq<Json>>, sent: seq<Request>, t: PopularityTrace)
    {
      && (userTopics != [] ==> sent <= UserTopicRequests(base, userTopics) && (r.Ok? ==> sent == UserTopicRequests(base, userTopics)))
      && (userTopics == [] ==> sent == [PopularityRequest(base, topic, productType, n)])
      && (r.Ok? ==> PopularityFrom(net, sent, n, r.value, t) && (t.single <==> userTopics == []))
      && (r.Ok? && n >= 0 ==> |r.value| <= n)
      && (r.Ok? ==> AllFromSome(net, sent, r.value))
      && (r.Err? ==> FailedAt(net, sent, r.msg))
    }

    /** The part of `get_popularity` after the limit is parsed and the stored
        topics are read. */
    method PopularityFor(topic: Json, productType: Json, userTopics: seq<string>, n: int, net: Request -> Transport)
      returns (r: Result<seq<Json>>, sent: seq<Request>, ghost t: PopularityTrace)
      ensures PopularityOutcome(net, userTopics, topic, productType, n, r, sent, t)
    {
      t := PopularityTrace(true, []);
      if userTopics != [] {
        ghost var recs;
        r, sent, recs := PerTopicPopularity(userTopics, n, net);
        t := PopularityTrace(false, recs);
        if r.Ok? {
          PopularityFromSent(net, sent, n, r.value, t);
        }
        return;
      }
      var q := PopularityRequest(base, topic, productType, n);
      var es;
      r, es := SinglePopularity(topic, productType, n, net);
      sent := [q];
      if r.Err? {
        assert EntriesAt(net, sent[0]) == Err(r.msg);
      } else {
        t := PopularityTrace(true, [r.value]);
        assert ShuffledCuts(net, sent, t.recs, n);
        PopularityFromSent(net, sent, n, r.value, t);
      }
    }

    /** The branch of `get_popularity` without stored topics: one query, then
        some permutation of its entries cut to `n`. */
    method SinglePopularity(topic: Json, productType: Json, n: int, net: Request -> Transport)
      returns (r: Result<seq<Json>>, entries: Result<seq<Json>>)
      ensures entries == EntriesAt(net, PopularityRequest(base, topic, productType, n))
      ensures r.Err? <==> entries.Err?
      ensures r.Err? ==> r.msg == entries.msg
      ensures r.Ok? ==> ShuffledCut(entries, r.value, n)
      ensures r.Ok? ==> forall x :: x in r.value ==> x in entries.value
    {
      var name := if Truthy(topic) then "filtered_popularity" else "popularity";
      var data := if Truthy(topic) then TopicQuery(topic, if Truthy(productType) then productType else JStr(""))
                  else JObj(map["limit" := JNum(Max(n, 100))]);
      var q := RequestFor(base, name, data).value;
      assert q == PopularityRequest(base, topic, productType, n);
      entries := EntriesOf(CallSlUrl(name, net(q)).value.body);
      if entries.Err? {
        return Err(entries.msg), entries;
      }
      var taken := ShuffleTake(entries.value, n);
      r := Ok(taken);
    }

    /** The branch of `get_popularity` with stored topics: one query per
        topic, each result list shuffled and cut to `n` (the lists are
        `recs`), then interleaved and cut to `n`. */
    method PerTopicPopularity(userTopics: seq<string>, n: int, net: Request -> Transport)
      returns (r: Result<seq<Json>>, sent: seq<Request>, ghost recs: seq<seq<Json>>)
      ensures sent <= UserTopicRequests(base, userTopics)
      ensures r.Ok? ==> sent == UserTopicRequests(base, userTopics)
      ensures r.Ok? ==> ShuffledCuts(net, sent, recs, n) && r.value == Interleave(recs, n)
      ensures r.Err? ==> FailedAt(net, sent, r.msg)
    {
      var lists: seq<seq<Json>> := [];
      sent := [];
      var i := 0;
      while i < |userTopics|
        invariant 0 <= i <= |userTopics|
        invariant sent == UserTopicRequests(base, userTopics)[..i]
        invariant ShuffledCuts(net, sent, lists, n)
      {
        var q := RequestFor(base, "filtered_popularity", TopicQuery(JStr(userTopics[i]), JStr(""))).value;
        var results := CallSlUrl("filtered_popularity", net(q)).value.body;
        var entries := EntriesOf(results);
        assert EntriesAt(net, q) == entries;
        if entries.Err? {
          return Err(entries.msg), sent + [q], lists;
        }
        var taken := ShuffleTake(entries.value, n);
        ShuffledCutsAppend(net, sent, lists, n, q, taken);
        sent := sent + [q];
        lists := lists + [taken];
        i := i + 1;
      }
      recs := lists;
      r := Ok(Interleave(lists, n));
    }

    /** `get_user_recommendations`: one `user2item` query per stored topic
        (at most 3) for the composite user `"<user>_<topic>"`, interleaved
        and cleaned; on any failure, and when no topics are stored, the
        popularity results for the user, cleaned. `vectorFor(uid)` is the
        collaborative vector `get_item2vec` and the neighbour fallback yield.
        `tried` are the queries of the `try` branch and `replies` their
        entries; `pop` is what `get_popularity` returned on fallback and `t`
        how it was drawn. */
    method GetUserRecommendations(userId: string, limit: Json, net: Request -> Transport,
                                  vectorFor: string -> Result<Json>, redisFault: bool)
      returns (r: Result<seq<Json>>, sent: seq<Request>, userTopics: seq<string>, fellBack: bool,
               ghost tried: seq<Request>, ghost replies: seq<seq<Json>>, ghost pop: Result<seq<Json>>,
               ghost t: PopularityTrace)
      modifies this
      ensures redisFault ==> userTopics == []
      ensures !redisFault ==> IsRevRange(old(store.SetAt(UserKey(userId))), 2, userTopics)
      ensures userTopics == [] ==> fellBack
      ensures !fellBack ==> r.Ok? && PyInt(limit).Some? && |sent| == |userTopics| <= 3 && tried == sent
      ensures !fellBack ==> UserQueries(sent, base, userId, userTopics, vectorFor, PyInt(limit).value)
      ensures !fellBack ==> RepliesAre(net, sent, replies) && r == CleanAll(Interleave(replies, PyInt(limit).value))
      ensures fellBack ==> tried <= sent && r == (if pop.Ok? then CleanAll(pop.value) else pop)
      ensures fellBack && pop.Ok? ==> PyInt(limit).Some? && PopularityFrom(net, sent[|tried|..], PyInt(limit).value, pop.value, t)
      ensures r.Ok? ==> AllCleanedFromSome(net, sent, r.value)
      ensures r.Ok? && PyInt(limit).Some? && PyInt(limit).value >= 0 ==> |r.value| <= PyInt(limit).value
      ensures fellBack && userTopics == [] && PyInt(limit).Some? ==>
        sent == [PopularityRequest(base, JNull, JNull, PyInt(limit).value)]
      ensures PyInt(limit).None? ==> r == Err(IntError(limit))
      ensures KeptBut(old(queryConfig), queryConfig, "user")
      ensures products == old(products) && productIdToTopic == old(productIdToTopic) && productIdToType == old(productIdToType)
    {
      sent := [];
      fellBack := true;
      replies := [];
      userTopics := store.GetUserTopics(userId, 3, redisFault);
      ghost var z := store.SetAt(UserKey(userId));
      if !redisFault {
        TopCount(|z|, 3);
      }
      var lim := PyInt(limit);
      if userTopics != [] && UserParamsOk(queryConfig) && lim.Some? {
        var primary;
        primary, sent, replies := TopicRecommendations(userId, userTopics, lim.value, net, vectorFor);
        if primary.Ok? {
          return primary, sent, userTopics, false, sent, replies, primary, PopularityTrace(true, []);
        }
      }
      tried := sent;
      var again;
      r, sent, again, pop, t := PopularityFallback(userId, limit, net, redisFault, sent);
    }

    /** The `except` branch of `get_user_recommendations`: the user's
        popularity results `pop`, sent after the queries `before`, cleaned. */
    method PopularityFallback(userId: string, limit: Json, net: Request -> Transport, redisFault: bool,
                              before: seq<Request>)
      returns (r: Result<seq<Json>>, sent: seq<Request>, userTopics: seq<string>, pop: Result<seq<Json>>,
               ghost t: PopularityTrace)
      ensures PyInt(limit).None? ==> r == Err(IntError(limit))
      ensures userId == "" || redisFault ==> userTopics == []
      ensures PyInt(limit).Some? && userId != "" && !redisFault ==>
        |userTopics| == RangeCount(|store.SetAt(UserKey(userId))|, 2)
      ensures before <= sent
      ensures PyInt(limit).Some? && userTopics == [] ==>
        sent == before + [PopularityRequest(base, JNull, JNull, PyInt(limit).value)]
      ensures r == (if pop.Ok? then CleanAll(pop.value) else pop)
      ensures pop.Ok? ==> PyInt(limit).Some? && PopularityFrom(net, sent[|before|..], PyInt(limit).value, pop.value, t)
      ensures pop.Ok? ==> (t.single <==> userTopics == [])
      ensures r.Ok? && PyInt(limit).Some? && PyInt(limit).value >= 0 ==> |r.value| <= PyInt(limit).value
      ensures r.Ok? ==> AllCleanedFromSome(net, sent, r.value)
    {
      var psent;
      pop, psent, userTopics, t := GetPopularity(JNull, JNull, Some(userId), limit, net, redisFault);
      sent := before + psent;
      assert sent[|before|..] == psent;
      if pop.Err? {
        return pop, sent, userTopics, pop, t;
      }
      r := CleanMetadata(pop.value);
      if r.Ok? {
        forall x | x in r.value
          ensures CleanedFromSome(net, sent, x)
        {
          var k :| 0 <= k < |r.value| && r.value[k] == x;
          assert FromSome(net, psent, pop.value[k]);
          var i :| 0 <= i < |psent| && EntriesAt(net, psent[i]).Ok? && pop.value[k] in EntriesAt(net, psent[i]).value;
          assert sent[|before| + i] == psent[i];
          assert CleanItem(pop.value[k]) == Ok(x);
        }
      }
    }

    /** The `try` branch of `get_user_recommendations` once topics exist, the
        `user` parameters are a dict and `limit` is an integer `n`: the
        interleave of the replies' entries `replies`, cut to `n` and cleaned.
        The parameter dict is stored back with `limit` set and with `user_id`
        and `collaborative_vector` of the last composite user queried. */
    method TopicRecommendations(userId: string, userTopics: seq<string>, n: int, net: Request -> Transport,
                                vectorFor: string -> Result<Json>)
      returns (r: Result<seq<Json>>, sent: seq<Request>, ghost replies: seq<seq<Json>>)
      requires UserParamsOk(queryConfig)
      modifies this
      ensures r.Ok? ==> |sent| == |userTopics| && UserQueries(sent, base, userId, userTopics, vectorFor, n)
      ensures r.Ok? ==> RepliesAre(net, sent, replies) && r == CleanAll(Interleave(replies, n))
      ensures r.Ok? ==> AllCleanedFromSome(net, sent, r.value)
      ensures r.Ok? && n >= 0 ==> |r.value| <= n
      ensures KeptBut(old(queryConfig), queryConfig, "user")
      ensures products == old(products) && productIdToTopic == old(productIdToTopic) && productIdToType == old(productIdToType)
    {
      var userCfg := queryConfig["user"].fields;
      var params := userCfg["params"].fields["limit" := JNum(n)];
      var recs, last;
      recs, sent, last := QueryEach(base, userId, userTopics, n, params, net, vectorFor);
      queryConfig := queryConfig["user" := JObj(userCfg["params" := JObj(last)])];
      replies := [];
      if recs.Err? {
        return Err(recs.msg), sent, replies;
      }
      replies := recs.value;
      r := CleanMetadata(Interleave(recs.value, n));
      InterleavedFromSent(net, sent, recs.value, n);
    }

    /** The loop of the `try` branch: for each composite user in turn, set
        `user_id` and `collaborative_vector` in the parameter dict and send it
        to `user2item`; stop at the first failure. `last` is the dict as the
        last pass left it. */
    static method QueryEach(base: string, userId: string, userTopics: seq<string>, n: int, params: map<string, Json>,
                            net: Request -> Transport, vectorFor: string -> Result<Json>)
      returns (recs: Result<seq<seq<Json>>>, sent: seq<Request>, last: map<string, Json>)
      requires "limit" in params && params["limit"] == JNum(n)
      ensures recs.Ok? ==> |sent| == |userTopics| && UserQueries(sent, base, userId, userTopics, vectorFor, n)
      ensures recs.Ok? ==> RepliesAre(net, sent, recs.value)
      ensures "limit" in last && last["limit"] == JNum(n)
    {
      last := params;
      var replies: seq<seq<Json>> := [];
      sent := [];
      var i := 0;
      while i < |userTopics|
        invariant 0 <= i <= |userTopics|
        invariant |sent| == i
        invariant "limit" in last && last["limit"] == JNum(n)
        invariant UserQueries(sent, base, userId, userTopics, vectorFor, n)
        invariant RepliesAre(net, sent, replies)
      {
        var uid := userId + "_" + userTopics[i];
        var vec := vectorFor(uid);
        if vec.Err? {
          return Err(vec.msg), sent, last;
        }
        UserRequestFor(base, last, uid, vec.value, n);
        last := last["user_id" := JStr(uid)]["collaborative_vector" := vec.value];
        var q := RequestFor(base, "user2item", JObj(last)).value;
        var entries := EntriesOf(CallSlUrl("user2item", net(q)).value.body);
        if entries.Err? {
          return Err(entries.msg), sent + [q], last;
        }
        UserQueriesAppend(sent, base, userId, userTopics, vectorFor, n, q);
        RepliesAppend(net, sent, replies, q, entries.value);
        sent := sent + [q];
        replies := replies + [entries.value];
        i := i + 1;
      }
      recs := Ok(replies);
    }

    /** The cleaned interleave of the replies' entries holds at most `n`
        items, each the cleaned copy of an entry of some reply. */
    static lemma InterleavedFromSent(net: Request -> Transport, sent: seq<Request>, recs: seq<seq<Json>>, n: int)
      requires RepliesAre(net, sent, recs)
      ensures CleanAll(Interleave(recs, n)).Ok? ==> AllCleanedFromSome(net, sent, CleanAll(Interleave(recs, n)).value)
      ensures CleanAll(Interleave(recs, n)).Ok? && n >= 0 ==> |CleanAll(Interleave(recs, n)).value| <= n
    {
      var results := Interleave(recs, n);
      var c := CleanAll(results);
      if c.Ok? {
        forall x | x in c.value
          ensures CleanedFromSome(net, sent, x)
        {
          var k :| 0 <= k < |c.value| && c.value[k] == x;
          InterleaveFrom(recs, n, results[k]);
          var j :| 0 <= j < |recs| && results[k] in recs[j];
          assert EntriesAt(net, sent[j]).Ok? && results[k] in EntriesAt(net, sent[j]).value && CleanItem(results[k]) == Ok(x);
        }
      }
    }

    /** `ingest_event`: the decisions of `PlanIngest`, carried out on a
        working copy of the event, then the Redis write (which ZADDs without
        a ttl); a failing write turns into a `failed` reply. */
    method IngestEvent(event: map<string, Json>, freshId: string, net: Request -> Transport, fault: WriteFault)
      returns (reply: IngestReply, sent: seq<Request>)
      modifies store
      ensures var p := PlanIngest(event, freshId, base, productIdToTopic, emptyImage, net);
        && sent == p.sent
        && (p.write.None? ==> reply == p.reply && store.sets == old(store.sets))
        && store.ttls == old(store.ttls)
      ensures var p := PlanIngest(event, freshId, base, productIdToTopic, emptyImage, net);
        p.write.Some? ==> WriteDone(p.write.value, fault, reply, old(store.sets), store.sets)
    {
      var ev := event;
      if "id" !in ev {
        ev := ev["id" := JStr(freshId)];
      }
      if "user" !in ev {
        return Failed("'user'"), [];
      }
      if "product" !in ev {
        return Failed("'product'"), [];
      }
      var productId := ev["product"];
      var pid := PyInt(productId);
      if pid.None? {
        return Failed(IntError(productId)), [];
      }
      var topic := Lookup(productIdToTopic, pid.value);
      if topic.None? {
        return Failed("Missing data for product " + Str(productId)), [];
      }
      reply, sent := IngestForTopic(event, ev, freshId, topic.value, net, fault);
    }

    /** The rest of `ingest_event` once the product's topic is known; `ev` is
        the event with its id. */
    method IngestForTopic(event: map<string, Json>, ev: map<string, Json>, freshId: string, topic: Json,
                          net: Request -> Transport, fault: WriteFault)
      returns (reply: IngestReply, sent: seq<Request>)
      requires "user" in event && ev == WithId(event, freshId)
      modifies store
      ensures var p := PlanForTopic(event, freshId, base, emptyImage, net, topic);
        && sent == p.sent
        && (p.write.None? ==> reply == p.reply && store.sets == old(store.sets))
        && store.ttls == old(store.ttls)
        && (p.write.Some? ==> WriteDone(p.write.value, fault, reply, old(store.sets), store.sets))
    {
      var ev := ev;
      var userId := ev["user"];
      var uid := CompositeId(userId, topic);
      // every body below is a non-empty dict, which `call_sl_url` sends as is
      var check := UserCheckRequest(base, uid);
      sent := [check];
      var found := EntriesLen(CallSlUrl("user_item2vec", net(check)).value.body);
      if found.Err? {
        return Failed(found.msg), sent;
      }
      reply, sent := RegisterAndSend(event, ev, freshId, topic, found.value > 0, net, fault);
    }

    /** `ingest_event` after the lookup of the composite user: create it with
        the dummy record unless it is `known`, then send the event. */
    method RegisterAndSend(event: map<string, Json>, ev: map<string, Json>, freshId: string, topic: Json,
                           known: bool, net: Request -> Transport, fault: WriteFault)
      returns (reply: IngestReply, sent: seq<Request>)
      requires "user" in event && ev == WithId(event, freshId)
      modifies store
      ensures var p := PlanAfterCheck(event, freshId, base, emptyImage, net, topic, known);
        && sent == p.sent
        && (p.write.None? ==> reply == p.reply && store.sets == old(store.sets))
        && store.ttls == old(store.ttls)
        && (p.write.Some? ==> WriteDone(p.write.value, fault, reply, old(store.sets), store.sets))
    {
      var uid := CompositeId(event["user"], topic);
      var check := UserCheckRequest(base, uid);
      var rewritten := ev["user" := JStr(uid)];
      assert Request(base + IngestEventPath, JObj(rewritten)) == EventRequest(base, event, freshId, uid);
      if known {
        reply, sent := SendEvent(event["user"], rewritten, topic, [check], net, fault);
      } else {
        var uq := DummyUserRequest(base, uid, emptyImage);
        var userCode := CallSlUrl("ingest_user", net(uq)).value.status;
        if !Success2xx(userCode) {
          return NoReply, [check, uq];
        }
        reply, sent := SendEvent(event["user"], rewritten, topic, [check, uq], net, fault);
      }
    }

    /** The end of `ingest_event`: send the rewritten event `ev` and, after a
        2xx reply, ZADD the topic under the original user `user`. */
    method SendEvent(user: Json, ev: map<string, Json>, topic: Json, before: seq<Request>,
                     net: Request -> Transport, fault: WriteFault)
      returns (reply: IngestReply, sent: seq<Request>)
      modifies store
      ensures var p := AfterEventIngest(user, ev, topic, before + [Request(base + IngestEventPath, JObj(ev))], net);
        && sent == p.sent
        && (p.write.None? ==> reply == p.reply && store.sets == old(store.sets))
        && store.ttls == old(store.ttls)
        && (p.write.Some? ==> WriteDone(p.write.value, fault, reply, old(store.sets), store.sets))
    {
      var eq := Request(base + IngestEventPath, JObj(ev));
      sent := before + [eq];
      var eventCode := CallSlUrl("ingest_event", net(eq)).value.status;
      if !Success2xx(eventCode) {
        return NoReply, sent;
      }
      if "created_at" !in ev {
        return Failed("'created_at'"), sent;
      }
      var w := Encoded(Str(user), topic, ev["created_at"]);
      if w.Err? {
        return Failed(w.msg), sent;
      }
      var outcome := store.SetUserEventTopic(w.value.userId, w.value.topic, w.value.createdAt, None, fault);
      reply := if outcome.Raised? then Failed(outcome.msg) else Succeeded;
    }
  }
}
