/** The preprocessing side of the item2vec trainer: the dot-notation config
    object, reading field roles off the schema classes, turning an events table
    into per-user product "sentences", counting the vocabulary, choosing a
    reader by file suffix, and resolving the event columns. Tables are
    sequences of records; gensim, files and printing are outside the model. */
module Item2vec {
  import opened Common

  // ---------------------------------------------------------------------------
  // Config

  /** A configuration dictionary exposed as attributes. */
  class Config {
    var attrs: map<string, Json>

    /** Sets one attribute per key of `configDict`. */
    constructor (configDict: map<string, Json>)
      ensures attrs == configDict
    {
      var filled: map<string, Json> := map[];
      var rest := configDict;
      while rest != map[]
        invariant filled.Keys !! rest.Keys
        invariant filled + rest == configDict
        decreases rest.Keys
      {
        var key :| key in rest;
        filled := filled[key := rest[key]];
        rest := rest - {key};
      }
      attrs := filled;
    }

    /** A copy of the attribute dictionary. */
    method ToDict() returns (d: map<string, Json>)
      ensures d == attrs
    {
      d := attrs;
    }
  }

  /** `Config(d).to_dict()` gives back `d`; a caller that then changes its
      copy leaves a second copy (and so the object) untouched. */
  method ConfigRoundTrip(d: map<string, Json>, key: string, value: Json)
    returns (changedCopy: map<string, Json>, later: map<string, Json>)
    ensures changedCopy == d[key := value]
    ensures later == d
  {
    var config := new Config(d);
    changedCopy := config.ToDict();
    changedCopy := changedCopy[key := value];
    later := config.ToDict();
  }

  // ---------------------------------------------------------------------------
  // Schema attributes

  /** An attribute of a schema object as `dir()` lists it, with the name of
      its value's class. */
  datatype SchemaAttr = SchemaAttr(name: string, className: string)

  predicate Private(name: string) {
    StartsWith(name, "_")
  }

  /** The field role an attribute fills, tried in the order id, created-at,
      schema reference (a product reference before a user reference, judged
      by the lower-cased attribute name), then an `event_type` string. */
  function Role(a: SchemaAttr): (r: Option<string>)
    ensures r.Some? ==> !Private(a.name)
    ensures r.Some? ==> r.value in {"id", "created_at", "product", "user", "event_type"}
  {
    if Private(a.name) then None
    else if Contains(a.className, "IdField") then Some("id")
    else if Contains(a.className, "CreatedAtField") then Some("created_at")
    else if Contains(a.className, "SchemaReference") then
      (if Contains(Lower(a.name), "product") then Some("product")
       else if Contains(Lower(a.name), "user") then Some("user")
       else None)
    else if Contains(a.className, "String") && Contains(a.name, "event_type") then Some("event_type")
    else None
  }

  /** The role-to-name dictionary after visiting `attrs` in order. */
  function FieldNamesOf(attrs: seq<SchemaAttr>): map<string, string>
    decreases |attrs|
  {
    if attrs == [] then map[]
    else
      var m := FieldNamesOf(attrs[..|attrs| - 1]);
      var a := attrs[|attrs| - 1];
      match Role(a)
      case Some(role) => m[role := a.name]
      case None => m
  }

  /** The attribute that last fills `role` among `attrs` is at index `i`. */
  predicate LastInRole(attrs: seq<SchemaAttr>, role: string, i: int) {
    0 <= i < |attrs| && Role(attrs[i]) == Some(role) &&
    forall j :: i < j < |attrs| ==> Role(attrs[j]) != Some(role)
  }

  /** A role is named exactly when some attribute fills it, and then by the
      last attribute that does. */
  predicate Fills(attrs: seq<SchemaAttr>, role: string) {
    exists i :: 0 <= i < |attrs| && Role(attrs[i]) == Some(role)
  }

  lemma {:induction false} FieldNamesKeys(attrs: seq<SchemaAttr>, role: string)
    ensures role in FieldNamesOf(attrs) <==> Fills(attrs, role)
    decreases |attrs|
  {
    if attrs != [] {
      var n := |attrs| - 1;
      var p := attrs[..n];
      FieldNamesKeys(p, role);
      assert attrs == p + [attrs[n]];
      if Role(attrs[n]) == Some(role) {
        assert role in FieldNamesOf(attrs);
        assert Fills(attrs, role) by { assert 0 <= n < |attrs| && Role(attrs[n]) == Some(role); }
      } else {
        assert role in FieldNamesOf(attrs) <==> role in FieldNamesOf(p);
        if Fills(attrs, role) {
          var i :| 0 <= i < |attrs| && Role(attrs[i]) == Some(role);
          assert p[i] == attrs[i];
        }
        if Fills(p, role) {
          var i :| 0 <= i < |p| && Role(p[i]) == Some(role);
          assert attrs[i] == p[i];
        }
      }
    }
  }

  lemma {:induction false} FieldNamesLast(attrs: seq<SchemaAttr>, role: string, i: int)
    requires LastInRole(attrs, role, i)
    ensures role in FieldNamesOf(attrs) && FieldNamesOf(attrs)[role] == attrs[i].name
    decreases |attrs|
  {
    var n := |attrs| - 1;
    var p := attrs[..n];
    if i < n {
      assert Role(attrs[n]) != Some(role);
      assert LastInRole(p, role, i) by {
        forall j | i < j < |p| ensures Role(p[j]) != Some(role) {
          assert p[j] == attrs[j];
        }
      }
      FieldNamesLast(p, role, i);
    }
  }

  /** A role is named exactly when some attribute fills it, and then by the
      last attribute that does. */
  lemma FieldNamesOfSpec(attrs: seq<SchemaAttr>, role: string)
    ensures role in FieldNamesOf(attrs) <==> Fills(attrs, role)
    ensures forall i :: LastInRole(attrs, role, i) ==> role in FieldNamesOf(attrs) && FieldNamesOf(attrs)[role] == attrs[i].name
  {
    FieldNamesKeys(attrs, role);
    forall i | LastInRole(attrs, role, i)
      ensures role in FieldNamesOf(attrs) && FieldNamesOf(attrs)[role] == attrs[i].name
    {
      FieldNamesLast(attrs, role, i);
    }
  }

  /** Every named field is a public attribute. */
  lemma {:induction false} FieldNamesPublic(attrs: seq<SchemaAttr>)
    ensures forall role :: role in FieldNamesOf(attrs) ==> !Private(FieldNamesOf(attrs)[role])
    decreases |attrs|
  {
    if attrs != [] {
      FieldNamesPublic(attrs[..|attrs| - 1]);
    }
  }

  /** Fills the role-to-name dictionary of a schema, one attribute at a time. */
  method GetSchemaFieldNames(schema: seq<SchemaAttr>) returns (fieldNames: map<string, string>)
    ensures fieldNames == FieldNamesOf(schema)
    ensures forall role :: role in fieldNames <==> Fills(schema, role)
    ensures forall role, i :: LastInRole(schema, role, i) ==> role in fieldNames && fieldNames[role] == schema[i].name
  {
    fieldNames := map[];
    var k := 0;
    while k < |schema|
      invariant 0 <= k <= |schema|
      invariant fieldNames == FieldNamesOf(schema[..k])
    {
      var a := schema[k];
      assert schema[..k + 1][..k] == schema[..k];
      if !StartsWith(a.name, "_") {
        if Contains(a.className, "IdField") {
          fieldNames := fieldNames["id" := a.name];
        } else if Contains(a.className, "CreatedAtField") {
          fieldNames := fieldNames["created_at" := a.name];
        } else if Contains(a.className, "SchemaReference") {
          if Contains(Lower(a.name), "product") {
            fieldNames := fieldNames["product" := a.name];
          } else if Contains(Lower(a.name), "user") {
            fieldNames := fieldNames["user" := a.name];
          }
        } else if Contains(a.className, "String") && Contains(a.name, "event_type") {
          fieldNames := fieldNames["event_type" := a.name];
        }
      }
      k := k + 1;
    }
    assert schema[..k] == schema;
    forall role
      ensures role in fieldNames <==> Fills(schema, role)
      ensures forall i :: LastInRole(schema, role, i) ==> role in fieldNames && fieldNames[role] == schema[i].name
    {
      FieldNamesOfSpec(schema, role);
    }
  }

  predicate CustomSpace(a: SchemaAttr) {
    !Private(a.name) && Contains(a.className, "FloatList")
  }

  /** The first public attribute holding a float-list space. Without one the
      bare `raise` has no active exception to re-raise. */
  method ExtractCustomSpace(schema: seq<SchemaAttr>) returns (r: Result<string>)
    ensures r.Ok? <==> exists i :: 0 <= i < |schema| && CustomSpace(schema[i])
    ensures r.Ok? ==> exists i :: 0 <= i < |schema| && CustomSpace(schema[i]) && r.value == schema[i].name &&
                                  forall j :: 0 <= j < i ==> !CustomSpace(schema[j])
    ensures r.Err? ==> r.msg == "No active exception to reraise"
  {
    var k := 0;
    while k < |schema|
      invariant 0 <= k <= |schema|
      invariant forall j :: 0 <= j < k ==> !CustomSpace(schema[j])
    {
      var a := schema[k];
      if !StartsWith(a.name, "_") && Contains(a.className, "FloatList") {
        return Ok(a.name);
      }
      k := k + 1;
    }
    return Err("No active exception to reraise");
  }

  // ---------------------------------------------------------------------------
  // Events and their order

  /** One row of the events table: who, which product, when. */
  datatype Event = Event(user: string, product: Json, createdAt: int)

  /** The order of `sort_values([user, created_at])`. */
  predicate EventLess(a: Event, b: Event) {
    LexLess(a.user, b.user) || (a.user == b.user && a.createdAt < b.createdAt)
  }

  lemma EventLessTransitive(a: Event, b: Event, c: Event)
    requires EventLess(a, b) && EventLess(b, c)
    ensures EventLess(a, c)
  {
    if LexLess(a.user, b.user) && LexLess(b.user, c.user) {
      LexLessTransitive(a.user, b.user, c.user);
    }
  }

  lemma EventLessAsymmetric(a: Event, b: Event)
    requires EventLess(a, b)
    ensures !EventLess(b, a)
  {
    if LexLess(a.user, b.user) && LexLess(b.user, a.user) {
      LexLessTransitive(a.user, b.user, a.user);
      LexLessIrreflexive(a.user);
    }
    if LexLess(a.user, b.user) && a.user == b.user {
      LexLessIrreflexive(a.user);
    }
  }

  /** Nothing below `b` can sit at or above a `c` that `b` is below: if
      `b < c` and not `a < c`, then not `a < b`. */
  lemma EventLessBelow(a: Event, b: Event, c: Event)
    requires EventLess(b, c) && !EventLess(a, c)
    ensures !EventLess(a, b)
  {
    if EventLess(a, b) {
      EventLessTransitive(a, b, c);
    }
  }

  predicate SortedEvents(s: seq<Event>) {
    forall i, j :: 0 <= i < j < |s| ==> !EventLess(s[j], s[i])
  }

  /** Places `e` after every element that does not sort after it, so equal
      keys keep their order. */
  function InsertEvent(s: seq<Event>, e: Event): (r: seq<Event>)
    ensures multiset(r) == multiset(s) + multiset{e}
    decreases |s|
  {
    if s == [] then [e]
    else if EventLess(e, s[0]) then [e] + s
    else
      assert s == [s[0]] + s[1..];
      [s[0]] + InsertEvent(s[1..], e)
  }

  lemma {:induction false} InsertEventSorted(s: seq<Event>, e: Event)
    requires SortedEvents(s)
    ensures SortedEvents(InsertEvent(s, e))
    decreases |s|
  {
    if s == [] {
    } else if EventLess(e, s[0]) {
      var r := [e] + s;
      forall j | 0 < j < |r|
        ensures !EventLess(r[j], e)
      {
        assert r[j] == s[j - 1];
        if j == 1 {
          EventLessAsymmetric(e, s[0]);
        } else {
          assert !EventLess(s[j - 1], s[0]);
          EventLessBelow(s[j - 1], e, s[0]);
        }
      }
    } else {
      var rest := InsertEvent(s[1..], e);
      InsertEventSorted(s[1..], e);
      var r := [s[0]] + rest;
      forall j | 0 < j < |r|
        ensures !EventLess(r[j], s[0])
      {
        assert r[j] in multiset(rest);
        assert r[j] in multiset(s[1..]) || r[j] == e;
        if r[j] != e {
          var k :| 0 <= k < |s[1..]| && s[1..][k] == r[j];
          assert s[k + 1] == r[j];
        }
      }
    }
  }

  /** The events table after `sort_values`: a stable sort by user, then time. */
  function SortEvents(s: seq<Event>): (r: seq<Event>)
    ensures multiset(r) == multiset(s)
    ensures SortedEvents(r)
    decreases |s|
  {
    if s == [] then []
    else
      var p := s[..|s| - 1];
      assert s == p + [s[|s| - 1]];
      InsertEventSorted(SortEvents(p), s[|s| - 1]);
      InsertEvent(SortEvents(p), s[|s| - 1])
  }

  /** Two events with the same sort key (user and time). */
  predicate SameKey(a: Event, b: Event) {
    a.user == b.user && a.createdAt == b.createdAt
  }

  /** The events of `s` that share the sort key of `k`, in table order. */
  function KeyRun(s: seq<Event>, k: Event): seq<Event>
    decreases |s|
  {
    if s == [] then []
    else KeyRun(s[..|s| - 1], k) + (if SameKey(s[|s| - 1], k) then [s[|s| - 1]] else [])
  }

  lemma {:induction false} KeyRunAppend(a: seq<Event>, b: seq<Event>, k: Event)
    ensures KeyRun(a + b, k) == KeyRun(a, k) + KeyRun(b, k)
    decreases |b|
  {
    if b == [] {
      assert a + b == a;
    } else {
      var front := b[..|b| - 1];
      assert (a + b)[..|a + b| - 1] == a + front;
      KeyRunAppend(a, front, k);
    }
  }

  lemma KeyRunCons(e: Event, s: seq<Event>, k: Event)
    ensures KeyRun([e] + s, k) == (if SameKey(e, k) then [e] else []) + KeyRun(s, k)
  {
    KeyRunAppend([e], s, k);
    assert [e][..0] == [];
  }

  lemma {:induction false} KeyRunNone(s: seq<Event>, k: Event)
    requires forall i :: 0 <= i < |s| ==> !SameKey(s[i], k)
    ensures KeyRun(s, k) == []
    decreases |s|
  {
    if s != [] {
      KeyRunNone(s[..|s| - 1], k);
    }
  }

  /** In a sorted table, nothing at or after an element that sorts after
      `e` shares `e`'s key. */
  lemma KeyRunAbove(s: seq<Event>, e: Event, k: Event)
    requires SortedEvents(s) && s != [] && EventLess(e, s[0]) && SameKey(e, k)
    ensures KeyRun(s, k) == []
  {
    forall i | 0 <= i < |s|
      ensures !SameKey(s[i], k)
    {
      if SameKey(s[i], k) {
        assert EventLess(s[i], s[0]);
        if i == 0 {
          EventLessAsymmetric(s[0], s[0]);
        }
      }
    }
    KeyRunNone(s, k);
  }

  /** `[e]` when `e` has the key of `k`, otherwise nothing. */
  function Own(e: Event, k: Event): seq<Event> {
    if SameKey(e, k) then [e] else []
  }

  lemma InsertBeforeKeyRun(s: seq<Event>, e: Event, k: Event)
    requires SortedEvents(s) && s != [] && EventLess(e, s[0])
    ensures KeyRun([e] + s, k) == KeyRun(s, k) + Own(e, k)
  {
    KeyRunCons(e, s, k);
    if SameKey(e, k) {
      KeyRunAbove(s, e, k);
    }
  }

  lemma ConsKeyRuns(x: Event, rest: seq<Event>, tail: seq<Event>, e: Event, k: Event)
    requires KeyRun(rest, k) == KeyRun(tail, k) + Own(e, k)
    ensures KeyRun([x] + rest, k) == KeyRun([x] + tail, k) + Own(e, k)
  {
    KeyRunCons(x, rest, k);
    KeyRunCons(x, tail, k);
  }

  /** Inserting `e` appends it to the events of its key. */
  lemma {:induction false} InsertEventKeyRun(s: seq<Event>, e: Event, k: Event)
    requires SortedEvents(s)
    ensures KeyRun(InsertEvent(s, e), k) == KeyRun(s, k) + Own(e, k)
    decreases |s|
  {
    if s == [] {
      KeyRunCons(e, [], k);
    } else if EventLess(e, s[0]) {
      assert InsertEvent(s, e) == [e] + s;
      InsertBeforeKeyRun(s, e, k);
    } else {
      var rest := InsertEvent(s[1..], e);
      assert InsertEvent(s, e) == [s[0]] + rest;
      assert SortedEvents(s[1..]);
      InsertEventKeyRun(s[1..], e, k);
      ConsKeyRuns(s[0], rest, s[1..], e, k);
      assert s == [s[0]] + s[1..];
    }
  }

  /** The sort is stable: events with the same user and time keep their
      table order. */
  lemma {:induction false} SortEventsStable(s: seq<Event>, k: Event)
    ensures KeyRun(SortEvents(s), k) == KeyRun(s, k)
    decreases |s|
  {
    if s != [] {
      var p := s[..|s| - 1];
      SortEventsStable(p, k);
      InsertEventKeyRun(SortEvents(p), s[|s| - 1], k);
    }
  }

  // ---------------------------------------------------------------------------
  // Per-user sentences

  /** One row of `user_sequences`: a user and the products of their events. */
  datatype UserSequence = UserSequence(user: string, products: seq<string>)

  /** The rows of user `u`, in table order (one group of `groupby`). */
  function Group(s: seq<Event>, u: string): (g: seq<Event>)
    ensures forall e :: e in g ==> e in s && e.user == u
    decreases |s|
  {
    if s == [] then []
    else
      var g := Group(s[..|s| - 1], u);
      if s[|s| - 1].user == u then g + [s[|s| - 1]] else g
  }

  /** The events of one key within a user's group are that key's events. */
  lemma {:induction false} GroupKeyRun(s: seq<Event>, u: string, k: Event)
    ensures KeyRun(Group(s, u), k) == if k.user == u then KeyRun(s, k) else []
    decreases |s|
  {
    if s != [] {
      var p := s[..|s| - 1];
      var last := s[|s| - 1];
      GroupKeyRun(p, u, k);
      if last.user == u {
        KeyRunAppend(Group(p, u), [last], k);
        assert [last][..0] == [];
      }
    }
  }

  /** Within a user's sentence, events with the same time come in table
      order: with the time order and the multiset this fixes the group. */
  lemma GroupKeepsTies(events: seq<Event>, u: string, k: Event)
    ensures KeyRun(Group(SortEvents(events), u), k) == KeyRun(Group(events, u), k)
  {
    GroupKeyRun(SortEvents(events), u, k);
    GroupKeyRun(events, u, k);
    SortEventsStable(events, k);
  }

  /** `[str(item) for item in x.tolist()]`. */
  function ProductStrings(es: seq<Event>): (r: seq<string>)
    ensures |r| == |es|
    ensures forall i :: 0 <= i < |es| ==> r[i] == Str(es[i].product)
  {
    seq(|es|, i requires 0 <= i < |es| => Str(es[i].product))
  }

  function UserColumn(s: seq<Event>): (r: seq<string>)
    ensures |r| == |s|
    ensures forall i :: 0 <= i < |s| ==> r[i] == s[i].user
  {
    seq(|s|, i requires 0 <= i < |s| => s[i].user)
  }

  /** The group keys, in the order they first occur in the table. */
  function UsersOf(s: seq<Event>): seq<string> {
    Dedup(UserColumn(s))
  }

  /** The sequences of `users` with more than one event, in that order. */
  function KeepLong(users: seq<string>, s: seq<Event>): seq<UserSequence>
    decreases |users|
  {
    if users == [] then []
    else
      var u := users[|users| - 1];
      var g := ProductStrings(Group(s, u));
      KeepLong(users[..|users| - 1], s) + (if |g| > 1 then [UserSequence(u, g)] else [])
  }

  /** `_preprocess_data`: sort, group by user, stringify, keep users with at
      least two events. */
  function Sequences(events: seq<Event>): seq<UserSequence> {
    Grouped(SortEvents(events))
  }

  /** `groupby(user)[product].apply(...)` and the length filter, on a table
      that is already sorted. */
  function Grouped(sorted: seq<Event>): seq<UserSequence> {
    KeepLong(UsersOf(sorted), sorted)
  }

  /** How often each rows of `s` occurs among the rows of user `u`. */
  lemma {:induction false} GroupMultiset(s: seq<Event>, u: string, e: Event)
    ensures multiset(Group(s, u))[e] == if e.user == u then multiset(s)[e] else 0
    decreases |s|
  {
    if s != [] {
      var p := s[..|s| - 1];
      assert s == p + [s[|s| - 1]];
      GroupMultiset(p, u, e);
    }
  }

  /** Sorting does not change which events a user has. */
  lemma GroupOfSorted(events: seq<Event>, u: string)
    ensures multiset(Group(SortEvents(events), u)) == multiset(Group(events, u))
  {
    forall e
      ensures multiset(Group(SortEvents(events), u))[e] == multiset(Group(events, u))[e]
    {
      GroupMultiset(SortEvents(events), u, e);
      GroupMultiset(events, u, e);
    }
  }

  predicate TimeOrdered(es: seq<Event>) {
    forall i, j :: 0 <= i < j < |es| ==> es[i].createdAt <= es[j].createdAt
  }

  /** In a sorted table, each user's rows are in time order. */
  lemma {:induction false} GroupTimeOrdered(s: seq<Event>, u: string)
    requires SortedEvents(s)
    ensures TimeOrdered(Group(s, u))
    decreases |s|
  {
    if s != [] {
      var p := s[..|s| - 1];
      var x := s[|s| - 1];
      assert SortedEvents(p) by {
        forall i, j | 0 <= i < j < |p| ensures !EventLess(p[j], p[i]) {
          assert p[i] == s[i] && p[j] == s[j];
        }
      }
      GroupTimeOrdered(p, u);
      if x.user == u {
        var g := Group(p, u);
        forall y | y in g
          ensures y.createdAt <= x.createdAt
        {
          var i :| 0 <= i < |p| && p[i] == y;
          assert s[i] == y;
          assert !EventLess(x, y);
          LexLessIrreflexive(u);
        }
        var r := g + [x];
        forall i, j | 0 <= i < j < |r|
          ensures r[i].createdAt <= r[j].createdAt
        {
          if j == |g| { assert r[i] in g; }
        }
      }
    }
  }

  /** The users of a sorted table, in first-seen order, ascend strictly. */
  lemma {:induction false} UsersAscending(s: seq<Event>)
    requires SortedEvents(s)
    ensures forall i, j :: 0 <= i < j < |UsersOf(s)| ==> LexLess(UsersOf(s)[i], UsersOf(s)[j])
    decreases |s|
  {
    if s != [] {
      var p := s[..|s| - 1];
      var x := s[|s| - 1];
      assert UserColumn(s) == UserColumn(p) + [x.user];
      assert UserColumn(s)[..|s| - 1] == UserColumn(p);
      assert SortedEvents(p) by {
        forall i, j | 0 <= i < j < |p| ensures !EventLess(p[j], p[i]) {
          assert p[i] == s[i] && p[j] == s[j];
        }
      }
      UsersAscending(p);
      var d := UsersOf(p);
      if x.user !in d {
        DedupSpec(UserColumn(p));
        forall v | v in d
          ensures LexLess(v, x.user)
        {
          var i :| 0 <= i < |p| && UserColumn(p)[i] == v;
          assert s[i].user == v;
          assert !EventLess(x, s[i]);
          LexLessTotal(v, x.user);
        }
        var r := d + [x.user];
        forall i, j | 0 <= i < j < |r|
          ensures LexLess(r[i], r[j])
        {
          if j == |d| { assert r[i] in d; }
        }
      }
    }
  }

  lemma {:induction false} KeepLongMembers(users: seq<string>, s: seq<Event>)
    ensures forall q :: q in KeepLong(users, s) ==>
              q.user in users && |q.products| > 1 && q.products == ProductStrings(Group(s, q.user))
    ensures forall u :: u in users && |Group(s, u)| > 1 ==> exists q :: q in KeepLong(users, s) && q.user == u
    decreases |users|
  {
    if users != [] {
      var p := users[..|users| - 1];
      KeepLongMembers(p, s);
      assert users == p + [users[|users| - 1]];
      forall u | u in users && |Group(s, u)| > 1
        ensures exists q :: q in KeepLong(users, s) && q.user == u
      {
        if u == users[|users| - 1] {
          var q := UserSequence(u, ProductStrings(Group(s, u)));
          assert q in KeepLong(users, s);
        } else {
          assert u in p;
        }
      }
    }
  }

  lemma {:induction false} KeepLongAscending(users: seq<string>, s: seq<Event>)
    requires forall i, j :: 0 <= i < j < |users| ==> LexLess(users[i], users[j])
    ensures forall i, j :: 0 <= i < j < |KeepLong(users, s)| ==>
              LexLess(KeepLong(users, s)[i].user, KeepLong(users, s)[j].user)
    decreases |users|
  {
    if users != [] {
      var p := users[..|users| - 1];
      var u := users[|users| - 1];
      KeepLongAscending(p, s);
      KeepLongMembers(p, s);
      var k := KeepLong(p, s);
      var r := KeepLong(users, s);
      forall i, j | 0 <= i < j < |r|
        ensures LexLess(r[i].user, r[j].user)
      {
        if j >= |k| {
          assert r[i] in k;
          var m :| 0 <= m < |p| && p[m] == r[i].user;
          assert users[m] == r[i].user;
        }
      }
    }
  }

  /** What `_preprocess_data` keeps: every kept user has more than one event
      and their products, stringified, in time order, taken from exactly that
      user's events; every user with two or more events is kept; users appear
      once each, in ascending order. */
  lemma SequencesSpec(events: seq<Event>)
    ensures forall q :: q in Sequences(events) ==>
              |q.products| > 1 &&
              q.products == ProductStrings(Group(SortEvents(events), q.user)) &&
              TimeOrdered(Group(SortEvents(events), q.user)) &&
              multiset(Group(SortEvents(events), q.user)) == multiset(Group(events, q.user))
    ensures forall u :: |Group(events, u)| > 1 <==> exists q :: q in Sequences(events) && q.user == u
    ensures forall i, j :: 0 <= i < j < |Sequences(events)| ==>
              LexLess(Sequences(events)[i].user, Sequences(events)[j].user)
  {
    var sorted := SortEvents(events);
    var users := UsersOf(sorted);
    KeepLongMembers(users, sorted);
    UsersAscending(sorted);
    KeepLongAscending(users, sorted);
    DedupSpec(UserColumn(sorted));
    forall u
      ensures |Group(sorted, u)| == |Group(events, u)|
      ensures multiset(Group(sorted, u)) == multiset(Group(events, u))
      ensures TimeOrdered(Group(sorted, u))
    {
      GroupOfSorted(events, u);
      GroupTimeOrdered(sorted, u);
      assert |multiset(Group(sorted, u))| == |multiset(Group(events, u))|;
    }
    forall u | |Group(events, u)| > 1
      ensures u in users
    {
      var e := Group(sorted, u)[0];
      assert e in sorted;
      var i :| 0 <= i < |sorted| && sorted[i] == e;
      assert UserColumn(sorted)[i] == u;
    }
  }

  /** Python's `random.shuffle` on one sentence: some permutation of it. */
  method ShuffleSentence(s: seq<string>) returns (r: seq<string>)
    ensures multiset(r) == multiset(s)
  {
    r :| multiset(r) == multiset(s);
  }

  function AllProducts(qs: seq<UserSequence>): (r: seq<seq<string>>)
    ensures |r| == |qs|
    ensures forall i :: 0 <= i < |qs| ==> r[i] == qs[i].products
  {
    seq(|qs|, i requires 0 <= i < |qs| => qs[i].products)
  }

  /** The sentence iterator over an events table. */
  class DataFrameSentences {
    var events: seq<Event>
    var userSequences: seq<UserSequence>
    var cachedLen: Option<nat>
    const shuffle: bool

    /** The cached length, once computed, is the number of sentences, and the
        stored sentences are the preprocessed table. */
    ghost predicate Valid()
      reads this
    {
      userSequences == Grouped(events) &&
      (cachedLen.Some? ==> cachedLen.value == |userSequences|)
    }

    constructor (eventsTable: seq<Event>, shuffle: bool)
      ensures Valid()
      ensures events == SortEvents(eventsTable)
      ensures userSequences == Sequences(eventsTable)
      ensures cachedLen == None
      ensures this.shuffle == shuffle
    {
      events := SortEvents(eventsTable);
      userSequences := Grouped(SortEvents(eventsTable));
      cachedLen := None;
      this.shuffle := shuffle;
    }

    /** `__len__`: the number of sentences, remembered after the first call. */
    method Len() returns (n: nat)
      requires Valid()
      modifies this
      ensures Valid()
      ensures n == |userSequences|
      ensures cachedLen == Some(n)
      ensures events == old(events) && userSequences == old(userSequences)
    {
      if cachedLen.Some? {
        return cachedLen.value;
      }
      cachedLen := Some(|userSequences|);
      n := |userSequences|;
    }

    /** `__iter__`: one sentence per stored row, in row order; each a copy of
        the row's products, permuted when `shuffle` is set. */
    method Sentences() returns (out: seq<seq<string>>)
      ensures |out| == |userSequences|
      ensures forall i :: 0 <= i < |out| ==> multiset(out[i]) == multiset(userSequences[i].products)
      ensures !shuffle ==> out == AllProducts(userSequences)
    {
      out := [];
      var k := 0;
      while k < |userSequences|
        invariant 0 <= k <= |userSequences|
        invariant |out| == k
        invariant forall i :: 0 <= i < k ==> multiset(out[i]) == multiset(userSequences[i].products)
        invariant !shuffle ==> out == AllProducts(userSequences)[..k]
      {
        var sentence := userSequences[k].products;
        if shuffle {
          sentence := ShuffleSentence(sentence);
        }
        out := out + [sentence];
        k := k + 1;
      }
    }

    /** `build_vocab`: each item of the iterated sentences with its number of
        occurrences; the counts add up to the number of items. */
    method BuildVocab() returns (vocab: map<string, nat>)
      ensures forall x :: x in vocab <==> x in Flatten(AllProducts(userSequences))
      ensures forall x :: x in vocab ==> vocab[x] == multiset(Flatten(AllProducts(userSequences)))[x]
      ensures SumCounts(Dedup(Flatten(AllProducts(userSequences))), vocab) == TotalLength(AllProducts(userSequences))
    {
      var sentences := Sentences();
      vocab := CountSentences(sentences);
      CountPermuted(sentences, AllProducts(userSequences));
    }
  }

  // ---------------------------------------------------------------------------
  // Counting

  function Get(m: map<string, nat>, x: string): nat {
    if x in m then m[x] else 0
  }

  /** A `Counter` after `update(s)`, one item at a time. */
  function Count(s: seq<string>): map<string, nat>
    decreases |s|
  {
    if s == [] then map[]
    else
      var m := Count(s[..|s| - 1]);
      m[s[|s| - 1] := Get(m, s[|s| - 1]) + 1]
  }

  /** `counter.update(sentence)` on a counter that has seen `seen`. */
  method CountUpdate(counter: map<string, nat>, ghost seen: seq<string>, sentence: seq<string>)
    returns (r: map<string, nat>)
    requires counter == Count(seen)
    ensures r == Count(seen + sentence)
  {
    r := counter;
    var k := 0;
    assert seen + sentence[..0] == seen;
    while k < |sentence|
      invariant 0 <= k <= |sentence|
      invariant r == Count(seen + sentence[..k])
    {
      var x := sentence[k];
      r := r[x := Get(r, x) + 1];
      ghost var t := seen + sentence[..k + 1];
      assert t[..|t| - 1] == seen + sentence[..k];
      k := k + 1;
    }
    assert sentence[..k] == sentence;
  }

  /** The counter after updating with each sentence in turn. */
  method CountSentences(sentences: seq<seq<string>>) returns (vocab: map<string, nat>)
    ensures vocab == Count(Flatten(sentences))
  {
    vocab := map[];
    var k := 0;
    while k < |sentences|
      invariant 0 <= k <= |sentences|
      invariant vocab == Count(Flatten(sentences[..k]))
    {
      assert sentences[..k + 1][..k] == sentences[..k];
      vocab := CountUpdate(vocab, Flatten(sentences[..k]), sentences[k]);
      k := k + 1;
    }
    assert sentences[..k] == sentences;
  }

  /** Permuting each sentence does not change the counts. */
  lemma CountPermuted(sentences: seq<seq<string>>, stored: seq<seq<string>>)
    requires |sentences| == |stored|
    requires forall i :: 0 <= i < |sentences| ==> multiset(sentences[i]) == multiset(stored[i])
    ensures forall x :: x in Count(Flatten(sentences)) <==> x in Flatten(stored)
    ensures forall x :: x in Count(Flatten(sentences)) ==> Count(Flatten(sentences))[x] == multiset(Flatten(stored))[x]
    ensures SumCounts(Dedup(Flatten(stored)), Count(Flatten(sentences))) == TotalLength(stored)
  {
    FlattenMultiset(sentences, stored);
    CountSameMultiset(Flatten(sentences), Flatten(stored));
    CountSpec(Flatten(stored));
    VocabTotal(stored);
  }

  /** Counting depends only on the multiset of items. */
  lemma CountSameMultiset(s: seq<string>, t: seq<string>)
    requires multiset(s) == multiset(t)
    ensures Count(s) == Count(t)
  {
    CountSpec(s);
    CountSpec(t);
    forall x | x in t ensures x in s {
      assert x in multiset(t);
    }
    forall x | x in s ensures x in t {
      assert x in multiset(s);
    }
    assert Count(s).Keys == Count(t).Keys;
  }

  /** The counter holds exactly the items of `s`, each with its multiplicity. */
  lemma {:induction false} CountSpec(s: seq<string>)
    ensures forall x :: x in Count(s) <==> x in s
    ensures forall x :: x in Count(s) ==> Count(s)[x] == multiset(s)[x]
    decreases |s|
  {
    if s != [] {
      var p := s[..|s| - 1];
      assert s == p + [s[|s| - 1]];
      CountSpec(p);
    }
  }

  lemma {:induction false} FlattenMultiset(a: seq<seq<string>>, b: seq<seq<string>>)
    requires |a| == |b|
    requires forall i :: 0 <= i < |a| ==> multiset(a[i]) == multiset(b[i])
    ensures multiset(Flatten(a)) == multiset(Flatten(b))
    decreases |a|
  {
    if a != [] {
      FlattenMultiset(a[..|a| - 1], b[..|b| - 1]);
    }
  }

  /** The sum of the counts of `keys`. */
  function SumCounts(keys: seq<string>, m: map<string, nat>): nat
    decreases |keys|
  {
    if keys == [] then 0 else SumCounts(keys[..|keys| - 1], m) + Get(m, keys[|keys| - 1])
  }

  lemma {:induction false} SumCountsBump(keys: seq<string>, m: map<string, nat>, x: string)
    requires Distinct(keys)
    ensures SumCounts(keys, m[x := Get(m, x) + 1]) == SumCounts(keys, m) + (if x in keys then 1 else 0)
    decreases |keys|
  {
    if keys != [] {
      var p := keys[..|keys| - 1];
      assert Distinct(p);
      SumCountsBump(p, m, x);
      assert keys == p + [keys[|keys| - 1]];
      if x == keys[|keys| - 1] { assert x !in p; }
    }
  }

  lemma {:induction false} SumCountsAbsent(keys: seq<string>, m: map<string, nat>, x: string, v: nat)
    requires x !in keys
    ensures SumCounts(keys, m[x := v]) == SumCounts(keys, m)
    decreases |keys|
  {
    if keys != [] {
      SumCountsAbsent(keys[..|keys| - 1], m, x, v);
    }
  }

  /** Summed over the distinct items, the counts of `s` give its length. */
  lemma {:induction false} CountTotal(s: seq<string>)
    ensures SumCounts(Dedup(s), Count(s)) == |s|
    decreases |s|
  {
    if s != [] {
      var p := s[..|s| - 1];
      var x := s[|s| - 1];
      CountTotal(p);
      DedupSpec(p);
      var m := Count(p);
      if x in Dedup(p) {
        SumCountsBump(Dedup(p), m, x);
      } else {
        SumCountsBump(Dedup(p), m, x);
        CountSpec(p);
        assert x !in p;
        assert Get(m, x) == 0;
        var d := Dedup(p) + [x];
        assert d[..|d| - 1] == Dedup(p);
      }
    }
  }

  lemma VocabTotal(ss: seq<seq<string>>)
    ensures SumCounts(Dedup(Flatten(ss)), Count(Flatten(ss))) == TotalLength(ss)
  {
    CountTotal(Flatten(ss));
  }

  // ---------------------------------------------------------------------------
  // Loading

  /** The position of the last `c` in `s`, or -1 (`str.rfind`). */
  function RFind(s: string, c: char): (i: int)
    ensures -1 <= i < |s|
    ensures i >= 0 ==> s[i] == c
    ensures forall j :: i < j < |s| ==> s[j] != c
    decreases |s|
  {
    if s == [] then -1
    else if s[|s| - 1] == c then |s| - 1
    else RFind(s[..|s| - 1], c)
  }

  /** The last non-empty `/`-separated component of a path (`Path.name`). */
  function LastComponent(parts: seq<string>): string
    decreases |parts|
  {
    if parts == [] then ""
    else if parts[|parts| - 1] != "" && parts[|parts| - 1] != "." then parts[|parts| - 1]
    else LastComponent(parts[..|parts| - 1])
  }

  function PathName(path: string): string {
    LastComponent(Split(path, '/'))
  }

  /** `Path(path).suffix`: from the last dot of the name, provided the dot is
      neither the name's first nor its last character. */
  function Suffix(path: string): (r: string)
    ensures r == "" || (|r| >= 2 && r[0] == '.' && forall j :: 1 <= j < |r| ==> r[j] != '.')
  {
    var name := PathName(path);
    var i := RFind(name, '.');
    if 0 < i < |name| - 1 then name[i..] else ""
  }

  /** The reader `load_data` chooses, with the row limit it forwards. */
  datatype Reader = ReadJsonLines(nrows: Option<int>) | ReadCsv | ReadParquet(nrows: Option<int>)

  function LoadData(path: string, nrows: Option<int>): (r: Result<Reader>)
    ensures r.Ok? <==> Suffix(path) in {".json", ".csv", ".parquet"}
    ensures r.Ok? ==> (r.value.ReadJsonLines? <==> Suffix(path) == ".json") &&
                      (r.value.ReadCsv? <==> Suffix(path) == ".csv")
    ensures r.Ok? && r.value.ReadJsonLines? ==> r.value.nrows == nrows
    ensures r.Ok? && r.value.ReadParquet? ==> r.value.nrows == nrows
    ensures r.Err? ==> r.msg == "Unsupported file format: " + Suffix(path)
  {
    var suffix := Suffix(path);
    if suffix == ".json" then Ok(ReadJsonLines(nrows))
    else if suffix == ".csv" then Ok(ReadCsv)
    else if suffix == ".parquet" then Ok(ReadParquet(nrows))
    else Err("Unsupported file format: " + suffix)
  }

  /** The suffix is taken from the file name only, from its last dot. */
  lemma SuffixOfNestedPath()
    ensures Suffix("d/e.json") == ".json"
  {
    assert "d/e.json" == "d" + ['/'] + "e.json";
    SplitNoSeparator("d", '/');
    SplitLastPiece("d", '/', "e.json");
    var i := RFind("e.json", '.');
    assert "e.json"[1] == '.';
    assert forall j :: 1 < j < 6 ==> "e.json"[j] != '.';
    assert i == 1;
  }

  /** A name whose only dot is its first character has no suffix, so a hidden
      file named `.csv` is refused. */
  lemma HiddenFileHasNoSuffix()
    ensures Suffix(".csv") == ""
    ensures LoadData(".csv", None).Err?
  {
    SplitNoSeparator(".csv", '/');
    assert RFind(".csv", '.') == 0;
  }

  /** Only the last suffix of a compressed file counts. */
  lemma LastSuffixOnly()
    ensures Suffix("a.csv.gz") == ".gz"
    ensures LoadData("a.csv.gz", None).Err?
  {
    SplitNoSeparator("a.csv.gz", '/');
    var i := RFind("a.csv.gz", '.');
    assert "a.csv.gz"[5] == '.';
    assert forall j :: 5 < j < 8 ==> "a.csv.gz"[j] != '.';
    assert i == 5;
    assert "a.csv.gz"[5..] == ".gz";
  }

  // ---------------------------------------------------------------------------
  // Column resolution

  /** The column used for `role`: the schema's name for it (or the role
      itself) when the table has it, else the common alternative when the
      table has that, else the role name. */
  function ResolveColumn(fields: map<string, string>, role: string, alternative: string, columns: set<string>): (c: string)
    ensures c in columns <==> (if role in fields then fields[role] else role) in columns || alternative in columns || role in columns
    ensures c in columns ==>
              c == (if role in fields then fields[role] else role) ||
              (c == alternative && (if role in fields then fields[role] else role) !in columns) ||
              (c == role && (if role in fields then fields[role] else role) !in columns && alternative !in columns)
  {
    var named := if role in fields then fields[role] else role;
    if named in columns then named
    else if alternative in columns then alternative
    else role
  }

  datatype EventColumns = EventColumns(user: string, product: string, createdAt: string)

  function Missing(required: seq<string>, columns: set<string>): (r: seq<string>)
    ensures forall c :: c in r <==> c in required && c !in columns
  {
    if required == [] then []
    else (if required[0] in columns then [] else [required[0]]) + Missing(required[1..], columns)
  }

  function ListRepr(names: seq<string>): string {
    Str(JArr(seq(|names|, i requires 0 <= i < |names| => JStr(names[i]))))
  }

  /** The user, product and timestamp columns of the events table, or the
      error naming the columns still missing. */
  function ResolveColumns(fields: map<string, string>, columns: set<string>): (r: Result<EventColumns>)
    ensures r.Ok? ==> r.value.user in columns && r.value.product in columns && r.value.createdAt in columns
    ensures r.Ok? ==> r.value.user == ResolveColumn(fields, "user", "user_id", columns) &&
                      r.value.product == ResolveColumn(fields, "product", "product_id", columns) &&
                      r.value.createdAt == ResolveColumn(fields, "created_at", "timestamp", columns)
    ensures r.Err? ==> StartsWith(r.msg, "Missing columns in events data: ")
  {
    var user := ResolveColumn(fields, "user", "user_id", columns);
    var product := ResolveColumn(fields, "product", "product_id", columns);
    var createdAt := ResolveColumn(fields, "created_at", "timestamp", columns);
    var missing := Missing([user, product, createdAt], columns);
    if missing != [] then
      var msg := "Missing columns in events data: " + ListRepr(missing);
      assert msg[..|"Missing columns in events data: "|] == "Missing columns in events data: ";
      Err(msg)
    else Ok(EventColumns(user, product, createdAt))
  }

  /** Resolution fails exactly when some role has neither its schema name, nor
      its alternative, nor its own name among the columns. */
  lemma ResolveColumnsFails(fields: map<string, string>, columns: set<string>)
    ensures ResolveColumns(fields, columns).Err? <==>
      !Resolvable(fields, "user", "user_id", columns) ||
      !Resolvable(fields, "product", "product_id", columns) ||
      !Resolvable(fields, "created_at", "timestamp", columns)
  {
    var user := ResolveColumn(fields, "user", "user_id", columns);
    var product := ResolveColumn(fields, "product", "product_id", columns);
    var createdAt := ResolveColumn(fields, "created_at", "timestamp", columns);
    var missing := Missing([user, product, createdAt], columns);
    if missing != [] {
      assert missing[0] in missing;
    }
    assert missing == [] <==> user in columns && product in columns && createdAt in columns;
  }

  predicate Resolvable(fields: map<string, string>, role: string, alternative: string, columns: set<string>) {
    (if role in fields then fields[role] else role) in columns || alternative in columns || role in columns
  }
}
