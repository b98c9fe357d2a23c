/** The per-user topic recency cache of the e-commerce wrapper: one Redis
    sorted set per user, keyed `user_topics_set:<user>`, whose members are
    topics scored by the `created_at` of the latest event for that topic.
    Redis itself is modelled by its ZADD, EXPIRE and ZREVRANGE semantics over
    an in-memory map. */
module RedisKv {
  import opened Common

  const KeyPrefix := "user_topics_set:"

  /** The key of a user's sorted set; the writer and the reader build it alike. */
  function UserKey(userId: string): (k: string)
    ensures StartsWith(k, KeyPrefix)
  {
    KeyPrefix + userId
  }

  /** Distinct users have distinct keys, so one user's writes never reach
      another user's set. */
  lemma UserKeyInjective(u: string, v: string)
    requires UserKey(u) == UserKey(v)
    ensures u == v
  {
    assert u == UserKey(u)[|KeyPrefix|..];
    assert v == UserKey(v)[|KeyPrefix|..];
  }

  /** A sorted set: each member has exactly one score. */
  type ZSet = map<string, int>

  /** ZADD of a single member: insert it, or replace its score. */
  function ZAdd(z: ZSet, member: string, score: int): (r: ZSet)
    ensures member in r && r[member] == score
    ensures r.Keys == z.Keys + {member}
    ensures forall m :: m in z && m != member ==> r[m] == z[m]
  {
    z[member := score]
  }

  /** Re-adding a member never duplicates it: the set grows only for a new member. */
  lemma ZAddCardinality(z: ZSet, member: string, score: int)
    ensures |ZAdd(z, member, score)| == if member in z then |z| else |z| + 1
  {
    var r := ZAdd(z, member, score);
    if member in z {
      assert r.Keys == z.Keys;
    } else {
      assert r.Keys == z.Keys + {member};
    }
  }

  /** The latest ZADD of a member decides its score. */
  lemma ZAddLastWins(z: ZSet, member: string, s1: int, s2: int)
    ensures ZAdd(ZAdd(z, member, s1), member, s2) == ZAdd(z, member, s2)
  {
  }

  /** ZREVRANGE order: `a` comes before `b` when its score is higher, or when
      the scores are equal and `a` is lexicographically greater. */
  predicate Ahead(z: ZSet, a: string, b: string)
    requires a in z && b in z
  {
    z[a] > z[b] || (z[a] == z[b] && LexLess(b, a))
  }

  lemma AheadIrreflexive(z: ZSet, a: string)
    requires a in z
    ensures !Ahead(z, a, a)
  {
    LexLessIrreflexive(a);
  }

  lemma AheadTransitive(z: ZSet, a: string, b: string, c: string)
    requires a in z && b in z && c in z
    requires Ahead(z, a, b) && Ahead(z, b, c)
    ensures Ahead(z, a, c)
  {
    if z[a] == z[b] == z[c] {
      LexLessTransitive(c, b, a);
    }
  }

  lemma AheadTotal(z: ZSet, a: string, b: string)
    requires a in z && b in z && a != b
    ensures Ahead(z, a, b) || Ahead(z, b, a)
  {
    LexLessTotal(a, b);
  }

  /** Every non-empty set of members has a first member in ZREVRANGE order. */
  lemma {:induction false} FirstExists(z: ZSet, s: set<string>)
    requires s != {} && s <= z.Keys
    ensures exists x :: x in s && forall y :: y in s && y != x ==> Ahead(z, x, y)
    decreases |s|
  {
    var a :| a in s;
    if s - {a} == {} {
      assert s == {a};
    } else {
      FirstExists(z, s - {a});
      var b :| b in s - {a} && forall y :: y in s - {a} && y != b ==> Ahead(z, b, y);
      AheadTotal(z, a, b);
      if Ahead(z, a, b) {
        forall y | y in s && y != a
          ensures Ahead(z, a, y)
        {
          if y != b {
            AheadTransitive(z, a, b, y);
          }
        }
      } else {
        assert forall y :: y in s && y != b ==> Ahead(z, b, y);
      }
    }
  }

  /** Number of members `ZREVRANGE key 0 stop` returns from a set of `card`
      members (Redis counts a negative index from the end). */
  function RangeCount(card: nat, stop: int): (n: nat)
    ensures n <= card
    ensures stop >= 0 ==> n == Min(stop + 1, card)
    ensures stop < 0 ==> n == Max(0, card + stop + 1)
  {
    var end := if stop < 0 then card + stop else stop;
    if end < 0 || card == 0 then 0 else if end >= card then card else end + 1
  }

  /** With `top >= 1` the read returns at most `top` topics; with `top == 0`
      the stop index is -1 and the whole set is returned. */
  lemma TopCount(card: nat, top: int)
    ensures top >= 1 ==> RangeCount(card, top - 1) == Min(top, card)
    ensures top == 0 ==> RangeCount(card, top - 1) == card
  {
  }

  /** `s` lists members of `z` strictly in ZREVRANGE order. */
  predicate Ranked(z: ZSet, s: seq<string>) {
    && (forall i :: 0 <= i < |s| ==> s[i] in z)
    && (forall i, j :: 0 <= i < j < |s| ==> Ahead(z, s[i], s[j]))
  }

  /** `s` is the answer of ZREVRANGE 0 stop: the first RangeCount members of `z`
      in order, with every member left out coming after all of them. */
  predicate IsRevRange(z: ZSet, stop: int, s: seq<string>) {
    && |s| == RangeCount(|z|, stop)
    && Ranked(z, s)
    && (forall m, i :: m in z && m !in s && 0 <= i < |s| ==> Ahead(z, s[i], m))
  }

  /** A ranked sequence has no duplicate member. */
  lemma RankedDistinct(z: ZSet, s: seq<string>)
    requires Ranked(z, s)
    ensures Distinct(s)
  {
    forall i, j | 0 <= i < j < |s|
      ensures s[i] != s[j]
    {
      if s[i] == s[j] {
        AheadIrreflexive(z, s[i]);
      }
    }
  }

  /** The answer of a range read is unique: the specification leaves no choice. */
  lemma {:induction false} RevRangeUnique(z: ZSet, stop: int, s: seq<string>, t: seq<string>)
    requires IsRevRange(z, stop, s) && IsRevRange(z, stop, t)
    ensures s == t
  {
    forall k | 0 <= k < |s|
      ensures s[k] == t[k]
    {
      RevRangeAt(z, stop, s, t, k);
    }
  }

  lemma {:induction false} RevRangeAt(z: ZSet, stop: int, s: seq<string>, t: seq<string>, k: nat)
    requires IsRevRange(z, stop, s) && IsRevRange(z, stop, t)
    requires k < |s|
    ensures s[k] == t[k]
    decreases k
  {
    forall j | 0 <= j < k
      ensures s[j] == t[j]
    {
      RevRangeAt(z, stop, s, t, j);
    }
    assert s[..k] == t[..k];
    if s[k] != t[k] {
      // each of the two k-th members would have to come after the other
      AheadOfOther(z, stop, s, t, k);
      AheadOfOther(z, stop, t, s, k);
      AheadTransitive(z, s[k], t[k], s[k]);
      AheadIrreflexive(z, s[k]);
    }
  }

  /** Two answers that agree before position k and differ at k: the member the
      first answer puts at k comes after the one the second answer puts there. */
  lemma AheadOfOther(z: ZSet, stop: int, s: seq<string>, t: seq<string>, k: nat)
    requires IsRevRange(z, stop, s) && IsRevRange(z, stop, t)
    requires k < |s| && k < |t| && s[..k] == t[..k] && s[k] != t[k]
    ensures Ahead(z, t[k], s[k])
  {
    var a := s[k];
    RankedDistinct(z, s);
    if a in t {
      var i :| 0 <= i < |t| && t[i] == a;
      assert i > k;
    }
  }

  /** A full range read lists every member of the set exactly once. */
  lemma FullRangeCovers(z: ZSet, s: seq<string>)
    requires IsRevRange(z, -1, s)
    ensures Distinct(s)
    ensures forall m :: m in z <==> m in s
  {
    RankedDistinct(z, s);
    DistinctCard(s);
    var elems := set x | x in s;
    assert elems <= z.Keys;
    assert |elems| == |z.Keys|;
    SubsetSameCard(elems, z.Keys);
  }

  lemma SubsetSameCard<T>(a: set<T>, b: set<T>)
    requires a <= b && |a| == |b|
    ensures a == b
  {
    assert b == a + (b - a);
    assert a * (b - a) == {};
    assert |b - a| == 0;
  }

  /** The first topic of a non-empty read carries the highest score (the most
      recent `created_at`) of the whole set. */
  lemma FirstIsMostRecent(z: ZSet, stop: int, s: seq<string>)
    requires IsRevRange(z, stop, s) && |s| > 0
    ensures forall m :: m in z ==> z[m] <= z[s[0]]
  {
    forall m | m in z
      ensures z[m] <= z[s[0]]
    {
      if m in s {
        var i :| 0 <= i < |s| && s[i] == m;
        if i > 0 {
          assert Ahead(z, s[0], s[i]);
        }
      }
    }
  }

  /** The outcome of a write: completed, or the exception it re-raises. */
  datatype WriteOutcome = Written | Raised(msg: string)

  /** Where, if anywhere, a Redis command of the write fails. */
  datatype WriteFault = NoFault | ZAddFails(zaddMsg: string) | ExpireFails(expireMsg: string)

  /** Python truthiness of the optional `ttl` argument. */
  predicate TtlGiven(ttl: Option<int>) {
    ttl.Some? && ttl.value != 0
  }

  class TopicStore {
    /** key -> sorted set */
    var sets: map<string, ZSet>
    /** key -> seconds to live set by the last EXPIRE */
    var ttls: map<string, int>

    constructor ()
      ensures sets == map[] && ttls == map[]
    {
      sets := map[];
      ttls := map[];
    }

    /** The sorted set stored under `key`, empty when the key does not exist. */
    function SetAt(key: string): (z: ZSet)
      reads this
      ensures key !in sets ==> z == map[]
    {
      if key in sets then sets[key] else map[]
    }

    /** `set_user_event_topic`: ZADD the topic with score `createdAt` into the
        user's set and, when a truthy ttl is given, EXPIRE the key. A failing
        command is re-raised; a failing EXPIRE leaves the ZADD in place. EXPIRE
        with a negative ttl deletes the key, as Redis does. */
    method SetUserEventTopic(userId: string, topic: string, createdAt: int, ttl: Option<int>, fault: WriteFault)
      returns (r: WriteOutcome)
      modifies this
      ensures var key := UserKey(userId);
        && sets - {key} == old(sets) - {key}
        && ttls - {key} == old(ttls) - {key}
      ensures var key := UserKey(userId);
        if fault.ZAddFails? then
          r == Raised(fault.zaddMsg) && sets == old(sets) && ttls == old(ttls)
        else if !TtlGiven(ttl) then
          r == Written && sets == old(sets)[key := ZAdd(old(SetAt(key)), topic, createdAt)] && ttls == old(ttls)
        else if fault.ExpireFails? then
          r == Raised(fault.expireMsg) && sets == old(sets)[key := ZAdd(old(SetAt(key)), topic, createdAt)] && ttls == old(ttls)
        else if ttl.value > 0 then
          r == Written && sets == old(sets)[key := ZAdd(old(SetAt(key)), topic, createdAt)] && ttls == old(ttls)[key := ttl.value]
        else
          r == Written && sets == old(sets) - {key} && ttls == old(ttls) - {key}
    {
      var key := UserKey(userId);
      if fault.ZAddFails? {
        return Raised(fault.zaddMsg);
      }
      sets := sets[key := ZAdd(SetAt(key), topic, createdAt)];
      if TtlGiven(ttl) {
        if fault.ExpireFails? {
          return Raised(fault.expireMsg);
        }
        if ttl.value > 0 {
          ttls := ttls[key := ttl.value];
        } else {
          sets := sets - {key};
          ttls := ttls - {key};
        }
      }
      r := Written;
    }

    /** `get_user_topics`: ZREVRANGE key 0 top-1, most recent topic first. A
        failing read is swallowed into the empty list. */
    method GetUserTopics(userId: string, top: int, fault: bool) returns (topics: seq<string>)
      ensures fault ==> topics == []
      ensures !fault ==> IsRevRange(SetAt(UserKey(userId)), top - 1, topics)
    {
      if fault {
        return [];
      }
      var z := SetAt(UserKey(userId));
      var n := RangeCount(|z|, top - 1);
      var rest := z.Keys;
      topics := [];
      while |topics| < n
        invariant |topics| <= n
        invariant rest <= z.Keys
        invariant |rest| == |z| - |topics|
        invariant Ranked(z, topics)
        invariant forall m :: m in z ==> (m in rest <==> m !in topics)
        invariant forall m, i :: m in rest && 0 <= i < |topics| ==> Ahead(z, topics[i], m)
        decreases n - |topics|
      {
        FirstExists(z, rest);
        var x :| x in rest && forall y :: y in rest && y != x ==> Ahead(z, x, y);
        topics := topics + [x];
        rest := rest - {x};
      }
    }
  }
}
