// The embedding cache: least recently used out first (app/ai/embedding_service.py).
module EmbedCache {
  type Vector = seq<real>

  const MAXSIZE: nat := 128

  // One call: the normalised text, and what the provider answers if asked now.
  datatype Call = Call(key: string, answer: Vector)

  // Keys in the order of their last use, oldest first, each with its vector.
  datatype Cache = Cache(order: seq<string>, vectors: map<string, Vector>)

  const EMPTY := Cache([], map[])

  // ---- Orders without duplicates ----

  function Without<K(==)>(order: seq<K>, key: K): seq<K> {
    if |order| == 0 then []
    else if order[0] == key then Without(order[1..], key)
    else [order[0]] + Without(order[1..], key)
  }

  function LastOf<K>(order: seq<K>, n: nat): seq<K> { if |order| <= n then order else order[|order| - n..] }

  predicate Distinct<K(==)>(order: seq<K>) { forall i, j | 0 <= i < j < |order| :: order[i] != order[j] }

  lemma PrependDistinct<K>(x: K, order: seq<K>)
    requires Distinct(order) && x !in order
    ensures Distinct([x] + order)
  {
  }

  lemma AppendDistinct<K>(order: seq<K>, x: K)
    requires Distinct(order) && x !in order
    ensures Distinct(order + [x])
  {
  }

  lemma TailIs<K(!new)>(order: seq<K>)
    requires Distinct(order) && |order| > 0
    ensures Distinct(order[1..]) && forall k :: k in order[1..] <==> k in order && k != order[0]
  {
    assert order == [order[0]] + order[1..];
  }

  lemma NothingDistinct<K>(order: seq<K>)
    requires |order| == 0
    ensures Distinct(order)
  {
  }

  lemma {:induction false} WithoutIs<K(!new)>(order: seq<K>, key: K)
    requires Distinct(order)
    ensures Distinct(Without(order, key)) && forall k :: k in Without(order, key) <==> k in order && k != key
    ensures |Without(order, key)| == if key in order then |order| - 1 else |order|
    ensures key !in order ==> Without(order, key) == order
  {
    hide Distinct;
    if |order| == 0 {
      NothingDistinct(order);
    } else {
      TailIs(order);
      WithoutIs(order[1..], key);
      assert order == [order[0]] + order[1..];
      if order[0] != key {
        PrependDistinct(order[0], Without(order[1..], key));
      }
    }
  }

  lemma {:induction false} WithoutJoins<K>(a: seq<K>, b: seq<K>, key: K)
    ensures Without(a + b, key) == Without(a, key) + Without(b, key)
  {
    if |a| == 0 {
      assert a + b == b;
    } else {
      WithoutJoins(a[1..], b, key);
      assert (a + b)[1..] == a[1..] + b;
    }
  }

  lemma SplitDistinct<K(!new)>(stale: seq<K>, recent: seq<K>)
    requires Distinct(stale + recent)
    ensures Distinct(stale) && Distinct(recent) && forall k :: k in recent ==> k !in stale
  {
    var all := stale + recent;
    assert forall i | 0 <= i < |stale| :: stale[i] == all[i];
    assert forall j | 0 <= j < |recent| :: recent[j] == all[|stale| + j];
  }

  lemma LastOfJoin<K>(a: seq<K>, b: seq<K>, n: nat)
    requires |b| >= n && (|b| == 0 ==> |a| == 0)
    ensures LastOf(a + b, n) == b[|b| - n..]
  {
  }

  lemma SplitLast<K(!new)>(all: seq<K>, n: nat) returns (stale: seq<K>)
    requires Distinct(all)
    ensures all == stale + LastOf(all, n) && (|LastOf(all, n)| < n ==> stale == []) && |LastOf(all, n)| <= n
    ensures Distinct(stale) && Distinct(LastOf(all, n)) && forall k :: k in LastOf(all, n) ==> k !in stale
  {
    stale := all[..|all| - |LastOf(all, n)|];
    assert all == stale + LastOf(all, n);
    SplitDistinct(stale, LastOf(all, n));
  }

  // A key among the most recent ones moves to the end of both orders alike.
  lemma HitKeepsSuffix<K(!new)>(all: seq<K>, key: K, n: nat)
    requires Distinct(all) && key in LastOf(all, n)
    ensures LastOf(Without(all, key) + [key], n) == Without(LastOf(all, n), key) + [key]
  {
    var recent := LastOf(all, n);
    var stale := SplitLast(all, n);
    hide Distinct, Without;
    WithoutJoins(stale, recent, key);
    WithoutIs(stale, key);
    WithoutIs(recent, key);
    var moved := Without(recent, key) + [key];
    assert Without(all, key) + [key] == stale + moved;
    if |recent| == n {
      LastOfJoin(stale, moved, n);
    }
  }

  lemma RoomAppends<K(!new)>(all: seq<K>, key: K, n: nat)
    requires Distinct(all) && key !in all && |all| < n
    ensures LastOf(Without(all, key) + [key], n) == all + [key]
  {
    WithoutIs(all, key);
  }

  lemma FullShifts<K(!new)>(stale: seq<K>, recent: seq<K>, key: K, n: nat)
    requires Distinct(recent) && key !in recent && |recent| == n > 0
    ensures LastOf(Without(stale + recent, key) + [key], n) == recent[1..] + [key]
  {
    hide Distinct, Without, LastOf;
    WithoutJoins(stale, recent, key);
    WithoutIs(recent, key);
    assert Without(stale, key) + recent + [key] == Without(stale, key) + (recent + [key]);
    LastOfJoin(Without(stale, key), recent + [key], n);
    assert (recent + [key])[1..] == recent[1..] + [key];
  }

  // A key from before them, or a new one, comes in and the oldest goes out.
  lemma MissShiftsSuffix<K(!new)>(all: seq<K>, key: K, n: nat)
    requires Distinct(all) && key !in LastOf(all, n) && n > 0
    ensures LastOf(Without(all, key) + [key], n)
            == if |LastOf(all, n)| == n then LastOf(all, n)[1..] + [key] else LastOf(all, n) + [key]
  {
    hide Distinct, Without, LastOf;
    var recent := LastOf(all, n);
    var stale := SplitLast(all, n);
    if |recent| == n {
      FullShifts(stale, recent, key, n);
    } else {
      assert all == recent;
      RoomAppends(all, key, n);
    }
  }

  lemma LastOfDistinct<K>(all: seq<K>, n: nat)
    requires Distinct(all)
    ensures Distinct(LastOf(all, n))
  {
  }

  // ---- One call ----

  function Touch(c: Cache, key: string): Cache { c.(order := Without(c.order, key) + [key]) }

  // An empty key is never cached; a new key may push the oldest one out.
  function After(c: Cache, call: Call): Cache {
    if call.key == "" then c
    else if call.key in c.vectors then Touch(c, call.key)
    else
      var added := Cache(c.order + [call.key], c.vectors[call.key := call.answer]);
      if |added.order| > MAXSIZE then Cache(added.order[1..], added.vectors - {added.order[0]}) else added
  }

  function Returned(c: Cache, call: Call): Vector {
    if call.key != "" && call.key in c.vectors then c.vectors[call.key] else call.answer
  }

  function AfterAll(c: Cache, calls: seq<Call>): Cache {
    if |calls| == 0 then c else After(AfterAll(c, calls[..|calls| - 1]), calls[|calls| - 1])
  }

  // ---- What a history leaves in the cache ----

  // The distinct non-empty keys of a history in the order of their last use.
  function LastUses(calls: seq<Call>): seq<string> {
    if |calls| == 0 then []
    else
      var earlier, key := LastUses(calls[..|calls| - 1]), calls[|calls| - 1].key;
      if key == "" then earlier else Without(earlier, key) + [key]
  }

  lemma {:induction false} LastUsesDistinct(calls: seq<Call>)
    ensures Distinct(LastUses(calls)) && "" !in LastUses(calls)
  {
    if |calls| == 0 {
    } else {
      var key := calls[|calls| - 1].key;
      LastUsesDistinct(calls[..|calls| - 1]);
      WithoutIs(LastUses(calls[..|calls| - 1]), key);
      AppendDistinct(Without(LastUses(calls[..|calls| - 1]), key), key);
    }
  }

  // Where a cached vector came from.
  predicate Supplied(calls: seq<Call>, key: string, v: Vector) {
    exists i | 0 <= i < |calls| :: calls[i].key == key && calls[i].answer == v
  }

  ghost predicate KeysMatch(c: Cache) { forall k :: k in c.order <==> k in c.vectors }

  predicate AllSupplied(c: Cache, calls: seq<Call>) { forall k | k in c.vectors :: Supplied(calls, k, c.vectors[k]) }

  lemma SuppliedStays(calls: seq<Call>, call: Call, key: string, v: Vector)
    requires Supplied(calls, key, v)
    ensures Supplied(calls + [call], key, v)
  {
    var i :| 0 <= i < |calls| && calls[i].key == key && calls[i].answer == v;
    assert (calls + [call])[i] == calls[i];
  }

  lemma LastSupplies(calls: seq<Call>, call: Call)
    ensures Supplied(calls + [call], call.key, call.answer)
  {
    assert (calls + [call])[|calls|] == call;
  }

  lemma AfterKeepsSupplied(c: Cache, calls: seq<Call>, call: Call)
    requires AllSupplied(c, calls)
    ensures AllSupplied(After(c, call), calls + [call])
  {
    hide Supplied, Without;
    assert Supplied(calls + [call], call.key, call.answer) by {
      LastSupplies(calls, call);
    }
    forall k | k in c.vectors
      ensures Supplied(calls + [call], k, c.vectors[k])
    {
      SuppliedStays(calls, call, k, c.vectors[k]);
    }
  }

  lemma MissKeepsMatch(c: Cache, call: Call)
    requires KeysMatch(c) && Distinct(c.order) && call.key !in c.vectors && call.key != "" && |c.order| <= MAXSIZE
    ensures KeysMatch(After(c, call))
  {
    var added := c.order + [call.key];
    hide Distinct;
    AppendDistinct(c.order, call.key);
    TailIs(added);
  }

  lemma AfterOrder(c: Cache, calls: seq<Call>, call: Call)
    requires KeysMatch(c) && c.order == LastOf(LastUses(calls), MAXSIZE)
    ensures KeysMatch(After(c, call)) && After(c, call).order == LastOf(LastUses(calls + [call]), MAXSIZE)
  {
    var all := LastUses(calls);
    LastUsesDistinct(calls);
    assert (calls + [call])[..|calls|] == calls;
    assert LastUses(calls + [call]) == if call.key == "" then all else Without(all, call.key) + [call.key];
    LastOfDistinct(all, MAXSIZE);
    WithoutIs(c.order, call.key);
    if call.key == "" {
    } else if call.key in c.vectors {
      HitKeepsSuffix(all, call.key, MAXSIZE);
    } else {
      MissShiftsSuffix(all, call.key, MAXSIZE);
      MissKeepsMatch(c, call);
    }
    hide LastUses, Without, LastOf, Distinct;
  }

  lemma NothingUsed()
    ensures LastOf(LastUses([]), MAXSIZE) == []
  {
  }

  // On every sequential history the cache holds exactly the last 128 distinct
  // non-empty keys in the order of their last use, each with a vector the
  // provider gave for a text with that key.
  lemma {:induction false} CacheHoldsMostRecent(calls: seq<Call>)
    ensures var c := AfterAll(EMPTY, calls);
            KeysMatch(c) && c.order == LastOf(LastUses(calls), MAXSIZE) && AllSupplied(c, calls)
  {
    hide After, LastUses, LastOf, Supplied;
    if |calls| == 0 {
      NothingUsed();
    } else {
      var rest := calls[..|calls| - 1];
      assert calls == rest + [calls[|calls| - 1]];
      CacheHoldsMostRecent(rest);
      AfterOrder(AfterAll(EMPTY, rest), rest, calls[|calls| - 1]);
      AfterKeepsSupplied(AfterAll(EMPTY, rest), rest, calls[|calls| - 1]);
    }
  }

  // The provider's answer depends on the normalised text alone.
  predicate Normal(calls: seq<Call>, embed: string -> Vector) {
    forall i | 0 <= i < |calls| && calls[i].key != "" :: calls[i].answer == embed(calls[i].key)
  }

  // Then a call returns what the provider would have answered, cached or not.
  lemma CacheIsInvisible(calls: seq<Call>, call: Call, embed: string -> Vector)
    requires Normal(calls + [call], embed)
    ensures Returned(AfterAll(EMPTY, calls), call) == call.answer
  {
    var c := AfterAll(EMPTY, calls);
    CacheHoldsMostRecent(calls);
    if call.key != "" && call.key in c.vectors {
      assert Supplied(calls, call.key, c.vectors[call.key]);
      var i :| 0 <= i < |calls| && calls[i].key == call.key && calls[i].answer == c.vectors[call.key];
      assert (calls + [call])[i] == calls[i] && (calls + [call])[|calls|] == call;
    }
    hide AfterAll, LastUses, LastOf, Supplied;
  }

  // ---- The service ----

  function Calls(texts: seq<string>, answers: seq<Vector>, normalise: string -> string): seq<Call>
    requires |answers| == |texts|
  {
    if |texts| == 0 then []
    else
      var last := |texts| - 1;
      Calls(texts[..last], answers[..last], normalise) + [Call(normalise(texts[last]), answers[last])]
  }

  lemma CallsGrow(texts: seq<string>, answers: seq<Vector>, k: nat, normalise: string -> string)
    requires |answers| == |texts| && k < |texts|
    ensures Calls(texts[..k + 1], answers[..k + 1], normalise)
            == Calls(texts[..k], answers[..k], normalise) + [Call(normalise(texts[k]), answers[k])]
  {
    assert texts[..k + 1][..k] == texts[..k] && answers[..k + 1][..k] == answers[..k];
  }

  lemma NormalBefore(calls: seq<Call>, call: Call, embed: string -> Vector)
    requires Normal(calls + [call], embed)
    ensures Normal(calls, embed)
  {
    assert forall i | 0 <= i < |calls| :: (calls + [call])[i] == calls[i];
  }

  class EmbeddingService {
    // text.strip().lower()
    const normalise: string -> string
    var cache: Cache
    // All calls so far.
    ghost var history: seq<Call>

    ghost predicate Valid()
      reads this
    {
      cache == AfterAll(EMPTY, history)
    }

    constructor (normalise: string -> string)
      ensures this.normalise == normalise && history == [] && Valid()
    {
      this.normalise := normalise;
      cache := EMPTY;
      history := [];
    }

    method EmbedText(text: string, answer: Vector) returns (v: Vector)
      requires Valid()
      modifies this
      ensures Valid() && history == old(history) + [Call(normalise(text), answer)]
      ensures v == Returned(old(cache), Call(normalise(text), answer))
    {
      var key := normalise(text);
      ghost var call := Call(key, answer);
      CacheHoldsMostRecent(history);
      assert (history + [call])[..|history|] == history;
      history := history + [call];
      if key == "" {
        return answer;
      }
      if key in cache.vectors {
        v := cache.vectors[key];
        cache := Cache(Without(cache.order, key) + [key], cache.vectors);
        return;
      }
      cache := Cache(cache.order + [key], cache.vectors[key := answer]);
      if |cache.order| > MAXSIZE {
        cache := Cache(cache.order[1..], cache.vectors - {cache.order[0]});
      }
      return answer;
    }

    // The batch form equals asking the provider for every text.
    method EmbedTexts(texts: seq<string>, answers: seq<Vector>, ghost embed: string -> Vector)
        returns (vectors: seq<Vector>)
      requires Valid() && |answers| == |texts|
      modifies this
      ensures Valid() && |vectors| == |texts|
      ensures history == old(history) + Calls(texts, answers, normalise)
      ensures Normal(history, embed) ==> vectors == answers
    {
      hide AfterAll, Returned, Without, LastOf, LastUses, After;
      vectors := [];
      for k := 0 to |texts|
        invariant Valid() && |vectors| == k
        invariant history == old(history) + Calls(texts[..k], answers[..k], normalise)
        invariant Normal(history, embed) ==> vectors == answers[..k]
      {
        ghost var before := history;
        var v := EmbedText(texts[k], answers[k]);
        vectors := vectors + [v];
        CallsGrow(texts, answers, k, normalise);
        if Normal(history, embed) {
          NormalBefore(before, Call(normalise(texts[k]), answers[k]), embed);
          CacheIsInvisible(before, Call(normalise(texts[k]), answers[k]), embed);
        }
      }
      assert texts[..|texts|] == texts && answers[..|answers|] == answers;
    }
  }
}
