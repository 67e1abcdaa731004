/** `ttlLRU`: a bounded cache with stale-while-revalidate entries. The recency list is a sequence
    of keys, most recent first. */
module RouteCache {
  import opened Text
  import opened RecencyList

  /** `result` stands for the cached value together with its cached error. */
  datatype Entry<V> = Entry(result: V, expiresAt: int, staleAt: int)
  datatype Cache<V> = Cache(entries: map<string, Entry<V>>, order: seq<string>, max: nat)
  datatype Lookup<V> = Miss | Hit(result: V, stale: bool)

  ghost predicate Sound<V>(c: Cache<V>) {
    && c.max >= 1 && |c.order| <= c.max && Distinct(c.order)
    && (forall k :: k in c.order <==> k in c.entries)
  }

  // ---------- specification of the two operations ----------

  predicate Usable<V>(c: Cache<V>, key: string, now: int) {
    key in c.entries && now < c.entries[key].staleAt
  }

  function Answer<V>(m: map<string, Entry<V>>, key: string, now: int): Lookup<V> {
    if key in m && now < m[key].staleAt then Hit(m[key].result, now >= m[key].expiresAt) else Miss
  }

  function AfterGet<V>(c: Cache<V>, key: string, now: int): Cache<V> {
    if key !in c.entries then c
    else if Usable(c, key, now) then c.(order := [key] + Without(c.order, key))
    else c.(entries := c.entries - {key}, order := Without(c.order, key))
  }

  function AfterSet<V>(c: Cache<V>, key: string, e: Entry<V>): Cache<V>
    requires key in c.entries || |c.order| < c.max || c.order != []
  {
    if key in c.entries then c.(entries := c.entries[key := e], order := [key] + Without(c.order, key))
    else if |c.order| < c.max then c.(entries := c.entries[key := e], order := [key] + c.order)
    else
      var oldest := c.order[|c.order| - 1];
      c.(entries := c.entries[key := e] - {oldest}, order := [key] + c.order[..|c.order| - 1])
  }

  lemma GetKeepsSound<V>(c: Cache<V>, key: string, now: int)
    requires Sound(c)
    ensures Sound(AfterGet(c, key, now))
  {
    MoveToFront(c.order, key);
    WithoutDistinct(c.order, key);
  }

  lemma SetKeepsSound<V>(c: Cache<V>, key: string, e: Entry<V>)
    requires Sound(c)
    ensures Sound(AfterSet(c, key, e))
  {
    MoveToFront(c.order, key);
    var n := |c.order| - 1;
    if key !in c.entries && n + 1 >= c.max {
      assert c.order == c.order[..n] + [c.order[n]];
    }
  }

  // ---------- runs, and the plain timed map they refine ----------

  datatype Op<V> = GetOp(key: string, now: int) | SetOp(key: string, entry: Entry<V>)

  function Step<V>(c: Cache<V>, op: Op<V>): Cache<V>
    requires c.max >= 1
  {
    match op
    case GetOp(key, now) => AfterGet(c, key, now)
    case SetOp(key, e) => AfterSet(c, key, e)
  }

  function Run<V>(c: Cache<V>, ops: seq<Op<V>>): (r: Cache<V>)
    requires c.max >= 1
    ensures r.max == c.max
  {
    if ops == [] then c else Step(Run(c, ops[..|ops| - 1]), ops[|ops| - 1])
  }

  /** The reference: remember the last entry set for every key, forever. */
  function Reference<V>(m: map<string, Entry<V>>, ops: seq<Op<V>>): map<string, Entry<V>> {
    if ops == [] then m else
    var before, op := Reference(m, ops[..|ops| - 1]), ops[|ops| - 1];
    if op.SetOp? then before[op.key := op.entry] else before
  }

  lemma {:induction false} RunIsSound<V>(c: Cache<V>, ops: seq<Op<V>>)
    requires Sound(c)
    ensures Sound(Run(c, ops))
  {
    if ops != [] {
      RunIsSound(c, ops[..|ops| - 1]);
      var before := Run(c, ops[..|ops| - 1]);
      match ops[|ops| - 1]
      case GetOp(key, now) => GetKeepsSound(before, key, now);
      case SetOp(key, e) => SetKeepsSound(before, key, e);
    }
  }

  /** Whatever the cache holds is the last thing set for that key: a hit is never wrong. */
  lemma {:induction false} HitsAreCurrent<V>(c: Cache<V>, m: map<string, Entry<V>>, ops: seq<Op<V>>, k: string)
    requires Sound(c) && (k in c.entries ==> k in m && m[k] == c.entries[k])
    ensures k in Run(c, ops).entries ==> k in Reference(m, ops) && Reference(m, ops)[k] == Run(c, ops).entries[k]
  {
    if ops != [] {
      HitsAreCurrent(c, m, ops[..|ops| - 1], k);
    }
  }

  // ---------- what eviction spares ----------

  /** The key an operation moves to the front, if any: a set, or a get that hits. */
  function Touches<V>(c: Cache<V>, op: Op<V>): set<string> {
    if op.SetOp? || Usable(c, op.key, op.now) then {op.key} else {}
  }

  function Touched<V>(c: Cache<V>, ops: seq<Op<V>>): set<string>
    requires c.max >= 1
  {
    if ops == [] then {} else Touched(c, ops[..|ops| - 1]) + Touches(Run(c, ops[..|ops| - 1]), ops[|ops| - 1])
  }

  /** The keys more recent than `k`. */
  function Ahead(order: seq<string>, k: string): set<string> {
    if order == [] || order[0] == k then {} else {order[0]} + Ahead(order[1..], k)
  }

  lemma {:induction false} AheadWithout(order: seq<string>, x: string, k: string)
    requires x != k
    ensures Ahead(Without(order, x), k) == Ahead(order, k) - {x}
  {
    if order != [] {
      AheadWithout(order[1..], x, k);
    }
  }

  lemma {:induction false} AheadShorter(order: seq<string>, k: string)
    requires order != [] && k in order[..|order| - 1]
    ensures Ahead(order[..|order| - 1], k) == Ahead(order, k)
  {
    if order[0] != k {
      var init := order[..|order| - 1];
      assert init == [order[0]] + init[1..];
      assert init[1..] == order[1..][..|order[1..]| - 1];
      AheadShorter(order[1..], k);
    }
  }

  lemma {:induction false} AheadMembers(order: seq<string>, k: string)
    ensures forall x :: x in Ahead(order, k) ==> x in order && x != k
  {
    if order != [] {
      AheadMembers(order[1..], k);
      assert order == [order[0]] + order[1..];
    }
  }

  lemma {:induction false} AheadOfLast(order: seq<string>)
    requires order != [] && Distinct(order)
    ensures |Ahead(order, order[|order| - 1])| == |order| - 1
  {
    if |order| > 1 {
      AheadOfLast(order[1..]);
      AheadMembers(order[1..], order[|order| - 1]);
      assert order[0] !in order[1..];
    }
  }

  /** `k` is held with entry `e`, behind recently touched keys only. */
  ghost predicate Protected<V>(c: Cache<V>, k: string, e: Entry<V>, touched: set<string>) {
    k in c.entries && c.entries[k] == e && Ahead(c.order, k) <= touched
  }

  lemma ProtectedByGet<V>(c: Cache<V>, k: string, e: Entry<V>, touched: set<string>, op: Op<V>)
    requires Sound(c) && Protected(c, k, e, touched) && op.GetOp? && op.key != k
    ensures Protected(Step(c, op), k, e, touched + Touches(c, op))
  {
    AheadWithout(c.order, op.key, k);
    var moved := [op.key] + Without(c.order, op.key);
    assert moved[1..] == Without(c.order, op.key);
  }

  lemma AheadOfFront(order: seq<string>, x: string, k: string)
    requires x != k
    ensures Ahead([x] + order, k) == {x} + Ahead(order, k)
  {
    assert ([x] + order)[1..] == order;
  }

  lemma ProtectedBySet<V>(c: Cache<V>, k: string, e: Entry<V>, touched: set<string>, op: Op<V>)
    requires Sound(c) && Protected(c, k, e, touched) && op.SetOp? && op.key != k
    requires |touched + {op.key}| < c.max
    ensures Protected(Step(c, op), k, e, touched + Touches(c, op))
  {
    hide Ahead, Without;
    var x, order := op.key, c.order;
    if x in c.entries {
      AheadWithout(order, x, k);
      AheadOfFront(Without(order, x), x, k);
    } else if |order| < c.max {
      AheadOfFront(order, x, k);
    } else {
      NotTheOldest(c, k, x, touched);
      AheadAfterEviction(order, x, k);
    }
  }

  lemma AheadAfterEviction(order: seq<string>, x: string, k: string)
    requires order != [] && k in order && k != order[|order| - 1] && x != k
    ensures Ahead([x] + order[..|order| - 1], k) == {x} + Ahead(order, k)
  {
    var n := |order| - 1;
    assert order == order[..n] + [order[n]];
    AheadShorter(order, k);
    assert ([x] + order[..n])[1..] == order[..n];
  }

  /** A full cache whose oldest key is `k` would need `max` other recent keys. */
  lemma NotTheOldest<V>(c: Cache<V>, k: string, x: string, touched: set<string>)
    requires Sound(c) && k in c.entries && x !in c.entries && |c.order| >= c.max
    requires Ahead(c.order, k) <= touched && |touched + {x}| < c.max
    ensures k in c.order && c.order[|c.order| - 1] != k
  {
    hide Ahead;
    AheadMembers(c.order, k);
    AheadOfLast(c.order);
    FewAhead(Ahead(c.order, k), x, touched, c.max);
  }

  lemma FewAhead(ahead: set<string>, x: string, touched: set<string>, max: nat)
    requires ahead <= touched && x !in ahead && |touched + {x}| < max
    ensures |ahead| + 1 < max
  {
    Subset(ahead + {x}, touched + {x});
  }

  /** A key stays cached, unchanged, while fewer than `max` distinct other keys have been touched
      since it was. */
  lemma {:induction false} SurvivesEviction<V>(c: Cache<V>, k: string, ops: seq<Op<V>>)
    requires Sound(c) && c.order != [] && c.order[0] == k
    requires forall i :: 0 <= i < |ops| ==> ops[i].key != k
    requires |Touched(c, ops)| < c.max
    ensures k in c.entries && Protected(Run(c, ops), k, c.entries[k], Touched(c, ops))
  {
    assert c.order[0] in c.order;
    if ops != [] {
      var init, op := ops[..|ops| - 1], ops[|ops| - 1];
      Subset(Touched(c, init), Touched(c, ops));
      SurvivesEviction(c, k, init);
      RunIsSound(c, init);
      var before := Run(c, init);
      if op.GetOp? {
        ProtectedByGet(before, k, c.entries[k], Touched(c, init), op);
      } else {
        ProtectedBySet(before, k, c.entries[k], Touched(c, init), op);
      }
    }
  }

  // ---------- agreement with the timed map over whole runs ----------

  /** The other keys touched since `k` was, or ahead of it from the start. */
  function Since<V>(c: Cache<V>, ops: seq<Op<V>>, k: string): set<string>
    requires c.max >= 1
  {
    if ops == [] then Ahead(c.order, k) else
    var init, op := ops[..|ops| - 1], ops[|ops| - 1];
    var touched := Touches(Run(c, init), op);
    if k in touched then {} else Since(c, init, k) + touched
  }

  /** When `k` was last asked for. */
  function Asked<V>(ops: seq<Op<V>>, k: string): Option<int> {
    if ops == [] then None else
    var op := ops[|ops| - 1];
    if op.GetOp? && op.key == k then Some(op.now) else Asked(ops[..|ops| - 1], k)
  }

  /** Lookups of `k` do not run backwards, and never `max` other keys have been touched since `k` was. */
  ghost predicate Undisturbed<V>(c: Cache<V>, ops: seq<Op<V>>, k: string)
    requires c.max >= 1
  {
    forall n :: 0 <= n < |ops| ==> UndisturbedAt(c, ops, k, n)
  }

  ghost predicate UndisturbedAt<V>(c: Cache<V>, ops: seq<Op<V>>, k: string, n: int)
    requires c.max >= 1 && 0 <= n < |ops|
  {
    && |Since(c, ops[..n + 1], k)| < c.max
    && (ops[n].GetOp? && ops[n].key == k && Asked(ops[..n], k).Some? ==> Asked(ops[..n], k).value <= ops[n].now)
  }

  /** The cache holds the entry of the timed map, or lookups have found that entry past its stale time. */
  ghost predicate Tracks<V>(c: Cache<V>, m: map<string, Entry<V>>, k: string, since: set<string>, asked: Option<int>) {
    if k in c.entries then k in m && m[k] == c.entries[k] && Ahead(c.order, k) <= since
    else k in m ==> asked.Some? && m[k].staleAt <= asked.value
  }

  lemma AheadOfOwnFront(order: seq<string>, k: string)
    ensures Ahead([k] + order, k) == {}
  {
  }

  lemma OwnStep<V>(c: Cache<V>, m: map<string, Entry<V>>, k: string, since: set<string>, asked: Option<int>, op: Op<V>)
    requires Sound(c) && Tracks(c, m, k, since, asked) && op.key == k
    requires op.GetOp? && asked.Some? ==> asked.value <= op.now
    ensures var touched := Touches(c, op);
      Tracks(Step(c, op), if op.SetOp? then m[k := op.entry] else m, k, if k in touched then {} else since + touched,
             if op.GetOp? then Some(op.now) else asked)
  {
    hide Ahead, Without;
    AheadOfOwnFront(Without(c.order, k), k);
    AheadOfOwnFront(c.order, k);
    if op.SetOp? && k !in c.entries && |c.order| >= c.max {
      assert c.order[|c.order| - 1] in c.order;
      AheadOfOwnFront(c.order[..|c.order| - 1], k);
    }
  }

  lemma OtherStep<V>(c: Cache<V>, m: map<string, Entry<V>>, k: string, since: set<string>, asked: Option<int>,
                     op: Op<V>)
    requires Sound(c) && Tracks(c, m, k, since, asked) && op.key != k && |since + Touches(c, op)| < c.max
    ensures Tracks(Step(c, op), if op.SetOp? then m[op.key := op.entry] else m, k, since + Touches(c, op), asked)
  {
    if k in c.entries {
      hide Ahead;
      if op.GetOp? {
        ProtectedByGet(c, k, c.entries[k], since, op);
      } else {
        ProtectedBySet(c, k, c.entries[k], since, op);
      }
    }
  }

  lemma {:induction false} RunTracks<V>(c: Cache<V>, m: map<string, Entry<V>>, k: string, ops: seq<Op<V>>)
    requires Sound(c) && Tracks(c, m, k, Ahead(c.order, k), None) && Undisturbed(c, ops, k)
    ensures Tracks(Run(c, ops), Reference(m, ops), k, Since(c, ops, k), Asked(ops, k))
    decreases |ops|
  {
    if ops != [] {
      hide Tracks, Step, Sound, Touches;
      var n, init := |ops| - 1, ops[..|ops| - 1];
      UndisturbedBefore(c, ops, k);
      RunTracks(c, m, k, init);
      RunIsSound(c, init);
      assert ops[..n + 1] == ops;
      assert UndisturbedAt(c, ops, k, n);
      if ops[n].key == k {
        OwnStep(Run(c, init), Reference(m, init), k, Since(c, init, k), Asked(init, k), ops[n]);
      } else {
        OnlyOwnTouches(Run(c, init), ops[n], k);
        OtherStep(Run(c, init), Reference(m, init), k, Since(c, init, k), Asked(init, k), ops[n]);
      }
    }
  }

  lemma OnlyOwnTouches<V>(c: Cache<V>, op: Op<V>, k: string)
    ensures k in Touches(c, op) ==> op.key == k
  {
  }

  lemma UndisturbedBefore<V>(c: Cache<V>, ops: seq<Op<V>>, k: string)
    requires c.max >= 1 && ops != [] && Undisturbed(c, ops, k)
    ensures Undisturbed(c, ops[..|ops| - 1], k)
  {
    hide Since, Asked;
    var init := ops[..|ops| - 1];
    forall n | 0 <= n < |init|
      ensures UndisturbedAt(c, init, k, n)
    {
      assert UndisturbedAt(c, ops, k, n);
      assert init[..n + 1] == ops[..n + 1] && init[..n] == ops[..n];
    }
  }

  /** Whole runs: as long as never `max` other keys have been touched since `k` was, and lookups of `k`
      do not run backwards, the cache answers for `k` like the timed map: value, staleness and miss,
      also after a lookup has removed the entry as too old. */
  lemma AgreesWithTimedMap<V>(c: Cache<V>, m: map<string, Entry<V>>, k: string, ops: seq<Op<V>>, now: int)
    requires Sound(c) && (k in c.entries <==> k in m) && (k in m ==> m[k] == c.entries[k])
    requires Undisturbed(c, ops, k) && (Asked(ops, k).Some? ==> Asked(ops, k).value <= now)
    ensures Answer(Run(c, ops).entries, k, now) == Answer(Reference(m, ops), k, now)
  {
    hide Run, Reference, Since, Asked, Undisturbed;
    RunTracks(c, m, k, ops);
  }

  // ---------- the cache itself ----------

  class TtlLru<V> {
    var entries: map<string, Entry<V>>
    var order: seq<string>
    const max: nat

    ghost function View(): Cache<V>
      reads this
    {
      Cache(entries, order, max)
    }

    constructor (maxEntries: int)
      ensures Sound(View()) && entries == map[] && max == if maxEntries < 1 then 1 else maxEntries
    {
      entries, order := map[], [];
      max := if maxEntries < 1 then 1 else maxEntries;
    }

    /** A hit returns the last result set for the key, marked stale once past its expiry and never
        from the stale deadline on. */
    method Get(key: string, now: int) returns (r: Lookup<V>)
      requires Sound(View())
      modifies this
      ensures Sound(View()) && View() == AfterGet(old(View()), key, now)
      ensures r == Answer(old(entries), key, now)
      ensures r.Hit? <==> key in old(entries) && now < old(entries)[key].staleAt
      ensures r.Hit? ==> && r.result == old(entries)[key].result && (r.stale <==> now >= old(entries)[key].expiresAt)
                         && order[0] == key && entries == old(entries)
      ensures r.Miss? ==> entries == old(entries) - {key}
    {
      GetKeepsSound(View(), key, now);
      if key !in entries {
        return Miss;
      }
      var entry := entries[key];
      if !(now < entry.staleAt) {
        Remove(key);
        return Miss;
      }
      order := [key] + Without(order, key);
      return Hit(entry.result, !(now < entry.expiresAt));
    }

    method Remove(key: string)
      modifies this
      ensures entries == old(entries) - {key} && order == Without(old(order), key)
    {
      entries := entries - {key};
      order := Without(order, key);
    }

    method Set(key: string, result: V, now: int, ttl: int, staleTtl: int)
      requires Sound(View())
      modifies this
      ensures Sound(View())
      ensures View() == AfterSet(old(View()), key, Entry(result, now + ttl, now + (ttl + staleTtl)))
      ensures key in entries && entries[key] == Entry(result, now + ttl, now + ttl + staleTtl) && order[0] == key
    {
      var entry := Entry(result, now + ttl, now + (ttl + staleTtl));
      SetKeepsSound(View(), key, entry);
      if key in entries {
        entries := entries[key := entry];
        order := [key] + Without(order, key);
        return;
      }
      ghost var before := order;
      order := [key] + order;
      entries := entries[key := entry];
      while |order| > max
        invariant max <= |order| || order == [key] + before
        invariant |before| <= max
        invariant order == [key] + before || (|before| == max && View() == AfterSet(old(View()), key, entry))
        invariant order == [key] + before ==> entries == old(entries)[key := entry]
        decreases |order|
      {
        RemoveLast(before, key);
        Remove(order[|order| - 1]);
      }
    }

    lemma RemoveLast(before: seq<string>, key: string)
      requires Distinct(before) && key !in before && before != []
      ensures Without([key] + before, before[|before| - 1]) == [key] + before[..|before| - 1]
      ensures ([key] + before)[|before|] == before[|before| - 1]
    {
      var n := |before| - 1;
      WithoutLast(before);
      assert ([key] + before)[1..] == before;
      assert key != before[n];
    }
  }
}
