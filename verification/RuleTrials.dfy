/** How often a call tries a rule on an aircraft, and what a first-seen match means. */
module RuleTrials {
  import opened Text
  import opened Domain
  import opened RuleIndex
  import opened Traces
  import opened WatchRules
  import opened RuleCalls

  // ---------- counting trials ----------

  function CountId(rules: seq<Compiled>, id: int): nat {
    if rules == [] then 0 else CountId(rules[..|rules| - 1], id) + if rules[|rules| - 1].rule.id == id then 1 else 0
  }

  lemma {:induction false} CountIdConcat(a: seq<Compiled>, b: seq<Compiled>, id: int)
    ensures CountId(a + b, id) == CountId(a, id) + CountId(b, id)
    decreases |b|
  {
    if b == [] {
      assert a + b == a;
    } else {
      CountIdConcat(a, b[..|b| - 1], id);
      assert (a + b)[..|a| + |b| - 1] == a + b[..|b| - 1];
    }
  }

  lemma CountIdOne(c: Compiled, id: int)
    ensures CountId([c], id) == if c.rule.id == id then 1 else 0
  {
    assert [c][..0] == [];
  }

  lemma {:induction false} CountIdIgnoresOrder(a: seq<Compiled>, b: seq<Compiled>, id: int)
    requires multiset(a) == multiset(b)
    ensures CountId(a, id) == CountId(b, id)
    decreases |a|
  {
    if a == [] {
      assert |multiset(b)| == 0;
    } else {
      var i := TakeLast(a, b);
      CountIdIgnoresOrder(a[..|a| - 1], b[..i] + b[i + 1..], id);
      CountIdWithout(b, i, id);
    }
  }

  lemma CountIdWithout(b: seq<Compiled>, i: nat, id: int)
    requires i < |b|
    ensures CountId(b, id) == CountId(b[..i] + b[i + 1..], id) + if b[i].rule.id == id then 1 else 0
  {
    hide CountId;
    assert b == b[..i] + [b[i]] + b[i + 1..];
    CountIdConcat(b[..i], b[i + 1..], id);
    CountIdConcat(b[..i] + [b[i]], b[i + 1..], id);
    CountIdConcat(b[..i], [b[i]], id);
    CountIdOne(b[i], id);
  }

  lemma {:induction false} ShowCount(
    p: Pass, mode: Mode, rules: seq<Compiled>, a: Aircraft, last: Option<int>, k: Key, r: Option<Record>)
    ensures |Show(p, mode, rules, a, last, k, r)| == if a.icao == k.icao then CountId(rules, k.ruleId) else 0
    decreases |rules|
  {
    hide Verdict, Replay;
    if rules != [] {
      ShowCount(p, mode, rules[..|rules| - 1], a, last, k, r);
    }
  }

  /** The rules of a list that have this ID. */
  function CountRules(rules: seq<WatchRule>, id: int): nat {
    if rules == [] then 0 else CountRules(rules[..|rules| - 1], id) + if rules[|rules| - 1].id == id then 1 else 0
  }

  predicate DistinctIds(rules: seq<WatchRule>) {
    forall i, j :: 0 <= i < j < |rules| ==> rules[i].id != rules[j].id
  }

  lemma {:induction false} DistinctCount(rules: seq<WatchRule>, id: int)
    requires DistinctIds(rules)
    ensures CountRules(rules, id) <= 1
    ensures CountRules(rules, id) == 1 ==> exists i :: 0 <= i < |rules| && rules[i].id == id
    decreases |rules|
  {
    if rules != [] {
      var n, init := |rules| - 1, rules[..|rules| - 1];
      DistinctCount(init, id);
      if CountRules(init, id) == 1 {
        var i :| 0 <= i < |init| && init[i].id == id;
        assert rules[i].id == id && rules[i].id != rules[n].id;
      } else if rules[n].id == id {
        assert CountRules(rules, id) == 1;
      }
    }
  }

  /** What the last rule of a list adds to the scan and to a list of its kind. */
  lemma ScanCount(rules: seq<WatchRule>, scope: FeederId, a: Aircraft, id: int)
    requires rules != []
    ensures var init, r := rules[..|rules| - 1], rules[|rules| - 1];
      CountId(Scan(rules, scope, a), id) <= CountId(Scan(init, scope, a), id)
        + if r.id == id && r.kind in {ByIcao, ByRegistration, ByCallsign, BySquawk, ByPrefix} then 1 else 0
  {
    hide CountId, Indexed;
    var init, r := rules[..|rules| - 1], rules[|rules| - 1];
    CountIdConcat(Scan(init, scope, a), [Compile(r)], id);
    CountIdOne(Compile(r), id);
    assert Scan(init, scope, a) + [] == Scan(init, scope, a);
  }

  lemma OfKindCount(rules: seq<WatchRule>, scope: FeederId, kind: Kind, id: int)
    requires rules != []
    ensures var init, r := rules[..|rules| - 1], rules[|rules| - 1];
      CountId(OfKind(rules, scope, kind), id) <= CountId(OfKind(init, scope, kind),
                                                         id) + if r.id == id && r.kind == kind then 1 else 0
  {
    hide CountId, Indexed, Compile;
    var init, r := rules[..|rules| - 1], rules[|rules| - 1];
    CountIdConcat(OfKind(init, scope, kind), [Compile(r)], id);
    CountIdOne(Compile(r), id);
    KindIsKept(r);
    assert OfKind(init, scope, kind) + [] == OfKind(init, scope, kind);
  }

  /** A rule is in at most one of the lists tried on an aircraft. */
  lemma {:induction false} ListsBound(rules: seq<WatchRule>, scope: FeederId, a: Aircraft, id: int)
    ensures CountId(Scan(rules, scope, a), id) + CountId(OfKind(rules, scope, Radius), id)
      + CountId(OfKind(rules, scope, Altitude), id) + CountId(OfKind(rules, scope, FirstSeen), id) <= CountRules(rules, id)
    decreases |rules|
  {
    if rules != [] {
      hide CountId, Scan, OfKind;
      ListsBound(rules[..|rules| - 1], scope, a, id);
      ScanCount(rules, scope, a, id);
      OfKindCount(rules, scope, Radius, id);
      OfKindCount(rules, scope, Altitude, id);
      OfKindCount(rules, scope, FirstSeen, id);
    }
  }

  lemma ListsCount(p: Pass, a: Aircraft, last: Option<int>, k: Key, r: Option<Record>)
    ensures |ShowLists(p, 4, a, last, k, r)| == if a.icao != k.icao then 0 else
      CountId(Lookups(p.index, a), k.ruleId) + CountId(Get(p.index.plain, Radius), k.ruleId)
      + CountId(Get(p.index.plain, Altitude), k.ruleId) + CountId(Get(p.index.plain, FirstSeen), k.ruleId)
  {
    hide Show, Replay, Lookups, Get, CountId;
    ListCount(p, 3, a, last, k, r);
    ListCount(p, 2, a, last, k, r);
    ListCount(p, 1, a, last, k, r);
    ListCount(p, 0, a, last, k, r);
    assert ShowLists(p, 0, a, last, k, r) == [];
  }

  lemma ListCount(p: Pass, n: nat, a: Aircraft, last: Option<int>, k: Key, r: Option<Record>)
    requires n < 4
    ensures |ShowLists(p, n + 1, a, last, k, r)| == |ShowLists(p, n, a, last, k, r)|
      + if a.icao == k.icao then CountId(RulesFor(p.index, a, n).1, k.ruleId) else 0
  {
    hide Show, Replay, RulesFor, CountId;
    var before := ShowLists(p, n, a, last, k, r);
    ShowCount(p, RulesFor(p.index, a, n).0, RulesFor(p.index, a, n).1, a, last, k, Replay(r, before));
  }

  /** No aircraft but at most one report has this ICAO. */
  predicate NamedOnce(aircraft: seq<Aircraft>, icao: string) {
    forall i, j :: 0 <= i < j < |aircraft| && aircraft[i].icao == icao ==> aircraft[j].icao != icao
  }

  lemma OneAircraftTrial(p: Pass, a: Aircraft, last: Option<int>, k: Key, r: Option<Record>, rules: seq<WatchRule>,
                         scope: FeederId)
    requires Agrees(p.index, rules, scope) && DistinctIds(rules)
    ensures |ShowLists(p, 4, a, last, k, r)| <= if a.icao == k.icao then 1 else 0
  {
    hide ShowLists, Lookups, Scan, OfKind, CountId, CountRules, Bucket, GetExact, GetPrefix, HasLength;
    ListsCount(p, a, last, k, r);
    LookupsAreTheScan(p.index, a, rules, scope);
    CountIdIgnoresOrder(Lookups(p.index, a), Scan(rules, scope, a), k.ruleId);
    ListsBound(rules, scope, a, k.ruleId);
    DistinctCount(rules, k.ruleId);
  }

  /** An evaluation tries a rule at most once on an aircraft that its snapshot names once, when rule IDs
      are distinct. */
  lemma {:induction false} OneTrial(
    p: Pass, seen: Sightings, aircraft: seq<Aircraft>, k: Key, r: Option<Record>, rules: seq<WatchRule>, scope: FeederId)
    requires Agrees(p.index, rules, scope) && DistinctIds(rules) && NamedOnce(aircraft, k.icao)
    ensures |ShowAll(p, seen, aircraft, k, r)| <= 1
    ensures |ShowAll(p, seen, aircraft, k, r)| == 1 ==> exists i :: 0 <= i < |aircraft| && aircraft[i].icao == k.icao
    decreases |aircraft|
  {
    hide ShowLists, Agrees, DistinctIds, LastSeen, Replay;
    if aircraft != [] {
      var n, init := |aircraft| - 1, aircraft[..|aircraft| - 1];
      OneTrial(p, seen, init, k, r, rules, scope);
      var before := ShowAll(p, seen, init, k, r);
      OneAircraftTrial(p, aircraft[n], LastSeen(seen, init, aircraft[n].icao, p.now), k, Replay(r, before), rules,
                       scope);
      if |before| == 1 {
        var i :| 0 <= i < |init| && init[i].icao == k.icao;
        assert aircraft[i].icao == k.icao && aircraft[n].icao != k.icao;
      } else if aircraft[n].icao == k.icao {
        assert 0 <= n < |aircraft|;
      }
    }
  }

  // ---------- metadata trials ----------

  function CountKind(rules: seq<WatchRule>, id: int, kind: Kind): nat {
    if rules == [] then 0 else
    var r := rules[|rules| - 1];
    CountKind(rules[..|rules| - 1], id, kind) + if r.id == id && r.kind == kind then 1 else 0
  }

  lemma {:induction false} KindsBound(rules: seq<WatchRule>, id: int)
    ensures CountKind(rules, id, Operator) + CountKind(rules, id, Owner) + CountKind(rules, id, AircraftType) <= CountRules(rules, id)
    decreases |rules|
  {
    if rules != [] {
      KindsBound(rules[..|rules| - 1], id);
    }
  }

  /** The rules with this ID in the first `n` buckets of a walk over the values. */
  function BucketSum(rules: seq<WatchRule>, scope: FeederId, kind: Kind, order: seq<string>, n: nat, id: int): nat
    requires n <= |order|
  {
    if n == 0 then 0 else
    BucketSum(rules, scope, kind, order, n - 1, id) + CountId(Bucket(rules, scope, kind, order[n - 1]), id)
  }

  lemma BucketNext(init: seq<WatchRule>, r: WatchRule, scope: FeederId, kind: Kind, v: string, id: int)
    ensures CountId(Bucket(init + [r], scope, kind, v), id) <= CountId(Bucket(init, scope, kind, v), id)
      + if r.id == id && r.kind == kind && Compile(r).value == v then 1 else 0
  {
    hide CountId;
    assert (init + [r])[..|init|] == init;
    CountIdConcat(Bucket(init, scope, kind, v), [Compile(r)], id);
    CountIdOne(Compile(r), id);
    assert Bucket(init, scope, kind, v) + [] == Bucket(init, scope, kind, v);
  }

  lemma {:induction false} BucketSumNext(
    init: seq<WatchRule>, r: WatchRule, scope: FeederId, kind: Kind, order: seq<string>, n: nat, id: int)
    requires n <= |order| && Distinct(order)
    ensures BucketSum(init + [r], scope, kind, order, n, id) <= BucketSum(init, scope, kind, order, n, id)
      + if r.id == id && r.kind == kind && Compile(r).value in order[..n] then 1 else 0
  {
    hide Bucket, Compile, CountId;
    if n > 0 {
      BucketSumNext(init, r, scope, kind, order, n - 1, id);
      BucketNext(init, r, scope, kind, order[n - 1], id);
      assert order[..n] == order[..n - 1] + [order[n - 1]];
      assert order[n - 1] !in order[..n - 1];
    }
  }

  lemma {:induction false} BucketSumBound(rules: seq<WatchRule>, scope: FeederId, kind: Kind, order: seq<string>,
                                          n: nat, id: int)
    requires n <= |order| && Distinct(order)
    ensures BucketSum(rules, scope, kind, order, n, id) <= CountKind(rules, id, kind)
    decreases |rules|
  {
    if rules == [] {
      EmptySum(scope, kind, order, n, id);
    } else {
      hide BucketSum, Compile;
      var init, r := rules[..|rules| - 1], rules[|rules| - 1];
      BucketSumBound(init, scope, kind, order, n, id);
      BucketSumNext(init, r, scope, kind, order, n, id);
      assert init + [r] == rules;
    }
  }

  lemma {:induction false} EmptySum(scope: FeederId, kind: Kind, order: seq<string>, n: nat, id: int)
    requires n <= |order|
    ensures BucketSum([], scope, kind, order, n, id) == 0
  {
    if n > 0 {
      EmptySum(scope, kind, order, n - 1, id);
    }
  }

  lemma {:induction false} ValuesCount(
    p: Pass, m: Metadata, n: nat, a: Aircraft, k: Key, r: Option<Record>, rules: seq<WatchRule>, scope: FeederId)
    requires n <= |m.order| && Agrees(p.index, rules, scope) && IsExact(m.kind)
    ensures |ShowValues(p, m, n, a, k, r)| <= BucketSum(rules, scope, m.kind, m.order, n, k.ruleId)
  {
    hide Show, Replay, CountId, Bucket, GetPrefix, OfKind, HasLength;
    if n > 0 {
      ValuesCount(p, m, n - 1, a, k, r, rules, scope);
      var before, value := ShowValues(p, m, n - 1, a, k, r), m.order[n - 1];
      ShowCount(p, Fixed(m.actual != "" && m.actual == value), Get(Values(p.index, m.kind), value), a, None, k,
                Replay(r, before));
      assert Get(Values(p.index, m.kind), value) == GetExact(p.index, m.kind, value);
    }
  }

  /** `EvaluateEnrichment` walks these three kinds. */
  predicate MetadataKinds(ms: seq<Metadata>) {
    |ms| == 3 && ms[0].kind == Operator && ms[1].kind == Owner && ms[2].kind == AircraftType
  }

  lemma MetadataCount(p: Pass, ms: seq<Metadata>, a: Aircraft, k: Key, r: Option<Record>, rules: seq<WatchRule>,
                      scope: FeederId)
    requires Agrees(p.index, rules, scope) && MetadataKinds(ms) && forall i :: 0 <= i < 3 ==> WalksAll(p.index, ms[i])
    ensures |ShowMetadata(p, ms, a, k, r)| <=
      CountKind(rules, k.ruleId, Operator) + CountKind(rules, k.ruleId, Owner) + CountKind(rules, k.ruleId, AircraftType)
  {
    hide ShowValues, Replay, Agrees, BucketSum, CountKind;
    assert ms[..2][..1] == ms[..1] && ms[..1][..0] == [] && ms[..2][1] == ms[1] && ms[..1][0] == ms[0];
    var first := ShowMetadata(p, ms[..1], a, k, r);
    var second := ShowMetadata(p, ms[..2], a, k, r);
    assert ShowMetadata(p, ms[..0], a, k, r) == [];
    OneWalk(p, ms[0], a, k, Replay(r, []), rules, scope);
    OneWalk(p, ms[1], a, k, Replay(r, first), rules, scope);
    OneWalk(p, ms[2], a, k, Replay(r, second), rules, scope);
  }

  /** An enrichment tries a rule at most once, when rule IDs are distinct. */
  lemma OneMetadataTrial(p: Pass, ms: seq<Metadata>, a: Aircraft, k: Key, r: Option<Record>, rules: seq<WatchRule>,
                         scope: FeederId)
    requires Agrees(p.index, rules, scope) && DistinctIds(rules)
    requires MetadataKinds(ms) && forall i :: 0 <= i < 3 ==> WalksAll(p.index, ms[i])
    ensures |ShowMetadata(p, ms, a, k, r)| <= 1
  {
    hide ShowMetadata, Agrees, CountKind, CountRules, DistinctIds, WalksAll;
    MetadataCount(p, ms, a, k, r, rules, scope);
    KindsBound(rules, k.ruleId);
    DistinctCount(rules, k.ruleId);
  }

  lemma OneWalk(p: Pass, m: Metadata, a: Aircraft, k: Key, r: Option<Record>, rules: seq<WatchRule>, scope: FeederId)
    requires Agrees(p.index, rules, scope) && IsExact(m.kind) && WalksAll(p.index, m)
    ensures |ShowValues(p, m, |m.order|, a, k, r)| <= CountKind(rules, k.ruleId, m.kind)
  {
    hide ShowValues, Agrees, BucketSum, CountKind;
    ValuesCount(p, m, |m.order|, a, k, r, rules, scope);
    BucketSumBound(rules, scope, m.kind, m.order, |m.order|, k.ruleId);
  }

  /** The call works with the index of these rules. */
  ghost predicate Uses(call: Call, rules: seq<WatchRule>, scope: FeederId) {
    && (call.Evaluation? || call.Enrichment? ==> Agrees(call.pass.index, rules, scope))
    && (call.Enrichment? ==> MetadataKinds(call.metadata))
  }

  /** A call with distinct rule IDs, whose snapshot names the aircraft at most once. */
  ghost predicate Tidy(call: Call, k: Key, rules: seq<WatchRule>, scope: FeederId) {
    Uses(call, rules, scope) && DistinctIds(rules) && (call.Evaluation? ==> NamedOnce(call.aircraft, k.icao))
  }

  /** A tidy call tries a rule on an aircraft at most once. */
  lemma TidyTriesOnce(restored: map<Key, Record>, marks: seq<Marks>, calls: seq<Call>, c: nat, k: Key,
                      rules: seq<WatchRule>, scope: FeederId)
    requires IsRun(restored, marks, calls) && c < |calls| && Tidy(calls[c], k, rules, scope)
    ensures |marks| == |calls| + 1 && |TrialsIn(restored, marks, calls, c, k)| <= 1
  {
    hide CallSpec, Agrees, DistinctIds, ShowAll, ShowMetadata, Replay, Firings, WalksAll, SweptTrace;
    KeyAt(restored, marks, calls, c, k);
    var call, r := calls[c], Replay(Find(restored, k), TraceOf(marks[c], k));
    if call.Evaluation? {
      OneTrial(call.pass, call.seen, call.aircraft, k, r, rules, scope);
    } else if call.Enrichment? {
      OneMetadataTrial(call.pass, call.metadata, call.reported, k, r, rules, scope);
    }
  }

  /** The rule lists and the scope that every call from `lo` to `j` uses are tidy. */
  ghost predicate AllTidy(calls: seq<Call>, lo: nat, j: nat, k: Key, lists: seq<seq<WatchRule>>, scope: FeederId) {
    |lists| == |calls| && forall c :: lo <= c <= j < |calls| ==> Tidy(calls[c], k, lists[c], scope)
  }

  /** A rule that states no minimum of observations, or less than one, demands two. */
  predicate Demands(rule: Compiled, minimum: nat) {
    minimum == if rule.rule.minimumObservations >= 1 then rule.rule.minimumObservations else 2
  }

  /** With snapshots that name an aircraft once and rule lists with distinct IDs, an alert takes at least
      as many different evaluations with a match as its rule demands since the last clear. */
  lemma AlertTakesEvaluations(
    restored: map<Key, Record>, marks: seq<Marks>, calls: seq<Call>, c: nat, j: nat, k: Key, f: Fingerprint, minimum: nat,
    lists: seq<seq<WatchRule>>, scope: FeederId)
    requires IsRun(restored, marks, calls) && c < j < |calls| && k in AlertsOf(calls[j])
    requires AllTidy(calls, c, j, k, lists, scope)
    requires |marks| == |calls| + 1 && KeepsRule(marks, calls, c, k, f) && ClearedIn(marks, calls, c, k)
    requires forall rule :: InIndex(calls[j].pass.index, rule) && rule.rule.id == k.ruleId ==>
      rule.fingerprint == f && Demands(rule, minimum)
    ensures MatchingCalls(marks, k, f, c + 1, j + 1) >= minimum
  {
    hide IsRun, InIndex, TrialsIn, MatchingCalls, KeepsRule, ClearedIn, Tidy;
    forall d | c <= d <= j
      ensures |TrialsIn(restored, marks, calls, d, k)| <= 1
    {
      assert Tidy(calls[d], k, lists[d], scope);
      TidyTriesOnce(restored, marks, calls, d, k, lists[d], scope);
    }
    AlertTakesCallsSinceClear(restored, marks, calls, c, j, k, f, minimum);
  }

  // ---------- a first-seen match means quiet ----------

  /** The call showed the aircraft. */
  predicate Shows(call: Call, icao: string) {
    call.Evaluation? && exists i :: 0 <= i < |call.aircraft| && call.aircraft[i].icao == icao
  }

  predicate Prunes(call: Call) {
    call.Evaluation? || call.Pruning?
  }

  /** The sighting went although it was not too old: there was no room for it. */
  predicate Crowded(call: Call, icao: string) {
    && Prunes(call) && icao in SightedBy(call) && icao !in SeenAfter(call)
    && SightedBy(call)[icao].lastSeen >= TimeOf(call) - call.bounds.retention
  }

  /** The sighting went because it was too old. */
  predicate TooOld(call: Call, t: int) {
    Prunes(call) && t < TimeOf(call) - call.bounds.retention
  }

  lemma {:induction false} SightedLast(seen: Sightings, aircraft: seq<Aircraft>, now: int, icao: string)
    ensures (exists i :: 0 <= i < |aircraft| && aircraft[i].icao == icao) ==>
      icao in SightedAll(seen, aircraft, now) && SightedAll(seen, aircraft, now)[icao].lastSeen == now
    ensures !(exists i :: 0 <= i < |aircraft| && aircraft[i].icao == icao) ==>
      (icao in SightedAll(seen, aircraft, now) <==> icao in seen)
      && (icao in seen ==> SightedAll(seen, aircraft, now)[icao] == seen[icao])
    decreases |aircraft|
  {
    if aircraft != [] {
      var n, init := |aircraft| - 1, aircraft[..|aircraft| - 1];
      SightedLast(seen, init, now, icao);
      assert forall i :: 0 <= i < |init| ==> aircraft[i] == init[i];
      if i :| 0 <= i < |init| && init[i].icao == icao {
        assert aircraft[i].icao == icao;
      } else {
        assert forall j :: 0 <= j < |aircraft| && aircraft[j].icao == icao ==> j == n;
      }
    }
  }

  /** The sighting is on record at time `t` or later. */
  predicate Known(seen: Sightings, icao: string, t: int) {
    icao in seen && seen[icao].lastSeen >= t
  }

  /** One call keeps a sighting on record, unless it is pruned. */
  lemma KnownStays(call: Call, icao: string, t: int)
    requires SeenSpec(call) && (Clocked(call) ==> t <= TimeOf(call))
    requires (Shows(call, icao) && t == TimeOf(call)) || Known(call.seen, icao, t)
    ensures Known(SeenAfter(call), icao, t) || Crowded(call, icao) || TooOld(call, t)
  {
    hide SightedAll;
    if call.Evaluation? {
      SightedLast(call.seen, call.aircraft, call.pass.now, icao);
    }
  }

  /** From the call that showed an aircraft to a later one its sighting stays on record, or some call `e`
      in between pruned it. */
  lemma {:induction false} Remembered(restored: map<Key, Record>, marks: seq<Marks>, calls: seq<Call>, i: nat, j: nat,
                                      icao: string)
    returns (e: int)
    requires IsRun(restored, marks, calls) && i < j < |calls| && Shows(calls[i], icao)
    ensures if e < 0 then Known(calls[j].seen, icao, TimeOf(calls[i]))
            else i <= e < j && (Crowded(calls[e], icao) || TooOld(calls[e], TimeOf(calls[i])))
    decreases j
  {
    hide KeySpec, Crowded, TooOld, Known, SeenSpec;
    var t, d := TimeOf(calls[i]), j - 1;
    e := -1;
    if i < d {
      e := Remembered(restored, marks, calls, i, d, icao);
    }
    if e < 0 {
      assert CallSpec(restored, marks[d], calls[d], marks[d + 1]);
      if Clocked(calls[d]) {
        CallTimes(restored, marks, calls, i, d);
      }
      KnownStays(calls[d], icao, t);
      if !Known(calls[j].seen, icao, t) {
        e := d;
      }
    }
  }

  /** The rule is tried in one list and in no other way. */
  ghost predicate OnlyList(index: ScopeIndex, id: int, list: nat) {
    forall a: Aircraft, n: nat :: n < 4 && n != list ==> CountId(RulesFor(index, a, n).1, id) == 0
  }

  ghost predicate OnlyFirstSeen(index: ScopeIndex, id: int) {
    OnlyList(index, id, 3)
  }

  /** The kind of rule in lists one to three. */
  function KindOf(list: nat): Kind {
    if list == 1 then Radius else if list == 2 then Altitude else FirstSeen
  }

  predicate KindId(rules: seq<WatchRule>, id: int, kind: Kind) {
    forall i :: 0 <= i < |rules| && rules[i].id == id ==> rules[i].kind == kind
  }

  lemma {:induction false} NotInOtherLists(rules: seq<WatchRule>, scope: FeederId, a: Aircraft, id: int, kind: Kind)
    requires KindId(rules, id, kind) && IsPlain(kind)
    ensures CountId(Scan(rules, scope, a), id) == 0
    ensures forall other :: IsPlain(other) && other != kind ==> CountId(OfKind(rules, scope, other), id) == 0
    decreases |rules|
  {
    if rules != [] {
      hide CountId, Scan, OfKind;
      NotInOtherLists(rules[..|rules| - 1], scope, a, id, kind);
      ScanCount(rules, scope, a, id);
      forall other | IsPlain(other) && other != kind
        ensures CountId(OfKind(rules, scope, other), id) == 0
      {
        OfKindCount(rules, scope, other, id);
      }
    }
  }

  /** An ID that only radius, only altitude or only first-seen rules have is tried in no other way. */
  lemma PlainRulesOnly(index: ScopeIndex, rules: seq<WatchRule>, scope: FeederId, id: int, list: nat)
    requires Agrees(index, rules, scope) && 1 <= list <= 3 && KindId(rules, id, KindOf(list))
    ensures OnlyList(index, id, list)
  {
    hide Lookups, Scan, OfKind, CountId, Bucket, GetExact, GetPrefix, HasLength, KindId, Get;
    forall a: Aircraft, n: nat | n < 4 && n != list
      ensures CountId(RulesFor(index, a, n).1, id) == 0
    {
      LookupsAreTheScan(index, a, rules, scope);
      CountIdIgnoresOrder(Lookups(index, a), Scan(rules, scope, a), id);
      NotInOtherLists(rules, scope, a, id, KindOf(list));
    }
  }

  /** Event `e` is the verdict on report `x` of the snapshot, for the record `at` it found. */
  ghost predicate IsVerdict(p: Pass, seen: Sightings, aircraft: seq<Aircraft>, k: Key, e: Event, x: nat, list: nat,
                            at: Option<Record>) {
    && x < |aircraft| && aircraft[x].icao == k.icao && e.Observe? && e.rule in RulesFor(p.index, aircraft[x], list).1
    && e.matches == Verdict(RulesFor(p.index, aircraft[x], list).0, e.rule, aircraft[x], at, p.now,
                            LastSeen(seen, aircraft[..x], k.icao, p.now))
  }

  lemma {:induction false} ShowVerdict(
    p: Pass, mode: Mode, rules: seq<Compiled>, a: Aircraft, last: Option<int>, k: Key, r: Option<Record>, n: nat)
    requires n < |Show(p, mode, rules, a, last, k, r)|
    ensures var shown := Show(p, mode, rules, a, last, k, r);
      && shown[n].Observe? && a.icao == k.icao && shown[n].rule in rules
      && shown[n].matches == Verdict(mode, shown[n].rule, a, Replay(r, shown[..n]), p.now, last)
    decreases |rules|
  {
    hide Replay, Verdict;
    var before := Show(p, mode, rules[..|rules| - 1], a, last, k, r);
    var shown := Show(p, mode, rules, a, last, k, r);
    if n < |before| {
      ShowVerdict(p, mode, rules[..|rules| - 1], a, last, k, r, n);
      assert shown[..n] == before[..n];
    } else {
      assert shown[..n] == before;
    }
  }

  /** Only one of the four lists shows anything. */
  lemma {:induction false} OnlyListShows(p: Pass, n: nat, a: Aircraft, last: Option<int>, k: Key, r: Option<Record>,
                                         list: nat)
    requires OnlyList(p.index, k.ruleId, list) && n <= 4
    ensures ShowLists(p, n, a, last, k, r) ==
      if n <= list then [] else Show(p, RulesFor(p.index, a, list).0, RulesFor(p.index, a, list).1, a, last, k, r)
  {
    hide Show, RulesFor, CountId;
    if n > 0 {
      OnlyListShows(p, n - 1, a, last, k, r, list);
      ListCount(p, n - 1, a, last, k, r);
      assert n - 1 != list ==> CountId(RulesFor(p.index, a, n - 1).1, k.ruleId) == 0;
    }
  }

  lemma ListsVerdict(p: Pass, a: Aircraft, last: Option<int>, k: Key, r: Option<Record>, n: nat, list: nat)
    requires OnlyList(p.index, k.ruleId, list) && list < 4 && n < |ShowLists(p, 4, a, last, k, r)|
    ensures var shown := ShowLists(p, 4, a, last, k, r);
      && shown[n].Observe? && a.icao == k.icao && shown[n].rule in RulesFor(p.index, a, list).1
      && shown[n].matches == Verdict(RulesFor(p.index, a, list).0, shown[n].rule, a, Replay(r, shown[..n]), p.now, last)
  {
    hide Show, ShowLists, Replay, Verdict, OnlyList, RulesFor;
    OnlyListShows(p, 4, a, last, k, r, list);
    ShowVerdict(p, RulesFor(p.index, a, list).0, RulesFor(p.index, a, list).1, a, last, k, r, n);
  }

  lemma {:induction false} AllVerdict(p: Pass, seen: Sightings, aircraft: seq<Aircraft>, k: Key, r: Option<Record>,
                                      n: nat, list: nat)
    returns (x: nat)
    requires OnlyList(p.index, k.ruleId, list) && list < 4 && n < |ShowAll(p, seen, aircraft, k, r)|
    ensures var shown := ShowAll(p, seen, aircraft, k, r);
            IsVerdict(p, seen, aircraft, k, shown[n], x, list, Replay(r, shown[..n]))
    decreases |aircraft|
  {
    hide ShowLists, Replay, Verdict, OnlyList, LastSeen, RulesFor;
    var m := |aircraft| - 1;
    var before, shown := ShowAll(p, seen, aircraft[..m], k, r), ShowAll(p, seen, aircraft, k, r);
    var last := LastSeen(seen, aircraft[..m], aircraft[m].icao, p.now);
    if n < |before| {
      x := AllVerdict(p, seen, aircraft[..m], k, r, n, list);
      assert aircraft[..m][..x] == aircraft[..x] && shown[..n] == before[..n];
    } else {
      x := m;
      var here := ShowLists(p, 4, aircraft[m], last, k, Replay(r, before));
      ListsVerdict(p, aircraft[m], last, k, Replay(r, before), n - |before|, list);
      ReplayConcat(r, before, here[..n - |before|]);
      assert shown[..n] == before + here[..n - |before|];
    }
  }

  /** Whenever a call alerts for a first-seen rule, every earlier call that showed the aircraft lies at
      least the rule's quiet time back, unless some call in between had no room for the sighting. The
      retention of sightings covers the quiet time. */
  lemma FirstSeenMeansQuiet(
    restored: map<Key, Record>, marks: seq<Marks>, calls: seq<Call>, i: nat, j: nat, k: Key, quiet: int)
    returns (e: int)
    requires IsRun(restored, marks, calls) && i < j < |calls| && Shows(calls[i], k.icao)
    requires calls[j].Evaluation? && k in calls[j].alerts && OnlyFirstSeen(calls[j].pass.index, k.ruleId)
    requires forall rule :: InIndex(calls[j].pass.index, rule) && rule.rule.id == k.ruleId ==>
      rule.rule.cooldown == quiet
    requires forall d :: i <= d < j && Prunes(calls[d]) ==> calls[d].bounds.retention >= quiet
    ensures if e < 0 then TimeOf(calls[j]) - TimeOf(calls[i]) >= quiet else i <= e < j && Crowded(calls[e], k.icao)
  {
    hide IsRun, Crowded, SightedBy, InIndex, OnlyFirstSeen, LastSeen;
    var last := FirstSeenAlert(restored, marks, calls, j, k, quiet);
    CallTimes(restored, marks, calls, i, j);
    e := Remembered(restored, marks, calls, i, j, k.icao);
    if e >= 0 && !Crowded(calls[e], k.icao) {
      CallTimes(restored, marks, calls, e, j);
      e := -1;
    }
  }

  /** An alert for a first-seen rule finds the aircraft unseen for the quiet time, or not on record. */
  lemma FirstSeenAlert(restored: map<Key, Record>, marks: seq<Marks>, calls: seq<Call>, j: nat, k: Key, quiet: int)
    returns (last: Option<int>)
    requires IsRun(restored, marks, calls) && j < |calls|
    requires calls[j].Evaluation? && k in calls[j].alerts && OnlyFirstSeen(calls[j].pass.index, k.ruleId)
    requires forall rule :: InIndex(calls[j].pass.index, rule) && rule.rule.id == k.ruleId ==>
      rule.rule.cooldown == quiet
    ensures last == if k.icao in calls[j].seen then Some(calls[j].seen[k.icao].lastSeen) else None
    ensures last.None? || (quiet > 0 && TimeOf(calls[j]) - last.value >= quiet)
  {
    hide IsRun, Chain, FiresAt, Replay, InIndex, Gains, OnlyList, ShowAll, Gained, CountId, Get;
    var n := AlertIsFiring(restored, marks, calls, j, k);
    var init, trace, call := Find(restored, k), TraceOf(marks[|calls|], k), calls[j];
    FiringMatches(init, trace, n);
    EventIsExplained(restored, marks, calls, j, k, n);
    var x := VerdictAt(restored, marks, calls, j, k, n, 3);
    last := if k.icao in call.seen then Some(call.seen[k.icao].lastSeen) else None;
  }

  lemma FiringMatches(init: Option<Record>, trace: seq<Event>, n: nat)
    requires FiresAt(init, trace, n)
    ensures n < |trace| && trace[n].Observe? && trace[n].matches
  {
  }

  /** An observation of an evaluation is one of its trials. */
  lemma TrialAt(restored: map<Key, Record>, marks: seq<Marks>, calls: seq<Call>, c: nat, k: Key,
                n: nat) returns (m: nat)
    requires IsRun(restored, marks, calls) && c < |calls| && calls[c].Evaluation? && InCall(marks, k, c, n)
    requires n < |TraceOf(marks[|calls|], k)| && TraceOf(marks[|calls|], k)[n].Observe?
    ensures |marks| == |calls| + 1
    ensures var shown := ShowAll(calls[c].pass, calls[c].seen, calls[c].aircraft, k,
                                 Replay(Find(restored, k), TraceOf(marks[c], k)));
      && m < |shown| && shown[m] == TraceOf(marks[|calls|], k)[n]
      && TraceOf(marks[|calls|], k)[..n] == TraceOf(marks[c], k) + shown[..m]
  {
    hide CallSpec, Gains, Firings, Chain, Replay, ShowAll;
    RunIsChain(restored, marks, calls);
    KeyAt(restored, marks, calls, c, k);
    ChainGrows(marks, k, c + 1, |calls|);
    TrialsComeFirst(Find(restored, k), TraceOf(marks[c], k), calls[c], TraceOf(marks[c + 1], k), k);
    m := n - |TraceOf(marks[c], k)|;
  }

  /** An observation of an evaluation, by a rule tried in one list only, is the verdict of that list on a
      report of the snapshot, for the record as it was. */
  lemma VerdictAt(restored: map<Key, Record>, marks: seq<Marks>, calls: seq<Call>, j: nat, k: Key, n: nat, list: nat)
    returns (x: nat)
    requires IsRun(restored, marks, calls) && j < |calls| && calls[j].Evaluation? && InCall(marks, k, j, n)
    requires n < |TraceOf(marks[|calls|], k)| && TraceOf(marks[|calls|], k)[n].Observe?
    requires list < 4 && OnlyList(calls[j].pass.index, k.ruleId, list)
    ensures |marks| == |calls| + 1
    ensures var trace := TraceOf(marks[|calls|], k);
            IsVerdict(calls[j].pass, calls[j].seen, calls[j].aircraft, k, trace[n], x, list, At(Find(restored, k), trace, n))
  {
    hide IsRun, Replay, OnlyList, ShowAll, IsVerdict, Chain;
    RunIsChain(restored, marks, calls);
    var init, trace, before, call := Find(restored, k), TraceOf(marks[|calls|], k), TraceOf(marks[j], k), calls[j];
    var m := TrialAt(restored, marks, calls, j, k, n);
    var shown := ShowAll(call.pass, call.seen, call.aircraft, k, Replay(init, before));
    x := AllVerdict(call.pass, call.seen, call.aircraft, k, Replay(init, before), m, list);
    ReplayConcat(init, before, shown[..m]);
  }

  // ---------- radius and altitude ----------

  lemma {:induction false} OfKindMember(rules: seq<WatchRule>, scope: FeederId, kind: Kind, c: Compiled)
    ensures c in OfKind(rules, scope, kind) <==> exists i :: 0 <= i < |rules| && HasRule(rules[i], scope, kind, c)
    decreases |rules|
  {
    hide Indexed, Compile;
    if rules != [] {
      var n, init := |rules| - 1, rules[..|rules| - 1];
      OfKindMember(init, scope, kind, c);
      assert forall i :: 0 <= i < |init| ==> rules[i] == init[i];
      if i :| 0 <= i < |init| && HasRule(init[i], scope, kind, c) {
        assert HasRule(rules[i], scope, kind, c);
      } else {
        assert forall j :: 0 <= j < |rules| && HasRule(rules[j], scope, kind, c) ==> j == n;
      }
    }
  }

  predicate HasRule(r: WatchRule, scope: FeederId, kind: Kind, c: Compiled) {
    Indexed(r, scope) && r.kind == kind && c == Compile(r)
  }

  lemma {:induction false} NoneOfKind(rules: seq<WatchRule>, id: int, kind: Kind, other: Kind)
    requires KindId(rules, id, kind) && kind != other
    ensures CountKind(rules, id, other) == 0
    decreases |rules|
  {
    if rules != [] {
      NoneOfKind(rules[..|rules| - 1], id, kind, other);
    }
  }

  /** Radius, altitude and first-seen rules are observed by evaluations only. */
  lemma PlainIsEvaluated(restored: map<Key, Record>, marks: seq<Marks>, calls: seq<Call>, j: nat, k: Key, n: nat,
                         rules: seq<WatchRule>, scope: FeederId, kind: Kind)
    requires IsRun(restored, marks, calls) && j < |calls| && InCall(marks, k, j, n)
    requires n < |TraceOf(marks[|calls|], k)| && TraceOf(marks[|calls|], k)[n].Observe?
    requires Uses(calls[j], rules, scope) && IsPlain(kind) && KindId(rules, k.ruleId, kind)
    ensures calls[j].Evaluation?
  {
    hide CallSpec, Firings, Chain, Replay, Agrees, WalksAll, ShowAll, ShowMetadata, KindId, CountKind, SweptTrace,
         InIndex;
    EventIsExplained(restored, marks, calls, j, k, n);
    if calls[j].Enrichment? {
      KeyAt(restored, marks, calls, j, k);
      MetadataCount(calls[j].pass, calls[j].metadata, calls[j].reported, k, Replay(Find(restored, k), TraceOf(marks[j], k)),
                    rules, scope);
      NoneOfKind(rules, k.ruleId, kind, Operator);
      NoneOfKind(rules, k.ruleId, kind, Owner);
      NoneOfKind(rules, k.ruleId, kind, AircraftType);
    }
  }

  /** Report `x` and rule `i` of the list are what the observation is about. */
  predicate IsAbout(call: Call, k: Key, rules: seq<WatchRule>, e: Event, x: nat, i: nat) {
    && call.Evaluation? && x < |call.aircraft| && call.aircraft[x].icao == k.icao
    && i < |rules| && rules[i].id == k.ruleId && e.Observe? && e.rule == Compile(rules[i])
  }

  /** Every observation of a radius, altitude or first-seen rule is the verdict of that kind on a report of
      the snapshot. */
  lemma PlainVerdict(restored: map<Key, Record>, marks: seq<Marks>, calls: seq<Call>, j: nat, k: Key, n: nat,
                     rules: seq<WatchRule>, scope: FeederId, list: nat)
    returns (x: nat, i: nat)
    requires IsRun(restored, marks, calls) && j < |calls| && InCall(marks, k, j, n)
    requires n < |TraceOf(marks[|calls|], k)| && TraceOf(marks[|calls|], k)[n].Observe?
    requires Uses(calls[j], rules, scope) && 1 <= list <= 3 && KindId(rules, k.ruleId, KindOf(list))
    ensures |marks| == |calls| + 1 && IsAbout(calls[j], k, rules, TraceOf(marks[|calls|], k)[n], x, i)
    ensures var trace := TraceOf(marks[|calls|], k);
            IsVerdict(calls[j].pass, calls[j].seen, calls[j].aircraft, k, trace[n], x, list, At(Find(restored, k), trace, n))
  {
    hide IsRun, Replay, OnlyList, Agrees, KindId, Chain, Verdict, LastSeen, OfKind, Compile, Indexed, Gained, InIndex, Lookups;
    PlainIsEvaluated(restored, marks, calls, j, k, n, rules, scope, KindOf(list));
    PlainRulesOnly(calls[j].pass.index, rules, scope, k.ruleId, list);
    x := VerdictAt(restored, marks, calls, j, k, n, list);
    EventIsExplained(restored, marks, calls, j, k, n);
    var c := TraceOf(marks[|calls|], k)[n].rule;
    PlainList(calls[j].pass.index, rules, scope, KindOf(list));
    OfKindMember(rules, scope, KindOf(list), c);
    i :| 0 <= i < |rules| && HasRule(rules[i], scope, KindOf(list), c);
    KindIsKept(rules[i]);
  }

  lemma PlainList(index: ScopeIndex, rules: seq<WatchRule>, scope: FeederId, kind: Kind)
    requires Agrees(index, rules, scope) && IsPlain(kind)
    ensures Get(index.plain, kind) == OfKind(rules, scope, kind)
  {
    hide Get, OfKind, GetExact, GetPrefix, HasLength, Bucket;
  }

  /** A call that alerts for a radius rule shows its aircraft inside the enter threshold. */
  lemma RadiusAlertIsInside(restored: map<Key, Record>, marks: seq<Marks>, calls: seq<Call>, j: nat, k: Key,
                            rules: seq<WatchRule>, scope: FeederId)
    returns (x: nat, i: nat)
    requires IsRun(restored, marks, calls) && j < |calls| && k in AlertsOf(calls[j])
    requires Uses(calls[j], rules, scope) && KindId(rules, k.ruleId, Radius)
    ensures calls[j].Evaluation? && x < |calls[j].aircraft| && i < |rules| && rules[i].id == k.ruleId
    ensures var a := calls[j].aircraft[x];
            a.icao == k.icao && a.hasDistance && a.distanceNM <= rules[i].enterThreshold
  {
    hide IsRun, Replay, Uses, KindId, Chain, FiresAt, LastSeen, AlertsOf;
    var n := AlertIsFiring(restored, marks, calls, j, k);
    var init, trace := Find(restored, k), TraceOf(marks[|calls|], k);
    FiringMatches(init, trace, n);
    FiringWasInactive(init, trace, n);
    x, i := PlainVerdict(restored, marks, calls, j, k, n, rules, scope, 1);
  }

  lemma FiringWasInactive(init: Option<Record>, trace: seq<Event>, n: nat)
    requires FiresAt(init, trace, n)
    ensures !(Current(At(init, trace, n), trace[n].rule) && IsActive(At(init, trace, n)))
  {
    hide Replay;
  }

  /** An observation clears the record of a radius rule only outside the exit threshold, or, where the rule
      has none, outside the enter threshold. */
  lemma RadiusClearIsOutside(restored: map<Key, Record>, marks: seq<Marks>, calls: seq<Call>, j: nat, k: Key, n: nat,
                             rules: seq<WatchRule>, scope: FeederId)
    returns (x: nat, i: nat)
    requires IsRun(restored, marks, calls) && j < |calls| && InCall(marks, k, j, n)
    requires ClearsAt(Find(restored, k), TraceOf(marks[|calls|], k), n) && TraceOf(marks[|calls|], k)[n].Observe?
    requires Uses(calls[j], rules, scope) && KindId(rules, k.ruleId, Radius)
    ensures calls[j].Evaluation? && x < |calls[j].aircraft| && i < |rules| && rules[i].id == k.ruleId
    ensures var a, r := calls[j].aircraft[x], rules[i];
            && a.icao == k.icao
            && (a.hasDistance && r.exitThreshold > 0.0 ==> a.distanceNM > r.exitThreshold)
            && (a.hasDistance && r.exitThreshold <= 0.0 && r.enterThreshold > 0.0 ==> a.distanceNM > r.enterThreshold)
  {
    hide IsRun, Replay, Uses, KindId, Chain, LastSeen, ClearsAt;
    RunIsChain(restored, marks, calls);
    var init, trace := Find(restored, k), TraceOf(marks[|calls|], k);
    ClearIsMiss(init, trace, n);
    x, i := PlainVerdict(restored, marks, calls, j, k, n, rules, scope, 1);
  }

  lemma ClearIsMiss(init: Option<Record>, trace: seq<Event>, n: nat)
    requires ClearsAt(init, trace, n) && trace[n].Observe?
    ensures n < |trace| && !trace[n].matches && Current(At(init, trace, n), trace[n].rule) && IsActive(At(init, trace, n))
  {
    hide Replay;
  }

  /** A call that alerts for an altitude rule shows its aircraft in the rule's band. */
  lemma AltitudeAlertIsInBand(restored: map<Key, Record>, marks: seq<Marks>, calls: seq<Call>, j: nat, k: Key,
                              rules: seq<WatchRule>, scope: FeederId)
    returns (x: nat, i: nat)
    requires IsRun(restored, marks, calls) && j < |calls| && k in AlertsOf(calls[j])
    requires Uses(calls[j], rules, scope) && KindId(rules, k.ruleId, Altitude)
    ensures calls[j].Evaluation? && x < |calls[j].aircraft| && i < |rules| && rules[i].id == k.ruleId
    ensures var a, r := calls[j].aircraft[x], rules[i];
            && a.icao == k.icao && a.hasAltitude && r.enterThreshold <= a.altitudeFeet as real
            && (r.exitThreshold > 0.0 ==> a.altitudeFeet as real <= r.exitThreshold)
  {
    hide IsRun, Replay, Uses, KindId, Chain, FiresAt, LastSeen, AlertsOf;
    var n := AlertIsFiring(restored, marks, calls, j, k);
    FiringMatches(Find(restored, k), TraceOf(marks[|calls|], k), n);
    x, i := PlainVerdict(restored, marks, calls, j, k, n, rules, scope, 2);
  }

  // ---------- metadata ----------

  lemma {:induction false} BucketMember(rules: seq<WatchRule>, scope: FeederId, kind: Kind, v: string, c: Compiled)
    returns (i: nat)
    requires c in Bucket(rules, scope, kind, v)
    ensures i < |rules| && HasRule(rules[i], scope, kind, c) && c.value == v
    decreases |rules|
  {
    hide Indexed, Compile;
    var n := |rules| - 1;
    if c in Bucket(rules[..n], scope, kind, v) {
      i := BucketMember(rules[..n], scope, kind, v, c);
    } else {
      i := n;
    }
  }

  lemma {:induction false} ValuesVerdict(p: Pass, m: Metadata, n: nat, a: Aircraft, k: Key, r: Option<Record>, q: nat)
    returns (v: string)
    requires n <= |m.order| && q < |ShowValues(p, m, n, a, k, r)|
    ensures var e := ShowValues(p, m, n, a, k, r)[q];
            e.Observe? && e.rule in Get(Values(p.index, m.kind), v) && (e.matches <==> m.actual != "" && m.actual == v)
  {
    hide Show, Replay, Get;
    var before := ShowValues(p, m, n - 1, a, k, r);
    if q < |before| {
      v := ValuesVerdict(p, m, n - 1, a, k, r, q);
    } else {
      v := m.order[n - 1];
      ShowVerdict(p, Fixed(m.actual != "" && m.actual == v), Get(Values(p.index, m.kind), v), a, None, k, Replay(r, before),
                  q - |before|);
    }
  }

  lemma {:induction false} MetadataVerdict(p: Pass, ms: seq<Metadata>, a: Aircraft, k: Key, r: Option<Record>, q: nat)
    returns (x: nat, v: string)
    requires q < |ShowMetadata(p, ms, a, k, r)|
    ensures var e := ShowMetadata(p, ms, a, k, r)[q];
            && x < |ms| && e.Observe? && e.rule in Get(Values(p.index, ms[x].kind), v)
            && (e.matches <==> ms[x].actual != "" && ms[x].actual == v)
    decreases |ms|
  {
    hide ShowValues, Replay, Get, Values;
    var n := |ms| - 1;
    var before := ShowMetadata(p, ms[..n], a, k, r);
    if q < |before| {
      x, v := MetadataVerdict(p, ms[..n], a, k, r, q);
    } else {
      x := n;
      v := ValuesVerdict(p, ms[n], |ms[n].order|, a, k, Replay(r, before), q - |before|);
    }
  }

  /** An observation of an enrichment is one of its trials. */
  lemma MetadataTrialAt(restored: map<Key, Record>, marks: seq<Marks>, calls: seq<Call>, j: nat, k: Key, n: nat)
    returns (q: nat)
    requires IsRun(restored, marks, calls) && j < |calls| && calls[j].Enrichment? && InCall(marks, k, j, n)
    requires n < |TraceOf(marks[|calls|], k)| && TraceOf(marks[|calls|], k)[n].Observe?
    ensures |marks| == |calls| + 1
    ensures var shown := ShowMetadata(calls[j].pass, calls[j].metadata, calls[j].reported, k,
                                      Replay(Find(restored, k), TraceOf(marks[j], k)));
      q < |shown| && shown[q] == TraceOf(marks[|calls|], k)[n]
  {
    hide CallSpec, Gains, Firings, Chain, Replay, ShowMetadata;
    RunIsChain(restored, marks, calls);
    KeyAt(restored, marks, calls, j, k);
    ChainGrows(marks, k, j + 1, |calls|);
    TrialsComeFirst(Find(restored, k), TraceOf(marks[j], k), calls[j], TraceOf(marks[j + 1], k), k);
    q := n - |TraceOf(marks[j], k)|;
  }

  lemma RuleOfValue(index: ScopeIndex, rules: seq<WatchRule>, scope: FeederId, kind: Kind, v: string, c: Compiled)
    returns (i: nat)
    requires Agrees(index, rules, scope) && IsExact(kind) && c in Get(Values(index, kind), v)
    ensures i < |rules| && rules[i].id == c.rule.id && rules[i].kind == kind && c == Compile(rules[i])
    ensures v == ToUpper(TrimSpace(rules[i].value))
  {
    hide Indexed, Bucket, GetPrefix, OfKind, HasLength, ToUpper, TrimSpace;
    assert c in GetExact(index, kind, v);
    i := BucketMember(rules, scope, kind, v, c);
  }

  /** An enrichment observes a match of a metadata rule exactly when the value reported for its kind is the
      rule's own value, trimmed and upper-cased, and not empty. */
  lemma MetadataMatchesExactly(restored: map<Key, Record>, marks: seq<Marks>, calls: seq<Call>, j: nat, k: Key, n: nat,
                               rules: seq<WatchRule>, scope: FeederId)
    returns (x: nat, i: nat)
    requires IsRun(restored, marks, calls) && j < |calls| && calls[j].Enrichment? && InCall(marks, k, j, n)
    requires n < |TraceOf(marks[|calls|], k)| && TraceOf(marks[|calls|], k)[n].Observe? && Uses(calls[j], rules, scope)
    ensures x < |calls[j].metadata| && i < |rules| && rules[i].id == k.ruleId && rules[i].kind == calls[j].metadata[x].kind
    ensures var e, actual := TraceOf(marks[|calls|], k)[n], calls[j].metadata[x].actual;
            e.rule == Compile(rules[i]) && (e.matches <==> actual != "" && actual == ToUpper(TrimSpace(rules[i].value)))
  {
    hide IsRun, Replay, ShowMetadata, InIndex, Gained, Agrees, ToUpper, TrimSpace, Compile, Get, Values;
    var call := calls[j];
    EventIsExplained(restored, marks, calls, j, k, n);
    var q := MetadataTrialAt(restored, marks, calls, j, k, n);
    var v;
    x, v := MetadataVerdict(call.pass, call.metadata, call.reported, k, Replay(Find(restored, k), TraceOf(marks[j], k)), q);
    i := RuleOfValue(call.pass.index, rules, scope, call.metadata[x].kind, v, TraceOf(marks[|calls|], k)[n].rule);
  }

  // ---------- what is found often enough is alerted ----------

  /** The evaluation matches rule `c` on report `x`, whatever the record says. */
  ghost predicate FindsAt(call: Call, k: Key, c: Compiled, x: nat, list: nat) {
    && call.Evaluation? && x < |call.aircraft| && list < 4 && k == Key(c.rule.id, call.aircraft[x].icao)
    && c in RulesFor(call.pass.index, call.aircraft[x], list).1
    && forall r :: Verdict(RulesFor(call.pass.index, call.aircraft[x], list).0, c, call.aircraft[x], r, call.pass.now,
                           LastSeen(call.seen, call.aircraft[..x], call.aircraft[x].icao, call.pass.now))
  }

  ghost predicate Finds(call: Call, k: Key, c: Compiled) {
    exists x: nat, list: nat :: FindsAt(call, k, c, x, list)
  }

  /** An identity rule is found on an aircraft that the scan of all rules matches. */
  lemma ScanFinds(call: Call, rules: seq<WatchRule>, scope: FeederId, c: Compiled, x: nat)
    requires call.Evaluation? && x < |call.aircraft| && Agrees(call.pass.index, rules, scope)
    requires c in Scan(rules, scope, call.aircraft[x])
    ensures Finds(call, Key(c.rule.id, call.aircraft[x].icao), c)
  {
    hide Agrees, Scan, Lookups, LastSeen;
    LookupsAreTheScan(call.pass.index, call.aircraft[x], rules, scope);
    assert c in multiset(Lookups(call.pass.index, call.aircraft[x]));
    assert FindsAt(call, Key(c.rule.id, call.aircraft[x].icao), c, x, 0);
  }

  /** A radius rule is found on an aircraft inside both of its thresholds. */
  lemma RadiusFinds(call: Call, rules: seq<WatchRule>, scope: FeederId, i: nat, x: nat)
    requires call.Evaluation? && x < |call.aircraft| && Agrees(call.pass.index, rules, scope)
    requires i < |rules| && Indexed(rules[i], scope) && rules[i].kind == Radius
    requires var a, r := call.aircraft[x], rules[i];
             && a.hasDistance && a.distanceNM <= r.enterThreshold && r.enterThreshold > 0.0
             && (r.exitThreshold > 0.0 ==> a.distanceNM <= r.exitThreshold)
    ensures Finds(call, Key(rules[i].id, call.aircraft[x].icao), Compile(rules[i]))
  {
    hide Agrees, LastSeen, OfKind, Indexed, Lookups;
    var c := Compile(rules[i]);
    OfKindMember(rules, scope, Radius, c);
    assert HasRule(rules[i], scope, Radius, c);
    PlainList(call.pass.index, rules, scope, Radius);
    assert FindsAt(call, Key(rules[i].id, call.aircraft[x].icao), c, x, 1);
  }

  /** An altitude rule is found on an aircraft in its band. */
  lemma AltitudeFinds(call: Call, rules: seq<WatchRule>, scope: FeederId, i: nat, x: nat)
    requires call.Evaluation? && x < |call.aircraft| && Agrees(call.pass.index, rules, scope)
    requires i < |rules| && Indexed(rules[i], scope) && rules[i].kind == Altitude
    requires var a, r := call.aircraft[x], rules[i];
             && a.hasAltitude && r.enterThreshold <= a.altitudeFeet as real
             && (r.exitThreshold > 0.0 ==> a.altitudeFeet as real <= r.exitThreshold)
    ensures Finds(call, Key(rules[i].id, call.aircraft[x].icao), Compile(rules[i]))
  {
    hide Agrees, LastSeen, OfKind, Indexed, Lookups;
    var c := Compile(rules[i]);
    OfKindMember(rules, scope, Altitude, c);
    assert HasRule(rules[i], scope, Altitude, c);
    PlainList(call.pass.index, rules, scope, Altitude);
    assert FindsAt(call, Key(rules[i].id, call.aircraft[x].icao), c, x, 2);
  }

  /** A first-seen rule is found on an aircraft that is not on record, or was last seen its quiet time ago. */
  lemma FirstSeenFinds(call: Call, rules: seq<WatchRule>, scope: FeederId, i: nat, x: nat)
    requires call.Evaluation? && x < |call.aircraft| && Agrees(call.pass.index, rules, scope)
    requires i < |rules| && Indexed(rules[i], scope) && rules[i].kind == FirstSeen
    requires NamedOnce(call.aircraft, call.aircraft[x].icao)
    requires var icao := call.aircraft[x].icao;
             icao in call.seen ==> 0 < rules[i].cooldown <= call.pass.now - call.seen[icao].lastSeen
    ensures Finds(call, Key(rules[i].id, call.aircraft[x].icao), Compile(rules[i]))
  {
    hide Agrees, OfKind, Indexed, Lookups;
    var c := Compile(rules[i]);
    OfKindMember(rules, scope, FirstSeen, c);
    assert HasRule(rules[i], scope, FirstSeen, c);
    PlainList(call.pass.index, rules, scope, FirstSeen);
    assert FindsAt(call, Key(rules[i].id, call.aircraft[x].icao), c, x, 3);
  }

  /** The match is all that a call with one trial shows the record; it is not swept, and may be pruned. */
  lemma FoundGains(init: Option<Record>, before: seq<Event>, call: Call, after: seq<Event>, k: Key, c: Compiled)
    requires before <= after && Gains(init, before, call, after, k) && Finds(call, k, c)
    requires |Trials(init, before, call, k)| <= 1
    ensures call.Evaluation?
    ensures var seenMatch := Observe(call.pass.now, call.pass.sequence, c, true);
            MaybePruned(before + [seenMatch], after, AgePrune(call.pass.now), CapPrune)
  {
    hide ShowAll, Replay, Verdict, RulesFor, LastSeen, VisibleIcaos;
    var x: nat, list: nat :| FindsAt(call, k, c, x, list);
    var r := Replay(init, before);
    var at := ShowAllContains(call.pass, call.seen, call.aircraft, x, r, list, c);
    var seenMatch := Observe(call.pass.now, call.pass.sequence, c, true);
    var shown := ShowAll(call.pass, call.seen, call.aircraft, k, r);
    assert shown == [seenMatch];
    SeenByMatch(init, before, seenMatch);
    assert before + shown + [] == before + [seenMatch];
  }

  lemma SeenByMatch(init: Option<Record>, before: seq<Event>, e: Event)
    requires e.Observe? && e.matches
    ensures var r := Replay(init, before + [e]);
            r.Some? && r.value.seenSequence == e.sequence && r.value.lastSeenAt == Some(e.now)
  {
    ReplayNext(init, before, e);
  }

  lemma FoundIsUninterrupted(init: Option<Record>, before: seq<Event>, after: seq<Event>, trace: seq<Event>, e: Event,
                             n: nat)
    requires e.Observe? && e.matches && MaybePruned(before + [e], after, AgePrune(e.now), CapPrune) && after <= trace
    requires |before| <= n < |after| && CapPrune !in after[|before|..]
    ensures Uninterrupted(init, trace, n, e.rule.fingerprint, Minimum(e.rule))
    ensures n == |before| ==> trace[n] == e
    ensures n > |before| ==> trace[n].AgePrune?
  {
    hide Replay;
    assert after[n] in after[|before|..];
    if n > |before| {
      SeenByMatch(init, before, e);
      assert trace[..n] == before + [e];
    }
  }

  /** A tidy evaluation that finds the rule adds its match to the trace and does not interrupt it. */
  lemma FoundInCall(restored: map<Key, Record>, marks: seq<Marks>, calls: seq<Call>, d: nat, k: Key, c: Compiled,
                    rules: seq<WatchRule>, scope: FeederId, n: nat)
    requires IsRun(restored, marks, calls) && d < |calls| && Tidy(calls[d], k, rules, scope) && Finds(calls[d], k, c)
    requires |marks| == |calls| + 1 && CapPrune !in Gained(marks[d], marks[d + 1], k)
    ensures MatchedIn(TraceOf(marks[d], k), TraceOf(marks[d + 1], k), c.fingerprint)
    ensures InCall(marks, k, d, n) ==>
      var trace := TraceOf(marks[|calls|], k);
      && Uninterrupted(Find(restored, k), trace, n, c.fingerprint, Minimum(c))
      && (trace[n].Observe? ==> trace[n].rule == c)
  {
    hide CallSpec, Gains, Firings, Tidy, Trials, Finds, Uninterrupted, Chain, Minimum;
    KeyAt(restored, marks, calls, d, k);
    TidyTriesOnce(restored, marks, calls, d, k, rules, scope);
    RunIsChain(restored, marks, calls);
    ChainGrows(marks, k, d + 1, |calls|);
    var init, before, after := Find(restored, k), TraceOf(marks[d], k), TraceOf(marks[d + 1], k);
    FoundGains(init, before, calls[d], after, k, c);
    var e := Observe(calls[d].pass.now, calls[d].pass.sequence, c, true);
    assert IsMatch(after[|before|], c.fingerprint);
    if InCall(marks, k, d, n) {
      FoundIsUninterrupted(init, before, after, TraceOf(marks[|calls|], k), e, n);
    }
  }

  lemma {:induction false} AllMatching(marks: seq<Marks>, k: Key, f: Fingerprint, lo: nat, hi: nat)
    requires lo <= hi < |marks|
    requires forall d :: lo <= d < hi ==> MatchedIn(TraceOf(marks[d], k), TraceOf(marks[d + 1], k), f)
    ensures MatchingCalls(marks, k, f, lo, hi) == hi - lo
    decreases hi
  {
    hide MatchedIn;
    if lo < hi {
      AllMatching(marks, k, f, lo, hi - 1);
      assert MatchedIn(TraceOf(marks[hi - 1], k), TraceOf(marks[hi - 1 + 1], k), f);
    }
  }

  /** A rule that as many consecutive evaluations find as it demands is alerted by one of them; unless its
      record was active before, or an earlier alert is less than the cooldown back. */
  lemma FoundIsAlerted(restored: map<Key, Record>, marks: seq<Marks>, calls: seq<Call>, lo: nat, k: Key, c: Compiled,
                       minimum: nat, lists: seq<seq<WatchRule>>, scope: FeederId)
    returns (d: nat)
    requires IsRun(restored, marks, calls) && |marks| == |calls| + 1 && Demands(c, minimum) && lo + minimum <= |calls|
    requires AllTidy(calls, lo, lo + minimum - 1, k, lists, scope)
    requires forall d :: lo <= d < lo + minimum ==>
      Finds(calls[d], k, c) && CapPrune !in Gained(marks[d], marks[d + 1], k)
    ensures lo <= d < lo + minimum && calls[d].Evaluation?
    ensures || k in calls[d].alerts
            || ActiveFor(Replay(Find(restored, k), TraceOf(marks[lo], k)), c.fingerprint)
            || Cooling(restored, calls, lo, k, calls[d].pass.now, c.rule.cooldown)
  {
    hide IsRun, Chain, Replay, Tidy, Finds, Gained, MatchingCalls, Uninterrupted, MatchedIn, ActiveFor, Cooling;
    var hi, f, trace := lo + minimum, c.fingerprint, TraceOf(marks[|calls|], k);
    RunIsChain(restored, marks, calls);
    forall n | |TraceOf(marks[lo], k)| <= n < |TraceOf(marks[hi], k)| && n < |trace|
      ensures Uninterrupted(Find(restored, k), trace, n, f, minimum) && (trace[n].Observe? ==> trace[n].rule == c)
    {
      var d := CallOf(marks, k, lo, hi, n);
      assert Tidy(calls[d], k, lists[d], scope);
      FoundInCall(restored, marks, calls, d, k, c, lists[d], scope, n);
    }
    forall d | lo <= d < hi
      ensures MatchedIn(TraceOf(marks[d], k), TraceOf(marks[d + 1], k), f) && calls[d].Evaluation?
    {
      assert Tidy(calls[d], k, lists[d], scope);
      FoundInCall(restored, marks, calls, d, k, c, lists[d], scope, 0);
      FoundIsEvaluated(calls[d], k, c);
    }
    AllMatching(marks, k, f, lo, hi);
    d := EnoughCallsAlert(restored, marks, calls, lo, hi, k, f, minimum, c.rule.cooldown);
  }

  lemma FoundIsEvaluated(call: Call, k: Key, c: Compiled)
    requires Finds(call, k, c)
    ensures call.Evaluation?
  {
  }
}
