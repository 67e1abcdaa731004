/** The rule index: `BuildIndex` and the lookups of `Engine.Evaluate`, against a scan of all rules. */
module RuleIndex {
  import opened Text
  import opened Domain

  datatype Kind =
    | ByIcao | ByRegistration | ByCallsign | BySquawk | ByPrefix
    | Radius | Altitude | FirstSeen | Operator | Owner | AircraftType
    | Unindexed

  datatype WatchRule = WatchRule(
    id: int, scope: FeederId, kind: Kind, value: string, enabled: bool,
    cooldown: int, minimumObservations: int, enterThreshold: real, exitThreshold: real, bestEffort: bool)

  /** The source joins these four with colons; type and numbers contain none, so nothing is lost. */
  datatype Fingerprint = Fingerprint(kind: Kind, value: string, enter: real, exit: real)
  datatype Compiled = Compiled(rule: WatchRule, value: string, fingerprint: Fingerprint)

  datatype ScopeIndex = ScopeIndex(
    exact: map<Kind, map<string, seq<Compiled>>>,
    prefixes: map<nat, map<string, seq<Compiled>>>,
    prefixLengths: seq<nat>,
    plain: map<Kind, seq<Compiled>>)

  datatype Index = Index(scopes: map<FeederId, ScopeIndex>, fingerprints: map<int, Fingerprint>, bestEffort: map<int,
                         bool>)

  const EmptyScope := ScopeIndex(map[], map[], [], map[])

  // ---------- compiling one rule ----------

  function NormalizedScope(r: WatchRule): FeederId {
    if r.scope == "" then FEEDER_LOCAL else r.scope
  }

  predicate IsExact(k: Kind) {
    k in {ByIcao, ByRegistration, ByCallsign, BySquawk, Operator, Owner, AircraftType}
  }

  predicate IsPlain(k: Kind) {
    k in {Radius, Altitude, FirstSeen}
  }

  predicate Indexed(r: WatchRule, scope: FeederId) {
    r.enabled && r.kind != Unindexed && NormalizedScope(r) == scope
  }

  function Compile(r: WatchRule): Compiled {
    var value := ToUpper(TrimSpace(r.value));
    var minimum := if r.kind in {FirstSeen, Operator, Owner, AircraftType} then 1
                   else if r.minimumObservations < 1 then 2 else r.minimumObservations;
    var bestEffort := r.bestEffort || r.kind in {Operator, Owner, AircraftType};
    Compiled(r.(minimumObservations := minimum, bestEffort := bestEffort), value,
             Fingerprint(r.kind, value, r.enterThreshold, r.exitThreshold))
  }

  function Get<K>(m: map<K, seq<Compiled>>, k: K): seq<Compiled> {
    if k in m then m[k] else []
  }

  function GetExact(s: ScopeIndex, k: Kind, v: string): seq<Compiled> {
    if k in s.exact then Get(s.exact[k], v) else []
  }

  function GetPrefix(s: ScopeIndex, v: string): seq<Compiled> {
    if |v| in s.prefixes then Get(s.prefixes[|v|], v) else []
  }

  function ScopeOf(index: Index, scope: FeederId): ScopeIndex {
    if scope in index.scopes then index.scopes[scope] else EmptyScope
  }

  // ---------- what the index must contain ----------

  /** The rules of one scope and kind with one value, in list order. */
  function Bucket(rules: seq<WatchRule>, scope: FeederId, k: Kind, v: string): seq<Compiled> {
    if rules == [] then [] else
    var r := rules[|rules| - 1];
    Bucket(rules[..|rules| - 1], scope, k, v) + (if Indexed(r, scope) && r.kind == k && Compile(r).value == v then [Compile(r)] else [])
  }

  function OfKind(rules: seq<WatchRule>, scope: FeederId, k: Kind): seq<Compiled> {
    if rules == [] then [] else
    var r := rules[|rules| - 1];
    OfKind(rules[..|rules| - 1], scope, k) + (if Indexed(r, scope) && r.kind == k then [Compile(r)] else [])
  }

  ghost predicate HasLength(s: ScopeIndex, rules: seq<WatchRule>, scope: FeederId) {
    && Distinct(s.prefixLengths)
    && (forall n :: n in s.prefixLengths <==> n in s.prefixes)
    && (forall i :: 0 <= i < |rules| && Indexed(rules[i], scope) && rules[i].kind == ByPrefix ==>
          |Compile(rules[i]).value| in s.prefixLengths)
  }

  ghost predicate Agrees(s: ScopeIndex, rules: seq<WatchRule>, scope: FeederId) {
    && (forall k, v :: IsExact(k) ==> GetExact(s, k, v) == Bucket(rules, scope, k, v))
    && (forall v :: GetPrefix(s, v) == Bucket(rules, scope, ByPrefix, v))
    && (forall k :: IsPlain(k) ==> Get(s.plain, k) == OfKind(rules, scope, k))
    && HasLength(s, rules, scope)
  }

  // ---------- building ----------

  method AddRule(s: ScopeIndex, c: Compiled) returns (t: ScopeIndex)
    ensures t == Added(s, c)
  {
    var k := c.rule.kind;
    if IsExact(k) {
      var bucket := if k in s.exact then s.exact[k] else map[];
      bucket := bucket[c.value := Get(bucket, c.value) + [c]];
      t := s.(exact := s.exact[k := bucket]);
    } else if k == ByPrefix {
      var length := |c.value|;
      var prefixes, lengths := s.prefixes, s.prefixLengths;
      if length !in prefixes {
        prefixes := prefixes[length := map[]];
        lengths := lengths + [length];
      }
      prefixes := prefixes[length := prefixes[length][c.value := Get(prefixes[length], c.value) + [c]]];
      t := s.(prefixes := prefixes, prefixLengths := lengths);
    } else {
      t := s.(plain := s.plain[k := Get(s.plain, k) + [c]]);
    }
  }

  function Added(s: ScopeIndex, c: Compiled): ScopeIndex {
    var k := c.rule.kind;
    if IsExact(k) then
      var bucket := if k in s.exact then s.exact[k] else map[];
      s.(exact := s.exact[k := bucket[c.value := Get(bucket, c.value) + [c]]])
    else if k == ByPrefix then
      var bucket := if |c.value| in s.prefixes then s.prefixes[|c.value|] else map[];
      s.(prefixes := s.prefixes[|c.value| := bucket[c.value := Get(bucket, c.value) + [c]]],
         prefixLengths := if |c.value| in s.prefixes then s.prefixLengths else s.prefixLengths + [|c.value|])
    else
      s.(plain := s.plain[k := Get(s.plain, k) + [c]])
  }

  lemma BucketGrows(rules: seq<WatchRule>, r: WatchRule, scope: FeederId, k: Kind, v: string)
    ensures Bucket(rules + [r], scope, k, v) == Bucket(rules, scope, k, v)
            + (if Indexed(r, scope) && r.kind == k && Compile(r).value == v then [Compile(r)] else [])
    ensures OfKind(rules + [r], scope, k) == OfKind(rules, scope, k) + (if Indexed(r, scope) && r.kind == k then [Compile(r)] else [])
  {
    assert (rules + [r])[..|rules|] == rules;
  }

  lemma AddedLookups(s: ScopeIndex, c: Compiled, k: Kind, v: string)
    requires c.rule.kind != Unindexed
    ensures IsExact(k) ==> GetExact(Added(s, c), k, v) == GetExact(s, k, v) + (if c.rule.kind == k && c.value == v then [c] else [])
    ensures GetPrefix(Added(s, c), v) == GetPrefix(s, v) + (if c.rule.kind == ByPrefix && c.value == v then [c] else [])
    ensures IsPlain(k) ==> Get(Added(s, c).plain, k) == Get(s.plain, k) + (if c.rule.kind == k then [c] else [])
  {
  }

  lemma AddedLengths(s: ScopeIndex, rules: seq<WatchRule>, r: WatchRule, scope: FeederId)
    requires HasLength(s, rules, scope) && Indexed(r, scope)
    ensures HasLength(Added(s, Compile(r)), rules + [r], scope)
  {
    hide Indexed, Get;
    var t := Added(s, Compile(r));
    assert forall n :: n in s.prefixLengths ==> n in t.prefixLengths;
    assert r.kind == ByPrefix ==> |Compile(r).value| in t.prefixLengths;
  }

  lemma AddedAgrees(s: ScopeIndex, rules: seq<WatchRule>, r: WatchRule, scope: FeederId)
    requires Agrees(s, rules, scope) && Indexed(r, scope)
    ensures Agrees(Added(s, Compile(r)), rules + [r], scope)
  {
    hide Added, HasLength, GetExact, GetPrefix, Get, Compile, Bucket, OfKind;
    AddedLengths(s, rules, r, scope);
    KindIsKept(r);
    forall k, v
      ensures IsExact(k) ==> GetExact(Added(s, Compile(r)), k, v) == Bucket(rules + [r], scope, k, v)
      ensures GetPrefix(Added(s, Compile(r)), v) == Bucket(rules + [r], scope, ByPrefix, v)
      ensures IsPlain(k) ==> Get(Added(s, Compile(r)).plain, k) == OfKind(rules + [r], scope, k)
    {
      AddedLookups(s, Compile(r), k, v);
      BucketGrows(rules, r, scope, k, v);
      BucketGrows(rules, r, scope, ByPrefix, v);
    }
  }

  lemma KindIsKept(r: WatchRule)
    ensures Compile(r).rule.kind == r.kind && Compile(r).rule.id == r.id
  {
  }

  lemma OtherAgrees(s: ScopeIndex, rules: seq<WatchRule>, r: WatchRule, scope: FeederId)
    requires Agrees(s, rules, scope) && !Indexed(r, scope)
    ensures Agrees(s, rules + [r], scope)
  {
    hide GetExact, GetPrefix, Get, Compile, Bucket, OfKind;
    forall k, v
      ensures Bucket(rules + [r], scope, k, v) == Bucket(rules, scope, k, v)
      ensures OfKind(rules + [r], scope, k) == OfKind(rules, scope, k)
    {
      BucketGrows(rules, r, scope, k, v);
    }
    forall k
      ensures OfKind(rules + [r], scope, k) == OfKind(rules, scope, k)
    {
      BucketGrows(rules, r, scope, k, "");
    }
    assert forall i :: 0 <= i < |rules| ==> (rules + [r])[i] == rules[i];
  }

  predicate Ascending(xs: seq<nat>) {
    forall i, j :: 0 <= i < j < |xs| ==> xs[i] < xs[j]
  }

  /** The fingerprint under which the last indexed rule with this ID was compiled. */
  function LastFingerprint(rules: seq<WatchRule>, id: int): Option<Fingerprint> {
    if rules == [] then None else
    var r := rules[|rules| - 1];
    if r.id == id && r.enabled && r.kind != Unindexed then Some(Compile(r).fingerprint) else LastFingerprint(rules[..|rules| - 1], id)
  }

  ghost predicate IndexAgrees(index: Index, rules: seq<WatchRule>) {
    && (forall scope :: Agrees(ScopeOf(index, scope), rules, scope))
    && (forall id :: LastFingerprint(rules, id) == if id in index.fingerprints then Some(index.fingerprints[id]) else None)
  }

  ghost predicate Sorted(index: Index) {
    forall scope :: Ascending(ScopeOf(index, scope).prefixLengths)
  }

  method BuildIndex(rules: seq<WatchRule>) returns (index: Index)
    ensures IndexAgrees(index, rules) && Sorted(index)
  {
    index := Index(map[], map[], map[]);
    for n := 0 to |rules|
      invariant IndexAgrees(index, rules[..n])
    {
      var rule := rules[n];
      ghost var before := index;
      if rule.enabled && rule.kind != Unindexed {
        var compiled := Compile(rule);
        var scope := NormalizedScope(rule);
        var scoped := AddRule(ScopeOf(index, scope), compiled);
        index := Index(index.scopes[scope := scoped], index.fingerprints[rule.id := compiled.fingerprint],
                       index.bestEffort[rule.id := compiled.rule.bestEffort]);
      }
      IndexStep(before, index, rules, n);
    }
    assert rules[..|rules|] == rules;
    index := SortLengths(index, rules);
  }

  lemma IndexStep(before: Index, after: Index, rules: seq<WatchRule>, n: nat)
    requires n < |rules| && IndexAgrees(before, rules[..n])
    requires var r := rules[n];
             if r.enabled && r.kind != Unindexed then
               var scope := NormalizedScope(r);
               && after.scopes == before.scopes[scope := Added(ScopeOf(before, scope), Compile(r))]
               && after.fingerprints == before.fingerprints[r.id := Compile(r).fingerprint]
             else after == before
    ensures IndexAgrees(after, rules[..n + 1])
  {
    assert rules[..n + 1] == rules[..n] + [rules[n]];
    assert rules[..n + 1][..n] == rules[..n];
    forall scope
      ensures Agrees(ScopeOf(after, scope), rules[..n + 1], scope)
    {
      assert Agrees(ScopeOf(before, scope), rules[..n], scope);
      if Indexed(rules[n], scope) {
        AddedAgrees(ScopeOf(before, scope), rules[..n], rules[n], scope);
      } else {
        OtherAgrees(ScopeOf(before, scope), rules[..n], rules[n], scope);
      }
    }
  }

  method SortLengths(index: Index, ghost rules: seq<WatchRule>) returns (sorted: Index)
    requires IndexAgrees(index, rules)
    ensures IndexAgrees(sorted, rules) && Sorted(sorted)
  {
    sorted := index;
    var rest := index.scopes.Keys;
    while rest != {}
      invariant rest <= sorted.scopes.Keys == index.scopes.Keys
      invariant sorted.fingerprints == index.fingerprints
      invariant forall scope :: Agrees(ScopeOf(sorted, scope), rules, scope)
      invariant forall scope :: scope in sorted.scopes && scope !in rest ==>
        Ascending(sorted.scopes[scope].prefixLengths)
      decreases |rest|
    {
      var scope :| scope in rest;
      ghost var before := sorted;
      assert Agrees(ScopeOf(before, scope), rules, scope);
      var lengths := SortNats(sorted.scopes[scope].prefixLengths);
      sorted := sorted.(scopes := sorted.scopes[scope := sorted.scopes[scope].(prefixLengths := lengths)]);
      rest := rest - {scope};
      Reordered(before.scopes[scope], lengths, rules, scope);
      assert forall other :: other != scope ==> ScopeOf(sorted, other) == ScopeOf(before, other);
    }
  }

  lemma Reordered(s: ScopeIndex, lengths: seq<nat>, rules: seq<WatchRule>, scope: FeederId)
    requires Agrees(s, rules, scope) && Distinct(lengths) && forall n :: n in lengths <==> n in s.prefixLengths
    ensures Agrees(s.(prefixLengths := lengths), rules, scope)
  {
    var t := s.(prefixLengths := lengths);
    assert forall k, v :: GetExact(t, k, v) == GetExact(s, k, v);
    assert forall v :: GetPrefix(t, v) == GetPrefix(s, v);
  }

  method SortNats(xs: seq<nat>) returns (ys: seq<nat>)
    requires Distinct(xs)
    ensures Ascending(ys) && Distinct(ys) && forall x :: x in ys <==> x in xs
  {
    ys := [];
    for n := 0 to |xs|
      invariant Ascending(ys)
      invariant forall x :: x in ys <==> x in xs[..n]
    {
      var at := 0;
      while at < |ys| && ys[at] < xs[n]
        invariant at <= |ys|
        invariant forall i :: 0 <= i < at ==> ys[i] < xs[n]
      {
        at := at + 1;
      }
      assert xs[n] !in xs[..n];
      assert at < |ys| ==> ys[at] in ys && xs[n] < ys[at];
      Inserted(ys, at, xs[n]);
      ys := ys[..at] + [xs[n]] + ys[at..];
      assert xs[..n + 1] == xs[..n] + [xs[n]];
    }
    assert xs[..|xs|] == xs;
  }

  lemma Inserted(ys: seq<nat>, at: nat, x: nat)
    requires Ascending(ys) && at <= |ys|
    requires (forall i :: 0 <= i < at ==> ys[i] < x) && (at < |ys| ==> x < ys[at])
    ensures Ascending(ys[..at] + [x] + ys[at..])
    ensures forall y :: y in ys[..at] + [x] + ys[at..] <==> y in ys || y == x
  {
    var r := ys[..at] + [x] + ys[at..];
    forall y
      ensures y in r <==> y in ys || y == x
    {
      assert y in ys <==> y in ys[..at] || y in ys[at..];
    }
  }

  // ---------- looking up ----------

  /** The rule's own condition on the aircraft's identity, without any index. */
  predicate IdentityMatches(c: Compiled, a: Aircraft) {
    match c.rule.kind
    case ByIcao => c.value == a.icao
    case ByRegistration => c.value == a.registration
    case ByCallsign => c.value == a.callsign
    case BySquawk => c.value == a.squawk
    case ByPrefix => c.value <= a.callsign
    case _ => false
  }

  /** The reference: look at every rule. */
  function Scan(rules: seq<WatchRule>, scope: FeederId, a: Aircraft): seq<Compiled> {
    if rules == [] then [] else
    var r := rules[|rules| - 1];
    Scan(rules[..|rules| - 1], scope, a) + (if Indexed(r, scope) && IdentityMatches(Compile(r), a) then [Compile(r)] else [])
  }

  /** How often `c` occurs in the buckets of the callsign's prefixes of the given lengths. */
  ghost function PrefixCount(rules: seq<WatchRule>, scope: FeederId, callsign: string, lengths: seq<nat>,
                             c: Compiled): nat {
    if lengths == [] then 0 else
    PrefixCount(rules, scope, callsign, lengths[..|lengths| - 1], c) + PrefixPart(rules, scope, callsign, lengths[|lengths| - 1], c)
  }

  ghost function PrefixPart(rules: seq<WatchRule>, scope: FeederId, callsign: string, n: nat, c: Compiled): nat {
    if n <= |callsign| then multiset(Bucket(rules, scope, ByPrefix, callsign[..n]))[c] else 0
  }

  predicate PrefixMatches(r: WatchRule, scope: FeederId, callsign: string, c: Compiled) {
    Indexed(r, scope) && r.kind == ByPrefix && Compile(r).value <= callsign && Compile(r) == c
  }

  lemma PrefixPartGrows(rules: seq<WatchRule>, r: WatchRule, scope: FeederId, callsign: string, n: nat, c: Compiled)
    ensures PrefixPart(rules + [r], scope, callsign, n, c) == PrefixPart(rules, scope, callsign, n, c)
            + (if PrefixMatches(r, scope, callsign, c) && |c.value| == n then 1 else 0)
  {
    hide Bucket, Compile, Indexed;
    if n <= |callsign| {
      BucketGrows(rules, r, scope, ByPrefix, callsign[..n]);
      var value := Compile(r).value;
      assert value == callsign[..n] <==> value <= callsign && |value| == n;
    }
  }

  lemma {:induction false} PrefixCountGrows(
    rules: seq<WatchRule>, r: WatchRule, scope: FeederId, callsign: string, lengths: seq<nat>, c: Compiled)
    requires Distinct(lengths)
    ensures PrefixCount(rules + [r], scope, callsign, lengths, c) == PrefixCount(rules, scope, callsign, lengths, c)
            + (if PrefixMatches(r, scope, callsign, c) && |c.value| in lengths then 1 else 0)
    decreases |lengths|
  {
    if lengths != [] {
      hide PrefixPart, PrefixMatches, Distinct;
      var init, n := lengths[..|lengths| - 1], lengths[|lengths| - 1];
      LastIsNew(lengths, |c.value|);
      PrefixCountGrows(rules, r, scope, callsign, init, c);
      PrefixPartGrows(rules, r, scope, callsign, n, c);
    }
  }

  lemma LastIsNew(lengths: seq<nat>, m: nat)
    requires Distinct(lengths) && lengths != []
    ensures var init, n := lengths[..|lengths| - 1], lengths[|lengths| - 1];
            Distinct(init) && n !in init && (m in lengths <==> m in init || m == n)
  {
    assert lengths == lengths[..|lengths| - 1] + [lengths[|lengths| - 1]];
  }

  lemma {:induction false} PrefixCountNone(scope: FeederId, callsign: string, lengths: seq<nat>, c: Compiled)
    ensures PrefixCount([], scope, callsign, lengths, c) == 0
    decreases |lengths|
  {
    if lengths != [] {
      PrefixCountNone(scope, callsign, lengths[..|lengths| - 1], c);
    }
  }

  ghost function ExactSum(rules: seq<WatchRule>, scope: FeederId, a: Aircraft): multiset<Compiled> {
    multiset(Bucket(rules, scope, ByIcao, a.icao)) + multiset(Bucket(rules, scope, ByRegistration, a.registration))
    + multiset(Bucket(rules, scope, ByCallsign, a.callsign)) + multiset(Bucket(rules, scope, BySquawk, a.squawk))
  }

  lemma ExactSumGrows(rules: seq<WatchRule>, r: WatchRule, scope: FeederId, a: Aircraft, c: Compiled)
    ensures ExactSum(rules + [r], scope, a)[c] == ExactSum(rules, scope, a)[c]
            + (if Indexed(r, scope) && r.kind != ByPrefix && Compile(r) == c && IdentityMatches(c, a) then 1 else 0)
  {
    hide Bucket, Compile, Indexed;
    KindIsKept(r);
    BucketGrows(rules, r, scope, ByIcao, a.icao);
    BucketGrows(rules, r, scope, ByRegistration, a.registration);
    BucketGrows(rules, r, scope, ByCallsign, a.callsign);
    BucketGrows(rules, r, scope, BySquawk, a.squawk);
  }

  lemma IdentityOfPrefix(r: WatchRule, scope: FeederId, a: Aircraft, c: Compiled)
    ensures r.kind == ByPrefix ==>
              (PrefixMatches(r, scope, a.callsign, c) <==> Indexed(r, scope) && Compile(r) == c && IdentityMatches(c,
                                                                                                                   a))
    ensures r.kind != ByPrefix ==> !PrefixMatches(r, scope, a.callsign, c)
  {
  }

  /** The buckets partition the scan. */
  lemma {:induction false} BucketsAreTheScan(rules: seq<WatchRule>, scope: FeederId, a: Aircraft, lengths: seq<nat>,
                                             c: Compiled)
    requires Distinct(lengths)
    requires forall i :: 0 <= i < |rules| && Indexed(rules[i], scope) && rules[i].kind == ByPrefix ==>
      |Compile(rules[i]).value| in lengths
    ensures multiset(Scan(rules, scope, a))[c] == ExactSum(rules, scope, a)[c] + PrefixCount(rules, scope, a.callsign, lengths, c)
    decreases |rules|
  {
    if rules == [] {
      PrefixCountNone(scope, a.callsign, lengths, c);
    } else {
      var init, r := rules[..|rules| - 1], rules[|rules| - 1];
      assert rules == init + [r];
      hide Bucket, Compile, Indexed, PrefixCount, ExactSum, IdentityMatches, PrefixMatches;
      IdentityOfPrefix(r, scope, a, c);
      BucketsAreTheScan(init, scope, a, lengths, c);
      PrefixCountGrows(init, r, scope, a.callsign, lengths, c);
      ExactSumGrows(init, r, scope, a, c);
    }
  }

  /** The prefix buckets of a callsign, over all lengths that fit. */
  function PrefixHits(s: ScopeIndex, callsign: string, lengths: seq<nat>): seq<Compiled> {
    if lengths == [] then [] else
    var n := lengths[|lengths| - 1];
    PrefixHits(s, callsign, lengths[..|lengths| - 1]) + if n <= |callsign| then GetPrefix(s, callsign[..n]) else []
  }

  /** Every bucket the aircraft's identity leads to. */
  function Lookups(s: ScopeIndex, a: Aircraft): seq<Compiled> {
    ExactHits(s, a) + PrefixHits(s, a.callsign, s.prefixLengths)
  }

  function ExactHits(s: ScopeIndex, a: Aircraft): seq<Compiled> {
    GetExact(s, ByIcao, a.icao) + GetExact(s, ByRegistration, a.registration)
    + GetExact(s, ByCallsign, a.callsign) + GetExact(s, BySquawk, a.squawk)
  }

  lemma {:induction false} NoHitsLonger(s: ScopeIndex, callsign: string, lengths: seq<nat>, n: nat)
    requires Ascending(lengths) && n < |lengths| && lengths[n] > |callsign|
    ensures PrefixHits(s, callsign, lengths) == PrefixHits(s, callsign, lengths[..n])
    decreases |lengths|
  {
    hide GetPrefix;
    if n < |lengths| - 1 {
      NoHitsLonger(s, callsign, lengths[..|lengths| - 1], n);
      assert lengths[..|lengths| - 1][..n] == lengths[..n];
    } else {
      assert lengths[..|lengths| - 1] == lengths[..n];
    }
  }

  /** The lookups agree with the scan of all rules. */
  lemma LookupsAreTheScan(s: ScopeIndex, a: Aircraft, rules: seq<WatchRule>, scope: FeederId)
    requires Agrees(s, rules, scope)
    ensures multiset(Lookups(s, a)) == multiset(Scan(rules, scope, a))
  {
    hide Bucket, GetExact, GetPrefix, Scan, Indexed, Compile, OfKind, Get, ExactSum, PrefixHits, PrefixCount;
    ExactHitsSum(s, a, rules, scope);
    forall c
      ensures multiset(Lookups(s, a))[c] == multiset(Scan(rules, scope, a))[c]
    {
      PrefixHitsCount(s, a.callsign, rules, scope, s.prefixLengths, c);
      BucketsAreTheScan(rules, scope, a, s.prefixLengths, c);
    }
  }

  lemma ExactHitsSum(s: ScopeIndex, a: Aircraft, rules: seq<WatchRule>, scope: FeederId)
    requires Agrees(s, rules, scope)
    ensures multiset(ExactHits(s, a)) == ExactSum(rules, scope, a)
  {
    hide Bucket, GetExact, GetPrefix, Indexed, Compile, OfKind, Get;
  }

  lemma {:induction false} PrefixHitsCount(
    s: ScopeIndex, callsign: string, rules: seq<WatchRule>, scope: FeederId, lengths: seq<nat>, c: Compiled)
    requires Agrees(s, rules, scope)
    ensures multiset(PrefixHits(s, callsign, lengths))[c] == PrefixCount(rules, scope, callsign, lengths, c)
    decreases |lengths|
  {
    hide Bucket, GetExact, GetPrefix, Indexed, Compile, OfKind, Get;
    if lengths != [] {
      PrefixHitsCount(s, callsign, rules, scope, lengths[..|lengths| - 1], c);
    }
  }

  /** The lookups of `Evaluate`, with the early exit over the sorted prefix lengths. */
  method MatchIdentity(s: ScopeIndex, a: Aircraft, ghost rules: seq<WatchRule>,
                       ghost scope: FeederId) returns (found: seq<Compiled>)
    requires Agrees(s, rules, scope) && Ascending(s.prefixLengths)
    ensures found == Lookups(s, a) && multiset(found) == multiset(Scan(rules, scope, a))
  {
    hide GetExact, GetPrefix, Agrees, Scan;
    LookupsAreTheScan(s, a, rules, scope);
    found := GetExact(s, ByIcao, a.icao) + GetExact(s, ByRegistration, a.registration)
             + GetExact(s, ByCallsign, a.callsign) + GetExact(s, BySquawk, a.squawk);
    var n := 0;
    var lengths := s.prefixLengths;
    while n < |lengths|
      invariant n <= |lengths|
      invariant found == ExactHits(s, a) + PrefixHits(s, a.callsign, lengths[..n])
    {
      if lengths[n] > |a.callsign| {
        NoHitsLonger(s, a.callsign, lengths, n);
        return;
      }
      assert lengths[..n + 1][..n] == lengths[..n];
      found := found + GetPrefix(s, a.callsign[..lengths[n]]);
      n := n + 1;
    }
    assert lengths[..|lengths|] == lengths;
  }

  ghost predicate Matching(rules: seq<WatchRule>, scope: FeederId, a: Aircraft, c: Compiled, i: int) {
    0 <= i < |rules| && Wanted(rules[i], scope, a) && Compile(rules[i]) == c
  }

  /** The rule is enabled, belongs to the scope (to the local one if it names none), and its value, trimmed
      and upper-cased, is the identity it asks for, or begins the callsign. */
  predicate Wanted(r: WatchRule, scope: FeederId, a: Aircraft) {
    && r.enabled && scope == (if r.scope == "" then "local" else r.scope)
    && var value := ToUpper(TrimSpace(r.value));
       match r.kind
       case ByIcao => a.icao == value
       case ByRegistration => a.registration == value
       case ByCallsign => a.callsign == value
       case BySquawk => a.squawk == value
       case ByPrefix => |value| <= |a.callsign| && a.callsign[..|value|] == value
       case _ => false
  }

  lemma WantedExactly(r: WatchRule, scope: FeederId, a: Aircraft)
    ensures Wanted(r, scope, a) <==> Indexed(r, scope) && IdentityMatches(Compile(r), a)
  {
    hide ToUpper, TrimSpace;
  }

  /** The scan yields the matching rules and no other. */
  lemma {:induction false} ScanMember(rules: seq<WatchRule>, scope: FeederId, a: Aircraft, c: Compiled)
    ensures c in Scan(rules, scope, a) <==> exists i :: Matching(rules, scope, a, c, i)
    decreases |rules|
  {
    if rules != [] {
      hide Indexed, Compile, IdentityMatches, Wanted;
      var init, last := rules[..|rules| - 1], |rules| - 1;
      ScanMember(init, scope, a, c);
      WantedExactly(rules[last], scope, a);
      assert forall i :: Matching(init, scope, a, c, i) ==> Matching(rules, scope, a, c, i);
      assert forall i :: Matching(rules, scope, a, c, i) && i != last ==> Matching(init, scope, a, c, i);
      assert Wanted(rules[last], scope, a) && Compile(rules[last]) == c ==> Matching(rules, scope, a, c, last);
    }
  }

  /** With distinct rule IDs the scan, hence the lookup, yields each matching rule exactly once. */
  lemma {:induction false} EachMatchOnce(rules: seq<WatchRule>, scope: FeederId, a: Aircraft, c: Compiled)
    requires forall i, j :: 0 <= i < j < |rules| ==> rules[i].id != rules[j].id
    ensures multiset(Scan(rules, scope, a))[c] == if exists i :: Matching(rules, scope, a, c, i) then 1 else 0
    decreases |rules|
  {
    ScanMember(rules, scope, a, c);
    if rules != [] {
      hide Indexed, Compile, IdentityMatches, Wanted;
      var init, r := rules[..|rules| - 1], rules[|rules| - 1];
      EachMatchOnce(init, scope, a, c);
      WantedExactly(r, scope, a);
      if i :| Matching(init, scope, a, c, i) {
        KindIsKept(init[i]);
        KindIsKept(r);
        assert rules[i].id == c.rule.id && rules[i].id != rules[|rules| - 1].id;
        assert Compile(r) != c;
      }
    }
  }

  // ---------- how long sightings are kept ----------

  const MINIMUM_SEEN_RETENTION := 1800 * 1_000_000_000

  ghost predicate InFirstSeen(index: Index, c: Compiled) {
    exists scope :: scope in index.scopes && c in Get(index.scopes[scope].plain, FirstSeen)
  }

  /** The longest quiet time of any first-seen rule, and at least half an hour. */
  method MaxSeenRetention(index: Index) returns (retention: int)
    ensures retention >= 1_800_000_000_000 && forall c :: InFirstSeen(index, c) ==> c.rule.cooldown <= retention
    ensures retention == 1_800_000_000_000 || exists c :: InFirstSeen(index, c) && c.rule.cooldown == retention
  {
    retention := MINIMUM_SEEN_RETENTION;
    var rest := index.scopes.Keys;
    while rest != {}
      invariant rest <= index.scopes.Keys && retention >= MINIMUM_SEEN_RETENTION
      invariant forall scope, c :: scope in index.scopes && scope !in rest && c in Get(index.scopes[scope].plain, FirstSeen) ==>
        c.rule.cooldown <= retention
      invariant retention == MINIMUM_SEEN_RETENTION || exists c :: InFirstSeen(index, c) && c.rule.cooldown == retention
      decreases |rest|
    {
      var scope :| scope in rest;
      rest := rest - {scope};
      var rules := Get(index.scopes[scope].plain, FirstSeen);
      ghost var before := retention;
      for n := 0 to |rules|
        invariant retention >= before && forall i :: 0 <= i < n ==> rules[i].rule.cooldown <= retention
        invariant retention == MINIMUM_SEEN_RETENTION || exists c :: InFirstSeen(index, c) && c.rule.cooldown == retention
      {
        if rules[n].rule.cooldown > retention {
          retention := rules[n].rule.cooldown;
          assert InFirstSeen(index, rules[n]);
        }
      }
    }
  }
}
