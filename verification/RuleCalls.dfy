/** The calls of one scope of the rule engine: which events each call adds to the trace of a record, what
    it does to the sightings, and what any calls of a run guarantee about each other. */
module RuleCalls {
  import opened Text
  import opened Domain
  import opened RuleIndex
  import opened Traces
  import opened WatchRules

  datatype Key = Key(ruleId: int, icao: string)
  datatype Seen = Seen(firstSeen: int, lastSeen: int)

  type Marks = map<Key, seq<Event>>
  type Sightings = map<string, Seen>

  function Put(states: map<Key, Record>, k: Key, r: Option<Record>): map<Key, Record> {
    if r.Some? then states[k := r.value] else states - {k}
  }

  function Firings(init: Option<Record>, trace: seq<Event>): nat {
    if trace == [] then 0 else
    var before := trace[..|trace| - 1];
    Firings(init, before) + (if Fires(Replay(init, before), trace[|trace| - 1]) then 1 else 0)
  }

  /** Replaying one more event. */
  lemma ReplayNext(init: Option<Record>, trace: seq<Event>, e: Event)
    ensures Replay(init, trace + [e]) == Step(Replay(init, trace), e)
    ensures Firings(init, trace + [e]) == Firings(init, trace) + (if Fires(Replay(init, trace), e) then 1 else 0)
  {
    assert (trace + [e])[..|trace|] == trace;
  }

  lemma {:induction false} ReplayConcat(init: Option<Record>, a: seq<Event>, b: seq<Event>)
    ensures Replay(init, a + b) == Replay(Replay(init, a), b)
    decreases |b|
  {
    hide Step;
    if b == [] {
      assert a + b == a;
    } else {
      var n := |b| - 1;
      ReplayConcat(init, a, b[..n]);
      assert (a + b)[..|a| + n] == a + b[..n];
    }
  }

  // ---------- what an evaluation shows to one record ----------

  /** How a rule is tried on an aircraft. */
  datatype Mode = Fixed(matches: bool) | ByRadius | ByAltitude | ByFirstSeen

  /** Radius rules use the exit threshold once their record is active. */
  predicate InRadius(r: Option<Record>, rule: Compiled, a: Aircraft) {
    var active := Current(r, rule) && r.value.state.active;
    var threshold := if active && rule.rule.exitThreshold > 0.0 then rule.rule.exitThreshold else rule.rule.enterThreshold;
    a.hasDistance && threshold > 0.0 && a.distanceNM <= threshold
  }

  predicate InAltitudeBand(rule: Compiled, a: Aircraft) {
    a.hasAltitude && a.altitudeFeet as real >= rule.rule.enterThreshold
    && (rule.rule.exitThreshold <= 0.0 || a.altitudeFeet as real <= rule.rule.exitThreshold)
  }

  /** `last` is when the aircraft was seen before, if it was. */
  predicate FirstSeenAgain(rule: Compiled, now: int, last: Option<int>) {
    last.None? || (rule.rule.cooldown > 0 && now - last.value >= rule.rule.cooldown)
  }

  predicate Verdict(mode: Mode, rule: Compiled, a: Aircraft, r: Option<Record>, now: int, last: Option<int>) {
    match mode
    case Fixed(matches) => matches
    case ByRadius => InRadius(r, rule, a)
    case ByAltitude => InAltitudeBand(rule, a)
    case ByFirstSeen => FirstSeenAgain(rule, now, last)
  }

  /** One evaluation: its time, its number and the index it uses. */
  datatype Pass = Pass(index: ScopeIndex, now: int, sequence: nat)

  /** The events that a list of rules tried on one aircraft means for record `r` of key `k`. */
  function Show(p: Pass, mode: Mode, rules: seq<Compiled>, a: Aircraft, last: Option<int>, k: Key,
                r: Option<Record>): seq<Event> {
    if rules == [] then [] else
    var c := rules[|rules| - 1];
    var before := Show(p, mode, rules[..|rules| - 1], a, last, k, r);
    if Key(c.rule.id, a.icao) != k then before
    else before + [Observe(p.now, p.sequence, c, Verdict(mode, c, a, Replay(r, before), p.now, last))]
  }

  /** The rules tried on an aircraft, list by list. */
  function RulesFor(index: ScopeIndex, a: Aircraft, n: nat): (Mode, seq<Compiled>) {
    if n == 0 then (Fixed(true), Lookups(index, a))
    else if n == 1 then (ByRadius, Get(index.plain, Radius))
    else if n == 2 then (ByAltitude, Get(index.plain, Altitude))
    else (ByFirstSeen, Get(index.plain, FirstSeen))
  }

  /** The first `n` of the four lists. */
  function ShowLists(p: Pass, n: nat, a: Aircraft, last: Option<int>, k: Key, r: Option<Record>): seq<Event>
    requires n <= 4
  {
    if n == 0 then [] else
    var before := ShowLists(p, n - 1, a, last, k, r);
    var (mode, rules) := RulesFor(p.index, a, n - 1);
    before + Show(p, mode, rules, a, last, k, Replay(r, before))
  }

  /** When an aircraft was last seen before its place in the snapshot. */
  function LastSeen(seen: Sightings, earlier: seq<Aircraft>, icao: string, now: int): Option<int> {
    if exists i :: 0 <= i < |earlier| && earlier[i].icao == icao then Some(now)
    else if icao in seen then Some(seen[icao].lastSeen) else None
  }

  /** The events of a whole snapshot for one key. */
  function ShowAll(p: Pass, seen: Sightings, aircraft: seq<Aircraft>, k: Key, r: Option<Record>): seq<Event> {
    if aircraft == [] then [] else
    var n := |aircraft| - 1;
    var before := ShowAll(p, seen, aircraft[..n], k, r);
    before + ShowLists(p, 4, aircraft[n], LastSeen(seen, aircraft[..n], aircraft[n].icao, p.now), k, Replay(r, before))
  }

  /** The values of one kind of metadata rule and the value reported; the map of values is walked in
      `order`. */
  datatype Metadata = Metadata(kind: Kind, actual: string, order: seq<string>)

  function Values(index: ScopeIndex, kind: Kind): map<string, seq<Compiled>> {
    if kind in index.exact then index.exact[kind] else map[]
  }

  ghost predicate WalksAll(index: ScopeIndex, m: Metadata) {
    Distinct(m.order) && (forall v :: v in Values(index, m.kind) <==> v in m.order)
  }

  function ShowValues(p: Pass, m: Metadata, n: nat, a: Aircraft, k: Key, r: Option<Record>): seq<Event>
    requires n <= |m.order|
  {
    if n == 0 then [] else
    var before := ShowValues(p, m, n - 1, a, k, r);
    var value := m.order[n - 1];
    before + Show(p, Fixed(m.actual != "" && m.actual == value), Get(Values(p.index, m.kind), value), a, None, k, Replay(r, before))
  }

  function ShowMetadata(p: Pass, ms: seq<Metadata>, a: Aircraft, k: Key, r: Option<Record>): seq<Event> {
    if ms == [] then [] else
    var m := ms[|ms| - 1];
    var before := ShowMetadata(p, ms[..|ms| - 1], a, k, r);
    before + ShowValues(p, m, |m.order|, a, k, Replay(r, before))
  }

  /** The closing loop clears an active record that this evaluation did not see, unless it is best
      effort and its aircraft still visible. */
  function SweepOf(p: Pass, visible: set<string>, k: Key, r: Option<Record>): seq<Event> {
    if r.Some? && r.value.state.active && r.value.seenSequence != p.sequence && !(r.value.bestEffort && k.icao in visible)
    then [Sweep(p.now)] else []
  }

  predicate Expired(r: Record, now: int) {
    !r.state.active && r.lastSeenAt.Some? && r.lastSeenAt.value < now - STATE_RETENTION
  }

  predicate Survives(k: Key, r: Record, next: Index, enabled: set<int>) {
    k.ruleId <= 0 || (k.ruleId in enabled && k.ruleId in next.fingerprints && r.state.fingerprint == next.fingerprints[k.ruleId])
  }

  // ---------- calls ----------

  /** How long and how many sightings are kept. */
  datatype Bounds = Bounds(retention: int, seenCap: nat)

  /** A call, with the sightings before and after it. */
  datatype Call =
    | Evaluation(pass: Pass, seen: Sightings, aircraft: seq<Aircraft>, bounds: Bounds, seenAfter: Sightings,
                 alerts: seq<Key>)
    | Enrichment(pass: Pass, seen: Sightings, reported: Aircraft, metadata: seq<Metadata>, alerts: seq<Key>)
    | Replacement(seen: Sightings, next: Index, enabled: set<int>)
    | Pruning(at: int, seen: Sightings, bounds: Bounds, seenAfter: Sightings)

  function VisibleIcaos(aircraft: seq<Aircraft>): set<string> {
    set i | 0 <= i < |aircraft| :: aircraft[i].icao
  }

  /** What the trials and the sweep of an evaluation make of a trace. */
  function SweptTrace(init: Option<Record>, before: seq<Event>, p: Pass, seen: Sightings, aircraft: seq<Aircraft>,
                      k: Key): seq<Event> {
    var shown := before + ShowAll(p, seen, aircraft, k, Replay(init, before));
    shown + SweepOf(p, VisibleIcaos(aircraft), k, Replay(init, shown))
  }

  /** The events one key gains in a call. */
  ghost predicate Gains(init: Option<Record>, before: seq<Event>, call: Call, after: seq<Event>, k: Key) {
    var r := Replay(init, before);
    match call
    case Evaluation(p, seen, aircraft, _, _, _) =>
      MaybePruned(SweptTrace(init, before, p, seen, aircraft, k), after, AgePrune(p.now), CapPrune)
    case Enrichment(p, _, a, ms, _) =>
      (forall i :: 0 <= i < |ms| ==> WalksAll(p.index, ms[i])) && after == before + ShowMetadata(p, ms, a, k, r)
    case Replacement(_, next, enabled) => after == if r.Some? && !Survives(k, r.value, next, enabled) then before + [Drop] else before
    case Pruning(now, _, _, _) => MaybePruned(before, after, AgePrune(now), CapPrune)
  }

  function AlertsOf(call: Call): seq<Key> {
    if call.Evaluation? || call.Enrichment? then call.alerts else []
  }

  ghost predicate KeySpec(init: Option<Record>, before: seq<Event>, call: Call, after: seq<Event>, k: Key) {
    && before <= after && Gains(init, before, call, after, k)
    && Firings(init, after) == Firings(init, before) + multiset(AlertsOf(call))[k]
  }

  /** One aircraft is seen at `now`. */
  function Sighted(seen: Sightings, icao: string, now: int): Sightings {
    seen[icao := Seen(if icao in seen then seen[icao].firstSeen else now, now)]
  }

  function SightedAll(seen: Sightings, aircraft: seq<Aircraft>, now: int): Sightings {
    if aircraft == [] then seen
    else Sighted(SightedAll(seen, aircraft[..|aircraft| - 1], now), aircraft[|aircraft| - 1].icao, now)
  }

  /** Which sightings pruning leaves: none older than the retention, of the others the latest up to the
      bound, and all of them below it. */
  ghost predicate SeenPruned(was: Sightings, seen: Sightings, now: int, b: Bounds) {
    && |seen| <= b.seenCap
    && (forall k :: k in seen ==> k in was && seen[k] == was[k] && seen[k].lastSeen >= now - b.retention)
    && (|seen| < b.seenCap ==> forall k :: k in was && was[k].lastSeen >= now - b.retention ==> k in seen)
    && (forall k, l :: k in was && k !in seen && was[k].lastSeen >= now - b.retention && l in seen ==>
          was[k].lastSeen <= seen[l].lastSeen)
  }

  /** The sightings of a call before it prunes. */
  function SightedBy(call: Call): Sightings {
    if call.Evaluation? then SightedAll(call.seen, call.aircraft, call.pass.now) else call.seen
  }

  /** The sightings after a call. */
  function SeenAfter(call: Call): Sightings {
    if call.Evaluation? || call.Pruning? then call.seenAfter else call.seen
  }

  ghost predicate SeenSpec(call: Call) {
    match call
    case Evaluation(p, _, _, b, after, _) => after == SightedBy(call) || SeenPruned(SightedBy(call), after, p.now, b)
    case Pruning(now, seen, b, after) => SeenPruned(seen, after, now, b)
    case _ => true
  }

  ghost predicate CallSpec(restored: map<Key, Record>, before: Marks, call: Call, after: Marks) {
    SeenSpec(call) && forall k :: KeySpec(Find(restored, k), TraceOf(before, k), call, TraceOf(after, k), k)
  }

  predicate Clocked(call: Call) {
    !call.Replacement?
  }

  function TimeOf(call: Call): int
    requires Clocked(call)
  {
    if call.Pruning? then call.at else call.pass.now
  }

  /** A run of calls. Each one starts from the sightings that the one before left, and snapshot times
      do not run backwards. */
  ghost predicate IsRun(restored: map<Key, Record>, marks: seq<Marks>, calls: seq<Call>) {
    && |marks| == |calls| + 1 && marks[0] == map[]
    && (forall c :: 0 <= c < |calls| ==> CallSpec(restored, marks[c], calls[c], marks[c + 1]))
    && (calls != [] ==> calls[0].seen == map[])
    && (forall c :: 0 < c < |calls| ==> calls[c].seen == SeenAfter(calls[c - 1]))
    && (forall c, d :: 0 <= c < d < |calls| && Clocked(calls[c]) && Clocked(calls[d]) ==> TimeOf(calls[c]) <= TimeOf(calls[d]))
  }

  // ---------- every event of a call is explained by it ----------

  ghost predicate InIndex(index: ScopeIndex, c: Compiled) {
    || (exists kind, v :: c in GetExact(index, kind, v))
    || (exists v :: c in GetPrefix(index, v))
    || (exists kind :: c in Get(index.plain, kind))
  }

  ghost predicate Explained(call: Call, k: Key, e: Event) {
    match e
    case Observe(now, sequence, rule, matches) =>
      && (call.Evaluation? || call.Enrichment?)
      && now == call.pass.now && sequence == call.pass.sequence && rule.rule.id == k.ruleId
      && InIndex(call.pass.index, rule)
    case Sweep(now) => call.Evaluation? && now == call.pass.now
    case AgePrune(now) => Clocked(call) && now == TimeOf(call)
    case CapPrune => Clocked(call)
    case Drop => call.Replacement?
  }

  /** Events of one evaluation, about rules of the index. */
  ghost predicate AllObserved(p: Pass, k: Key, es: seq<Event>) {
    forall n :: 0 <= n < |es| ==>
      && es[n].Observe? && es[n].now == p.now && es[n].sequence == p.sequence
      && es[n].rule.rule.id == k.ruleId && InIndex(p.index, es[n].rule)
  }

  lemma {:induction false} ShowIsObserved(
    p: Pass, mode: Mode, rules: seq<Compiled>, a: Aircraft, last: Option<int>, k: Key, r: Option<Record>)
    requires forall i :: 0 <= i < |rules| ==> InIndex(p.index, rules[i])
    ensures AllObserved(p, k, Show(p, mode, rules, a, last, k, r))
    decreases |rules|
  {
    hide InIndex, Verdict, Replay;
    if rules != [] {
      ShowIsObserved(p, mode, rules[..|rules| - 1], a, last, k, r);
    }
  }

  lemma {:induction false} PrefixHitsInIndex(s: ScopeIndex, callsign: string, lengths: seq<nat>, c: Compiled)
    requires c in PrefixHits(s, callsign, lengths)
    ensures InIndex(s, c)
    decreases |lengths|
  {
    hide GetPrefix;
    if c in PrefixHits(s, callsign, lengths[..|lengths| - 1]) {
      PrefixHitsInIndex(s, callsign, lengths[..|lengths| - 1], c);
    }
  }

  lemma RulesForInIndex(index: ScopeIndex, a: Aircraft, n: nat)
    ensures forall i :: 0 <= i < |RulesFor(index, a, n).1| ==> InIndex(index, RulesFor(index, a, n).1[i])
  {
    hide GetExact, GetPrefix, Get, PrefixHits;
    var rules := RulesFor(index, a, n).1;
    forall i | 0 <= i < |rules|
      ensures InIndex(index, rules[i])
    {
      if n == 0 && rules[i] in PrefixHits(index, a.callsign, index.prefixLengths) {
        PrefixHitsInIndex(index, a.callsign, index.prefixLengths, rules[i]);
      } else if n == 0 {
        assert rules[i] in ExactHits(index, a);
      }
    }
  }

  lemma ObservedConcat(p: Pass, k: Key, a: seq<Event>, b: seq<Event>)
    requires AllObserved(p, k, a) && AllObserved(p, k, b)
    ensures AllObserved(p, k, a + b)
  {
    hide InIndex;
  }

  lemma {:induction false} ShowListsIsObserved(p: Pass, n: nat, a: Aircraft, last: Option<int>, k: Key,
                                               r: Option<Record>)
    requires n <= 4
    ensures AllObserved(p, k, ShowLists(p, n, a, last, k, r))
  {
    if n > 0 {
      hide AllObserved, Show, RulesFor, Replay, InIndex;
      var before := ShowLists(p, n - 1, a, last, k, r);
      var (mode, rules) := RulesFor(p.index, a, n - 1);
      ShowListsIsObserved(p, n - 1, a, last, k, r);
      RulesForInIndex(p.index, a, n - 1);
      ShowIsObserved(p, mode, rules, a, last, k, Replay(r, before));
      ObservedConcat(p, k, before, Show(p, mode, rules, a, last, k, Replay(r, before)));
    }
  }

  lemma {:induction false} ShowAllIsObserved(p: Pass, seen: Sightings, aircraft: seq<Aircraft>, k: Key,
                                             r: Option<Record>)
    ensures AllObserved(p, k, ShowAll(p, seen, aircraft, k, r))
    decreases |aircraft|
  {
    if aircraft != [] {
      hide AllObserved, ShowLists, LastSeen, Replay;
      var n := |aircraft| - 1;
      var before := ShowAll(p, seen, aircraft[..n], k, r);
      var last := LastSeen(seen, aircraft[..n], aircraft[n].icao, p.now);
      ShowAllIsObserved(p, seen, aircraft[..n], k, r);
      ShowListsIsObserved(p, 4, aircraft[n], last, k, Replay(r, before));
      ObservedConcat(p, k, before, ShowLists(p, 4, aircraft[n], last, k, Replay(r, before)));
    }
  }

  lemma {:induction false} ShowValuesIsObserved(p: Pass, m: Metadata, n: nat, a: Aircraft, k: Key, r: Option<Record>)
    requires n <= |m.order|
    ensures AllObserved(p, k, ShowValues(p, m, n, a, k, r))
  {
    if n > 0 {
      hide AllObserved, Show, Replay;
      var before, value := ShowValues(p, m, n - 1, a, k, r), m.order[n - 1];
      var rules := Get(Values(p.index, m.kind), value);
      ShowValuesIsObserved(p, m, n - 1, a, k, r);
      ValuesInIndex(p.index, m.kind, value);
      var mode := Fixed(m.actual != "" && m.actual == value);
      ShowIsObserved(p, mode, rules, a, None, k, Replay(r, before));
      ObservedConcat(p, k, before, Show(p, mode, rules, a, None, k, Replay(r, before)));
    }
  }

  lemma ValuesInIndex(index: ScopeIndex, kind: Kind, value: string)
    ensures var rules := Get(Values(index, kind), value);
            forall i :: 0 <= i < |rules| ==> InIndex(index, rules[i])
  {
    var rules := Get(Values(index, kind), value);
    forall i | 0 <= i < |rules|
      ensures InIndex(index, rules[i])
    {
      assert rules[i] in GetExact(index, kind, value);
    }
  }

  lemma {:induction false} ShowMetadataIsObserved(p: Pass, ms: seq<Metadata>, a: Aircraft, k: Key, r: Option<Record>)
    ensures AllObserved(p, k, ShowMetadata(p, ms, a, k, r))
    decreases |ms|
  {
    if ms != [] {
      hide AllObserved, ShowValues, Replay;
      var m, before := ms[|ms| - 1], ShowMetadata(p, ms[..|ms| - 1], a, k, r);
      ShowMetadataIsObserved(p, ms[..|ms| - 1], a, k, r);
      ShowValuesIsObserved(p, m, |m.order|, a, k, Replay(r, before));
      ObservedConcat(p, k, before, ShowValues(p, m, |m.order|, a, k, Replay(r, before)));
    }
  }

  lemma GainsAreExplained(init: Option<Record>, before: seq<Event>, call: Call, after: seq<Event>, k: Key, n: nat)
    requires before <= after && Gains(init, before, call, after, k) && |before| <= n < |after|
    ensures Explained(call, k, after[n])
  {
    hide InIndex, ShowAll, ShowMetadata, Replay, VisibleIcaos, Survives;
    var r := Replay(init, before);
    if call.Evaluation? {
      ShowAllIsObserved(call.pass, call.seen, call.aircraft, k, r);
    } else if call.Enrichment? {
      ShowMetadataIsObserved(call.pass, call.metadata, call.reported, k, r);
    }
  }

  // ---------- every rule that applies is tried ----------

  /** A rule in the list leaves an observation of this evaluation in the trace of its own key. */
  lemma {:induction false} ShowContains(
    p: Pass, mode: Mode, rules: seq<Compiled>, a: Aircraft, last: Option<int>, r: Option<Record>, c: Compiled)
    returns (at: Option<Record>)
    requires c in rules
    ensures Observe(p.now, p.sequence, c, Verdict(mode, c, a, at, p.now, last))
      in Show(p, mode, rules, a, last, Key(c.rule.id, a.icao), r)
    decreases |rules|
  {
    hide Verdict, Replay;
    var n, k := |rules| - 1, Key(c.rule.id, a.icao);
    if rules[n] == c {
      at := Replay(r, Show(p, mode, rules[..n], a, last, k, r));
    } else {
      at := ShowContains(p, mode, rules[..n], a, last, r, c);
    }
  }

  lemma {:induction false} ShowListsContains(
    p: Pass, n: nat, a: Aircraft, last: Option<int>, r: Option<Record>, list: nat, c: Compiled)
    returns (at: Option<Record>)
    requires list < n <= 4 && c in RulesFor(p.index, a, list).1
    ensures Observe(p.now, p.sequence, c, Verdict(RulesFor(p.index, a, list).0, c, a, at, p.now, last))
      in ShowLists(p, n, a, last, Key(c.rule.id, a.icao), r)
  {
    hide Verdict, Replay, Show, RulesFor;
    var k := Key(c.rule.id, a.icao);
    if list < n - 1 {
      at := ShowListsContains(p, n - 1, a, last, r, list, c);
    } else {
      var before := ShowLists(p, n - 1, a, last, k, r);
      at := ShowContains(p, RulesFor(p.index, a, list).0, RulesFor(p.index, a, list).1, a, last, Replay(r, before), c);
    }
  }

  /** Each of the four lists is tried on every aircraft of the snapshot. */
  lemma {:induction false} ShowAllContains(
    p: Pass, seen: Sightings, aircraft: seq<Aircraft>, x: nat, r: Option<Record>, list: nat, c: Compiled)
    returns (at: Option<Record>)
    requires x < |aircraft| && list < 4 && c in RulesFor(p.index, aircraft[x], list).1
    ensures var last := LastSeen(seen, aircraft[..x], aircraft[x].icao, p.now);
      Observe(p.now, p.sequence, c, Verdict(RulesFor(p.index, aircraft[x], list).0, c, aircraft[x], at, p.now, last))
      in ShowAll(p, seen, aircraft, Key(c.rule.id, aircraft[x].icao), r)
    decreases |aircraft|
  {
    hide Verdict, Replay, ShowLists, RulesFor, LastSeen;
    var n, k := |aircraft| - 1, Key(c.rule.id, aircraft[x].icao);
    var before := ShowAll(p, seen, aircraft[..n], k, r);
    if x < n {
      at := ShowAllContains(p, seen, aircraft[..n], x, r, list, c);
      assert aircraft[..n][..x] == aircraft[..x];
    } else {
      at := ShowListsContains(p, 4, aircraft[n], LastSeen(seen, aircraft[..n], aircraft[n].icao, p.now),
                              Replay(r, before), list, c);
    }
  }

  /** Whatever the scan of all rules finds for an aircraft is observed as a match by the evaluation. */
  lemma ScanIsObserved(
    init: Option<Record>, before: seq<Event>, call: Call, after: seq<Event>, rules: seq<WatchRule>, scope: FeederId, x: nat, c: Compiled)
    requires call.Evaluation? && x < |call.aircraft| && Agrees(call.pass.index, rules, scope)
    requires c in Scan(rules, scope, call.aircraft[x])
    requires before <= after && Gains(init, before, call, after, Key(c.rule.id, call.aircraft[x].icao))
    ensures Observe(call.pass.now, call.pass.sequence, c, true) in after[|before|..]
  {
    hide Agrees, Scan, ShowAll, Lookups, Replay, VisibleIcaos, SweepOf;
    var p, a := call.pass, call.aircraft[x];
    LookupsAreTheScan(p.index, a, rules, scope);
    assert c in multiset(Lookups(p.index, a));
    var r, k := Replay(init, before), Key(c.rule.id, a.icao);
    var at := ShowAllContains(p, call.seen, call.aircraft, x, r, 0, c);
    var shown := ShowAll(p, call.seen, call.aircraft, k, r);
    assert before + shown <= after;
    assert shown <= after[|before|..];
  }

  /** After the sweep a record is active exactly when it was and this evaluation saw it, or it is best
      effort and the snapshot still names its aircraft. */
  lemma SweepClearsExactly(init: Option<Record>, before: seq<Event>, p: Pass, seen: Sightings, aircraft: seq<Aircraft>,
                           k: Key)
    ensures var r := Replay(init, before + ShowAll(p, seen, aircraft, k, Replay(init, before)));
      IsActive(Replay(init, SweptTrace(init, before, p, seen, aircraft, k))) <==>
        && r.Some? && r.value.state.active
        && (r.value.seenSequence == p.sequence
            || (r.value.bestEffort && exists i :: 0 <= i < |aircraft| && aircraft[i].icao == k.icao))
  {
    hide ShowAll, Replay;
    var shown := before + ShowAll(p, seen, aircraft, k, Replay(init, before));
    assert shown + [] == shown;
    ReplayNext(init, shown, Sweep(p.now));
  }

  // ---------- what any two calls guarantee ----------

  lemma RunIsChain(restored: map<Key, Record>, marks: seq<Marks>, calls: seq<Call>)
    requires IsRun(restored, marks, calls)
    ensures |marks| == |calls| + 1 && Chain(marks)
  {
    hide Gains, Firings;
    forall c | 0 <= c < |marks| - 1
      ensures Grows(marks[c], marks[c + 1])
    {
      assert CallSpec(restored, marks[c], calls[c], marks[c + 1]);
      forall k
        ensures TraceOf(marks[c], k) <= TraceOf(marks[c + 1], k)
      {
        assert KeySpec(Find(restored, k), TraceOf(marks[c], k), calls[c], TraceOf(marks[c + 1], k), k);
      }
    }
  }

  lemma KeyAt(restored: map<Key, Record>, marks: seq<Marks>, calls: seq<Call>, c: nat, k: Key)
    requires IsRun(restored, marks, calls) && c < |calls|
    ensures KeySpec(Find(restored, k), TraceOf(marks[c], k), calls[c], TraceOf(marks[c + 1], k), k)
  {
    hide KeySpec;
    assert CallSpec(restored, marks[c], calls[c], marks[c + 1]);
  }

  lemma {:induction false} FiringExists(init: Option<Record>, trace: seq<Event>, m: nat, n: nat) returns (p: nat)
    requires m <= n <= |trace| && Firings(init, trace[..m]) < Firings(init, trace[..n])
    ensures m <= p < n && FiresAt(init, trace, p)
    decreases n
  {
    hide Fires, Replay;
    assert trace[..n][..n - 1] == trace[..n - 1];
    if Firings(init, trace[..m]) < Firings(init, trace[..n - 1]) {
      p := FiringExists(init, trace, m, n - 1);
    } else {
      p := n - 1;
    }
  }

  /** An alert returned by a call is a firing among the events of that call. */
  lemma AlertIsFiring(restored: map<Key, Record>, marks: seq<Marks>, calls: seq<Call>, c: nat, k: Key) returns (n: nat)
    requires IsRun(restored, marks, calls) && c < |calls| && k in AlertsOf(calls[c])
    ensures |marks| == |calls| + 1 && Chain(marks) && InCall(marks, k, c, n)
    ensures FiresAt(Find(restored, k), TraceOf(marks[|calls|], k), n)
  {
    hide Gains, Firings, Chain, FiresAt, CallSpec, AlertsOf;
    RunIsChain(restored, marks, calls);
    KeyAt(restored, marks, calls, c, k);
    ChainGrows(marks, k, c, |calls|);
    ChainGrows(marks, k, c + 1, |calls|);
    var trace, m, end := TraceOf(marks[|calls|], k), |TraceOf(marks[c], k)|, |TraceOf(marks[c + 1], k)|;
    assert trace[..m] == TraceOf(marks[c], k) && trace[..end] == TraceOf(marks[c + 1], k);
    n := FiringExists(Find(restored, k), trace, m, end);
  }

  lemma EventIsExplained(restored: map<Key, Record>, marks: seq<Marks>, calls: seq<Call>, c: nat, k: Key, n: nat)
    requires IsRun(restored, marks, calls) && c < |calls| && InCall(marks, k, c, n)
    ensures |marks| == |calls| + 1 && n < |TraceOf(marks[|calls|], k)|
    ensures Explained(calls[c], k, TraceOf(marks[|calls|], k)[n])
    ensures TraceOf(marks[|calls|], k)[n] in Gained(marks[c], marks[c + 1], k)
  {
    hide Gains, Firings, Chain, CallSpec, Explained;
    RunIsChain(restored, marks, calls);
    KeyAt(restored, marks, calls, c, k);
    GainedAt(marks, k, c, n);
    ChainGrows(marks, k, c + 1, |calls|);
    GainsAreExplained(Find(restored, k), TraceOf(marks[c], k), calls[c], TraceOf(marks[c + 1], k), k, n);
  }

  /** The call neither drops the record of `k` nor tries its rule under another condition than `f`. */
  ghost predicate KeepsRule(marks: seq<Marks>, calls: seq<Call>, c: int, k: Key, f: Fingerprint)
    requires 0 <= c < |calls| == |marks| - 1
  {
    && Drop !in Gained(marks[c], marks[c + 1], k)
    && (calls[c].Evaluation? || calls[c].Enrichment? ==>
          forall rule :: InIndex(calls[c].pass.index, rule) && rule.rule.id == k.ruleId ==> rule.fingerprint == f)
  }

  /** Between two calls that keep the rule, the trace is about one condition. */
  lemma SteadyTrace(restored: map<Key, Record>, marks: seq<Marks>, calls: seq<Call>, i: nat, m: nat, j: nat, n: nat,
                    k: Key, f: Fingerprint)
    requires IsRun(restored, marks, calls) && Chain(marks) && i <= j < |calls| && m <= n
    requires InCall(marks, k, i, m) && InCall(marks, k, j, n)
    requires forall c :: i <= c <= j ==> KeepsRule(marks, calls, c, k, f)
    ensures n < |TraceOf(marks[|calls|], k)|
    ensures var trace := TraceOf(marks[|calls|], k);
      trace[m].Observe? ==> SameCondition(trace, m, n) && trace[m].rule.fingerprint == f
  {
    hide Chain, IsRun, InIndex;
    RunIsChain(restored, marks, calls);
    EventIsExplained(restored, marks, calls, j, k, n);
    var trace := TraceOf(marks[|calls|], k);
    forall q | m <= q <= n
      ensures !trace[q].Drop? && (trace[q].Observe? ==> trace[q].rule.fingerprint == f)
    {
      var c := CallOf(marks, k, i, j + 1, q);
      EventIsExplained(restored, marks, calls, c, k, q);
      assert KeepsRule(marks, calls, c, k, f);
    }
  }

  lemma ExplainedTime(call: Call, k: Key, e: Event)
    requires Explained(call, k, e) && Timed(e)
    ensures Clocked(call) && e.now == TimeOf(call)
  {
    hide InIndex;
  }

  lemma CallTimes(restored: map<Key, Record>, marks: seq<Marks>, calls: seq<Call>, c: nat, d: nat)
    requires IsRun(restored, marks, calls) && c <= d < |calls| && Clocked(calls[c]) && Clocked(calls[d])
    ensures TimeOf(calls[c]) <= TimeOf(calls[d])
  {
    hide CallSpec, TimeOf;
  }

  lemma TimedPair(restored: map<Key, Record>, marks: seq<Marks>, calls: seq<Call>, c: nat, q: nat, d: nat, l: nat,
                  k: Key)
    requires IsRun(restored, marks, calls) && Chain(marks) && c < |calls| && d < |calls| && q <= l
    requires InCall(marks, k, c, q) && InCall(marks, k, d, l)
    ensures l < |TraceOf(marks[|calls|], k)|
    ensures var trace := TraceOf(marks[|calls|], k);
      Timed(trace[q]) && Timed(trace[l]) ==> trace[q].now <= trace[l].now
  {
    hide Chain, IsRun, Explained, TimeOf, Clocked, Gained;
    CallsInOrder(marks, k, c, q, d, l);
    EventIsExplained(restored, marks, calls, c, k, q);
    EventIsExplained(restored, marks, calls, d, k, l);
    var trace := TraceOf(marks[|calls|], k);
    if Timed(trace[q]) && Timed(trace[l]) {
      ExplainedTime(calls[c], k, trace[q]);
      ExplainedTime(calls[d], k, trace[l]);
      CallTimes(restored, marks, calls, c, d);
    }
  }

  lemma TimedTrace(restored: map<Key, Record>, marks: seq<Marks>, calls: seq<Call>, i: nat, m: nat, j: nat, n: nat,
                   k: Key)
    requires IsRun(restored, marks, calls) && Chain(marks) && i <= j < |calls| && InCall(marks, k, i, m)
    requires InCall(marks, k, j, n)
    ensures InTime(TraceOf(marks[|calls|], k), m, n)
  {
    hide Chain, IsRun, Explained, Gained;
    EventIsExplained(restored, marks, calls, j, k, n);
    var trace := TraceOf(marks[|calls|], k);
    forall q, l | m <= q <= l <= n && Timed(trace[q]) && Timed(trace[l])
      ensures trace[q].now <= trace[l].now
    {
      var c := CallOf(marks, k, i, j + 1, q);
      var d := CallOf(marks, k, i, j + 1, l);
      TimedPair(restored, marks, calls, c, q, d, l, k);
    }
  }

  lemma FiringIsObserved(init: Option<Record>, trace: seq<Event>, n: nat)
    requires FiresAt(init, trace, n)
    ensures trace[n].Observe?
  {
  }

  ghost predicate ClearedIn(marks: seq<Marks>, calls: seq<Call>, c: int, k: Key)
    requires 0 <= c < |calls| == |marks| - 1
  {
    Clocked(calls[c]) && exists e :: e in Gained(marks[c], marks[c + 1], k) && IsClear(e) && e.now == TimeOf(calls[c])
  }

  /** A sweep, or an observation that the rule does not match. */
  predicate IsClear(e: Event) {
    e.Sweep? || (e.Observe? && !e.matches)
  }

  /** The trials of a call on one key. */
  function Trials(init: Option<Record>, before: seq<Event>, call: Call, k: Key): seq<Event> {
    match call
    case Evaluation(p, seen, aircraft, _, _, _) => ShowAll(p, seen, aircraft, k, Replay(init, before))
    case Enrichment(p, _, a, ms, _) => ShowMetadata(p, ms, a, k, Replay(init, before))
    case _ => []
  }

  function TrialsIn(restored: map<Key, Record>, marks: seq<Marks>, calls: seq<Call>, c: nat, k: Key): seq<Event>
    requires c < |calls| && c < |marks|
  {
    Trials(Find(restored, k), TraceOf(marks[c], k), calls[c], k)
  }

  /** The observations that a trace gains in a call are the trials, and they come first. */
  lemma TrialsComeFirst(init: Option<Record>, before: seq<Event>, call: Call, after: seq<Event>, k: Key)
    requires before <= after && Gains(init, before, call, after, k)
    ensures before + Trials(init, before, call, k) <= after
    ensures forall n :: |before| <= n < |after| ==>
      (after[n].Observe? <==> n < |before| + |Trials(init, before, call, k)|)
  {
    hide InIndex, ShowAll, ShowMetadata, Replay, VisibleIcaos, Survives;
    var r := Replay(init, before);
    if call.Evaluation? {
      ShowAllIsObserved(call.pass, call.seen, call.aircraft, k, r);
    } else if call.Enrichment? {
      ShowMetadataIsObserved(call.pass, call.metadata, call.reported, k, r);
    }
  }

  /** The sweep of an evaluation comes right after the trials, and only for a record they have not seen. */
  lemma SweepIsLate(init: Option<Record>, before: seq<Event>, call: Call, after: seq<Event>, k: Key, n: nat)
    requires before <= after && Gains(init, before, call, after, k) && |before| <= n < |after| && after[n].Sweep?
    ensures call.Evaluation? && n == |before| + |Trials(init, before, call, k)|
    ensures var r := Replay(init, after[..n]); r.Some? && r.value.state.active && r.value.seenSequence != call.pass.sequence
  {
    hide InIndex, ShowAll, ShowMetadata, Replay, VisibleIcaos, Survives;
    var r := Replay(init, before);
    if call.Evaluation? {
      ShowAllIsObserved(call.pass, call.seen, call.aircraft, k, r);
      assert after[..|before| + |Trials(init, before, call, k)|] == before + Trials(init, before, call, k);
    } else if call.Enrichment? {
      ShowMetadataIsObserved(call.pass, call.metadata, call.reported, k, r);
    }
  }

  /** After a match the record carries the number of the evaluation, whatever it is shown later on. */
  lemma {:induction false} MatchIsSeen(p: Pass, k: Key, init: Option<Record>, trace: seq<Event>, m: nat, n: nat)
    requires m < n <= |trace| && trace[m].Observe? && trace[m].matches
    requires forall q :: m <= q < n ==> trace[q].Observe? && trace[q].sequence == p.sequence
    ensures var r := Replay(init, trace[..n]); r.Some? && r.value.seenSequence == p.sequence
    decreases n
  {
    assert trace[..n][..n - 1] == trace[..n - 1];
    if m < n - 1 {
      MatchIsSeen(p, k, init, trace, m, n - 1);
    }
  }

  /** A firing and a clear in one call are two trials: the sweep clears nothing that the call has seen. */
  lemma ClearInSameCall(init: Option<Record>, before: seq<Event>, call: Call, after: seq<Event>, k: Key, m: nat, q: nat)
    requires before <= after && Gains(init, before, call, after, k)
    requires |before| <= m < |after| && |before| <= q < |after| && m != q && FiresAt(init, after, m)
    requires IsClear(after[q])
    ensures |Trials(init, before, call, k)| >= 2
  {
    hide Gains, Trials, Replay, Step;
    TrialsComeFirst(init, before, call, after, k);
    FiringIsObserved(init, after, m);
    if after[q].Sweep? {
      SweepIsLate(init, before, call, after, k, q);
      forall i | |before| <= i < q
        ensures after[i].sequence == call.pass.sequence
      {
        GainsAreExplained(init, before, call, after, k, i);
      }
      if m < q {
        MatchIsSeen(call.pass, k, init, after, m, q);
      }
    }
  }

  lemma ClearInCall(restored: map<Key, Record>, marks: seq<Marks>, calls: seq<Call>, c: nat, k: Key, m: nat, q: nat)
    requires IsRun(restored, marks, calls) && c < |calls| && m != q && InCall(marks, k, c, m) && InCall(marks, k, c, q)
    requires FiresAt(Find(restored, k), TraceOf(marks[|calls|], k), m)
    requires q < |TraceOf(marks[|calls|], k)| && IsClear(TraceOf(marks[|calls|], k)[q])
    ensures |TrialsIn(restored, marks, calls, c, k)| >= 2
  {
    hide Gains, Trials, Replay, Chain, CallSpec;
    RunIsChain(restored, marks, calls);
    KeyAt(restored, marks, calls, c, k);
    ChainGrows(marks, k, c + 1, |calls|);
    var trace, after := TraceOf(marks[|calls|], k), TraceOf(marks[c + 1], k);
    assert after[..m] == trace[..m] && after[q] == trace[q];
    ClearInSameCall(Find(restored, k), TraceOf(marks[c], k), calls[c], after, k, m, q);
  }

  lemma ClearBetweenCalls(restored: map<Key, Record>, marks: seq<Marks>, calls: seq<Call>, i: nat, j: nat, k: Key,
                          f: Fingerprint)
    returns (m: nat, q: nat, n: nat)
    requires IsRun(restored, marks, calls) && i < j < |calls| && k in AlertsOf(calls[i]) && k in AlertsOf(calls[j])
    requires forall c :: i <= c <= j ==> KeepsRule(marks, calls, c, k, f)
    ensures |marks| == |calls| + 1 && Chain(marks) && m < q < n && InCall(marks, k, i, m) && InCall(marks, k, j, n)
    ensures var init, trace := Find(restored, k), TraceOf(marks[|calls|], k);
      q < |trace| && FiresAt(init, trace, m) && FiresAt(init, trace, n) && IsClear(trace[q])
  {
    hide IsRun, Chain, FiresAt, KeepsRule, SameCondition, Replay, InIndex;
    m := AlertIsFiring(restored, marks, calls, i, k);
    n := AlertIsFiring(restored, marks, calls, j, k);
    var init, trace := Find(restored, k), TraceOf(marks[|calls|], k);
    CallsInOrder(marks, k, i, m, j, n);
    FiringIsObserved(init, trace, m);
    SteadyTrace(restored, marks, calls, i, m, j, n, k, f);
    AlertsAlternateWithClears(init, trace, m, n);
    q :| m < q < n && ClearsAt(init, trace, q);
    ClearingEvent(init, trace, q);
  }

  /** Between two calls that alert for one rule and aircraft some call cleared the record: it swept it,
      or observed that the rule no longer matches. It was one of the two calls themselves only if that
      tried the rule on the aircraft twice. */
  lemma CallsAlternateWithClears(
    restored: map<Key, Record>, marks: seq<Marks>, calls: seq<Call>, i: nat, j: nat, k: Key, f: Fingerprint)
    returns (c: nat)
    requires IsRun(restored, marks, calls) && i < j < |calls| && k in AlertsOf(calls[i]) && k in AlertsOf(calls[j])
    requires forall c :: i <= c <= j ==> KeepsRule(marks, calls, c, k, f)
    ensures |marks| == |calls| + 1 && i <= c <= j && ClearedIn(marks, calls, c, k)
    ensures c == i || c == j ==> |TrialsIn(restored, marks, calls, c, k)| >= 2
  {
    hide IsRun, Chain, FiresAt, KeepsRule, IsClear, ClearedIn, TrialsIn;
    var m, q, n := ClearBetweenCalls(restored, marks, calls, i, j, k, f);
    c := CallOf(marks, k, i, j + 1, q);
    ClearIsIn(restored, marks, calls, c, k, q);
    if c == i {
      ClearInCall(restored, marks, calls, i, k, m, q);
    } else if c == j {
      ClearInCall(restored, marks, calls, j, k, n, q);
    }
  }

  lemma ClearIsIn(restored: map<Key, Record>, marks: seq<Marks>, calls: seq<Call>, c: nat, k: Key, q: nat)
    requires IsRun(restored, marks, calls) && c < |calls| && InCall(marks, k, c, q)
    requires q < |TraceOf(marks[|calls|], k)| && IsClear(TraceOf(marks[|calls|], k)[q])
    ensures |marks| == |calls| + 1 && ClearedIn(marks, calls, c, k)
  {
    hide CallSpec, Gained, InIndex;
    EventIsExplained(restored, marks, calls, c, k, q);
  }

  lemma ClearingEvent(init: Option<Record>, trace: seq<Event>, q: nat)
    requires ClearsAt(init, trace, q)
    ensures IsClear(trace[q])
  {
  }

  /** Two calls that alert for one rule and aircraft are at least the rule's cooldown apart, across
      clears and age pruning, when the cooldown fits the retention. */
  lemma CallsKeepCooldown(
    restored: map<Key, Record>, marks: seq<Marks>, calls: seq<Call>, i: nat, j: nat, k: Key, f: Fingerprint, cooldown: int)
    requires IsRun(restored, marks, calls) && i < j < |calls| && k in AlertsOf(calls[i]) && k in AlertsOf(calls[j])
    requires forall c :: i <= c <= j ==> KeepsRule(marks, calls, c, k, f)
    requires forall c :: i <= c <= j ==> CapPrune !in Gained(marks[c], marks[c + 1], k)
    requires forall rule :: InIndex(calls[j].pass.index, rule) && rule.rule.id == k.ruleId ==>
      rule.rule.cooldown == cooldown
    requires cooldown <= 604_800_000_000_001
    ensures TimeOf(calls[j]) - TimeOf(calls[i]) >= cooldown
  {
    hide IsRun, Chain, FiresAt, KeepsRule, SameCondition, Replay, InIndex, InTime;
    var m := AlertIsFiring(restored, marks, calls, i, k);
    var n := AlertIsFiring(restored, marks, calls, j, k);
    var init, trace := Find(restored, k), TraceOf(marks[|calls|], k);
    CallsInOrder(marks, k, i, m, j, n);
    FiringIsObserved(init, trace, m);
    FiringIsObserved(init, trace, n);
    SteadyTrace(restored, marks, calls, i, m, j, n, k, f);
    TimedTrace(restored, marks, calls, i, m, j, n, k);
    forall q | m < q < n
      ensures !trace[q].CapPrune?
    {
      var c := CallOf(marks, k, i, j + 1, q);
      EventIsExplained(restored, marks, calls, c, k, q);
    }
    EventIsExplained(restored, marks, calls, i, k, m);
    EventIsExplained(restored, marks, calls, j, k, n);
    CooldownSurvivesAgePruning(init, trace, m, n);
  }

  // ---------- an alert takes as many calls as its rule demands ----------

  /** The call observed a match of condition `f`. */
  predicate MatchedIn(before: seq<Event>, after: seq<Event>, f: Fingerprint) {
    exists n :: |before| <= n < |after| && IsMatch(after[n], f)
  }

  /** How many of the calls `lo` up to, not including, `hi` observed a match. */
  function MatchingCalls(marks: seq<Marks>, k: Key, f: Fingerprint, lo: nat, hi: nat): nat
    requires lo <= hi < |marks|
    decreases hi
  {
    if lo == hi then 0 else
    MatchingCalls(marks, k, f, lo, hi - 1) + if MatchedIn(TraceOf(marks[hi - 1], k), TraceOf(marks[hi], k), f) then 1 else 0
  }

  lemma {:induction false} MatchesSplit(trace: seq<Event>, a: nat, b: nat, d: nat, f: Fingerprint)
    requires a <= b <= d <= |trace|
    ensures Matches(trace, a, d, f) == Matches(trace, a, b, f) + Matches(trace, b, d, f)
    decreases d
  {
    hide IsMatch;
    if b < d {
      MatchesSplit(trace, a, b, d - 1, f);
    }
  }

  lemma {:induction false} NoMatches(trace: seq<Event>, lo: nat, hi: nat, f: Fingerprint)
    requires lo <= hi <= |trace| && forall n :: lo <= n < hi ==> !IsMatch(trace[n], f)
    ensures Matches(trace, lo, hi, f) == 0
    decreases hi
  {
    hide IsMatch;
    if lo < hi {
      NoMatches(trace, lo, hi - 1, f);
    }
  }

  /** A call with at most one trial observes at most one match. */
  lemma MatchesInCall(restored: map<Key, Record>, marks: seq<Marks>, calls: seq<Call>, c: nat, k: Key, f: Fingerprint)
    requires IsRun(restored, marks, calls) && c < |calls| && |TrialsIn(restored, marks, calls, c, k)| <= 1
    ensures |marks| == |calls| + 1
    ensures |TraceOf(marks[c], k)| <= |TraceOf(marks[c + 1], k)| <= |TraceOf(marks[|calls|], k)|
    ensures Matches(TraceOf(marks[|calls|], k), |TraceOf(marks[c], k)|, |TraceOf(marks[c + 1], k)|, f) <=
      if MatchedIn(TraceOf(marks[c], k), TraceOf(marks[c + 1], k), f) then 1 else 0
  {
    hide CallSpec, Gains, Trials, Firings, Chain;
    RunIsChain(restored, marks, calls);
    KeyAt(restored, marks, calls, c, k);
    ChainGrows(marks, k, c + 1, |calls|);
    var before, after, trace := TraceOf(marks[c], k), TraceOf(marks[c + 1], k), TraceOf(marks[|calls|], k);
    TrialsComeFirst(Find(restored, k), before, calls[c], after, k);
    MatchesOfOne(trace, before, after, f);
  }

  lemma MatchesOfOne(trace: seq<Event>, before: seq<Event>, after: seq<Event>, f: Fingerprint)
    requires before <= after <= trace && forall n :: |before| < n < |after| ==> !after[n].Observe?
    ensures Matches(trace, |before|, |after|, f) <= if MatchedIn(before, after, f) then 1 else 0
  {
    if |before| < |after| {
      MatchesSplit(trace, |before|, |before| + 1, |after|, f);
      NoMatches(trace, |before| + 1, |after|, f);
      assert Matches(trace, |before|, |before|, f) == 0;
      assert after[|before|] == trace[|before|];
    }
  }

  lemma {:induction false} MatchesInCalls(restored: map<Key, Record>, marks: seq<Marks>, calls: seq<Call>, lo: nat,
                                          hi: nat, k: Key, f: Fingerprint)
    requires IsRun(restored, marks, calls) && lo <= hi <= |calls|
    requires forall c :: lo <= c < hi ==> |TrialsIn(restored, marks, calls, c, k)| <= 1
    ensures |marks| == |calls| + 1 && |TraceOf(marks[lo], k)| <= |TraceOf(marks[hi], k)| <= |TraceOf(marks[|calls|], k)|
    ensures Matches(TraceOf(marks[|calls|], k), |TraceOf(marks[lo], k)|, |TraceOf(marks[hi], k)|,
                    f) <= MatchingCalls(marks, k, f, lo, hi)
    decreases hi
  {
    hide IsRun, TrialsIn, MatchedIn, Chain;
    RunIsChain(restored, marks, calls);
    ChainGrows(marks, k, lo, hi);
    ChainGrows(marks, k, hi, |calls|);
    if lo < hi {
      MatchesInCalls(restored, marks, calls, lo, hi - 1, k, f);
      MatchesInCall(restored, marks, calls, hi - 1, k, f);
      MatchesSplit(TraceOf(marks[|calls|], k), |TraceOf(marks[lo], k)|, |TraceOf(marks[hi - 1], k)|,
                   |TraceOf(marks[hi], k)|, f);
    }
  }

  lemma CountThenFire(init: Option<Record>, trace: seq<Event>, lo: nat, n: nat, f: Fingerprint)
    requires lo <= n < |trace| && FiresAt(init, trace, n) && trace[n].rule.fingerprint == f
    requires CountOf(At(init, trace, lo), f) == 0
    ensures Matches(trace, lo, n + 1, f) >= Minimum(trace[n].rule)
  {
    CountIsBacked(init, trace, lo, n, f);
  }

  /** Since any point at which nothing is counted towards its rule, an alert takes at least as many
      matching calls as the rule demands, when every call tries the rule on the aircraft at most once. */
  lemma AlertTakesCalls(restored: map<Key, Record>, marks: seq<Marks>, calls: seq<Call>, lo: nat, j: nat, k: Key,
                        f: Fingerprint, minimum: nat)
    requires IsRun(restored, marks, calls) && lo <= j < |calls| && k in AlertsOf(calls[j])
    requires forall c :: lo <= c <= j ==> |TrialsIn(restored, marks, calls, c, k)| <= 1
    requires CountOf(Replay(Find(restored, k), TraceOf(marks[lo], k)), f) == 0
    requires forall rule :: InIndex(calls[j].pass.index, rule) && rule.rule.id == k.ruleId ==>
      rule.fingerprint == f && Minimum(rule) == minimum
    ensures |marks| == |calls| + 1 && MatchingCalls(marks, k, f, lo, j + 1) >= minimum
  {
    hide IsRun, Chain, FiresAt, Replay, InIndex, TrialsIn, Minimum, MatchingCalls, CountOf, Gained;
    var n := AlertIsFiring(restored, marks, calls, j, k);
    var init, trace := Find(restored, k), TraceOf(marks[|calls|], k);
    FiringIsObserved(init, trace, n);
    EventIsExplained(restored, marks, calls, j, k, n);
    ChainGrows(marks, k, lo, j);
    ChainGrows(marks, k, lo, |calls|);
    assert trace[..|TraceOf(marks[lo], k)|] == TraceOf(marks[lo], k);
    CountThenFire(init, trace, |TraceOf(marks[lo], k)|, n, f);
    MatchesInCalls(restored, marks, calls, lo, j + 1, k, f);
    MatchesSplit(trace, |TraceOf(marks[lo], k)|, n + 1, |TraceOf(marks[j + 1], k)|, f);
  }

  /** After a call that cleared the record, and tried its rule at most once, nothing is counted. */
  lemma ClearedCountsNothing(restored: map<Key, Record>, marks: seq<Marks>, calls: seq<Call>, c: nat, k: Key,
                             f: Fingerprint)
    requires IsRun(restored, marks, calls) && c < |calls| && |TrialsIn(restored, marks, calls, c, k)| <= 1
    requires |marks| == |calls| + 1 && KeepsRule(marks, calls, c, k, f) && ClearedIn(marks, calls, c, k)
    ensures CountOf(Replay(Find(restored, k), TraceOf(marks[c + 1], k)), f) == 0
  {
    hide CallSpec, Gains, Trials, Firings, Replay, CountOf, Chain, InIndex, IsClear;
    KeyAt(restored, marks, calls, c, k);
    var before, after := TraceOf(marks[c], k), TraceOf(marks[c + 1], k);
    var q := ClearIndex(marks, calls, c, k);
    assert after[q] in Gained(marks[c], marks[c + 1], k);
    GainsAreExplained(Find(restored, k), before, calls[c], after, k, q);
    ClearedKey(Find(restored, k), before, calls[c], after, k, q, f);
  }

  lemma ClearIndex(marks: seq<Marks>, calls: seq<Call>, c: nat, k: Key) returns (q: nat)
    requires c < |calls| == |marks| - 1 && ClearedIn(marks, calls, c, k)
    ensures |TraceOf(marks[c], k)| <= q < |TraceOf(marks[c + 1], k)| && IsClear(TraceOf(marks[c + 1], k)[q])
    ensures TraceOf(marks[c + 1], k)[q] in Gained(marks[c], marks[c + 1], k)
  {
    var gained := Gained(marks[c], marks[c + 1], k);
    var e :| e in gained && IsClear(e) && e.now == TimeOf(calls[c]);
    var i :| 0 <= i < |gained| && gained[i] == e;
    q := |TraceOf(marks[c], k)| + i;
  }

  lemma ClearedKey(init: Option<Record>, before: seq<Event>, call: Call, after: seq<Event>, k: Key, q: nat,
                   f: Fingerprint)
    requires before <= after && Gains(init, before, call, after, k) && |Trials(init, before, call, k)| <= 1
    requires |before| <= q < |after| && IsClear(after[q]) && (after[q].Observe? ==> after[q].rule.fingerprint == f)
    ensures CountOf(Replay(init, after), f) == 0
  {
    hide Gains, Trials, Replay, CountOf, Step;
    TrialsComeFirst(init, before, call, after, k);
    if after[q].Sweep? {
      SweepIsLate(init, before, call, after, k, q);
    }
    ClearCountsNothing(init, after, q, f);
    NoMatches(after, q + 1, |after|, f);
    CountIsBacked(init, after, q + 1, |after|, f);
    assert after[..|after|] == after;
  }

  lemma ClearCountsNothing(init: Option<Record>, trace: seq<Event>, q: nat, f: Fingerprint)
    requires q < |trace| && IsClear(trace[q])
    requires trace[q].Observe? ==> trace[q].rule.fingerprint == f
    requires trace[q].Sweep? ==> IsActive(Replay(init, trace[..q]))
    ensures CountOf(At(init, trace, q + 1), f) == 0
  {
    AtNext(init, trace, q);
  }

  /** After the last clear, an alert takes at least as many matching calls as its rule demands. */
  lemma AlertTakesCallsSinceClear(
    restored: map<Key, Record>, marks: seq<Marks>, calls: seq<Call>, c: nat, j: nat, k: Key, f: Fingerprint, minimum: nat)
    requires IsRun(restored, marks, calls) && c < j < |calls| && k in AlertsOf(calls[j])
    requires forall d :: c <= d <= j ==> |TrialsIn(restored, marks, calls, d, k)| <= 1
    requires |marks| == |calls| + 1 && KeepsRule(marks, calls, c, k, f) && ClearedIn(marks, calls, c, k)
    requires forall rule :: InIndex(calls[j].pass.index, rule) && rule.rule.id == k.ruleId ==>
      rule.fingerprint == f && Minimum(rule) == minimum
    ensures MatchingCalls(marks, k, f, c + 1, j + 1) >= minimum
  {
    hide IsRun, InIndex, TrialsIn, Minimum, MatchingCalls, CountOf, KeepsRule, ClearedIn, Replay;
    ClearedCountsNothing(restored, marks, calls, c, k, f);
    AlertTakesCalls(restored, marks, calls, c + 1, j, k, f, minimum);
  }

  // ---------- enough calls raise the alert ----------

  lemma {:induction false} FiringCounts(init: Option<Record>, trace: seq<Event>, m: nat, n: nat)
    requires m <= n <= |trace|
    ensures Firings(init, trace[..m]) <= Firings(init, trace[..n])
    ensures (exists p: nat :: m <= p < n && FiresAt(init, trace, p)) ==>
      Firings(init, trace[..m]) < Firings(init, trace[..n])
    decreases n
  {
    hide Fires, Replay;
    if m < n {
      FiringCounts(init, trace, m, n - 1);
      assert trace[..n][..n - 1] == trace[..n - 1];
    }
  }

  /** A firing among the events of a call is an alert that the call returns. */
  lemma FiringIsAlerted(restored: map<Key, Record>, marks: seq<Marks>, calls: seq<Call>, c: nat, k: Key, n: nat)
    requires IsRun(restored, marks, calls) && c < |calls| && InCall(marks, k, c, n)
    requires FiresAt(Find(restored, k), TraceOf(marks[|calls|], k), n)
    ensures k in AlertsOf(calls[c])
  {
    hide Gains, Firings, Chain, FiresAt, CallSpec, AlertsOf;
    RunIsChain(restored, marks, calls);
    KeyAt(restored, marks, calls, c, k);
    ChainGrows(marks, k, c, |calls|);
    ChainGrows(marks, k, c + 1, |calls|);
    var trace, m, end := TraceOf(marks[|calls|], k), |TraceOf(marks[c], k)|, |TraceOf(marks[c + 1], k)|;
    assert trace[..m] == TraceOf(marks[c], k) && trace[..end] == TraceOf(marks[c + 1], k);
    FiringCounts(Find(restored, k), trace, m, end);
  }

  lemma {:induction false} MatchAmong(trace: seq<Event>, lo: nat, n: nat, hi: nat, f: Fingerprint)
    requires lo <= n < hi <= |trace| && IsMatch(trace[n], f)
    ensures Matches(trace, lo, hi, f) >= 1
    decreases hi
  {
    hide IsMatch;
    if n < hi - 1 {
      MatchAmong(trace, lo, n, hi - 1, f);
    }
  }

  /** Every matching call contributes a match. */
  lemma {:induction false} MatchesCoverCalls(restored: map<Key, Record>, marks: seq<Marks>, calls: seq<Call>, lo: nat,
                                             hi: nat, k: Key, f: Fingerprint)
    requires IsRun(restored, marks, calls) && lo <= hi <= |calls|
    ensures |marks| == |calls| + 1 && |TraceOf(marks[lo], k)| <= |TraceOf(marks[hi], k)| <= |TraceOf(marks[|calls|], k)|
    ensures MatchingCalls(marks, k, f, lo, hi) <=
      Matches(TraceOf(marks[|calls|], k), |TraceOf(marks[lo], k)|, |TraceOf(marks[hi], k)|, f)
    decreases hi
  {
    hide IsRun, Chain, IsMatch;
    RunIsChain(restored, marks, calls);
    ChainGrows(marks, k, lo, hi);
    ChainGrows(marks, k, hi, |calls|);
    if lo < hi {
      MatchesCoverCalls(restored, marks, calls, lo, hi - 1, k, f);
      ChainGrows(marks, k, hi - 1, hi);
      var before, after, trace := TraceOf(marks[hi - 1], k), TraceOf(marks[hi], k), TraceOf(marks[|calls|], k);
      MatchesSplit(trace, |TraceOf(marks[lo], k)|, |before|, |after|, f);
      if MatchedIn(before, after, f) {
        var n :| |before| <= n < |after| && IsMatch(after[n], f);
        assert after[n] == trace[n];
        MatchAmong(trace, |before|, n, |after|, f);
      }
    }
  }

  /** The match that brings the count to `minimum`. */
  lemma {:induction false} MatchReached(trace: seq<Event>, lo: nat, hi: nat, f: Fingerprint, minimum: nat)
    returns (j: nat)
    requires lo <= hi <= |trace| && 1 <= minimum <= Matches(trace, lo, hi, f)
    ensures lo <= j < hi && IsMatch(trace[j], f) && Matches(trace, lo, j + 1, f) >= minimum
    decreases hi
  {
    hide IsMatch;
    if Matches(trace, lo, hi - 1, f) >= minimum {
      j := MatchReached(trace, lo, hi - 1, f, minimum);
    } else {
      j := hi - 1;
    }
  }

  /** An alert of a call before `lo`, or one known from before the run, is less than the cooldown back. */
  ghost predicate Cooling(restored: map<Key, Record>, calls: seq<Call>, lo: nat, k: Key, now: int, cooldown: int) {
    || (exists d :: 0 <= d < lo <= |calls| && k in AlertsOf(calls[d]) && now - TimeOf(calls[d]) < cooldown)
    || (k in restored && restored[k].state.lastFiredAt.Some? && now - restored[k].state.lastFiredAt.value < cooldown)
  }

  /** Between two marks the trace of `k` is not interrupted, and its matches are of rules that demand
      `minimum` and cool down for `cooldown`. */
  ghost predicate Undisturbed(restored: map<Key, Record>, marks: seq<Marks>, lo: nat, hi: nat, k: Key,
                              f: Fingerprint, minimum: nat, cooldown: int)
    requires lo <= hi < |marks|
  {
    var trace := TraceOf(marks[|marks| - 1], k);
    forall n :: |TraceOf(marks[lo], k)| <= n < |TraceOf(marks[hi], k)| && n < |trace| ==>
      && Uninterrupted(Find(restored, k), trace, n, f, minimum)
      && (IsMatch(trace[n], f) ==> Minimum(trace[n].rule) == minimum && trace[n].rule.rule.cooldown == cooldown)
  }

  /** The firing at event `m` is an alert of one of the calls `lo` to `hi`, or makes the rule cool. */
  lemma FiringExplains(restored: map<Key, Record>, marks: seq<Marks>, calls: seq<Call>, lo: nat, hi: nat, k: Key,
                       m: nat, now: int, cooldown: int)
    returns (c: int)
    requires IsRun(restored, marks, calls) && |marks| == |calls| + 1 && lo <= hi <= |calls|
    requires m < |TraceOf(marks[hi], k)| && FiresAt(Find(restored, k), TraceOf(marks[|calls|], k), m)
    requires now - TraceOf(marks[|calls|], k)[m].now < cooldown || |TraceOf(marks[lo], k)| <= m
    requires TraceOf(marks[|calls|], k)[m].Observe?
    ensures if c < 0 then Cooling(restored, calls, lo, k, now, cooldown)
            else lo <= c < hi && Clocked(calls[c]) && k in AlertsOf(calls[c])
  {
    hide IsRun, Chain, FiresAt, Replay, InIndex, Gained;
    RunIsChain(restored, marks, calls);
    if m >= |TraceOf(marks[lo], k)| {
      c := CallOf(marks, k, lo, hi, m);
      FiringIsAlerted(restored, marks, calls, c, k, m);
    } else {
      assert TraceOf(marks[0], k) == [] by {
        StartsEmpty(restored, marks, calls, k);
      }
      var d := CallOf(marks, k, 0, lo, m);
      FiringIsAlerted(restored, marks, calls, d, k, m);
      EventIsExplained(restored, marks, calls, d, k, m);
      c := -1;
    }
  }

  lemma StartsEmpty(restored: map<Key, Record>, marks: seq<Marks>, calls: seq<Call>, k: Key)
    requires IsRun(restored, marks, calls)
    ensures TraceOf(marks[0], k) == []
  {
    hide CallSpec;
  }

  /** Calls that observe as many matches as the rule demands, with no interruption, alert; unless the
      record was active before them, or an earlier alert is less than the cooldown back. */
  lemma EnoughCallsAlert(restored: map<Key, Record>, marks: seq<Marks>, calls: seq<Call>, lo: nat, hi: nat, k: Key,
                         f: Fingerprint, minimum: nat, cooldown: int)
    returns (c: nat)
    requires IsRun(restored, marks, calls) && |marks| == |calls| + 1 && lo <= hi <= |calls|
    requires Undisturbed(restored, marks, lo, hi, k, f, minimum, cooldown)
    requires 1 <= minimum <= MatchingCalls(marks, k, f, lo, hi)
    ensures lo <= c < hi && Clocked(calls[c])
    ensures || k in AlertsOf(calls[c])
            || ActiveFor(Replay(Find(restored, k), TraceOf(marks[lo], k)), f)
            || Cooling(restored, calls, lo, k, TimeOf(calls[c]), cooldown)
  {
    hide IsRun, Chain, FiresAt, Replay, InIndex, Gained, MatchingCalls, Uninterrupted, Minimum, ActiveFor, Cooling,
         Matches;
    var init, trace := Find(restored, k), TraceOf(marks[|calls|], k);
    var a, b := |TraceOf(marks[lo], k)|, |TraceOf(marks[hi], k)|;
    MatchesCoverCalls(restored, marks, calls, lo, hi, k, f);
    var j := MatchReached(trace, a, b, f, minimum);
    EnoughMatchesFire(init, trace, a, j, f);
    RunIsChain(restored, marks, calls);
    ChainGrows(marks, k, lo, |calls|);
    c := CallOf(marks, k, lo, hi, j);
    EventIsExplained(restored, marks, calls, c, k, j);
    var d := FiredOrCooling(restored, marks, calls, lo, hi, k, f, j, cooldown);
    if d >= 0 {
      c := d;
    }
  }

  lemma FiredOrCooling(restored: map<Key, Record>, marks: seq<Marks>, calls: seq<Call>, lo: nat, hi: nat, k: Key,
                       f: Fingerprint, j: nat, cooldown: int)
    returns (c: int)
    requires IsRun(restored, marks, calls) && |marks| == |calls| + 1 && lo <= hi <= |calls|
    requires |TraceOf(marks[lo], k)| <= j < |TraceOf(marks[hi], k)| <= |TraceOf(marks[|calls|], k)|
    requires TraceOf(marks[lo], k) <= TraceOf(marks[|calls|], k)
    requires TraceOf(marks[|calls|], k)[j].Observe?
    requires var trace := TraceOf(marks[|calls|], k);
             var r := At(Find(restored, k), trace, j + 1);
             ActiveFor(r, f) || (r.Some? && r.value.state.lastFiredAt.Some?
                                 && trace[j].now - r.value.state.lastFiredAt.value < cooldown)
    ensures if c >= 0 then lo <= c < hi && Clocked(calls[c]) && k in AlertsOf(calls[c])
            else || ActiveFor(Replay(Find(restored, k), TraceOf(marks[lo], k)), f)
                 || Cooling(restored, calls, lo, k, TraceOf(marks[|calls|], k)[j].now, cooldown)
  {
    hide IsRun, FiresAt, Replay;
    var init, trace, a := Find(restored, k), TraceOf(marks[|calls|], k), |TraceOf(marks[lo], k)|;
    assert trace[..a] == TraceOf(marks[lo], k);
    c := -1;
    if ActiveFor(At(init, trace, j + 1), f) {
      var m := ActiveMeansFired(init, trace, a, j + 1, f);
      if !ActiveFor(At(init, trace, a), f) {
        FiringIsObserved(init, trace, m);
        c := FiringExplains(restored, marks, calls, lo, hi, k, m, trace[j].now, cooldown);
      }
    } else {
      var m := LastFiringHappened(init, trace, j + 1);
      if m >= 0 {
        FiringIsObserved(init, trace, m);
        c := FiringExplains(restored, marks, calls, lo, hi, k, m, trace[j].now, cooldown);
      }
    }
  }
}
