/** One scope of the rule engine (`scopeState` with the parts of `Engine` that work on it). The
    map of records is at all times the replay of one event sequence per (rule, aircraft), and every
    method is one of the calls of module RuleCalls, so its theorems hold of every run. */
module RuleEngine {
  import opened Text
  import opened Domain
  import opened RuleIndex
  import opened Traces
  import opened WatchRules
  import opened RuleCalls

  /** The body of `matchRecord` on the record found for the key. */
  method Decide(found: Option<Record>, now: int, sequence: nat, rule: Compiled, matches: bool)
    returns (record: Option<Record>, fires: bool)
    ensures record == Step(found, Observe(now, sequence, rule, matches))
    ensures fires == Fires(found, Observe(now, sequence, rule, matches))
    ensures fires <==> && matches
                       && var s := if found.Some? && found.value.state.fingerprint == rule.fingerprint then found.value.state
                                   else Fresh(rule);
                          && !s.active && (s.lastFiredAt.Some? ==> now - s.lastFiredAt.value >= rule.rule.cooldown)
                          && s.consecutiveMatches + 1 >=
                             (if rule.rule.minimumObservations >= 1 then rule.rule.minimumObservations else 2)
    ensures found.Some? ==> record.Some?
    ensures matches ==> record.Some? && record.value.seenSequence == sequence
    ensures record.Some? ==> record == found || record.value.seenSequence == sequence
  {
    record, fires := found, false;
    var current := found.Some? && found.value.state.fingerprint == rule.fingerprint;
    if !matches {
      if current {
        var state := found.value.state;
        if state.active || state.consecutiveMatches != 0 {
          state := state.(active := false, consecutiveMatches := 0, lastClearAt := Some(now));
        }
        record := Some(Record(state, sequence, rule.rule.bestEffort, Some(now)));
      }
      return;
    }
    var state := if current then found.value.state else AlertState(rule.fingerprint, None, None, 0, false);
    var minimum := if rule.rule.minimumObservations < 1 then 2 else rule.rule.minimumObservations;
    if !state.active && state.consecutiveMatches < minimum {
      state := state.(consecutiveMatches := state.consecutiveMatches + 1);
    }
    fires := !state.active && state.consecutiveMatches >= minimum
             && (state.lastFiredAt.None? || now - state.lastFiredAt.value >= rule.rule.cooldown);
    if fires {
      state := state.(active := true, lastFiredAt := Some(now));
    }
    record := Some(Record(state, sequence, rule.rule.bestEffort, Some(now)));
  }

  // ---------- keeping the books ----------

  /** Every record is what its trace leads to. */
  ghost predicate Explains(restored: map<Key, Record>, traces: Marks, states: map<Key, Record>) {
    forall k :: Find(states, k) == Replay(Find(restored, k), TraceOf(traces, k))
  }

  /** The alerts are exactly the firings the traces have gained. */
  ghost predicate Raised(restored: map<Key, Record>, before: Marks, after: Marks, alerts: seq<Key>) {
    forall k ::
      Firings(Find(restored, k), TraceOf(after, k)) == Firings(Find(restored, k), TraceOf(before, k)) + multiset(alerts)[k]
  }

  lemma NothingRaised(restored: map<Key, Record>, traces: Marks)
    ensures Raised(restored, traces, traces, [])
  {
  }

  lemma FindPut(m: map<Key, Record>, k: Key, r: Option<Record>, j: Key)
    ensures Find(Put(m, k, r), j) == if j == k then r else Find(m, j)
  {
  }

  lemma LogExplains(restored: map<Key, Record>, traces: Marks, states: map<Key, Record>, k: Key, e: Event)
    requires Explains(restored, traces, states)
    ensures Explains(restored, Logged(traces, k, e), Put(states, k, Step(Find(states, k), e)))
  {
    hide Replay, Step, TraceOf, Find, Put;
    forall j
      ensures Find(Put(states, k, Step(Find(states, k), e)), j) == Replay(Find(restored, j), TraceOf(Logged(traces, k, e), j))
    {
      TraceAfter(traces, k, e, j);
      FindPut(states, k, Step(Find(states, k), e), j);
      ReplayNext(Find(restored, k), TraceOf(traces, k), e);
    }
  }

  lemma LogRaises(restored: map<Key, Record>, start: Marks, traces: Marks, alerts: seq<Key>, k: Key, e: Event)
    requires Raised(restored, start, traces, alerts)
    ensures var fired := Fires(Replay(Find(restored, k), TraceOf(traces, k)), e);
            Raised(restored, start, Logged(traces, k, e), alerts + if fired then [k] else [])
  {
    hide Replay, Firings, Fires, TraceOf, Find;
    var fired := Fires(Replay(Find(restored, k), TraceOf(traces, k)), e);
    forall j
      ensures Firings(Find(restored, j), TraceOf(Logged(traces, k, e), j)) ==
        Firings(Find(restored, j), TraceOf(start, j)) + multiset(alerts + if fired then [k] else [])[j]
    {
      TraceAfter(traces, k, e, j);
      ReplayNext(Find(restored, k), TraceOf(traces, k), e);
      CountRaised(alerts, k, fired, j);
    }
  }

  lemma ExplainsAt(restored: map<Key, Record>, traces: Marks, states: map<Key, Record>, k: Key)
    requires Explains(restored, traces, states)
    ensures Find(states, k) == Replay(Find(restored, k), TraceOf(traces, k))
  {
    hide Replay;
  }

  /** The record after some events, told by the traces. */
  lemma RecordAfter(restored: map<Key, Record>, start: Marks, traces: Marks, began: map<Key, Record>, states: map<Key,
                    Record>,
                    k: Key, gained: seq<Event>)
    requires Explains(restored, start, began) && Explains(restored, traces, states)
    requires TraceOf(traces, k) == TraceOf(start, k) + gained
    ensures Find(states, k) == Replay(Find(began, k), gained)
  {
    hide Replay, TraceOf, Find;
    assert Find(began, k) == Replay(Find(restored, k), TraceOf(start, k));
    ReplayConcat(Find(restored, k), TraceOf(start, k), gained);
  }

  ghost predicate Shown(start: Marks, traces: Marks, began: map<Key, Record>,
                        p: Pass, mode: Mode, rules: seq<Compiled>, a: Aircraft, last: Option<int>)
  {
    forall k :: TraceOf(traces, k) == TraceOf(start, k) + Show(p, mode, rules, a, last, k, Find(began, k))
  }

  lemma ShownNothing(traces: Marks, began: map<Key, Record>, p: Pass, mode: Mode, a: Aircraft, last: Option<int>)
    ensures Shown(traces, traces, began, p, mode, [], a, last)
  {
  }

  lemma ShowNext(p: Pass, mode: Mode, rules: seq<Compiled>, n: nat, a: Aircraft, last: Option<int>, k: Key,
                 r: Option<Record>)
    requires n < |rules|
    ensures var before := Show(p, mode, rules[..n], a, last, k, r);
      Show(p, mode, rules[..n + 1], a, last, k, r) ==
      if Key(rules[n].rule.id, a.icao) != k then before
      else before + [Observe(p.now, p.sequence, rules[n], Verdict(mode, rules[n], a, Replay(r, before), p.now, last))]
  {
    hide Verdict, Replay;
    assert rules[..n + 1][..n] == rules[..n];
  }

  lemma ShownNext(restored: map<Key, Record>, start: Marks, traces: Marks, began: map<Key, Record>, states: map<Key,
                  Record>,
                  p: Pass, mode: Mode, rules: seq<Compiled>, n: nat, a: Aircraft, last: Option<int>)
    requires n < |rules| && Explains(restored, start, began) && Explains(restored, traces, states)
    requires Shown(start, traces, began, p, mode, rules[..n], a, last)
    ensures var key := Key(rules[n].rule.id, a.icao);
      var e := Observe(p.now, p.sequence, rules[n], Verdict(mode, rules[n], a, Find(states, key), p.now, last));
      Shown(start, Logged(traces, key, e), began, p, mode, rules[..n + 1], a, last)
  {
    hide Verdict, Replay, Show, TraceOf, Find, Explains;
    var key := Key(rules[n].rule.id, a.icao);
    var e := Observe(p.now, p.sequence, rules[n], Verdict(mode, rules[n], a, Find(states, key), p.now, last));
    forall k
      ensures TraceOf(Logged(traces, key, e), k) == TraceOf(start, k) + Show(p, mode, rules[..n + 1], a, last, k, Find(began, k))
    {
      TraceAfter(traces, key, e, k);
      ShowNext(p, mode, rules, n, a, last, k, Find(began, k));
      RecordAfter(restored, start, traces, began, states, k, Show(p, mode, rules[..n], a, last, k, Find(began, k)));
    }
  }

  ghost predicate ShownLists(start: Marks, traces: Marks, began: map<Key, Record>, p: Pass, n: nat, a: Aircraft,
                             last: Option<int>)
    requires n <= 4
  {
    forall k :: TraceOf(traces, k) == TraceOf(start, k) + ShowLists(p, n, a, last, k, Find(began, k))
  }

  lemma ShownNoList(traces: Marks, began: map<Key, Record>, p: Pass, a: Aircraft, last: Option<int>)
    ensures ShownLists(traces, traces, began, p, 0, a, last)
  {
  }

  lemma ShownNextList(restored: map<Key, Record>, start: Marks, was: Marks, traces: Marks,
                      began: map<Key, Record>, states: map<Key, Record>,
                      p: Pass, n: nat, a: Aircraft, last: Option<int>)
    requires n < 4 && Explains(restored, start, began) && Explains(restored, was, states)
    requires ShownLists(start, was, began, p, n, a, last)
    requires Shown(was, traces, states, p, RulesFor(p.index, a, n).0, RulesFor(p.index, a, n).1, a, last)
    ensures ShownLists(start, traces, began, p, n + 1, a, last)
  {
    hide Replay, Show, TraceOf, Find, Explains, RulesFor;
    forall k
      ensures TraceOf(traces, k) == TraceOf(start, k) + ShowLists(p, n + 1, a, last, k, Find(began, k))
    {
      RecordAfter(restored, start, was, began, states, k, ShowLists(p, n, a, last, k, Find(began, k)));
    }
  }

  ghost predicate ShownAll(start: Marks, traces: Marks, began: map<Key, Record>,
                           p: Pass, seen: Sightings, aircraft: seq<Aircraft>)
  {
    forall k :: TraceOf(traces, k) == TraceOf(start, k) + ShowAll(p, seen, aircraft, k, Find(began, k))
  }

  lemma ShownNoAircraft(traces: Marks, began: map<Key, Record>, p: Pass, seen: Sightings)
    ensures ShownAll(traces, traces, began, p, seen, [])
  {
  }

  lemma ShownNextAircraft(restored: map<Key, Record>, start: Marks, was: Marks, traces: Marks, began: map<Key, Record>,
                          states: map<Key, Record>, p: Pass, seen: Sightings, aircraft: seq<Aircraft>, n: nat)
    requires n < |aircraft| && Explains(restored, start, began) && Explains(restored, was, states)
    requires ShownAll(start, was, began, p, seen, aircraft[..n])
    requires ShownLists(was, traces, states, p, 4, aircraft[n], LastSeen(seen, aircraft[..n], aircraft[n].icao, p.now))
    ensures ShownAll(start, traces, began, p, seen, aircraft[..n + 1])
  {
    hide Replay, ShowLists, TraceOf, Find, Explains, LastSeen;
    assert aircraft[..n + 1][..n] == aircraft[..n];
    forall k
      ensures TraceOf(traces, k) == TraceOf(start, k) + ShowAll(p, seen, aircraft[..n + 1], k, Find(began, k))
    {
      RecordAfter(restored, start, was, began, states, k, ShowAll(p, seen, aircraft[..n], k, Find(began, k)));
    }
  }

  ghost predicate ShownValues(start: Marks, traces: Marks, began: map<Key, Record>, p: Pass, m: Metadata, n: nat,
                              a: Aircraft)
    requires n <= |m.order|
  {
    forall k :: TraceOf(traces, k) == TraceOf(start, k) + ShowValues(p, m, n, a, k, Find(began, k))
  }

  lemma ShownNextValue(restored: map<Key, Record>, start: Marks, was: Marks, traces: Marks, began: map<Key, Record>,
                       states: map<Key, Record>, p: Pass, m: Metadata, longer: Metadata, a: Aircraft, value: string)
    requires Explains(restored, start, began) && Explains(restored, was, states)
    requires longer == m.(order := m.order + [value]) && ShownValues(start, was, began, p, m, |m.order|, a)
    requires Shown(was, traces, states, p, Fixed(m.actual != "" && m.actual == value),
                   Get(Values(p.index, m.kind), value), a, None)
    ensures ShownValues(start, traces, began, p, longer, |longer.order|, a)
  {
    hide Replay, Show, ShowValues, TraceOf, Find, Explains;
    forall k
      ensures TraceOf(traces, k) == TraceOf(start, k) + ShowValues(p, longer, |longer.order|, a, k, Find(began, k))
    {
      RecordAfter(restored, start, was, began, states, k, ShowValues(p, m, |m.order|, a, k, Find(began, k)));
      ValuesNext(p, m, value, a, k, Find(began, k));
    }
  }

  lemma ValuesNext(p: Pass, m: Metadata, value: string, a: Aircraft, k: Key, r: Option<Record>)
    ensures var longer, before := m.(order := m.order + [value]), ShowValues(p, m, |m.order|, a, k, r);
      ShowValues(p, longer, |longer.order|, a, k, r) == before
        + Show(p, Fixed(m.actual != "" && m.actual == value), Get(Values(p.index, m.kind), value), a, None, k, Replay(r, before))
  {
    hide Show, Replay;
    SameValues(p, m, m.(order := m.order + [value]), |m.order|, a, k, r);
  }

  lemma {:induction false} SameValues(p: Pass, m: Metadata, longer: Metadata, n: nat, a: Aircraft, k: Key,
                                      r: Option<Record>)
    requires longer == m.(order := longer.order) && n <= |m.order| && m.order <= longer.order
    ensures ShowValues(p, longer, n, a, k, r) == ShowValues(p, m, n, a, k, r)
  {
    hide Show, Replay;
    if n > 0 {
      SameValues(p, m, longer, n - 1, a, k, r);
    }
  }

  lemma ShownNoValue(traces: Marks, began: map<Key, Record>, p: Pass, m: Metadata, a: Aircraft)
    ensures ShownValues(traces, traces, began, p, m, 0, a)
  {
  }

  ghost predicate ShownMetadata(start: Marks, traces: Marks, began: map<Key, Record>, p: Pass, ms: seq<Metadata>,
                                a: Aircraft) {
    forall k :: TraceOf(traces, k) == TraceOf(start, k) + ShowMetadata(p, ms, a, k, Find(began, k))
  }

  lemma ShownNoMetadata(traces: Marks, began: map<Key, Record>, p: Pass, a: Aircraft)
    ensures ShownMetadata(traces, traces, began, p, [], a)
  {
  }

  lemma ShownNextMetadata(restored: map<Key, Record>, start: Marks, was: Marks, traces: Marks, began: map<Key, Record>,
                          states: map<Key, Record>, p: Pass, ms: seq<Metadata>, m: Metadata, a: Aircraft)
    requires Explains(restored, start, began) && Explains(restored, was, states)
    requires ShownMetadata(start, was, began, p, ms, a) && ShownValues(was, traces, states, p, m, |m.order|, a)
    ensures ShownMetadata(start, traces, began, p, ms + [m], a)
  {
    hide Replay, ShowValues, TraceOf, Find, Explains;
    assert (ms + [m])[..|ms|] == ms;
    forall k
      ensures TraceOf(traces, k) == TraceOf(start, k) + ShowMetadata(p, ms + [m], a, k, Find(began, k))
    {
      RecordAfter(restored, start, was, began, states, k, ShowMetadata(p, ms, a, k, Find(began, k)));
    }
  }

  /** The traces have gained the trials and the sweep of an evaluation. */
  ghost predicate SweptAll(restored: map<Key, Record>, start: Marks, swept: Marks, p: Pass, seen: Sightings,
                           aircraft: seq<Aircraft>) {
    forall k :: TraceOf(swept, k) == SweptTrace(Find(restored, k), TraceOf(start, k), p, seen, aircraft, k)
  }

  /** The keys outside `rest` have been swept. */
  ghost predicate SweptFor(start: Marks, traces: Marks, began: map<Key, Record>, states: map<Key, Record>,
                           p: Pass, visible: set<string>, rest: set<Key>)
  {
    && (forall k :: TraceOf(traces, k) == TraceOf(start, k) + if k in rest then [] else SweepOf(p, visible, k, Find(began, k)))
    && (forall k :: k in rest ==> Find(states, k) == Find(began, k))
  }

  lemma SweptNone(traces: Marks, began: map<Key, Record>, p: Pass, visible: set<string>)
    ensures SweptFor(traces, traces, began, began, p, visible, began.Keys)
  {
  }

  lemma SweptNext(start: Marks, was: Marks, traces: Marks, began: map<Key, Record>, before: map<Key, Record>,
                  states: map<Key, Record>,
                  p: Pass, visible: set<string>, rest: set<Key>, key: Key)
    requires SweptFor(start, was, began, before, p, visible, rest) && key in rest
    requires traces == if SweepOf(p, visible, key, Find(before, key)) == [] then was else Logged(was, key, Sweep(p.now))
    requires forall k :: k != key ==> Find(states, k) == Find(before, k)
    ensures SweptFor(start, traces, began, states, p, visible, rest - {key})
  {
    hide SweepOf, TraceOf, Find;
    SweepOfShape(p, visible, key, Find(before, key));
    forall k
      ensures TraceOf(traces, k) == TraceOf(start, k) + if k in rest - {key} then [] else SweepOf(p, visible, k, Find(began, k))
    {
      TraceAfter(was, key, Sweep(p.now), k);
      assert TraceOf(was, k) == TraceOf(start, k) + if k in rest then [] else SweepOf(p, visible, k, Find(began, k));
    }
  }

  lemma SweepOfShape(p: Pass, visible: set<string>, k: Key, r: Option<Record>)
    ensures SweepOf(p, visible, k, r) == [] || SweepOf(p, visible, k, r) == [Sweep(p.now)]
  {
  }

  class ScopeRuntime {
    const scope: FeederId
    ghost const restored: map<Key, Record>
    var states: map<Key, Record>
    var seen: Sightings
    var sequence: nat
    ghost var traces: Marks

    ghost predicate Valid()
      reads this`states, this`traces
    {
      Explains(restored, traces, states)
    }

    constructor (scope: FeederId, restored: map<Key, Record>)
      ensures Valid() && this.scope == scope && this.restored == restored
      ensures states == restored && seen == map[] && sequence == 0 && traces == map[]
    {
      this.scope, this.restored := scope, restored;
      states, seen, sequence, traces := restored, map[], 0, map[];
    }

    /** `match` and `matchRecord`: one rule looks at one aircraft. */
    method MatchRecord(rule: Compiled, icao: string, matches: bool, now: int,
                       alerts: seq<Key>) returns (raised: seq<Key>)
      requires Valid()
      modifies this`states, this`traces
      ensures Valid()
      ensures var key, e := Key(rule.rule.id, icao), Observe(now, sequence, rule, matches);
        && states == Put(old(states), key, Step(Find(old(states), key), e))
        && traces == Logged(old(traces), key, e)
        && raised == alerts + if Fires(Find(old(states), key), e) then [key] else []
    {
      hide Explains, Step, Fires;
      var key := Key(rule.rule.id, icao);
      ghost var e := Observe(now, sequence, rule, matches);
      LogExplains(restored, traces, states, key, e);
      var record, fires := Decide(Find(states, key), now, sequence, rule, matches);
      assert record.None? ==> states - {key} == states;
      if record.Some? {
        states := states[key := record.value];
      }
      raised := if fires then alerts + [key] else alerts;
      assert alerts + [] == alerts;
      traces := Logged(traces, key, e);
    }

    /** A list of rules looks at one aircraft: every rule of the list is tried once, in order. */
    method MatchRules(p: Pass, mode: Mode, rules: seq<Compiled>, a: Aircraft, last: Option<int>, alerts: seq<Key>,
                      ghost start: Marks)
      returns (raised: seq<Key>)
      requires Valid() && Raised(restored, start, traces, alerts) && p.sequence == sequence
      modifies this`states, this`traces
      ensures Valid() && Raised(restored, start, traces, raised)
      ensures Shown(old(traces), traces, old(states), p, mode, rules, a, last)
    {
      hide Explains, Raised, Shown, Put, Step, Fires, Verdict, Logged, Replay;
      raised := alerts;
      ghost var was, began := traces, states;
      ShownNothing(traces, states, p, mode, a, last);
      for n := 0 to |rules|
        invariant Valid() && Raised(restored, start, traces, raised)
        invariant Shown(was, traces, began, p, mode, rules[..n], a, last)
      {
        var key := Key(rules[n].rule.id, a.icao);
        var matches := Verdict(mode, rules[n], a, Find(states, key), p.now, last);
        ShownNext(restored, was, traces, began, states, p, mode, rules, n, a, last);
        ExplainsAt(restored, traces, states, key);
        LogRaises(restored, start, traces, raised, key, Observe(p.now, sequence, rules[n], matches));
        raised := MatchRecord(rules[n], a.icao, matches, p.now, raised);
      }
      assert rules[..|rules|] == rules;
    }

    /** Everything `Evaluate` does for one aircraft: its sighting is recorded, and the rules its
        identity leads to, the radius, the altitude and the first-seen rules are tried. */
    method EvaluateAircraft(p: Pass, a: Aircraft, alerts: seq<Key>, ghost start: Marks, ghost rules: seq<WatchRule>)
      returns (raised: seq<Key>)
      requires Valid() && Raised(restored, start, traces, alerts) && p.sequence == sequence
      requires Agrees(p.index, rules, scope) && Ascending(p.index.prefixLengths)
      modifies this`states, this`traces, this`seen
      ensures Valid() && Raised(restored, start, traces, raised)
      ensures ShownLists(old(traces), traces, old(states), p, 4, a, LastSeen(old(seen), [], a.icao, p.now))
      ensures seen == Sighted(old(seen), a.icao, p.now)
    {
      hide Explains, Raised, Shown, ShownLists, Agrees, Ascending, Scan, Lookups;
      var existed := a.icao in seen;
      var last := if existed then Some(seen[a.icao].lastSeen) else None;
      seen := seen[a.icao := Seen(if existed then seen[a.icao].firstSeen else p.now, p.now)];
      ghost var was, began := traces, states;
      var found := MatchIdentity(p.index, a, rules, scope);
      ShownNoList(traces, states, p, a, last);
      raised := alerts;
      for n := 0 to 4
        invariant Valid() && Raised(restored, start, traces, raised) && ShownLists(was, traces, began, p, n, a, last)
        invariant seen == Sighted(old(seen), a.icao, p.now)
      {
        var list := if n == 0 then (Fixed(true), found) else RulesFor(p.index, a, n);
        ghost var before, records := traces, states;
        raised := MatchRules(p, list.0, list.1, a, last, raised, start);
        ShownNextList(restored, was, before, traces, began, records, p, n, a, last);
      }
    }

    /** The loop over the aircraft. */
    method EvaluateAll(p: Pass, aircraft: seq<Aircraft>, ghost rules: seq<WatchRule>) returns (alerts: seq<Key>)
      requires Valid() && p.sequence == sequence
      requires Agrees(p.index, rules, scope) && Ascending(p.index.prefixLengths)
      modifies this`states, this`traces, this`seen
      ensures Valid() && Raised(restored, old(traces), traces, alerts)
      ensures ShownAll(old(traces), traces, old(states), p, old(seen), aircraft)
      ensures seen == SightedAll(old(seen), aircraft, p.now)
    {
      hide Explains, Raised, ShownLists, ShownAll, Agrees, Ascending;
      alerts := [];
      ghost var start, began, before := traces, states, seen;
      NothingRaised(restored, traces);
      ShownNoAircraft(traces, states, p, seen);
      for n := 0 to |aircraft|
        invariant Valid() && Raised(restored, start, traces, alerts)
        invariant ShownAll(start, traces, began, p, before, aircraft[..n])
        invariant seen == SightedAll(before, aircraft[..n], p.now)
        invariant forall icao :: LastSeen(seen, [], icao, p.now) == LastSeen(before, aircraft[..n], icao, p.now)
      {
        ghost var was, records, sightings := traces, states, seen;
        alerts := EvaluateAircraft(p, aircraft[n], alerts, start, rules);
        assert LastSeen(sightings, [], aircraft[n].icao, p.now) == LastSeen(before, aircraft[..n], aircraft[n].icao, p.now);
        ShownNextAircraft(restored, start, was, traces, began, records, p, before, aircraft, n);
        SeenNext(before, sightings, seen, aircraft, n, p.now);
        assert aircraft[..n + 1][..n] == aircraft[..n];
      }
      assert aircraft[..|aircraft|] == aircraft;
    }

    /** What may stay active after a sweep: seen in this evaluation, or best effort and still visible. */
    ghost predicate Swept(visible: set<string>, rest: set<Key>)
      reads this`states, this`sequence
    {
      forall k :: k in states && k !in rest && states[k].state.active ==>
        states[k].seenSequence == sequence || (states[k].bestEffort && k.icao in visible)
    }

    /** The closing loop of `Evaluate`: exactly the active records nobody saw are cleared. */
    method SweepUnseen(p: Pass, visible: set<string>)
      requires Valid() && p.sequence == sequence
      modifies this`states, this`traces
      ensures Valid() && Swept(visible, {}) && SweptFor(old(traces), traces, old(states), states, p, visible, {})
    {
      hide Explains, SweptFor, Logged;
      ghost var start, began := traces, states;
      SweptNone(traces, states, p, visible);
      var rest := states.Keys;
      while rest != {}
        invariant Valid() && Swept(visible, rest) && rest <= states.Keys
        invariant SweptFor(start, traces, began, states, p, visible, rest)
        decreases |rest|
      {
        var key :| key in rest;
        ghost var was, before := traces, states;
        var record := states[key];
        if record.seenSequence != sequence && record.state.active && !(record.bestEffort && key.icao in visible) {
          ClearOne(key, p.now);
        }
        SweptNext(start, was, traces, began, before, states, p, visible, rest, key);
        rest := rest - {key};
      }
    }

    method ClearOne(key: Key, now: int)
      requires Valid() && key in states && states[key].state.active
      modifies this`states, this`traces
      ensures Valid() && traces == Logged(old(traces), key, Sweep(now))
      ensures states == old(states)[key := old(states)[key].(state := Cleared(old(states)[key].state, now))]
    {
      hide Explains;
      LogExplains(restored, traces, states, key, Sweep(now));
      var record := states[key];
      states := states[key := record.(state := record.state.(active := false, consecutiveMatches := 0,
                                                             lastClearAt := Some(now)))];
      traces := Logged(traces, key, Sweep(now));
    }

    method Forget(key: Key, ghost e: Event)
      requires Valid() && key in states && Step(Some(states[key]), e).None? && !e.Observe?
      modifies this`states, this`traces
      ensures Valid() && states == old(states) - {key} && traces == Logged(old(traces), key, e)
    {
      hide Explains, Step;
      LogExplains(restored, traces, states, key, e);
      states := states - {key};
      traces := Logged(traces, key, e);
    }

    /** Age pruning removes exactly the expired records; active ones never expire. */
    method PruneByAge(now: int)
      requires Valid()
      modifies this`states, this`traces
      ensures Valid()
      ensures forall k :: k in states <==> k in old(states) && !Expired(old(states)[k], now)
      ensures forall k :: k in old(states) && k !in states ==>
        && !old(states)[k].state.active && old(states)[k].lastSeenAt.Some?
        && now - old(states)[k].lastSeenAt.value > 604_800_000_000_000
      ensures forall k :: k in states ==> states[k] == old(states)[k]
      ensures Removed(old(traces), traces, old(states), states, AgePrune(now))
    {
      hide Explains, Removed, Logged;
      RemovedNone(traces, states, AgePrune(now));
      var rest := states.Keys;
      while rest != {}
        invariant Valid() && rest <= states.Keys
        invariant forall k :: k in states <==> k in old(states) && (k in rest || !Expired(old(states)[k], now))
        invariant forall k :: k in states ==> states[k] == old(states)[k]
        invariant Removed(old(traces), traces, old(states), states, AgePrune(now))
        decreases |rest|
      {
        var key :| key in rest;
        rest := rest - {key};
        if Expired(states[key], now) {
          RemoveOne(old(traces), traces, old(states), states, key, AgePrune(now));
          Forget(key, AgePrune(now));
        }
      }
    }

    predicate Inactive(k: Key)
      reads this`states
    {
      k in states && !states[k].state.active
    }

    /** Capacity pruning removes only inactive records, the longest unseen first, and no more of them
        than the bound needs. */
    method PruneByCapacity(cap: nat)
      requires Valid()
      modifies this`states, this`traces
      ensures Valid()
      ensures |states| <= cap || forall k :: k in states ==> states[k].state.active
      ensures |states| < cap ==> states == old(states)
      ensures forall k :: k in states ==> k in old(states) && states[k] == old(states)[k]
      ensures forall k :: k in old(states) && old(states)[k].state.active ==> k in states
      ensures forall k, l :: k in old(states) && k !in states && Inactive(l) ==>
        NotAfter(old(states)[k].lastSeenAt, states[l].lastSeenAt)
      ensures Removed(old(traces), traces, old(states), states, CapPrune)
    {
      hide Explains, Removed, Logged;
      RemovedNone(traces, states, CapPrune);
      while |states| > cap && exists k :: k in states && !states[k].state.active
        invariant Valid() && (|states| < cap ==> states == old(states))
        invariant forall k :: k in states ==> k in old(states) && states[k] == old(states)[k]
        invariant forall k :: k in old(states) && old(states)[k].state.active ==> k in states
        invariant forall k, l :: k in old(states) && k !in states && Inactive(l) ==>
          NotAfter(old(states)[k].lastSeenAt, states[l].lastSeenAt)
        invariant Removed(old(traces), traces, old(states), states, CapPrune)
        decreases |states|
      {
        var key := OldestInactive();
        assert states.Keys == (states - {key}).Keys + {key};
        RemoveOne(old(traces), traces, old(states), states, key, CapPrune);
        Forget(key, CapPrune);
      }
    }

    method OldestInactive() returns (oldest: Key)
      requires exists k :: k in states && !states[k].state.active
      ensures Inactive(oldest) && forall k :: Inactive(k) ==> NotAfter(states[oldest].lastSeenAt, states[k].lastSeenAt)
    {
      oldest :| oldest in states && !states[oldest].state.active;
      var rest := states.Keys;
      while rest != {}
        invariant rest <= states.Keys && Inactive(oldest)
        invariant forall k :: Inactive(k) && k !in rest ==> NotAfter(states[oldest].lastSeenAt, states[k].lastSeenAt)
        decreases |rest|
      {
        var key :| key in rest;
        rest := rest - {key};
        if !states[key].state.active && !NotAfter(states[oldest].lastSeenAt, states[key].lastSeenAt) {
          oldest := key;
        }
      }
    }

    /** Sightings older than the retention go. */
    method PruneSeenByAge(now: int, retention: int)
      modifies this`seen
      ensures forall k :: k in seen <==> k in old(seen) && old(seen)[k].lastSeen >= now - retention
      ensures forall k :: k in seen ==> seen[k] == old(seen)[k]
    {
      seen := map k | k in seen && seen[k].lastSeen >= now - retention :: seen[k];
    }

    /** The oldest sightings go until the bound holds, and no more of them than it needs. */
    method PruneSeenByCapacity(seenCap: nat)
      modifies this`seen
      ensures |seen| <= seenCap && (|seen| < seenCap ==> seen == old(seen))
      ensures forall k :: k in seen ==> k in old(seen) && seen[k] == old(seen)[k]
      ensures forall k, l :: k in old(seen) && k !in seen && l in seen ==> old(seen)[k].lastSeen <= seen[l].lastSeen
    {
      while |seen| > seenCap
        invariant forall k :: k in seen ==> k in old(seen) && seen[k] == old(seen)[k]
        invariant forall k, l :: k in old(seen) && k !in seen && l in seen ==> old(seen)[k].lastSeen <= seen[l].lastSeen
        invariant |seen| < seenCap ==> seen == old(seen)
        decreases |seen|
      {
        var oldest := OldestSeen();
        assert seen.Keys == (seen - {oldest}).Keys + {oldest};
        seen := seen - {oldest};
      }
    }

    method OldestSeen() returns (oldest: string)
      requires |seen| > 0
      ensures oldest in seen && forall k :: k in seen ==> seen[oldest].lastSeen <= seen[k].lastSeen
    {
      assert seen.Keys != {};
      oldest :| oldest in seen;
      var rest := seen.Keys;
      while rest != {}
        invariant rest <= seen.Keys && oldest in seen
        invariant forall k :: k in seen && k !in rest ==> seen[oldest].lastSeen <= seen[k].lastSeen
        decreases |rest|
      {
        var key :| key in rest;
        rest := rest - {key};
        if seen[key].lastSeen < seen[oldest].lastSeen {
          oldest := key;
        }
      }
    }

    /** `pruneScopeLocked`: the sightings and the records are pruned, and the traces say so. */
    method Prune(now: int, bounds: Bounds, stateCap: nat)
      requires Valid()
      modifies this`states, this`traces, this`seen
      ensures Valid() && SeenPruned(old(seen), seen, now, bounds) && PrunedTo(old(states), states, now, stateCap)
      ensures AllPruned(old(traces), traces, old(states), states, now)
      ensures CallSpec(restored, old(traces), Pruning(now, old(seen), bounds, seen), traces)
    {
      hide Explains, Removed, CallSpec, AllPruned, Pruned;
      ghost var before := seen;
      PruneSeenByAge(now, bounds.retention);
      PruneSeenByCapacity(bounds.seenCap);
      assert SeenPruned(before, seen, now, bounds);
      ghost var start, was := traces, states;
      PruneByAge(now);
      ghost var middle, young := traces, states;
      PruneByCapacity(stateCap);
      assert PrunedTo(was, states, now, stateCap) by {
        assert forall l :: l in states && !states[l].state.active ==> Inactive(l);
      }
      hide PrunedTo, SeenPruned;
      AllPrunedTwice(start, middle, traces, was, young, states, now);
      PruningSpec(restored, start, traces, was, states, Pruning(now, before, bounds, seen));
    }

    /** The part of `Engine.Evaluate` that works on the scope: every rule of the index is tried on every
        aircraft as `ShowAll` says and unseen active records are cleared, which leads to the records
        `left` with traces `swept`. Every 300th time, or when a map has grown too large, both maps are
        pruned. */
    method Evaluate(index: ScopeIndex, aircraft: seq<Aircraft>, now: int, bounds: Bounds, stateCap: nat,
                    ghost rules: seq<WatchRule>)
      returns (alerts: seq<Key>, ghost swept: Marks, ghost left: map<Key, Record>)
      requires Valid() && Agrees(index, rules, scope) && Ascending(index.prefixLengths)
      modifies this
      ensures Valid() && sequence == old(sequence) + 1
      ensures CallSpec(restored, old(traces), Evaluation(Pass(index, now, sequence), old(seen), aircraft, bounds,
                                                         seen, alerts), traces)
      ensures Explains(restored, swept, left)
      ensures SweptAll(restored, old(traces), swept, Pass(index, now, sequence), old(seen), aircraft)
      ensures var sighted := SightedAll(old(seen), aircraft, now);
        if sequence % 300 == 0 || |sighted| > bounds.seenCap || |left| > stateCap
        then SeenPruned(sighted, seen, now, bounds) && PrunedTo(left, states, now, stateCap) && AllPruned(swept, traces, left, states, now)
        else seen == sighted && states == left && traces == swept
      ensures |seen| <= bounds.seenCap && (|states| <= stateCap || forall k :: k in states ==> states[k].state.active)
      ensures |states| < stateCap ==> forall k :: CapPrune !in Gained(old(traces), traces, k)
      ensures Swept(VisibleIcaos(aircraft), {})
    {
      hide Explains, Raised, ShownAll, SweptFor, CallSpec, Agrees;
      hide Ascending, AllPruned, Gained, VisibleIcaos, SweptTrace, SightedAll;
      sequence := sequence + 1;
      var p := Pass(index, now, sequence);
      ghost var start, began, before := traces, states, seen;
      alerts := EvaluateAll(p, aircraft, rules);
      ghost var shown, tried, sighted := traces, states, seen;
      var visible := VisibleIcaos(aircraft);
      SweepUnseen(p, visible);
      swept, left := traces, states;
      NothingPruned(swept, left, now);
      if sequence % 300 == 0 || |seen| > bounds.seenCap || |states| > stateCap {
        Prune(now, bounds, stateCap);
      }
      ghost var call := Evaluation(p, before, aircraft, bounds, seen, alerts);
      assert Parts(restored, start, shown, swept, traces, began, tried, left, states, call);
      hide Parts;
      forall k
        ensures KeySpec(Find(restored, k), TraceOf(start, k), call, TraceOf(traces, k), k)
        ensures TraceOf(swept, k) == SweptTrace(Find(restored, k), TraceOf(start, k), p, before, aircraft, k)
      {
        EvaluationOfKey(restored, start, shown, swept, traces, began, tried, left, states, call, k);
      }
      SpecOfKeys(restored, start, call, traces);
      if |states| < stateCap {
        forall k
          ensures CapPrune !in Gained(start, traces, k)
        {
          NoCapPrune(restored, start, shown, swept, traces, began, tried, left, states, call, k);
        }
      }
    }

    /** `ReplaceRules` on this scope: records survive exactly under an enabled rule with the same
        fingerprint. */
    method ReplaceRules(next: Index, enabled: set<int>)
      requires Valid()
      modifies this`states, this`traces
      ensures Valid() && CallSpec(restored, old(traces), Replacement(seen, next, enabled), traces)
      ensures forall k :: k in states <==>
        && k in old(states)
        && (k.ruleId <= 0 || (&& k.ruleId in enabled && k.ruleId in next.fingerprints
                              && old(states)[k].state.fingerprint == next.fingerprints[k.ruleId]))
      ensures forall k :: k in states ==> states[k] == old(states)[k]
    {
      hide Explains, Removed, Logged, CallSpec;
      ghost var start, began := traces, states;
      RemovedNone(traces, states, Drop);
      var rest := states.Keys;
      while rest != {}
        invariant Valid() && rest <= states.Keys
        invariant forall k :: k in states <==>
          k in old(states) && (k in rest || Survives(k, old(states)[k], next, enabled))
        invariant forall k :: k in states ==> states[k] == old(states)[k]
        invariant Removed(start, traces, began, states, Drop)
        decreases |rest|
      {
        var key :| key in rest;
        rest := rest - {key};
        if key.ruleId > 0 {
          var record := states[key];
          if key.ruleId !in enabled || key.ruleId !in next.fingerprints || record.state.fingerprint != next.fingerprints[key.ruleId] {
            RemoveOne(start, traces, began, states, key, Drop);
            Forget(key, Drop);
          }
        }
      }
      ReplacementSpec(restored, start, traces, began, states, Replacement(seen, next, enabled));
    }

    /** One of the three metadata loops of `EvaluateEnrichment`: every rule is asked, those for the
        reported value match. */
    method MatchMetadata(p: Pass, kind: Kind, actual: string, a: Aircraft, alerts: seq<Key>, ghost start: Marks)
      returns (raised: seq<Key>, ghost m: Metadata)
      requires Valid() && Raised(restored, start, traces, alerts) && p.sequence == sequence
      modifies this`states, this`traces
      ensures Valid() && Raised(restored, start, traces, raised)
      ensures m.kind == kind && m.actual == actual && WalksAll(p.index, m)
      ensures ShownValues(old(traces), traces, old(states), p, m, |m.order|, a)
    {
      hide Explains, Raised, Shown, ShownValues;
      raised := alerts;
      m := Metadata(kind, actual, []);
      ghost var was, began := traces, states;
      ShownNoValue(traces, states, p, m, a);
      var buckets := Values(p.index, kind);
      var rest := buckets.Keys;
      while rest != {}
        invariant rest <= buckets.Keys && m.kind == kind && m.actual == actual && Distinct(m.order)
        invariant forall v :: v in m.order <==> v in buckets && v !in rest
        invariant Valid() && Raised(restored, start, traces, raised)
        invariant ShownValues(was, traces, began, p, m, |m.order|, a)
        decreases |rest|
      {
        var value :| value in rest;
        rest := rest - {value};
        ghost var before, records := traces, states;
        raised := MatchRules(p, Fixed(actual != "" && actual == value), Get(buckets, value), a, None, raised, start);
        ShownNextValue(restored, was, before, traces, began, records, p, m, m.(order := m.order + [value]), a, value);
        m := m.(order := m.order + [value]);
      }
    }

    /** Every metadata rule of the index is tried on the reported operator, owner or type. */
    method EvaluateEnrichment(index: ScopeIndex, a: Aircraft, operator: string, owner: string, aircraftType: string,
                              now: int)
      returns (alerts: seq<Key>, ghost ms: seq<Metadata>)
      requires Valid()
      modifies this`states, this`traces, this`sequence
      ensures Valid() && sequence == old(sequence) + 1
      ensures |ms| == 3 && ms[0].kind == Operator && ms[1].kind == Owner && ms[2].kind == AircraftType
      ensures ms[0].actual == operator && ms[1].actual == owner && ms[2].actual == aircraftType
      ensures CallSpec(restored, old(traces), Enrichment(Pass(index, now, sequence), seen, a, ms, alerts), traces)
    {
      hide Explains, Raised, ShownValues, ShownMetadata, CallSpec, WalksAll;
      sequence := sequence + 1;
      var p := Pass(index, now, sequence);
      ghost var start, began := traces, states;
      NothingRaised(restored, traces);
      ShownNoMetadata(traces, states, p, a);
      ghost var first;
      alerts, first := MatchMetadata(p, Operator, operator, a, [], start);
      ShownNextMetadata(restored, start, start, traces, began, began, p, [], first, a);
      ghost var was, records, second := traces, states, first;
      alerts, second := MatchMetadata(p, Owner, owner, a, alerts, start);
      ShownNextMetadata(restored, start, was, traces, began, records, p, [] + [first], second, a);
      ghost var third;
      was, records := traces, states;
      alerts, third := MatchMetadata(p, AircraftType, aircraftType, a, alerts, start);
      ShownNextMetadata(restored, start, was, traces, began, records, p, [] + [first] + [second], third, a);
      ms := [] + [first] + [second] + [third];
      EnrichmentSpec(restored, start, traces, began, Enrichment(p, seen, a, ms, alerts));
    }
  }

  lemma SeenNext(before: Sightings, sightings: Sightings, seen: Sightings,
                 aircraft: seq<Aircraft>, n: nat, now: int)
    requires n < |aircraft| && aircraft[n].icao in seen && seen[aircraft[n].icao].lastSeen == now
    requires seen == sightings[aircraft[n].icao := seen[aircraft[n].icao]]
    requires forall icao :: LastSeen(sightings, [], icao, now) == LastSeen(before, aircraft[..n], icao, now)
    ensures forall icao :: LastSeen(seen, [], icao, now) == LastSeen(before, aircraft[..n + 1], icao, now)
  {
    forall icao
      ensures LastSeen(seen, [], icao, now) == LastSeen(before, aircraft[..n + 1], icao, now)
    {
      assert LastSeen(sightings, [], icao, now) == LastSeen(before, aircraft[..n], icao, now);
      if icao == aircraft[n].icao {
        assert aircraft[..n + 1][n].icao == icao;
      } else if i :| 0 <= i < n && aircraft[..n][i].icao == icao {
        assert aircraft[..n + 1][i].icao == icao;
      }
    }
  }

  /** Which records pruning leaves: no expired one, every active one, and of the others no more than
      the bound allows, the longest unseen having gone first, and no more than the bound needs. */
  ghost predicate PrunedTo(was: map<Key, Record>, states: map<Key, Record>, now: int, cap: nat) {
    && (|states| <= cap || forall k :: k in states ==> states[k].state.active)
    && (|states| < cap ==> forall k :: k in was && !Expired(was[k], now) ==> k in states)
    && (forall k :: k in states ==> k in was && states[k] == was[k] && !Expired(states[k], now))
    && (forall k :: k in was && was[k].state.active ==> k in states)
    && (forall k, l :: k in was && k !in states && !Expired(was[k], now) && l in states && !states[l].state.active ==>
          NotAfter(was[k].lastSeenAt, states[l].lastSeenAt))
  }

  /** Every trace says what pruning did to its record. */
  ghost predicate AllPruned(start: Marks, after: Marks, was: map<Key, Record>, states: map<Key, Record>, now: int) {
    forall k :: Pruned(TraceOf(start, k), TraceOf(after, k), k in was, k in was && Expired(was[k], now), k in states,
                       AgePrune(now), CapPrune)
  }

  lemma AllPrunedTwice(start: Marks, middle: Marks, after: Marks,
                       was: map<Key, Record>, young: map<Key, Record>, states: map<Key, Record>, now: int)
    requires Removed(start, middle, was, young, AgePrune(now)) && Removed(middle, after, young, states, CapPrune)
    requires forall k :: k in young <==> k in was && !Expired(was[k], now)
    requires forall k :: k in states ==> k in young
    ensures AllPruned(start, after, was, states, now)
  {
    hide Removed, Pruned, TraceOf, Expired;
    forall k
      ensures Pruned(TraceOf(start, k), TraceOf(after, k), k in was, k in was && Expired(was[k], now), k in states,
                     AgePrune(now), CapPrune)
    {
      PrunedTwice(start, middle, after, was, young, states, AgePrune(now), CapPrune, k in was && Expired(was[k], now),
                  k);
    }
  }

  lemma NothingPruned(traces: Marks, states: map<Key, Record>, now: int)
    ensures AllPruned(traces, traces, states, states, now)
  {
  }

  lemma PrunedAt(start: Marks, after: Marks, was: map<Key, Record>, states: map<Key, Record>, now: int, k: Key)
    requires AllPruned(start, after, was, states, now)
    ensures Pruned(TraceOf(start, k), TraceOf(after, k), k in was, k in was && Expired(was[k], now), k in states,
                   AgePrune(now), CapPrune)
    ensures MaybePruned(TraceOf(start, k), TraceOf(after, k), AgePrune(now), CapPrune)
  {
    hide TraceOf, Expired;
  }

  lemma SpecOfKeys(restored: map<Key, Record>, before: Marks, call: Call, after: Marks)
    requires SeenSpec(call) && forall k :: KeySpec(Find(restored, k), TraceOf(before, k), call, TraceOf(after, k), k)
    ensures CallSpec(restored, before, call, after)
  {
    hide KeySpec, SeenSpec;
  }

  lemma SilentEnd(init: Option<Record>, before: seq<Event>, after: seq<Event>, now: int)
    requires MaybePruned(before, after, AgePrune(now),
                         CapPrune) || after == before + [Sweep(now)] || after == before + [Drop]
    ensures Firings(init, after) == Firings(init, before)
  {
    hide Replay;
    ReplayNext(init, before, AgePrune(now));
    ReplayNext(init, before, CapPrune);
    ReplayNext(init, before, Sweep(now));
    ReplayNext(init, before, Drop);
  }

  lemma PruningSpec(restored: map<Key, Record>, start: Marks, traces: Marks, was: map<Key, Record>, states: map<Key,
                    Record>, call: Call)
    requires call.Pruning? && SeenSpec(call) && AllPruned(start, traces, was, states, call.at)
    ensures CallSpec(restored, start, call, traces)
  {
    hide Replay, Firings, TraceOf, Find, AllPruned, SeenSpec;
    forall k
      ensures KeySpec(Find(restored, k), TraceOf(start, k), call, TraceOf(traces, k), k)
    {
      PrunedAt(start, traces, was, states, call.at, k);
      SilentEnd(Find(restored, k), TraceOf(start, k), TraceOf(traces, k), call.at);
    }
  }

  lemma ReplacementSpec(restored: map<Key, Record>, start: Marks, traces: Marks, began: map<Key, Record>,
                        states: map<Key, Record>,
                        call: Call)
    requires call.Replacement? && Explains(restored, start, began) && Removed(start, traces, began, states, Drop)
    requires forall k :: k in states <==> k in began && Survives(k, began[k], call.next, call.enabled)
    ensures CallSpec(restored, start, call, traces)
  {
    hide Replay, Firings, TraceOf, Survives, Explains;
    forall k
      ensures KeySpec(Find(restored, k), TraceOf(start, k), call, TraceOf(traces, k), k)
    {
      ExplainsAt(restored, start, began, k);
      SilentEnd(Find(restored, k), TraceOf(start, k), TraceOf(traces, k), 0);
    }
  }

  lemma EnrichmentSpec(restored: map<Key, Record>, start: Marks, traces: Marks, began: map<Key, Record>, call: Call)
    requires call.Enrichment? && (forall i :: 0 <= i < |call.metadata| ==> WalksAll(call.pass.index, call.metadata[i]))
    requires Explains(restored, start, began) && Raised(restored, start, traces, call.alerts)
    requires ShownMetadata(start, traces, began, call.pass, call.metadata, call.reported)
    ensures CallSpec(restored, start, call, traces)
  {
    hide Replay, Firings, TraceOf, ShowMetadata, Explains, WalksAll, Find;
    forall k
      ensures KeySpec(Find(restored, k), TraceOf(start, k), call, TraceOf(traces, k), k)
    {
      ExplainsAt(restored, start, began, k);
    }
  }

  /** The three parts of an evaluation, on one key. */
  ghost predicate Parts(restored: map<Key, Record>, start: Marks, shown: Marks, swept: Marks, traces: Marks,
                        began: map<Key, Record>, tried: map<Key, Record>, left: map<Key, Record>, states: map<Key, Record>, call: Call)
  {
    && call.Evaluation? && Explains(restored, start, began) && Explains(restored, shown, tried)
    && Raised(restored, start, shown, call.alerts)
    && ShownAll(start, shown, began, call.pass, call.seen, call.aircraft)
    && SweptFor(shown, swept, tried, left, call.pass, VisibleIcaos(call.aircraft), {})
    && AllPruned(swept, traces, left, states, call.pass.now)
  }

  lemma PartsOfKey(restored: map<Key, Record>, start: Marks, shown: Marks, swept: Marks, traces: Marks,
                   began: map<Key, Record>, tried: map<Key, Record>, left: map<Key, Record>, states: map<Key, Record>,
                   call: Call, k: Key)
    requires Parts(restored, start, shown, swept, traces, began, tried, left, states, call)
    ensures var init, r := Find(restored, k), Replay(Find(restored, k), TraceOf(start, k));
      && TraceOf(shown, k) == TraceOf(start, k) + ShowAll(call.pass, call.seen, call.aircraft, k, r)
      && TraceOf(swept, k) == TraceOf(shown, k) + SweepOf(call.pass, VisibleIcaos(call.aircraft), k, Replay(init, TraceOf(shown, k)))
      && Firings(init, TraceOf(shown, k)) == Firings(init, TraceOf(start, k)) + multiset(call.alerts)[k]
    ensures Pruned(TraceOf(swept, k), TraceOf(traces, k), k in left, k in left && Expired(left[k], call.pass.now),
                   k in states,
                   AgePrune(call.pass.now), CapPrune)
  {
    hide Replay, Firings, TraceOf, ShowAll, SweepOf, Pruned, Find, AllPruned;
    ExplainsAt(restored, start, began, k);
    ExplainsAt(restored, shown, tried, k);
    PrunedAt(swept, traces, left, states, call.pass.now, k);
  }

  lemma EvaluationOfKey(restored: map<Key, Record>, start: Marks, shown: Marks, swept: Marks, traces: Marks,
                        began: map<Key, Record>, tried: map<Key, Record>, left: map<Key, Record>, states: map<Key, Record>,
                        call: Call, k: Key)
    requires call.Evaluation? && Parts(restored, start, shown, swept, traces, began, tried, left, states, call)
    ensures KeySpec(Find(restored, k), TraceOf(start, k), call, TraceOf(traces, k), k)
    ensures TraceOf(swept, k) == SweptTrace(Find(restored, k), TraceOf(start, k), call.pass, call.seen, call.aircraft, k)
  {
    hide Replay, Firings, TraceOf, ShowAll, SweepOf, Find, Parts, VisibleIcaos;
    PartsOfKey(restored, start, shown, swept, traces, began, tried, left, states, call, k);
    var init, p := Find(restored, k), call.pass;
    SweepOfShape(p, VisibleIcaos(call.aircraft), k, Replay(init, TraceOf(shown, k)));
    if TraceOf(swept, k) == TraceOf(shown, k) + [] {
      assert TraceOf(swept, k) == TraceOf(shown, k);
    } else {
      SilentEnd(init, TraceOf(shown, k), TraceOf(swept, k), p.now);
    }
    SilentEnd(init, TraceOf(swept, k), TraceOf(traces, k), p.now);
  }

  /** No record went for lack of room. */
  lemma NoCapPrune(restored: map<Key, Record>, start: Marks, shown: Marks, swept: Marks, traces: Marks,
                   began: map<Key, Record>, tried: map<Key, Record>, left: map<Key, Record>, states: map<Key, Record>,
                   call: Call, k: Key)
    requires call.Evaluation? && Parts(restored, start, shown, swept, traces, began, tried, left, states, call)
    requires k in left && !Expired(left[k], call.pass.now) ==> k in states
    ensures CapPrune !in Gained(start, traces, k)
  {
    hide Replay, Firings, TraceOf, ShowAll, Parts, VisibleIcaos, InIndex;
    PartsOfKey(restored, start, shown, swept, traces, began, tried, left, states, call, k);
    ShowAllIsObserved(call.pass, call.seen, call.aircraft, k, Replay(Find(restored, k), TraceOf(start, k)));
  }
}
