/** The life of one alert record: what a watch rule knows about one aircraft in one scope.

    Everything `Engine` does to a record is one of the events below. The theorems are about every
    sequence of events; the engine (module RuleEngine) shows that its map of records is exactly
    the replay of such sequences. */
module WatchRules {
  import opened Text
  import opened RuleIndex
  import opened Traces

  datatype AlertState = AlertState(
    fingerprint: Fingerprint, lastFiredAt: Option<int>, lastClearAt: Option<int>, consecutiveMatches: nat, active: bool)

  datatype Record = Record(state: AlertState, seenSequence: nat, bestEffort: bool, lastSeenAt: Option<int>)

  datatype Event =
    | Observe(now: int, sequence: nat, rule: Compiled, matches: bool)   // matchRecord
    | Sweep(now: int)                                                   // cleared because not seen
    | AgePrune(now: int)                                                // retention
    | CapPrune                                                          // capacity
    | Drop                                                              // rule replaced or disabled

  // ---------- one event ----------

  function Minimum(rule: Compiled): nat {
    if rule.rule.minimumObservations < 1 then 2 else rule.rule.minimumObservations
  }

  /** `ruleState`: a record made under another fingerprint does not count. */
  predicate Current(r: Option<Record>, rule: Compiled) {
    r.Some? && r.value.state.fingerprint == rule.fingerprint
  }

  function Fresh(rule: Compiled): AlertState {
    AlertState(rule.fingerprint, None, None, 0, false)
  }

  /** The state a matching observation starts from, with its match counted. */
  function Counted(r: Option<Record>, rule: Compiled): AlertState {
    var s := if Current(r, rule) then r.value.state else Fresh(rule);
    if !s.active && s.consecutiveMatches < Minimum(rule) then s.(consecutiveMatches := s.consecutiveMatches + 1) else s
  }

  predicate CanFire(s: AlertState, rule: Compiled, now: int) {
    !s.active && s.consecutiveMatches >= Minimum(rule)
    && (s.lastFiredAt.None? || now - s.lastFiredAt.value >= rule.rule.cooldown)
  }

  function Cleared(s: AlertState, now: int): AlertState {
    s.(active := false, consecutiveMatches := 0, lastClearAt := Some(now))
  }

  function Observed(r: Option<Record>, now: int, sequence: nat, rule: Compiled, matches: bool): Option<Record> {
    if matches then
      var s := Counted(r, rule);
      var fired := if CanFire(s, rule, now) then s.(active := true, lastFiredAt := Some(now)) else s;
      Some(Record(fired, sequence, rule.rule.bestEffort, Some(now)))
    else if !Current(r, rule) then r
    else
      var s := r.value.state;
      Some(Record(if s.active || s.consecutiveMatches != 0 then Cleared(s, now) else s, sequence,
                  rule.rule.bestEffort, Some(now)))
  }

  function Step(r: Option<Record>, e: Event): Option<Record> {
    match e
    case Observe(now, sequence, rule, matches) => Observed(r, now, sequence, rule, matches)
    case Sweep(now) => if r.Some? && r.value.state.active then Some(r.value.(state := Cleared(r.value.state, now))) else r
    case AgePrune(now) =>
      if r.Some? && !r.value.state.active && r.value.lastSeenAt.Some? && r.value.lastSeenAt.value < now - STATE_RETENTION then None else r
    case CapPrune => if r.Some? && !r.value.state.active then None else r
    case Drop => None
  }

  predicate Fires(r: Option<Record>, e: Event) {
    e.Observe? && e.matches && CanFire(Counted(r, e.rule), e.rule, e.now)
  }

  predicate IsActive(r: Option<Record>) {
    r.Some? && r.value.state.active
  }

  // ---------- runs ----------

  function Replay(init: Option<Record>, trace: seq<Event>): Option<Record> {
    if trace == [] then init else Step(Replay(init, trace[..|trace| - 1]), trace[|trace| - 1])
  }

  /** The record before event `n`. */
  function At(init: Option<Record>, trace: seq<Event>, n: nat): Option<Record>
    requires n <= |trace|
  {
    Replay(init, trace[..n])
  }

  lemma AtNext(init: Option<Record>, trace: seq<Event>, n: nat)
    requires n < |trace|
    ensures At(init, trace, n + 1) == Step(At(init, trace, n), trace[n])
  {
    assert trace[..n + 1][..n] == trace[..n];
  }

  predicate FiresAt(init: Option<Record>, trace: seq<Event>, n: nat) {
    n < |trace| && Fires(At(init, trace, n), trace[n])
  }

  /** The event turns an active record inactive, under the same condition. */
  predicate Clears(r: Option<Record>, e: Event) {
    IsActive(r) && Step(r, e).Some? && !IsActive(Step(r, e)) && Step(r, e).value.state.fingerprint == r.value.state.fingerprint
  }

  predicate ClearsAt(init: Option<Record>, trace: seq<Event>, n: nat) {
    n < |trace| && Clears(At(init, trace, n), trace[n])
  }

  /** Pruning never removes an active record. */
  lemma PruningKeepsActive(r: Option<Record>, e: Event)
    requires IsActive(r) && (e.AgePrune? || e.CapPrune?)
    ensures Step(r, e) == r
  {
  }

  /** The rule stays the same condition and stays enabled over events `i` to `j`. */
  predicate SameCondition(trace: seq<Event>, i: nat, j: nat) {
    && i <= j < |trace| && trace[i].Observe?
    && forall k :: i <= k <= j ==> !trace[k].Drop? && (trace[k].Observe? ==> trace[k].rule.fingerprint == trace[i].rule.fingerprint)
  }

  // ---------- alerts alternate with clears ----------

  ghost predicate ClearedBetween(init: Option<Record>, trace: seq<Event>, i: nat, n: nat) {
    exists c: nat :: i < c < n && ClearsAt(init, trace, c)
  }

  /** Until it is cleared, a fired record stays active. */
  lemma {:induction false} StaysActive(init: Option<Record>, trace: seq<Event>, i: nat, n: nat)
    requires i < n <= |trace| && FiresAt(init, trace, i) && SameCondition(trace, i, n - 1)
    ensures ClearedBetween(init, trace, i, n)
            || (IsActive(At(init, trace, n)) && At(init, trace, n).value.state.fingerprint == trace[i].rule.fingerprint)
    decreases n
  {
    AtNext(init, trace, n - 1);
    if n > i + 1 {
      StaysActive(init, trace, i, n - 1);
      if ClearedBetween(init, trace, i, n - 1) {
        var c: nat :| i < c < n - 1 && ClearsAt(init, trace, c);
        assert i < c < n;
      } else {
        assert ClearsAt(init, trace, n - 1) <==> !IsActive(At(init, trace, n));
      }
    }
  }

  lemma AlertsAlternateWithClears(init: Option<Record>, trace: seq<Event>, i: nat, j: nat)
    requires i < j && FiresAt(init, trace, i) && FiresAt(init, trace, j) && SameCondition(trace, i, j)
    ensures ClearedBetween(init, trace, i, j)
  {
    StaysActive(init, trace, i, j);
  }

  // ---------- an alert needs enough matches since the last clear ----------

  predicate IsMatch(e: Event, f: Fingerprint) {
    e.Observe? && e.matches && e.rule.fingerprint == f
  }

  /** Matching observations of one condition among events `lo` up to, not including, `hi`. */
  function Matches(trace: seq<Event>, lo: nat, hi: nat, f: Fingerprint): nat
    requires lo <= hi <= |trace|
    decreases hi
  {
    if lo == hi then 0 else Matches(trace, lo, hi - 1, f) + (if IsMatch(trace[hi - 1], f) then 1 else 0)
  }

  /** What the record has counted towards condition `f`. */
  function CountOf(r: Option<Record>, f: Fingerprint): nat {
    if r.Some? && r.value.state.fingerprint == f then r.value.state.consecutiveMatches else 0
  }

  lemma {:induction false} CountIsBacked(init: Option<Record>, trace: seq<Event>, lo: nat, n: nat, f: Fingerprint)
    requires lo <= n <= |trace| && CountOf(At(init, trace, lo), f) == 0
    ensures CountOf(At(init, trace, n), f) <= Matches(trace, lo, n, f)
    decreases n
  {
    if n > lo {
      CountIsBacked(init, trace, lo, n - 1, f);
      AtNext(init, trace, n - 1);
    }
  }

  /** Event `c` makes the count of condition `f` start over: the record is cleared, dropped, or taken
      over by another condition. */
  predicate RestartsAt(init: Option<Record>, trace: seq<Event>, c: nat, f: Fingerprint) {
    c < |trace| &&
    (ClearsAt(init, trace, c) || trace[c].Drop? || (trace[c].Observe? && trace[c].matches && trace[c].rule.fingerprint != f))
  }

  /** Since every event that restarts its count, and since the start when nothing was restored, an
      alert has seen at least the rule's minimum of matches of its own condition, itself included. */
  lemma AlertNeedsMinimum(init: Option<Record>, trace: seq<Event>, j: nat, c: nat)
    requires FiresAt(init, trace, j)
    ensures var f := trace[j].rule.fingerprint;
            c < j && RestartsAt(init, trace, c, f) ==> Matches(trace, c + 1, j + 1, f) >= Minimum(trace[j].rule)
    ensures init.None? ==> Matches(trace, 0, j + 1, trace[j].rule.fingerprint) >= Minimum(trace[j].rule)
  {
    var f := trace[j].rule.fingerprint;
    if c < j && RestartsAt(init, trace, c, f) {
      AtNext(init, trace, c);
      RestartZeroes(init, trace, c, f);
      CountIsBacked(init, trace, c + 1, j, f);
    }
    if init.None? {
      assert trace[..0] == [];
      CountIsBacked(init, trace, 0, j, f);
    }
  }

  lemma RestartZeroes(init: Option<Record>, trace: seq<Event>, c: nat, f: Fingerprint)
    requires RestartsAt(init, trace, c, f)
    ensures CountOf(At(init, trace, c + 1), f) == 0
  {
    AtNext(init, trace, c);
  }

  // ---------- enough matches raise the alert ----------

  /** Event `q` neither clears, drops, prunes nor takes over the record of condition `f`: it is a match of
      `f`, a miss of another condition, or an age pruning that comes too early for the record. A match is
      of a rule that demands at least `minimum`. */
  predicate Uninterrupted(init: Option<Record>, trace: seq<Event>, q: nat, f: Fingerprint, minimum: nat) {
    && q < |trace|
    && match trace[q]
       case Observe(_, _, rule, matches) => (matches <==> rule.fingerprint == f) && (matches ==> Minimum(rule) >= minimum)
       case AgePrune(now) =>
         var r := At(init, trace, q);
         r.Some? && r.value.lastSeenAt.Some? && now - r.value.lastSeenAt.value <= 604_800_000_000_000
       case _ => false
  }

  predicate ActiveFor(r: Option<Record>, f: Fingerprint) {
    r.Some? && r.value.state.active && r.value.state.fingerprint == f
  }

  /** Until the record is active, every match counts, up to the minimum. */
  lemma {:induction false} EveryMatchCounts(init: Option<Record>, trace: seq<Event>, lo: nat, n: nat, f: Fingerprint,
                                            minimum: nat)
    requires lo <= n <= |trace| && forall q :: lo <= q < n ==> Uninterrupted(init, trace, q, f, minimum)
    ensures || ActiveFor(At(init, trace, n), f)
            || CountOf(At(init, trace, n), f) >= Matches(trace, lo, n, f)
            || CountOf(At(init, trace, n), f) >= minimum
    decreases n
  {
    if lo < n {
      EveryMatchCounts(init, trace, lo, n - 1, f, minimum);
      AtNext(init, trace, n - 1);
      assert Uninterrupted(init, trace, n - 1, f, minimum);
    }
  }

  /** A record becomes active only in an event that fires. */
  lemma {:induction false} ActiveMeansFired(init: Option<Record>, trace: seq<Event>, lo: nat, n: nat, f: Fingerprint)
    returns (m: nat)
    requires lo <= n <= |trace| && ActiveFor(At(init, trace, n), f)
    ensures ActiveFor(At(init, trace, lo), f) || (lo <= m < n && FiresAt(init, trace, m))
    decreases n
  {
    m := 0;
    if lo < n {
      AtNext(init, trace, n - 1);
      if FiresAt(init, trace, n - 1) {
        m := n - 1;
      } else {
        assert ActiveFor(At(init, trace, n - 1), f);
        m := ActiveMeansFired(init, trace, lo, n - 1, f);
      }
    }
  }

  /** What the record calls its last firing is one, unless it was restored. */
  lemma {:induction false} LastFiringHappened(init: Option<Record>, trace: seq<Event>, n: nat) returns (m: int)
    requires n <= |trace| && At(init, trace, n).Some? && At(init, trace, n).value.state.lastFiredAt.Some?
    ensures var t := At(init, trace, n).value.state.lastFiredAt;
            if m < 0 then init.Some? && init.value.state.lastFiredAt == t
            else m < n && FiresAt(init, trace, m) && Some(trace[m].now) == t
    decreases n
  {
    m := -1;
    if n == 0 {
      assert trace[..0] == [];
    } else {
      AtNext(init, trace, n - 1);
      if FiresAt(init, trace, n - 1) {
        m := n - 1;
      } else {
        m := LastFiringHappened(init, trace, n - 1);
      }
    }
  }

  /** The match that brings the matches since `lo` to the rule's minimum, with no interruption, leaves the
      record active, or the last firing is less than the cooldown back. */
  lemma EnoughMatchesFire(init: Option<Record>, trace: seq<Event>, lo: nat, j: nat, f: Fingerprint)
    requires lo <= j < |trace| && IsMatch(trace[j], f) && Matches(trace, lo, j + 1, f) >= Minimum(trace[j].rule)
    requires forall q :: lo <= q <= j ==> Uninterrupted(init, trace, q, f, Minimum(trace[j].rule))
    ensures var r := At(init, trace, j + 1);
            || ActiveFor(r, f)
            || (r.Some? && r.value.state.lastFiredAt.Some?
                && trace[j].now - r.value.state.lastFiredAt.value < trace[j].rule.rule.cooldown)
  {
    EveryMatchCounts(init, trace, lo, j, f, Minimum(trace[j].rule));
    AtNext(init, trace, j);
  }

  // ---------- alerts keep the cooldown apart ----------

  predicate Timed(e: Event) {
    e.Observe? || e.Sweep? || e.AgePrune?
  }

  /** Snapshot times do not run backwards over events `i` to `j`. */
  predicate InTime(trace: seq<Event>, i: nat, j: nat) {
    j < |trace| && forall k, l :: i <= k <= l <= j && Timed(trace[k]) && Timed(trace[l]) ==> trace[k].now <= trace[l].now
  }

  /** What is still known, before event `n`, of a firing at time `t`: either the record remembers
      it (or a later one), or retention has passed. */
  ghost predicate Remembers(r: Option<Record>, trace: seq<Event>, i: nat, n: nat, t: int, f: Fingerprint)
    requires n <= |trace|
  {
    || (&& r.Some? && r.value.state.lastFiredAt.Some? && r.value.lastSeenAt.Some?
        && t <= r.value.state.lastFiredAt.value && t <= r.value.lastSeenAt.value
        && r.value.state.fingerprint == f)
    || (exists p: nat :: i < p < n && Forgets(trace[p], t))
  }

  /** A pruning late enough to forget a record last seen at time `t`. */
  predicate Forgets(e: Event, t: int) {
    e.AgePrune? && t + STATE_RETENTION < e.now
  }

  lemma {:induction false} FiringIsRemembered(init: Option<Record>, trace: seq<Event>, i: nat, n: nat)
    requires i < n <= |trace| && FiresAt(init, trace, i) && SameCondition(trace, i, n - 1) && InTime(trace, i, n - 1)
    requires forall k :: i < k < n ==> !trace[k].CapPrune?
    ensures Remembers(At(init, trace, n), trace, i, n, trace[i].now, trace[i].rule.fingerprint)
    decreases n
  {
    AtNext(init, trace, n - 1);
    if n > i + 1 {
      FiringIsRemembered(init, trace, i, n - 1);
      if p: nat :| i < p < n - 1 && Forgets(trace[p], trace[i].now) {
        assert i < p < n;
      } else {
        assert At(init, trace, n).None? ==> Forgets(trace[n - 1], trace[i].now);
      }
    }
  }

  /** Two alerts of one record lie at least the rule's cooldown apart, across any number of clears
      and age prunings, when the cooldown does not exceed the retention of seven days by more than a
      nanosecond. */
  lemma CooldownSurvivesAgePruning(init: Option<Record>, trace: seq<Event>, i: nat, j: nat)
    requires i < j && FiresAt(init, trace, i) && FiresAt(init, trace, j) && SameCondition(trace, i, j)
    requires InTime(trace, i, j)
    requires forall k :: i < k < j ==> !trace[k].CapPrune?
    requires trace[j].rule.rule.cooldown <= 604_800_000_000_001
    ensures trace[j].now - trace[i].now >= trace[j].rule.rule.cooldown
  {
    FiringIsRemembered(init, trace, i, j);
    if p: nat :| i < p < j && Forgets(trace[p], trace[i].now) {
      assert trace[p].now <= trace[j].now;
    }
  }

  /** Alerts of rules with cooldown `c` are always at least `c` apart. */
  ghost predicate CooldownHolds(c: int) {
    forall trace: seq<Event>, i: nat, j: nat ::
      i < j && FiresAt(None, trace, i) && FiresAt(None, trace, j) && SameCondition(trace, i, j) && InTime(trace, i, j)
      && (forall k :: i < k < j ==> !trace[k].CapPrune?) && trace[j].rule.rule.cooldown == c
      ==> trace[j].now - trace[i].now >= c
  }

  /** The bound is exact: with a longer cooldown, age pruning forgets a firing too early. */
  lemma CooldownHoldsExactly(c: int)
    ensures CooldownHolds(c) <==> c <= 604_800_000_000_001
  {
    if c <= STATE_RETENTION + 1 {
      forall trace: seq<Event>, i: nat, j: nat |
        i < j && FiresAt(None, trace, i) && FiresAt(None, trace, j) && SameCondition(trace, i, j) && InTime(trace, i, j)
        && (forall k :: i < k < j ==> !trace[k].CapPrune?) && trace[j].rule.rule.cooldown == c
        ensures trace[j].now - trace[i].now >= c
      {
        CooldownSurvivesAgePruning(None, trace, i, j);
      }
    } else {
      var rule := Compiled(WatchRule(1, "local", ByIcao, "ABC123", true, c, 1, 0.0, 0.0, false), "ABC123",
                           Fingerprint(ByIcao, "ABC123", 0.0, 0.0));
      var later := STATE_RETENTION + 1;
      var trace := [Observe(0, 1, rule, true), Observe(0, 2, rule, false), AgePrune(later),
                    Observe(later, 3, rule, true)];
      EarlyRefire(trace, rule);
      assert trace[3].now - trace[0].now < c;
    }
  }

  lemma EarlyRefire(trace: seq<Event>, rule: Compiled)
    requires rule.rule.minimumObservations == 1
    requires trace == [Observe(0, 1, rule, true), Observe(0, 2, rule, false), AgePrune(STATE_RETENTION + 1),
                       Observe(STATE_RETENTION + 1, 3, rule, true)]
    ensures FiresAt(None, trace, 0) && FiresAt(None, trace, 3) && SameCondition(trace, 0, 3) && InTime(trace, 0, 3)
  {
    assert trace[..0] == [];
    AtNext(None, trace, 0);
    AtNext(None, trace, 1);
    AtNext(None, trace, 2);
  }
}
