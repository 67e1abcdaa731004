/** Emergency alerts: one record per ICAO, shared by all feeder scopes. Any scope may raise the
    alert, only the local and the community view may clear it. */
module Emergencies {
  import opened Text
  import opened Domain
  import opened Traces

  datatype Record = Record(active: bool, lastFiredAt: Option<int>, lastClearAt: Option<int>, lastSeenAt: Option<int>)

  datatype Event =
    | Observe(scope: FeederId, emergency: bool, now: int)
    | AgePrune(now: int)
    | CapPrune

  type Marks = map<string, seq<Event>>

  predicate Authoritative(scope: FeederId) {
    scope == FEEDER_ALL || scope == FEEDER_LOCAL
  }

  predicate Fires(r: Option<Record>, e: Event) {
    e.Observe? && e.emergency && !(r.Some? && r.value.active)
  }

  function Step(r: Option<Record>, e: Event): Option<Record> {
    match e
    case Observe(scope, emergency, now) =>
      if Fires(r, e) then Some(Record(true, Some(now), None, Some(now)))
      else if emergency then Some(r.value.(lastSeenAt := Some(now)))
      else if r.None? || !Authoritative(scope) then r
      else Some(Record(false, r.value.lastFiredAt, if r.value.active then Some(now) else r.value.lastClearAt,
                       Some(now)))
    case AgePrune(now) =>
      if r.Some? && !r.value.active && r.value.lastSeenAt.Some? && r.value.lastSeenAt.value < now - STATE_RETENTION then None else r
    case CapPrune => if r.Some? && !r.value.active then None else r
  }

  function Replay(init: Option<Record>, trace: seq<Event>): Option<Record> {
    if trace == [] then init else Step(Replay(init, trace[..|trace| - 1]), trace[|trace| - 1])
  }

  predicate FiresAt(init: Option<Record>, trace: seq<Event>, n: nat) {
    n < |trace| && Fires(Replay(init, trace[..n]), trace[n])
  }

  /** A non-emergency observation of the local or the community view. */
  predicate AllClear(e: Event) {
    e.Observe? && !e.emergency && Authoritative(e.scope)
  }

  ghost predicate AllClearBetween(trace: seq<Event>, i: nat, n: nat) {
    exists c: nat :: i < c < n <= |trace| && AllClear(trace[c])
  }

  lemma {:induction false} ActiveUntilAllClear(init: Option<Record>, trace: seq<Event>, i: nat, n: nat)
    requires i < n <= |trace| && FiresAt(init, trace, i)
    ensures AllClearBetween(trace, i, n) || (Replay(init, trace[..n]).Some? && Replay(init, trace[..n]).value.active)
    decreases n
  {
    assert trace[..n][..n - 1] == trace[..n - 1];
    if n > i + 1 {
      ActiveUntilAllClear(init, trace, i, n - 1);
      if c: nat :| i < c < n - 1 && AllClear(trace[c]) {
        assert i < c < n;
      }
    }
  }

  /** Between two alerts for one aircraft there is an all-clear, however the scopes interleave and
      however often the records are pruned. */
  lemma AlertsAreSeparatedByAllClear(init: Option<Record>, trace: seq<Event>, i: nat, j: nat)
    requires i < j && FiresAt(init, trace, i) && FiresAt(init, trace, j)
    ensures AllClearBetween(trace, i, j)
  {
    ActiveUntilAllClear(init, trace, i, j);
  }

  /** Whenever an emergency is observed, the aircraft's alert is active afterwards. */
  lemma EmergencyIsActive(r: Option<Record>, e: Event)
    requires e.Observe? && e.emergency
    ensures Step(r, e).Some? && Step(r, e).value.active
  {
  }

  predicate IsActive(r: Option<Record>) {
    r.Some? && r.value.active
  }

  ghost predicate NoAllClear(trace: seq<Event>, lo: int, hi: nat) {
    forall p :: 0 <= p < |trace| && lo <= p < hi ==> !AllClear(trace[p])
  }

  /** An active alert was raised, or restored as active, and there has been no all-clear since. */
  lemma {:induction false} ActiveWasRaised(init: Option<Record>, trace: seq<Event>, n: nat) returns (f: int)
    requires n <= |trace| && IsActive(Replay(init, trace[..n]))
    ensures -1 <= f < n && NoAllClear(trace, f + 1, n)
    ensures if f < 0 then IsActive(init) else FiresAt(init, trace, f)
    decreases n
  {
    f := -1;
    assert trace[..0] == [];
    if n > 0 {
      assert trace[..n][..n - 1] == trace[..n - 1];
      if IsActive(Replay(init, trace[..n - 1])) {
        f := ActiveWasRaised(init, trace, n - 1);
      } else {
        f := n - 1;
      }
    }
  }

  function Firings(init: Option<Record>, trace: seq<Event>): nat {
    if trace == [] then 0 else
    var before := trace[..|trace| - 1];
    Firings(init, before) + (if Fires(Replay(init, before), trace[|trace| - 1]) then 1 else 0)
  }

  lemma ReplayNext(init: Option<Record>, trace: seq<Event>, e: Event)
    ensures Replay(init, trace + [e]) == Step(Replay(init, trace), e)
    ensures Firings(init, trace + [e]) == Firings(init, trace) + (if Fires(Replay(init, trace), e) then 1 else 0)
  {
    assert (trace + [e])[..|trace|] == trace;
  }

  /** More firings in a longer trace happened at some event. */
  lemma {:induction false} FiringExists(init: Option<Record>, trace: seq<Event>, m: nat, n: nat) returns (p: nat)
    requires m <= n <= |trace| && Firings(init, trace[..m]) < Firings(init, trace[..n])
    ensures m <= p < n && FiresAt(init, trace, p)
    decreases n
  {
    assert trace[..n][..n - 1] == trace[..n - 1];
    if Firings(init, trace[..m]) < Firings(init, trace[..n - 1]) {
      p := FiringExists(init, trace, m, n - 1);
    } else {
      p := n - 1;
    }
  }

  // ---------- calls ----------

  /** One evaluation of a snapshot of one scope. Other feeders lock per aircraft: what interleaves
      there is a sequence of calls with one aircraft each. Pruning alone is a call without aircraft. */
  datatype Call = Call(scope: FeederId, aircraft: seq<Aircraft>, now: int, alerts: seq<string>)

  predicate Looks(scope: FeederId, a: Aircraft) {
    Authoritative(scope) || EmergencyActive(a)
  }

  /** What a snapshot tells about one aircraft: the local and community views observe every report
      of it, other feeders only report emergencies. */
  function Observations(scope: FeederId, aircraft: seq<Aircraft>, now: int, k: string): seq<Event> {
    if aircraft == [] then [] else
    var a := aircraft[|aircraft| - 1];
    Observations(scope, aircraft[..|aircraft| - 1], now, k)
    + if a.icao == k && Looks(scope, a) then [Observe(scope, EmergencyActive(a), now)] else []
  }

  /** A key's trace gains exactly the observations of the snapshot, then at most one pruning, and the
      key is in the alerts as often as it fired. */
  ghost predicate KeySpec(init: Option<Record>, before: seq<Event>, call: Call, after: seq<Event>, k: string) {
    var told := before + Observations(call.scope, call.aircraft, call.now, k);
    && MaybePruned(told, after, AgePrune(call.now), CapPrune)
    && Firings(init, after) == Firings(init, before) + multiset(call.alerts)[k]
  }

  ghost predicate CallSpec(
    restored: map<string, Record>, before: Marks, call: Call, after: Marks)
  {
    forall k :: KeySpec(Find(restored, k), TraceOf(before, k), call, TraceOf(after, k), k)
  }

  ghost predicate IsRun(restored: map<string, Record>, marks: seq<Marks>, calls: seq<Call>) {
    && |marks| == |calls| + 1 && marks[0] == map[]
    && forall c :: 0 <= c < |calls| ==> CallSpec(restored, marks[c], calls[c], marks[c + 1])
  }

  lemma RunIsChain(restored: map<string, Record>, marks: seq<Marks>, calls: seq<Call>)
    requires IsRun(restored, marks, calls)
    ensures Chain(marks)
  {
    hide Observations, Firings;
    forall c | 0 <= c < |marks| - 1
      ensures Grows(marks[c], marks[c + 1])
    {
      assert CallSpec(restored, marks[c], calls[c], marks[c + 1]);
      forall k
        ensures TraceOf(marks[c], k) <= TraceOf(marks[c + 1], k)
      {
        assert KeySpec(Find(restored, k), TraceOf(marks[c], k), calls[c], TraceOf(marks[c + 1], k), k);
      }
    }
  }

  /** An alert returned by a call is a firing among the events of that call. */
  lemma AlertIsFiring(restored: map<string, Record>, marks: seq<Marks>, calls: seq<Call>, c: nat, k: string)
    returns (n: nat)
    requires IsRun(restored, marks, calls) && c < |calls| && k in calls[c].alerts
    ensures |marks| == |calls| + 1 && Chain(marks)
    ensures InCall(marks, k, c, n) && FiresAt(Find(restored, k), TraceOf(marks[|calls|], k), n)
  {
    RunIsChain(restored, marks, calls);
    var trace := TraceOf(marks[|calls|], k);
    var m, end := |TraceOf(marks[c], k)|, |TraceOf(marks[c + 1], k)|;
    ChainGrows(marks, k, c, |calls|);
    ChainGrows(marks, k, c + 1, |calls|);
    hide Observations, Firings, Replay, Chain;
    assert CallSpec(restored, marks[c], calls[c], marks[c + 1]);
    assert KeySpec(Find(restored, k), TraceOf(marks[c], k), calls[c], TraceOf(marks[c + 1], k), k);
    assert trace[..m] == TraceOf(marks[c], k) && trace[..end] == TraceOf(marks[c + 1], k);
    assert multiset(calls[c].alerts)[k] > 0;
    n := FiringExists(Find(restored, k), trace, m, end);
  }

  /** A snapshot of the local or the community view that shows the aircraft without emergency. */
  ghost predicate SeesAllClear(call: Call, k: string) {
    && (call.scope == "all" || call.scope == "local")
    && exists i :: 0 <= i < |call.aircraft| && call.aircraft[i].icao == k && !EmergencyActive(call.aircraft[i])
  }

  lemma {:induction false} ObservationIsReal(scope: FeederId, aircraft: seq<Aircraft>, now: int, k: string,
                                             e: Event) returns (i: nat)
    requires e in Observations(scope, aircraft, now, k)
    ensures i < |aircraft| && aircraft[i].icao == k && e == Observe(scope, EmergencyActive(aircraft[i]), now)
    ensures Looks(scope, aircraft[i])
    decreases |aircraft|
  {
    var n := |aircraft| - 1;
    if e in Observations(scope, aircraft[..n], now, k) {
      i := ObservationIsReal(scope, aircraft[..n], now, k, e);
    } else {
      i := n;
    }
  }

  /** What a key's trace gains in a call: the observations first, and every observation is one of them. */
  lemma ToldFirst(init: Option<Record>, before: seq<Event>, call: Call, after: seq<Event>, k: string, n: nat)
    requires KeySpec(init, before, call, after, k) && |before| <= n < |after| && after[n].Observe?
    ensures var told := Observations(call.scope, call.aircraft, call.now, k);
      n - |before| < |told| && after[n] == told[n - |before|]
  {
    hide Observations, Firings;
  }

  /** An observation in a trace is one of the snapshot given to its call. */
  lemma ObservedInCall(restored: map<string, Record>, marks: seq<Marks>, calls: seq<Call>, c: nat, k: string, n: nat)
    returns (i: nat)
    requires IsRun(restored, marks, calls) && Chain(marks) && c < |calls| && InCall(marks, k, c, n)
    requires n < |TraceOf(marks[|calls|], k)| && TraceOf(marks[|calls|], k)[n].Observe?
    ensures i < |calls[c].aircraft| && calls[c].aircraft[i].icao == k
    ensures TraceOf(marks[|calls|], k)[n] == Observe(calls[c].scope, EmergencyActive(calls[c].aircraft[i]), calls[c].now)
  {
    hide Observations, KeySpec, Chain, EmergencyActive;
    ChainGrows(marks, k, c + 1, |calls|);
    assert CallSpec(restored, marks[c], calls[c], marks[c + 1]);
    var before, after := TraceOf(marks[c], k), TraceOf(marks[c + 1], k);
    assert after[n] == TraceOf(marks[|calls|], k)[n];
    ToldFirst(Find(restored, k), before, calls[c], after, k, n);
    i := ObservationIsReal(calls[c].scope, calls[c].aircraft, calls[c].now, k, after[n]);
  }

  predicate NamedTwice(call: Call, k: string) {
    |Observations(call.scope, call.aircraft, call.now, k)| >= 2
  }

  /** Two observations of one call come from two reports. */
  lemma TwoInOneCall(restored: map<string, Record>, marks: seq<Marks>, calls: seq<Call>, c: nat, k: string, m: nat,
                     n: nat)
    requires IsRun(restored, marks, calls) && Chain(marks) && c < |calls| && m != n
    requires InCall(marks, k, c, m) && InCall(marks, k, c, n)
    requires m < |TraceOf(marks[|calls|], k)| && TraceOf(marks[|calls|], k)[m].Observe?
    requires n < |TraceOf(marks[|calls|], k)| && TraceOf(marks[|calls|], k)[n].Observe?
    ensures NamedTwice(calls[c], k)
  {
    hide Observations, KeySpec, Chain;
    ChainGrows(marks, k, c + 1, |calls|);
    assert CallSpec(restored, marks[c], calls[c], marks[c + 1]);
    var before, after := TraceOf(marks[c], k), TraceOf(marks[c + 1], k);
    assert after[m] == TraceOf(marks[|calls|], k)[m] && after[n] == TraceOf(marks[|calls|], k)[n];
    ToldFirst(Find(restored, k), before, calls[c], after, k, m);
    ToldFirst(Find(restored, k), before, calls[c], after, k, n);
  }

  /** Between two calls that alert for one aircraft, the local or the community view was given a
      snapshot that shows the aircraft without emergency. It was one of the two calls themselves only
      if that names the aircraft twice. */
  lemma CallsAreSeparatedByAllClear(
    restored: map<string, Record>, marks: seq<Marks>, calls: seq<Call>, i: nat, j: nat, k: string) returns (c: nat)
    requires IsRun(restored, marks, calls) && i < j < |calls| && k in calls[i].alerts && k in calls[j].alerts
    ensures i <= c <= j && SeesAllClear(calls[c], k) && (c == i || c == j ==> NamedTwice(calls[c], k))
  {
    hide IsRun, Replay, Chain, FiresAt, Step, EmergencyActive, NamedTwice;
    var m := AlertIsFiring(restored, marks, calls, i, k);
    var n := AlertIsFiring(restored, marks, calls, j, k);
    var trace := TraceOf(marks[|calls|], k);
    CallsInOrder(marks, k, i, m, j, n);
    AlertsAreSeparatedByAllClear(Find(restored, k), trace, m, n);
    var p: nat :| m < p < n && AllClear(trace[p]);
    ChainGrows(marks, k, i, j + 1);
    c := CallOf(marks, k, i, j + 1, p);
    var a := ObservedInCall(restored, marks, calls, c, k, p);
    FiringIsObserved(Find(restored, k), trace, m);
    FiringIsObserved(Find(restored, k), trace, n);
    if c == i {
      TwoInOneCall(restored, marks, calls, i, k, m, p);
    } else if c == j {
      TwoInOneCall(restored, marks, calls, j, k, n, p);
    }
  }

  lemma FiringIsObserved(init: Option<Record>, trace: seq<Event>, n: nat)
    requires FiresAt(init, trace, n)
    ensures n < |trace| && trace[n].Observe?
  {
  }

  /** No emergency is missed: when a call shows one, an alert has been returned by this or an earlier
      call `i`, or was restored as active (-1), and no call in between has seen an all-clear. */
  lemma NoEmergencyIsMissed(restored: map<string, Record>, marks: seq<Marks>, calls: seq<Call>, c: nat,
                            x: nat) returns (i: int)
    requires IsRun(restored, marks, calls) && c < |calls| && x < |calls[c].aircraft|
    requires EmergencyActive(calls[c].aircraft[x])
    ensures -1 <= i <= c
    ensures var k := calls[c].aircraft[x].icao;
      && (if i < 0 then IsActive(Find(restored, k)) else k in calls[i].alerts)
      && forall d :: i < d < c ==> !SeesAllClear(calls[d], k)
  {
    hide CallSpec, KeySpec, Firings, EmergencyActive, Replay, Step, SeesAllClear, Chain, FiresAt, Observations;
    var call, k := calls[c], calls[c].aircraft[x].icao;
    var init, trace := Find(restored, k), TraceOf(marks[|calls|], k);
    RunIsChain(restored, marks, calls);
    var n := EmergencyAt(restored, marks, calls, c, x);
    var f := ActiveWasRaised(init, trace, n + 1);
    i := -1;
    if f >= 0 {
      NoEventsFirst(marks, k);
      ChainGrows(marks, k, c + 1, |calls|);
      i := CallOf(marks, k, 0, c + 1, f);
      FiringIsAnnounced(restored, marks, calls, i, k, f);
    }
    forall d | i < d < c
      ensures !SeesAllClear(calls[d], k)
    {
      if SeesAllClear(calls[d], k) {
        var p := AllClearAt(restored, marks, calls, d, k);
        CallsInOrder(marks, k, d, p, c, n);
        if f >= 0 {
          CallsInOrder(marks, k, i, f, d, p);
        }
      }
    }
  }

  lemma NoEventsFirst(marks: seq<Marks>, k: string)
    requires Chain(marks)
    ensures TraceOf(marks[0], k) == []
  {
  }

  /** The report of an emergency stands in the trace, and the record is active after it. */
  lemma EmergencyAt(restored: map<string, Record>, marks: seq<Marks>, calls: seq<Call>, c: nat, x: nat) returns (n: nat)
    requires IsRun(restored, marks, calls) && Chain(marks) && c < |calls|
    requires x < |calls[c].aircraft| && EmergencyActive(calls[c].aircraft[x])
    ensures var k := calls[c].aircraft[x].icao;
      var trace := TraceOf(marks[|calls|], k);
      InCall(marks, k, c, n) && n < |trace| && IsActive(Replay(Find(restored, k), trace[..n + 1]))
  {
    hide KeySpec, Firings, EmergencyActive, Replay, Step, Chain, Observations;
    var call, k := calls[c], calls[c].aircraft[x].icao;
    assert CallSpec(restored, marks[c], call, marks[c + 1]);
    var p := ObservationIn(call.scope, call.aircraft, call.now, x);
    ToldAt(Find(restored, k), TraceOf(marks[c], k), call, TraceOf(marks[c + 1], k), k, p);
    ChainGrows(marks, k, c + 1, |calls|);
    n := |TraceOf(marks[c], k)| + p;
    var trace := TraceOf(marks[|calls|], k);
    ReplayNext(Find(restored, k), trace[..n], trace[n]);
    assert trace[..n] + [trace[n]] == trace[..n + 1];
    EmergencyIsActive(Replay(Find(restored, k), trace[..n]), trace[n]);
  }

  /** An all-clear of a snapshot stands in the trace. */
  lemma AllClearAt(restored: map<string, Record>, marks: seq<Marks>, calls: seq<Call>, d: nat,
                   k: string) returns (n: nat)
    requires IsRun(restored, marks, calls) && Chain(marks) && d < |calls| && SeesAllClear(calls[d], k)
    ensures InCall(marks, k, d, n) && n < |TraceOf(marks[|calls|], k)| && AllClear(TraceOf(marks[|calls|], k)[n])
  {
    hide KeySpec, Firings, EmergencyActive, Chain, Observations;
    var call := calls[d];
    var x :| 0 <= x < |call.aircraft| && call.aircraft[x].icao == k && !EmergencyActive(call.aircraft[x]);
    assert CallSpec(restored, marks[d], call, marks[d + 1]);
    var p := ObservationIn(call.scope, call.aircraft, call.now, x);
    ToldAt(Find(restored, k), TraceOf(marks[d], k), call, TraceOf(marks[d + 1], k), k, p);
    ChainGrows(marks, k, d + 1, |calls|);
    n := |TraceOf(marks[d], k)| + p;
  }

  /** A firing among the events of a call is an alert of that call. */
  lemma FiringIsAnnounced(restored: map<string, Record>, marks: seq<Marks>, calls: seq<Call>, c: nat, k: string, n: nat)
    requires IsRun(restored, marks, calls) && Chain(marks) && c < |calls| && InCall(marks, k, c, n)
    requires FiresAt(Find(restored, k), TraceOf(marks[|calls|], k), n)
    ensures k in calls[c].alerts
  {
    hide Firings, Chain, CallSpec, FiresAt;
    CallFirings(restored, marks, calls, c, k);
    ChainGrows(marks, k, c, |calls|);
    ChainGrows(marks, k, c + 1, |calls|);
    var trace, m, end := TraceOf(marks[|calls|], k), |TraceOf(marks[c], k)|, |TraceOf(marks[c + 1], k)|;
    assert trace[..m] == TraceOf(marks[c], k) && trace[..end] == TraceOf(marks[c + 1], k);
    FiringCounts(Find(restored, k), trace, m, n, end);
  }

  lemma {:induction false} FiringCounts(init: Option<Record>, trace: seq<Event>, m: nat, p: nat, n: nat)
    requires m <= p < n <= |trace| && FiresAt(init, trace, p)
    ensures Firings(init, trace[..m]) < Firings(init, trace[..n])
    decreases n
  {
    hide Fires, Replay;
    assert trace[..n][..n - 1] == trace[..n - 1];
    if p < n - 1 {
      FiringCounts(init, trace, m, p, n - 1);
    } else {
      FiringsGrow(init, trace, m, n - 1);
    }
  }

  lemma {:induction false} FiringsGrow(init: Option<Record>, trace: seq<Event>, m: nat, n: nat)
    requires m <= n <= |trace|
    ensures Firings(init, trace[..m]) <= Firings(init, trace[..n])
    decreases n
  {
    hide Fires, Replay;
    if m < n {
      assert trace[..n][..n - 1] == trace[..n - 1];
      FiringsGrow(init, trace, m, n - 1);
    }
  }

  lemma ToldAt(init: Option<Record>, before: seq<Event>, call: Call, after: seq<Event>, k: string, p: nat)
    requires KeySpec(init, before, call, after, k) && p < |Observations(call.scope, call.aircraft, call.now, k)|
    ensures |before| + p < |after| && after[|before| + p] == Observations(call.scope, call.aircraft, call.now, k)[p]
  {
    hide Observations, Firings;
  }

  /** Where the report of one aircraft stands among the observations. */
  lemma {:induction false} ObservationIn(scope: FeederId, aircraft: seq<Aircraft>, now: int, x: nat) returns (p: nat)
    requires x < |aircraft| && Looks(scope, aircraft[x])
    ensures p < |Observations(scope, aircraft, now, aircraft[x].icao)|
    ensures Observations(scope, aircraft, now, aircraft[x].icao)[p] == Observe(scope, EmergencyActive(aircraft[x]), now)
    decreases |aircraft|
  {
    hide EmergencyActive;
    var n := |aircraft| - 1;
    if x < n {
      p := ObservationIn(scope, aircraft[..n], now, x);
    } else {
      p := |Observations(scope, aircraft[..n], now, aircraft[x].icao)|;
    }
  }

  lemma CallFirings(restored: map<string, Record>, marks: seq<Marks>, calls: seq<Call>, c: nat, k: string)
    requires IsRun(restored, marks, calls) && c < |calls|
    ensures Firings(Find(restored, k), TraceOf(marks[c + 1], k)) ==
      Firings(Find(restored, k), TraceOf(marks[c], k)) + multiset(calls[c].alerts)[k]
  {
    hide Observations, Firings;
    assert CallSpec(restored, marks[c], calls[c], marks[c + 1]);
    assert KeySpec(Find(restored, k), TraceOf(marks[c], k), calls[c], TraceOf(marks[c + 1], k), k);
  }

  // ---------- the monitor ----------

  predicate Expired(r: Record, now: int) {
    !r.active && r.lastSeenAt.Some? && r.lastSeenAt.value < now - STATE_RETENTION
  }

  /** Every record is what its trace leads to. */
  ghost predicate Explains(restored: map<string, Record>, traces: Marks, records: map<string, Record>) {
    forall k :: Find(records, k) == Replay(Find(restored, k), TraceOf(traces, k))
  }

  /** The alerts are exactly the firings the traces have gained. */
  ghost predicate Raised(
    restored: map<string, Record>, before: Marks, after: Marks, alerts: seq<string>)
  {
    forall k ::
      Firings(Find(restored, k), TraceOf(after, k)) == Firings(Find(restored, k), TraceOf(before, k)) + multiset(alerts)[k]
  }

  /** The traces have gained exactly the observations of `aircraft`. */
  ghost predicate Told(
    before: Marks, after: Marks, scope: FeederId, aircraft: seq<Aircraft>, now: int)
  {
    forall k :: TraceOf(after, k) == TraceOf(before, k) + Observations(scope, aircraft, now, k)
  }

  lemma LogExplains(restored: map<string, Record>, traces: Marks, records: map<string, Record>,
                    next: map<string, Record>, k: string, e: Event)
    requires Explains(restored, traces, records)
    requires forall j :: Find(next, j) == if j == k then Step(Find(records, k), e) else Find(records, j)
    ensures Explains(restored, Logged(traces, k, e), next)
  {
    hide Replay, Step, TraceOf, Find;
    forall j
      ensures Find(next, j) == Replay(Find(restored, j), TraceOf(Logged(traces, k, e), j))
    {
      TraceAfter(traces, k, e, j);
      ReplayNext(Find(restored, k), TraceOf(traces, k), e);
    }
  }

  lemma LogRaises(restored: map<string, Record>, start: Marks, traces: Marks,
                  alerts: seq<string>, k: string, e: Event)
    requires Raised(restored, start, traces, alerts)
    ensures var fired := Fires(Replay(Find(restored, k), TraceOf(traces, k)), e);
            Raised(restored, start, Logged(traces, k, e), alerts + if fired then [k] else [])
  {
    hide Replay, Firings, Fires, TraceOf, Find;
    var fired := Fires(Replay(Find(restored, k), TraceOf(traces, k)), e);
    forall j
      ensures Firings(Find(restored, j), TraceOf(Logged(traces, k, e), j)) ==
        Firings(Find(restored, j), TraceOf(start, j)) + multiset(alerts + if fired then [k] else [])[j]
    {
      TraceAfter(traces, k, e, j);
      ReplayNext(Find(restored, k), TraceOf(traces, k), e);
      CountRaised(alerts, k, fired, j);
    }
  }

  lemma ToldNothing(traces: Marks, scope: FeederId, now: int)
    ensures Told(traces, traces, scope, [], now)
  {
  }

  lemma ToldNext(start: Marks, was: Marks, after: Marks,
                 scope: FeederId, aircraft: seq<Aircraft>, now: int, n: nat)
    requires n < |aircraft| && Told(start, was, scope, aircraft[..n], now)
    requires var a := aircraft[n];
      after == if Looks(scope, a) then Logged(was, a.icao, Observe(scope, EmergencyActive(a), now)) else was
    ensures Told(start, after, scope, aircraft[..n + 1], now)
  {
    hide EmergencyActive, Observations, TraceOf, Looks;
    var a := aircraft[n];
    forall k
      ensures TraceOf(after, k) == TraceOf(start, k) + Observations(scope, aircraft[..n + 1], now, k)
    {
      ObservationsNext(scope, aircraft, now, n, k);
      TraceAfter(was, a.icao, Observe(scope, EmergencyActive(a), now), k);
      assert TraceOf(was, k) == TraceOf(start, k) + Observations(scope, aircraft[..n], now, k);
    }
  }

  lemma ObservationsNext(scope: FeederId, aircraft: seq<Aircraft>, now: int, n: nat, k: string)
    requires n < |aircraft|
    ensures var a := aircraft[n];
            Observations(scope, aircraft[..n + 1], now, k) ==
            if a.icao == k && Looks(scope, a)
            then Observations(scope, aircraft[..n], now, k) + [Observe(scope, EmergencyActive(a), now)]
            else Observations(scope, aircraft[..n], now, k)
  {
    hide EmergencyActive, Looks;
    assert aircraft[..n + 1][..n] == aircraft[..n];
  }

  /** Which records pruning leaves: no expired one, every active one, and of the others no more than
      the limit allows, the longest unseen having gone first, and no more than the limit needs. */
  ghost predicate PrunedTo(was: map<string, Record>, records: map<string, Record>, now: int, limit: nat) {
    && (|records| <= limit || forall k :: k in records ==> records[k].active)
    && (|records| < limit ==> forall k :: k in was && !Expired(was[k], now) ==> k in records)
    && (forall k :: k in records ==> k in was && records[k] == was[k] && !Expired(records[k], now))
    && (forall k :: k in was && was[k].active ==> k in records)
    && (forall k, l :: k in was && k !in records && !Expired(was[k], now) && l in records && !records[l].active ==>
          NotAfter(was[k].lastSeenAt, records[l].lastSeenAt))
  }

  /** Every trace says what pruning did to its record. */
  ghost predicate AllPruned(start: Marks, after: Marks, was: map<string, Record>, records: map<string, Record>,
                            now: int) {
    forall k :: Pruned(TraceOf(start, k), TraceOf(after, k), k in was, k in was && Expired(was[k], now), k in records,
                       AgePrune(now), CapPrune)
  }

  class EmergencyMonitor {
    ghost const restored: map<string, Record>
    var emergencies: map<string, Record>
    var sequence: nat
    ghost var traces: Marks

    ghost predicate Valid()
      reads this`emergencies, this`traces
    {
      Explains(restored, traces, emergencies)
    }

    constructor (restored: map<string, Record>)
      ensures Valid() && this.restored == restored && emergencies == restored && traces == map[]
    {
      this.restored, emergencies, sequence, traces := restored, restored, 0, map[];
    }

    /** `evaluateEmergency`: the record takes the step of this observation and fires as it does. */
    method EvaluateEmergency(scope: FeederId, a: Aircraft, now: int, alerts: seq<string>) returns (raised: seq<string>)
      requires Valid()
      modifies this`emergencies, this`traces
      ensures Valid() && traces == Logged(old(traces), a.icao, Observe(scope, EmergencyActive(a), now))
      ensures raised == alerts + if Fires(Find(old(emergencies), a.icao), Observe(scope, EmergencyActive(a), now)) then [a.icao] else []
    {
      hide Explains;
      raised := alerts;
      assert alerts + [] == alerts;
      var recognized := EmergencyActive(a);
      ghost var before, event := emergencies, Observe(scope, recognized, now);
      if recognized || (a.icao in emergencies && (scope == FEEDER_ALL || scope == FEEDER_LOCAL)) {
        var record := if a.icao in emergencies then emergencies[a.icao] else Record(false, None, None, None);
        record := record.(lastSeenAt := Some(now));
        if !recognized {
          if record.active {
            record := record.(active := false, lastClearAt := Some(now));
          }
        } else if !record.active {
          record := Record(true, Some(now), None, Some(now));
          raised := alerts + [a.icao];
        }
        emergencies := emergencies[a.icao := record];
      }
      LogExplains(restored, traces, before, emergencies, a.icao, event);
      traces := Logged(traces, a.icao, event);
    }

    /** The loop over the aircraft. */
    method ObserveAll(scope: FeederId, aircraft: seq<Aircraft>, now: int) returns (alerts: seq<string>)
      requires Valid()
      modifies this`emergencies, this`sequence, this`traces
      ensures Valid() && Raised(restored, old(traces), traces, alerts)
      ensures Told(old(traces), traces, scope, aircraft, now)
      ensures Authoritative(scope) ==> sequence == old(sequence) + 1
    {
      alerts := [];
      ghost var start := traces;
      ToldNothing(traces, scope, now);
      NothingRaised(restored, traces);
      hide Raised, Told, EmergencyActive, Replay, Fires, Logged;
      if Authoritative(scope) {
        sequence := sequence + 1;
      }
      for n := 0 to |aircraft|
        invariant Valid() && Raised(restored, start, traces, alerts) && Told(start, traces, scope, aircraft[..n], now)
        invariant Authoritative(scope) ==> sequence == old(sequence) + 1
      {
        ghost var was := traces;
        if Looks(scope, aircraft[n]) {
          if !Authoritative(scope) {
            sequence := sequence + 1;
          }
          ghost var event := Observe(scope, EmergencyActive(aircraft[n]), now);
          LogRaises(restored, start, traces, alerts, aircraft[n].icao, event);
          alerts := EvaluateEmergency(scope, aircraft[n], now, alerts);
        }
        ToldNext(start, was, traces, scope, aircraft, now, n);
      }
      assert aircraft[..|aircraft|] == aircraft;
    }

    predicate Inactive(k: string)
      reads this`emergencies
    {
      k in emergencies && !emergencies[k].active
    }

    method Forget(key: string, ghost e: Event)
      requires Valid() && key in emergencies && Step(Some(emergencies[key]), e).None? && !e.Observe?
      modifies this`emergencies, this`traces
      ensures Valid() && emergencies == old(emergencies) - {key} && traces == Logged(old(traces), key, e)
    {
      hide Explains, Step;
      ghost var before := emergencies;
      emergencies := emergencies - {key};
      LogExplains(restored, traces, before, emergencies, key, e);
      traces := Logged(traces, key, e);
    }

    /** Exactly the expired records go. */
    method PruneByAge(now: int)
      requires Valid()
      modifies this`emergencies, this`traces
      ensures Valid()
      ensures forall k :: k in emergencies <==> k in old(emergencies) && !Expired(old(emergencies)[k], now)
      ensures forall k :: k in old(emergencies) && k !in emergencies ==>
        && !old(emergencies)[k].active && old(emergencies)[k].lastSeenAt.Some?
        && now - old(emergencies)[k].lastSeenAt.value > 604_800_000_000_000
      ensures forall k :: k in emergencies ==> emergencies[k] == old(emergencies)[k]
      ensures Removed(old(traces), traces, old(emergencies), emergencies, AgePrune(now))
    {
      hide Valid, Removed, Logged;
      RemovedNone(traces, emergencies, AgePrune(now));
      var rest := emergencies.Keys;
      while rest != {}
        invariant rest <= emergencies.Keys && Valid()
        invariant forall k :: k in emergencies <==>
          k in old(emergencies) && (k in rest || !Expired(old(emergencies)[k], now))
        invariant forall k :: k in emergencies ==> emergencies[k] == old(emergencies)[k]
        invariant Removed(old(traces), traces, old(emergencies), emergencies, AgePrune(now))
        decreases |rest|
      {
        var key :| key in rest;
        rest := rest - {key};
        if Expired(emergencies[key], now) {
          RemoveOne(old(traces), traces, old(emergencies), emergencies, key, AgePrune(now));
          Forget(key, AgePrune(now));
        }
      }
    }

    /** The longest unseen inactive records go, and no more of them than the limit needs. */
    method PruneByCapacity(limit: nat)
      requires Valid()
      modifies this`emergencies, this`traces
      ensures Valid()
      ensures |emergencies| <= limit || forall k :: k in emergencies ==> emergencies[k].active
      ensures |emergencies| < limit ==> emergencies == old(emergencies)
      ensures forall k :: k in emergencies ==> k in old(emergencies) && emergencies[k] == old(emergencies)[k]
      ensures forall k :: k in old(emergencies) && old(emergencies)[k].active ==> k in emergencies
      ensures forall k, l :: k in old(emergencies) && k !in emergencies && Inactive(l) ==>
        NotAfter(old(emergencies)[k].lastSeenAt, emergencies[l].lastSeenAt)
      ensures Removed(old(traces), traces, old(emergencies), emergencies, CapPrune)
    {
      hide Valid, Removed, Logged;
      RemovedNone(traces, emergencies, CapPrune);
      while |emergencies| > limit && exists k :: k in emergencies && !emergencies[k].active
        invariant Valid() && (|emergencies| < limit ==> emergencies == old(emergencies))
        invariant forall k :: k in emergencies ==> k in old(emergencies) && emergencies[k] == old(emergencies)[k]
        invariant forall k :: k in old(emergencies) && old(emergencies)[k].active ==> k in emergencies
        invariant forall k, l :: k in old(emergencies) && k !in emergencies && Inactive(l) ==>
          NotAfter(old(emergencies)[k].lastSeenAt, emergencies[l].lastSeenAt)
        invariant Removed(old(traces), traces, old(emergencies), emergencies, CapPrune)
        decreases |emergencies|
      {
        var key := OldestInactive();
        assert emergencies.Keys == (emergencies - {key}).Keys + {key};
        RemoveOne(old(traces), traces, old(emergencies), emergencies, key, CapPrune);
        Forget(key, CapPrune);
      }
    }

    method OldestInactive() returns (oldest: string)
      requires exists k :: k in emergencies && !emergencies[k].active
      ensures Inactive(oldest) && forall k :: Inactive(k) ==>
        NotAfter(emergencies[oldest].lastSeenAt, emergencies[k].lastSeenAt)
    {
      oldest :| oldest in emergencies && !emergencies[oldest].active;
      var rest := emergencies.Keys;
      while rest != {}
        invariant rest <= emergencies.Keys && Inactive(oldest)
        invariant forall k :: Inactive(k) && k !in rest ==>
          NotAfter(emergencies[oldest].lastSeenAt, emergencies[k].lastSeenAt)
        decreases |rest|
      {
        var key :| key in rest;
        rest := rest - {key};
        if !emergencies[key].active && !NotAfter(emergencies[oldest].lastSeenAt, emergencies[key].lastSeenAt) {
          oldest := key;
        }
      }
    }

    /** `pruneEmergencyLocked`: expired records go, then the longest unseen inactive ones until the
        limit holds. An active emergency is never forgotten. */
    method Prune(now: int, limit: nat)
      requires Valid()
      modifies this`emergencies, this`traces
      ensures Valid() && PrunedTo(old(emergencies), emergencies, now, limit)
      ensures AllPruned(old(traces), traces, old(emergencies), emergencies, now)
      ensures CallSpec(restored, old(traces), Call(FEEDER_ALL, [], now, []), traces)
    {
      hide Valid, Removed, CallSpec, Told, Raised, Pruned;
      ghost var start, was := traces, emergencies;
      PruneByAge(now);
      ghost var middle, young := traces, emergencies;
      PruneByCapacity(limit);
      assert PrunedTo(was, emergencies, now, limit) by {
        assert forall l :: l in emergencies && !emergencies[l].active ==> Inactive(l);
      }
      forall k
        ensures Pruned(TraceOf(start, k), TraceOf(traces, k), k in was, k in was && Expired(was[k], now),
                       k in emergencies,
                       AgePrune(now), CapPrune)
      {
        PrunedTwice(start, middle, traces, was, young, emergencies, AgePrune(now), CapPrune,
                    k in was && Expired(was[k], now), k);
      }
      hide AllPruned;
      ToldNothing(start, FEEDER_ALL, now);
      NothingRaised(restored, start);
      ComposeCall(restored, start, start, traces, was, emergencies, Call(FEEDER_ALL, [], now, []));
    }

    /** The emergency part of `Evaluate`: the observations lead to the records `left` with traces `told`.
        The local and community views then prune, every 300th time or when there are too many. */
    method Evaluate(scope: FeederId, aircraft: seq<Aircraft>, now: int, limit: nat)
      returns (alerts: seq<string>, ghost told: Marks, ghost left: map<string, Record>)
      requires Valid()
      modifies this
      ensures Valid() && CallSpec(restored, old(traces), Call(scope, aircraft, now, alerts), traces)
      ensures Told(old(traces), told, scope, aircraft, now) && Explains(restored, told, left)
      ensures Authoritative(scope) ==> sequence == old(sequence) + 1
      ensures if Authoritative(scope) && (sequence % 300 == 0 || |left| > limit)
              then PrunedTo(left, emergencies, now, limit) && AllPruned(told, traces, left, emergencies, now)
              else emergencies == left && traces == told
    {
      hide Explains, Raised, Told, CallSpec, PrunedTo, AllPruned;
      ghost var start := traces;
      alerts := ObserveAll(scope, aircraft, now);
      told, left := traces, emergencies;
      NothingPruned(told, left, now);
      if Authoritative(scope) && (sequence % 300 == 0 || |emergencies| > limit) {
        Prune(now, limit);
      }
      ComposeCall(restored, start, told, traces, left, emergencies, Call(scope, aircraft, now, alerts));
    }
  }

  lemma NothingPruned(traces: Marks, records: map<string, Record>, now: int)
    ensures AllPruned(traces, traces, records, records, now)
  {
  }

  lemma NothingRaised(restored: map<string, Record>, traces: Marks)
    ensures Raised(restored, traces, traces, [])
  {
  }

  lemma ComposeCall(restored: map<string, Record>, start: Marks, told: Marks, traces: Marks,
                    left: map<string, Record>, records: map<string, Record>, call: Call)
    requires Raised(restored, start, told, call.alerts) && Told(start, told, call.scope, call.aircraft, call.now)
    requires AllPruned(told, traces, left, records, call.now)
    ensures CallSpec(restored, start, call, traces)
  {
    hide Observations, Firings, KeySpec, TraceOf;
    forall k
      ensures KeySpec(Find(restored, k), TraceOf(start, k), call, TraceOf(traces, k), k)
    {
      assert Pruned(TraceOf(told, k), TraceOf(traces, k), k in left, k in left && Expired(left[k], call.now),
                    k in records,
                    AgePrune(call.now), CapPrune);
      ComposeKey(Find(restored, k), TraceOf(start, k), TraceOf(told, k), TraceOf(traces, k), call, k);
    }
  }

  lemma ComposeKey(init: Option<Record>, start: seq<Event>, told: seq<Event>, after: seq<Event>, call: Call, k: string)
    requires Firings(init, told) == Firings(init, start) + multiset(call.alerts)[k]
    requires told == start + Observations(call.scope, call.aircraft, call.now, k)
    requires MaybePruned(told, after, AgePrune(call.now), CapPrune)
    ensures KeySpec(init, start, call, after, k)
  {
    hide Observations, Firings;
    PruningIsSilent(init, told, AgePrune(call.now));
    PruningIsSilent(init, told, CapPrune);
  }

  lemma PruningIsSilent(init: Option<Record>, trace: seq<Event>, e: Event)
    requires !e.Observe?
    ensures Firings(init, trace + [e]) == Firings(init, trace)
  {
    ReplayNext(init, trace, e);
  }
}
