/** What observing snapshots does to the tracks: which aircraft are sampled, which points survive,
    and exactly when timestamps stay strictly increasing. */
module TrackRuns {
  import opened Text
  import opened Domain
  import opened RecencyList
  import opened TrackStore
  import Aggregate

  // ---------- one aircraft ----------

  /** The store during a snapshot taken at `now`. */
  ghost predicate Sampling(l: Limits, s: Store, now: int) {
    Sound(l, s) && AtSample(l, s, now)
  }

  lemma RecordCount(l: Limits, s: Store)
    requires Sound(l, s)
    ensures |s.records| == |s.order| <= l.maxAircraft
  {
    hide GoodRecord, Descending;
    ListLength(s.order, s.records.Keys);
  }

  /** Room is refused exactly when every place is taken by an aircraft of this snapshot. */
  lemma RoomRefused(l: Limits, s: Store, key: string)
    requires Sound(l, s) && WithRoom(l, s, key).None?
    ensures key !in s.records && FullOfThisSnapshot(l, s)
  {
    RecordCount(l, s);
    hide GoodRecord;
    if s.order != [] {
      assert s.order[|s.order| - 1] in s.order;
      AllFromThisSnapshot(l, s);
    } else {
      assert s.records.Keys == {};
    }
  }

  lemma DeletedAtSample(l: Limits, s: Store, key: string, now: int)
    requires AtSample(l, s, now)
    ensures AtSample(l, Deleted(s, key), now)
  {
    hide Without;
  }

  lemma RoomSound(l: Limits, s: Store, key: string, now: int)
    requires Sampling(l, s, now) && WithRoom(l, s, key).Some?
    ensures var u := WithRoom(l, s, key).value;
      Sampling(l, u, now) && u.generation == s.generation && (key in u.records || |u.order| < l.maxAircraft)
  {
    hide Sound, AtSample, Without;
    RecordCount(l, s);
    if WithRoom(l, s, key).value != s {
      var oldest := s.order[|s.order| - 1];
      DeletedIsSound(l, s, oldest);
      DeletedAtSample(l, s, oldest, now);
    }
  }

  lemma RoomMade(l: Limits, s: Store, key: string)
    requires WithRoom(l, s, key).Some?
    ensures var u := WithRoom(l, s, key).value;
      && u.generation == s.generation && (key in s.records <==> key in u.records)
      && (forall k :: k in u.records ==> k in s.records && u.records[k] == s.records[k])
      && (forall k :: SampledNow(s, k) ==> k in u.records)
      && (|s.records| < l.maxAircraft || key in s.records ==> u == s)
      && (key !in s.records ==> |u.records| + 1 >= |s.records|)
  {
    hide Without;
    var u := WithRoom(l, s, key).value;
    if u != s {
      assert s.records.Keys == u.records.Keys + {s.order[|s.order| - 1]};
    }
  }

  lemma SampleOneSound(l: Limits, s: Store, key: string, p: Point)
    requires Sampling(l, s, p.at)
    ensures var t := SampleOne(l, s, key, p);
      Sampling(l, t, p.at) && t.generation == s.generation && (WithRoom(l, s, key).None? ==> t == s)
  {
    hide Sound, AtSample, WithRoom;
    if WithRoom(l, s, key).Some? {
      RoomSound(l, s, key, p.at);
      SampledIsSound(l, WithRoom(l, s, key).value, key, p);
      SampledAtSample(l, WithRoom(l, s, key).value, key, p);
    }
  }

  /** One eligible report: its aircraft is sampled, or the store is full of this snapshot. */
  lemma SampleOneSpec(l: Limits, s: Store, key: string, p: Point)
    requires Sampling(l, s, p.at)
    ensures var t := SampleOne(l, s, key, p);
      && |t.records| >= |s.records|
      && (forall k :: k in t.records && k != key ==> k in s.records && t.records[k] == s.records[k])
      && (forall k :: SampledNow(s, k) ==> SampledNow(t, k))
      && (forall k :: k in s.records && k !in t.records ==> |s.records| >= l.maxAircraft)
    ensures var t := SampleOne(l, s, key, p);
      var before := if key in s.records then s.records[key].points else [];
      WithRoom(l, s, key).Some? ==> SampledNow(t, key) && t.records[key].points == Capped(before + [p], l.maxPoints)
  {
    hide Sampling, WithRoom, Capped, Without;
    if WithRoom(l, s, key).Some? {
      RoomMade(l, s, key);
      var u := WithRoom(l, s, key).value;
      var t := Sampled(l, u, key, p);
      assert t.records.Keys == u.records.Keys + {key};
    }
  }

  // ---------- which aircraft are sampled ----------

  /** The first `max` different eligible names. */
  function FirstNames(aircraft: seq<Aircraft>, max: nat): set<string> {
    if aircraft == [] then {} else
    var a, before := aircraft[|aircraft| - 1], FirstNames(aircraft[..|aircraft| - 1], max);
    if Eligible(a) && |before| < max then before + {Normal(a)} else before
  }

  /** The names sampled in this snapshot. */
  ghost function SampledNames(s: Store): set<string> {
    set k | k in s.records && s.records[k].generation == s.generation
  }

  lemma SameSize<T>(a: set<T>, b: set<T>)
    requires a <= b && |a| >= |b|
    ensures a == b
  {
    assert b == a + (b - a);
    assert |b| == |a| + |b - a|;
  }

  /** One report adds its name while fewer than the maximum have been sampled. */
  lemma SampleOneNames(l: Limits, s: Store, key: string, p: Point)
    requires Sampling(l, s, p.at)
    ensures SampledNames(SampleOne(l, s, key, p)) ==
      if |SampledNames(s)| < l.maxAircraft then SampledNames(s) + {key} else SampledNames(s)
  {
    hide Sound, AtSample, WithRoom, SampleOne;
    RecordCount(l, s);
    var names := SampledNames(s);
    if WithRoom(l, s, key).None? {
      RefusedSample(l, s, key, p);
      RoomRefused(l, s, key);
      assert names == s.records.Keys;
    } else {
      if |names| >= l.maxAircraft {
        SameSize(names, s.records.Keys);
        NoRoom(l, s, key, p.at);
      }
      SampleAddsName(l, s, key, p);
      assert key in names ==> names + {key} == names;
    }
  }

  lemma RefusedSample(l: Limits, s: Store, key: string, p: Point)
    requires WithRoom(l, s, key).None?
    ensures SampleOne(l, s, key, p) == s
  {
  }

  lemma SampleAddsName(l: Limits, s: Store, key: string, p: Point)
    requires Sampling(l, s, p.at) && WithRoom(l, s, key).Some?
    ensures SampledNames(SampleOne(l, s, key, p)) == SampledNames(s) + {key}
  {
    hide Sound, AtSample, WithRoom, SampleOne;
    SampleOneSound(l, s, key, p);
    SampleOneSpec(l, s, key, p);
    var t := SampleOne(l, s, key, p);
    forall k
      ensures k in SampledNames(t) <==> k in SampledNames(s) + {key}
    {
      assert k in SampledNames(s) <==> SampledNow(s, k);
      assert k in SampledNames(t) <==> SampledNow(t, k);
    }
  }

  lemma NoRoom(l: Limits, s: Store, key: string, now: int)
    requires Sampling(l, s, now) && SampledNames(s) == s.records.Keys && |s.records| >= l.maxAircraft
    requires WithRoom(l, s, key).Some?
    ensures key in SampledNames(s)
  {
    hide GoodRecord;
    RecordCount(l, s);
    if s.order != [] {
      assert s.order[|s.order| - 1] in s.order;
    }
  }

  /** Exactly the first `maxAircraft` different eligible names of a snapshot are sampled. */
  lemma {:induction false} ExactlyFirstNames(l: Limits, s: Store, aircraft: seq<Aircraft>, now: int)
    requires Sampling(l, s, now) && SampledNames(s) == {}
    ensures var t := SampleEach(l, s, aircraft, now);
      Sampling(l, t, now) && t.generation == s.generation && SampledNames(t) == FirstNames(aircraft, l.maxAircraft)
    decreases |aircraft|
  {
    if aircraft != [] {
      hide Sampling, SampleOne, SampledNames, Eligible, Normal;
      var init, a := aircraft[..|aircraft| - 1], aircraft[|aircraft| - 1];
      ExactlyFirstNames(l, s, init, now);
      var before := SampleEach(l, s, init, now);
      SampleOneSound(l, before, Normal(a), PointOf(a, now));
      SampleOneNames(l, before, Normal(a), PointOf(a, now));
    }
  }

  // ---------- when timestamps stay strictly increasing ----------

  /** Some report names an aircraft that this snapshot has already sampled. */
  ghost predicate Repeats(aircraft: seq<Aircraft>, max: nat) {
    exists j :: RepeatAt(aircraft, max, j)
  }

  predicate RepeatAt(aircraft: seq<Aircraft>, max: nat, j: int) {
    0 <= j < |aircraft| && Eligible(aircraft[j]) && Normal(aircraft[j]) in FirstNames(aircraft[..j], max)
  }

  /** The track ends in two points of the same time. */
  predicate Doubled(s: Store, k: string) {
    && k in s.records && s.records[k].generation == s.generation && |s.records[k].points| >= 2
    && s.records[k].points[|s.records[k].points| - 2].at == s.records[k].points[|s.records[k].points| - 1].at
  }

  lemma DoubledIsNotStrict(s: Store, k: string)
    requires Doubled(s, k)
    ensures !StrictlyTimed(s)
  {
    assert !StrictlySorted(s.records[k].points);
  }

  lemma LastPoint(l: Limits, s: Store, k: string, now: int)
    requires Sampling(l, s, now) && SampledNow(s, k)
    ensures |s.records[k].points| >= 1 && s.records[k].points[|s.records[k].points| - 1].at == now
  {
    assert GoodRecord(l, s, s.records[k]);
  }

  /** Sampling an aircraft twice in one snapshot doubles its last time. */
  lemma SecondSampleDoubles(l: Limits, s: Store, key: string, p: Point)
    requires Sampling(l, s, p.at) && SampledNow(s, key) && l.maxPoints >= 2
    ensures Doubled(SampleOne(l, s, key, p), key)
  {
    hide Sampling, SampleOne;
    LastPoint(l, s, key, p.at);
    SampleOneSpec(l, s, key, p);
    SampleOneSound(l, s, key, p);
    assert WithRoom(l, s, key) == Some(s);
    var points := s.records[key].points + [p];
    var after := Capped(points, l.maxPoints);
    assert after[|after| - 1] == p && after[|after| - 2] == s.records[key].points[|s.records[key].points| - 1];
  }

  lemma DoubledStays(l: Limits, s: Store, key: string, p: Point, k: string)
    requires Sampling(l, s, p.at) && Doubled(s, k) && l.maxPoints >= 2
    ensures Doubled(SampleOne(l, s, key, p), k)
  {
    hide Sampling, SampleOne, WithRoom, Capped;
    assert SampledNow(s, k);
    if k == key {
      SecondSampleDoubles(l, s, key, p);
    } else {
      SampleOneSound(l, s, key, p);
      SampleOneSpec(l, s, key, p);
    }
  }

  lemma StrictStays(l: Limits, s: Store, key: string, p: Point)
    requires Sampling(l, s, p.at) && StrictlyTimed(s) && !SampledNow(s, key)
    ensures StrictlyTimed(SampleOne(l, s, key, p))
  {
    hide StrictlySorted, Capped, Sound, AtSample, WithRoom;
    if WithRoom(l, s, key).Some? {
      RoomSound(l, s, key, p.at);
      RoomMade(l, s, key);
      SampledIsStrict(l, WithRoom(l, s, key).value, key, p);
    }
  }

  lemma {:induction false} NoRepeatKeepsStrict(l: Limits, s: Store, aircraft: seq<Aircraft>, now: int)
    requires Sampling(l, s, now) && SampledNames(s) == {} && StrictlyTimed(s) && !Repeats(aircraft, l.maxAircraft)
    ensures StrictlyTimed(SampleEach(l, s, aircraft, now))
    decreases |aircraft|
  {
    if aircraft != [] {
      hide Sampling, SampleOne, StrictlyTimed, Eligible, Normal, FirstNames;
      var n, init := |aircraft| - 1, aircraft[..|aircraft| - 1];
      RepeatsShorter(aircraft, l.maxAircraft);
      NoRepeatKeepsStrict(l, s, init, now);
      ExactlyFirstNames(l, s, init, now);
      if Eligible(aircraft[n]) {
        assert !RepeatAt(aircraft, l.maxAircraft, n);
        StrictStays(l, SampleEach(l, s, init, now), Normal(aircraft[n]), PointOf(aircraft[n], now));
      }
    }
  }

  lemma RepeatsShorter(aircraft: seq<Aircraft>, max: nat)
    requires aircraft != []
    ensures Repeats(aircraft[..|aircraft| - 1], max) ==> Repeats(aircraft, max)
    ensures Repeats(aircraft, max) ==> Repeats(aircraft[..|aircraft| - 1], max) || RepeatAt(aircraft, max, |aircraft| - 1)
  {
    hide Eligible, Normal, FirstNames;
    var init := aircraft[..|aircraft| - 1];
    forall j | 0 <= j < |init|
      ensures RepeatAt(init, max, j) <==> RepeatAt(aircraft, max, j)
    {
      assert init[..j] == aircraft[..j];
    }
  }

  lemma {:induction false} RepeatDoubles(l: Limits, s: Store, aircraft: seq<Aircraft>, now: int) returns (k: string)
    requires Sampling(l, s, now) && SampledNames(s) == {} && l.maxPoints >= 2 && Repeats(aircraft, l.maxAircraft)
    ensures Doubled(SampleEach(l, s, aircraft, now), k)
    decreases |aircraft|
  {
    hide Sampling, SampleOne, Doubled, Eligible, Normal, FirstNames;
    var n, init := |aircraft| - 1, aircraft[..|aircraft| - 1];
    var before := SampleEach(l, s, init, now);
    RepeatsShorter(aircraft, l.maxAircraft);
    ExactlyFirstNames(l, s, init, now);
    if Repeats(init, l.maxAircraft) {
      k := RepeatDoubles(l, s, init, now);
      if Eligible(aircraft[n]) {
        DoubledStays(l, before, Normal(aircraft[n]), PointOf(aircraft[n], now), k);
      }
    } else {
      k := Normal(aircraft[n]);
      assert k in SampledNames(before);
      SecondSampleDoubles(l, before, k, PointOf(aircraft[n], now));
    }
  }

  lemma OnePointIsStrict(l: Limits, s: Store)
    requires Sound(l, s) && l.maxPoints == 1
    ensures StrictlyTimed(s)
  {
    forall k | k in s.records
      ensures StrictlySorted(s.records[k].points)
    {
      assert GoodRecord(l, s, s.records[k]);
    }
  }

  // ---------- one snapshot ----------

  lemma {:induction false} OnlyMember(order: seq<string>, keep: set<string>, k: string)
    ensures k in Only(order, keep) <==> k in order && k in keep
    ensures |Only(order, keep)| <= |order|
  {
    if order != [] {
      OnlyMember(order[1..], keep, k);
      assert order == [order[0]] + order[1..];
    }
  }

  lemma {:induction false} OnlyDistinct(order: seq<string>, keep: set<string>)
    requires Distinct(order)
    ensures Distinct(Only(order, keep))
  {
    if order != [] {
      OnlyDistinct(order[1..], keep);
      OnlyMember(order[1..], keep, order[0]);
      assert order[0] !in order[1..];
      var rest := Only(order[1..], keep);
      assert forall i :: 0 <= i < |rest| ==> rest[i] in rest;
    }
  }

  lemma {:induction false} OnlyDescending(order: seq<string>, records: map<string, Record>, kept: map<string, Record>)
    requires Descending(order, records) && kept.Keys <= records.Keys
    requires forall k :: k in kept ==> kept[k].generation == records[k].generation
    ensures Descending(Only(order, kept.Keys), kept)
  {
    if order != [] {
      assert Descending(order[1..], records);
      OnlyDescending(order[1..], records, kept);
      var rest := Only(order[1..], kept.Keys);
      forall j | 0 <= j < |rest|
        ensures records[order[0]].generation >= records[rest[j]].generation
      {
        OnlyMember(order[1..], kept.Keys, rest[j]);
        var i :| 0 <= i < |order[1..]| && order[1..][i] == rest[j];
      }
    }
  }

  lemma OnlyMatches(order: seq<string>, records: map<string, Record>, kept: map<string, Record>)
    requires ListMatches(order, records) && kept.Keys <= records.Keys
    requires forall k :: k in kept ==> kept[k].generation == records[k].generation
    ensures ListMatches(Only(order, kept.Keys), kept) && |Only(order, kept.Keys)| <= |order|
  {
    hide Only, Descending;
    OnlyDistinct(order, kept.Keys);
    OnlyDescending(order, records, kept);
    OnlyMember(order, kept.Keys, "");
    forall k
      ensures k in Only(order, kept.Keys) <==> k in kept
    {
      OnlyMember(order, kept.Keys, k);
    }
  }

  lemma PrunedStoreSpec(l: Limits, s: Store, now: int)
    requires Sound(l, s)
    ensures Sound(l, PrunedStore(l, s, now)) && (StrictlyTimed(s) ==> StrictlyTimed(PrunedStore(l, s, now)))
  {
    hide Kept, Sorted, StrictlySorted, ListMatches, Only;
    var t, cutoff := PrunedStore(l, s, now), now - l.retention;
    OnlyMatches(s.order, s.records, t.records);
    forall k | k in t.records
      ensures GoodRecord(l, t, t.records[k])
      ensures StrictlySorted(s.records[k].points) ==> StrictlySorted(t.records[k].points)
    {
      assert GoodRecord(l, s, s.records[k]);
      KeptProperties(s.records[k].points, cutoff);
    }
  }

  /** The store that the reports of a snapshot are given to. */
  function Ready(l: Limits, s: Store, now: int): Store {
    Opened(l, PrunedStore(l, s, now), now)
  }

  lemma ReadySpec(l: Limits, s: Store, now: int)
    requires Sound(l, s) && !GateClosed(s, now)
    ensures var r := Ready(l, s, now);
      Sampling(l, r, now) && SampledNames(r) == {} && (StrictlyTimed(s) ==> StrictlyTimed(r))
  {
    hide Sound, StrictlyTimed, AtSample, PrunedStore;
    PrunedStoreSpec(l, s, now);
    KeepsGate(l, s, now);
    GateOpens(l, PrunedStore(l, s, now), now);
    forall k
      ensures k !in SampledNames(Ready(l, s, now))
    {
      assert !SampledNow(Ready(l, s, now), k);
    }
  }

  lemma KeepsGate(l: Limits, s: Store, now: int)
    ensures PrunedStore(l, s, now).nextSample == s.nextSample
  {
  }

  /** Timestamps stay strictly increasing if and only if no report names an aircraft that the same
      snapshot has already sampled, or tracks hold a single point anyway. */
  lemma StrictExactly(l: Limits, s: Store, now: int, aircraft: seq<Aircraft>)
    requires Sound(l, s) && StrictlyTimed(s) && !GateClosed(s, now)
    ensures StrictlyTimed(Observed(l, s, now, aircraft)) <==> l.maxPoints == 1 || !Repeats(aircraft, l.maxAircraft)
  {
    hide Sampling, StrictlyTimed, Repeats, SampledNames, SampleEach, Ready;
    ReadySpec(l, s, now);
    var r := ReadyIs(l, s, now, aircraft);
    PointsLimit(l, s);
    if l.maxPoints == 1 {
      ExactlyFirstNames(l, r, aircraft, now);
      SamplingIsSound(l, SampleEach(l, r, aircraft, now), now);
      OnePointIsStrict(l, SampleEach(l, r, aircraft, now));
    } else if Repeats(aircraft, l.maxAircraft) {
      var k := RepeatDoubles(l, r, aircraft, now);
      DoubledIsNotStrict(SampleEach(l, r, aircraft, now), k);
    } else {
      NoRepeatKeepsStrict(l, r, aircraft, now);
    }
  }

  lemma ReadyIs(l: Limits, s: Store, now: int, aircraft: seq<Aircraft>) returns (r: Store)
    requires !GateClosed(s, now)
    ensures r == Ready(l, s, now) && Observed(l, s, now, aircraft) == SampleEach(l, r, aircraft, now)
  {
    r := Ready(l, s, now);
  }

  lemma PointsLimit(l: Limits, s: Store)
    requires Sound(l, s)
    ensures l.maxPoints >= 1
  {
  }

  lemma SamplingIsSound(l: Limits, s: Store, now: int)
    requires Sampling(l, s, now)
    ensures Sound(l, s)
  {
  }

  lemma ObservedIsSound(l: Limits, s: Store, now: int, aircraft: seq<Aircraft>)
    requires Sound(l, s)
    ensures Sound(l, Observed(l, s, now, aircraft))
  {
    hide Sampling, SampledNames, SampleEach, Ready;
    if !GateClosed(s, now) {
      ReadySpec(l, s, now);
      var r := ReadyIs(l, s, now, aircraft);
      ExactlyFirstNames(l, r, aircraft, now);
      SamplingIsSound(l, SampleEach(l, r, aircraft, now), now);
    }
  }

  // ---------- which points survive ----------

  /** The points a snapshot holds for one aircraft. */
  function SamplesOf(aircraft: seq<Aircraft>, now: int, k: string): seq<Point> {
    if aircraft == [] then [] else
    var a := aircraft[|aircraft| - 1];
    SamplesOf(aircraft[..|aircraft| - 1], now, k)
    + if a.hasDistance && ToUpper(TrimSpace(a.icao)) == k && k != "" then [Point(now, a.distanceNM, a.hasAltitude, a.altitudeFeet)]
      else []
  }

  /** The last `max` of the points, or all of them. */
  predicate IsTail(tail: seq<Point>, points: seq<Point>, max: nat) {
    |tail| == (if |points| < max then |points| else max) && tail == points[|points| - |tail|..]
  }

  lemma CappedIsTail(points: seq<Point>, max: nat)
    ensures IsTail(Capped(points, max), points, max)
  {
  }

  lemma SamplesNext(aircraft: seq<Aircraft>, now: int, k: string)
    requires aircraft != []
    ensures var init, a := aircraft[..|aircraft| - 1], aircraft[|aircraft| - 1];
      SamplesOf(aircraft, now, k) == SamplesOf(init, now, k) + if Eligible(a) && Normal(a) == k then [PointOf(a, now)] else []
  {
    hide ToUpper, TrimSpace;
  }

  function PointsOf(s: Store, k: string): seq<Point> {
    if k in s.records then s.records[k].points else []
  }

  lemma CappedTwice(points: seq<Point>, p: Point, max: nat)
    requires max > 0
    ensures Capped(Capped(points, max) + [p], max) == Capped(points + [p], max)
  {
  }

  /** What has become of one aircraft: held, its track is what it was plus all its samples, unless it
      had given up its place and started over; not held, it was not there before or gave up its place.
      Places are only given up in a full store. */
  ghost predicate Accounted(l: Limits, s: Store, t: Store, samples: seq<Point>, k: string) {
    if k in t.records then
      && (samples != [] ==> SampledNow(t, k))
      && (|| t.records[k].points == Capped(PointsOf(s, k) + samples, l.maxPoints)
          || (|t.records| >= l.maxAircraft && samples != [] && t.records[k].points == Capped(samples, l.maxPoints)))
    else
      && (k in s.records ==> |t.records| >= l.maxAircraft)
      && (samples != [] ==> FullOfThisSnapshot(l, t))
  }

  lemma SampleOneAccounts(l: Limits, s: Store, t: Store, samples: seq<Point>, key: string, p: Point, k: string)
    requires Sampling(l, t, p.at) && Accounted(l, s, t, samples, k)
    ensures Accounted(l, s, SampleOne(l, t, key, p), if key == k then samples + [p] else samples, k)
  {
    hide Sound, SampleOne, WithRoom, Capped;
    SampleOneSound(l, t, key, p);
    SampleOneSpec(l, t, key, p);
    Places(l, t, key, p);
    CappedTwice(PointsOf(s, k) + samples, p, l.maxPoints);
    CappedTwice(samples, p, l.maxPoints);
    assert PointsOf(s, k) + samples + [p] == PointsOf(s, k) + (samples + [p]);
    assert [] + [p] == [p];
  }

  lemma Places(l: Limits, t: Store, key: string, p: Point)
    requires Sampling(l, t, p.at)
    ensures l.maxPoints > 0
    ensures WithRoom(l, t, key).None? ==> key !in t.records && FullOfThisSnapshot(l, t)
    ensures FullOfThisSnapshot(l, t) && key !in t.records ==> WithRoom(l, t, key).None?
    ensures FullOfThisSnapshot(l, t) ==> FullOfThisSnapshot(l, SampleOne(l, t, key, p))
  {
  }

  lemma {:induction false} PointsSurvive(l: Limits, s: Store, aircraft: seq<Aircraft>, now: int, k: string)
    requires Sampling(l, s, now) && SampledNames(s) == {}
    ensures Accounted(l, s, SampleEach(l, s, aircraft, now), SamplesOf(aircraft, now, k), k)
    decreases |aircraft|
  {
    hide Sampling, SampleOne, SampledNames, Accounted, Eligible, Normal;
    if aircraft == [] {
      NothingSampled(l, s, k, now);
    } else {
      var init, a := aircraft[..|aircraft| - 1], aircraft[|aircraft| - 1];
      PointsSurvive(l, s, init, now, k);
      ExactlyFirstNames(l, s, init, now);
      SamplesNext(aircraft, now, k);
      if Eligible(a) {
        SampleOneAccounts(l, s, SampleEach(l, s, init, now), SamplesOf(init, now, k), Normal(a), PointOf(a, now), k);
      }
      assert SamplesOf(init, now, k) + [] == SamplesOf(init, now, k);
    }
  }

  lemma NothingSampled(l: Limits, s: Store, k: string, now: int)
    requires Sampling(l, s, now)
    ensures Accounted(l, s, s, [], k)
  {
    if k in s.records {
      assert GoodRecord(l, s, s.records[k]);
      assert s.records[k].points + [] == s.records[k].points;
    }
  }

  /** The unexpired points of one aircraft. */
  function KeptOf(l: Limits, s: Store, now: int, k: string): seq<Point> {
    if k in s.records && s.records[k].lastSeen >= now - l.retention then Kept(s.records[k].points, now - l.retention) else []
  }

  lemma ObservedCapped(l: Limits, s: Store, now: int, aircraft: seq<Aircraft>, k: string)
    requires Sound(l, s) && !GateClosed(s, now)
    ensures var t, samples, kept := Observed(l, s, now, aircraft), SamplesOf(aircraft, now, k), KeptOf(l, s, now, k);
      && (|t.records| < l.maxAircraft ==>
            && (k in t.records <==> (k in s.records && s.records[k].lastSeen >= now - l.retention) || samples != [])
            && (k in t.records ==> t.records[k].points == Capped(kept + samples, l.maxPoints)))
      && (k in t.records ==>
            || t.records[k].points == Capped(kept + samples, l.maxPoints)
            || t.records[k].points == Capped(samples, l.maxPoints))
  {
    hide Sampling, SampledNames, SampleEach, Kept, Capped, Sound, SamplesOf;
    ReadySpec(l, s, now);
    var r := ReadyIs(l, s, now, aircraft);
    PointsSurvive(l, r, aircraft, now, k);
    if k in SampleEach(l, r, aircraft, now).records {
      OnlySampledAppear(l, r, aircraft, now, k);
    }
  }

  /** A whole call, on one aircraft: expired points go, the samples of the snapshot come, the last ones stay
      up to the limit, and nothing else changes unless the store is full. */
  lemma ObservedPoints(l: Limits, s: Store, now: int, aircraft: seq<Aircraft>, k: string)
    requires Sound(l, s) && (s.nextSample.Some? ==> s.nextSample.value <= now)
    ensures var t, samples, kept := Observed(l, s, now, aircraft), SamplesOf(aircraft, now, k), KeptOf(l, s, now, k);
      && (|t.records| < l.maxAircraft ==>
            && (k in t.records <==> (k in s.records && s.records[k].lastSeen >= now - l.retention) || samples != [])
            && (k in t.records ==> IsTail(t.records[k].points, kept + samples, l.maxPoints)))
      && (k in t.records ==>
            IsTail(t.records[k].points, kept + samples, l.maxPoints) || IsTail(t.records[k].points, samples, l.maxPoints))
  {
    hide Observed, KeptOf, Capped, Sound, SamplesOf, IsTail;
    ObservedCapped(l, s, now, aircraft, k);
    var samples := SamplesOf(aircraft, now, k);
    CappedIsTail(KeptOf(l, s, now, k) + samples, l.maxPoints);
    CappedIsTail(samples, l.maxPoints);
  }

  lemma {:induction false} OnlySampledAppear(l: Limits, s: Store, aircraft: seq<Aircraft>, now: int, k: string)
    requires Sampling(l, s, now) && SampledNames(s) == {} && k in SampleEach(l, s, aircraft, now).records
    ensures k in s.records || SamplesOf(aircraft, now, k) != []
    decreases |aircraft|
  {
    if aircraft != [] {
      hide Sampling, SampleOne, SampledNames, Eligible, Normal;
      var init, a := aircraft[..|aircraft| - 1], aircraft[|aircraft| - 1];
      ExactlyFirstNames(l, s, init, now);
      SampleOneSpec(l, SampleEach(l, s, init, now), Normal(a), PointOf(a, now));
      if k in SampleEach(l, s, init, now).records {
        OnlySampledAppear(l, s, init, now, k);
      }
    }
  }

  // ---------- fed by the community view ----------

  /** Aircraft of the published view have their normal names, each once. */
  lemma PublishedNamesOnce(feeders: map<FeederId, Aggregate.Entry>, c: Aggregate.Community)
    requires forall id :: id in feeders && feeders[id].snapshot.Some? ==>
      Admissible(feeders[id].snapshot.value.aircraft)
    requires Aggregate.IsMerge(Aggregate.Reports(feeders), c)
    ensures NamedOnce(c.aircraft)
  {
    hide Less, Aggregate.IsMergedItem, Aggregate.Reports, Admissible, Eligible, Normal;
    forall i | 0 <= i < |c.aircraft|
      ensures Normal(c.aircraft[i]) == c.aircraft[i].icao
    {
      assert Aggregate.IsMergedItem(Aggregate.Reports(feeders), c.aircraft[i]);
      PublishedNameIsNormal(feeders, c.aircraft[i]);
    }
    forall i, j | 0 <= i < j < |c.aircraft|
      ensures c.aircraft[i].icao != c.aircraft[j].icao
    {
      LessAsymmetric(c.aircraft[i].icao, c.aircraft[j].icao);
    }
  }

  lemma PublishedNameIsNormal(feeders: map<FeederId, Aggregate.Entry>, item: Aircraft)
    requires forall id :: id in feeders && feeders[id].snapshot.Some? ==>
      Admissible(feeders[id].snapshot.value.aircraft)
    requires Aggregate.IsMergedItem(Aggregate.Reports(feeders), item)
    ensures Normal(item) == item.icao
  {
    hide Less, Aggregate.IsBest, Aggregate.Better;
    var best :| Aggregate.Shows(Aggregate.Reports(feeders), best, item);
    Aggregate.HasReport(Aggregate.Reports(feeders), best, item);
    assert best in Aggregate.Reports(feeders);
  }

  lemma {:induction false} FirstNamesAreNamed(aircraft: seq<Aircraft>, max: nat, k: string) returns (i: nat)
    requires k in FirstNames(aircraft, max)
    ensures i < |aircraft| && Eligible(aircraft[i]) && Normal(aircraft[i]) == k
    decreases |aircraft|
  {
    hide Eligible, Normal;
    var n := |aircraft| - 1;
    if k in FirstNames(aircraft[..n], max) {
      i := FirstNamesAreNamed(aircraft[..n], max, k);
    } else {
      i := n;
    }
  }

  lemma NamedOnceNeverRepeats(aircraft: seq<Aircraft>, max: nat)
    requires NamedOnce(aircraft)
    ensures !Repeats(aircraft, max)
  {
    hide Eligible, Normal, FirstNames;
    forall j | 0 <= j < |aircraft|
      ensures !RepeatAt(aircraft, max, j)
    {
      if RepeatAt(aircraft, max, j) {
        var i := FirstNamesAreNamed(aircraft[..j], max, Normal(aircraft[j]));
      }
    }
  }

  /** One published view: when it was published, what the feeders had stored, and the view. */
  datatype Publication = Publication(now: int, feeders: map<FeederId, Aggregate.Entry>, view: Aggregate.Community)

  ghost predicate IsPublished(p: Publication) {
    && (forall id :: id in p.feeders && p.feeders[id].snapshot.Some? ==> Admissible(p.feeders[id].snapshot.value.aircraft))
    && Aggregate.IsMerge(Aggregate.Reports(p.feeders), p.view)
  }

  function Fed(l: Limits, s: Store, views: seq<Publication>): Store {
    if views == [] then s else
    var v := views[|views| - 1];
    Observed(l, Fed(l, s, views[..|views| - 1]), v.now, v.view.aircraft)
  }

  /** Tracks fed by published views stay sound and strictly increasing in time, whatever the times of
      the views. */
  lemma {:induction false} FedTracksAreStrict(l: Limits, s: Store, views: seq<Publication>)
    requires Sound(l, s) && StrictlyTimed(s) && forall i :: 0 <= i < |views| ==> IsPublished(views[i])
    ensures Sound(l, Fed(l, s, views)) && StrictlyTimed(Fed(l, s, views))
    decreases |views|
  {
    if views != [] {
      hide Sound, StrictlyTimed, Observed, Repeats, NamedOnce, Aggregate.IsMerge, Aggregate.Reports, Admissible;
      var before, v := Fed(l, s, views[..|views| - 1]), views[|views| - 1];
      FedTracksAreStrict(l, s, views[..|views| - 1]);
      ObservedIsSound(l, before, v.now, v.view.aircraft);
      assert IsPublished(v);
      PublishedNamesOnce(v.feeders, v.view);
      NamedOnceNeverRepeats(v.view.aircraft, l.maxAircraft);
      if GateClosed(before, v.now) {
        ClosedGate(l, before, v.now, v.view.aircraft);
      } else {
        StrictExactly(l, before, v.now, v.view.aircraft);
      }
    }
  }

  lemma ClosedGate(l: Limits, s: Store, now: int, aircraft: seq<Aircraft>)
    requires GateClosed(s, now)
    ensures Observed(l, s, now, aircraft) == s
  {
  }
}
