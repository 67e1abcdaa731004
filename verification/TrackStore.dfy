/** The in-memory track store: `Store.Observe`, `pruneLocked` and `deleteLocked`. */
module TrackStore {
  import opened Text
  import opened Domain
  import opened RecencyList

  datatype Point = Point(at: int, distanceNM: real, hasAltitude: bool, altitudeFeet: int)
  datatype Record = Record(points: seq<Point>, lastSeen: int, generation: nat)

  // ---------- points ----------

  predicate Sorted(points: seq<Point>) {
    forall i, j :: 0 <= i < j < |points| ==> points[i].at <= points[j].at
  }

  predicate StrictlySorted(points: seq<Point>) {
    forall i, j :: 0 <= i < j < |points| ==> points[i].at < points[j].at
  }

  /** The points that are not expired, in order. */
  function Kept(points: seq<Point>, cutoff: int): seq<Point> {
    if points == [] then [] else (if points[0].at >= cutoff then [points[0]] else []) + Kept(points[1..], cutoff)
  }

  /** `sort.Search` for the first point that is not expired. */
  method FirstKept(points: seq<Point>, cutoff: int) returns (first: nat)
    requires Sorted(points)
    ensures first <= |points| && points[first..] == Kept(points, cutoff)
    ensures forall i :: 0 <= i < first ==> points[i].at < cutoff
    ensures forall i :: first <= i < |points| ==> points[i].at >= cutoff
  {
    first := 0;
    var end := |points|;
    while first < end
      invariant first <= end <= |points|
      invariant forall i :: 0 <= i < first ==> points[i].at < cutoff
      invariant forall i :: end <= i < |points| ==> points[i].at >= cutoff
    {
      var middle := (first + end) / 2;
      if points[middle].at >= cutoff {
        end := middle;
      } else {
        first := middle + 1;
      }
    }
    KeptIsSuffix(points, cutoff, first);
  }

  lemma {:induction false} KeptIsSuffix(points: seq<Point>, cutoff: int, first: nat)
    requires first <= |points|
    requires forall i :: 0 <= i < first ==> points[i].at < cutoff
    requires forall i :: first <= i < |points| ==> points[i].at >= cutoff
    ensures points[first..] == Kept(points, cutoff)
  {
    if points != [] {
      if first > 0 {
        KeptIsSuffix(points[1..], cutoff, first - 1);
        assert points[first..] == points[1..][first - 1..];
      } else {
        KeptIsSuffix(points[1..], cutoff, 0);
        assert points == [points[0]] + points[1..];
      }
    }
  }

  // ---------- the invariant ----------

  datatype Limits = Limits(retention: nat, sampleInterval: nat, maxPoints: nat, maxAircraft: nat)

  /** `nextSample` is the earliest time of the next sample, None before the first. */
  datatype Store = Store(records: map<string, Record>, order: seq<string>, generation: nat, nextSample: Option<int>)

  predicate Sensible(l: Limits) {
    l.sampleInterval > 0 && l.maxPoints > 0
  }

  /** One record: a bounded, time-ordered, nonempty track that ends when it was last seen, before
      the gate opens again. */
  predicate GoodRecord(l: Limits, s: Store, r: Record) {
    && 1 <= |r.points| <= l.maxPoints && Sorted(r.points)
    && r.lastSeen == r.points[|r.points| - 1].at
    && r.generation <= s.generation
    && s.nextSample.Some? && r.lastSeen + l.sampleInterval <= s.nextSample.value
  }

  /** Newer generations come first. */
  predicate Descending(order: seq<string>, records: map<string, Record>) {
    && (forall i :: 0 <= i < |order| ==> order[i] in records)
    && (forall i, j :: 0 <= i < j < |order| ==> records[order[i]].generation >= records[order[j]].generation)
  }

  ghost predicate Sound(l: Limits, s: Store) {
    Sensible(l) && ListMatches(s.order, s.records) && |s.order| <= l.maxAircraft && AllGood(l, s)
  }

  /** The recency list holds exactly the map's keys, newest generation first. */
  ghost predicate ListMatches(order: seq<string>, records: map<string, Record>) {
    Distinct(order) && (forall k :: k in order <==> k in records) && Descending(order, records)
  }

  ghost predicate AllGood(l: Limits, s: Store) {
    forall k :: k in s.records ==> GoodRecord(l, s, s.records[k])
  }

  ghost predicate StrictlyTimed(s: Store) {
    forall k :: k in s.records ==> StrictlySorted(s.records[k].points)
  }

  /** Records of the running generation were sampled at `now`, the others before. */
  ghost predicate AtSample(l: Limits, s: Store, now: int) {
    && s.nextSample == Some(now + l.sampleInterval)
    && forall k :: k in s.records ==>
         if s.records[k].generation == s.generation then s.records[k].lastSeen == now else s.records[k].lastSeen < now
  }

  lemma {:induction false} DescendingWithout(order: seq<string>, records: map<string, Record>, key: string)
    requires Descending(order, records)
    ensures Descending(Without(order, key), records)
  {
    if order != [] {
      assert Descending(order[1..], records);
      DescendingWithout(order[1..], records, key);
      var rest := Without(order[1..], key);
      forall j | 0 <= j < |rest|
        ensures records[order[0]].generation >= records[rest[j]].generation
      {
        WithoutMember(order[1..], key, rest[j]);
      }
    }
  }

  // ---------- deleting ----------

  function Deleted(s: Store, key: string): Store {
    s.(records := s.records - {key}, order := Without(s.order, key))
  }

  lemma ListAfterDelete(order: seq<string>, records: map<string, Record>, key: string)
    requires ListMatches(order, records) && key in records
    ensures ListMatches(Without(order, key), records - {key}) && |Without(order, key)| == |order| - 1
  {
    MoveToFront(order, key);
    WithoutDistinct(order, key);
    DescendingWithout(order, records, key);
    hide Without;
    var rest := Without(order, key);
    assert forall i :: 0 <= i < |rest| ==> rest[i] in rest;
  }

  lemma DeletedIsSound(l: Limits, s: Store, key: string)
    requires Sound(l, s) && key in s.records
    ensures Sound(l, Deleted(s, key)) && |Deleted(s, key).order| == |s.order| - 1
  {
    hide GoodRecord, ListMatches;
    ListAfterDelete(s.order, s.records, key);
    var t := Deleted(s, key);
    forall k | k in t.records
      ensures GoodRecord(l, t, t.records[k])
    {
      SameLimits(l, s, t, s.records[k]);
    }
  }

  lemma SameLimits(l: Limits, s: Store, t: Store, r: Record)
    requires GoodRecord(l, s, r) && s.generation <= t.generation
    requires t.nextSample == s.nextSample || (t.nextSample.Some? && (s.nextSample.Some? ==> s.nextSample.value <= t.nextSample.value))
    ensures GoodRecord(l, t, r)
  {
  }

  // ---------- sampling one aircraft ----------

  function Capped(points: seq<Point>, max: nat): seq<Point> {
    if |points| > max then points[|points| - max..] else points
  }

  /** The record after one more point. */
  function Extended(l: Limits, s: Store, key: string, p: Point): Record {
    var before := if key in s.records then s.records[key].points else [];
    Record(Capped(before + [p], l.maxPoints), p.at, s.generation)
  }

  function Sampled(l: Limits, s: Store, key: string, p: Point): Store {
    s.(records := s.records[key := Extended(l, s, key, p)], order := [key] + Without(s.order, key))
  }

  lemma AppendSorted(points: seq<Point>, p: Point, max: nat)
    requires max > 0 && Sorted(points) && (points != [] ==> points[|points| - 1].at <= p.at)
    ensures var r := Capped(points + [p], max);
            1 <= |r| <= (if max <= |points| then max else |points| + 1) && Sorted(r) && r[|r| - 1] == p
    ensures StrictlySorted(points) && (points != [] ==> points[|points| - 1].at < p.at) ==>
      StrictlySorted(Capped(points + [p], max))
  {
    var all := points + [p];
    assert forall i :: 0 <= i < |points| ==> points[i].at <= points[|points| - 1].at;
    assert Sorted(all);
  }

  lemma ExtendedIsGood(l: Limits, s: Store, key: string, p: Point)
    requires Sensible(l) && AtSample(l, s, p.at) && (key in s.records ==> GoodRecord(l, s, s.records[key]))
    ensures GoodRecord(l, s, Extended(l, s, key, p))
    ensures (key in s.records ==> StrictlySorted(s.records[key].points) && s.records[key].generation != s.generation)
            ==> StrictlySorted(Extended(l, s, key, p).points)
  {
    hide Sorted, StrictlySorted, Capped;
    NoPoints();
    AppendSorted(if key in s.records then s.records[key].points else [], p, l.maxPoints);
  }

  lemma NoPoints()
    ensures Sorted([]) && StrictlySorted([])
  {
  }

  lemma ListAfterSample(order: seq<string>, records: map<string, Record>, key: string, r: Record)
    requires ListMatches(order, records) && forall k :: k in records ==> records[k].generation <= r.generation
    ensures ListMatches([key] + Without(order, key), records[key := r])
    ensures |[key] + Without(order, key)| == if key in records then |order| else |order| + 1
  {
    MoveToFront(order, key);
    if key !in records {
      WithoutAbsent(order, key);
    }
    DescendingWithout(order, records, key);
    DescendingPush(Without(order, key), records, key, r);
    hide Without, Descending;
  }

  lemma DescendingPush(rest: seq<string>, records: map<string, Record>, key: string, r: Record)
    requires Descending(rest, records) && key !in rest && forall k :: k in records ==>
      records[k].generation <= r.generation
    ensures Descending([key] + rest, records[key := r])
  {
    assert forall i :: 0 <= i < |rest| ==> rest[i] in rest;
  }

  lemma SampledIsSound(l: Limits, s: Store, key: string, p: Point)
    requires Sound(l, s) && AtSample(l, s, p.at) && (key in s.records || |s.order| < l.maxAircraft)
    ensures Sound(l, Sampled(l, s, key, p))
  {
    ExtendedIsGood(l, s, key, p);
    ExtendedFields(l, s, key, p);
    assert forall k :: k in s.records ==> GoodRecord(l, s, s.records[k]) && s.records[k].generation <= s.generation;
    hide GoodRecord, Extended, AtSample, ListMatches;
    ListAfterSample(s.order, s.records, key, Extended(l, s, key, p));
    var t := Sampled(l, s, key, p);
    forall k | k in t.records
      ensures GoodRecord(l, t, t.records[k])
    {
      SameLimits(l, s, t, t.records[k]);
    }
  }

  lemma SampledAtSample(l: Limits, s: Store, key: string, p: Point)
    requires AtSample(l, s, p.at)
    ensures AtSample(l, Sampled(l, s, key, p), p.at)
  {
    ExtendedFields(l, s, key, p);
    hide Extended;
  }

  lemma SampledIsStrict(l: Limits, s: Store, key: string, p: Point)
    requires Sound(l, s) && AtSample(l, s, p.at) && StrictlyTimed(s)
    requires key in s.records ==> s.records[key].generation != s.generation
    ensures StrictlyTimed(Sampled(l, s, key, p))
  {
    ExtendedIsGood(l, s, key, p);
    hide StrictlySorted, Extended, GoodRecord;
  }

  lemma ExtendedFields(l: Limits, s: Store, key: string, p: Point)
    ensures Extended(l, s, key, p).generation == s.generation && Extended(l, s, key, p).lastSeen == p.at
  {
  }

  // ---------- pruning one record ----------

  lemma {:induction false} KeptProperties(points: seq<Point>, cutoff: int)
    requires Sorted(points) && points != [] && points[|points| - 1].at >= cutoff
    ensures var r := Kept(points, cutoff);
            1 <= |r| <= |points| && Sorted(r) && r[|r| - 1] == points[|points| - 1] && (StrictlySorted(points) ==> StrictlySorted(r))
  {
    var first := 0;
    while first < |points| && points[first].at < cutoff
      invariant first <= |points| && forall i :: 0 <= i < first ==> points[i].at < cutoff
    {
      first := first + 1;
    }
    assert forall i :: first <= i < |points| ==> points[i].at >= cutoff;
    KeptIsSuffix(points, cutoff, first);
  }

  function PrunedRecord(r: Record, cutoff: int): Record {
    r.(points := Kept(r.points, cutoff))
  }

  lemma ListAfterPrune(order: seq<string>, records: map<string, Record>, key: string, r: Record)
    requires ListMatches(order, records) && key in records && r.generation == records[key].generation
    ensures ListMatches(order, records[key := r])
  {
  }

  lemma PrunedIsSound(l: Limits, s: Store, key: string, cutoff: int)
    requires Sound(l, s) && key in s.records && s.records[key].lastSeen >= cutoff
    ensures Sound(l, s.(records := s.records[key := PrunedRecord(s.records[key], cutoff)]))
    ensures StrictlySorted(s.records[key].points) ==> StrictlySorted(PrunedRecord(s.records[key], cutoff).points)
  {
    assert GoodRecord(l, s, s.records[key]);
    KeptProperties(s.records[key].points, cutoff);
    var t := s.(records := s.records[key := PrunedRecord(s.records[key], cutoff)]);
    hide Kept, Sorted, StrictlySorted, ListMatches;
    ListAfterPrune(s.order, s.records, key, PrunedRecord(s.records[key], cutoff));
    forall k | k in t.records
      ensures GoodRecord(l, t, t.records[k])
    {
      if k != key {
        SameLimits(l, s, t, s.records[k]);
      }
    }
  }

  /** As many list elements as records. */
  lemma {:induction false} ListLength(order: seq<string>, keys: set<string>)
    requires Distinct(order) && forall k :: k in order <==> k in keys
    ensures |order| == |keys|
    decreases |order|
  {
    if order == [] {
      assert keys == {};
    } else {
      var key := order[0];
      assert order == [key] + order[1..];
      ListLength(order[1..], keys - {key});
    }
  }

  // ---------- the store ----------

  predicate Eligible(a: Aircraft) {
    Normal(a) != "" && a.hasDistance
  }

  function Normal(a: Aircraft): string {
    ToUpper(TrimSpace(a.icao))
  }

  /** No eligible aircraft is named twice. */
  predicate NamedOnce(aircraft: seq<Aircraft>) {
    forall i, j :: 0 <= i < j < |aircraft| && Eligible(aircraft[i]) && Eligible(aircraft[j]) ==>
      Normal(aircraft[i]) != Normal(aircraft[j])
  }

  ghost predicate SampledNow(s: Store, key: string) {
    key in s.records && s.records[key].generation == s.generation
  }

  /** Every place is taken by an aircraft of this very snapshot. */
  ghost predicate FullOfThisSnapshot(l: Limits, s: Store) {
    |s.records| >= l.maxAircraft && forall k :: k in s.records ==> s.records[k].generation == s.generation
  }

  /** No record was sampled before this one. */
  predicate IsOldest(s: Store, key: string) {
    key in s.records && forall k :: k in s.records ==> s.records[key].generation <= s.records[k].generation
  }

  lemma LastIsOldest(l: Limits, s: Store)
    requires Sound(l, s) && s.order != []
    ensures IsOldest(s, s.order[|s.order| - 1])
  {
    hide GoodRecord;
    var n := |s.order| - 1;
    assert s.order[n] in s.order;
    forall k | k in s.records
      ensures s.records[s.order[n]].generation <= s.records[k].generation
    {
      var i :| 0 <= i < |s.order| && s.order[i] == k;
    }
  }

  // ---------- what one call does to the whole store ----------

  function PrunedStore(l: Limits, s: Store, now: int): Store {
    var cutoff := now - l.retention;
    var records := map k | k in s.records && s.records[k].lastSeen >= cutoff :: PrunedRecord(s.records[k], cutoff);
    s.(records := records, order := Only(s.order, records.Keys))
  }

  predicate GateClosed(s: Store, now: int) {
    s.nextSample.Some? && now < s.nextSample.value
  }

  function Opened(l: Limits, s: Store, now: int): Store {
    s.(nextSample := Some(now + l.sampleInterval), generation := s.generation + 1)
  }

  /** Room for a track: it is held, there is a free place, or the record sampled longest ago gives
      up its place. It does not when even that one is from this snapshot. */
  function WithRoom(l: Limits, s: Store, key: string): Option<Store> {
    if key in s.records || |s.records| < l.maxAircraft then Some(s)
    else if s.order == [] then None
    else
      var oldest := s.order[|s.order| - 1];
      if oldest !in s.records || s.records[oldest].generation == s.generation then None else Some(Deleted(s, oldest))
  }

  function SampleOne(l: Limits, s: Store, key: string, p: Point): Store {
    var room := WithRoom(l, s, key);
    if room.Some? then Sampled(l, room.value, key, p) else s
  }

  function PointOf(a: Aircraft, now: int): Point {
    Point(now, a.distanceNM, a.hasAltitude, a.altitudeFeet)
  }

  function SampleEach(l: Limits, s: Store, aircraft: seq<Aircraft>, now: int): Store {
    if aircraft == [] then s else
    var a := aircraft[|aircraft| - 1];
    var before := SampleEach(l, s, aircraft[..|aircraft| - 1], now);
    if Eligible(a) then SampleOne(l, before, Normal(a), PointOf(a, now)) else before
  }

  function Observed(l: Limits, s: Store, now: int, aircraft: seq<Aircraft>): Store {
    if GateClosed(s, now) then s else SampleEach(l, Opened(l, PrunedStore(l, s, now), now), aircraft, now)
  }

  lemma OnlyHeld(l: Limits, s: Store)
    requires Sound(l, s)
    ensures Only(s.order, s.records.Keys) == s.order
  {
    hide GoodRecord, Descending;
    OnlyAll(s.order, s.records.Keys);
  }

  class TrackStore {
    const limits: Limits
    var store: Store

    constructor (limits: Limits)
      requires Sensible(limits)
      ensures Sound(limits, store) && this.limits == limits && store == Store(map[], [], 0, None)
    {
      this.limits := limits;
      store := Store(map[], [], 0, None);
    }

    /** `pruneLocked`: exactly the expired points go, and exactly the records without others. */
    method Prune(now: int)
      requires Sound(limits, store)
      modifies this`store
      ensures Sound(limits, store) && (old(StrictlyTimed(store)) ==> StrictlyTimed(store))
      ensures store.generation == old(store.generation) && store.nextSample == old(store.nextSample)
      ensures forall k :: k in store.records <==>
        k in old(store.records) && old(store.records)[k].lastSeen >= now - limits.retention
      ensures forall k :: k in store.records ==>
        store.records[k] == PrunedRecord(old(store.records)[k], now - limits.retention)
      ensures store == PrunedStore(limits, old(store), now)
    {
      hide GoodRecord, ListMatches, Kept, StrictlySorted, Only, Without;
      OnlyHeld(limits, store);
      var cutoff := now - limits.retention;
      var rest := store.records.Keys;
      while rest != {}
        invariant Sound(limits, store) && (old(StrictlyTimed(store)) ==> StrictlyTimed(store))
        invariant store.generation == old(store.generation) && store.nextSample == old(store.nextSample)
        invariant rest <= store.records.Keys && store.order == Only(old(store.order), store.records.Keys)
        invariant forall k :: k in store.records <==>
          k in old(store.records) && (k in rest || old(store.records)[k].lastSeen >= cutoff)
        invariant forall k :: k in store.records ==>
                    store.records[k] == if k in rest then old(store.records)[k] else PrunedRecord(old(store.records)[k], cutoff)
        decreases |rest|
      {
        var key :| key in rest;
        rest := rest - {key};
        ghost var keys := store.records.Keys;
        OnlyWithout(old(store.order), keys, key);
        PruneOne(key, cutoff);
        assert store.records.Keys == if key in store.records then keys else keys - {key};
      }
      assert store.records == PrunedStore(limits, old(store), now).records;
    }

    method PruneOne(key: string, cutoff: int)
      requires Sound(limits, store) && key in store.records
      modifies this`store
      ensures Sound(limits, store) && (old(StrictlyTimed(store)) ==> StrictlyTimed(store))
      ensures store.generation == old(store.generation) && store.nextSample == old(store.nextSample)
      ensures store.records == if old(store.records)[key].lastSeen >= cutoff
                               then old(store.records)[key := PrunedRecord(old(store.records)[key], cutoff)]
                               else old(store.records) - {key}
      ensures store.order == if old(store.records)[key].lastSeen >= cutoff then old(store.order) else Without(old(store.order), key)
    {
      var record := store.records[key];
      assert GoodRecord(limits, store, record);
      var first := FirstKept(record.points, cutoff);
      if record.lastSeen < cutoff || first == |record.points| {
        DeletedIsSound(limits, store, key);
        store := Deleted(store, key);
      } else {
        PrunedIsSound(limits, store, key, cutoff);
        hide Sound, Kept, GoodRecord, StrictlySorted;
        store := store.(records := store.records[key := record.(points := record.points[first..])]);
      }
    }

    /** Makes room for a new track by dropping the one sampled longest ago, unless even that one is
        from this snapshot. */
    method MakeRoom(key: string) returns (room: bool)
      requires Sound(limits, store)
      modifies this`store
      ensures Sound(limits, store) && store == old(store).(records := store.records, order := store.order)
      ensures !room ==> store == old(store) && FullOfThisSnapshot(limits, store)
      ensures room ==> key in store.records || |store.order| < limits.maxAircraft
      ensures forall k :: k in store.records ==> k in old(store.records) && store.records[k] == old(store.records)[k]
      ensures forall k :: old(SampledNow(store, k)) || (k == key && k in old(store.records)) ==> k in store.records
      ensures room && old(FullOfThisSnapshot(limits, store)) ==> store == old(store) && key in store.records
      ensures WithRoom(limits, old(store), key) == if room then Some(store) else None
      ensures forall k :: k in old(store.records) && k !in store.records ==> IsOldest(old(store), k)
    {
      hide GoodRecord, Descending, IsOldest;
      ListLength(store.order, store.records.Keys);
      if key !in store.records && |store.records| >= limits.maxAircraft {
        if store.order == [] {
          assert store.records.Keys == {};
          return false;
        }
        var oldest := store.order[|store.order| - 1];
        assert oldest in store.order;
        if store.records[oldest].generation == store.generation {
          AllFromThisSnapshot(limits, store);
          return false;
        }
        LastIsOldest(limits, store);
        DeletedIsSound(limits, store, oldest);
        store := Deleted(store, oldest);
      }
      return true;
    }

    method Append(key: string, p: Point)
      modifies this`store
      ensures store == Sampled(limits, old(store), key, p)
    {
      var points := (if key in store.records then store.records[key].points else []) + [p];
      if |points| > limits.maxPoints {
        points := points[|points| - limits.maxPoints..];
      }
      store := store.(records := store.records[key := Record(points, p.at, store.generation)],
                      order := [key] + Without(store.order, key));
    }

    /** One aircraft of a snapshot: its track gets a point, or every place is taken by an aircraft
        of this same snapshot. */
    method SampleAircraft(key: string, p: Point)
      requires Sound(limits, store) && AtSample(limits, store, p.at)
      modifies this`store
      ensures store == SampleOne(limits, old(store), key, p)
      ensures Sound(limits, store) && AtSample(limits, store, p.at)
      ensures store.generation == old(store.generation) && store.nextSample == old(store.nextSample)
      ensures SampledNow(store, key) || (FullOfThisSnapshot(limits, store) && store == old(store))
      ensures old(FullOfThisSnapshot(limits, store)) ==> FullOfThisSnapshot(limits, store)
      ensures forall k :: old(SampledNow(store, k)) ==> SampledNow(store, k)
      ensures forall k :: SampledNow(store, k) ==> old(SampledNow(store, k)) || k == key
      ensures old(StrictlyTimed(store)) && !old(SampledNow(store, key)) ==> StrictlyTimed(store)
    {
      hide Sound, StrictlySorted;
      var room := MakeRoom(key);
      if !room {
        return;
      }
      SampledIsSound(limits, store, key, p);
      SampledAtSample(limits, store, key, p);
      ExtendedFields(limits, store, key, p);
      if StrictlyTimed(store) && !SampledNow(store, key) {
        SampledIsStrict(limits, store, key, p);
      }
      hide Extended, Without;
      ghost var before := store;
      Append(key, p);
      assert key in before.records ==> store.records.Keys == before.records.Keys;
    }

    /** The sampling gate, the pruning and the loop over the aircraft. */
    method Observe(now: int, aircraft: seq<Aircraft>)
      requires Sound(limits, store)
      modifies this`store
      ensures Sound(limits, store) && store == Observed(limits, old(store), now, aircraft)
      ensures old(store.nextSample).Some? && now < old(store.nextSample).value ==> store == old(store)
      ensures !(old(store.nextSample).Some? && now < old(store.nextSample).value) ==>
                && store.nextSample == Some(now + limits.sampleInterval)
                && (forall i :: 0 <= i < |aircraft| && Eligible(aircraft[i]) ==>
                      SampledNow(store, Normal(aircraft[i])) || FullOfThisSnapshot(limits, store))
                && (forall k :: SampledNow(store, k) ==> store.records[k].lastSeen == now)
      ensures old(StrictlyTimed(store)) && NamedOnce(aircraft) ==> StrictlyTimed(store)
    {
      hide Sound, AtSample, StrictlyTimed, FullOfThisSnapshot, Eligible, Normal, SampledNow, SampleEach, PrunedStore;
      if store.nextSample.Some? && now < store.nextSample.value {
        return;
      }
      ghost var strict := StrictlyTimed(store);
      Prune(now);
      GateOpens(limits, store, now);
      store := store.(nextSample := Some(now + limits.sampleInterval), generation := store.generation + 1);
      SampleAll(now, aircraft, strict);
      SampledAt(limits, store, now);
    }

    /** The loop over the aircraft of one snapshot. */
    method SampleAll(now: int, aircraft: seq<Aircraft>, ghost strict: bool)
      requires Sound(limits, store) && AtSample(limits, store, now)
      requires store.nextSample == Some(now + limits.sampleInterval)
      requires (forall k :: !SampledNow(store, k)) && (strict ==> StrictlyTimed(store))
      modifies this`store
      ensures Sound(limits, store) && AtSample(limits, store, now)
      ensures store.nextSample == Some(now + limits.sampleInterval)
      ensures store == SampleEach(limits, old(store), aircraft, now)
      ensures forall i :: 0 <= i < |aircraft| && Eligible(aircraft[i]) ==>
                SampledNow(store, Normal(aircraft[i])) || FullOfThisSnapshot(limits, store)
      ensures strict && NamedOnce(aircraft) ==> StrictlyTimed(store)
    {
      hide Sound, AtSample, StrictlyTimed, FullOfThisSnapshot, Eligible, Normal, SampledNow, SampleOne;
      for n := 0 to |aircraft|
        invariant Sound(limits, store) && AtSample(limits, store, now)
        invariant store == SampleEach(limits, old(store), aircraft[..n], now)
        invariant store.nextSample == Some(now + limits.sampleInterval)
        invariant forall i :: 0 <= i < n && Eligible(aircraft[i]) ==>
                    SampledNow(store, Normal(aircraft[i])) || FullOfThisSnapshot(limits, store)
        invariant forall k :: SampledNow(store, k) ==>
          exists i :: 0 <= i < n && Eligible(aircraft[i]) && Normal(aircraft[i]) == k
        invariant strict && NamedOnce(aircraft) ==> StrictlyTimed(store)
      {
        var a := aircraft[n];
        assert aircraft[..n + 1][..n] == aircraft[..n];
        if Eligible(a) {
          SampleAircraft(Normal(a), Point(now, a.distanceNM, a.hasAltitude, a.altitudeFeet));
        }
      }
      assert aircraft[..|aircraft|] == aircraft;
    }

    lemma SampledAt(l: Limits, s: Store, now: int)
      requires AtSample(l, s, now)
      ensures forall k :: SampledNow(s, k) ==> s.records[k].lastSeen == now
    {
    }
  }

  /** Once the gate is open, everything held is older than `now`. */
  lemma GateOpens(l: Limits, s: Store, now: int)
    requires Sound(l, s) && (s.nextSample.Some? ==> s.nextSample.value <= now)
    ensures var t := s.(nextSample := Some(now + l.sampleInterval), generation := s.generation + 1);
            && Sound(l, t) && AtSample(l, t, now) && (StrictlyTimed(s) ==> StrictlyTimed(t))
            && (forall k :: !SampledNow(t, k))
  {
    hide ListMatches, Sorted, StrictlySorted;
  }

  lemma AllFromThisSnapshot(l: Limits, s: Store)
    requires Sound(l, s) && s.order != [] && s.order[|s.order| - 1] in s.records
    requires s.records[s.order[|s.order| - 1]].generation == s.generation && |s.records| >= l.maxAircraft
    ensures FullOfThisSnapshot(l, s)
  {
    hide Sorted;
    forall k | k in s.records
      ensures s.records[k].generation == s.generation
    {
      assert k in s.order;
      assert GoodRecord(l, s, s.records[k]);
      var i :| 0 <= i < |s.order| && s.order[i] == k;
    }
  }
}
