/** Hourly report rollups: what coalescing them preserves. */
module Rollups {
  import opened Text

  const SECOND: int := 1_000_000_000
  const HOUR: int := 3600 * SECOND

  datatype Totals = Totals(
    aircraftObservations: int, messages: int, emergencyObservations: int, emergencyEvents: int,
    maximumRange: real, peakTracked: int)

  /** `bucketStart` is in nanoseconds since the Unix epoch. */
  datatype Rollup = Rollup(guild: nat, scope: string, bucketStart: int, totals: Totals)

  /** `bucket` is in seconds. */
  datatype Key = Key(guild: nat, scope: string, bucket: int)

  /** The start of the hour, rounding down before the epoch too. */
  function TruncateHour(t: int): (r: int)
    ensures r <= t < r + HOUR
  {
    t - t % HOUR
  }

  function KeyOf(r: Rollup): Key {
    Key(r.guild, r.scope, TruncateHour(r.bucketStart) / SECOND)
  }

  /** Two rollups share a key exactly when they share guild, scope and hour. */
  lemma SameKeySameHour(a: Rollup, b: Rollup)
    ensures KeyOf(a) == KeyOf(b) <==> a.guild == b.guild && a.scope == b.scope && a.bucketStart / HOUR == b.bucketStart / HOUR
  {
    SecondsOfHour(a.bucketStart);
    SecondsOfHour(b.bucketStart);
  }

  lemma SecondsOfHour(t: int)
    ensures TruncateHour(t) / SECOND == 3600 * (t / HOUR)
  {
    assert TruncateHour(t) == SECOND * (3600 * (t / HOUR));
  }

  /** Truncating twice is truncating once, so a stored rollup keeps its key. */
  lemma TruncatedKeepsKey(r: Rollup)
    ensures KeyOf(r.(bucketStart := TruncateHour(r.bucketStart))) == KeyOf(r)
  {
    var q := r.bucketStart / HOUR;
    assert TruncateHour(r.bucketStart) == HOUR * q;
    assert (HOUR * q) % HOUR == 0;
  }

  // ---------- sums and maxima ----------

  function Max(a: int, b: int): int {
    if a < b then b else a
  }

  function RealMax(a: real, b: real): real {
    if a < b then b else a
  }

  function Plus(a: Totals, b: Totals): Totals {
    Totals(
      a.aircraftObservations + b.aircraftObservations, a.messages + b.messages,
      a.emergencyObservations + b.emergencyObservations, a.emergencyEvents + b.emergencyEvents,
      RealMax(a.maximumRange, b.maximumRange), Max(a.peakTracked, b.peakTracked))
  }

  /** `None` is a key with no rollup. */
  function Merge(a: Option<Totals>, b: Option<Totals>): Option<Totals> {
    match (a, b)
    case (None, _) => b
    case (_, None) => a
    case (Some(x), Some(y)) => Some(Plus(x, y))
  }

  lemma MergeLaws(a: Option<Totals>, b: Option<Totals>, c: Option<Totals>)
    ensures Merge(a, b) == Merge(b, a) && Merge(Merge(a, b), c) == Merge(a, Merge(b, c))
  {
  }

  function Share(r: Rollup, k: Key): Option<Totals> {
    if KeyOf(r) == k then Some(r.totals) else None
  }

  /** The sums and maxima over the rollups of one key: also the row that the store's upserts leave. */
  function Total(rs: seq<Rollup>, k: Key): Option<Totals> {
    if rs == [] then None else Merge(Total(rs[..|rs| - 1], k), Share(rs[|rs| - 1], k))
  }

  lemma {:induction false} TotalAppend(a: seq<Rollup>, b: seq<Rollup>, k: Key)
    ensures Total(a + b, k) == Merge(Total(a, k), Total(b, k))
    decreases |b|
  {
    hide KeyOf;
    if b == [] {
      assert a + b == a;
    } else {
      var n := |b| - 1;
      TotalAppend(a, b[..n], k);
      assert (a + b)[..|a| + n] == a + b[..n];
      MergeLaws(Total(a, k), Total(b[..n], k), Share(b[n], k));
    }
  }

  /** The order in which rollups were drained does not matter. */
  lemma {:induction false} TotalIgnoresOrder(a: seq<Rollup>, b: seq<Rollup>, k: Key)
    requires multiset(a) == multiset(b)
    ensures Total(a, k) == Total(b, k)
    decreases |a|
  {
    hide KeyOf, Merge, Share;
    if a == [] {
      assert |multiset(b)| == 0;
    } else {
      var n := |a| - 1;
      var last := a[n];
      var i := TakeLast(a, b);
      var left, right := b[..i], b[i + 1..];
      assert b == left + [last] + right && a == a[..n] + [last];
      TotalIgnoresOrder(a[..n], left + right, k);
      TotalAppend(left, right, k);
      TotalAppend(left + [last], right, k);
      TotalAppend(left, [last], k);
      TotalAppend(a[..n], [last], k);
      MergeLaws(Total(left, k), Total(right, k), Total([last], k));
      MergeLaws(Total(left, k), Total([last], k), Total(right, k));
      MergeLaws(Total(right, k), Total([last], k), None);
    }
  }

  // ---------- what the totals are ----------

  datatype Counter = AircraftObservations | Messages | EmergencyObservations | EmergencyEvents

  function Value(t: Totals, c: Counter): int {
    match c
    case AircraftObservations => t.aircraftObservations
    case Messages => t.messages
    case EmergencyObservations => t.emergencyObservations
    case EmergencyEvents => t.emergencyEvents
  }

  /** The sum of one counter over the rollups of one key. */
  function SumOf(rs: seq<Rollup>, k: Key, c: Counter): int {
    if rs == [] then 0 else
    var last := rs[|rs| - 1];
    SumOf(rs[..|rs| - 1], k, c) + if KeyOf(last) == k then Value(last.totals, c) else 0
  }

  predicate HasKey(rs: seq<Rollup>, k: Key, i: int) {
    0 <= i < |rs| && KeyOf(rs[i]) == k
  }

  /** Every counter of `t` is the sum over the rollups of the key; range and peak are bounds on theirs that
      one of them reaches. */
  ghost predicate SumsAndMaxima(rs: seq<Rollup>, k: Key, t: Totals) {
    && (forall c :: Value(t, c) == SumOf(rs, k, c))
    && (forall i :: HasKey(rs, k, i) ==> rs[i].totals.maximumRange <= t.maximumRange && rs[i].totals.peakTracked <= t.peakTracked)
    && (exists i :: HasKey(rs, k, i) && rs[i].totals.maximumRange == t.maximumRange)
    && (exists i :: HasKey(rs, k, i) && rs[i].totals.peakTracked == t.peakTracked)
  }

  /** `t` adds the counters of `a` and `b` and has the larger range and the larger peak. */
  predicate AddsUp(a: Totals, b: Totals, t: Totals) {
    && t.aircraftObservations == a.aircraftObservations + b.aircraftObservations && t.messages == a.messages + b.messages
    && t.emergencyObservations == a.emergencyObservations + b.emergencyObservations
    && t.emergencyEvents == a.emergencyEvents + b.emergencyEvents
    && t.maximumRange >= a.maximumRange && t.maximumRange >= b.maximumRange
    && (t.maximumRange == a.maximumRange || t.maximumRange == b.maximumRange)
    && t.peakTracked >= a.peakTracked && t.peakTracked >= b.peakTracked
    && (t.peakTracked == a.peakTracked || t.peakTracked == b.peakTracked)
  }

  /** One more rollup of the key. */
  lemma MaximaNext(rs: seq<Rollup>, k: Key, t: Totals, u: Totals)
    requires rs != [] && SumsAndMaxima(rs[..|rs| - 1], k, t) && KeyOf(rs[|rs| - 1]) == k
    requires AddsUp(t, rs[|rs| - 1].totals, u)
    ensures SumsAndMaxima(rs, k, u)
  {
    hide KeyOf;
    var n, init := |rs| - 1, rs[..|rs| - 1];
    forall i | HasKey(rs, k, i)
      ensures rs[i].totals.maximumRange <= u.maximumRange && rs[i].totals.peakTracked <= u.peakTracked
    {
      assert i == n || HasKey(init, k, i);
    }
    forall c
      ensures Value(u, c) == SumOf(rs, k, c)
    {
      assert Value(u, c) == Value(t, c) + Value(rs[n].totals, c);
    }
    var x :| HasKey(init, k, x) && init[x].totals.maximumRange == t.maximumRange;
    var y :| HasKey(init, k, y) && init[y].totals.peakTracked == t.peakTracked;
    assert HasKey(rs, k, x) && HasKey(rs, k, y) && HasKey(rs, k, n);
  }

  lemma MaximaKept(rs: seq<Rollup>, k: Key, t: Totals)
    requires rs != [] && SumsAndMaxima(rs[..|rs| - 1], k, t) && KeyOf(rs[|rs| - 1]) != k
    ensures SumsAndMaxima(rs, k, t)
  {
    hide KeyOf;
    var init := rs[..|rs| - 1];
    assert forall i :: HasKey(rs, k, i) <==> HasKey(init, k, i);
  }

  lemma MaximaFirst(init: seq<Rollup>, r: Rollup)
    requires forall i :: !HasKey(init, KeyOf(r), i)
    requires forall c :: SumOf(init, KeyOf(r), c) == 0
    ensures SumsAndMaxima(init + [r], KeyOf(r), r.totals)
  {
    hide KeyOf;
    var k, rs := KeyOf(r), init + [r];
    assert rs[..|init|] == init && HasKey(rs, k, |init|);
    forall c
      ensures Value(r.totals, c) == SumOf(rs, k, c)
    {
      assert SumOf(init, k, c) == 0;
    }
    forall i | HasKey(rs, k, i)
      ensures i == |init|
    {
      assert i < |init| ==> HasKey(init, k, i);
    }
  }

  /** A key has a total exactly when it has a rollup; its counters are sums, its range and peak maxima. */
  lemma {:induction false} TotalIsSums(rs: seq<Rollup>, k: Key)
    ensures Total(rs, k).Some? <==> exists i :: HasKey(rs, k, i)
    ensures Total(rs, k).Some? ==> SumsAndMaxima(rs, k, Total(rs, k).value)
    ensures Total(rs, k).None? ==> forall c :: SumOf(rs, k, c) == 0
    decreases |rs|
  {
    hide KeyOf, SumsAndMaxima;
    if rs != [] {
      var n, init := |rs| - 1, rs[..|rs| - 1];
      TotalIsSums(init, k);
      assert forall i :: HasKey(rs, k, i) <==> HasKey(init, k, i) || (i == n && KeyOf(rs[n]) == k);
      if KeyOf(rs[n]) != k {
        if Total(init, k).Some? {
          MaximaKept(rs, k, Total(init, k).value);
        }
      } else {
        assert HasKey(rs, k, n) && init + [rs[n]] == rs;
        if Total(init, k).Some? {
          MaximaNext(rs, k, Total(init, k).value, Total(rs, k).value);
        } else {
          assert Total(rs, k) == Some(rs[n].totals);
          MaximaFirst(init, rs[n]);
        }
      }
    }
  }

  /** What a key without rollups counts is nothing. */
  function ValueOf(t: Option<Totals>, c: Counter): int {
    if t.Some? then Value(t.value, c) else 0
  }

  lemma MergeAdds(a: Option<Totals>, b: Option<Totals>, c: Counter)
    ensures ValueOf(Merge(a, b), c) == ValueOf(a, c) + ValueOf(b, c)
  {
  }

  lemma TotalCounts(rs: seq<Rollup>, k: Key, c: Counter)
    ensures ValueOf(Total(rs, k), c) == SumOf(rs, k, c)
  {
    hide HasKey;
    TotalIsSums(rs, k);
  }

  // ---------- the map of pending rollups ----------

  predicate Keyed(m: map<Key, Rollup>) {
    forall k :: k in m ==> KeyOf(m[k]) == k
  }

  function Pending(m: map<Key, Rollup>, k: Key): Option<Totals> {
    if k in m then Some(m[k].totals) else None
  }

  /** What `addEvent` does with one rollup. */
  function Add(m: map<Key, Rollup>, r: Rollup): map<Key, Rollup> {
    var value := r.(bucketStart := TruncateHour(r.bucketStart));
    var k := KeyOf(value);
    if k in m then m[k := m[k].(totals := Plus(m[k].totals, value.totals))] else m[k := value]
  }

  lemma AddIsMerge(m: map<Key, Rollup>, r: Rollup, k: Key)
    requires Keyed(m)
    ensures Keyed(Add(m, r)) && Pending(Add(m, r), k) == Merge(Pending(m, k), Share(r, k))
    ensures k != KeyOf(r) ==> Pending(Add(m, r), k) == Pending(m, k)
    ensures k == KeyOf(r) ==> k in Add(m, r) && if k in m then AddsUp(m[k].totals, r.totals, Add(m, r)[k].totals)
                                                else Add(m, r)[k].totals == r.totals
  {
    TruncatedKeepsKey(r);
    hide TruncateHour;
  }

  /** The pending rollups listed in the order of `keys`. */
  function Listed(m: map<Key, Rollup>, keys: seq<Key>): (rs: seq<Rollup>)
    requires forall i :: 0 <= i < |keys| ==> keys[i] in m
    ensures |rs| == |keys|
  {
    seq(|keys|, i requires 0 <= i < |keys| => m[keys[i]])
  }

  /** A map is listed in any order, each key once. */
  predicate Enumerates(keys: seq<Key>, m: map<Key, Rollup>) {
    && (forall i :: 0 <= i < |keys| ==> keys[i] in m)
    && (forall k :: k in m ==> k in keys)
    && (forall i, j :: 0 <= i < j < |keys| ==> keys[i] != keys[j])
  }

  lemma {:induction false} ListedTotal(m: map<Key, Rollup>, keys: seq<Key>, k: Key)
    requires Keyed(m) && (forall i :: 0 <= i < |keys| ==> keys[i] in m)
    requires forall i, j :: 0 <= i < j < |keys| ==> keys[i] != keys[j]
    ensures Total(Listed(m, keys), k) == if k in keys then Pending(m, k) else None
    decreases |keys|
  {
    hide KeyOf;
    if keys != [] {
      var n := |keys| - 1;
      ListedTotal(m, keys[..n], k);
      assert Listed(m, keys)[..n] == Listed(m, keys[..n]);
      assert keys == keys[..n] + [keys[n]];
    }
  }

  /** Whatever order the map is walked in, the rollups written add up to what was pending. */
  lemma EnumerationTotal(m: map<Key, Rollup>, keys: seq<Key>, k: Key)
    requires Keyed(m) && Enumerates(keys, m)
    ensures Total(Listed(m, keys), k) == Pending(m, k)
  {
    ListedTotal(m, keys, k);
  }
}
