/** Movement inference: three flag-and-counter machines per aircraft that share their state.

    Distances, heading differences and speeds are inputs. A trace is everything that happened to
    one aircraft in one monitor: its samples, and the deletions of its track as stale. */
module Movement {
  import opened Text
  import opened Traces

  const SECOND := 1_000_000_000
  const MOVEMENT_COOLDOWN := 600 * SECOND
  const MOVEMENT_STALE_AFTER := 1800 * SECOND
  const DERIVE_WINDOW := 30 * SECOND
  const MAX_MOVEMENT_TRACKS := 1000

  datatype Kind = Takeoff | Landing | Approach

  /** `towards` and `away` are the differences between the aircraft's track and the bearing to and
      from the airport, in degrees. */
  datatype Sample = Sample(
    now: int, hasPosition: bool, onGround: bool, distance: real,
    hasAltitude: bool, altitude: int, hasVerticalRate: bool, verticalRate: int,
    hasTrack: bool, towards: real, away: real, hasGroundSpeed: bool, groundSpeed: real)

  datatype Track = Track(
    known: bool, approaching: bool, groundNear: bool, airborneNear: bool,
    takeoffMatches: nat, landingMatches: nat, approachMatches: nat,
    lastTakeoff: Option<int>, lastLanding: Option<int>, lastApproach: Option<int>,
    lastSeen: int, lastSample: Option<int>, lastDistance: real, lastAltitude: int, hasAltitude: bool)

  const NewTrack := Track(false, false, false, false, 0, 0, 0, None, None, None, 0, None, 0.0, 0, false)

  // ---------- one sample ----------

  datatype Trend = Trend(hasRadial: bool, radial: real, hasVertical: bool, vertical: int)

  function Round(x: real): int {
    if x >= 0.0 then (x + 0.5).Floor else -((0.5 - x).Floor)
  }

  /** Closing speed in knots and vertical rate, derived from the previous sample when it is recent. */
  function Derive(t: Track, s: Sample): Trend {
    if t.known && t.lastSample.Some? && 0 < s.now - t.lastSample.value <= DERIVE_WINDOW then
      var elapsed := (s.now - t.lastSample.value) as real;
      var radial := (t.lastDistance - s.distance) / (elapsed / 3_600_000_000_000.0);
      if !s.hasVerticalRate && s.hasAltitude && t.hasAltitude then
        Trend(true, radial, true, Round((s.altitude - t.lastAltitude) as real / (elapsed / 60_000_000_000.0)))
      else Trend(true, radial, s.hasVerticalRate, s.verticalRate)
    else Trend(false, 0.0, s.hasVerticalRate, s.verticalRate)
  }

  predicate OnGroundNear(s: Sample) {
    s.hasPosition && s.onGround && s.distance <= 3.0
  }

  predicate LowAirborneNear(s: Sample) {
    s.hasPosition && !s.onGround && s.distance <= 5.0 && (!s.hasAltitude || s.altitude <= 2000)
  }

  function Mark(t: Track, s: Sample): Track {
    t.(lastSeen := s.now, groundNear := t.groundNear || OnGroundNear(s),
       airborneNear := t.airborneNear || LowAirborneNear(s))
  }

  predicate Cooled(last: Option<int>, now: int) {
    last.None? || now - last.value >= MOVEMENT_COOLDOWN
  }

  /** Climbing away from the airport, airborne and low, within 8 NM. */
  predicate TakeoffTrend(t: Track, s: Sample, d: Trend) {
    && s.hasPosition && !s.onGround && s.distance <= 8.0
    && ((d.hasVertical && d.vertical >= 200) || (s.hasAltitude && t.hasAltitude && s.altitude >= t.lastAltitude + 75))
    && ((d.hasRadial && d.radial <= -15.0) || (s.hasTrack && s.away <= 45.0))
    && (!s.hasAltitude || s.altitude <= 5000)
  }

  function Depart(t: Track, s: Sample, d: Trend): (Track, bool) {
    if !TakeoffTrend(t, s, d) || (!t.groundNear && t.takeoffMatches == 0) then (t.(takeoffMatches := 0), false)
    else if t.takeoffMatches + 1 < 3 || !Cooled(t.lastTakeoff, s.now) then (t.(takeoffMatches := t.takeoffMatches + 1), false)
    else (t.(takeoffMatches := 0, lastTakeoff := Some(s.now), groundNear := false, approaching := false), true)
  }

  function Land(t: Track, s: Sample): (Track, bool) {
    if !OnGroundNear(s) || (!t.approaching && !t.airborneNear && t.landingMatches == 0) then (t.(landingMatches := 0), false)
    else if t.landingMatches + 1 < 3 || !Cooled(t.lastLanding, s.now) then (t.(landingMatches := t.landingMatches + 1), false)
    else (t.(landingMatches := 0, lastLanding := Some(s.now), approaching := false, airborneNear := false), true)
  }

  /** Descending towards the airport, airborne, within 10 NM and between 100 and 5000 ft. */
  predicate ApproachTrend(s: Sample, d: Trend) {
    && s.hasPosition && !s.onGround && s.distance <= 10.0
    && s.hasAltitude && 100 <= s.altitude <= 5000
    && d.hasVertical && d.vertical <= -200
    && ((s.hasTrack && s.towards <= 45.0) || (d.hasRadial && d.radial >= 15.0))
    && !(d.hasRadial && d.radial < -15.0)
    && !(s.hasGroundSpeed && (s.groundSpeed < 45.0 || s.groundSpeed > 280.0))
  }

  function Approaching(t: Track, s: Sample, d: Trend): (Track, bool) {
    if s.onGround then (t.(approachMatches := 0), false)
    else if s.distance > 12.0 then (t.(approaching := false, approachMatches := 0), false)
    else if t.approaching || !Cooled(t.lastApproach, s.now) then (t, false)
    else if !ApproachTrend(s, d) then (t.(approachMatches := 0), false)
    else if t.approachMatches + 1 < 3 then (t.(approachMatches := t.approachMatches + 1), false)
    else (t.(approachMatches := 0, approaching := true, lastApproach := Some(s.now)), true)
  }

  datatype Outcome = Outcome(track: Track, takeoff: bool, landing: bool, approach: bool)

  function Observe(before: Option<Track>, s: Sample): Outcome {
    var t := if before.Some? then before.value else NewTrack;
    if !s.hasPosition then
      Outcome(t.(lastSeen := s.now, approachMatches := 0, takeoffMatches := 0, landingMatches := 0, known := true),
              false, false, false)
    else
      var d := Derive(t, s);
      var (t1, takeoff) := Depart(Mark(t, s), s, d);
      var (t2, landing) := Land(t1, s);
      var (t3, approach) := Approaching(t2, s, d);
      Outcome(t3.(known := true, lastSample := Some(s.now), lastDistance := s.distance, lastAltitude := s.altitude,
                  hasAltitude := s.hasAltitude),
              takeoff, landing, approach)
  }

  // ---------- runs ----------

  datatype Event = Seen(sample: Sample) | Stale(at: int)

  type Marks = map<string, seq<Event>>

  function When(e: Event): int {
    if e.Seen? then e.sample.now else e.at
  }

  function Step(t: Option<Track>, e: Event): Option<Track> {
    if e.Seen? then Some(Observe(t, e.sample).track) else None
  }

  function Replay(trace: seq<Event>): Option<Track> {
    if trace == [] then None else Step(Replay(trace[..|trace| - 1]), trace[|trace| - 1])
  }

  predicate Raises(t: Option<Track>, e: Event, kind: Kind) {
    e.Seen? &&
    match kind
    case Takeoff => Observe(t, e.sample).takeoff
    case Landing => Observe(t, e.sample).landing
    case Approach => Observe(t, e.sample).approach
  }

  predicate AlertAt(trace: seq<Event>, n: nat, kind: Kind) {
    n < |trace| && Raises(Replay(trace[..n]), trace[n], kind)
  }

  /** Tracks are deleted only after they have not been seen for the stale time. */
  predicate WellFormed(trace: seq<Event>) {
    forall n :: 0 <= n < |trace| && trace[n].Stale? ==> StaleNow(Replay(trace[..n]), trace[n].at)
  }

  predicate StaleNow(t: Option<Track>, now: int) {
    t.Some? && now - t.value.lastSeen > MOVEMENT_STALE_AFTER
  }

  /** Snapshot times do not run backwards. */
  predicate InTime(trace: seq<Event>) {
    forall i, j :: 0 <= i < j < |trace| ==> When(trace[i]) <= When(trace[j])
  }

  lemma ReplayTo(trace: seq<Event>, n: nat)
    requires n < |trace|
    ensures Replay(trace[..n + 1]) == Step(Replay(trace[..n]), trace[n])
  {
    assert trace[..n + 1][..n] == trace[..n];
  }

  // ---------- a departure starts on the ground ----------

  predicate GroundEvidence(t: Option<Track>) {
    t.Some? && (t.value.groundNear || t.value.takeoffMatches > 0)
  }

  lemma DepartureStep(t: Option<Track>, s: Sample)
    ensures GroundEvidence(Some(Observe(t, s).track)) ==> GroundEvidence(t) || OnGroundNear(s)
    ensures Observe(t, s).takeoff ==> GroundEvidence(t) && !GroundEvidence(Some(Observe(t, s).track))
  {
    hide Derive, ApproachTrend;
  }

  /** Sample `g` shows the aircraft on the ground within 3 NM. */
  predicate GroundAt(trace: seq<Event>, g: nat) {
    && g < |trace| && trace[g].Seen? && trace[g].sample.hasPosition && trace[g].sample.onGround
    && trace[g].sample.distance <= 3.0
  }

  ghost predicate GroundSampleIn(trace: seq<Event>, lo: int, n: nat) {
    exists g: nat :: lo < g < n <= |trace| && GroundAt(trace, g)
  }

  lemma StartsEmpty(trace: seq<Event>)
    ensures Replay(trace[..0]) == None
  {
  }

  lemma GroundEvidenceStep(trace: seq<Event>, n: nat)
    requires n < |trace| && GroundEvidence(Replay(trace[..n + 1]))
    ensures GroundEvidence(Replay(trace[..n])) || GroundAt(trace, n)
    ensures !AlertAt(trace, n, Takeoff)
  {
    ReplayTo(trace, n);
    hide Observe, Replay;
    DepartureStep(Replay(trace[..n]), trace[n].sample);
  }

  lemma {:induction false} GroundEvidenceIsBacked(trace: seq<Event>, lo: int, n: nat)
    requires -1 <= lo < n <= |trace| && (lo >= 0 ==> AlertAt(trace, lo, Takeoff))
    requires GroundEvidence(Replay(trace[..n]))
    ensures GroundSampleIn(trace, lo, n)
    decreases n
  {
    StartsEmpty(trace);
    hide GroundAt, AlertAt, Replay;
    if n > 0 {
      hide GroundEvidence;
      GroundEvidenceStep(trace, n - 1);
      if !GroundAt(trace, n - 1) {
        GroundEvidenceIsBacked(trace, lo, n - 1);
        var g: nat :| lo < g < n - 1 && GroundAt(trace, g);
        assert lo < g < n;
      }
    }
  }

  /** A departure alert has an on-ground sample within 3 NM behind it, newer than any earlier
      departure alert `lo` (-1 stands for the beginning). */
  lemma DepartureNeedsGround(trace: seq<Event>, lo: int, j: nat)
    requires -1 <= lo < j && AlertAt(trace, j, Takeoff) && (lo >= 0 ==> AlertAt(trace, lo, Takeoff))
    ensures GroundSampleIn(trace, lo, j)
  {
    DepartureStep(Replay(trace[..j]), trace[j].sample);
    GroundEvidenceIsBacked(trace, lo, j);
  }

  // ---------- a landing starts in the air ----------

  predicate AirEvidence(t: Option<Track>) {
    t.Some? && (t.value.approaching || t.value.airborneNear || t.value.landingMatches > 0)
  }

  lemma LandingStep(t: Option<Track>, s: Sample)
    ensures AirEvidence(Some(Observe(t, s).track)) ==> AirEvidence(t) || LowAirborneNear(s) || Observe(t, s).approach
    ensures Observe(t, s).landing ==> AirEvidence(t) && !AirEvidence(Some(Observe(t, s).track))
  {
    hide Derive, ApproachTrend, TakeoffTrend;
  }

  /** Sample `g` shows the aircraft airborne within 5 NM, and not above 2000 ft if its altitude is known. */
  predicate LowAt(trace: seq<Event>, g: nat) {
    && g < |trace| && trace[g].Seen? && trace[g].sample.hasPosition && !trace[g].sample.onGround
    && trace[g].sample.distance <= 5.0 && (trace[g].sample.hasAltitude ==> trace[g].sample.altitude <= 2000)
  }

  predicate AirborneAt(trace: seq<Event>, g: nat) {
    LowAt(trace, g) || AlertAt(trace, g, Approach)
  }

  ghost predicate AirborneIn(trace: seq<Event>, lo: int, n: nat) {
    exists g: nat :: lo < g < n && AirborneAt(trace, g)
  }

  lemma AirEvidenceStep(trace: seq<Event>, n: nat)
    requires n < |trace| && AirEvidence(Replay(trace[..n + 1]))
    ensures AirEvidence(Replay(trace[..n])) || AirborneAt(trace, n)
    ensures !AlertAt(trace, n, Landing)
  {
    ReplayTo(trace, n);
    hide Observe, Replay;
    LandingStep(Replay(trace[..n]), trace[n].sample);
  }

  lemma {:induction false} AirEvidenceIsBacked(trace: seq<Event>, lo: int, n: nat)
    requires -1 <= lo && lo + 1 <= n <= |trace| && (lo >= 0 ==> AlertAt(trace, lo, Landing))
    requires AirEvidence(Replay(trace[..n]))
    ensures AirborneIn(trace, lo, n)
    decreases n
  {
    StartsEmpty(trace);
    hide AirborneAt, AlertAt, Replay;
    if n > 0 {
      hide AirEvidence;
      AirEvidenceStep(trace, n - 1);
      if !AirborneAt(trace, n - 1) {
        AirEvidenceIsBacked(trace, lo, n - 1);
        var g: nat :| lo < g < n - 1 && AirborneAt(trace, g);
        assert lo < g < n;
      }
    }
  }

  /** A landing alert has an approach alert or a low airborne sample within 5 NM behind it, newer
      than any earlier landing alert `lo` (-1 stands for the beginning). */
  lemma LandingNeedsFlight(trace: seq<Event>, lo: int, j: nat)
    requires -1 <= lo < j && AlertAt(trace, j, Landing) && (lo >= 0 ==> AlertAt(trace, lo, Landing))
    ensures AirborneIn(trace, lo, j)
  {
    LandingStep(Replay(trace[..j]), trace[j].sample);
    AirEvidenceIsBacked(trace, lo, j);
  }

  // ---------- three in a row ----------

  function TrackBefore(trace: seq<Event>, n: nat): Track
    requires n <= |trace|
  {
    var t := Replay(trace[..n]);
    if t.Some? then t.value else NewTrack
  }

  /** Sample `n` shows the trend that the alert kind is about. */
  predicate Compatible(trace: seq<Event>, n: nat, kind: Kind) {
    && n < |trace| && trace[n].Seen?
    && var s := trace[n].sample;
       var t := TrackBefore(trace, n);
       match kind
       case Takeoff => TakeoffTrend(t, s, Derive(t, s))
       case Landing => OnGroundNear(s)
       case Approach => ApproachTrend(s, Derive(t, s))
  }

  // ---------- the trends, read off the samples ----------

  /** The sample with a position before event `n`, since the track was last deleted. */
  function Previous(trace: seq<Event>, n: nat): Option<Sample>
    requires n <= |trace|
  {
    if n == 0 || trace[n - 1].Stale? then None
    else if trace[n - 1].sample.hasPosition then Some(trace[n - 1].sample)
    else Previous(trace, n - 1)
  }

  /** At most thirty seconds old. */
  predicate Recent(p: Option<Sample>, s: Sample) {
    p.Some? && 0 < s.now - p.value.now <= 30_000_000_000
  }

  function Hours(p: Sample, s: Sample): (h: real)
    requires p.now < s.now
    ensures h > 0.0
  {
    (s.now - p.now) as real / 3_600_000_000_000.0
  }

  function Minutes(p: Sample, s: Sample): (m: real)
    requires p.now < s.now
    ensures m > 0.0
  {
    (s.now - p.now) as real / 60_000_000_000.0
  }

  lemma {:induction false} TrackIsPrevious(trace: seq<Event>, n: nat)
    requires n <= |trace|
    ensures var t, p := TrackBefore(trace, n), Previous(trace, n);
            if p.None? then t.lastSample.None? && !t.hasAltitude
            else && t.known && t.lastSample == Some(p.value.now) && t.lastDistance == p.value.distance
                 && t.lastAltitude == p.value.altitude && t.hasAltitude == p.value.hasAltitude
  {
    StartsEmpty(trace);
    if n > 0 {
      TrackIsPrevious(trace, n - 1);
      ReplayTo(trace, n - 1);
      assert trace[..n - 1 + 1] == trace[..n];
      hide Replay;
      if trace[n - 1].Seen? {
        SampleIsKept(Replay(trace[..n - 1]), trace[n - 1].sample);
        hide Observe;
      }
    }
  }

  lemma SampleIsKept(before: Option<Track>, s: Sample)
    ensures var t, u := if before.Some? then before.value else NewTrack, Observe(before, s).track;
            if s.hasPosition then
              && u.known && u.lastSample == Some(s.now) && u.lastDistance == s.distance && u.lastAltitude == s.altitude
              && u.hasAltitude == s.hasAltitude
            else
              && u.known && u.lastSample == t.lastSample && u.lastDistance == t.lastDistance
              && u.lastAltitude == t.lastAltitude && u.hasAltitude == t.hasAltitude
  {
    hide Depart, Land, Approaching, Derive;
  }

  lemma DividedBy(x: real, h: real)
    requires h > 0.0
    ensures (x / h) * h == x && (x / h > 0.0 <==> x > 0.0) && (x / h < 0.0 <==> x < 0.0)
  {
    var q := x / h;
    assert q * h == x;
    if q > 0.0 {
      assert q * h > 0.0;
    } else if q < 0.0 {
      assert (-q) * h > 0.0;
    }
  }

  lemma DividedBound(x: real, h: real, c: real)
    requires h > 0.0
    ensures (x / h <= c <==> x <= c * h) && (x / h >= c <==> x >= c * h)
  {
    DividedBy(x - c * h, h);
    assert (x - c * h) / h == x / h - c;
  }

  lemma RoundIsNear(x: real)
    ensures -0.5 <= Round(x) as real - x <= 0.5
    ensures (Round(x) >= 200 <==> x >= 199.5) && (Round(x) <= -200 <==> x <= -199.5)
  {
  }

  /** `Derive` reads the previous sample off the track. */
  lemma DeriveIs(trace: seq<Event>, n: nat)
    requires n < |trace| && trace[n].Seen?
    ensures var s, p, d := trace[n].sample, Previous(trace, n), Derive(TrackBefore(trace, n), trace[n].sample);
            && (d.hasRadial <==> Recent(p, s))
            && (d.hasRadial ==> d.radial == (p.value.distance - s.distance) / Hours(p.value, s))
            && (s.hasVerticalRate ==> d.hasVertical && d.vertical == s.verticalRate)
            && (!s.hasVerticalRate ==> (d.hasVertical <==> Recent(p, s) && s.hasAltitude && p.value.hasAltitude))
            && (!s.hasVerticalRate && d.hasVertical ==>
                  d.vertical == Round((s.altitude - p.value.altitude) as real / Minutes(p.value, s)))
  {
    hide Replay, Round, Previous;
    TrackIsPrevious(trace, n);
  }

  /** The derived closing speed is positive exactly when the distance shrank and, times the hours passed,
      gives the distance lost; the derived vertical rate is within half a foot per minute of the climb. */
  lemma DerivedFromSamples(trace: seq<Event>, n: nat)
    requires n < |trace| && trace[n].Seen?
    ensures var s, p, d := trace[n].sample, Previous(trace, n), Derive(TrackBefore(trace, n), trace[n].sample);
            && (d.hasRadial <==> Recent(p, s))
            && (d.hasRadial ==>
                  && (d.radial > 0.0 <==> s.distance < p.value.distance) && (d.radial < 0.0 <==> s.distance > p.value.distance)
                  && d.radial * Hours(p.value, s) == p.value.distance - s.distance)
            && (s.hasVerticalRate ==> d.hasVertical && d.vertical == s.verticalRate)
            && (!s.hasVerticalRate ==> (d.hasVertical <==> Recent(p, s) && s.hasAltitude && p.value.hasAltitude))
            && (!s.hasVerticalRate && d.hasVertical ==>
                  var climbed, m := (s.altitude - p.value.altitude) as real, Minutes(p.value, s);
                  -0.5 * m <= d.vertical as real * m - climbed <= 0.5 * m)
  {
    hide TrackBefore, Derive, Round, Previous, Hours, Minutes;
    DeriveIs(trace, n);
    var s, d := trace[n].sample, Derive(TrackBefore(trace, n), trace[n].sample);
    if d.hasRadial {
      var p := Previous(trace, n).value;
      DividedBy(p.distance - s.distance, Hours(p, s));
      if !s.hasVerticalRate && d.hasVertical {
        RoundedQuotient((s.altitude - p.altitude) as real, Minutes(p, s));
      }
    }
  }

  lemma RoundedQuotient(x: real, m: real)
    requires m > 0.0
    ensures -0.5 * m <= Round(x / m) as real * m - x <= 0.5 * m
  {
    hide Round;
    RoundIsNear(x / m);
    DividedBy(x, m);
    Scaled(Round(x / m) as real, x / m, m, x);
  }

  lemma Scaled(a: real, b: real, m: real, x: real)
    requires m > 0.0 && -0.5 <= a - b <= 0.5 && b * m == x
    ensures -0.5 * m <= a * m - x <= 0.5 * m
  {
    var d := a - b;
    HalfOf(d, m);
    Distribute(d, b, m);
    assert d + b == a;
    assert (d + b) * m == a * m;
    var p, q, r := d * m, b * m, a * m;
    assert r == p + q;
  }

  lemma Distribute(d: real, b: real, m: real)
    ensures (d + b) * m == d * m + b * m
  {
  }

  lemma HalfOf(d: real, m: real)
    requires m > 0.0 && -0.5 <= d <= 0.5
    ensures -0.5 * m <= d * m <= 0.5 * m
  {
    assert (d + 0.5) * m >= 0.0;
    assert (0.5 - d) * m >= 0.0;
  }

  /** Climbing at 200 ft/min: as reported, or since the previous sample, rounded to whole feet. */
  predicate Climbs(p: Option<Sample>, s: Sample) {
    if s.hasVerticalRate then s.verticalRate >= 200
    else Recent(p, s) && s.hasAltitude && p.value.hasAltitude
         && (s.altitude - p.value.altitude) as real >= 199.5 * Minutes(p.value, s)
  }

  predicate Sinks(p: Option<Sample>, s: Sample) {
    if s.hasVerticalRate then s.verticalRate <= -200
    else Recent(p, s) && s.hasAltitude && p.value.hasAltitude
         && (s.altitude - p.value.altitude) as real <= -199.5 * Minutes(p.value, s)
  }

  /** The trend of an alert kind: climbing away within 8 NM and 5000 ft, on the ground within 3 NM, or
      descending towards the airport within 10 NM, between 100 and 5000 ft, at 45 to 280 kt. Away and
      towards mean a heading within 45 degrees, or a change of distance of at least 15 kt. */
  predicate Shows(trace: seq<Event>, n: nat, kind: Kind) {
    && n < |trace| && trace[n].Seen? && trace[n].sample.hasPosition
    && var s, p := trace[n].sample, Previous(trace, n);
       match kind
       case Takeoff =>
         && !s.onGround && s.distance <= 8.0 && (s.hasAltitude ==> s.altitude <= 5000)
         && (Climbs(p, s)
             || (s.hasAltitude && p.Some? && p.value.hasAltitude && s.altitude >= p.value.altitude + 75))
         && ((s.hasTrack && s.away <= 45.0)
             || (Recent(p, s) && s.distance - p.value.distance >= 15.0 * Hours(p.value, s)))
       case Landing => s.onGround && s.distance <= 3.0
       case Approach =>
         && !s.onGround && s.distance <= 10.0 && s.hasAltitude && 100 <= s.altitude <= 5000 && Sinks(p, s)
         && ((s.hasTrack && s.towards <= 45.0)
             || (Recent(p, s) && p.value.distance - s.distance >= 15.0 * Hours(p.value, s)))
         && (Recent(p, s) ==> s.distance - p.value.distance <= 15.0 * Hours(p.value, s))
         && (s.hasGroundSpeed ==> 45.0 <= s.groundSpeed <= 280.0)
  }

  lemma RadialBounds(trace: seq<Event>, n: nat)
    requires n < |trace| && trace[n].Seen? && Recent(Previous(trace, n), trace[n].sample)
    ensures var s, p, d := trace[n].sample, Previous(trace, n).value, Derive(TrackBefore(trace, n), trace[n].sample);
            && d.hasRadial
            && (d.radial <= -15.0 <==> s.distance - p.distance >= 15.0 * Hours(p, s))
            && (d.radial >= 15.0 <==> p.distance - s.distance >= 15.0 * Hours(p, s))
            && (d.radial < -15.0 <==> s.distance - p.distance > 15.0 * Hours(p, s))
  {
    hide TrackBefore, Derive, Round, Previous, Hours, Minutes;
    DeriveIs(trace, n);
    var s, p := trace[n].sample, Previous(trace, n).value;
    DividedBound(p.distance - s.distance, Hours(p, s), -15.0);
    DividedBound(p.distance - s.distance, Hours(p, s), 15.0);
  }

  lemma RoundedBounds(x: real, m: real)
    requires m > 0.0
    ensures (Round(x / m) >= 200 <==> x >= 199.5 * m) && (Round(x / m) <= -200 <==> x <= -199.5 * m)
  {
    hide Round;
    RoundIsNear(x / m);
    DividedBound(x, m, 199.5);
    DividedBound(x, m, -199.5);
  }

  lemma VerticalBounds(trace: seq<Event>, n: nat)
    requires n < |trace| && trace[n].Seen?
    ensures var s, p, d := trace[n].sample, Previous(trace, n), Derive(TrackBefore(trace, n), trace[n].sample);
            && (d.hasVertical && d.vertical >= 200 <==> Climbs(p, s))
            && (d.hasVertical && d.vertical <= -200 <==> Sinks(p, s))
  {
    hide TrackBefore, Derive, Round, Previous, Hours, Minutes;
    DeriveIs(trace, n);
    var s := trace[n].sample;
    if !s.hasVerticalRate && Recent(Previous(trace, n), s) {
      var p := Previous(trace, n).value;
      RoundedBounds((s.altitude - p.altitude) as real, Minutes(p, s));
    }
  }

  /** The trends the machines look for are the ones the samples show. */
  lemma CompatibleExactly(trace: seq<Event>, n: nat, kind: Kind)
    ensures Compatible(trace, n, kind) <==> Shows(trace, n, kind)
  {
    hide Replay, Derive, Previous, Recent, Climbs, Sinks, Hours, Minutes;
    if n < |trace| && trace[n].Seen? {
      TrackIsPrevious(trace, n);
      VerticalBounds(trace, n);
      if Recent(Previous(trace, n), trace[n].sample) {
        RadialBounds(trace, n);
      } else {
        DerivedFromSamples(trace, n);
      }
    }
  }

  function MatchesOf(t: Option<Track>, kind: Kind): nat {
    if t.None? then 0 else
    match kind
    case Takeoff => t.value.takeoffMatches
    case Landing => t.value.landingMatches
    case Approach => t.value.approachMatches
  }

  /** No approach is being counted while one is under way or cooling down. */
  predicate ApproachGuard(t: Option<Track>) {
    t.Some? && t.value.approachMatches > 0 ==> !t.value.approaching && Cooled(t.value.lastApproach, t.value.lastSeen)
  }

  lemma DepartFrame(t: Track, s: Sample, d: Trend)
    ensures var u := Depart(t, s, d).0;
            && u == t.(takeoffMatches := u.takeoffMatches, lastTakeoff := u.lastTakeoff, groundNear := u.groundNear,
                       approaching := u.approaching)
            && (u.approaching ==> t.approaching)
  {
    hide TakeoffTrend, Cooled;
  }

  lemma LandFrame(t: Track, s: Sample)
    ensures var u := Land(t, s).0;
            && u == t.(landingMatches := u.landingMatches, lastLanding := u.lastLanding, approaching := u.approaching,
                       airborneNear := u.airborneNear)
            && (u.approaching ==> t.approaching)
  {
    hide OnGroundNear, Cooled;
  }

  lemma ApproachFrame(t: Track, s: Sample, d: Trend)
    ensures var u := Approaching(t, s, d).0;
            u == t.(approachMatches := u.approachMatches, approaching := u.approaching, lastApproach := u.lastApproach)
  {
    hide ApproachTrend, Cooled;
  }

  /** The three machines run one after the other on the marked track. */
  lemma Stages(before: Option<Track>, s: Sample)
    requires s.hasPosition
    ensures var t := if before.Some? then before.value else NewTrack;
            var d := Derive(t, s);
            var (t1, takeoff) := Depart(Mark(t, s), s, d);
            var (t2, landing) := Land(t1, s);
            var (t3, approach) := Approaching(t2, s, d);
            var o := Observe(before, s);
            && o.takeoff == takeoff && o.landing == landing && o.approach == approach
            && o.track.takeoffMatches == t1.takeoffMatches && o.track.landingMatches == t2.landingMatches
            && t1.landingMatches == t.landingMatches && t2.approachMatches == t.approachMatches
            && t2.lastApproach == t.lastApproach
            && o.track.approachMatches == t3.approachMatches && o.track.approaching == t3.approaching
            && o.track.lastApproach == t3.lastApproach && o.track.lastSeen == s.now
            && (t2.approaching ==> t.approaching)
  {
    var t := if before.Some? then before.value else NewTrack;
    var d := Derive(t, s);
    var m := Mark(t, s);
    hide Depart, Land, Approaching, Derive;
    DepartFrame(m, s, d);
    LandFrame(Depart(m, s, d).0, s);
    ApproachFrame(Land(Depart(m, s, d).0, s).0, s, d);
  }

  /** What one machine does to its own counter. */
  lemma DepartCounts(t: Track, s: Sample, d: Trend)
    ensures var (u, alert) := Depart(t, s, d);
            && u.takeoffMatches <= t.takeoffMatches + 1
            && (u.takeoffMatches > 0 || alert ==> TakeoffTrend(t, s, d)) && (alert ==> t.takeoffMatches >= 2)
  {
    hide TakeoffTrend, Cooled;
  }

  lemma LandCounts(t: Track, s: Sample)
    ensures var (u, alert) := Land(t, s);
            && u.landingMatches <= t.landingMatches + 1
            && (u.landingMatches > 0 || alert ==> OnGroundNear(s)) && (alert ==> t.landingMatches >= 2)
  {
    hide OnGroundNear, Cooled;
  }

  lemma ApproachCounts(t: Track, s: Sample, d: Trend)
    requires t.approachMatches > 0 ==> !t.approaching && Cooled(t.lastApproach, s.now)
    ensures var (u, alert) := Approaching(t, s, d);
            && u.approachMatches <= t.approachMatches + 1
            && (u.approachMatches > 0 || alert ==> ApproachTrend(s, d)) && (alert ==> t.approachMatches >= 2)
            && (u.approachMatches > 0 ==> !u.approaching && Cooled(u.lastApproach, s.now))
  {
    hide ApproachTrend, Cooled;
  }

  lemma CountStep(trace: seq<Event>, n: nat, kind: Kind)
    requires n < |trace| && trace[n].Seen?
    requires ApproachGuard(Replay(trace[..n]))
    requires (Replay(trace[..n]).Some? ==> Replay(trace[..n]).value.lastSeen <= trace[n].sample.now)
    ensures var t, s := Replay(trace[..n]), trace[n].sample;
            && MatchesOf(Some(Observe(t, s).track), kind) <= MatchesOf(t, kind) + 1
            && (MatchesOf(Some(Observe(t, s).track), kind) > 0 ==> Compatible(trace, n, kind))
            && (Raises(t, trace[n], kind) ==> Compatible(trace, n, kind) && MatchesOf(t, kind) >= 2)
  {
    var before, s := Replay(trace[..n]), trace[n].sample;
    hide Derive, Replay, Depart, Land, Approaching, TakeoffTrend, ApproachTrend, OnGroundNear;
    if s.hasPosition {
      Stages(before, s);
      hide Observe;
      var t := TrackBefore(trace, n);
      var d := Derive(t, s);
      var t1 := Depart(Mark(t, s), s, d).0;
      var t2 := Land(t1, s).0;
      MarkedTrend(t, s, d);
      DepartCounts(Mark(t, s), s, d);
      LandCounts(t1, s);
      ApproachCounts(t2, s, d);
    }
  }

  lemma MarkedTrend(t: Track, s: Sample, d: Trend)
    ensures TakeoffTrend(Mark(t, s), s, d) == TakeoffTrend(t, s, d)
  {
  }

  lemma GuardStep(t: Option<Track>, s: Sample)
    requires ApproachGuard(t) && (t.Some? ==> t.value.lastSeen <= s.now)
    ensures ApproachGuard(Some(Observe(t, s).track)) && Observe(t, s).track.lastSeen == s.now
  {
    hide Derive, Depart, Land, Approaching;
    if s.hasPosition {
      Stages(t, s);
      hide Observe;
      var u := if t.Some? then t.value else NewTrack;
      var d := Derive(u, s);
      ApproachCounts(Land(Depart(Mark(u, s), s, d).0, s).0, s, d);
    }
  }

  lemma {:induction false} GuardHolds(trace: seq<Event>, n: nat)
    requires InTime(trace) && n <= |trace|
    ensures ApproachGuard(Replay(trace[..n]))
    ensures Replay(trace[..n]).Some? ==> n > 0 && Replay(trace[..n]).value.lastSeen <= When(trace[n - 1])
  {
    if n > 0 {
      GuardHolds(trace, n - 1);
      ReplayTo(trace, n - 1);
      if trace[n - 1].Seen? {
        hide Observe;
        GuardStep(Replay(trace[..n - 1]), trace[n - 1].sample);
      }
    }
  }

  lemma CountOne(trace: seq<Event>, n: nat, kind: Kind)
    requires InTime(trace) && 0 < n <= |trace|
    ensures var before, after := MatchesOf(Replay(trace[..n - 1]), kind), MatchesOf(Replay(trace[..n]), kind);
            after <= before + 1 && (after > 0 ==> Compatible(trace, n - 1, kind))
  {
    GuardHolds(trace, n - 1);
    assert n > 1 ==> When(trace[n - 2]) <= When(trace[n - 1]);
    ReplayTo(trace, n - 1);
    hide Observe, Compatible, InTime, ApproachGuard, Replay;
    if trace[n - 1].Seen? {
      CountStep(trace, n - 1, kind);
    }
  }

  lemma {:induction false} CountIsRun(trace: seq<Event>, n: nat, kind: Kind)
    requires InTime(trace) && n <= |trace|
    ensures MatchesOf(Replay(trace[..n]), kind) <= n
    ensures forall k :: n - MatchesOf(Replay(trace[..n]), kind) <= k < n ==> Compatible(trace, k, kind)
  {
    if n > 0 {
      hide *;
      CountIsRun(trace, n - 1, kind);
      CountOne(trace, n, kind);
      var before, after := MatchesOf(Replay(trace[..n - 1]), kind), MatchesOf(Replay(trace[..n]), kind);
      forall k | n - after <= k < n
        ensures Compatible(trace, k, kind)
      {
        if k < n - 1 {
          assert (n - 1) - before <= k < n - 1;
        }
      }
    }
  }

  lemma AlertIsThird(trace: seq<Event>, j: nat, kind: Kind)
    requires InTime(trace) && AlertAt(trace, j, kind)
    ensures j >= 2 && Compatible(trace, j - 2, kind) && Compatible(trace, j - 1, kind) && Compatible(trace, j, kind)
  {
    hide Observe, Compatible, ApproachGuard;
    GuardHolds(trace, j);
    CountIsRun(trace, j, kind);
    CountStep(trace, j, kind);
  }

  /** Every alert is the third of three samples of its aircraft in a row that show its trend. */
  lemma ThreeInARow(trace: seq<Event>, j: nat, kind: Kind)
    requires InTime(trace) && AlertAt(trace, j, kind)
    ensures j >= 2 && Shows(trace, j - 2, kind) && Shows(trace, j - 1, kind) && Shows(trace, j, kind)
  {
    hide Compatible, Shows, AlertAt, InTime;
    AlertIsThird(trace, j, kind);
    CompatibleExactly(trace, j - 2, kind);
    CompatibleExactly(trace, j - 1, kind);
    CompatibleExactly(trace, j, kind);
  }

  // ---------- three in a row raise the alert ----------

  /** The machine of `kind` may start counting with event `n`: it has its evidence, or no approach is
      under way or cooling down. */
  predicate Armed(trace: seq<Event>, n: nat, kind: Kind)
    requires n <= |trace|
  {
    var t := TrackBefore(trace, n);
    match kind
    case Takeoff => t.groundNear || t.takeoffMatches > 0
    case Landing => t.approaching || t.airborneNear || t.landingMatches > 0
    case Approach => !t.approaching && n < |trace| && Cooled(t.lastApproach, When(trace[n]))
  }

  lemma DepartRaises(t: Track, s: Sample, d: Trend)
    requires TakeoffTrend(t, s, d) && (t.groundNear || t.takeoffMatches > 0)
    ensures var (u, alert) := Depart(t, s, d);
            && (alert <==> t.takeoffMatches >= 2 && Cooled(t.lastTakeoff, s.now))
            && (!alert ==> u.takeoffMatches == t.takeoffMatches + 1)
  {
    hide TakeoffTrend, Cooled;
  }

  lemma LandRaises(t: Track, s: Sample)
    requires OnGroundNear(s) && (t.approaching || t.airborneNear || t.landingMatches > 0)
    ensures var (u, alert) := Land(t, s);
            && (alert <==> t.landingMatches >= 2 && Cooled(t.lastLanding, s.now))
            && (!alert ==> u.landingMatches == t.landingMatches + 1)
  {
    hide Cooled;
  }

  lemma ApproachRaises(t: Track, s: Sample, d: Trend)
    requires ApproachTrend(s, d) && !t.approaching && Cooled(t.lastApproach, s.now)
    ensures var (u, alert) := Approaching(t, s, d);
            && (alert <==> t.approachMatches >= 2)
            && (!alert ==> u.approachMatches == t.approachMatches + 1 && !u.approaching)
  {
    hide Cooled;
  }

  lemma GroundedNoTakeoff(t: Track, s: Sample, d: Trend)
    requires OnGroundNear(s)
    ensures Depart(t, s, d).0 == t.(takeoffMatches := 0)
  {
  }

  /** One compatible sample, while the machine is armed and its cooldown is over, counts or raises. */
  lemma ArmedStep(trace: seq<Event>, n: nat, kind: Kind)
    requires n < |trace| && Compatible(trace, n, kind) && Armed(trace, n, kind)
    ensures var before, after := Replay(trace[..n]), Replay(trace[..n + 1]);
            || AlertAt(trace, n, kind)
            || (&& after.Some? && MatchesOf(after, kind) == MatchesOf(before, kind) + 1
                && (kind == Approach ==> !after.value.approaching && after.value.lastApproach == TrackBefore(trace, n).lastApproach))
    ensures MatchesOf(Replay(trace[..n]), kind) >= 2 && Cooled(LastOf(TrackBefore(trace, n), kind), When(trace[n])) ==>
      AlertAt(trace, n, kind)
  {
    ReplayTo(trace, n);
    var before, s, t := Replay(trace[..n]), trace[n].sample, TrackBefore(trace, n);
    var d := Derive(t, s);
    hide Derive, Replay, Depart, Land, Approaching, TakeoffTrend, ApproachTrend, Cooled;
    HasPosition(trace, n, kind);
    Stages(before, s);
    LastStep(before, s, kind);
    hide Observe;
    MarkedTrend(t, s, d);
    var m := Mark(t, s);
    DepartFrame(m, s, d);
    DepartLast(m, s, d);
    match kind
    case Takeoff => DepartRaises(m, s, d);
    case Landing =>
      GroundedNoTakeoff(m, s, d);
      LandRaises(Depart(m, s, d).0, s);
    case Approach =>
      LandFrame(Depart(m, s, d).0, s);
      ApproachRaises(Land(Depart(m, s, d).0, s).0, s, d);
  }

  lemma HasPosition(trace: seq<Event>, n: nat, kind: Kind)
    requires Compatible(trace, n, kind)
    ensures trace[n].sample.hasPosition
  {
    hide Derive, Replay;
  }

  /** What the track calls the last alert of a kind was one. */
  lemma {:induction false} LastIsAlert(trace: seq<Event>, n: nat, kind: Kind) returns (m: nat)
    requires n <= |trace| && LastOf(TrackBefore(trace, n), kind).Some?
    ensures m < n && AlertAt(trace, m, kind) && Some(When(trace[m])) == LastOf(TrackBefore(trace, n), kind)
    decreases n
  {
    StartsEmpty(trace);
    hide Observe, Raises, Replay;
    m := 0;
    if n > 0 {
      ReplayTo(trace, n - 1);
      assert trace[..n - 1 + 1] == trace[..n];
      if trace[n - 1].Seen? {
        LastStep(Replay(trace[..n - 1]), trace[n - 1].sample, kind);
        if AlertAt(trace, n - 1, kind) {
          m := n - 1;
        } else {
          m := LastIsAlert(trace, n - 1, kind);
        }
      }
    }
  }

  /** Every alert of the kind before event `n` is at least ten minutes before event `j`. */
  ghost predicate CooledDown(trace: seq<Event>, n: nat, j: nat, kind: Kind)
    requires n <= j < |trace|
  {
    forall m: nat :: m < n && AlertAt(trace, m, kind) ==> When(trace[j]) - When(trace[m]) >= 600_000_000_000
  }

  lemma CooledDownIsCooled(trace: seq<Event>, n: nat, j: nat, kind: Kind)
    requires n <= j < |trace| && CooledDown(trace, n, j, kind)
    ensures Cooled(LastOf(TrackBefore(trace, n), kind), When(trace[j]))
  {
    hide Replay, AlertAt;
    if LastOf(TrackBefore(trace, n), kind).Some? {
      var m := LastIsAlert(trace, n, kind);
    }
  }

  // ---------- what arms the machines ----------

  /** From `g` to `n` the track is kept and no alert of the kind is raised. */
  predicate Quiet(trace: seq<Event>, g: nat, n: nat, kind: Kind) {
    forall q: nat :: g <= q < n && q < |trace| ==> trace[q].Seen? && !AlertAt(trace, q, kind)
  }

  /** An approach that is under way ends: another alert, a stale track, or a sample beyond 12 NM. */
  predicate EndsApproach(trace: seq<Event>, q: nat) {
    && q < |trace|
    && (|| trace[q].Stale? || AlertAt(trace, q, Takeoff) || AlertAt(trace, q, Landing)
        || (trace[q].Seen? && trace[q].sample.hasPosition && !trace[q].sample.onGround && trace[q].sample.distance > 12.0))
  }

  /** What has to come before three compatible samples that start at `n`: for a departure the aircraft on
      the ground within 3 NM, for a landing the aircraft low within 5 NM or approaching, each since the last
      such alert; for an approach, that every earlier one has ended. */
  ghost predicate Ready(trace: seq<Event>, n: nat, kind: Kind) {
    match kind
    case Takeoff => exists g: nat :: g < n && GroundAt(trace, g) && Quiet(trace, g, n, Takeoff)
    case Landing =>
      || (exists g: nat :: g < n && LowAt(trace, g) && Quiet(trace, g, n, Landing))
      || (exists g: nat :: g < n && AlertAt(trace, g, Approach) && Lasts(trace, g, n))
    case Approach => forall m: nat :: m < n && AlertAt(trace, m, Approach) ==> !Lasts(trace, m, n)
  }

  /** The approach announced at `g` has not ended before `n`. */
  ghost predicate Lasts(trace: seq<Event>, g: nat, n: nat) {
    forall q: nat :: g < q < n ==> !EndsApproach(trace, q)
  }

  lemma DepartFlags(t: Track, s: Sample, d: Trend)
    ensures var (u, alert) := Depart(t, s, d);
            && u.groundNear == (t.groundNear && !alert) && u.approaching == (t.approaching && !alert)
            && u.airborneNear == t.airborneNear
  {
    hide TakeoffTrend, Cooled;
  }

  lemma LandFlags(t: Track, s: Sample)
    ensures var (u, alert) := Land(t, s);
            && u.groundNear == t.groundNear && u.approaching == (t.approaching && !alert)
            && u.airborneNear == (t.airborneNear && !alert)
  {
    hide OnGroundNear, Cooled;
  }

  lemma ApproachFlags(t: Track, s: Sample, d: Trend)
    ensures var (u, alert) := Approaching(t, s, d);
            && u.groundNear == t.groundNear && u.airborneNear == t.airborneNear
            && u.approaching == (alert || (t.approaching && !(!s.onGround && s.distance > 12.0)))
  {
    hide ApproachTrend, Cooled;
  }

  /** What one sample does to the flags. */
  lemma FlagStep(t: Option<Track>, s: Sample)
    ensures var u, o := if t.Some? then t.value else NewTrack, Observe(t, s);
            && (o.track.groundNear <==> !o.takeoff && (u.groundNear || (s.hasPosition && s.onGround && s.distance <= 3.0)))
            && (o.track.airborneNear <==>
                  && !o.landing
                  && (u.airborneNear
                      || (s.hasPosition && !s.onGround && s.distance <= 5.0 && (s.hasAltitude ==> s.altitude <= 2000))))
            && (o.track.approaching <==>
                  || o.approach
                  || (u.approaching && !o.takeoff && !o.landing && !(s.hasPosition && !s.onGround && s.distance > 12.0)))
  {
    hide Derive, Depart, Land, Approaching;
    if s.hasPosition {
      var u := if t.Some? then t.value else NewTrack;
      var m, d := Mark(u, s), Derive(u, s);
      DepartFlags(m, s, d);
      LandFlags(Depart(m, s, d).0, s);
      ApproachFlags(Land(Depart(m, s, d).0, s).0, s, d);
    }
  }

  lemma {:induction false} GroundStays(trace: seq<Event>, g: nat, n: nat)
    requires g < n <= |trace| && GroundAt(trace, g) && Quiet(trace, g, n, Takeoff)
    ensures TrackBefore(trace, n).groundNear
    decreases n
  {
    hide Observe, Replay;
    ReplayTo(trace, n - 1);
    FlagStep(Replay(trace[..n - 1]), trace[n - 1].sample);
    if g < n - 1 {
      GroundStays(trace, g, n - 1);
    }
  }

  lemma {:induction false} LowStays(trace: seq<Event>, g: nat, n: nat)
    requires g < n <= |trace| && LowAt(trace, g) && Quiet(trace, g, n, Landing)
    ensures TrackBefore(trace, n).airborneNear
    decreases n
  {
    hide Observe, Replay;
    ReplayTo(trace, n - 1);
    FlagStep(Replay(trace[..n - 1]), trace[n - 1].sample);
    if g < n - 1 {
      LowStays(trace, g, n - 1);
    }
  }

  lemma {:induction false} ApproachStays(trace: seq<Event>, g: nat, n: nat)
    requires g < n <= |trace| && AlertAt(trace, g, Approach) && Lasts(trace, g, n)
    ensures TrackBefore(trace, n).approaching
    decreases n
  {
    hide Observe, Replay;
    ReplayTo(trace, n - 1);
    if g < n - 1 {
      ApproachStays(trace, g, n - 1);
      assert !EndsApproach(trace, n - 1);
    }
    FlagStep(Replay(trace[..n - 1]), trace[n - 1].sample);
  }

  /** An approach is under way only since an alert that has not ended. */
  lemma {:induction false} ApproachBegan(trace: seq<Event>, n: nat) returns (m: nat)
    requires n <= |trace| && TrackBefore(trace, n).approaching
    ensures m < n && AlertAt(trace, m, Approach) && Lasts(trace, m, n)
    decreases n
  {
    StartsEmpty(trace);
    hide Observe, Replay;
    m := 0;
    if n > 0 {
      ReplayTo(trace, n - 1);
      assert trace[..n - 1 + 1] == trace[..n];
      FlagStep(Replay(trace[..n - 1]), trace[n - 1].sample);
      if AlertAt(trace, n - 1, Approach) {
        m := n - 1;
      } else {
        m := ApproachBegan(trace, n - 1);
        assert !EndsApproach(trace, n - 1);
      }
    }
  }

  lemma ReadyIsArmed(trace: seq<Event>, n: nat, kind: Kind)
    requires n < |trace| && Ready(trace, n, kind) && (kind == Approach ==> CooledDown(trace, n, n, Approach))
    ensures Armed(trace, n, kind)
  {
    hide Replay, AlertAt, GroundAt, LowAt, Quiet, Lasts, CooledDown;
    match kind
    case Takeoff =>
      var g: nat :| g < n && GroundAt(trace, g) && Quiet(trace, g, n, Takeoff);
      GroundStays(trace, g, n);
    case Landing =>
      if g: nat :| g < n && LowAt(trace, g) && Quiet(trace, g, n, Landing) {
        LowStays(trace, g, n);
      } else {
        var g: nat :| g < n && AlertAt(trace, g, Approach) && Lasts(trace, g, n);
        ApproachStays(trace, g, n);
      }
    case Approach =>
      CooledDownIsCooled(trace, n, n, Approach);
      if TrackBefore(trace, n).approaching {
        var m := ApproachBegan(trace, n);
      }
  }

  /** After a sample that counted, the machine is still armed for the next one. */
  lemma StaysArmed(trace: seq<Event>, n: nat, kind: Kind)
    requires InTime(trace) && n + 1 < |trace| && Compatible(trace, n, kind) && Armed(trace, n, kind)
    requires !AlertAt(trace, n, kind)
    ensures Armed(trace, n + 1, kind)
    ensures MatchesOf(Replay(trace[..n + 1]), kind) == MatchesOf(Replay(trace[..n]), kind) + 1
  {
    hide Replay, AlertAt, Compatible, LastOf;
    ArmedStep(trace, n, kind);
    assert When(trace[n]) <= When(trace[n + 1]);
  }

  /** Without an alert the time of the last one stays. */
  lemma LastStays(trace: seq<Event>, n: nat, kind: Kind)
    requires n < |trace| && trace[n].Seen? && !AlertAt(trace, n, kind)
    ensures LastOf(TrackBefore(trace, n + 1), kind) == LastOf(TrackBefore(trace, n), kind)
  {
    ReplayTo(trace, n);
    hide Observe, Replay;
    LastStep(Replay(trace[..n]), trace[n].sample, kind);
    assert LastOf(NewTrack, kind) == None;
  }

  /** Three samples in a row with the trend, with the evidence before them and the cooldown over, raise the
      alert at the third or earlier. An approach has to have cooled down at the first of them. */
  lemma ThreeRaise(trace: seq<Event>, j: nat, kind: Kind)
    requires InTime(trace) && 2 <= j < |trace|
    requires Shows(trace, j - 2, kind) && Shows(trace, j - 1, kind) && Shows(trace, j, kind)
    requires Ready(trace, j - 2, kind) && CooledDown(trace, j - 2, if kind == Approach then j - 2 else j, kind)
    ensures AlertAt(trace, j - 2, kind) || AlertAt(trace, j - 1, kind) || AlertAt(trace, j, kind)
  {
    hide Replay, AlertAt, Compatible, Shows, InTime, Ready, LastOf, MatchesOf, Armed, CooledDown;
    CompatibleExactly(trace, j - 2, kind);
    CompatibleExactly(trace, j - 1, kind);
    CompatibleExactly(trace, j, kind);
    if !AlertAt(trace, j - 2, kind) && !AlertAt(trace, j - 1, kind) {
      ReadyIsArmed(trace, j - 2, kind);
      StaysArmed(trace, j - 2, kind);
      StaysArmed(trace, j - 1, kind);
      ArmedStep(trace, j, kind);
      CompatibleIsSeen(trace, j - 2, kind);
      CompatibleIsSeen(trace, j - 1, kind);
      LastStays(trace, j - 2, kind);
      LastStays(trace, j - 1, kind);
      if kind != Approach {
        CooledDownIsCooled(trace, j - 2, j, kind);
      } else {
        ArmedIsCooled(trace, j);
      }
    }
  }

  lemma CompatibleIsSeen(trace: seq<Event>, n: nat, kind: Kind)
    requires Compatible(trace, n, kind)
    ensures trace[n].Seen?
  {
    hide Derive, Replay;
  }

  lemma ArmedIsCooled(trace: seq<Event>, n: nat)
    requires n < |trace| && Armed(trace, n, Approach)
    ensures Cooled(LastOf(TrackBefore(trace, n), Approach), When(trace[n]))
  {
    hide Replay;
  }

  // ---------- same-kind alerts keep their distance ----------

  function LastOf(t: Track, kind: Kind): Option<int> {
    match kind
    case Takeoff => t.lastTakeoff
    case Landing => t.lastLanding
    case Approach => t.lastApproach
  }

  lemma LastStep(t: Option<Track>, s: Sample, kind: Kind)
    ensures var before := if t.Some? then LastOf(t.value, kind) else None;
            && (Raises(t, Seen(s), kind) ==> Cooled(before, s.now))
            && LastOf(Observe(t, s).track, kind) == if Raises(t, Seen(s), kind) then Some(s.now) else before
    ensures Observe(t, s).track.lastSeen == s.now
  {
    hide Depart, Land, Approaching, Derive, OnGroundNear, LowAirborneNear, Cooled;
    if s.hasPosition {
      var u := if t.Some? then t.value else NewTrack;
      var d := Derive(u, s);
      var t1 := Depart(Mark(u, s), s, d).0;
      var t2 := Land(t1, s).0;
      DepartLast(Mark(u, s), s, d);
      LandLast(t1, s);
      ApproachLast(t2, s, d);
    }
  }

  predicate SameTimes(a: Track, b: Track, except: Kind) {
    && a.lastSeen == b.lastSeen
    && (except != Takeoff ==> a.lastTakeoff == b.lastTakeoff)
    && (except != Landing ==> a.lastLanding == b.lastLanding)
    && (except != Approach ==> a.lastApproach == b.lastApproach)
  }

  lemma DepartLast(t: Track, s: Sample, d: Trend)
    ensures var (u, alert) := Depart(t, s, d);
            && SameTimes(t, u, Takeoff) && (alert ==> Cooled(t.lastTakeoff, s.now))
            && u.lastTakeoff == if alert then Some(s.now) else t.lastTakeoff
  {
  }

  lemma LandLast(t: Track, s: Sample)
    ensures var (u, alert) := Land(t, s);
            && SameTimes(t, u, Landing) && (alert ==> Cooled(t.lastLanding, s.now))
            && u.lastLanding == if alert then Some(s.now) else t.lastLanding
  {
  }

  lemma ApproachLast(t: Track, s: Sample, d: Trend)
    ensures var (u, alert) := Approaching(t, s, d);
            && SameTimes(t, u, Approach) && (alert ==> Cooled(t.lastApproach, s.now))
            && u.lastApproach == if alert then Some(s.now) else t.lastApproach
  {
  }

  /** Before event `n` an alert at time `at` is remembered, or the stale time has passed since. */
  ghost predicate Remembers(trace: seq<Event>, i: nat, n: nat, kind: Kind, at: int)
    requires n <= |trace|
  {
    var t := Replay(trace[..n]);
    || (t.Some? && LastOf(t.value, kind).Some? && at <= LastOf(t.value, kind).value && at <= t.value.lastSeen)
    || (exists p: nat :: i < p < n && When(trace[p]) > at + MOVEMENT_STALE_AFTER)
  }

  lemma {:induction false} AlertIsRemembered(trace: seq<Event>, i: nat, n: nat, kind: Kind)
    requires InTime(trace) && WellFormed(trace) && i < n <= |trace| && AlertAt(trace, i, kind)
    ensures Remembers(trace, i, n, kind, When(trace[i]))
    decreases n
  {
    hide Observe, Raises, Replay;
    ReplayTo(trace, n - 1);
    assert trace[..n - 1 + 1] == trace[..n];
    if trace[n - 1].Seen? {
      LastStep(Replay(trace[..n - 1]), trace[n - 1].sample, kind);
    }
    if n > i + 1 {
      AlertIsRemembered(trace, i, n - 1, kind);
      if p: nat :| i < p < n - 1 && When(trace[p]) > When(trace[i]) + MOVEMENT_STALE_AFTER {
        assert i < p < n;
      } else if trace[n - 1].Stale? {
        assert StaleNow(Replay(trace[..n - 1]), trace[n - 1].at);
        assert i < n - 1 < n && When(trace[n - 1]) > When(trace[i]) + MOVEMENT_STALE_AFTER;
      }
    } else {
      AlertIsSeen(trace, i, kind);
    }
  }

  lemma AlertIsSeen(trace: seq<Event>, i: nat, kind: Kind)
    requires AlertAt(trace, i, kind)
    ensures i < |trace| && trace[i].Seen?
  {
  }

  /** Two alerts of the same kind for one aircraft are at least ten minutes apart, even when the
      track was deleted as stale in between. */
  lemma AlertsKeepTheirDistance(trace: seq<Event>, i: nat, j: nat, kind: Kind)
    requires InTime(trace) && WellFormed(trace) && i < j && AlertAt(trace, i, kind) && AlertAt(trace, j, kind)
    ensures When(trace[j]) - When(trace[i]) >= 600_000_000_000
  {
    AlertIsSeen(trace, j, kind);
    hide Observe, Raises;
    AlertIsRemembered(trace, i, j, kind);
    LastStep(Replay(trace[..j]), trace[j].sample, kind);
    if p: nat :| i < p < j && When(trace[p]) > When(trace[i]) + MOVEMENT_STALE_AFTER {
      assert When(trace[p]) <= When(trace[j]);
    }
  }

  // ---------- calls ----------

  /** One aircraft of a snapshot. Only readsb reports count. */
  datatype Sighting = Sighting(icao: string, readsb: bool, sample: Sample)
  datatype Alert = Alert(icao: string, kind: Kind)

  function IcaoOf(x: Sighting): string {
    ToUpper(TrimSpace(x.icao))
  }

  predicate Names(x: Sighting, k: string) {
    x.readsb && IcaoOf(x) == k && k != ""
  }

  /** The sample of a sighting carries the time of its snapshot. */
  function At(x: Sighting, now: int): Event {
    Seen(x.sample.(now := now))
  }

  /** What a snapshot tells about one aircraft. */
  function Samples(sightings: seq<Sighting>, now: int, k: string): seq<Event> {
    if sightings == [] then [] else
    var x := sightings[|sightings| - 1];
    Samples(sightings[..|sightings| - 1], now, k) + if Names(x, k) then [At(x, now)] else []
  }

  function AlertCount(trace: seq<Event>, kind: Kind): nat {
    if trace == [] then 0 else
    var before := trace[..|trace| - 1];
    AlertCount(before, kind) + (if Raises(Replay(before), trace[|trace| - 1], kind) then 1 else 0)
  }

  /** One call of `Evaluate` on a snapshot. */
  datatype Call = Call(now: int, sightings: seq<Sighting>, alerts: seq<Alert>)

  /** A sighted aircraft's trace gains exactly its samples, unless it had no track and found no room;
      any other track goes exactly when it is stale. */
  ghost predicate Follows(before: seq<Event>, call: Call, after: seq<Event>, k: string) {
    var told := Samples(call.sightings, call.now, k);
    if told != [] then after == before + told || (after == before && Replay(before).None?)
    else after == if StaleNow(Replay(before), call.now) then before + [Stale(call.now)] else before
  }

  ghost predicate Announces(before: seq<Event>, call: Call, after: seq<Event>, k: string) {
    forall kind :: AlertCount(after, kind) == AlertCount(before, kind) + multiset(call.alerts)[Alert(k, kind)]
  }

  ghost predicate CallSpec(before: Marks, call: Call, after: Marks) {
    forall k ::
      && Follows(TraceOf(before, k), call, TraceOf(after, k), k)
      && Announces(TraceOf(before, k), call, TraceOf(after, k), k)
  }

  /** Snapshot times do not run backwards from one call to the next. */
  ghost predicate IsRun(marks: seq<Marks>, calls: seq<Call>) {
    && |marks| == |calls| + 1 && marks[0] == map[]
    && (forall c :: 0 <= c < |calls| ==> CallSpec(marks[c], calls[c], marks[c + 1]))
    && (forall c, d :: 0 <= c < d < |calls| ==> calls[c].now <= calls[d].now)
  }

  lemma CallAt(marks: seq<Marks>, calls: seq<Call>, c: nat, k: string)
    requires IsRun(marks, calls) && c < |calls|
    ensures Follows(TraceOf(marks[c], k), calls[c], TraceOf(marks[c + 1], k), k)
    ensures Announces(TraceOf(marks[c], k), calls[c], TraceOf(marks[c + 1], k), k)
  {
    hide Follows, Announces;
    assert CallSpec(marks[c], calls[c], marks[c + 1]);
  }

  lemma RunIsChain(marks: seq<Marks>, calls: seq<Call>)
    requires IsRun(marks, calls)
    ensures |marks| == |calls| + 1 && Chain(marks)
  {
    hide CallSpec, Samples, Replay;
    forall c | 0 <= c < |marks| - 1
      ensures Grows(marks[c], marks[c + 1])
    {
      forall k
        ensures TraceOf(marks[c], k) <= TraceOf(marks[c + 1], k)
      {
        CallAt(marks, calls, c, k);
      }
    }
  }

  lemma {:induction false} SampleIsReal(sightings: seq<Sighting>, now: int, k: string, p: nat) returns (x: nat)
    requires p < |Samples(sightings, now, k)|
    ensures x < |sightings| && Names(sightings[x], k) && Samples(sightings, now, k)[p] == At(sightings[x], now)
    decreases |sightings|
  {
    hide Names;
    var n := |sightings| - 1;
    if p < |Samples(sightings[..n], now, k)| {
      x := SampleIsReal(sightings[..n], now, k, p);
    } else {
      x := n;
    }
  }

  /** Every event of a call carries the call's time, and a sample in it is one of the snapshot. */
  lemma EventInCall(marks: seq<Marks>, calls: seq<Call>, c: nat, k: string, n: nat) returns (x: nat)
    requires IsRun(marks, calls) && Chain(marks) && c < |calls| && InCall(marks, k, c, n)
    ensures n < |TraceOf(marks[|calls|], k)| && When(TraceOf(marks[|calls|], k)[n]) == calls[c].now
    ensures TraceOf(marks[|calls|], k)[n].Seen? ==>
      && x < |calls[c].sightings| && Names(calls[c].sightings[x], k)
      && TraceOf(marks[|calls|], k)[n] == At(calls[c].sightings[x], calls[c].now)
    ensures TraceOf(marks[|calls|], k)[n].Seen? ==>
      |Gained(marks[c], marks[c + 1], k)| <= |Samples(calls[c].sightings, calls[c].now, k)|
  {
    hide IsRun, Chain, Samples, Replay, Names;
    RunIsChain(marks, calls);
    GainedAt(marks, k, c, n);
    CallAt(marks, calls, c, k);
    var p := n - |TraceOf(marks[c], k)|;
    var told := Samples(calls[c].sightings, calls[c].now, k);
    x := 0;
    if told != [] {
      assert Gained(marks[c], marks[c + 1], k) == told;
      x := SampleIsReal(calls[c].sightings, calls[c].now, k, p);
    } else {
      assert Gained(marks[c], marks[c + 1], k) == [Stale(calls[c].now)];
    }
  }

  // ---------- alerts and firings ----------

  lemma {:induction false} AlertExists(trace: seq<Event>, m: nat, n: nat, kind: Kind) returns (p: nat)
    requires m <= n <= |trace| && AlertCount(trace[..m], kind) < AlertCount(trace[..n], kind)
    ensures m <= p < n && AlertAt(trace, p, kind)
    decreases n
  {
    hide Raises, Replay;
    assert trace[..n][..n - 1] == trace[..n - 1];
    if AlertCount(trace[..m], kind) < AlertCount(trace[..n - 1], kind) {
      p := AlertExists(trace, m, n - 1, kind);
    } else {
      p := n - 1;
    }
  }

  lemma {:induction false} AlertCounts(trace: seq<Event>, m: nat, p: nat, n: nat, kind: Kind)
    requires m <= p < n <= |trace| && AlertAt(trace, p, kind)
    ensures AlertCount(trace[..m], kind) < AlertCount(trace[..n], kind)
    decreases n
  {
    hide Raises, Replay;
    assert trace[..n][..n - 1] == trace[..n - 1];
    if p < n - 1 {
      AlertCounts(trace, m, p, n - 1, kind);
    } else {
      AlertCountGrows(trace, m, n - 1, kind);
    }
  }

  lemma {:induction false} AlertCountGrows(trace: seq<Event>, m: nat, n: nat, kind: Kind)
    requires m <= n <= |trace|
    ensures AlertCount(trace[..m], kind) <= AlertCount(trace[..n], kind)
    decreases n
  {
    hide Raises, Replay;
    if m < n {
      assert trace[..n][..n - 1] == trace[..n - 1];
      AlertCountGrows(trace, m, n - 1, kind);
    }
  }

  /** An alert of a call is an alert among the events of that call, and the other way round. */
  lemma AlertInCall(marks: seq<Marks>, calls: seq<Call>, c: nat, k: string, kind: Kind) returns (n: nat)
    requires IsRun(marks, calls) && c < |calls| && Alert(k, kind) in calls[c].alerts
    ensures |marks| == |calls| + 1 && Chain(marks) && InCall(marks, k, c, n)
    ensures AlertAt(TraceOf(marks[|calls|], k), n, kind)
  {
    hide AlertCount, AlertAt, Follows, Chain, CallSpec;
    RunIsChain(marks, calls);
    CallAt(marks, calls, c, k);
    ChainGrows(marks, k, c, c + 1);
    ChainGrows(marks, k, c, |calls|);
    ChainGrows(marks, k, c + 1, |calls|);
    var trace, m, end := TraceOf(marks[|calls|], k), |TraceOf(marks[c], k)|, |TraceOf(marks[c + 1], k)|;
    assert trace[..m] == TraceOf(marks[c], k) && trace[..end] == TraceOf(marks[c + 1], k);
    n := AlertExists(trace, m, end, kind);
  }

  lemma AlertIsAnnounced(marks: seq<Marks>, calls: seq<Call>, c: nat, k: string, n: nat, kind: Kind)
    requires IsRun(marks, calls) && c < |calls| && InCall(marks, k, c, n)
    requires AlertAt(TraceOf(marks[|calls|], k), n, kind)
    ensures Alert(k, kind) in calls[c].alerts
  {
    hide AlertCount, AlertAt, Follows, Chain, CallSpec;
    RunIsChain(marks, calls);
    CallAt(marks, calls, c, k);
    ChainGrows(marks, k, c, |calls|);
    ChainGrows(marks, k, c + 1, |calls|);
    var trace, m, end := TraceOf(marks[|calls|], k), |TraceOf(marks[c], k)|, |TraceOf(marks[c + 1], k)|;
    assert trace[..m] == TraceOf(marks[c], k) && trace[..end] == TraceOf(marks[c + 1], k);
    AlertCounts(trace, m, n, end, kind);
  }

  // ---------- what any two calls guarantee ----------

  ghost predicate SightedOnGround(call: Call, k: string) {
    exists x :: 0 <= x < |call.sightings| && Names(call.sightings[x], k) && GroundAt([Seen(call.sightings[x].sample)], 0)
  }

  ghost predicate SightedLow(call: Call, k: string) {
    exists x :: 0 <= x < |call.sightings| && Names(call.sightings[x], k) && LowAt([Seen(call.sightings[x].sample)], 0)
  }

  predicate NamedTwice(call: Call, k: string) {
    |Samples(call.sightings, call.now, k)| >= 2
  }

  /** Two events of one call belong to two sightings. */
  lemma TwoInOneCall(marks: seq<Marks>, calls: seq<Call>, c: nat, k: string, m: nat, n: nat)
    requires IsRun(marks, calls) && Chain(marks) && c < |calls| && InCall(marks, k, c, m) && InCall(marks, k, c, n)
    requires m != n
    requires n < |TraceOf(marks[|calls|], k)| && TraceOf(marks[|calls|], k)[n].Seen?
    ensures NamedTwice(calls[c], k)
  {
    hide IsRun, Chain, Samples;
    RunIsChain(marks, calls);
    GainedAt(marks, k, c, m);
    GainedAt(marks, k, c, n);
    var x := EventInCall(marks, calls, c, k, n);
  }

  lemma SameSample(x: Sighting, now: int, trace: seq<Event>, p: nat)
    requires p < |trace| && trace[p] == At(x, now)
    ensures GroundAt(trace, p) == GroundAt([Seen(x.sample)], 0) && LowAt(trace, p) == LowAt([Seen(x.sample)], 0)
  {
  }

  /** A call that announces a departure follows a call that was shown the aircraft on the ground
      within 3 NM, not before the previous call `lo` that announced one (-1 if there is none). */
  lemma DepartureHasGroundCall(marks: seq<Marks>, calls: seq<Call>, lo: int, j: nat, k: string) returns (g: nat)
    requires IsRun(marks, calls) && -1 <= lo < j < |calls| && Alert(k, Takeoff) in calls[j].alerts
    requires lo >= 0 ==> Alert(k, Takeoff) in calls[lo].alerts
    ensures lo <= g <= j && SightedOnGround(calls[g], k)
    ensures (g == lo || g == j) ==> NamedTwice(calls[g], k)
  {
    hide IsRun, Chain, AlertAt, Replay, Names, NamedTwice;
    var n := AlertInCall(marks, calls, j, k, Takeoff);
    var trace, m := TraceOf(marks[|calls|], k), -1;
    if lo >= 0 {
      m := AlertInCall(marks, calls, lo, k, Takeoff);
      CallsInOrder(marks, k, lo, m, j, n);
    }
    DepartureNeedsGround(trace, m, n);
    var p: nat :| m < p < n && GroundAt(trace, p);
    g := CallBetween(marks, calls, lo, m, j, n, k, p);
    var x := EventInCall(marks, calls, g, k, p);
    SameSample(calls[g].sightings[x], calls[g].now, trace, p);
  }

  /** The call of a sample between two alerts. */
  lemma CallBetween(marks: seq<Marks>, calls: seq<Call>, lo: int, m: int, j: nat, n: nat, k: string, p: nat)
    returns (g: nat)
    requires IsRun(marks, calls) && Chain(marks) && -1 <= lo < j < |calls| && m < p < n && InCall(marks, k, j, n)
    requires lo >= 0 ==> m >= 0 && InCall(marks, k, lo, m)
    requires p < |TraceOf(marks[|calls|], k)| && TraceOf(marks[|calls|], k)[p].Seen?
    ensures lo <= g <= j && InCall(marks, k, g, p)
    ensures g == lo || g == j ==> NamedTwice(calls[g], k)
  {
    hide IsRun, Chain, NamedTwice;
    RunIsChain(marks, calls);
    var start := if lo >= 0 then lo else 0;
    NoEventsFirst(marks, k);
    g := CallOf(marks, k, start, j + 1, p);
    if g == j {
      TwoInOneCall(marks, calls, j, k, n, p);
    } else if g == lo {
      TwoInOneCall(marks, calls, lo, k, m, p);
    }
  }

  lemma NoEventsFirst(marks: seq<Marks>, k: string)
    requires Chain(marks)
    ensures TraceOf(marks[0], k) == []
  {
  }

  /** A call that announces a landing follows a call that was shown the aircraft low within 5 NM or
      announced its approach, not before the previous call `lo` that announced a landing. */
  lemma LandingHasFlightCall(marks: seq<Marks>, calls: seq<Call>, lo: int, j: nat, k: string) returns (g: nat)
    requires IsRun(marks, calls) && -1 <= lo < j < |calls| && Alert(k, Landing) in calls[j].alerts
    requires lo >= 0 ==> Alert(k, Landing) in calls[lo].alerts
    ensures lo <= g <= j && (SightedLow(calls[g], k) || Alert(k, Approach) in calls[g].alerts)
    ensures (g == lo || g == j) ==> NamedTwice(calls[g], k)
  {
    hide IsRun, Chain, AlertAt, Replay, Names, NamedTwice;
    var n := AlertInCall(marks, calls, j, k, Landing);
    var trace, m := TraceOf(marks[|calls|], k), -1;
    if lo >= 0 {
      m := AlertInCall(marks, calls, lo, k, Landing);
      CallsInOrder(marks, k, lo, m, j, n);
    }
    LandingNeedsFlight(trace, m, n);
    var p: nat :| m < p < n && AirborneAt(trace, p);
    if !LowAt(trace, p) {
      AlertIsSeen(trace, p, Approach);
    }
    g := CallBetween(marks, calls, lo, m, j, n, k, p);
    if LowAt(trace, p) {
      var x := EventInCall(marks, calls, g, k, p);
      SameSample(calls[g].sightings[x], calls[g].now, trace, p);
    } else {
      AlertIsAnnounced(marks, calls, g, k, p, Approach);
    }
  }

  /** The call was shown the aircraft with the trend that the alert kind is about. */
  ghost predicate ShownTrend(before: seq<Event>, call: Call, k: string, kind: Kind) {
    exists x :: 0 <= x < |call.sightings| && Names(call.sightings[x], k)
                && Shows(before + [At(call.sightings[x], call.now)], |before|, kind)
  }

  lemma {:induction false} PreviousOf(a: seq<Event>, b: seq<Event>, n: nat)
    requires n <= |a| && n <= |b| && a[..n] == b[..n]
    ensures Previous(a, n) == Previous(b, n)
  {
    if n > 0 {
      assert a[n - 1] == a[..n][n - 1] && b[n - 1] == b[..n][n - 1];
      assert a[..n][..n - 1] == a[..n - 1] && b[..n][..n - 1] == b[..n - 1];
      PreviousOf(a, b, n - 1);
    }
  }

  /** The one sample of an aircraft in a call. */
  lemma OneSample(marks: seq<Marks>, calls: seq<Call>, c: nat, k: string, n: nat, kind: Kind)
    requires IsRun(marks, calls) && Chain(marks) && c < |calls| && InCall(marks, k, c, n) && !NamedTwice(calls[c], k)
    requires Shows(TraceOf(marks[|calls|], k), n, kind)
    ensures |TraceOf(marks[c], k)| == n && |TraceOf(marks[c + 1], k)| == n + 1
    ensures ShownTrend(TraceOf(marks[c], k), calls[c], k, kind)
  {
    hide IsRun, Chain, Samples, Names, Climbs, Sinks, Recent, Hours;
    RunIsChain(marks, calls);
    GainedAt(marks, k, c, n);
    var x := EventInCall(marks, calls, c, k, n);
    ChainGrows(marks, k, c, c + 1);
    ChainGrows(marks, k, c, |calls|);
    ChainGrows(marks, k, c + 1, |calls|);
    var trace, before := TraceOf(marks[|calls|], k), TraceOf(marks[c], k);
    assert trace[..n] == before;
    PreviousOf(trace, before + [trace[n]], n);
  }

  /** A call that announces a movement is the third in a row that was shown the aircraft with that
      trend: between the three nothing happened to it. Every call names the aircraft at most once. */
  lemma ThreeCallsInARow(marks: seq<Marks>, calls: seq<Call>, j: nat, k: string, kind: Kind) returns (a: nat, b: nat)
    requires IsRun(marks, calls) && j < |calls| && Alert(k, kind) in calls[j].alerts
    requires forall c :: 0 <= c <= j ==> !NamedTwice(calls[c], k)
    ensures |marks| == |calls| + 1 && a < b < j
    ensures ShownTrend(TraceOf(marks[a], k), calls[a], k, kind) && ShownTrend(TraceOf(marks[b], k), calls[b], k, kind)
    ensures ShownTrend(TraceOf(marks[j], k), calls[j], k, kind)
    ensures forall c :: a < c < j && c != b ==> TraceOf(marks[c + 1], k) == TraceOf(marks[c], k)
  {
    hide IsRun, Chain, AlertAt, NamedTwice, Shows, InTime, ShownTrend;
    var n := AlertInCall(marks, calls, j, k, kind);
    TraceIsInTime(marks, calls, k);
    var trace := TraceOf(marks[|calls|], k);
    ThreeInARow(trace, n, kind);
    NoEventsFirst(marks, k);
    OneSample(marks, calls, j, k, n, kind);
    ChainGrows(marks, k, j, |calls|);
    b := CallOf(marks, k, 0, j, n - 1);
    OneSample(marks, calls, b, k, n - 1, kind);
    a := CallOf(marks, k, 0, b, n - 2);
    OneSample(marks, calls, a, k, n - 2, kind);
    forall c | a < c < j && c != b
      ensures TraceOf(marks[c + 1], k) == TraceOf(marks[c], k)
    {
      ChainGrows(marks, k, c, c + 1);
      if c < b {
        ChainGrows(marks, k, a + 1, c);
        ChainGrows(marks, k, c + 1, b);
      } else {
        ChainGrows(marks, k, b + 1, c);
        ChainGrows(marks, k, c + 1, j);
      }
    }
  }

  /** Three calls that are shown the trend, with nothing happening to the aircraft in between, the evidence
      before them and the cooldown over: one of them announces the movement. */
  lemma ThreeCallsRaise(marks: seq<Marks>, calls: seq<Call>, a: nat, b: nat, j: nat, k: string, n: nat, kind: Kind)
    requires IsRun(marks, calls) && |marks| == |calls| + 1 && a < b < j < |calls|
    requires InCall(marks, k, a, n) && InCall(marks, k, b, n + 1) && InCall(marks, k, j, n + 2)
    requires var trace := TraceOf(marks[|calls|], k);
             && n + 2 < |trace| && Shows(trace, n, kind) && Shows(trace, n + 1, kind) && Shows(trace, n + 2, kind)
             && Ready(trace, n, kind) && CooledDown(trace, n, if kind == Approach then n else n + 2, kind)
    ensures Alert(k, kind) in calls[a].alerts || Alert(k, kind) in calls[b].alerts || Alert(k, kind) in calls[j].alerts
  {
    hide IsRun, AlertAt, Shows, InTime, Ready, CooledDown;
    TraceIsInTime(marks, calls, k);
    var trace := TraceOf(marks[|calls|], k);
    ThreeRaise(trace, n + 2, kind);
    if AlertAt(trace, n, kind) {
      AlertIsAnnounced(marks, calls, a, k, n, kind);
    } else if AlertAt(trace, n + 1, kind) {
      AlertIsAnnounced(marks, calls, b, k, n + 1, kind);
    } else {
      AlertIsAnnounced(marks, calls, j, k, n + 2, kind);
    }
  }

  /** Two calls that announce the same kind of movement of one aircraft are ten minutes apart. */
  lemma CallsKeepTheirDistance(marks: seq<Marks>, calls: seq<Call>, i: nat, j: nat, k: string, kind: Kind)
    requires IsRun(marks, calls) && i < j < |calls|
    requires Alert(k, kind) in calls[i].alerts && Alert(k, kind) in calls[j].alerts
    ensures calls[j].now - calls[i].now >= 600_000_000_000
  {
    hide Chain, AlertAt, Replay, Names, CallSpec, WellFormed;
    var m := AlertInCall(marks, calls, i, k, kind);
    var n := AlertInCall(marks, calls, j, k, kind);
    CallsInOrder(marks, k, i, m, j, n);
    TraceIsWellFormed(marks, calls, |calls|, k);
    TraceIsInTime(marks, calls, k);
    AlertsKeepTheirDistance(TraceOf(marks[|calls|], k), m, n, kind);
    var _ := EventInCall(marks, calls, i, k, m);
    var _ := EventInCall(marks, calls, j, k, n);
  }

  lemma TraceIsInTime(marks: seq<Marks>, calls: seq<Call>, k: string)
    requires IsRun(marks, calls)
    ensures InTime(TraceOf(marks[|calls|], k))
  {
    hide Chain, CallSpec, Names;
    RunIsChain(marks, calls);
    NoEventsFirst(marks, k);
    var trace := TraceOf(marks[|calls|], k);
    forall m, n | 0 <= m < n < |trace|
      ensures When(trace[m]) <= When(trace[n])
    {
      var c := CallOf(marks, k, 0, |calls|, m);
      var d := CallOf(marks, k, 0, |calls|, n);
      CallsInOrder(marks, k, c, m, d, n);
      var _ := EventInCall(marks, calls, c, k, m);
      var _ := EventInCall(marks, calls, d, k, n);
    }
  }

  lemma {:induction false} TraceIsWellFormed(marks: seq<Marks>, calls: seq<Call>, c: nat, k: string)
    requires IsRun(marks, calls) && c <= |calls|
    ensures WellFormed(TraceOf(marks[c], k))
    decreases c
  {
    hide CallSpec, Replay, Samples, StaleNow, AlertCount, Raises;
    if c > 0 {
      hide WellFormed;
      TraceIsWellFormed(marks, calls, c - 1, k);
      CallAt(marks, calls, c - 1, k);
      var before, now := TraceOf(marks[c - 1], k), calls[c - 1].now;
      TraceNext(before, Stale(now), Takeoff);
      SamplesAreSeen(calls[c - 1].sightings, now, k);
      SeenKeepsWellFormed(before, Samples(calls[c - 1].sightings, now, k));
    }
  }

  lemma {:induction false} SamplesAreSeen(sightings: seq<Sighting>, now: int, k: string)
    ensures forall p :: 0 <= p < |Samples(sightings, now, k)| ==> Samples(sightings, now, k)[p].Seen?
    decreases |sightings|
  {
    if sightings != [] {
      SamplesAreSeen(sightings[..|sightings| - 1], now, k);
    }
  }

  lemma {:induction false} SeenKeepsWellFormed(before: seq<Event>, told: seq<Event>)
    requires WellFormed(before) && forall p :: 0 <= p < |told| ==> told[p].Seen?
    ensures WellFormed(before + told)
    decreases |told|
  {
    hide WellFormed, Replay;
    if told == [] {
      assert before + told == before;
    } else {
      var n := |told| - 1;
      SeenKeepsWellFormed(before, told[..n]);
      TraceNext(before + told[..n], told[n], Takeoff);
      assert before + told == before + told[..n] + [told[n]];
    }
  }

  lemma TraceNext(trace: seq<Event>, e: Event, kind: Kind)
    ensures Replay(trace + [e]) == Step(Replay(trace), e)
    ensures AlertCount(trace + [e], kind) == AlertCount(trace, kind) + (if Raises(Replay(trace), e, kind) then 1 else 0)
    ensures WellFormed(trace) && (e.Stale? ==> StaleNow(Replay(trace), e.at)) ==> WellFormed(trace + [e])
  {
    hide Observe, StaleNow;
    var more := trace + [e];
    assert more[..|trace|] == trace;
    assert forall n :: 0 <= n <= |trace| ==> more[..n] == trace[..n];
  }

  // ---------- the monitor ----------

  function NewAlerts(icao: string, o: Outcome): seq<Alert> {
    (if o.takeoff then [Alert(icao, Takeoff)] else []) + (if o.landing then [Alert(icao, Landing)] else [])
    + (if o.approach then [Alert(icao, Approach)] else [])
  }

  lemma NewAlertsCount(t: Option<Track>, icao: string, s: Sample, a: Alert)
    ensures multiset(NewAlerts(icao, Observe(t, s)))[a] == if a.icao == icao && Raises(t, Seen(s), a.kind) then 1 else 0
  {
    hide Observe;
    match a.kind {
      case Takeoff =>
      case Landing =>
      case Approach =>
    }
  }

  /** Every track is what its trace leads to. */
  ghost predicate Explains(traces: Marks, tracks: map<string, Track>) {
    forall k :: Find(tracks, k) == Replay(TraceOf(traces, k))
  }

  /** The alerts are exactly those of the events the traces have gained. */
  ghost predicate Raised(before: Marks, after: Marks, alerts: seq<Alert>) {
    forall a: Alert ::
      AlertCount(TraceOf(after, a.icao), a.kind) == AlertCount(TraceOf(before, a.icao), a.kind) + multiset(alerts)[a]
  }

  lemma LogExplains(traces: Marks, tracks: map<string, Track>, next: map<string, Track>, k: string, e: Event)
    requires Explains(traces, tracks)
    requires forall j :: Find(next, j) == if j == k then Step(Find(tracks, k), e) else Find(tracks, j)
    ensures Explains(Logged(traces, k, e), next)
  {
    hide Replay, Step, TraceOf, Find, WellFormed, AlertCount, Raises;
    forall j
      ensures Find(next, j) == Replay(TraceOf(Logged(traces, k, e), j))
    {
      TraceAfter(traces, k, e, j);
      TraceNext(TraceOf(traces, k), e, Takeoff);
    }
  }

  lemma LogRaises(start: Marks, traces: Marks, alerts: seq<Alert>, gained: seq<Alert>,
                  k: string, e: Event)
    requires Raised(start, traces, alerts)
    requires forall a: Alert :: multiset(gained)[a] == if a.icao == k && Raises(Replay(TraceOf(traces, k)), e,
                                                                                a.kind) then 1 else 0
    ensures Raised(start, Logged(traces, k, e), alerts + gained)
  {
    hide Replay, TraceOf, WellFormed, AlertCount, Raises;
    forall a: Alert
      ensures AlertCount(TraceOf(Logged(traces, k, e), a.icao), a.kind) ==
        AlertCount(TraceOf(start, a.icao), a.kind) + multiset(alerts + gained)[a]
    {
      TraceAfter(traces, k, e, a.icao);
      TraceNext(TraceOf(traces, k), e, a.kind);
      CountConcat(alerts, gained, a);
    }
  }

  /** The tracked aircraft have gained exactly their samples; an aircraft without a track was not
      sighted or found no room. */
  ghost predicate Heard(start: Marks, traces: Marks, tracks: map<string, Track>,
                        sightings: seq<Sighting>, now: int)
  {
    forall k :: HeardOf(TraceOf(start, k), TraceOf(traces, k), tracks, Samples(sightings, now, k), k)
  }

  ghost predicate HeardOf(start: seq<Event>, trace: seq<Event>, tracks: map<string, Track>, told: seq<Event>,
                          k: string) {
    && trace == (if k in tracks then start + told else start)
    && (k !in tracks && told != [] ==> |tracks| >= MAX_MOVEMENT_TRACKS)
  }

  lemma HeardNothing(traces: Marks, tracks: map<string, Track>, now: int)
    ensures Heard(traces, traces, tracks, [], now)
  {
  }

  /** A sighting finds its aircraft tracked, or room for a track. */
  predicate Fits(x: Sighting, tracks: map<string, Track>) {
    Names(x, IcaoOf(x)) && (IcaoOf(x) in tracks || |tracks| < MAX_MOVEMENT_TRACKS)
  }

  lemma SamplesNext(sightings: seq<Sighting>, now: int, n: nat, k: string)
    requires n < |sightings|
    ensures Samples(sightings[..n + 1], now, k) ==
      Samples(sightings[..n], now, k) + if Names(sightings[n], k) then [At(sightings[n], now)] else []
  {
    hide Names;
    assert sightings[..n + 1][..n] == sightings[..n];
  }

  /** What one sighting does to the tracks and traces. */
  predicate Takes(x: Sighting, now: int, traces: Marks, tracks: map<string, Track>, after: Marks, next: map<string, Track>) {
    if Fits(x, tracks) then
      next.Keys == tracks.Keys + {IcaoOf(x)} && |next| >= |tracks| && after == Logged(traces, IcaoOf(x), At(x, now))
    else next == tracks && after == traces
  }

  lemma HeardNextOf(start: Marks, traces: Marks, tracks: map<string, Track>, after: Marks, next: map<string, Track>,
                    sightings: seq<Sighting>, now: int, n: nat, k: string)
    requires n < |sightings| && Takes(sightings[n], now, traces, tracks, after, next)
    requires HeardOf(TraceOf(start, k), TraceOf(traces, k), tracks, Samples(sightings[..n], now, k), k)
    ensures HeardOf(TraceOf(start, k), TraceOf(after, k), next, Samples(sightings[..n + 1], now, k), k)
  {
    hide Samples, TraceOf, IcaoOf, Logged;
    SamplesNext(sightings, now, n, k);
    TraceAfter(traces, IcaoOf(sightings[n]), At(sightings[n], now), k);
  }

  lemma HeardNext(start: Marks, traces: Marks, tracks: map<string, Track>,
                  after: Marks, next: map<string, Track>, sightings: seq<Sighting>, now: int, n: nat)
    requires n < |sightings| && Heard(start, traces, tracks, sightings[..n], now)
    requires Takes(sightings[n], now, traces, tracks, after, next)
    ensures Heard(start, after, next, sightings[..n + 1], now)
  {
    hide Samples, TraceOf, Takes, HeardOf;
    forall k
      ensures HeardOf(TraceOf(start, k), TraceOf(after, k), next, Samples(sightings[..n + 1], now, k), k)
    {
      HeardNextOf(start, traces, tracks, after, next, sightings, now, n, k);
    }
  }

  class MovementMonitor {
    var tracks: map<string, Track>
    ghost var traces: Marks

    ghost predicate Valid()
      reads this
    {
      Explains(traces, tracks)
    }

    constructor ()
      ensures Valid() && tracks == map[] && traces == map[]
    {
      tracks, traces := map[], map[];
    }

    /** The body of the aircraft loop: ignored without a readsb report, an ICAO or room for a track;
        otherwise this aircraft's track takes the step of the sample, and no other track changes. */
    method EvaluateSighting(x: Sighting, now: int, alerts: seq<Alert>) returns (raised: seq<Alert>)
      requires Valid()
      modifies this
      ensures Valid()
      ensures !Fits(x, old(tracks)) ==> raised == alerts && tracks == old(tracks) && traces == old(traces)
      ensures Fits(x, old(tracks)) ==>
        var outcome := Observe(Find(old(tracks), IcaoOf(x)), At(x, now).sample);
        && tracks == old(tracks)[IcaoOf(x) := outcome.track]
        && traces == Logged(old(traces), IcaoOf(x), At(x, now))
        && raised == alerts + NewAlerts(IcaoOf(x), outcome)
    {
      hide Observe, Explains, NewAlerts, ToUpper, TrimSpace;
      raised := alerts;
      var icao := ToUpper(TrimSpace(x.icao));
      if !x.readsb || icao == "" {
        return;
      }
      if icao !in tracks && |tracks| >= MAX_MOVEMENT_TRACKS {
        return;
      }
      ghost var before := tracks;
      var outcome := Observe(Find(tracks, icao), x.sample.(now := now));
      raised := alerts + NewAlerts(icao, outcome);
      tracks := tracks[icao := outcome.track];
      LogExplains(traces, before, tracks, icao, At(x, now));
      traces := Logged(traces, icao, At(x, now));
    }

    /** The loop over the aircraft; `seen` are those that were sighted and have a track. */
    method EvaluateAll(now: int, sightings: seq<Sighting>) returns (alerts: seq<Alert>, seen: set<string>)
      requires Valid()
      modifies this
      ensures Valid() && Raised(old(traces), traces, alerts) && Heard(old(traces), traces, tracks, sightings, now)
      ensures forall k :: k in seen <==> k in tracks && Samples(sightings, now, k) != []
      ensures old(tracks).Keys <= tracks.Keys <= old(tracks).Keys + seen
      ensures |tracks| <= if |old(tracks)| > MAX_MOVEMENT_TRACKS then |old(tracks)| else MAX_MOVEMENT_TRACKS
    {
      hide Explains, Raised, Heard, Observe, NewAlerts, Names, Logged, IcaoOf, Samples, At;
      alerts, seen := [], {};
      ghost var start := traces;
      HeardNothing(traces, tracks, now);
      NothingRaised(traces);
      assert forall k :: Samples([], now, k) == [] by { SamplesOfNone(now); }
      for n := 0 to |sightings|
        invariant Valid() && Raised(start, traces, alerts) && Heard(start, traces, tracks, sightings[..n], now)
        invariant forall k :: k in seen <==> k in tracks && Samples(sightings[..n], now, k) != []
        invariant old(tracks).Keys <= tracks.Keys <= old(tracks).Keys + seen
        invariant |tracks| <= if |old(tracks)| > MAX_MOVEMENT_TRACKS then |old(tracks)| else MAX_MOVEMENT_TRACKS
      {
        var x := sightings[n];
        var fits := Fits(x, tracks);
        ghost var was, before := traces, tracks;
        SightingRaises(start, traces, tracks, alerts, x, now);
        alerts := EvaluateSighting(x, now, alerts);
        if fits {
          seen := seen + {IcaoOf(x)};
          KeysAdded(before, IcaoOf(x), tracks[IcaoOf(x)]);
        }
        HeardNext(start, was, before, traces, tracks, sightings, now, n);
        forall k
          ensures k in seen <==> k in tracks && Samples(sightings[..n + 1], now, k) != []
        {
          SamplesNext(sightings, now, n, k);
          NamesOne(x, k);
        }
      }
      assert sightings[..|sightings|] == sightings;
    }

    method Delete(key: string, now: int)
      requires Valid() && key in tracks
      modifies this
      ensures Valid() && tracks == old(tracks) - {key} && traces == Logged(old(traces), key, Stale(now))
    {
      hide Explains;
      ghost var before := tracks;
      tracks := tracks - {key};
      LogExplains(traces, before, tracks, key, Stale(now));
      traces := Logged(traces, key, Stale(now));
    }

    /** The closing loop: tracks that were not in this snapshot go once they are stale. */
    method DropStale(now: int, seen: set<string>)
      requires Valid()
      modifies this
      ensures Valid()
      ensures forall k :: k in tracks <==> k in old(tracks) && (k in seen || now - old(tracks)[k].lastSeen <= 1_800_000_000_000)
      ensures forall k :: k in tracks ==> tracks[k] == old(tracks)[k]
      ensures |tracks| <= |old(tracks)| && Removed(old(traces), traces, old(tracks), tracks, Stale(now))
    {
      hide Valid, Removed, Logged;
      RemovedNone(traces, tracks, Stale(now));
      var rest := tracks.Keys - seen;
      while rest != {}
        invariant rest <= tracks.Keys - seen && Valid()
        invariant forall k :: k in tracks <==>
          k in old(tracks) && (k in seen || k in rest || now - old(tracks)[k].lastSeen <= MOVEMENT_STALE_AFTER)
        invariant forall k :: k in tracks ==> tracks[k] == old(tracks)[k]
        invariant |tracks| <= |old(tracks)| && Removed(old(traces), traces, old(tracks), tracks, Stale(now))
        decreases |rest|
      {
        var key :| key in rest;
        rest := rest - {key};
        if now - tracks[key].lastSeen > MOVEMENT_STALE_AFTER {
          assert tracks.Keys == (tracks - {key}).Keys + {key};
          RemoveOne(old(traces), traces, old(tracks), tracks, key, Stale(now));
          Delete(key, now);
        }
      }
    }

    /** One snapshot. An aircraft is passed over only while the table is full of others. */
    method Evaluate(now: int, sightings: seq<Sighting>) returns (alerts: seq<Alert>)
      requires Valid()
      modifies this
      ensures Valid() && CallSpec(old(traces), Call(now, sightings, alerts), traces)
      ensures |tracks| <= if |old(tracks)| > 1000 then |old(tracks)| else 1000
      ensures forall k :: k !in tracks && Samples(sightings, now, k) != [] ==> |old(tracks).Keys + tracks.Keys| >= 1000
    {
      hide Raised, Heard, Removed, Samples, Follows, Announces, Replay;
      ghost var start, began := traces, tracks;
      var seen;
      alerts, seen := EvaluateAll(now, sightings);
      ghost var told, full := traces, tracks;
      DropStale(now, seen);
      ghost var call := Call(now, sightings, alerts);
      forall k
        ensures Follows(TraceOf(start, k), call, TraceOf(traces, k), k)
        ensures Announces(TraceOf(start, k), call, TraceOf(traces, k), k)
      {
        CallOnKey(start, told, traces, began, full, tracks, seen, call, k);
      }
      forall k | k !in tracks && Samples(sightings, now, k) != []
        ensures |old(tracks).Keys + tracks.Keys| >= MAX_MOVEMENT_TRACKS
      {
        PassedOver(start, told, full, sightings, now, k);
        Subset(full.Keys, began.Keys + tracks.Keys);
      }
    }
  }

  lemma SightingRaises(start: Marks, traces: Marks, tracks: map<string, Track>,
                       alerts: seq<Alert>, x: Sighting, now: int)
    requires Raised(start, traces, alerts) && Explains(traces, tracks)
    ensures var outcome := Observe(Find(tracks, IcaoOf(x)), At(x, now).sample);
            Raised(start, Logged(traces, IcaoOf(x), At(x, now)), alerts + NewAlerts(IcaoOf(x), outcome))
  {
    hide Raised, Observe, NewAlerts, IcaoOf, Replay;
    var k := IcaoOf(x);
    var gained := NewAlerts(k, Observe(Find(tracks, k), At(x, now).sample));
    forall a: Alert
      ensures multiset(gained)[a] == if a.icao == k && Raises(Replay(TraceOf(traces, k)), At(x, now), a.kind) then 1 else 0
    {
      NewAlertsCount(Find(tracks, k), k, At(x, now).sample, a);
    }
    LogRaises(start, traces, alerts, gained, k, At(x, now));
  }

  lemma KeysAdded<T>(m: map<string, T>, k: string, v: T)
    ensures m[k := v].Keys == m.Keys + {k} && |m| <= |m[k := v]| <= |m| + 1 && (k in m ==> |m[k := v]| == |m|)
  {
  }

  lemma NamesOne(x: Sighting, k: string)
    ensures Names(x, k) ==> k == IcaoOf(x)
  {
  }

  /** The two loops together, on one aircraft. */
  lemma CallOnKey(start: Marks, told: Marks, after: Marks,
                  began: map<string, Track>, full: map<string, Track>, tracks: map<string, Track>,
                  seen: set<string>, call: Call, k: string)
    requires Explains(start, began) && Explains(told, full) && began.Keys <= full.Keys
    requires Heard(start, told, full, call.sightings, call.now) && Raised(start, told, call.alerts)
    requires Removed(told, after, full, tracks, Stale(call.now))
    requires k in seen <==> k in full && Samples(call.sightings, call.now, k) != []
    requires k in tracks <==> k in full && (k in seen || call.now - full[k].lastSeen <= MOVEMENT_STALE_AFTER)
    ensures Follows(TraceOf(start, k), call, TraceOf(after, k), k)
    ensures Announces(TraceOf(start, k), call, TraceOf(after, k), k)
  {
    hide Samples, Replay, AlertCount, TraceOf, Follows, WellFormed, Find;
    assert HeardOf(TraceOf(start, k), TraceOf(told, k), full, Samples(call.sightings, call.now, k), k);
    assert Find(began, k) == Replay(TraceOf(start, k)) && Find(full, k) == Replay(TraceOf(told, k));
    FollowsKey(TraceOf(start, k), TraceOf(told, k), TraceOf(after, k), began, full, tracks, call, k);
    forall kind
      ensures AlertCount(TraceOf(after, k), kind) == AlertCount(TraceOf(start, k), kind) + multiset(call.alerts)[Alert(k, kind)]
    {
      TraceNext(TraceOf(told, k), Stale(call.now), kind);
      assert Alert(k, kind).icao == k;
    }
  }

  lemma FollowsKey(start: seq<Event>, told: seq<Event>, after: seq<Event>, began: map<string, Track>,
                   full: map<string, Track>,
                   tracks: map<string, Track>, call: Call, k: string)
    requires Find(began, k) == Replay(start) && Find(full, k) == Replay(told) && began.Keys <= full.Keys
    requires HeardOf(start, told, full, Samples(call.sightings, call.now, k), k)
    requires after == if k in full && k !in tracks then told + [Stale(call.now)] else told
    requires k in tracks <==>
      k in full && (Samples(call.sightings, call.now, k) != [] || call.now - full[k].lastSeen <= MOVEMENT_STALE_AFTER)
    ensures Follows(start, call, after, k)
  {
    hide Samples, Replay;
    assert start + [] == start;
  }

  lemma PassedOver(start: Marks, told: Marks, full: map<string, Track>,
                   sightings: seq<Sighting>, now: int, k: string)
    requires Heard(start, told, full, sightings, now) && k !in full && Samples(sightings, now, k) != []
    ensures |full| >= MAX_MOVEMENT_TRACKS
  {
    hide Samples;
    assert HeardOf(TraceOf(start, k), TraceOf(told, k), full, Samples(sightings, now, k), k);
  }

  lemma SamplesOfNone(now: int)
    ensures forall k :: Samples([], now, k) == []
  {
  }

  lemma NothingRaised(traces: Marks)
    ensures Raised(traces, traces, [])
  {
  }
}
