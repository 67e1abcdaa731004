/** The values shared by several components. */
module Domain {
  import opened Text

  type FeederId = string

  const FEEDER_LOCAL: FeederId := "local"
  const FEEDER_ALL: FeederId := "all"

  /** One aircraft as a receiver reports it. `seen` is its age in nanoseconds. */
  datatype Aircraft = Aircraft(
    icao: string,
    callsign: string,
    registration: string,
    squawk: string,
    emergency: string,
    hasPosition: bool,
    messages: nat,
    seen: int,
    hasAltitude: bool,
    altitudeFeet: int,
    hasDistance: bool,
    distanceNM: real,
    seenBy: seq<FeederId>)

  predicate EmergencySquawk(squawk: string) {
    TrimSpace(squawk) in {"7500", "7600", "7700"}
  }

  predicate EmergencyActive(a: Aircraft) {
    var emergency := ToLower(TrimSpace(a.emergency));
    EmergencySquawk(a.squawk) || (emergency != "" && emergency != "none")
  }

  /** The manager's admission check: nonempty, trimmed, upper-case, strictly increasing ICAOs. */
  method ValidSnapshotAircraft(aircraft: seq<Aircraft>) returns (valid: bool)
    ensures valid <==> Admissible(aircraft)
  {
    var previous := "";
    for n := 0 to |aircraft|
      invariant Admissible(aircraft[..n])
      invariant previous == if n == 0 then "" else aircraft[n - 1].icao
    {
      var icao := aircraft[n].icao;
      if icao == "" || icao != TrimSpace(icao) || icao != ToUpper(icao)
         || (previous != "" && (previous == icao || Less(icao, previous))) {
        if n > 0 {
          LessAsymmetric(previous, icao);
          LessAsymmetric(icao, icao);
        }
        return false;
      }
      if n > 0 {
        LessTotal(previous, icao);
        forall i | 0 <= i < n - 1
          ensures Less(aircraft[i].icao, icao)
        {
          assert Less(aircraft[..n][i].icao, aircraft[..n][n - 1].icao);
          LessTransitive(aircraft[i].icao, previous, icao);
        }
      }
      assert aircraft[..n + 1] == aircraft[..n] + [aircraft[n]];
      previous := icao;
    }
    assert aircraft[..|aircraft|] == aircraft;
    return true;
  }

  ghost predicate Admissible(aircraft: seq<Aircraft>) {
    && (forall i :: 0 <= i < |aircraft| ==>
          var icao := aircraft[i].icao;
          icao != "" && icao == TrimSpace(icao) && icao == ToUpper(icao))
    && (forall i, j :: 0 <= i < j < |aircraft| ==> Less(aircraft[i].icao, aircraft[j].icao))
  }

  // ---------- feeder IDs ----------

  /** `NormalizeFeederID`: 1 to 48 lower-case letters, digits and hyphens after trimming. */
  function NormalizeFeederId(id: string): (r: Option<FeederId>)
    ensures r.Some? ==> 1 <= |r.value| <= 48 && TrimSpace(r.value) == r.value && ToLower(r.value) == r.value
  {
    var value := ToLower(TrimSpace(id));
    if 1 <= |value| <= 48 && forall i :: 0 <= i < |value| ==> FeederIdChar(value[i])
    then TrimSpaceTrims(value); Some(value) else None
  }

  predicate FeederIdChar(c: char) {
    'a' <= c <= 'z' || '0' <= c <= '9' || c == '-'
  }

  function Icaos(a: seq<Aircraft>): (r: seq<string>)
    ensures |r| == |a|
  {
    seq(|a|, i requires 0 <= i < |a| => a[i].icao)
  }
}
