/** The community aggregate: `FeederManager` and its two-pass `Rebuild`.

    `Rebuild` keeps one map entry per ICAO, assigns every entry a slice of one shared arena,
    and fills the arena in a second pass. The specification below knows nothing of that: it is
    a merge of the *set* of reports of the enabled feeders. */
module Aggregate {
  import opened Text
  import opened Domain

  datatype Snapshot = Snapshot(fetchedAt: int, aircraft: seq<Aircraft>)
  datatype Entry = Entry(enabled: bool, snapshot: Option<Snapshot>)
  datatype Community = Community(aircraft: seq<Aircraft>, byIcao: map<string, nat>)

  /** One feeder's report of one aircraft, with the absolute time it was seen. */
  datatype Report = Report(feeder: FeederId, at: int, aircraft: Aircraft)

  // ---------- the declarative merge ----------

  function SeenAt(s: Snapshot, a: Aircraft): int {
    s.fetchedAt - (if a.seen > 0 then a.seen else 0)
  }

  predicate Reporting(e: Entry) {
    e.enabled && e.snapshot.Some?
  }

  ghost function Reports(feeders: map<FeederId, Entry>): set<Report> {
    set id, i | id in feeders && Reporting(feeders[id]) && 0 <= i < |feeders[id].snapshot.value.aircraft|
      :: var s := feeders[id].snapshot.value; Report(id, SeenAt(s, s.aircraft[i]), s.aircraft[i])
  }

  /** `betterObservationAt`: later, then positioned, then more messages. */
  predicate Better(candidate: Report, current: Report) {
    if candidate.at != current.at then candidate.at > current.at
    else if candidate.aircraft.hasPosition != current.aircraft.hasPosition then candidate.aircraft.hasPosition
    else candidate.aircraft.messages > current.aircraft.messages
  }

  /** No report of the same aircraft is better, and equally good ones have larger feeder IDs. */
  ghost predicate IsBest(reports: set<Report>, best: Report) {
    && best in reports
    && forall o | o in reports && o.aircraft.icao == best.aircraft.icao && o != best ::
         Better(best, o) || (!Better(o, best) && Less(best.feeder, o.feeder))
  }

  /** The latest emergency report of its aircraft; equally late ones have larger feeder IDs. */
  ghost predicate IsLatestEmergency(reports: set<Report>, e: Report) {
    && e in reports && EmergencyActive(e.aircraft)
    && forall o | o in reports && o.aircraft.icao == e.aircraft.icao && EmergencyActive(o.aircraft) && o != e ::
         e.at > o.at || (e.at == o.at && Less(e.feeder, o.feeder))
  }

  ghost predicate InEmergency(reports: set<Report>, icao: string) {
    exists o :: o in reports && o.aircraft.icao == icao && EmergencyActive(o.aircraft)
  }

  /** `item` shows `best`, with squawk and emergency taken from the latest emergency report
      when `best` itself carries none. */
  ghost predicate Shows(reports: set<Report>, best: Report, item: Aircraft) {
    && IsBest(reports, best)
    && item == best.aircraft.(seenBy := item.seenBy, squawk := item.squawk, emergency := item.emergency)
    && if EmergencyActive(best.aircraft) || !InEmergency(reports, item.icao)
       then item.squawk == best.aircraft.squawk && item.emergency == best.aircraft.emergency
       else exists e :: IsLatestEmergency(reports, e) && Lends(e, item)
  }

  predicate Lends(e: Report, item: Aircraft) {
    e.aircraft.icao == item.icao && item.squawk == e.aircraft.squawk && item.emergency == e.aircraft.emergency
  }

  /** `item` is what the aggregate shows for its ICAO. */
  ghost predicate IsMergedItem(reports: set<Report>, item: Aircraft) {
    && (exists best :: Shows(reports, best, item))
    && Increasing(item.seenBy)
    && (forall id :: id in item.seenBy <==> exists o :: o in reports && o.aircraft.icao == item.icao && o.feeder == id)
  }

  ghost predicate IsMerge(reports: set<Report>, c: Community) {
    && (forall i, j :: 0 <= i < j < |c.aircraft| ==> Less(c.aircraft[i].icao, c.aircraft[j].icao))
    && (forall o :: o in reports ==> o.aircraft.icao in c.byIcao)
    && (forall icao :: icao in c.byIcao ==> c.byIcao[icao] < |c.aircraft| && c.aircraft[c.byIcao[icao]].icao == icao)
    && (forall i :: 0 <= i < |c.aircraft| ==> c.aircraft[i].icao in c.byIcao && c.byIcao[c.aircraft[i].icao] == i)
    && (forall i :: 0 <= i < |c.aircraft| ==> IsMergedItem(reports, c.aircraft[i]))
  }

  /** The merge is fully determined by the reports: the arena, map order and pass structure
      leave no freedom in the published view. */
  lemma MergeUnique(reports: set<Report>, c: Community, d: Community)
    requires IsMerge(reports, c) && IsMerge(reports, d)
    ensures c == d
  {
    hide IsMergedItem, Less;
    forall x
      ensures x in Icaos(c.aircraft) <==> x in Icaos(d.aircraft)
    {
      if x in Icaos(c.aircraft) {
        SameIcaos(reports, c, d, x);
      } else if x in Icaos(d.aircraft) {
        SameIcaos(reports, d, c, x);
      }
    }
    IncreasingUnique(Icaos(c.aircraft), Icaos(d.aircraft));
    forall i | 0 <= i < |c.aircraft|
      ensures c.aircraft[i] == d.aircraft[i]
    {
      assert Icaos(c.aircraft)[i] == Icaos(d.aircraft)[i];
      MergedItemUnique(reports, c.aircraft[i], d.aircraft[i]);
    }
    assert c.aircraft == d.aircraft;
    forall icao
      ensures icao in c.byIcao <==> icao in d.byIcao
      ensures icao in c.byIcao ==> c.byIcao[icao] == d.byIcao[icao]
    {
    }
  }

  lemma SameIcaos(reports: set<Report>, c: Community, d: Community, x: string)
    requires IsMerge(reports, c) && IsMerge(reports, d) && x in Icaos(c.aircraft)
    ensures x in Icaos(d.aircraft)
  {
    hide Less, IsBest, Lends;
    var i :| 0 <= i < |c.aircraft| && Icaos(c.aircraft)[i] == x;
    assert IsMergedItem(reports, c.aircraft[i]);
    var best :| Shows(reports, best, c.aircraft[i]);
    HasReport(reports, best, c.aircraft[i]);
    assert Icaos(d.aircraft)[d.byIcao[x]] == x;
  }

  lemma HasReport(reports: set<Report>, best: Report, item: Aircraft)
    requires Shows(reports, best, item)
    ensures best in reports && best.aircraft.icao == item.icao
  {
  }

  lemma MergedItemUnique(reports: set<Report>, x: Aircraft, y: Aircraft)
    requires IsMergedItem(reports, x) && IsMergedItem(reports, y) && x.icao == y.icao
    ensures x == y
  {
    IncreasingUnique(x.seenBy, y.seenBy);
    var b :| Shows(reports, b, x);
    var c :| Shows(reports, c, y);
    LessAsymmetric(b.feeder, c.feeder);
    assert b == c;
    if !EmergencyActive(b.aircraft) && InEmergency(reports, x.icao) {
      var e :| IsLatestEmergency(reports, e) && Lends(e, x);
      var f :| IsLatestEmergency(reports, f) && Lends(f, y);
      LessAsymmetric(e.feeder, f.feeder);
    }
  }

  /** An aircraft is shown in emergency exactly when some enabled feeder reports it so. */
  lemma EmergencyShownIffReported(reports: set<Report>, c: Community, i: nat)
    requires IsMerge(reports, c) && i < |c.aircraft|
    ensures EmergencyActive(c.aircraft[i]) <==> InEmergency(reports, c.aircraft[i].icao)
  {
    assert IsMergedItem(reports, c.aircraft[i]);
  }

  // ---------- what the merge means, field by field ----------

  /** The reports are those of the snapshots of enabled feeders, seen as long before the fetch as they
      say (a negative age counts as none). */
  lemma ReportsExactly(feeders: map<FeederId, Entry>, o: Report)
    ensures o in Reports(feeders) <==> ReportedBy(feeders, o)
  {
    if o in Reports(feeders) {
      var id, i :| id in feeders && Reporting(feeders[id]) && 0 <= i < |feeders[id].snapshot.value.aircraft|
                   && o == Report(id, SeenAt(feeders[id].snapshot.value, feeders[id].snapshot.value.aircraft[i]),
                                  feeders[id].snapshot.value.aircraft[i]);
      assert o.aircraft in feeders[o.feeder].snapshot.value.aircraft;
    }
  }

  predicate ReportedBy(feeders: map<FeederId, Entry>, o: Report) {
    && o.feeder in feeders && feeders[o.feeder].enabled && feeders[o.feeder].snapshot.Some?
    && o.aircraft in feeders[o.feeder].snapshot.value.aircraft
    && (o.aircraft.seen >= 0 ==> o.at + o.aircraft.seen == feeders[o.feeder].snapshot.value.fetchedAt)
    && (o.aircraft.seen < 0 ==> o.at == feeders[o.feeder].snapshot.value.fetchedAt)
  }

  /** `b` was seen no earlier than `o`; seen at the same time, it has a position if `o` has one; with the
      same kind of position it has no fewer messages; and in all else equal it is from the smaller feeder. */
  predicate NoStalerThan(b: Report, o: Report) {
    && o.at <= b.at
    && (o.at == b.at ==> o.aircraft.hasPosition ==> b.aircraft.hasPosition)
    && (o.at == b.at && o.aircraft.hasPosition == b.aircraft.hasPosition ==> o.aircraft.messages <= b.aircraft.messages)
    && (o.at == b.at && o.aircraft.hasPosition == b.aircraft.hasPosition && o.aircraft.messages == b.aircraft.messages && o != b ==>
          Less(b.feeder, o.feeder))
  }

  /** `item` shows report `b`, apart from what other reports lend it. */
  predicate ShowsReport(b: Report, item: Aircraft) {
    item == b.aircraft.(seenBy := item.seenBy, squawk := item.squawk, emergency := item.emergency)
  }

  ghost predicate ShowsFreshest(reports: set<Report>, item: Aircraft) {
    exists b :: b in reports && ShowsReport(b, item)
      && forall o :: o in reports && o.aircraft.icao == item.icao ==> NoStalerThan(b, o)
  }

  /** Every entry shows the freshest report of its aircraft. */
  lemma MergeShowsFreshest(reports: set<Report>, c: Community, i: nat)
    requires IsMerge(reports, c) && i < |c.aircraft|
    ensures ShowsFreshest(reports, c.aircraft[i])
  {
    hide Less, Lends, IsLatestEmergency, InEmergency;
    var item := c.aircraft[i];
    assert IsMergedItem(reports, item);
    var b :| Shows(reports, b, item);
    forall o | o in reports && o.aircraft.icao == item.icao
      ensures NoStalerThan(b, o)
    {
      assert o != b ==> Better(b, o) || (!Better(o, b) && Less(b.feeder, o.feeder));
    }
    assert ShowsReport(b, item);
  }

  // ---------- folds over the reports in processing order ----------

  function BestOf(r: seq<Report>, icao: string): Option<Report> {
    if r == [] then None else
    var before, o := BestOf(r[..|r| - 1], icao), r[|r| - 1];
    if o.aircraft.icao != icao then before
    else if before.None? || Better(o, before.value) then Some(o) else before
  }

  function EmergencyOf(r: seq<Report>, icao: string): Option<Report> {
    if r == [] then None else
    var before, o := EmergencyOf(r[..|r| - 1], icao), r[|r| - 1];
    if o.aircraft.icao != icao || !EmergencyActive(o.aircraft) then before
    else if before.None? || o.at > before.value.at then Some(o) else before
  }

  function SeenBy(r: seq<Report>, icao: string): seq<FeederId> {
    if r == [] then [] else
    SeenBy(r[..|r| - 1], icao) + (if r[|r| - 1].aircraft.icao == icao then [r[|r| - 1].feeder] else [])
  }

  /** Reports come feeder by feeder in increasing ID order, each ICAO once per feeder. */
  ghost predicate InFeederOrder(r: seq<Report>) {
    forall i, j :: 0 <= i < j < |r| && r[i].aircraft.icao == r[j].aircraft.icao ==> Less(r[i].feeder, r[j].feeder)
  }

  ghost function ToSet(r: seq<Report>): set<Report> {
    set o | o in r
  }

  /** Earlier reports of the last report's aircraft come from smaller feeder IDs. */
  lemma LastIsLargest(r: seq<Report>, x: Report)
    requires InFeederOrder(r) && r != [] && x in r[..|r| - 1]
    requires x.aircraft.icao == r[|r| - 1].aircraft.icao
    ensures Less(x.feeder, r[|r| - 1].feeder)
  {
    var i :| 0 <= i < |r| - 1 && r[..|r| - 1][i] == x;
    assert r[i] == x;
  }

  lemma {:induction false} BestOfIsBest(r: seq<Report>, icao: string)
    requires InFeederOrder(r)
    ensures BestOf(r, icao).None? <==> forall o :: o in r ==> o.aircraft.icao != icao
    ensures BestOf(r, icao).Some? ==> BestOf(r, icao).value.aircraft.icao == icao && IsBest(ToSet(r), BestOf(r, icao).value)
  {
    if r != [] {
      var before, o := r[..|r| - 1], r[|r| - 1];
      assert r == before + [o];
      BestOfIsBest(before, icao);
      var b := BestOf(r, icao);
      if b.Some? {
        forall x | x in ToSet(r) && x.aircraft.icao == icao && x != b.value
          ensures Better(b.value, x) || (!Better(x, b.value) && Less(b.value.feeder, x.feeder))
        {
          if x in before && b.value == o && BestOf(before, icao).value != x {
            assert x in ToSet(before);
          } else if x !in before {
            LastIsLargest(r, b.value);
          }
        }
      }
    }
  }

  lemma {:induction false} EmergencyOfIsLatest(r: seq<Report>, icao: string)
    requires InFeederOrder(r)
    ensures EmergencyOf(r, icao).None? <==> !InEmergency(ToSet(r), icao)
    ensures EmergencyOf(r, icao).Some? ==>
              EmergencyOf(r, icao).value.aircraft.icao == icao && IsLatestEmergency(ToSet(r), EmergencyOf(r, icao).value)
  {
    if r != [] {
      var before, o := r[..|r| - 1], r[|r| - 1];
      assert r == before + [o];
      EmergencyOfIsLatest(before, icao);
      var e := EmergencyOf(r, icao);
      if e.Some? {
        forall x | x in ToSet(r) && x.aircraft.icao == icao && EmergencyActive(x.aircraft) && x != e.value
          ensures e.value.at > x.at || (e.value.at == x.at && Less(e.value.feeder, x.feeder))
        {
          if x in before {
            assert x in ToSet(before);
          } else {
            LastIsLargest(r, e.value);
          }
        }
      }
    }
  }

  lemma {:induction false} SeenByIsSorted(r: seq<Report>, icao: string)
    requires InFeederOrder(r)
    ensures Increasing(SeenBy(r, icao))
    ensures forall id :: id in SeenBy(r, icao) <==>
      exists o :: o in ToSet(r) && o.aircraft.icao == icao && o.feeder == id
  {
    if r != [] {
      var before, o := r[..|r| - 1], r[|r| - 1];
      SeenByIsSorted(before, icao);
      assert r == before + [o];
      assert forall x :: x in before ==> exists i :: 0 <= i < |before| && r[i] == x;
      assert forall k :: 0 <= k < |SeenBy(before, icao)| ==> SeenBy(before, icao)[k] in SeenBy(before, icao);
    }
  }

  /** A prefix of the reports contributes a prefix of every SeenBy list. */
  lemma {:induction false} SeenByPrefix(r: seq<Report>, n: nat, icao: string)
    requires n <= |r|
    ensures SeenBy(r[..n], icao) <= SeenBy(r, icao)
    ensures n < |r| && r[n].aircraft.icao == icao ==>
              |SeenBy(r[..n], icao)| < |SeenBy(r, icao)| && SeenBy(r, icao)[|SeenBy(r[..n], icao)|] == r[n].feeder
    decreases |r|
  {
    if n < |r| {
      SeenByPrefix(r[..|r| - 1], n, icao);
      assert r[..|r| - 1][..n] == r[..n];
    } else {
      assert r[..n] == r;
    }
  }

  // ---------- inputs in feeder order ----------

  datatype Input = Input(id: FeederId, snapshot: Snapshot)

  function InputReports(input: Input, n: nat): seq<Report>
    requires n <= |input.snapshot.aircraft|
  {
    seq(n, i requires 0 <= i < n =>
      Report(input.id, SeenAt(input.snapshot, input.snapshot.aircraft[i]), input.snapshot.aircraft[i]))
  }

  function Flatten(inputs: seq<Input>): seq<Report> {
    if inputs == [] then [] else
    var last := inputs[|inputs| - 1];
    Flatten(inputs[..|inputs| - 1]) + InputReports(last, |last.snapshot.aircraft|)
  }

  lemma {:induction false} FlattenMember(inputs: seq<Input>, o: Report)
    ensures o in Flatten(inputs) <==>
            exists k, i :: 0 <= k < |inputs| && 0 <= i < |inputs[k].snapshot.aircraft|
                           && o == Report(inputs[k].id, SeenAt(inputs[k].snapshot, inputs[k].snapshot.aircraft[i]),
                                          inputs[k].snapshot.aircraft[i])
  {
    if inputs != [] {
      var init, last := inputs[..|inputs| - 1], inputs[|inputs| - 1];
      FlattenMember(init, o);
      var mine := InputReports(last, |last.snapshot.aircraft|);
      if o in mine {
        var i :| 0 <= i < |mine| && mine[i] == o;
        assert inputs[|inputs| - 1] == last && 0 <= i < |last.snapshot.aircraft|;
      }
      if o in Flatten(init) {
        var k, i :| 0 <= k < |init| && 0 <= i < |init[k].snapshot.aircraft|
                    && o == Report(init[k].id, SeenAt(init[k].snapshot, init[k].snapshot.aircraft[i]), init[k].snapshot.aircraft[i]);
        assert inputs[k] == init[k];
      }
      forall k, i | 0 <= k < |inputs| && 0 <= i < |inputs[k].snapshot.aircraft|
                    && o == Report(inputs[k].id, SeenAt(inputs[k].snapshot, inputs[k].snapshot.aircraft[i]), inputs[k].snapshot.aircraft[i])
        ensures o in Flatten(inputs)
      {
        if k < |init| {
          assert inputs[k] == init[k];
        } else {
          assert mine[i] == o;
        }
      }
    }
  }

  ghost predicate OrderedInputs(inputs: seq<Input>) {
    && (forall i, j :: 0 <= i < j < |inputs| ==> Less(inputs[i].id, inputs[j].id))
    && (forall k :: 0 <= k < |inputs| ==> Admissible(inputs[k].snapshot.aircraft))
  }

  lemma {:induction false} FlattenInOrder(inputs: seq<Input>)
    requires OrderedInputs(inputs)
    ensures InFeederOrder(Flatten(inputs))
  {
    if inputs != [] {
      var init, last := inputs[..|inputs| - 1], inputs[|inputs| - 1];
      FlattenInOrder(init);
      var r, mine := Flatten(init), InputReports(last, |last.snapshot.aircraft|);
      var all: seq<Report> := r + mine;
      forall i, j | 0 <= i < j < |all| && all[i].aircraft.icao == all[j].aircraft.icao
        ensures Less(all[i].feeder, all[j].feeder)
      {
        if i < |r| <= j {
          FlattenMember(init, r[i]);
        } else if |r| <= i {
          LessAsymmetric(mine[i - |r|].aircraft.icao, mine[j - |r|].aircraft.icao);
        }
      }
    }
  }

  lemma FlattenNone(inputs: seq<Input>)
    ensures Flatten(inputs[..0]) == [] && Flatten(inputs)[..0] == []
  {
  }

  /** Where the reports of input `k` stand in the flattened list. */
  lemma {:induction false} FlattenAt(inputs: seq<Input>, k: nat)
    requires k < |inputs|
    ensures var mine := InputReports(inputs[k], |inputs[k].snapshot.aircraft|);
            Flatten(inputs[..k + 1]) == Flatten(inputs[..k]) + mine && Flatten(inputs[..k]) + mine <= Flatten(inputs)
    decreases |inputs|
  {
    assert inputs[..k + 1][..k] == inputs[..k];
    if k == |inputs| - 1 {
      assert inputs[..k + 1] == inputs;
    } else {
      FlattenAt(inputs[..|inputs| - 1], k);
      assert inputs[..|inputs| - 1][..k] == inputs[..k] && inputs[..|inputs| - 1][..k + 1] == inputs[..k + 1];
    }
  }

  // ---------- the two passes ----------

  /** The map entry of `Rebuild`: the chosen observation, the emergency fallback and the
      bookkeeping of the arena slice. */
  datatype Selected = Selected(best: Report, emergency: Option<Report>, seenOffset: nat, seenCount: nat,
                               seenCursor: nat)

  ghost predicate Summarises(chosen: map<string, Selected>, r: seq<Report>) {
    && (forall icao :: icao in chosen <==> BestOf(r, icao).Some?)
    && (forall icao :: icao in chosen ==> Summary(chosen[icao], r, icao))
  }

  ghost predicate Summary(v: Selected, r: seq<Report>, icao: string) {
    BestOf(r, icao) == Some(v.best) && v.emergency == EmergencyOf(r, icao) && v.seenCount == |SeenBy(r, icao)| && v.seenCursor == 0
  }

  /** The part of a summary that the second pass needs. */
  ghost predicate Counts(chosen: map<string, Selected>, r: seq<Report>) {
    && (forall n :: 0 <= n < |r| ==> r[n].aircraft.icao in chosen)
    && (forall icao :: icao in chosen ==> chosen[icao].seenCount == |SeenBy(r, icao)| && chosen[icao].seenCursor == 0)
  }

  lemma SummaryCounts(chosen: map<string, Selected>, r: seq<Report>)
    requires Summarises(chosen, r)
    ensures Counts(chosen, r)
  {
    forall n | 0 <= n < |r|
      ensures r[n].aircraft.icao in chosen
    {
      AlreadySelected(r, n);
    }
    forall icao | icao in chosen
      ensures chosen[icao].seenCount == |SeenBy(r, icao)| && chosen[icao].seenCursor == 0
    {
      assert Summary(chosen[icao], r, icao);
    }
  }

  ghost predicate KeysOf(keys: seq<string>, chosen: map<string, Selected>) {
    && Distinct(keys)
    && (forall n :: 0 <= n < |keys| ==> keys[n] in chosen)
    && (forall k :: k in chosen ==> k in keys)
  }

  method SelectBest(inputs: seq<Input>) returns (chosen: map<string, Selected>, keys: seq<string>)
    ensures Summarises(chosen, Flatten(inputs))
    ensures KeysOf(keys, chosen)
  {
    chosen, keys := map[], [];
    ghost var r: seq<Report> := [];
    for n := 0 to |inputs|
      invariant r == Flatten(inputs[..n])
      invariant Summarises(chosen, r) && KeysOf(keys, chosen)
    {
      var snapshot := inputs[n].snapshot;
      ghost var start := r;
      for index := 0 to |snapshot.aircraft|
        invariant r == start + InputReports(inputs[n], index)
        invariant Summarises(chosen, r) && KeysOf(keys, chosen)
      {
        var aircraft := snapshot.aircraft[index];
        var report := Report(inputs[n].id, SeenAt(snapshot, aircraft), aircraft);
        chosen, keys := SelectOne(chosen, keys, report, r);
        assert InputReports(inputs[n], index + 1) == InputReports(inputs[n], index) + [report];
        r := r + [report];
      }
      assert inputs[..n + 1][..n] == inputs[..n];
    }
    assert inputs[..|inputs|] == inputs;
  }

  /** The entry of the report's own ICAO, before and after the report. */
  function Updated(known: Option<Selected>, report: Report): Selected {
    var current := if known.Some? then known.value else Selected(report, None, 0, 0, 0);
    var counted := current.(seenCount := current.seenCount + 1);
    var alarmed := if EmergencyActive(report.aircraft) && (counted.emergency.None? || report.at > counted.emergency.value.at)
                   then counted.(emergency := Some(report)) else counted;
    if known.None? || Better(report, alarmed.best) then alarmed.(best := report) else alarmed
  }

  method SelectOne(chosen: map<string, Selected>, keys: seq<string>, report: Report, ghost r: seq<Report>)
    returns (next: map<string, Selected>, nextKeys: seq<string>)
    requires Summarises(chosen, r) && KeysOf(keys, chosen)
    ensures Summarises(next, r + [report]) && KeysOf(nextKeys, next)
  {
    hide Summarises, KeysOf, Better, EmergencyActive;
    var icao := report.aircraft.icao;
    var exists_ := icao in chosen;
    nextKeys := keys;
    var current := Selected(report, None, 0, 0, 0);
    if exists_ {
      current := chosen[icao];
    } else {
      nextKeys := keys + [icao];
    }
    current := current.(seenCount := current.seenCount + 1);
    if EmergencyActive(report.aircraft) && (current.emergency.None? || report.at > current.emergency.value.at) {
      current := current.(emergency := Some(report));
    }
    if !exists_ || Better(report, current.best) {
      current := current.(best := report);
    }
    next := chosen[icao := current];
    SummariesNext(chosen, r, report);
    SameKeys(keys, chosen, icao, current);
  }

  lemma SummariesNext(chosen: map<string, Selected>, r: seq<Report>, report: Report)
    requires Summarises(chosen, r)
    ensures var icao := report.aircraft.icao;
            Summarises(chosen[icao := Updated(if icao in chosen then Some(chosen[icao]) else None, report)],
                       r + [report])
  {
    hide BestOf, EmergencyOf, SeenBy, Summary, Updated;
    var icao := report.aircraft.icao;
    var next := chosen[icao := Updated(if icao in chosen then Some(chosen[icao]) else None, report)];
    forall k
      ensures k in next <==> BestOf(r + [report], k).Some?
      ensures k in next ==> Summary(next[k], r + [report], k)
    {
      if k == icao {
        OwnSummary(r, report, if icao in chosen then Some(chosen[icao]) else None);
      } else {
        OtherSummary(r, report, k);
      }
    }
  }

  lemma OtherSummary(r: seq<Report>, report: Report, k: string)
    requires k != report.aircraft.icao
    ensures BestOf(r + [report], k) == BestOf(r, k)
    ensures forall v :: Summary(v, r, k) ==> Summary(v, r + [report], k)
  {
    hide BestOf, EmergencyOf, SeenBy, Better, EmergencyActive;
    FoldsNext(r, report, k);
  }

  lemma OwnSummary(r: seq<Report>, report: Report, known: Option<Selected>)
    requires known.Some? <==> BestOf(r, report.aircraft.icao).Some?
    requires known.Some? ==> Summary(known.value, r, report.aircraft.icao)
    ensures Summary(Updated(known, report), r + [report], report.aircraft.icao)
    ensures BestOf(r + [report], report.aircraft.icao).Some?
  {
    hide BestOf, EmergencyOf, SeenBy, Better, EmergencyActive;
    FoldsNext(r, report, report.aircraft.icao);
    if known.None? {
      NothingSelected(r, report.aircraft.icao);
    }
  }

  lemma SameKeys(keys: seq<string>, chosen: map<string, Selected>, icao: string, v: Selected)
    requires KeysOf(keys, chosen)
    ensures KeysOf(if icao in chosen then keys else keys + [icao], chosen[icao := v])
  {
  }

  /** One more report, seen by the three folds. */
  lemma FoldsNext(r: seq<Report>, o: Report, k: string)
    ensures BestOf(r + [o], k) ==
      if o.aircraft.icao != k then BestOf(r, k)
      else if BestOf(r, k).None? || Better(o, BestOf(r, k).value) then Some(o) else BestOf(r, k)
    ensures EmergencyOf(r + [o], k) ==
      if o.aircraft.icao != k || !EmergencyActive(o.aircraft) then EmergencyOf(r, k)
      else if EmergencyOf(r, k).None? || o.at > EmergencyOf(r, k).value.at then Some(o) else EmergencyOf(r, k)
    ensures |SeenBy(r + [o], k)| == |SeenBy(r, k)| + if o.aircraft.icao == k then 1 else 0
  {
    hide Better, EmergencyActive;
    assert (r + [o])[..|r|] == r;
  }

  /** An ICAO without a best report has no emergency and nobody has seen it. */
  lemma {:induction false} NothingSelected(r: seq<Report>, icao: string)
    requires BestOf(r, icao).None?
    ensures EmergencyOf(r, icao).None? && SeenBy(r, icao) == []
  {
    if r != [] {
      NothingSelected(r[..|r| - 1], icao);
    }
  }

  function SliceEnd(v: Selected): nat {
    v.seenOffset + v.seenCount
  }

  /** The slices lie next to each other in key order and cover [0, total). */
  ghost predicate Tiles(keys: seq<string>, chosen: map<string, Selected>, total: nat)
    requires forall n :: 0 <= n < |keys| ==> keys[n] in chosen
  {
    && (forall i {:trigger EndBefore(keys, chosen, i)} :: 0 <= i < |keys| ==> chosen[keys[i]].seenOffset == EndBefore(keys, chosen, i))
    && total == EndBefore(keys, chosen, |keys|)
  }

  function EndBefore(keys: seq<string>, chosen: map<string, Selected>, i: nat): nat
    requires i <= |keys| && forall n :: 0 <= n < |keys| ==> keys[n] in chosen
  {
    if i == 0 then 0 else SliceEnd(chosen[keys[i - 1]])
  }

  lemma {:induction false} TilesOrdered(keys: seq<string>, chosen: map<string, Selected>, total: nat, i: nat, j: nat)
    requires forall n :: 0 <= n < |keys| ==> keys[n] in chosen
    requires Tiles(keys, chosen, total) && i < j <= |keys|
    ensures SliceEnd(chosen[keys[i]]) <= EndBefore(keys, chosen, j)
    decreases j
  {
    if i < j - 1 {
      TilesOrdered(keys, chosen, total, i, j - 1);
      assert chosen[keys[j - 1]].seenOffset == EndBefore(keys, chosen, j - 1);
    }
  }

  /** Two different entries never share an arena cell. */
  lemma SlicesDisjoint(keys: seq<string>, chosen: map<string, Selected>, total: nat, a: string, b: string)
    requires KeysOf(keys, chosen) && Tiles(keys, chosen, total)
    requires a in chosen && b in chosen && a != b
    ensures SliceEnd(chosen[a]) <= chosen[b].seenOffset || SliceEnd(chosen[b]) <= chosen[a].seenOffset
    ensures SliceEnd(chosen[a]) <= total
  {
    assert a in keys && b in keys;
    var i :| 0 <= i < |keys| && keys[i] == a;
    var j :| 0 <= j < |keys| && keys[j] == b;
    TilesOrdered(keys, chosen, total, i, |keys|);
    if i < j {
      TilesOrdered(keys, chosen, total, i, j);
    } else {
      TilesOrdered(keys, chosen, total, j, i);
    }
  }

  method AssignOffsets(chosen: map<string, Selected>, keys: seq<string>, ghost r: seq<Report>)
    returns (next: map<string, Selected>, total: nat)
    requires Summarises(chosen, r) && KeysOf(keys, chosen)
    ensures Summarises(next, r) && KeysOf(keys, next) && Tiles(keys, next, total)
  {
    next, total := chosen, 0;
    hide Summarises;
    for n := 0 to |keys|
      invariant SameButOffsets(next, chosen)
      invariant forall i :: 0 <= i < |keys| ==> keys[i] in next
      invariant TiledTo(keys, next, n) && total == EndBefore(keys, next, n)
    {
      ghost var before := next;
      var value := next[keys[n]].(seenOffset := total);
      total := total + value.seenCount;
      next := next[keys[n] := value];
      PlaceNext(keys, before, n, value);
    }
    OffsetsOnly(next, chosen, r);
  }

  ghost predicate SameButOffsets(a: map<string, Selected>, b: map<string, Selected>) {
    a.Keys == b.Keys && forall k :: k in a ==> a[k] == b[k].(seenOffset := a[k].seenOffset)
  }

  lemma OffsetsOnly(next: map<string, Selected>, chosen: map<string, Selected>, r: seq<Report>)
    requires Summarises(chosen, r) && SameButOffsets(next, chosen)
    ensures Summarises(next, r)
  {
    hide BestOf, EmergencyOf, SeenBy;
    forall k | k in next
      ensures Summary(next[k], r, k)
    {
      assert Summary(chosen[k], r, k);
    }
  }

  ghost predicate TiledTo(keys: seq<string>, chosen: map<string, Selected>, n: nat)
    requires n <= |keys| && forall i :: 0 <= i < |keys| ==> keys[i] in chosen
  {
    forall i {:trigger EndBefore(keys, chosen, i)} :: 0 <= i < n ==>
      chosen[keys[i]].seenOffset == EndBefore(keys, chosen, i)
  }

  lemma PlaceNext(keys: seq<string>, chosen: map<string, Selected>, n: nat, v: Selected)
    requires Distinct(keys) && (forall i :: 0 <= i < |keys| ==> keys[i] in chosen)
    requires n < |keys| && TiledTo(keys, chosen, n) && v.seenOffset == EndBefore(keys, chosen, n)
    ensures TiledTo(keys, chosen[keys[n] := v], n + 1) && EndBefore(keys, chosen[keys[n] := v], n + 1) == SliceEnd(v)
  {
    var next := chosen[keys[n] := v];
    forall i | 0 <= i <= n
      ensures EndBefore(keys, next, i) == EndBefore(keys, chosen, i)
    {
    }
  }

  /** `arena` holds the first `seenCursor` names of every slice. */
  ghost predicate Filled(chosen: map<string, Selected>, arena: seq<FeederId>, r: seq<Report>) {
    forall icao :: icao in chosen ==> Holds(chosen[icao], arena, SeenBy(r, icao))
  }

  ghost predicate Holds(v: Selected, arena: seq<FeederId>, names: seq<FeederId>) {
    && v.seenCursor == |names| <= v.seenCount
    && SliceEnd(v) <= |arena|
    && arena[v.seenOffset..v.seenOffset + v.seenCursor] == names
  }

  /** What pass two preserves of pass one. */
  ghost predicate SameSlices(a: map<string, Selected>, b: map<string, Selected>) {
    a.Keys == b.Keys && forall icao :: icao in a ==> a[icao] == b[icao].(seenCursor := a[icao].seenCursor)
  }

  method FillArena(inputs: seq<Input>, keys: seq<string>, chosen: map<string, Selected>, total: nat)
    returns (next: map<string, Selected>, arena: array<FeederId>)
    requires Counts(chosen, Flatten(inputs)) && KeysOf(keys, chosen) && Tiles(keys, chosen, total)
    ensures fresh(arena) && arena.Length == total
    ensures SameSlices(next, chosen)
    ensures Filled(next, arena[..], Flatten(inputs))
  {
    hide Filled, Counts, KeysOf, Tiles, Flatten;
    arena := new FeederId[total];
    next := chosen;
    ghost var all := Flatten(inputs);
    ghost var done := 0;
    NothingFilled(keys, chosen, arena[..], all);
    FlattenNone(inputs);
    for n := 0 to |inputs|
      invariant done == |Flatten(inputs[..n])| <= |all|
      invariant SameSlices(next, chosen) && Filled(next, arena[..], all[..done])
    {
      FlattenAt(inputs, n);
      next, done := PlaceInput(inputs[n], keys, chosen, next, arena, all, done);
    }
    assert inputs[..|inputs|] == inputs && all[..done] == all;
  }

  /** The inner loop of pass two: all reports of one feeder. */
  method PlaceInput(input: Input, ghost keys: seq<string>, ghost chosen: map<string, Selected>,
                    current: map<string, Selected>, arena: array<FeederId>, ghost all: seq<Report>, ghost start: nat)
    returns (next: map<string, Selected>, ghost done: nat)
    requires Counts(chosen, all) && KeysOf(keys, chosen) && Tiles(keys, chosen, arena.Length)
    requires start <= |all| && all[..start] + InputReports(input, |input.snapshot.aircraft|) <= all
    requires SameSlices(current, chosen) && Filled(current, arena[..], all[..start])
    modifies arena
    ensures done == start + |input.snapshot.aircraft| <= |all|
    ensures SameSlices(next, chosen) && Filled(next, arena[..], all[..done])
  {
    hide Filled, SameSlices, Counts, KeysOf, Tiles;
    next, done := current, start;
    for index := 0 to |input.snapshot.aircraft|
      invariant done == start + index <= |all|
      invariant SameSlices(next, chosen) && Filled(next, arena[..], all[..done])
    {
      assert all[done] == InputReports(input, |input.snapshot.aircraft|)[index];
      next := PlaceReport(input.snapshot.aircraft[index].icao, input.id, keys, chosen, next, arena, all, done);
      done := done + 1;
    }
  }

  lemma NothingFilled(keys: seq<string>, chosen: map<string, Selected>, arena: seq<FeederId>, all: seq<Report>)
    requires Counts(chosen, all) && KeysOf(keys, chosen) && Tiles(keys, chosen, |arena|)
    ensures Filled(chosen, arena, all[..0])
  {
    forall icao | icao in chosen
      ensures Holds(chosen[icao], arena, SeenBy(all[..0], icao))
    {
      var i :| 0 <= i < |keys| && keys[i] == icao;
      TilesOrdered(keys, chosen, |arena|, i, |keys|);
    }
  }

  method PlaceReport(icao: string, id: FeederId, ghost keys: seq<string>, ghost chosen: map<string, Selected>,
                     current: map<string, Selected>, arena: array<FeederId>, ghost all: seq<Report>, ghost done: nat)
    returns (next: map<string, Selected>)
    requires Counts(chosen, all) && KeysOf(keys, chosen) && Tiles(keys, chosen, arena.Length)
    requires done < |all| && all[done].aircraft.icao == icao && all[done].feeder == id
    requires SameSlices(current, chosen) && Filled(current, arena[..], all[..done])
    modifies arena
    ensures SameSlices(next, chosen) && Filled(next, arena[..], all[..done + 1])
  {
    SeenByPrefix(all, done, icao);
    var value := current[icao];
    assert Holds(value, arena[..], SeenBy(all[..done], icao));
    ghost var at := value.seenOffset + value.seenCursor;
    PlaceOne(keys, chosen, current, arena[..], all, done);
    ghost var after := arena[..][at := id];
    arena[value.seenOffset + value.seenCursor] := id;
    next := current[icao := value.(seenCursor := value.seenCursor + 1)];
    assert arena[..] == after;
  }

  lemma {:induction false} AlreadySelected(r: seq<Report>, n: nat)
    requires n < |r|
    ensures BestOf(r, r[n].aircraft.icao).Some?
    decreases |r|
  {
    if n < |r| - 1 {
      AlreadySelected(r[..|r| - 1], n);
    }
  }

  /** One write of pass two: it extends its own slice and disturbs no other. */
  lemma PlaceOne(keys: seq<string>, chosen: map<string, Selected>, next: map<string, Selected>,
                 before: seq<FeederId>, all: seq<Report>, n: nat)
    requires Counts(chosen, all) && KeysOf(keys, chosen) && Tiles(keys, chosen, |before|)
    requires n < |all| && SameSlices(next, chosen)
    requires Filled(next, before, all[..n])
    requires all[n].aircraft.icao in next
    requires Holds(next[all[n].aircraft.icao], before, SeenBy(all[..n], all[n].aircraft.icao))
    requires next[all[n].aircraft.icao].seenCursor < next[all[n].aircraft.icao].seenCount
    ensures var icao := all[n].aircraft.icao;
            var v := next[icao];
            var moved := next[icao := v.(seenCursor := v.seenCursor + 1)];
            && Filled(moved, before[v.seenOffset + v.seenCursor := all[n].feeder], all[..n + 1])
            && SameSlices(moved, chosen)
  {
    hide Counts;
    var after := before[next[all[n].aircraft.icao].seenOffset + next[all[n].aircraft.icao].seenCursor := all[n].feeder];
    var icao := all[n].aircraft.icao;
    var v := next[icao];
    assert all[..n + 1][..n] == all[..n] && all[..n + 1][n] == all[n];
    var moved := next[icao := v.(seenCursor := v.seenCursor + 1)];
    forall k | k in moved
      ensures Holds(moved[k], after, SeenBy(all[..n + 1], k))
    {
      assert Holds(next[k], before, SeenBy(all[..n], k));
      if k == icao {
        ExtendSlice(v, before, after, SeenBy(all[..n], k), all[n].feeder);
      } else {
        SlicesDisjoint(keys, chosen, |before|, k, icao);
        SliceUntouched(v.seenOffset + v.seenCursor, next[k], before, after, SeenBy(all[..n], k), all[n].feeder);
      }
    }
  }

  lemma ExtendSlice(v: Selected, before: seq<FeederId>, after: seq<FeederId>, names: seq<FeederId>, id: FeederId)
    requires Holds(v, before, names) && v.seenCursor < v.seenCount
    requires after == before[v.seenOffset + v.seenCursor := id]
    ensures Holds(v.(seenCursor := v.seenCursor + 1), after, names + [id])
  {
    assert after[v.seenOffset..v.seenOffset + v.seenCursor + 1]
        == before[v.seenOffset..v.seenOffset + v.seenCursor] + [id];
  }

  lemma SliceUntouched(at: nat, v: Selected, before: seq<FeederId>, after: seq<FeederId>, names: seq<FeederId>,
                       id: FeederId)
    requires Holds(v, before, names) && at < |before| && after == before[at := id]
    requires at < v.seenOffset || SliceEnd(v) <= at
    ensures Holds(v, after, names)
  {
    assert after[v.seenOffset..v.seenOffset + v.seenCursor] == before[v.seenOffset..v.seenOffset + v.seenCursor];
  }

  method Materialise(keys: seq<string>, chosen: map<string, Selected>, arena: array<FeederId>)
    returns (c: Community)
    requires KeysOf(keys, chosen)
    requires forall icao :: icao in chosen ==> SliceEnd(chosen[icao]) <= arena.Length
    ensures |c.aircraft| == |keys|
    ensures forall i :: 0 <= i < |keys| ==> keys[i] in chosen && c.aircraft[i] == Item(chosen[keys[i]], arena[..])
    ensures forall k :: k in c.byIcao <==> k in keys
    ensures forall i :: 0 <= i < |keys| ==> c.byIcao[keys[i]] == i
  {
    hide Item;
    var aircraft: seq<Aircraft>, byIcao: map<string, nat> := [], map[];
    for n := 0 to |keys|
      invariant |aircraft| == n
      invariant forall i :: 0 <= i < n ==> keys[i] in chosen && aircraft[i] == Item(chosen[keys[i]], arena[..])
      invariant forall k :: k in byIcao <==> k in keys[..n]
      invariant forall i :: 0 <= i < n ==> byIcao[keys[i]] == i
    {
      assert keys[n] in keys;
      var item := ShowItem(chosen[keys[n]], arena);
      aircraft := aircraft + [item];
      byIcao := byIcao[keys[n] := n];
      assert keys[..n + 1] == keys[..n] + [keys[n]];
    }
    assert keys[..|keys|] == keys;
    c := Community(aircraft, byIcao);
  }

  method ShowItem(value: Selected, arena: array<FeederId>) returns (item: Aircraft)
    requires SliceEnd(value) <= arena.Length
    ensures item == Item(value, arena[..])
  {
    item := value.best.aircraft;
    if !EmergencyActive(item) && value.emergency.Some? {
      var emergency := value.emergency.value.aircraft;
      item := item.(emergency := emergency.emergency, squawk := emergency.squawk);
    }
    item := item.(seenBy := arena[value.seenOffset..SliceEnd(value)]);
    assert arena[..][value.seenOffset..SliceEnd(value)] == arena[value.seenOffset..SliceEnd(value)];
  }

  function Item(v: Selected, arena: seq<FeederId>): Aircraft
    requires SliceEnd(v) <= |arena|
  {
    var shown := if !EmergencyActive(v.best.aircraft) && v.emergency.Some?
                 then v.best.aircraft.(emergency := v.emergency.value.aircraft.emergency,
                                       squawk := v.emergency.value.aircraft.squawk)
                 else v.best.aircraft;
    shown.(seenBy := arena[v.seenOffset..SliceEnd(v)])
  }

  lemma ItemIsMerged(r: seq<Report>, v: Selected, arena: seq<FeederId>, icao: string)
    requires InFeederOrder(r) && BestOf(r, icao).Some?
    requires v.best == BestOf(r, icao).value && v.emergency == EmergencyOf(r, icao)
    requires SliceEnd(v) <= |arena| && arena[v.seenOffset..SliceEnd(v)] == SeenBy(r, icao)
    ensures Item(v, arena).icao == icao
    ensures IsMergedItem(ToSet(r), Item(v, arena))
  {
    BestOfIsBest(r, icao);
    EmergencyOfIsLatest(r, icao);
    SeenByIsSorted(r, icao);
    assert v.emergency.Some? ==> Lends(v.emergency.value, v.best.aircraft.(
      emergency := v.emergency.value.aircraft.emergency, squawk := v.emergency.value.aircraft.squawk));
    assert Shows(ToSet(r), v.best, Item(v, arena));
  }

  // ---------- the arena has exactly one cell per report ----------

  ghost function CellCount(keys: seq<string>, r: seq<Report>): nat {
    if keys == [] then 0 else CellCount(keys[..|keys| - 1], r) + |SeenBy(r, keys[|keys| - 1])|
  }

  lemma {:induction false} CellCountGrows(keys: seq<string>, r: seq<Report>, o: Report)
    requires Distinct(keys)
    ensures CellCount(keys, r + [o]) == CellCount(keys, r) + (if o.aircraft.icao in keys then 1 else 0)
    decreases |keys|
  {
    if keys != [] {
      CellCountGrows(keys[..|keys| - 1], r, o);
      assert (r + [o])[..|r|] == r;
      assert keys == keys[..|keys| - 1] + [keys[|keys| - 1]];
    }
  }

  lemma {:induction false} CellCountNone(keys: seq<string>)
    ensures CellCount(keys, []) == 0
    decreases |keys|
  {
    if keys != [] {
      CellCountNone(keys[..|keys| - 1]);
    }
  }

  lemma {:induction false} CellCountAll(keys: seq<string>, r: seq<Report>)
    requires Distinct(keys) && forall n :: 0 <= n < |r| ==> r[n].aircraft.icao in keys
    ensures CellCount(keys, r) == |r|
    decreases |r|
  {
    if r == [] {
      CellCountNone(keys);
    } else {
      CellCountAll(keys, r[..|r| - 1]);
      CellCountGrows(keys, r[..|r| - 1], r[|r| - 1]);
      assert r == r[..|r| - 1] + [r[|r| - 1]];
    }
  }

  lemma {:induction false} EndIsCellCount(keys: seq<string>, chosen: map<string, Selected>, total: nat,
                                          r: seq<Report>, n: nat)
    requires Counts(chosen, r) && KeysOf(keys, chosen) && Tiles(keys, chosen, total) && n <= |keys|
    ensures EndBefore(keys, chosen, n) == CellCount(keys[..n], r)
  {
    if n > 0 {
      EndIsCellCount(keys, chosen, total, r, n - 1);
      assert keys[..n][..n - 1] == keys[..n - 1];
      assert chosen[keys[n - 1]].seenOffset == EndBefore(keys, chosen, n - 1);
    }
  }

  /** The tiling uses up the arena: it has as many cells as there are reports. */
  lemma ArenaExact(keys: seq<string>, chosen: map<string, Selected>, total: nat, r: seq<Report>)
    requires Counts(chosen, r) && KeysOf(keys, chosen) && Tiles(keys, chosen, total)
    ensures total == |r|
  {
    EndIsCellCount(keys, chosen, total, r, |keys|);
    assert keys[..|keys|] == keys;
    CellCountAll(keys, r);
  }

  /** From exact summaries and an exactly filled arena to the declarative merge. */
  lemma PassesMerge(r: seq<Report>, keys: seq<string>, selected: map<string, Selected>, chosen: map<string, Selected>,
                    arena: seq<FeederId>, c: Community)
    requires InFeederOrder(r) && Increasing(keys) && KeysOf(keys, chosen)
    requires Summarises(selected, r) && SameSlices(chosen, selected) && Filled(chosen, arena, r)
    requires forall icao :: icao in chosen ==> SliceEnd(chosen[icao]) <= |arena|
    requires |c.aircraft| == |keys|
    requires forall i :: 0 <= i < |keys| ==> keys[i] in chosen && c.aircraft[i] == Item(chosen[keys[i]], arena)
    requires forall k :: k in c.byIcao <==> k in keys
    requires forall i :: 0 <= i < |keys| ==> c.byIcao[keys[i]] == i
    ensures IsMerge(ToSet(r), c)
  {
    forall i | 0 <= i < |keys|
      ensures c.aircraft[i].icao == keys[i] && IsMergedItem(ToSet(r), c.aircraft[i])
    {
      assert Holds(chosen[keys[i]], arena, SeenBy(r, keys[i]));
      assert Summary(selected[keys[i]], r, keys[i]);
      ItemIsMerged(r, chosen[keys[i]], arena, keys[i]);
    }
    forall o | o in ToSet(r)
      ensures o.aircraft.icao in c.byIcao
    {
      BestOfIsBest(r, o.aircraft.icao);
    }
  }

  // ---------- the manager ----------

  class FeederManager {
    var feeders: map<FeederId, Entry>
    var current: Community

    /** What `Publish` admits is what `Rebuild` relies on. */
    ghost predicate Valid()
      reads this
    {
      forall id :: id in feeders && feeders[id].snapshot.Some? ==> Admissible(feeders[id].snapshot.value.aircraft)
    }

    constructor ()
      ensures Valid() && feeders == map[] && current == Community([], map[])
    {
      feeders, current := map[], Community([], map[]);
    }

    /** Registering an existing feeder replaces its descriptor and keeps its snapshot. A malformed
        or reserved ID, or a display name that `nameOk` says is refused, changes nothing. */
    method Register(id: string, enabled: bool, nameOk: bool) returns (ok: bool)
      requires Valid()
      modifies this`feeders
      ensures Valid()
      ensures ok <==> NormalizeFeederId(id).Some? && NormalizeFeederId(id).value != FEEDER_ALL && nameOk
      ensures !ok ==> feeders == old(feeders)
      ensures ok ==> var key := NormalizeFeederId(id).value;
                feeders == old(feeders)[key := Entry(enabled, if key in old(feeders) then old(feeders)[key].snapshot else None)]
    {
      var normalized := NormalizeFeederId(id);
      if normalized.None? || normalized.value == FEEDER_ALL || !nameOk {
        return false;
      }
      var key := normalized.value;
      feeders := feeders[key := Entry(enabled, if key in feeders then feeders[key].snapshot else None)];
      return true;
    }

    method Remove(id: FeederId)
      requires Valid()
      modifies this`feeders
      ensures Valid() && feeders == old(feeders) - {id}
    {
      feeders := feeders - {id};
    }

    /** A snapshot is stored exactly when its feeder is registered, enabled and the aircraft are admissible. */
    method Publish(id: FeederId, snapshot: Snapshot) returns (accepted: bool)
      requires Valid()
      modifies this`feeders
      ensures Valid()
      ensures accepted <==> Admissible(snapshot.aircraft) && id in old(feeders) && old(feeders)[id].enabled
      ensures feeders == if accepted then old(feeders)[id := Entry(true, Some(snapshot))] else old(feeders)
    {
      var valid := ValidSnapshotAircraft(snapshot.aircraft);
      if !valid || id !in feeders || !feeders[id].enabled {
        return false;
      }
      feeders := feeders[id := feeders[id].(snapshot := Some(snapshot))];
      return true;
    }

    method CollectInputs() returns (inputs: seq<Input>)
      requires Valid()
      ensures OrderedInputs(inputs)
      ensures ToSet(Flatten(inputs)) == Reports(feeders)
    {
      var ids: seq<FeederId> := [];
      var rest := feeders.Keys;
      while rest != {}
        invariant rest <= feeders.Keys
        invariant Distinct(ids)
        invariant forall id :: id in ids <==> id in feeders && id !in rest && Reporting(feeders[id])
        decreases |rest|
      {
        var id :| id in rest;
        if Reporting(feeders[id]) {
          ids := ids + [id];
        }
        rest := rest - {id};
      }
      ids := SortDistinct(ids);
      var known := feeders;
      assert forall i :: 0 <= i < |ids| ==> ids[i] in ids;
      inputs := seq(|ids|, i requires 0 <= i < |ids| && ids[i] in known && Reporting(known[ids[i]]) =>
                      Input(ids[i], known[ids[i]].snapshot.value));
      FlattenIsReports(feeders, ids, inputs);
    }

    /** The published view is the merge of what the enabled feeders last published. */
    method Rebuild()
      requires Valid()
      modifies this`current
      ensures Valid() && IsMerge(Reports(feeders), current)
      ensures forall i :: 0 <= i < |current.aircraft| ==> ShowsFreshest(Reports(feeders), current.aircraft[i])
    {
      hide ShowsFreshest;
      hide IsMerge, Reports, Summarises, Item, Less, Counts;
      hide Filled, SameSlices, Tiles, Flatten, OrderedInputs, InFeederOrder;
      var inputs := CollectInputs();
      ghost var r := Flatten(inputs);
      var chosen, keys := SelectBest(inputs);
      ghost var found := keys;
      keys := SortDistinct(keys);
      assert forall n :: 0 <= n < |keys| ==> keys[n] in keys && keys[n] in found;
      forall i, j | 0 <= i < j < |keys|
        ensures keys[i] != keys[j]
      {
        LessAsymmetric(keys[i], keys[i]);
      }
      var total;
      chosen, total := AssignOffsets(chosen, keys, r);
      SummaryCounts(chosen, r);
      var filled, arena := FillArena(inputs, keys, chosen, total);
      FilledFits(keys, chosen, filled, arena[..], r);
      current := Materialise(keys, filled, arena);
      FlattenInOrder(inputs);
      PassesMerge(r, keys, chosen, filled, arena[..], current);
      forall i | 0 <= i < |current.aircraft|
        ensures ShowsFreshest(Reports(feeders), current.aircraft[i])
      {
        MergeShowsFreshest(Reports(feeders), current, i);
      }
    }
  }

  lemma FilledFits(keys: seq<string>, chosen: map<string, Selected>, filled: map<string, Selected>,
                   arena: seq<FeederId>, r: seq<Report>)
    requires KeysOf(keys, chosen) && SameSlices(filled, chosen) && Filled(filled, arena, r)
    ensures KeysOf(keys, filled)
    ensures forall icao :: icao in filled ==> SliceEnd(filled[icao]) <= |arena|
  {
    assert forall icao :: icao in filled ==> Holds(filled[icao], arena, SeenBy(r, icao));
  }

  lemma FlattenIsReports(feeders: map<FeederId, Entry>, ids: seq<FeederId>, inputs: seq<Input>)
    requires forall id :: id in ids <==> id in feeders && Reporting(feeders[id])
    requires |inputs| == |ids|
    requires forall i :: 0 <= i < |ids| ==>
      ids[i] in feeders && Reporting(feeders[ids[i]]) && inputs[i] == Input(ids[i], feeders[ids[i]].snapshot.value)
    ensures ToSet(Flatten(inputs)) == Reports(feeders)
  {
    forall o
      ensures o in Flatten(inputs) <==> o in Reports(feeders)
    {
      FlattenMember(inputs, o);
      if o in Reports(feeders) {
        var id, i :| id in feeders && Reporting(feeders[id]) && 0 <= i < |feeders[id].snapshot.value.aircraft|
                     && o == Report(id, SeenAt(feeders[id].snapshot.value, feeders[id].snapshot.value.aircraft[i]),
                                    feeders[id].snapshot.value.aircraft[i]);
        var k :| 0 <= k < |ids| && ids[k] == id;
        assert inputs[k].id == id;
      }
    }
  }
}
