/** `buildNewAircraftLocked`: normalise, sort and compact a batch of aircraft in place. */
module Normalise {
  import opened Text
  import opened Domain

  // ---------- identifiers ----------

  /** `normalizeICAO`: scan for a character that could need work, else return the value as it is. */
  method NormalizeIcao(value: string) returns (r: string)
    ensures r == Canonical(value)
  {
    for n := 0 to |value|
      invariant forall i :: 0 <= i < n ==> !NeedsWork(value[i])
    {
      if NeedsWork(value[n]) {
        return ToUpper(TrimSpace(value));
      }
    }
    NothingToDo(value);
    return value;
  }

  predicate NeedsWork(c: char) {
    c <= ' ' || c >= '\U{7f}' || 'a' <= c <= 'z'
  }

  function Canonical(value: string): string {
    ToUpper(TrimSpace(value))
  }

  lemma NothingToDo(value: string)
    requires forall i :: 0 <= i < |value| ==> !NeedsWork(value[i])
    ensures Canonical(value) == value
  {
    TrimSpaceTrims(value);
  }

  /** The canonical form needs neither trimming nor upper-casing again. */
  lemma CanonicalIsStable(value: string)
    ensures TrimSpace(Canonical(value)) == Canonical(value)
    ensures ToUpper(Canonical(value)) == Canonical(value)
  {
    TrimSpaceTrims(value);
    TrimSpaceTrims(Canonical(value));
  }

  // ---------- specification ----------

  /** `betterBatchObservation`: fresher, then positioned, then more messages. */
  predicate Better(candidate: Aircraft, current: Aircraft) {
    if candidate.seen != current.seen then candidate.seen < current.seen
    else if candidate.hasPosition != current.hasPosition then candidate.hasPosition
    else candidate.messages > current.messages
  }

  function Prepared(a: Aircraft): Aircraft {
    a.(icao := Canonical(a.icao), seenBy := [])
  }

  function PreparedAll(batch: seq<Aircraft>): seq<Aircraft> {
    seq(|batch|, i requires 0 <= i < |batch| => Prepared(batch[i]))
  }

  predicate StrictlySorted(a: seq<Aircraft>) {
    forall i, j :: 0 <= i < j < |a| ==> Less(a[i].icao, a[j].icao)
  }

  predicate SortedByIcao(a: seq<Aircraft>) {
    forall i, j :: 0 <= i < j < |a| ==> !Less(a[j].icao, a[i].icao)
  }

  /** `out` keeps of every nonempty ICAO in `batch` one report that no other report beats. */
  ghost predicate IsCompaction(batch: seq<Aircraft>, out: seq<Aircraft>) {
    && StrictlySorted(out)
    && (forall i :: 0 <= i < |out| ==> out[i].icao != "" && out[i] in batch)
    && (forall x :: x in batch && x.icao != "" ==> Covered(x, out))
  }

  ghost predicate Covered(x: Aircraft, out: seq<Aircraft>) {
    exists i :: 0 <= i < |out| && out[i].icao == x.icao && !Better(x, out[i])
  }

  lemma IcaoIn(a: seq<Aircraft>, x: Aircraft)
    requires x in a
    ensures x.icao in Icaos(a)
  {
    var i :| 0 <= i < |a| && a[i] == x;
    assert Icaos(a)[i] == x.icao;
  }

  lemma SameIcaos(batch: seq<Aircraft>, out: seq<Aircraft>, x: string)
    requires forall i :: 0 <= i < |batch| ==> batch[i].icao != ""
    requires IsCompaction(batch, out)
    ensures x in Icaos(batch) <==> x in Icaos(out)
  {
    hide Less, StrictlySorted, Covered;
    if x in Icaos(batch) {
      var i :| 0 <= i < |batch| && batch[i].icao == x;
      CoveredIcao(batch[i], out);
    } else if x in Icaos(out) {
      var j :| 0 <= j < |out| && out[j].icao == x;
      IcaoIn(batch, out[j]);
    }
  }

  lemma CoveredIcao(x: Aircraft, out: seq<Aircraft>)
    requires Covered(x, out)
    ensures x.icao in Icaos(out)
  {
    hide Better;
    var j :| 0 <= j < |out| && out[j].icao == x.icao;
    IcaoIn(out, out[j]);
  }

  /** On a batch that is already strictly sorted the only compaction is the batch itself, so
      skipping the sort cannot change the result. */
  lemma FastPathAgrees(batch: seq<Aircraft>, out: seq<Aircraft>)
    requires StrictlySorted(batch) && (forall i :: 0 <= i < |batch| ==> batch[i].icao != "")
    requires IsCompaction(batch, out)
    ensures out == batch
  {
    hide Covered, Less;
    forall x
      ensures x in Icaos(batch) <==> x in Icaos(out)
    {
      SameIcaos(batch, out, x);
    }
    IncreasingUnique(Icaos(batch), Icaos(out));
    forall i | 0 <= i < |batch|
      ensures out[i] == batch[i]
    {
      assert Icaos(batch)[i] == Icaos(out)[i];
      var k :| 0 <= k < |batch| && batch[k] == out[i];
      LessAsymmetric(batch[i].icao, batch[k].icao);
    }
  }

  lemma StrictlySortedIsCompaction(batch: seq<Aircraft>)
    requires StrictlySorted(batch) && (forall i :: 0 <= i < |batch| ==> batch[i].icao != "")
    ensures IsCompaction(batch, batch)
  {
    forall x | x in batch
      ensures Covered(x, batch)
    {
      var i :| 0 <= i < |batch| && batch[i] == x;
      assert batch[i].icao == x.icao && !Better(x, batch[i]);
    }
  }

  /** What comes out is what `FeederManager.Publish` admits. */
  lemma CompactionIsAdmissible(batch: seq<Aircraft>, out: seq<Aircraft>)
    requires IsCompaction(PreparedAll(batch), out)
    ensures Admissible(out)
  {
    hide Less, Covered, Canonical, TrimSpace, ToUpper;
    forall i | 0 <= i < |out|
      ensures out[i].icao == TrimSpace(out[i].icao) && out[i].icao == ToUpper(out[i].icao)
    {
      var k :| 0 <= k < |batch| && PreparedAll(batch)[k] == out[i];
      CanonicalIsStable(batch[k].icao);
    }
  }

  // ---------- in place ----------

  /** `slices.SortFunc` by ICAO. Callers may rely on order and contents only. */
  method SortByIcao(a: array<Aircraft>)
    modifies a
    ensures SortedByIcao(a[..])
    ensures forall x :: x in a[..] <==> x in old(a[..])
  {
    var sorted: seq<Aircraft> := [];
    for n := 0 to a.Length
      invariant a[..] == old(a[..])
      invariant |sorted| == n && SortedByIcao(sorted)
      invariant forall x :: x in sorted <==> x in a[..n]
    {
      sorted := Insert(sorted, a[n]);
      assert a[..n + 1] == a[..n] + [a[n]];
    }
    assert a[..a.Length] == a[..];
    forall i | 0 <= i < a.Length {
      a[i] := sorted[i];
    }
    assert a[..] == sorted;
  }

  method Insert(sorted: seq<Aircraft>, x: Aircraft) returns (r: seq<Aircraft>)
    requires SortedByIcao(sorted)
    ensures |r| == |sorted| + 1 && SortedByIcao(r)
    ensures forall y :: y in r <==> y in sorted || y == x
  {
    var at := |sorted|;
    while at > 0 && Less(x.icao, sorted[at - 1].icao)
      invariant 0 <= at <= |sorted|
      invariant forall i :: at <= i < |sorted| ==> Less(x.icao, sorted[i].icao)
    {
      at := at - 1;
    }
    r := sorted[..at] + [x] + sorted[at..];
    forall i, j | 0 <= i < j < |r|
      ensures !Less(r[j].icao, r[i].icao)
    {
      if j == at {
        NotAbove(x.icao, sorted[at - 1].icao, sorted[i].icao);
      } else if i == at {
        LessAsymmetric(x.icao, r[j].icao);
      }
    }
    assert forall y :: y in r <==> y in sorted || y == x;
  }

  lemma NotAbove(x: string, y: string, z: string)
    requires !Less(x, y) && (y == z || !Less(y, z))
    ensures !Less(x, z)
  {
    LessTotal(x, y);
    LessTotal(y, z);
    LessAsymmetric(x, z);
    if Less(y, x) && Less(z, y) {
      LessTransitive(z, y, x);
    }
  }

  /** The compaction loop: `write` trails the read index and keeps the better of two equal ICAOs. */
  method Compact(a: array<Aircraft>) returns (write: nat)
    requires SortedByIcao(a[..])
    modifies a
    ensures write <= a.Length
    ensures IsCompaction(old(a[..]), a[..write])
  {
    hide IsCompaction, Less, Better, SortedByIcao;
    ghost var batch := a[..];
    write := 0;
    NothingKept();
    for n := 0 to a.Length
      invariant write <= n
      invariant a[n..] == batch[n..]
      invariant IsCompaction(batch[..n], a[..write])
      invariant write > 0 && n < a.Length ==> !Less(batch[n].icao, a[write - 1].icao)
    {
      assert a[n] == a[n..][0] == batch[n];
      ghost var kept := a[..write];
      assert batch[..n + 1] == batch[..n] + [batch[n]];
      if a[n].icao == "" {
        SkipEmpty(batch, n, kept);
      } else if write > 0 && a[write - 1].icao == a[n].icao {
        MergeEqual(batch, n, kept);
        if Better(a[n], a[write - 1]) {
          a[write - 1] := a[n];
          assert a[..write] == kept[..write - 1] + [batch[n]];
        }
      } else {
        AppendLarger(batch, n, kept);
        a[write] := a[n];
        write := write + 1;
        assert a[..write] == kept + [batch[n]];
      }
      assert a[n + 1..] == batch[n + 1..];
      if write > 0 && n + 1 < a.Length {
        StillBelow(batch, n, a[..write]);
      }
    }
    assert batch[..a.Length] == batch;
  }

  lemma NothingKept()
    ensures IsCompaction([], [])
  {
  }

  lemma SkipEmpty(batch: seq<Aircraft>, n: nat, kept: seq<Aircraft>)
    requires n < |batch| && IsCompaction(batch[..n], kept) && batch[n].icao == ""
    ensures IsCompaction(batch[..n + 1], kept)
  {
    assert batch[..n + 1] == batch[..n] + [batch[n]];
  }

  lemma CoveredAfterReplace(x: Aircraft, kept: seq<Aircraft>, y: Aircraft)
    requires Covered(x, kept) && kept != [] && y.icao == kept[|kept| - 1].icao && Better(y, kept[|kept| - 1])
    ensures Covered(x, kept[..|kept| - 1] + [y])
  {
    var out := kept[..|kept| - 1] + [y];
    var i :| 0 <= i < |kept| && kept[i].icao == x.icao && !Better(x, kept[i]);
    assert out[i].icao == x.icao && !Better(x, out[i]);
  }

  lemma CoveredAfterAppend(x: Aircraft, kept: seq<Aircraft>, y: Aircraft)
    requires Covered(x, kept)
    ensures Covered(x, kept + [y])
  {
    var i :| 0 <= i < |kept| && kept[i].icao == x.icao && !Better(x, kept[i]);
    assert (kept + [y])[i] == kept[i];
  }

  lemma CoveredBy(x: Aircraft, out: seq<Aircraft>, i: nat)
    requires i < |out| && out[i].icao == x.icao && !Better(x, out[i])
    ensures Covered(x, out)
  {
  }

  lemma MergeEqual(batch: seq<Aircraft>, n: nat, kept: seq<Aircraft>)
    requires n < |batch| && IsCompaction(batch[..n], kept) && kept != []
    requires kept[|kept| - 1].icao == batch[n].icao != ""
    ensures if Better(batch[n], kept[|kept| - 1]) then IsCompaction(batch[..n + 1], kept[..|kept| - 1] + [batch[n]])
            else IsCompaction(batch[..n + 1], kept)
  {
    hide Covered, Less;
    assert batch[..n + 1] == batch[..n] + [batch[n]];
    var y := batch[n];
    if Better(y, kept[|kept| - 1]) {
      var out := kept[..|kept| - 1] + [y];
      CoveredBy(y, out, |kept| - 1);
      forall x | x in batch[..n + 1] && x.icao != ""
        ensures Covered(x, out)
      {
        if x in batch[..n] {
          CoveredAfterReplace(x, kept, y);
        }
      }
    } else {
      CoveredBy(y, kept, |kept| - 1);
    }
  }

  lemma AppendLarger(batch: seq<Aircraft>, n: nat, kept: seq<Aircraft>)
    requires n < |batch| && IsCompaction(batch[..n], kept) && batch[n].icao != ""
    requires kept != [] ==> !Less(batch[n].icao, kept[|kept| - 1].icao) && kept[|kept| - 1].icao != batch[n].icao
    ensures IsCompaction(batch[..n + 1], kept + [batch[n]])
  {
    hide Covered, Less;
    var y := batch[n];
    var out := kept + [y];
    assert batch[..n + 1] == batch[..n] + [y];
    forall i | 0 <= i < |kept|
      ensures Less(kept[i].icao, y.icao)
    {
      LessTotal(kept[|kept| - 1].icao, y.icao);
      if i < |kept| - 1 {
        LessTransitive(kept[i].icao, kept[|kept| - 1].icao, y.icao);
      }
    }
    CoveredBy(y, out, |kept|);
    forall x | x in batch[..n + 1] && x.icao != ""
      ensures Covered(x, out)
    {
      if x in batch[..n] {
        CoveredAfterAppend(x, kept, y);
      }
    }
  }

  lemma StillBelow(batch: seq<Aircraft>, n: nat, kept: seq<Aircraft>)
    requires SortedByIcao(batch) && n + 1 < |batch| && kept != []
    requires IsCompaction(batch[..n + 1], kept)
    ensures !Less(batch[n + 1].icao, kept[|kept| - 1].icao)
  {
    hide Less, Covered, StrictlySorted;
    assert kept[|kept| - 1] in batch[..n + 1];
    var k :| 0 <= k < n + 1 && batch[..n + 1][k] == kept[|kept| - 1];
    assert batch[k] == kept[|kept| - 1];
  }

  /** Normalises every ICAO in place and notices when the batch is already in order. */
  method Prepare(a: array<Aircraft>) returns (sortedUnique: bool)
    modifies a
    ensures a[..] == PreparedAll(old(a[..]))
    ensures sortedUnique ==> StrictlySorted(a[..]) && forall i :: 0 <= i < a.Length ==> a[i].icao != ""
  {
    hide Less, Canonical, StrictlySorted, PreparedAll;
    ghost var batch := a[..];
    ghost var prepared := PreparedAll(batch);
    PreparedAt(batch);
    SortedNone(prepared);
    sortedUnique := true;
    var previous := "";
    for index := 0 to a.Length
      invariant forall i :: 0 <= i < index ==> a[i] == prepared[i]
      invariant forall i :: index <= i < a.Length ==> a[i] == batch[i]
      invariant previous == if index == 0 then "" else prepared[index - 1].icao
      invariant sortedUnique ==> StrictlySorted(prepared[..index])
      invariant sortedUnique ==> forall i :: 0 <= i < index ==> prepared[i].icao != ""
    {
      var icao := NormalizeIcao(a[index].icao);
      a[index] := a[index].(icao := icao, seenBy := []);
      if icao == "" || (previous != "" && (previous == icao || Less(icao, previous))) {
        sortedUnique := false;
      } else if sortedUnique {
        ExtendSorted(prepared, index);
      }
      previous := icao;
    }
    assert prepared[..a.Length] == prepared;
    assert a[..] == prepared;
  }

  /** The whole operation: the first `n` cells of `a` are the new aircraft list. */
  method BuildNewAircraft(a: array<Aircraft>) returns (n: nat)
    modifies a
    ensures n <= a.Length
    ensures IsCompaction(PreparedAll(old(a[..])), a[..n])
    ensures Admissible(a[..n])
    ensures forall x :: x in PreparedAll(old(a[..])) && x.icao != "" ==> KeepsFreshest(x, a[..n])
  {
    ghost var batch := a[..];
    hide IsCompaction, Less, Admissible, Canonical, StrictlySorted, KeepsFreshest;
    var sortedUnique := Prepare(a);
    ghost var prepared := a[..];
    n := a.Length;
    if !sortedUnique {
      SortByIcao(a);
      ghost var sorted := a[..];
      n := Compact(a);
      SameMembers(prepared, sorted, a[..n]);
    } else {
      assert a[..n] == prepared;
      StrictlySortedIsCompaction(prepared);
    }
    CompactionIsAdmissible(batch, a[..n]);
    CompactionKeepsFreshest(prepared, a[..n]);
  }

  lemma PreparedAt(batch: seq<Aircraft>)
    ensures |PreparedAll(batch)| == |batch| && forall i :: 0 <= i < |batch| ==>
      PreparedAll(batch)[i] == Prepared(batch[i])
  {
  }

  /** `y` is no older a report than `x`; at the same age it has a position if `x` has one; with the same
      kind of position it has no fewer messages. */
  predicate NoStalerThan(y: Aircraft, x: Aircraft) {
    && y.seen <= x.seen
    && (y.seen == x.seen ==> x.hasPosition ==> y.hasPosition)
    && (y.seen == x.seen && y.hasPosition == x.hasPosition ==> x.messages <= y.messages)
  }

  ghost predicate KeepsFreshest(x: Aircraft, out: seq<Aircraft>) {
    exists i :: 0 <= i < |out| && out[i].icao == x.icao && NoStalerThan(out[i], x)
  }

  lemma CoveredIsFresh(x: Aircraft, out: seq<Aircraft>)
    requires Covered(x, out)
    ensures KeepsFreshest(x, out)
  {
    var i :| 0 <= i < |out| && out[i].icao == x.icao && !Better(x, out[i]);
    assert NoStalerThan(out[i], x);
  }

  /** For every report of the batch the result holds one of the same aircraft that is no staler. */
  lemma CompactionKeepsFreshest(batch: seq<Aircraft>, out: seq<Aircraft>)
    requires IsCompaction(batch, out)
    ensures forall x :: x in batch && x.icao != "" ==> KeepsFreshest(x, out)
  {
    hide StrictlySorted, Covered, KeepsFreshest;
    forall x | x in batch && x.icao != ""
      ensures KeepsFreshest(x, out)
    {
      CoveredIsFresh(x, out);
    }
  }

  lemma SortedNone(p: seq<Aircraft>)
    ensures StrictlySorted(p[..0])
  {
  }

  lemma ExtendSorted(p: seq<Aircraft>, n: nat)
    requires n < |p| && StrictlySorted(p[..n])
    requires n > 0 ==> p[n - 1].icao != p[n].icao && !Less(p[n].icao, p[n - 1].icao)
    ensures StrictlySorted(p[..n + 1])
  {
    if n > 0 {
      LessTotal(p[n - 1].icao, p[n].icao);
      forall i | 0 <= i < n
        ensures Less(p[i].icao, p[n].icao)
      {
        if i < n - 1 {
          assert Less(p[..n][i].icao, p[..n][n - 1].icao);
          LessTransitive(p[i].icao, p[n - 1].icao, p[n].icao);
        }
      }
    }
    assert p[..n + 1] == p[..n] + [p[n]];
  }

  lemma SameMembers(batch: seq<Aircraft>, sorted: seq<Aircraft>, out: seq<Aircraft>)
    requires forall x :: x in sorted <==> x in batch
    requires IsCompaction(sorted, out)
    ensures IsCompaction(batch, out)
  {
    assert forall i :: 0 <= i < |out| ==> out[i] in sorted;
  }
}
