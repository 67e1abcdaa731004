/** The batch writer: a bounded queue, a batch of ordered events, a map of coalesced rollups and a
    sink that applies a batch atomically.

    One channel operation or one `applyUntil` is one step; callers of `Enqueue` run between them. */
module Writer {
  import opened Text
  import opened Rollups
  import opened Subsequence

  datatype Event = Plain(payload: string) | Report(value: Rollup)

  function PlainOf(es: seq<Event>): seq<Event> {
    if es == [] then [] else PlainOf(es[..|es| - 1]) + if es[|es| - 1].Plain? then [es[|es| - 1]] else []
  }

  function ReportsOf(es: seq<Event>): seq<Rollup> {
    if es == [] then [] else ReportsOf(es[..|es| - 1]) + if es[|es| - 1].Report? then [es[|es| - 1].value] else []
  }

  lemma {:induction false} PlainAppend(a: seq<Event>, b: seq<Event>)
    ensures PlainOf(a + b) == PlainOf(a) + PlainOf(b)
    decreases |b|
  {
    if b == [] {
      assert a + b == a;
    } else {
      var n := |b| - 1;
      PlainAppend(a, b[..n]);
      assert (a + b)[..|a| + n] == a + b[..n];
    }
  }

  lemma {:induction false} ReportsAppend(a: seq<Event>, b: seq<Event>)
    ensures ReportsOf(a + b) == ReportsOf(a) + ReportsOf(b)
    decreases |b|
  {
    if b == [] {
      assert a + b == a;
    } else {
      var n := |b| - 1;
      ReportsAppend(a, b[..n]);
      assert (a + b)[..|a| + n] == a + b[..n];
    }
  }

  lemma SplitAppend(a: seq<Event>, b: seq<Event>)
    ensures PlainOf(a + b) == PlainOf(a) + PlainOf(b)
    ensures ReportsOf(a + b) == ReportsOf(a) + ReportsOf(b)
  {
    PlainAppend(a, b);
    ReportsAppend(a, b);
  }

  lemma SplitOne(e: Event)
    ensures PlainOf([e]) == (if e.Plain? then [e] else []) && ReportsOf([e]) == if e.Report? then [e.value] else []
  {
    assert [e][..0] == [];
  }

  predicate AllPlain(es: seq<Event>) {
    forall i :: 0 <= i < |es| ==> es[i].Plain?
  }

  lemma {:induction false} SplitPlain(es: seq<Event>)
    requires AllPlain(es)
    ensures PlainOf(es) == es && ReportsOf(es) == []
    decreases |es|
  {
    if es != [] {
      SplitPlain(es[..|es| - 1]);
      assert es == es[..|es| - 1] + [es[|es| - 1]];
    }
  }

  function Reports(rs: seq<Rollup>): seq<Event> {
    seq(|rs|, i requires 0 <= i < |rs| => Report(rs[i]))
  }

  lemma {:induction false} SplitReports(rs: seq<Rollup>)
    ensures PlainOf(Reports(rs)) == [] && ReportsOf(Reports(rs)) == rs
    decreases |rs|
  {
    if rs != [] {
      var n := |rs| - 1;
      SplitReports(rs[..n]);
      assert Reports(rs)[..n] == Reports(rs[..n]);
      assert rs == rs[..n] + [rs[n]];
    }
  }

  // ---------- the machine ----------

  datatype Phase = Running | Draining | Flushed | Stopped
  datatype ApplyResult = Succeeded | RetryLater | PermanentFailure

  /** `accepted` lists the events that entered the queue, `sink` those applied, `lost` those given
      up. `lossy` records that a flush failed permanently or that a final flush did not succeed. */
  datatype State = State(
    cap: nat, batchMax: nat,
    queue: seq<Event>, batch: seq<Event>, rollups: map<Key, Rollup>, disabled: bool, phase: Phase,
    accepted: seq<Event>, sink: seq<Event>, lost: seq<Event>, lossy: bool)

  function Initial(cap: nat, batchMax: nat): State {
    State(cap, batchMax, [], [], map[], false, Running, [], [], [], false)
  }

  datatype Action =
    | Enqueue(event: Event, checked: bool)     // `checked`: `disabled` was read before it was set
    | Receive
    | FlushBatch(result: ApplyResult)
    | FlushRollups(result: ApplyResult, keys: seq<Key>)
    | Stop | Drain
    | FinalBatch(result: ApplyResult)
    | FinalRollups(result: ApplyResult, keys: seq<Key>)

  predicate Full(s: State) {
    |s.batch| >= s.batchMax || |s.rollups| >= s.batchMax
  }

  function AddEvent(s: State, e: Event): State {
    if e.Plain? then s.(batch := s.batch + [e]) else s.(rollups := Add(s.rollups, e.value))
  }

  function Lose(s: State, es: seq<Event>): State {
    s.(lost := s.lost + es, lossy := true)
  }

  /** `applyUntil` on an empty batch succeeds without calling the sink. */
  function Effective(r: ApplyResult, n: nat): ApplyResult {
    if n == 0 then Succeeded else r
  }

  function BatchFlushed(s: State, r: ApplyResult): State {
    match Effective(r, |s.batch|)
    case Succeeded => s.(sink := s.sink + s.batch, batch := [])
    case RetryLater => s
    case PermanentFailure => Lose(s, s.batch).(batch := [], disabled := true)
  }

  function RollupsFlushed(s: State, r: ApplyResult, keys: seq<Key>): State
    requires Enumerates(keys, s.rollups)
  {
    var es := Reports(Listed(s.rollups, keys));
    match Effective(r, |es|)
    case Succeeded => s.(sink := s.sink + es, rollups := map[])
    case RetryLater => s
    case PermanentFailure => Lose(s, es).(rollups := map[], disabled := true)
  }

  /** Whatever the last flush does not apply is given up. */
  function Final(r: ApplyResult): ApplyResult {
    if r == Succeeded then Succeeded else PermanentFailure
  }

  function Next(s: State, a: Action): State {
    match a
    case Enqueue(e, checked) =>
      if (s.disabled && !checked) || |s.queue| >= s.cap then s
      else s.(queue := s.queue + [e], accepted := s.accepted + [e])
    case Receive =>
      if !s.phase.Running? || s.queue == [] || (!s.disabled && Full(s)) then s
      else
        var t := s.(queue := s.queue[1..]);
        if s.disabled then Lose(t, [s.queue[0]]) else AddEvent(t, s.queue[0])
    case FlushBatch(r) => if s.phase.Running? then BatchFlushed(s, r) else s
    case FlushRollups(r, keys) =>
      if s.phase.Running? && Enumerates(keys, s.rollups) then RollupsFlushed(s, r, keys) else s
    case Stop => if s.phase.Running? then s.(phase := Draining) else s
    case Drain =>
      if !s.phase.Draining? || s.queue == [] then s
      else AddEvent(s.(queue := s.queue[1..]), s.queue[0])
    case FinalBatch(r) =>
      if !s.phase.Draining? then s
      else BatchFlushed(s, Final(r)).(phase := Flushed,
                                      disabled := s.disabled || Effective(r, |s.batch|).PermanentFailure?)
    case FinalRollups(r, keys) =>
      if !s.phase.Flushed? || !Enumerates(keys, s.rollups) then s
      else RollupsFlushed(s, Final(r), keys).(phase := Stopped,
                                              disabled := s.disabled || Effective(r, |keys|).PermanentFailure?)
  }

  function Run(s: State, actions: seq<Action>): State {
    if actions == [] then s else Next(Run(s, actions[..|actions| - 1]), actions[|actions| - 1])
  }

  // ---------- order ----------

  /** What is applied, batched and queued, in that order, apart from rollups. */
  function Line(s: State): seq<Event> {
    PlainOf(s.sink) + s.batch + PlainOf(s.queue)
  }

  predicate InOrder(s: State) {
    && AllPlain(s.batch)
    && IsSubseq(Line(s), PlainOf(s.accepted))
    && |PlainOf(s.accepted)| == |Line(s)| + |PlainOf(s.lost)|
  }

  /** Nothing is given up before a flush fails for good. */
  predicate Faithful(s: State) {
    && (s.lossy <==> s.lost != []) && (s.disabled ==> s.lossy)
    && |s.queue| <= s.cap
    && (s.phase.Running? ==> |s.batch| <= s.batchMax && |s.rollups| <= s.batchMax)
    && (s.phase.Flushed? || s.phase.Stopped? ==> s.batch == [])
    && (s.phase.Stopped? ==> s.rollups == map[])
  }

  // ---------- rollups ----------

  /** The totals of one key over the sink, what was given up, the pending map and the queue. */
  function Ledger(s: State, k: Key): Option<Totals> {
    Merge(Merge(Total(ReportsOf(s.sink), k), Total(ReportsOf(s.lost), k)),
          Merge(Pending(s.rollups, k), Total(ReportsOf(s.queue), k)))
  }

  predicate Balanced(s: State, k: Key) {
    Ledger(s, k) == Total(ReportsOf(s.accepted), k)
  }

  ghost predicate Inv(s: State) {
    && InOrder(s) && Faithful(s) && Keyed(s.rollups)
    && forall k :: Balanced(s, k)
  }

  // ---------- every step keeps it ----------

  /** The four places in which a rollup's totals may be. */
  lemma Regroup(a: Option<Totals>, l: Option<Totals>, p: Option<Totals>, q: Option<Totals>, x: Option<Totals>)
    ensures Merge(Merge(a, l), Merge(p, Merge(q, x))) == Merge(Merge(Merge(a, l), Merge(p, q)), x)
    ensures Merge(Merge(a, l), Merge(p, Merge(x, q))) == Merge(Merge(a, l), Merge(Merge(p, x), q))
    ensures Merge(Merge(a, l), Merge(p, Merge(x, q))) == Merge(Merge(a, Merge(l, x)), Merge(p, q))
    ensures Merge(Merge(a, l), Merge(p, q)) == Merge(Merge(Merge(a, p), l), Merge(None, q))
    ensures Merge(Merge(a, l), Merge(p, q)) == Merge(Merge(a, Merge(l, p)), Merge(None, q))
  {
    hide Plus;
    PlusLaws();
  }

  lemma PlusLaws()
    ensures forall x, y :: Plus(x, y) == Plus(y, x)
    ensures forall x, y, z :: Plus(Plus(x, y), z) == Plus(x, Plus(y, z))
  {
  }

  lemma TotalOne(r: Rollup, k: Key)
    ensures Total([r], k) == Share(r, k)
  {
    assert [r][..0] == [];
  }

  /** What one more event at the end of a list adds to each side. */
  lemma SplitSnoc(es: seq<Event>, e: Event)
    ensures PlainOf(es + [e]) == (if e.Plain? then PlainOf(es) + [e] else PlainOf(es))
    ensures ReportsOf(es + [e]) == (if e.Report? then ReportsOf(es) + [e.value] else ReportsOf(es))
  {
    assert (es + [e])[..|es|] == es;
  }

  /** What the event at the head of a list contributes. */
  lemma SplitHead(es: seq<Event>)
    requires es != []
    ensures PlainOf(es) == if es[0].Plain? then [es[0]] + PlainOf(es[1..]) else PlainOf(es[1..])
    ensures ReportsOf(es) == if es[0].Report? then [es[0].value] + ReportsOf(es[1..]) else ReportsOf(es[1..])
  {
    hide PlainOf, ReportsOf;
    SplitAppend([es[0]], es[1..]);
    SplitOne(es[0]);
    assert es == [es[0]] + es[1..];
  }

  lemma EnqueueBalances(s: State, e: Event, checked: bool, k: Key)
    requires Balanced(s, k)
    ensures Balanced(Next(s, Enqueue(e, checked)), k)
  {
    hide Merge, Total, PlainOf, ReportsOf, Pending;
    SplitSnoc(s.queue, e);
    SplitSnoc(s.accepted, e);
    if e.Report? {
      TotalAppend(ReportsOf(s.queue), [e.value], k);
      TotalAppend(ReportsOf(s.accepted), [e.value], k);
      Regroup(Total(ReportsOf(s.sink), k), Total(ReportsOf(s.lost), k), Pending(s.rollups, k),
              Total(ReportsOf(s.queue), k),
              Total([e.value], k));
    }
  }

  lemma LineGrows(s: State, e: Event)
    requires e.Plain?
    ensures Line(s.(queue := s.queue + [e])) == Line(s) + [e]
  {
    hide PlainOf;
    SplitSnoc(s.queue, e);
  }

  lemma EnqueueKeepsOrder(s: State, e: Event, checked: bool)
    requires InOrder(s)
    ensures InOrder(Next(s, Enqueue(e, checked)))
  {
    hide PlainOf, IsSubseq, AllPlain, Line;
    var grown := s.(queue := s.queue + [e]);
    SplitSnoc(s.accepted, e);
    if e.Plain? {
      LineGrows(s, e);
      Snoc(Line(s), PlainOf(s.accepted), e);
    } else {
      SplitSnoc(s.queue, e);
      SameLine(s, grown);
    }
    var t := Next(s, Enqueue(e, checked));
    if t != s {
      SameLine(grown, t);
    }
  }

  lemma SameLine(s: State, t: State)
    requires t.sink == s.sink && t.batch == s.batch && PlainOf(t.queue) == PlainOf(s.queue)
    ensures Line(t) == Line(s)
  {
  }

  lemma EnqueueKeeps(s: State, e: Event, checked: bool)
    requires Inv(s)
    ensures Inv(Next(s, Enqueue(e, checked)))
  {
    hide InOrder, Keyed, Balanced;
    EnqueueKeepsOrder(s, e, checked);
    forall k ensures Balanced(Next(s, Enqueue(e, checked)), k) {
      assert Balanced(s, k);
      EnqueueBalances(s, e, checked, k);
    }
  }

  /** Moving the head of the queue into the batch or the map moves nothing in the line. */
  predicate TakesHead(s: State, t: State) {
    s.queue != [] && t == AddEvent(s.(queue := s.queue[1..]), s.queue[0])
  }

  lemma TakeBalances(s: State, t: State, k: Key)
    requires TakesHead(s, t) && Keyed(s.rollups) && Balanced(s, k)
    ensures Balanced(t, k) && Keyed(t.rollups)
  {
    hide Merge, Total, PlainOf, ReportsOf, Pending, Add, Keyed;
    var e := s.queue[0];
    SplitHead(s.queue);
    if e.Report? {
      var rest := ReportsOf(s.queue[1..]);
      AddIsMerge(s.rollups, e.value, k);
      TotalAppend([e.value], rest, k);
      TotalOne(e.value, k);
      Regroup(Total(ReportsOf(s.sink), k), Total(ReportsOf(s.lost), k), Pending(s.rollups, k), Total(rest, k),
              Share(e.value, k));
    }
  }

  lemma LineShifts(s: State, t: State)
    requires TakesHead(s, t)
    ensures Line(t) == Line(s)
  {
    hide PlainOf, ReportsOf, Add;
    SplitHead(s.queue);
    if s.queue[0].Plain? {
      Shift(PlainOf(s.sink), s.batch, s.queue[0], PlainOf(s.queue[1..]));
    }
  }

  lemma Shift<T>(a: seq<T>, b: seq<T>, x: T, c: seq<T>)
    ensures a + b + ([x] + c) == a + (b + [x]) + c
  {
  }

  lemma TakeKeepsOrder(s: State, t: State)
    requires TakesHead(s, t) && InOrder(s)
    ensures InOrder(t)
  {
    hide PlainOf, IsSubseq, Add, Line;
    LineShifts(s, t);
  }

  lemma AddedSize(m: map<Key, Rollup>, r: Rollup)
    ensures |Add(m, r)| <= |m| + 1
  {
    hide KeyOf, TruncateHour;
    var k := KeyOf(r.(bucketStart := TruncateHour(r.bucketStart)));
    if k !in m {
      assert Add(m, r).Keys == m.Keys + {k};
    } else {
      assert Add(m, r).Keys == m.Keys;
    }
  }

  lemma TakeStaysFaithful(s: State, t: State)
    requires Faithful(s) && TakesHead(s, t)
    requires (s.phase.Running? ==> !Full(s)) && !s.phase.Flushed? && !s.phase.Stopped?
    ensures Faithful(t)
  {
    hide Add;
    if s.queue[0].Report? {
      AddedSize(s.rollups, s.queue[0].value);
    }
  }

  lemma TakeKeeps(s: State, t: State)
    requires Inv(s) && TakesHead(s, t)
    requires (s.phase.Running? ==> !Full(s)) && !s.phase.Flushed? && !s.phase.Stopped?
    ensures Inv(t)
  {
    hide InOrder, Balanced, Keyed, Faithful, TakesHead;
    TakeKeepsOrder(s, t);
    TakeStaysFaithful(s, t);
    forall k
      ensures Balanced(t, k)
    {
      assert Balanced(s, k);
      TakeBalances(s, t, k);
    }
    TakeBalances(s, t, Key(0, "", 0));
  }

  /** A disabled writer discards what it receives. */
  lemma DiscardBalances(s: State, t: State, k: Key)
    requires s.queue != [] && t == Lose(s.(queue := s.queue[1..]), [s.queue[0]]) && Balanced(s, k)
    ensures Balanced(t, k)
  {
    hide Merge, Total, PlainOf, ReportsOf, Pending;
    var e := s.queue[0];
    SplitHead(s.queue);
    SplitSnoc(s.lost, e);
    if e.Report? {
      var rest := ReportsOf(s.queue[1..]);
      TotalAppend([e.value], rest, k);
      TotalAppend(ReportsOf(s.lost), [e.value], k);
      Regroup(Total(ReportsOf(s.sink), k), Total(ReportsOf(s.lost), k), Pending(s.rollups, k), Total(rest, k),
              Total([e.value], k));
    }
  }

  lemma DiscardKeeps(s: State, t: State)
    requires Inv(s) && s.queue != [] && s.disabled && t == Lose(s.(queue := s.queue[1..]), [s.queue[0]])
    ensures Inv(t)
  {
    hide PlainOf, ReportsOf, IsSubseq, Keyed, Balanced;
    var e := s.queue[0];
    forall k ensures Balanced(t, k) {
      assert Balanced(s, k);
      DiscardBalances(s, t, k);
    }
    SplitHead(s.queue);
    SplitSnoc(s.lost, e);
    if e.Plain? {
      var before, rest := PlainOf(s.sink) + s.batch, PlainOf(s.queue[1..]);
      assert Line(s) == before + [e] + rest;
      RemoveMiddle(before, [e], rest, PlainOf(s.accepted));
    }
  }

  // ---------- flushing ----------

  lemma BatchBalances(s: State, r: ApplyResult, k: Key)
    requires AllPlain(s.batch) && Balanced(s, k)
    ensures Balanced(BatchFlushed(s, r), k)
  {
    hide PlainOf, ReportsOf, Merge, Total;
    SplitPlain(s.batch);
    SplitAppend(s.sink, s.batch);
    SplitAppend(s.lost, s.batch);
    assert ReportsOf(s.sink) + [] == ReportsOf(s.sink) && ReportsOf(s.lost) + [] == ReportsOf(s.lost);
  }

  lemma BatchKeepsOrder(s: State, r: ApplyResult)
    requires InOrder(s)
    ensures InOrder(BatchFlushed(s, r))
  {
    hide PlainOf, IsSubseq;
    SplitPlain(s.batch);
    var t := BatchFlushed(s, r);
    match Effective(r, |s.batch|)
    case Succeeded =>
      PlainAppend(s.sink, s.batch);
      assert Line(t) == Line(s);
    case RetryLater =>
    case PermanentFailure =>
      PlainAppend(s.lost, s.batch);
      RemoveMiddle(PlainOf(s.sink), s.batch, PlainOf(s.queue), PlainOf(s.accepted));
      assert Line(t) == PlainOf(s.sink) + PlainOf(s.queue);
  }

  lemma BatchKeeps(s: State, r: ApplyResult)
    requires Inv(s)
    ensures Inv(BatchFlushed(s, r))
  {
    BatchKeepsOrder(s, r);
    assert AllPlain(s.batch);
    hide InOrder, Balanced, Keyed;
    forall k ensures Balanced(BatchFlushed(s, r), k) {
      assert Balanced(s, k);
      BatchBalances(s, r, k);
    }
  }

  lemma RollupsBalance(s: State, r: ApplyResult, keys: seq<Key>, k: Key)
    requires Keyed(s.rollups) && Enumerates(keys, s.rollups) && Balanced(s, k)
    ensures Balanced(RollupsFlushed(s, r, keys), k)
  {
    hide PlainOf, ReportsOf, Merge, Total, Keyed;
    var rs := Listed(s.rollups, keys);
    SplitReports(rs);
    SplitAppend(s.sink, Reports(rs));
    SplitAppend(s.lost, Reports(rs));
    EnumerationTotal(s.rollups, keys, k);
    TotalAppend(ReportsOf(s.sink), rs, k);
    TotalAppend(ReportsOf(s.lost), rs, k);
    Regroup(Total(ReportsOf(s.sink), k), Total(ReportsOf(s.lost), k), Pending(s.rollups, k),
            Total(ReportsOf(s.queue), k), None);
  }

  lemma RollupsKeepOrder(s: State, r: ApplyResult, keys: seq<Key>)
    requires Enumerates(keys, s.rollups) && InOrder(s)
    ensures InOrder(RollupsFlushed(s, r, keys))
  {
    hide PlainOf, IsSubseq;
    var rs := Listed(s.rollups, keys);
    SplitReports(rs);
    SplitAppend(s.sink, Reports(rs));
    SplitAppend(s.lost, Reports(rs));
    assert PlainOf(s.sink) + [] == PlainOf(s.sink) && PlainOf(s.lost) + [] == PlainOf(s.lost);
  }

  lemma RollupsKeep(s: State, r: ApplyResult, keys: seq<Key>)
    requires Inv(s) && Enumerates(keys, s.rollups)
    ensures Inv(RollupsFlushed(s, r, keys))
  {
    RollupsKeepOrder(s, r, keys);
    hide InOrder, Balanced, Enumerates;
    forall k ensures Balanced(RollupsFlushed(s, r, keys), k) {
      assert Balanced(s, k);
      RollupsBalance(s, r, keys, k);
    }
  }

  /** The phase and the flag matter only to `Faithful`. */
  lemma Relabel(s: State, phase: Phase, disabled: bool)
    requires Inv(s) && Faithful(s.(phase := phase, disabled := disabled))
    ensures Inv(s.(phase := phase, disabled := disabled))
  {
    hide PlainOf, ReportsOf, IsSubseq, Merge, Total, Keyed;
    var t := s.(phase := phase, disabled := disabled);
    forall k ensures Balanced(t, k) {
      assert Balanced(s, k);
    }
  }

  lemma FinalBatchKeeps(s: State, r: ApplyResult)
    requires Inv(s)
    ensures Inv(Next(s, FinalBatch(r)))
  {
    BatchKeeps(s, Final(r));
    hide InOrder, Balanced, Keyed;
    if s.phase.Draining? {
      Relabel(BatchFlushed(s, Final(r)), Flushed, s.disabled || Effective(r, |s.batch|).PermanentFailure?);
    }
  }

  lemma FinalRollupsKeep(s: State, r: ApplyResult, keys: seq<Key>)
    requires Inv(s)
    ensures Inv(Next(s, FinalRollups(r, keys)))
  {
    hide InOrder, Balanced, Keyed, Enumerates;
    if s.phase.Flushed? && Enumerates(keys, s.rollups) {
      RollupsKeep(s, Final(r), keys);
      assert RollupsFlushed(s, Final(r), keys).rollups == map[];
      Relabel(RollupsFlushed(s, Final(r), keys), Stopped, s.disabled || Effective(r, |keys|).PermanentFailure?);
    }
  }

  lemma StepKeepsInv(s: State, a: Action)
    requires Inv(s)
    ensures Inv(Next(s, a))
  {
    match a
    case Enqueue(e, checked) => EnqueueKeeps(s, e, checked);
    case Receive =>
      var t := Next(s, a);
      if t != s {
        if s.disabled { DiscardKeeps(s, t); } else { TakeKeeps(s, t); }
      }
    case FlushBatch(r) => BatchKeeps(s, r);
    case FlushRollups(r, keys) => if Enumerates(keys, s.rollups) { RollupsKeep(s, r, keys); }
    case Stop => Relabel(s, if s.phase.Running? then Draining else s.phase, s.disabled);
    case Drain =>
      if s.phase.Draining? && s.queue != [] { TakeKeeps(s, Next(s, a)); }
    case FinalBatch(r) => FinalBatchKeeps(s, r);
    case FinalRollups(r, keys) => FinalRollupsKeep(s, r, keys);
  }

  lemma {:induction false} RunKeepsInv(cap: nat, batchMax: nat, actions: seq<Action>)
    ensures Inv(Run(Initial(cap, batchMax), actions))
    decreases |actions|
  {
    if actions != [] {
      hide Inv, Next;
      RunKeepsInv(cap, batchMax, actions[..|actions| - 1]);
      StepKeepsInv(Run(Initial(cap, batchMax), actions[..|actions| - 1]), actions[|actions| - 1]);
    }
  }

  // ---------- what a run guarantees ----------

  /** Until a flush fails for good, what is applied, batched and queued is exactly what was accepted,
      in order; afterwards it is still in order and nothing appears twice. */
  lemma OrderIsKept(cap: nat, batchMax: nat, actions: seq<Action>)
    ensures var s := Run(Initial(cap, batchMax), actions);
      && IsSubseq(PlainOf(s.sink) + s.batch + PlainOf(s.queue), PlainOf(s.accepted))
      && |PlainOf(s.accepted)| == |PlainOf(s.sink)| + |s.batch| + |PlainOf(s.queue)| + |PlainOf(s.lost)|
      && (!s.lossy ==> PlainOf(s.sink) + s.batch + PlainOf(s.queue) == PlainOf(s.accepted))
  {
    hide IsSubseq, Run, Balanced;
    RunKeepsInv(cap, batchMax, actions);
    var s := Run(Initial(cap, batchMax), actions);
    SameLengthSame(Line(s), PlainOf(s.accepted));
  }

  /** The totals applied, given up, pending and queued for an hour add up to those accepted. */
  lemma RollupsAddUp(cap: nat, batchMax: nat, actions: seq<Action>, k: Key)
    ensures var s := Run(Initial(cap, batchMax), actions);
      && Ledger(s, k) == Total(ReportsOf(s.accepted), k)
      && (!s.lossy ==> ReportsOf(s.lost) == [])
  {
    RunKeepsInv(cap, batchMax, actions);
    assert Balanced(Run(Initial(cap, batchMax), actions), k);
  }

  /** For every counter of an hour: what is applied, given up, pending and queued sums up to what was
      accepted. */
  lemma CountersAreConserved(cap: nat, batchMax: nat, actions: seq<Action>, k: Key, c: Counter)
    ensures var s := Run(Initial(cap, batchMax), actions);
      SumOf(ReportsOf(s.sink), k, c) + SumOf(ReportsOf(s.lost), k, c)
      + (if k in s.rollups then Value(s.rollups[k].totals, c) else 0) + SumOf(ReportsOf(s.queue), k, c) ==
      SumOf(ReportsOf(s.accepted), k, c)
  {
    hide Run, Total, SumOf, Value, Merge, ReportsOf;
    RollupsAddUp(cap, batchMax, actions, k);
    var s := Run(Initial(cap, batchMax), actions);
    TotalCounts(ReportsOf(s.sink), k, c);
    TotalCounts(ReportsOf(s.lost), k, c);
    TotalCounts(ReportsOf(s.queue), k, c);
    TotalCounts(ReportsOf(s.accepted), k, c);
    var applied, lost := Total(ReportsOf(s.sink), k), Total(ReportsOf(s.lost), k);
    var pending, queued := Pending(s.rollups, k), Total(ReportsOf(s.queue), k);
    MergeAdds(applied, lost, c);
    MergeAdds(pending, queued, c);
    MergeAdds(Merge(applied, lost), Merge(pending, queued), c);
  }

  /** A writer that stops without a failed flush has applied everything it was given and drained. */
  lemma StopsClean(cap: nat, batchMax: nat, actions: seq<Action>, k: Key)
    ensures var s := Run(Initial(cap, batchMax), actions);
      s.phase.Stopped? && !s.lossy ==>
        && PlainOf(s.sink) + PlainOf(s.queue) == PlainOf(s.accepted)
        && Merge(Total(ReportsOf(s.sink), k), Total(ReportsOf(s.queue), k)) == Total(ReportsOf(s.accepted), k)
  {
    hide Run, IsSubseq, Keyed;
    RunKeepsInv(cap, batchMax, actions);
    OrderIsKept(cap, batchMax, actions);
    RollupsAddUp(cap, batchMax, actions, k);
    var s := Run(Initial(cap, batchMax), actions);
    if s.phase.Stopped? && !s.lossy {
      assert PlainOf(s.sink) + [] == PlainOf(s.sink);
    }
  }

  predicate Failing(a: Action) {
    match a
    case FlushBatch(r) => r.PermanentFailure?
    case FlushRollups(r, _) => r.PermanentFailure?
    case FinalBatch(r) => !r.Succeeded?
    case FinalRollups(r, _) => !r.Succeeded?
    case _ => false
  }

  /** The step flushes something, and what it flushes is given up: in the loop after a permanent
      failure, at the end after anything but success. */
  predicate GivenUpBy(s: State, a: Action) {
    match a
    case FlushBatch(r) => s.phase.Running? && s.batch != [] && r.PermanentFailure?
    case FlushRollups(r, keys) => s.phase.Running? && s.rollups != map[] && Enumerates(keys, s.rollups) && r.PermanentFailure?
    case FinalBatch(r) => s.phase.Draining? && s.batch != [] && !r.Succeeded?
    case FinalRollups(r, keys) => s.phase.Flushed? && s.rollups != map[] && Enumerates(keys, s.rollups) && !r.Succeeded?
    case _ => false
  }

  lemma EnumeratesNothing(keys: seq<Key>, m: map<Key, Rollup>)
    requires Enumerates(keys, m)
    ensures keys == [] <==> m == map[]
  {
    if keys != [] {
      assert keys[0] in m;
    }
  }

  lemma StepLosesExactly(s: State, a: Action)
    requires s.disabled ==> s.lossy
    ensures Next(s, a).lossy <==> s.lossy || GivenUpBy(s, a)
    ensures Next(s, a).disabled ==> Next(s, a).lossy
  {
    hide Enumerates, Add, PlainOf, Full;
    if (a.FlushRollups? || a.FinalRollups?) && Enumerates(a.keys, s.rollups) {
      EnumeratesNothing(a.keys, s.rollups);
    }
  }

  /** Something is lost in a run if and only if one of its flushes gives up what it should have
      applied. */
  lemma {:induction false} LostExactly(cap: nat, batchMax: nat, actions: seq<Action>)
    ensures var s := Run(Initial(cap, batchMax), actions);
      && (s.lossy <==> exists i :: 0 <= i < |actions| && GivenUpAt(cap, batchMax, actions, i))
      && (s.disabled ==> s.lossy)
    decreases |actions|
  {
    hide Run, Next, GivenUpBy;
    var s0 := Initial(cap, batchMax);
    if actions == [] {
      RunNothing(s0);
    } else {
      var n, init := |actions| - 1, actions[..|actions| - 1];
      LostExactly(cap, batchMax, init);
      RunMore(s0, init, actions[n]);
      assert init + [actions[n]] == actions;
      StepLosesExactly(Run(s0, init), actions[n]);
      GivenUpMore(cap, batchMax, init, actions[n]);
    }
  }

  /** One more action is one more chance to give something up. */
  lemma GivenUpMore(cap: nat, batchMax: nat, init: seq<Action>, a: Action)
    ensures (exists i :: 0 <= i < |init| + 1 && GivenUpAt(cap, batchMax, init + [a], i)) <==>
      (exists i :: 0 <= i < |init| && GivenUpAt(cap, batchMax, init, i)) || GivenUpBy(Run(Initial(cap, batchMax), init), a)
  {
    hide Run, Initial, GivenUpBy;
    forall i | 0 <= i < |init|
      ensures GivenUpAt(cap, batchMax, init + [a], i) <==> GivenUpAt(cap, batchMax, init, i)
    {
      assert (init + [a])[..i] == init[..i];
    }
    assert (init + [a])[..|init|] == init;
    assert GivenUpAt(cap, batchMax, init + [a], |init|) <==> GivenUpBy(Run(Initial(cap, batchMax), init), a);
  }

  predicate GivenUpAt(cap: nat, batchMax: nat, actions: seq<Action>, i: int) {
    0 <= i < |actions| && GivenUpBy(Run(Initial(cap, batchMax), actions[..i]), actions[i])
  }

  /** Only a permanent failure, or a last flush that does not succeed, makes a run lossy. */
  lemma LossNeedsFailure(cap: nat, batchMax: nat, actions: seq<Action>)
    requires forall i :: 0 <= i < |actions| ==> !Failing(actions[i])
    ensures !Run(Initial(cap, batchMax), actions).lossy && !Run(Initial(cap, batchMax), actions).disabled
  {
    hide Run, Enumerates;
    LostExactly(cap, batchMax, actions);
  }

  // ---------- the writer as an object ----------

  const MILLISECOND: nat := 1_000_000
  const RETRY_BUDGET: nat := 2000 * MILLISECOND

  datatype Error = Error(cancelled: bool, temporary: bool, busy: bool)

  /** A cancelled call counts as permanent, whatever else is true of the error. */
  predicate Transient(e: Error) {
    !e.cancelled && (e.temporary || e.busy)
  }

  /** One call to the sink: how it ends, how long it takes, how much the timer after it oversleeps,
      and whether the context ends while waiting. */
  datatype Attempt = Attempt(error: Option<Error>, took: nat, overslept: nat, cancelled: bool)

  /** A flush under way when the context is cancelled gives up its batch: the call fails, the failure
      counts as permanent, and the shutdown that follows finds nothing left to apply. */
  lemma CancelledFlushLosesBatch(e: Event, says: nat -> Attempt, r: ApplyResult, attempts: nat)
    requires e.Plain? && says(0).error.Some? && says(0).error.value.cancelled && Concludes(r, 1, attempts, says)
    ensures var s := Run(Initial(1, 2), [Enqueue(e, false), Receive, FlushBatch(r), Stop, FinalBatch(Succeeded)]);
      s.accepted == [e] && s.sink == [] && s.lost == [e] && s.batch == []
  {
    hide Run, Add, Enumerates;
    CancelledIsPermanent(says, r, attempts);
    var a := [Enqueue(e, false), Receive, FlushBatch(r), Stop, FinalBatch(Succeeded)];
    var s0 := Initial(1, 2);
    var s1 := s0.(queue := [e], accepted := [e]);
    var s2 := s1.(queue := [], batch := [e]);
    var s3 := s2.(batch := [], lost := [e], lossy := true, disabled := true);
    RunStart(a);
    RunStep(a, 0);
    assert Run(s0, a[..1]) == s1;
    RunStep(a, 1);
    assert Run(s0, a[..2]) == s2;
    RunStep(a, 2);
    assert Run(s0, a[..3]) == s3;
    RunStep(a, 3);
    RunStep(a, 4);
    assert a[..5] == a;
  }

  lemma CancelledIsPermanent(says: nat -> Attempt, r: ApplyResult, attempts: nat)
    requires says(0).error.Some? && says(0).error.value.cancelled && Concludes(r, 1, attempts, says)
    ensures r == PermanentFailure
  {
    hide GivesUp;
    var first: nat := 0;
    assert first < attempts - 1 ==> FailsTransiently(says(first));
  }

  lemma RunStart(a: seq<Action>)
    ensures Run(Initial(1, 2), a[..0]) == Initial(1, 2)
  {
  }

  lemma RunStep(a: seq<Action>, n: nat)
    requires n < |a|
    ensures Run(Initial(1, 2), a[..n + 1]) == Next(Run(Initial(1, 2), a[..n]), a[n])
  {
    assert a[..n + 1][..n] == a[..n];
  }

  function Delay(n: nat): (d: nat)
    ensures d > 0
  {
    if n == 0 then 50 * MILLISECOND
    else if 2 * Delay(n - 1) < 1000 * MILLISECOND then 2 * Delay(n - 1)
    else 1000 * MILLISECOND
  }

  /** The least time spent waiting before attempt `n`, counting from 0. */
  function Waited(n: nat): nat {
    if n == 0 then 0 else Waited(n - 1) + Delay(n - 1)
  }

  lemma {:induction false} WaitedGrows(m: nat, n: nat)
    requires m <= n
    ensures Waited(m) <= Waited(n)
    decreases n
  {
    if m < n { WaitedGrows(m, n - 1); }
  }

  lemma SixWaits()
    ensures Waited(5) == 1_550_000_000 && Waited(6) == 2_550_000_000
  {
    assert Delay(2) == 200 * MILLISECOND && Delay(5) == 1000 * MILLISECOND;
    assert Waited(3) == 350 * MILLISECOND;
  }

  /** The delays of the two-second budget leave time for six calls to the sink and for no more. */
  lemma AtMostSixAttempts(attempts: nat)
    requires attempts >= 1
    ensures Waited(attempts - 1) <= RETRY_BUDGET <==> attempts <= 6
  {
    SixWaits();
    if attempts >= 7 {
      WaitedGrows(6, attempts - 1);
    } else {
      WaitedGrows(attempts - 1, 5);
    }
  }

  /** When call `n` starts, counting from the first call. */
  function Clock(says: nat -> Attempt, n: nat): nat {
    if n == 0 then 0 else Clock(says, n - 1) + says(n - 1).took + Delay(n - 1) + says(n - 1).overslept
  }

  /** After call `n` failed transiently there is no time for another, or the context ends. */
  predicate GivesUp(says: nat -> Attempt, n: nat) {
    says(n).cancelled || Clock(says, n) + says(n).took + Delay(n) > RETRY_BUDGET
  }

  predicate FailsTransiently(a: Attempt) {
    a.error.Some? && Transient(a.error.value)
  }

  /** Every call but the last failed transiently with time left; the last one decides. An empty batch
      needs no call. */
  predicate Concludes(r: ApplyResult, size: nat, attempts: nat, says: nat -> Attempt) {
    if size == 0 then r.Succeeded? && attempts == 0
    else
      && 1 <= attempts <= 6
      && (forall i: nat :: i < attempts - 1 ==> FailsTransiently(says(i)) && !GivesUp(says, i))
      && match r
         case Succeeded => says(attempts - 1).error.None?
         case PermanentFailure => says(attempts - 1).error.Some? && !Transient(says(attempts - 1).error.value)
         case RetryLater => FailsTransiently(says(attempts - 1)) && GivesUp(says, attempts - 1)
  }

  /** Call `n` fails with a busy or temporary error, and there is time and leave for another. */
  predicate Retried(says: nat -> Attempt, n: nat) {
    && says(n).error.Some? && !says(n).error.value.cancelled && (says(n).error.value.temporary || says(n).error.value.busy)
    && !says(n).cancelled && Clock(says, n) + says(n).took + Delay(n) <= 2_000_000_000
  }

  /** A batch is applied exactly when some call succeeds after calls that are all retried, and given up as
      permanent exactly when after such calls one is cancelled or fails in another way. */
  lemma ConcludesExactly(r: ApplyResult, size: nat, attempts: nat, says: nat -> Attempt)
    requires size > 0 && Concludes(r, size, attempts, says)
    ensures r.Succeeded? <==> exists n: nat :: says(n).error.None? && forall i: nat :: i < n ==> Retried(says, i)
    ensures r.PermanentFailure? <==>
      exists n: nat ::
        && says(n).error.Some? && (says(n).error.value.cancelled || !(says(n).error.value.temporary || says(n).error.value.busy))
        && forall i: nat :: i < n ==> Retried(says, i)
  {
    hide Clock, Delay;
    var last: nat := attempts - 1;
    forall i: nat | i < last
      ensures Retried(says, i)
    {
      assert FailsTransiently(says(i)) && !GivesUp(says, i);
    }
    forall n: nat | (says(n).error.None? || !Transient(says(n).error.value)) && forall i: nat :: i < n ==> Retried(says, i)
      ensures n == last
    {
      assert n < last ==> Retried(says, n);
      assert last < n ==> Retried(says, last);
    }
  }

  /** The batch and the map have taken in `taken`, starting from `b` and `m`. */
  ghost predicate Absorbed(b: seq<Event>, m: map<Key, Rollup>, taken: seq<Event>, s: State) {
    && s.batch == b + PlainOf(taken)
    && forall k :: Pending(s.rollups, k) == Merge(Pending(m, k), Total(ReportsOf(taken), k))
  }

  lemma AbsorbedNothing(s: State)
    ensures Absorbed(s.batch, s.rollups, [], s)
  {
  }

  lemma AbsorbOne(b: seq<Event>, m: map<Key, Rollup>, taken: seq<Event>, s: State, e: Event)
    requires Absorbed(b, m, taken, s) && Keyed(s.rollups)
    ensures Absorbed(b, m, taken + [e], AddEvent(s.(queue := if s.queue == [] then [] else s.queue[1..]), e))
  {
    hide PlainOf, ReportsOf, Total, Merge, Pending, Keyed, Add;
    SplitSnoc(taken, e);
    if e.Report? {
      forall k ensures Pending(Add(s.rollups, e.value), k) == Merge(Pending(m, k),
                                                                    Total(ReportsOf(taken) + [e.value], k)) {
        AddIsMerge(s.rollups, e.value, k);
        TotalAppend(ReportsOf(taken), [e.value], k);
        TotalOne(e.value, k);
        MergeLaws(Pending(m, k), Total(ReportsOf(taken), k), Share(e.value, k));
      }
    }
  }

  lemma NothingSucceeds(r: ApplyResult, size: nat, attempts: nat, says: nat -> Attempt)
    requires Concludes(r, size, attempts, says)
    ensures r == Effective(r, size)
  {
  }

  lemma KeyedInv(s: State)
    requires Inv(s)
    ensures Keyed(s.rollups)
  {
  }

  /** What the loop of `Run` wakes up for. The environment also decides how the sink behaves. */
  datatype Turn = Arrival(event: Event) | Received | Tick | RollupTick

  lemma ClockStarts(says: nat -> Attempt)
    ensures Clock(says, 0) == 0
  {
  }

  lemma ClockTicks(says: nat -> Attempt, n: nat)
    ensures Clock(says, n + 1) == Clock(says, n) + says(n).took + Delay(n) + says(n).overslept
  {
  }

  lemma DelayGrows(n: nat)
    ensures Delay(0) == 50 * MILLISECOND && Waited(0) == 0 && Waited(n + 1) == Waited(n) + Delay(n)
    ensures Delay(n + 1) == if 2 * Delay(n) < 1000 * MILLISECOND then 2 * Delay(n) else 1000 * MILLISECOND
  {
  }

  class BatchWriter {
    const cap: nat
    const batchMax: nat
    var queue: seq<Event>
    var batch: seq<Event>
    var rollups: map<Key, Rollup>
    var disabled: bool
    var sink: seq<Event>
    ghost var phase: Phase
    ghost var accepted: seq<Event>
    ghost var lost: seq<Event>
    ghost var lossy: bool

    ghost function View(): State
      reads this
    {
      State(cap, batchMax, queue, batch, rollups, disabled, phase, accepted, sink, lost, lossy)
    }

    constructor (cap: nat, batchMax: nat)
      ensures View() == Initial(cap, batchMax) && Inv(View())
    {
      this.cap, this.batchMax := cap, batchMax;
      queue, batch, rollups, disabled, sink := [], [], map[], false, [];
      phase, accepted, lost, lossy := Running, [], [], false;
      new;
      RunKeepsInv(cap, batchMax, []);
    }

    method Enqueue(event: Event) returns (ok: bool)
      requires Inv(View())
      modifies this
      ensures Inv(View()) && View() == Next(old(View()), Action.Enqueue(event, false))
      ensures ok <==> !old(disabled) && |old(queue)| < cap
      ensures accepted == if ok then old(accepted) + [event] else old(accepted)
    {
      StepKeepsInv(View(), Action.Enqueue(event, false));
      hide Inv;
      if disabled || |queue| >= cap {
        return false;
      }
      queue := queue + [event];
      accepted := accepted + [event];
      return true;
    }

    /** Adds one event taken from the queue to the batch or to the rollup of its hour. */
    method AddToBatch(event: Event)
      modifies this`batch, this`rollups
      ensures View() == AddEvent(old(View()), event)
      ensures event.Plain? ==> batch == old(batch) + [event] && rollups == old(rollups)
      ensures event.Report? ==> var k, added := KeyOf(event.value), event.value.totals;
        && batch == old(batch) && rollups.Keys == old(rollups).Keys + {k}
        && (forall j :: j in old(rollups) && j != k ==> rollups[j] == old(rollups)[j])
        && if k in old(rollups) then AddsUp(old(rollups)[k].totals, added, rollups[k].totals) else rollups[k].totals == added
    {
      if event.Report? {
        TruncatedKeepsKey(event.value);
      }
      hide KeyOf, TruncateHour;
      if event.Plain? {
        batch := batch + [event];
        return;
      }
      var value := event.value.(bucketStart := TruncateHour(event.value.bucketStart));
      var key := KeyOf(value);
      if key in rollups {
        var current := rollups[key].totals;
        rollups := rollups[key := rollups[key].(totals := Plus(current, value.totals))];
      } else {
        rollups := rollups[key := value];
      }
    }

    /** Moves everything queued into the batch and the map, in order. */
    method DrainInto() returns (ghost steps: seq<Action>)
      requires Inv(View()) && phase.Draining?
      modifies this`queue, this`batch, this`rollups
      ensures Inv(View()) && queue == []
      ensures Absorbed(old(batch), old(rollups), old(queue), View())
      ensures View() == Run(old(View()), steps) && forall i :: 0 <= i < |steps| ==> steps[i] == Drain
    {
      hide Inv, Absorbed, Keyed, AddEvent, PlainOf, ReportsOf, Run;
      steps := [];
      RunNothing(View());
      ghost var taken: seq<Event> := [];
      AbsorbedNothing(View());
      while queue != []
        invariant Inv(View()) && phase.Draining? && taken + queue == old(queue)
        invariant Absorbed(old(batch), old(rollups), taken, View())
        invariant View() == Run(old(View()), steps) && forall i :: 0 <= i < |steps| ==> steps[i] == Drain
        decreases |queue|
      {
        ghost var before := View();
        StepKeepsInv(before, Drain);
        KeyedInv(before);
        var event := queue[0];
        AbsorbOne(old(batch), old(rollups), taken, before, event);
        queue := queue[1..];
        AddToBatch(event);
        assert View() == Next(before, Drain);
        RunMore(old(View()), steps, Drain);
        steps := steps + [Drain];
        assert old(queue) == taken + [event] + queue;
        taken := taken + [event];
      }
      assert taken == old(queue);
    }

    /** Lists the pending rollups in some order, each once. */
    method RollupEvents() returns (keys: seq<Key>, events: seq<Event>)
      ensures Enumerates(keys, rollups) && events == Reports(Listed(rollups, keys))
    {
      keys, events := [], [];
      var left := rollups.Keys;
      while left != {}
        invariant forall i :: 0 <= i < |keys| ==> keys[i] in rollups && keys[i] !in left
        invariant forall k :: k in rollups ==> k in left || k in keys
        invariant forall i, j :: 0 <= i < j < |keys| ==> keys[i] != keys[j]
        invariant left <= rollups.Keys
        invariant |events| == |keys| && forall i :: 0 <= i < |keys| ==> events[i] == Report(rollups[keys[i]])
        decreases left
      {
        var k :| k in left;
        left := left - {k};
        keys := keys + [k];
        events := events + [Report(rollups[k])];
      }
    }

    /** Calls the sink until it succeeds, fails for good, or the budget or the context runs out. */
    method ApplyUntil(events: seq<Event>, start: int, says: nat -> Attempt) returns (r: ApplyResult, attempts: nat)
      modifies this`sink, this`disabled
      ensures Concludes(r, |events|, attempts, says)
      ensures sink == if r.Succeeded? then old(sink) + events else old(sink)
      ensures disabled == (old(disabled) || r.PermanentFailure?)
    {
      hide Delay, Waited, Clock;
      attempts := 0;
      ClockStarts(says);
      if events == [] {
        return Succeeded, 0;
      }
      DelayGrows(0);
      var delay, now, deadline := 50 * MILLISECOND, start, start + RETRY_BUDGET;
      while true
        invariant delay == Delay(attempts) && start + Waited(attempts) <= now == start + Clock(says, attempts)
        invariant Waited(attempts) <= RETRY_BUDGET
        invariant sink == old(sink) && disabled == old(disabled)
        invariant forall i: nat :: i < attempts ==> FailsTransiently(says(i)) && !GivesUp(says, i)
        decreases if now <= deadline then deadline - now + 1 else 0
      {
        var a := says(attempts);
        DelayGrows(attempts);
        ClockTicks(says, attempts);
        attempts := attempts + 1;
        now := now + a.took;
        AtMostSixAttempts(attempts);
        if a.error.None? {
          sink := sink + events;
          return Succeeded, attempts;
        }
        if !Transient(a.error.value) {
          disabled := true;
          return PermanentFailure, attempts;
        }
        if now + delay > deadline || a.cancelled {
          return RetryLater, attempts;
        }
        now := now + delay + a.overslept;
        delay := if 2 * delay < 1000 * MILLISECOND then 2 * delay else 1000 * MILLISECOND;
      }
    }

    method FlushBatch(start: int, says: nat -> Attempt) returns (attempts: nat, ghost a: Action)
      requires Inv(View()) && phase.Running?
      modifies this
      ensures Inv(View()) && a.FlushBatch? && View() == Next(old(View()), a)
      ensures Concludes(a.result, |old(batch)|, attempts, says)
    {
      hide Inv, Concludes;
      ghost var before := View();
      var r;
      r, attempts := ApplyUntil(batch, start, says);
      NothingSucceeds(r, |batch|, attempts, says);
      a := Action.FlushBatch(r);
      StepKeepsInv(before, a);
      if r.PermanentFailure? {
        lost, lossy := lost + batch, true;
      }
      if !r.RetryLater? {
        batch := [];
      }
    }

    method FlushRollups(start: int, says: nat -> Attempt) returns (attempts: nat, ghost a: Action)
      requires Inv(View()) && phase.Running?
      modifies this
      ensures Inv(View()) && a.FlushRollups? && View() == Next(old(View()), a)
      ensures Enumerates(a.keys, old(rollups)) && Concludes(a.result, |a.keys|, attempts, says)
    {
      hide Inv, Concludes;
      ghost var before := View();
      var keys, events := RollupEvents();
      var r;
      r, attempts := ApplyUntil(events, start, says);
      NothingSucceeds(r, |events|, attempts, says);
      a := Action.FlushRollups(r, keys);
      StepKeepsInv(before, a);
      if r.PermanentFailure? {
        lost, lossy := lost + events, true;
      }
      if !r.RetryLater? {
        rollups := map[];
      }
    }

    /** One pass through the loop: a full batch or map is flushed before anything is received. */
    method Pass(turn: Turn, start: int, says: nat -> Attempt) returns (ghost a: Action)
      requires Inv(View()) && phase.Running?
      modifies this
      ensures Inv(View()) && phase.Running? && View() == Next(old(View()), a)
      ensures turn.Arrival? ==> a == Action.Enqueue(turn.event, false)
      ensures !turn.Arrival? && !old(disabled) && |old(batch)| >= batchMax ==> a.FlushBatch?
      ensures !turn.Arrival? && !old(disabled) && |old(batch)| < batchMax <= |old(rollups)| ==> a.FlushRollups?
      ensures old(disabled) || (|old(batch)| < batchMax && |old(rollups)| < batchMax) ==>
        (turn.Received? ==> a.Receive?) && (turn.Tick? ==> a.FlushBatch?) && (turn.RollupTick? ==> a.FlushRollups?)
      ensures Decided(a, old(View()), says)
    {
      hide Inv, Keyed, Concludes;
      ghost var before := View();
      if turn.Arrival? {
        var _ := Enqueue(turn.event);
        return Action.Enqueue(turn.event, false);
      }
      if !disabled && (|batch| >= batchMax || |rollups| >= batchMax) {
        if |batch| >= batchMax {
          var n, b := FlushBatch(start, says);
          a := b;
        } else {
          var _, b := FlushRollups(start, says);
          a := b;
        }
        return;
      }
      match turn
      case Received =>
        a := Action.Receive;
        StepKeepsInv(before, a);
        if queue != [] {
          var event := queue[0];
          queue := queue[1..];
          if disabled {
            lost, lossy := lost + [event], true;
          } else {
            AddToBatch(event);
          }
        }
      case Tick =>
        var _, b := FlushBatch(start, says);
        a := b;
      case RollupTick =>
        var _, b := FlushRollups(start, says);
        a := b;
    }

    /** What the last flush of the batch does not apply is given up. */
    method FinishBatch(start: int, says: nat -> Attempt) returns (attempts: nat, ghost r: ApplyResult)
      requires Inv(View()) && phase.Draining?
      modifies this`batch, this`sink, this`disabled, this`lost, this`lossy, this`phase
      ensures Inv(View()) && phase.Flushed? && View() == Next(old(View()), FinalBatch(r))
      ensures Concludes(r, |old(batch)|, attempts, says)
    {
      hide Inv, Concludes;
      ghost var before := View();
      var result;
      result, attempts := ApplyUntil(batch, start, says);
      NothingSucceeds(result, |batch|, attempts, says);
      r := result;
      StepKeepsInv(before, FinalBatch(r));
      if !result.Succeeded? {
        lost, lossy := lost + batch, true;
      }
      batch, phase := [], Flushed;
    }

    method FinishRollups(start: int, says: nat -> Attempt) returns (attempts: nat, ghost r: ApplyResult,
                                                                    ghost keys: seq<Key>)
      requires Inv(View()) && phase.Flushed?
      modifies this`rollups, this`sink, this`disabled, this`lost, this`lossy, this`phase
      ensures Inv(View()) && phase.Stopped? && View() == Next(old(View()), FinalRollups(r, keys))
      ensures Enumerates(keys, old(rollups)) && Concludes(r, |keys|, attempts, says)
    {
      hide Inv, Concludes;
      ghost var before := View();
      var listed, events := RollupEvents();
      var result;
      result, attempts := ApplyUntil(events, start, says);
      NothingSucceeds(result, |events|, attempts, says);
      r, keys := result, listed;
      StepKeepsInv(before, FinalRollups(r, keys));
      if !result.Succeeded? {
        lost, lossy := lost + events, true;
      }
      rollups, phase := map[], Stopped;
    }

    ghost method StopReceiving()
      requires Inv(View()) && phase.Running?
      modifies this`phase
      ensures Inv(View()) && phase.Draining? && View() == Next(old(View()), Action.Stop)
    {
      StepKeepsInv(View(), Action.Stop);
      hide Inv;
      phase := Draining;
    }

    /** The end of `Run`: drain the queue, then one last flush of each kind. */
    method Shutdown(start: int, says: nat -> Attempt, later: int, saysLater: nat -> Attempt)
      returns (ghost drains: seq<Action>, ghost first: Action, ghost second: Action)
      requires Inv(View()) && phase.Running?
      modifies this
      ensures Inv(View()) && phase.Stopped? && queue == [] && accepted == old(accepted)
      ensures View() == Run(old(View()), [Action.Stop] + drains + [first] + [second])
      ensures forall i :: 0 <= i < |drains| ==> drains[i] == Drain
      ensures first.FinalBatch? && Decided(first, Run(old(View()), [Action.Stop] + drains), says)
      ensures second.FinalRollups? && Decided(second, Run(old(View()), [Action.Stop] + drains + [first]), saysLater)
      ensures !lossy ==> AllApplied(View())
    {
      hide Inv, Next, Absorbed, Concludes, Enumerates, AllApplied, Run;
      ghost var began := View();
      RunNothing(began);
      RunMore(began, [], Action.Stop);
      StopReceiving();
      assert [] + [Action.Stop] == [Action.Stop];
      drains := DrainInto();
      RunConcat(began, [Action.Stop], drains);
      ghost var r, keys;
      var attempts, more;
      attempts, r := FinishBatch(start, says);
      first := FinalBatch(r);
      RunMore(began, [Action.Stop] + drains, first);
      ghost var r2;
      more, r2, keys := FinishRollups(later, saysLater);
      second := FinalRollups(r2, keys);
      RunMore(began, [Action.Stop] + drains + [first], second);
      EmptyIsApplied(View());
    }

    /** The writer's whole life, for any arrivals, wake-ups and sink: the passes of the loop, then the
        shutdown. `actions` is the run of the machine that it amounts to. */
    method RunLoop(turns: seq<(Turn, int, nat -> Attempt)>, start: int, says: nat -> Attempt, later: int,
                   saysLater: nat -> Attempt)
      returns (ghost actions: seq<Action>)
      requires View() == Initial(cap, batchMax)
      modifies this
      ensures Inv(View()) && phase.Stopped? && queue == []
      ensures View() == Run(Initial(cap, batchMax), actions) && Lives(cap, batchMax, turns, actions, says, saysLater)
      ensures lossy <==> exists i :: 0 <= i < |actions| && Failing(actions[i])
      ensures (forall i :: 0 <= i < |actions| ==> !Failing(actions[i])) ==> AllApplied(View())
      ensures (forall i :: 0 <= i < |turns| ==> Behaves(turns[i].2)) && says(0).error.None? && saysLater(0).error.None? ==>
        AllApplied(View())
    {
      hide Inv, AllApplied, Run, Decided, Failing;
      actions := [];
      RunKeepsInv(cap, batchMax, []);
      RunNothing(View());
      for i := 0 to |turns|
        invariant Inv(View()) && phase.Running? && View() == Run(Initial(cap, batchMax), actions) && |actions| == i
        invariant forall j :: 0 <= j < i ==> Passes(cap, batchMax, turns[j], actions, j)
      {
        ghost var a := Pass(turns[i].0, turns[i].1, turns[i].2);
        RunMore(Initial(cap, batchMax), actions, a);
        PassesMore(cap, batchMax, turns, actions, a);
        actions := actions + [a];
      }
      ghost var passes := actions;
      ghost var drains, first, second := Shutdown(start, says, later, saysLater);
      ghost var last := [Action.Stop] + drains + [first] + [second];
      LifeOf(cap, batchMax, turns, passes, drains, first, second, says, saysLater);
      actions := passes + last;
      NoFailureApplies(cap, batchMax, actions, View());
      LostInLife(cap, batchMax, turns, actions, says, saysLater);
      if (forall i :: 0 <= i < |turns| ==> Behaves(turns[i].2)) && says(0).error.None? && saysLater(0).error.None? {
        GoodSinkNeverFails(cap, batchMax, turns, actions, says, saysLater);
      }
    }
  }

  // ---------- the whole life of a writer ----------

  /** Everything accepted has been applied, in order and with its totals. */
  ghost predicate AllApplied(s: State) {
    PlainOf(s.sink) == PlainOf(s.accepted) && forall k :: Total(ReportsOf(s.sink), k) == Total(ReportsOf(s.accepted), k)
  }

  /** When everything accepted has been applied, the stored row of an hour has the sums of the accepted
      counters and the largest accepted range and peak. */
  lemma StoredRowsAreSums(s: State, k: Key)
    requires AllApplied(s)
    ensures var row := Total(ReportsOf(s.sink), k);
      if exists i :: HasKey(ReportsOf(s.accepted), k, i) then row.Some? && SumsAndMaxima(ReportsOf(s.accepted), k, row.value)
      else row.None?
  {
    hide Total, ReportsOf, PlainOf, SumsAndMaxima, HasKey;
    TotalIsSums(ReportsOf(s.accepted), k);
  }

  /** The result of a flush is the one that the answers of the sink lead to. */
  ghost predicate Decided(a: Action, s: State, says: nat -> Attempt) {
    match a
    case FlushBatch(r) => exists n :: Concludes(r, |s.batch|, n, says)
    case FinalBatch(r) => exists n :: Concludes(r, |s.batch|, n, says)
    case FlushRollups(r, keys) => Enumerates(keys, s.rollups) && exists n :: Concludes(r, |keys|, n, says)
    case FinalRollups(r, keys) => Enumerates(keys, s.rollups) && exists n :: Concludes(r, |keys|, n, says)
    case _ => true
  }

  /** Action `i` is what the loop does in this turn. */
  ghost predicate Passes(cap: nat, batchMax: nat, turn: (Turn, int, nat -> Attempt), actions: seq<Action>, i: int)
    requires 0 <= i < |actions|
  {
    var s := Run(Initial(cap, batchMax), actions[..i]);
    && (turn.0.Arrival? ==> actions[i] == Enqueue(turn.0.event, false))
    && (!turn.0.Arrival? && !s.disabled && |s.batch| >= s.batchMax ==> actions[i].FlushBatch?)
    && (!turn.0.Arrival? && !s.disabled && |s.batch| < s.batchMax <= |s.rollups| ==> actions[i].FlushRollups?)
    && (s.disabled || (|s.batch| < s.batchMax && |s.rollups| < s.batchMax) ==>
          && (turn.0.Received? ==> actions[i].Receive?) && (turn.0.Tick? ==> actions[i].FlushBatch?)
          && (turn.0.RollupTick? ==> actions[i].FlushRollups?))
    && Decided(actions[i], s, turn.2)
  }

  /** The run of a writer: one action for each turn, then stop, drain and the last flushes. */
  ghost predicate Lives(cap: nat, batchMax: nat, turns: seq<(Turn, int, nat -> Attempt)>, actions: seq<Action>,
                        says: nat -> Attempt, saysLater: nat -> Attempt)
  {
    var t, n := |turns|, |actions|;
    && n >= t + 3
    && (forall i :: 0 <= i < t ==> Passes(cap, batchMax, turns[i], actions, i))
    && actions[t] == Stop && (forall i :: t < i < n - 2 ==> actions[i] == Drain)
    && actions[n - 2].FinalBatch? && Decided(actions[n - 2], Run(Initial(cap, batchMax), actions[..n - 2]), says)
    && actions[n - 1].FinalRollups? && Decided(actions[n - 1], Run(Initial(cap, batchMax), actions[..n - 1]), saysLater)
  }

  /** The sink has only transient failures. */
  ghost predicate Behaves(says: nat -> Attempt) {
    forall n: nat :: says(n).error.None? || FailsTransiently(says(n))
  }

  lemma RunNothing(s: State)
    ensures Run(s, []) == s
  {
  }

  lemma RunMore(s: State, actions: seq<Action>, a: Action)
    ensures Run(s, actions + [a]) == Next(Run(s, actions), a)
  {
    hide Next;
    assert (actions + [a])[..|actions|] == actions;
  }

  lemma {:induction false} RunConcat(s: State, a: seq<Action>, b: seq<Action>)
    ensures Run(s, a + b) == Run(Run(s, a), b)
    decreases |b|
  {
    hide Next;
    if b == [] {
      assert a + b == a;
    } else {
      RunConcat(s, a, b[..|b| - 1]);
      assert (a + b)[..|a| + |b| - 1] == a + b[..|b| - 1];
    }
  }

  lemma PassesMore(cap: nat, batchMax: nat, turns: seq<(Turn, int, nat -> Attempt)>, actions: seq<Action>, a: Action)
    requires |actions| < |turns| && forall j :: 0 <= j < |actions| ==> Passes(cap, batchMax, turns[j], actions, j)
    requires Passes(cap, batchMax, turns[|actions|], actions + [a], |actions|)
    ensures forall j :: 0 <= j <= |actions| ==> Passes(cap, batchMax, turns[j], actions + [a], j)
  {
    hide Run, Decided;
    forall j | 0 <= j < |actions|
      ensures Passes(cap, batchMax, turns[j], actions + [a], j)
    {
      assert (actions + [a])[..j] == actions[..j];
      assert Passes(cap, batchMax, turns[j], actions, j);
    }
  }

  lemma PassesLonger(cap: nat, batchMax: nat, turns: seq<(Turn, int, nat -> Attempt)>, passes: seq<Action>,
                     last: seq<Action>)
    requires |passes| == |turns| && forall j :: 0 <= j < |turns| ==> Passes(cap, batchMax, turns[j], passes, j)
    ensures forall j :: 0 <= j < |turns| ==> Passes(cap, batchMax, turns[j], passes + last, j)
  {
    hide Run, Decided;
    forall j | 0 <= j < |turns|
      ensures Passes(cap, batchMax, turns[j], passes + last, j)
    {
      assert (passes + last)[..j] == passes[..j];
      assert Passes(cap, batchMax, turns[j], passes, j);
    }
  }

  /** The places of the last actions in the whole list. */
  lemma LastActions(passes: seq<Action>, drains: seq<Action>, first: Action, second: Action)
    ensures var actions := passes + ([Stop] + drains + [first] + [second]);
      var t, n := |passes|, |actions|;
      && n == t + 3 + |drains| && actions[t] == Stop && actions[n - 2] == first && actions[n - 1] == second
      && (forall i :: t < i < n - 2 ==> actions[i] == drains[i - t - 1])
      && actions[..n - 2] == passes + ([Stop] + drains) && actions[..n - 1] == passes + ([Stop] + drains + [first])
  {
  }

  lemma LifeOf(cap: nat, batchMax: nat, turns: seq<(Turn, int, nat -> Attempt)>, passes: seq<Action>,
               drains: seq<Action>,
               first: Action, second: Action, says: nat -> Attempt, saysLater: nat -> Attempt)
    requires |passes| == |turns| && forall j :: 0 <= j < |turns| ==> Passes(cap, batchMax, turns[j], passes, j)
    requires forall i :: 0 <= i < |drains| ==> drains[i] == Drain
    requires var s := Run(Initial(cap, batchMax), passes);
      && first.FinalBatch? && Decided(first, Run(s, [Stop] + drains), says)
      && second.FinalRollups? && Decided(second, Run(s, [Stop] + drains + [first]), saysLater)
    ensures var actions := passes + ([Stop] + drains + [first] + [second]);
      && Lives(cap, batchMax, turns, actions, says, saysLater)
      && Run(Initial(cap, batchMax), actions) == Run(Run(Initial(cap, batchMax), passes), [Stop] + drains + [first] + [second])
  {
    hide Run, Decided, Passes;
    var s0, last := Initial(cap, batchMax), [Stop] + drains + [first] + [second];
    RunConcat(s0, passes, last);
    RunConcat(s0, passes, [Stop] + drains);
    RunConcat(s0, passes, [Stop] + drains + [first]);
    PassesLonger(cap, batchMax, turns, passes, last);
    LastActions(passes, drains, first, second);
  }

  lemma NoFailureApplies(cap: nat, batchMax: nat, actions: seq<Action>, s: State)
    requires s == Run(Initial(cap, batchMax), actions) && s.phase.Stopped? && s.queue == []
    ensures (forall i :: 0 <= i < |actions| ==> !Failing(actions[i])) ==> AllApplied(s)
  {
    hide Run, Failing, AllApplied, Inv;
    RunKeepsInv(cap, batchMax, actions);
    if forall i :: 0 <= i < |actions| ==> !Failing(actions[i]) {
      LossNeedsFailure(cap, batchMax, actions);
      EmptyIsApplied(s);
    }
  }

  lemma GoodAnswer(a: Action, s: State, says: nat -> Attempt)
    requires Decided(a, s, says)
    ensures Behaves(says) && (a.FlushBatch? || a.FlushRollups?) ==> !Failing(a)
    ensures says(0).error.None? && (a.FinalBatch? || a.FinalRollups?) ==> !Failing(a)
  {
    hide GivesUp, Enumerates;
    var size := if a.FlushBatch? || a.FinalBatch? then |s.batch| else if a.FlushRollups? || a.FinalRollups? then |a.keys| else 0;
    if a.FlushBatch? || a.FinalBatch? || a.FlushRollups? || a.FinalRollups? {
      var n :| Concludes(a.result, size, n, says);
      if n > 1 {
        assert FailsTransiently(says(0));
      }
    }
  }

  lemma GoodSinkNeverFails(cap: nat, batchMax: nat, turns: seq<(Turn, int, nat -> Attempt)>, actions: seq<Action>,
                           says: nat -> Attempt, saysLater: nat -> Attempt)
    requires Lives(cap, batchMax, turns, actions, says, saysLater)
    requires (forall i :: 0 <= i < |turns| ==> Behaves(turns[i].2)) && says(0).error.None? && saysLater(0).error.None?
    ensures forall i :: 0 <= i < |actions| ==> !Failing(actions[i])
  {
    hide Run, Decided, Behaves;
    var t, n := |turns|, |actions|;
    forall i | 0 <= i < n
      ensures !Failing(actions[i])
    {
      if i < t {
        assert Passes(cap, batchMax, turns[i], actions, i);
        GoodAnswer(actions[i], Run(Initial(cap, batchMax), actions[..i]), turns[i].2);
      } else if i >= n - 2 {
        GoodAnswer(actions[i], Run(Initial(cap, batchMax), actions[..i]), if i == n - 2 then says else saysLater);
      }
    }
  }

  /** Where the writer stands before action `i` of its life. */
  lemma {:induction false} PhaseOfLife(cap: nat, batchMax: nat, turns: seq<(Turn, int, nat -> Attempt)>,
                                       actions: seq<Action>,
                                       says: nat -> Attempt, saysLater: nat -> Attempt, i: nat)
    requires Lives(cap, batchMax, turns, actions, says, saysLater) && i < |actions|
    ensures Run(Initial(cap, batchMax), actions[..i]).phase ==
      if i <= |turns| then Running else if i <= |actions| - 2 then Draining else Flushed
  {
    hide Run, Decided, Next;
    RunNothing(Initial(cap, batchMax));
    if i > 0 {
      var before := Run(Initial(cap, batchMax), actions[..i - 1]);
      PhaseOfLife(cap, batchMax, turns, actions, says, saysLater, i - 1);
      RunMore(Initial(cap, batchMax), actions[..i - 1], actions[i - 1]);
      assert actions[..i - 1] + [actions[i - 1]] == actions[..i];
      assert i - 1 < |turns| ==> Passes(cap, batchMax, turns[i - 1], actions, i - 1);
      PhaseNext(before, actions[i - 1]);
    } else {
      assert actions[..0] == [];
    }
  }

  lemma PhaseNext(s: State, a: Action)
    ensures var t := Next(s, a);
      && (a.Enqueue? || a.Receive? || a.FlushBatch? || a.FlushRollups? || a.Drain? ==> t.phase == s.phase)
      && (a.Stop? && s.phase.Running? ==> t.phase.Draining?)
      && (a.FinalBatch? && s.phase.Draining? ==> t.phase.Flushed?)
  {
    hide Enumerates, Add, Full;
  }

  lemma FailingFlushesSomething(a: Action, s: State, says: nat -> Attempt)
    requires Decided(a, s, says) && Failing(a)
    ensures (a.FlushBatch? || a.FinalBatch?) ==> s.batch != []
    ensures (a.FlushRollups? || a.FinalRollups?) ==> s.rollups != map[] && Enumerates(a.keys, s.rollups)
  {
    hide GivesUp, Enumerates;
    if (a.FlushRollups? || a.FinalRollups?) {
      EnumeratesNothing(a.keys, s.rollups);
    }
  }

  /** In the life of a writer something is lost if and only if one of its flushes fails: whatever a
      failing flush holds is given up, and nothing else ever is. */
  lemma LostInLife(cap: nat, batchMax: nat, turns: seq<(Turn, int, nat -> Attempt)>, actions: seq<Action>,
                   says: nat -> Attempt, saysLater: nat -> Attempt)
    requires Lives(cap, batchMax, turns, actions, says, saysLater)
    ensures Run(Initial(cap, batchMax), actions).lossy <==> exists i :: 0 <= i < |actions| && Failing(actions[i])
  {
    hide Run, Decided, Initial;
    LostExactly(cap, batchMax, actions);
    forall i | 0 <= i < |actions|
      ensures GivenUpAt(cap, batchMax, actions, i) <==> Failing(actions[i])
    {
      FailureInLife(cap, batchMax, turns, actions, says, saysLater, i);
    }
  }

  lemma FailureInLife(cap: nat, batchMax: nat, turns: seq<(Turn, int, nat -> Attempt)>, actions: seq<Action>,
                      says: nat -> Attempt, saysLater: nat -> Attempt, i: nat)
    requires Lives(cap, batchMax, turns, actions, says, saysLater) && i < |actions|
    ensures GivenUpAt(cap, batchMax, actions, i) <==> Failing(actions[i])
  {
    hide Run, Decided, Initial, Enumerates;
    PhaseOfLife(cap, batchMax, turns, actions, says, saysLater, i);
    var t, n, s := |turns|, |actions|, Run(Initial(cap, batchMax), actions[..i]);
    if Failing(actions[i]) {
      if i < t {
        assert Passes(cap, batchMax, turns[i], actions, i);
        FailingFlushesSomething(actions[i], s, turns[i].2);
      } else {
        FailingFlushesSomething(actions[i], s, if i == n - 2 then says else saysLater);
      }
    }
  }

  lemma EmptyIsApplied(s: State)
    requires Inv(s) && s.phase.Stopped? && s.queue == []
    ensures !s.lossy ==> AllApplied(s)
  {
    hide IsSubseq;
    if !s.lossy {
      assert Line(s) == PlainOf(s.sink);
      SameLengthSame(Line(s), PlainOf(s.accepted));
      forall k
        ensures Total(ReportsOf(s.sink), k) == Total(ReportsOf(s.accepted), k)
      {
        assert Balanced(s, k);
      }
    }
  }
}
