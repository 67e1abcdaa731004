/** The outbound scheduler: five bounded lanes, four workers, any number of callers.

    One channel operation, one critical section or one counter update is one step, so a call to
    `Enqueue` may be interrupted between its channel operation and its counter. */
module Outbound {

  datatype Priority = Emergency | Interaction | Alert | Dashboard | Report
  datatype Lane = EmergencyLane | InteractionLane | AlertLane | BackgroundLane
  datatype Job = Job(key: string, priority: Priority, retryable: bool)

  /** A call to `Enqueue` in progress. `DashTook` has removed an older dashboard job and still owes
      its count; `Owes…` have only their counter left to update. */
  datatype Call =
    | Start(job: Job) | DashFull(job: Job) | DashTook(job: Job) | DashRetry(job: Job)
    | OwesAccepted | OwesDropped | OwesCoalesced | Done

  /** What one worker is doing; `failures` attempts of the job have failed so far. `Releasing` has
      counted the job's outcome and not yet released its key. */
  datatype Worker =
    | Waiting | Running(job: Job, failures: nat) | BackingOff(job: Job, failures: nat) | Releasing(job: Job)

  /** One value for each priority. */
  datatype PerPriority<T> = PerPriority(emergency: T, interaction: T, alert: T, dashboard: T, report: T) {
    function Get(p: Priority): T {
      match p
      case Emergency => emergency
      case Interaction => interaction
      case Alert => alert
      case Dashboard => dashboard
      case Report => report
    }

    function Set(p: Priority, v: T): PerPriority<T> {
      match p
      case Emergency => this.(emergency := v)
      case Interaction => this.(interaction := v)
      case Alert => this.(alert := v)
      case Dashboard => this.(dashboard := v)
      case Report => this.(report := v)
    }
  }

  /** One worker for each lane. */
  datatype Workers = Workers(emergency: Worker, interaction: Worker, alert: Worker, background: Worker) {
    function Get(l: Lane): Worker {
      match l
      case EmergencyLane => emergency
      case InteractionLane => interaction
      case AlertLane => alert
      case BackgroundLane => background
    }

    function Set(l: Lane, w: Worker): Workers {
      match l
      case EmergencyLane => this.(emergency := w)
      case InteractionLane => this.(interaction := w)
      case AlertLane => this.(alert := w)
      case BackgroundLane => this.(background := w)
    }
  }

  datatype Counters = Counters(accepted: nat, succeeded: nat, failed: nat, retried: nat, dropped: nat, coalesced: nat)

  /** `submitted` counts the calls made so far with a run function and a known priority. */
  datatype State = State(
    caps: PerPriority<nat>,
    queues: PerPriority<seq<Job>>,
    pending: PerPriority<set<string>>,
    workers: Workers,
    calls: seq<Call>,
    submitted: nat,
    counts: Counters)

  predicate Initial(s: State) {
    && s.caps.dashboard == 1
    && s.queues == PerPriority([], [], [], [], [])
    && s.pending == PerPriority({}, {}, {}, {}, {})
    && s.workers == Workers(Waiting, Waiting, Waiting, Waiting)
    && s.calls == [] && s.submitted == 0 && s.counts == Counters(0, 0, 0, 0, 0, 0)
  }

  predicate Serves(l: Lane, p: Priority) {
    match l
    case EmergencyLane => p == Emergency
    case InteractionLane => p == Interaction
    case AlertLane => p == Alert
    case BackgroundLane => p == Dashboard || p == Report
  }

  predicate Deduplicated(p: Priority) {
    p == Alert || p == Report
  }

  function Attempts(j: Job): nat {
    if j.retryable then 3 else 1
  }

  datatype Action =
    | Submit(job: Job)
    | CallStep(call: nat, cancelled: bool)   // the next step of one call
    | Receive(lane: Lane, priority: Priority)
    | Attempt(lane: Lane, ok: bool, cancelled: bool)
    | Wake(lane: Lane, cancelled: bool)      // the back-off ends
    | Release(lane: Lane)

  predicate Room(s: State, p: Priority) {
    |s.queues.Get(p)| < s.caps.Get(p)
  }

  function Put(s: State, i: nat, job: Job): State
    requires i < |s.calls|
  {
    s.(queues := s.queues.Set(job.priority, s.queues.Get(job.priority) + [job]), calls := s.calls[i := OwesAccepted])
  }

  /** The critical section of `enqueueDeduplicated`. */
  function Deduplicate(s: State, i: nat, job: Job): State
    requires i < |s.calls|
  {
    var p, k := job.priority, job.key;
    if k != "" && k in s.pending.Get(p) then s.(calls := s.calls[i := OwesCoalesced])
    else if !Room(s, p) then s.(calls := s.calls[i := OwesDropped])
    else if k == "" then Put(s, i, job)
    else Put(s, i, job).(pending := s.pending.Set(p, s.pending.Get(p) + {k}))
  }

  /** The first step of a call: a blocking send that the caller may cancel, a critical section, or
      the first of the three dashboard steps. */
  function StartCall(s: State, i: nat, job: Job, cancelled: bool): State
    requires i < |s.calls|
  {
    match job.priority
    case Alert => Deduplicate(s, i, job)
    case Report => Deduplicate(s, i, job)
    case Dashboard => if Room(s, Dashboard) then Put(s, i, job) else s.(calls := s.calls[i := DashFull(job)])
    case _ =>
      if cancelled then s.(calls := s.calls[i := OwesDropped])
      else if Room(s, job.priority) then Put(s, i, job)
      else s
  }

  function AdvanceCall(s: State, i: nat, cancelled: bool): State
    requires i < |s.calls|
  {
    match s.calls[i]
    case Start(job) => StartCall(s, i, job, cancelled)
    case DashFull(job) =>
      var q := s.queues.Get(Dashboard);
      if q == [] then s.(calls := s.calls[i := DashRetry(job)])
      else s.(queues := s.queues.Set(Dashboard, q[1..]), calls := s.calls[i := DashTook(job)])
    case DashTook(job) =>
      s.(calls := s.calls[i := DashRetry(job)], counts := s.counts.(coalesced := s.counts.coalesced + 1))
    case DashRetry(job) =>
      if Room(s, Dashboard) then Put(s, i, job) else s.(calls := s.calls[i := OwesDropped])
    case OwesAccepted =>
      s.(calls := s.calls[i := Done], counts := s.counts.(accepted := s.counts.accepted + 1))
    case OwesDropped =>
      s.(calls := s.calls[i := Done], counts := s.counts.(dropped := s.counts.dropped + 1))
    case OwesCoalesced =>
      s.(calls := s.calls[i := Done], counts := s.counts.(coalesced := s.counts.coalesced + 1))
    case Done => s
  }

  /** A worker finishes one attempt of its job. */
  function AttemptOnce(s: State, l: Lane, job: Job, failures: nat, ok: bool, cancelled: bool): State {
    if ok then
      s.(workers := s.workers.Set(l, Releasing(job)), counts := s.counts.(succeeded := s.counts.succeeded + 1))
    else if failures + 1 >= Attempts(job) || cancelled then
      s.(workers := s.workers.Set(l, Releasing(job)), counts := s.counts.(failed := s.counts.failed + 1))
    else
      s.(workers := s.workers.Set(l, BackingOff(job, failures + 1)),
         counts := s.counts.(retried := s.counts.retried + 1))
  }

  function ReleaseJob(s: State, l: Lane, job: Job): State {
    var t := s.(workers := s.workers.Set(l, Waiting));
    if job.key == "" || !Deduplicated(job.priority) then t
    else t.(pending := s.pending.Set(job.priority, s.pending.Get(job.priority) - {job.key}))
  }

  function AdvanceWorker(s: State, a: Action): State
    requires a.Receive? || a.Attempt? || a.Wake? || a.Release?
  {
    var w := s.workers.Get(a.lane);
    match a
    case Receive(l, p) =>
      var q := s.queues.Get(p);
      if !w.Waiting? || !Serves(l, p) || q == [] then s
      else s.(queues := s.queues.Set(p, q[1..]), workers := s.workers.Set(l, Running(q[0], 0)))
    case Attempt(l, ok, cancelled) =>
      if w.Running? then AttemptOnce(s, l, w.job, w.failures, ok, cancelled) else s
    case Wake(l, cancelled) =>
      if !w.BackingOff? then s
      else if cancelled then
        s.(workers := s.workers.Set(l, Releasing(w.job)), counts := s.counts.(failed := s.counts.failed + 1))
      else s.(workers := s.workers.Set(l, Running(w.job, w.failures)))
    case Release(l) =>
      if w.Releasing? then ReleaseJob(s, l, w.job) else s
  }

  function Next(s: State, a: Action): State {
    match a
    case Submit(job) => s.(calls := s.calls + [Start(job)], submitted := s.submitted + 1)
    case CallStep(i, cancelled) => if i < |s.calls| then AdvanceCall(s, i, cancelled) else s
    case _ => AdvanceWorker(s, a)
  }

  function Run(s: State, actions: seq<Action>): State {
    if actions == [] then s else Next(Run(s, actions[..|actions| - 1]), actions[|actions| - 1])
  }

  // ---------- reading what was written ----------

  lemma GetSet<T>(m: PerPriority<T>, p: Priority, v: T, q: Priority)
    ensures m.Set(p, v).Get(q) == if q == p then v else m.Get(q)
  {
  }

  lemma GetSetWorker(m: Workers, l: Lane, w: Worker, k: Lane)
    ensures m.Set(l, w).Get(k) == if k == l then w else m.Get(k)
  {
  }

  // ---------- conservation ----------

  /** How many submissions a call still has to account for. */
  function Weight(c: Call): nat {
    match c
    case DashTook(_) => 2
    case Done => 0
    case OwesAccepted => 0
    case _ => 1
  }

  function CallWeight(calls: seq<Call>): nat {
    if calls == [] then 0 else CallWeight(calls[..|calls| - 1]) + Weight(calls[|calls| - 1])
  }

  lemma {:induction false} CallWeightUpdate(calls: seq<Call>, i: nat, c: Call)
    requires i < |calls|
    ensures CallWeight(calls[i := c]) == CallWeight(calls) - Weight(calls[i]) + Weight(c)
    decreases |calls|
  {
    var n := |calls| - 1;
    if i < n {
      CallWeightUpdate(calls[..n], i, c);
      assert calls[i := c][..n] == calls[..n][i := c];
    } else {
      assert calls[i := c][..n] == calls[..n];
    }
  }

  lemma {:induction false} NothingOwed(calls: seq<Call>)
    requires forall i :: 0 <= i < |calls| ==> calls[i].Done? || calls[i].OwesAccepted?
    ensures CallWeight(calls) == 0
    decreases |calls|
  {
    if calls != [] {
      NothingOwed(calls[..|calls| - 1]);
    }
  }

  function Queued(q: PerPriority<seq<Job>>): nat {
    |q.emergency| + |q.interaction| + |q.alert| + |q.dashboard| + |q.report|
  }

  lemma QueuedSet(q: PerPriority<seq<Job>>, p: Priority, v: seq<Job>)
    ensures Queued(q.Set(p, v)) == Queued(q) - |q.Get(p)| + |v|
  {
  }

  function Busy(w: Worker): nat {
    if w.Running? || w.BackingOff? then 1 else 0
  }

  function Executing(w: Workers): nat {
    Busy(w.emergency) + Busy(w.interaction) + Busy(w.alert) + Busy(w.background)
  }

  lemma ExecutingSet(m: Workers, l: Lane, w: Worker)
    ensures Executing(m.Set(l, w)) == Executing(m) - Busy(m.Get(l)) + Busy(w)
  {
  }

  /** Every submitted job is in exactly one place. */
  predicate Conserved(s: State) {
    s.submitted == s.counts.succeeded + s.counts.failed + Queued(s.queues) + Executing(s.workers)
      + s.counts.dropped + s.counts.coalesced + CallWeight(s.calls)
  }

  lemma PutConserves(s: State, i: nat, job: Job)
    requires Conserved(s) && i < |s.calls| && Weight(s.calls[i]) == 1
    ensures Conserved(Put(s, i, job)) && forall m :: Conserved(Put(s, i, job).(pending := m))
  {
    hide Queued, Executing, CallWeight, PerPriority.Get, PerPriority.Set;
    CallWeightUpdate(s.calls, i, OwesAccepted);
    QueuedSet(s.queues, job.priority, s.queues.Get(job.priority) + [job]);
  }

  lemma CallConserves(s: State, i: nat, cancelled: bool)
    requires Conserved(s) && i < |s.calls|
    ensures Conserved(AdvanceCall(s, i, cancelled))
  {
    hide Queued, Executing, CallWeight, PerPriority.Get, PerPriority.Set;
    CallWeightUpdate(s.calls, i, Done);
    CallWeightUpdate(s.calls, i, OwesDropped);
    CallWeightUpdate(s.calls, i, OwesCoalesced);
    if s.calls[i].Start? || s.calls[i].DashFull? || s.calls[i].DashTook? || s.calls[i].DashRetry? {
      var job := s.calls[i].job;
      CallWeightUpdate(s.calls, i, DashFull(job));
      CallWeightUpdate(s.calls, i, DashTook(job));
      CallWeightUpdate(s.calls, i, DashRetry(job));
      if s.calls[i].Start? || s.calls[i].DashRetry? {
        PutConserves(s, i, job);
      } else if s.queues.Get(Dashboard) != [] {
        QueuedSet(s.queues, Dashboard, s.queues.Get(Dashboard)[1..]);
      }
    }
  }

  lemma WorkerConserves(s: State, a: Action)
    requires Conserved(s) && (a.Receive? || a.Attempt? || a.Wake? || a.Release?)
    ensures Conserved(AdvanceWorker(s, a))
  {
    hide Queued, Executing, CallWeight, PerPriority.Get, PerPriority.Set, Workers.Get, Workers.Set;
    forall w: Worker
      ensures Executing(s.workers.Set(a.lane, w)) == Executing(s.workers) - Busy(s.workers.Get(a.lane)) + Busy(w)
    {
      ExecutingSet(s.workers, a.lane, w);
    }
    if a.Receive? && s.queues.Get(a.priority) != [] {
      QueuedSet(s.queues, a.priority, s.queues.Get(a.priority)[1..]);
    }
  }

  // ---------- what is stored where ----------

  /** Queues hold jobs of their own priority, within capacity. */
  predicate ProperQueue(q: seq<Job>, p: Priority, cap: nat) {
    |q| <= cap && forall i :: 0 <= i < |q| ==> q[i].priority == p
  }

  predicate ProperWorker(l: Lane, w: Worker) {
    && (!w.Waiting? ==> Serves(l, w.job.priority))
    && (w.Running? || w.BackingOff? ==> w.failures < Attempts(w.job))
    && (w.BackingOff? ==> w.failures > 0)
  }

  predicate ProperCall(c: Call) {
    c.DashFull? || c.DashTook? || c.DashRetry? ==> c.job.priority == Dashboard
  }

  ghost predicate Proper(s: State) {
    && (forall p: Priority :: ProperQueue(s.queues.Get(p), p, s.caps.Get(p)))
    && (forall l: Lane :: ProperWorker(l, s.workers.Get(l)))
    && (forall i :: 0 <= i < |s.calls| ==> ProperCall(s.calls[i]))
  }

  lemma ProperSet(s: State, t: State, p: Priority, v: seq<Job>)
    requires Proper(s) && ProperQueue(v, p, s.caps.Get(p))
    requires t.caps == s.caps && t.queues == s.queues.Set(p, v)
    ensures forall q: Priority :: ProperQueue(t.queues.Get(q), q, t.caps.Get(q))
  {
    hide PerPriority.Get, PerPriority.Set, ProperQueue, ProperWorker, ProperCall;
    forall q: Priority ensures ProperQueue(t.queues.Get(q), q, t.caps.Get(q)) {
      GetSet(s.queues, p, v, q);
    }
  }

  lemma CallIsProper(s: State, i: nat, cancelled: bool)
    requires Proper(s) && i < |s.calls|
    ensures Proper(AdvanceCall(s, i, cancelled))
  {
    hide PerPriority.Get, PerPriority.Set, Workers.Get, ProperWorker;
    var t := AdvanceCall(s, i, cancelled);
    assert ProperCall(s.calls[i]);
    if t.queues != s.queues {
      var p := s.calls[i].job.priority;
      assert ProperQueue(s.queues.Get(p), p, s.caps.Get(p));
      var v := if s.calls[i].DashFull? then s.queues.Get(p)[1..] else s.queues.Get(p) + [s.calls[i].job];
      ProperSet(s, t, p, v);
    }
  }

  lemma WorkerIsProper(s: State, a: Action)
    requires Proper(s) && (a.Receive? || a.Attempt? || a.Wake? || a.Release?)
    ensures Proper(AdvanceWorker(s, a))
  {
    hide PerPriority.Get, PerPriority.Set, Workers.Get, Workers.Set;
    var t := AdvanceWorker(s, a);
    assert ProperWorker(a.lane, s.workers.Get(a.lane));
    if t.queues != s.queues {
      var q := s.queues.Get(a.priority);
      assert ProperQueue(q, a.priority, s.caps.Get(a.priority));
      ProperSet(s, t, a.priority, q[1..]);
    }
    forall l: Lane ensures ProperWorker(l, t.workers.Get(l)) {
      assert ProperWorker(l, s.workers.Get(l));
      forall w { GetSetWorker(s.workers, a.lane, w, l); }
    }
  }

  // ---------- one job per key ----------

  function CountKey(q: seq<Job>, k: string): nat {
    if q == [] then 0 else (if q[0].key == k then 1 else 0) + CountKey(q[1..], k)
  }

  lemma {:induction false} CountKeyAppend(q: seq<Job>, j: Job, k: string)
    ensures CountKey(q + [j], k) == CountKey(q, k) + (if j.key == k then 1 else 0)
  {
    if q != [] {
      CountKeyAppend(q[1..], j, k);
      assert (q + [j])[1..] == q[1..] + [j];
    }
  }

  /** The worker that serves a deduplicated priority. */
  function LaneOf(p: Priority): Lane {
    if p == Alert then AlertLane else BackgroundLane
  }

  function Holds(w: Worker, p: Priority, k: string): nat {
    if !w.Waiting? && w.job.priority == p && w.job.key == k then 1 else 0
  }

  /** Jobs with key `k` of priority `p` that are queued, running, or finished but not released. */
  function Live(s: State, p: Priority, k: string): nat {
    CountKey(s.queues.Get(p), k) + Holds(s.workers.Get(LaneOf(p)), p, k)
  }

  predicate Exclusive(s: State, p: Priority, k: string) {
    Live(s, p, k) == if k in s.pending.Get(p) then 1 else 0
  }

  lemma PutLive(s: State, i: nat, job: Job, p: Priority, k: string)
    requires i < |s.calls|
    ensures Live(Put(s, i, job), p, k) == Live(s, p, k) + if job.priority == p && job.key == k then 1 else 0
  {
    hide PerPriority.Get, PerPriority.Set, Workers.Get, CountKey;
    GetSet(s.queues, job.priority, s.queues.Get(job.priority) + [job], p);
    CountKeyAppend(s.queues.Get(p), job, k);
  }

  lemma CallIsExclusive(s: State, i: nat, cancelled: bool, p: Priority, k: string)
    requires Proper(s) && i < |s.calls| && Deduplicated(p) && k != "" && Exclusive(s, p, k)
    ensures Exclusive(AdvanceCall(s, i, cancelled), p, k)
  {
    hide PerPriority.Get, PerPriority.Set, Workers.Get, CountKey, Put;
    var c := s.calls[i];
    assert ProperCall(c);
    forall v { GetSet(s.queues, Dashboard, v, p); }
    if c.Start? || c.DashRetry? {
      PutLive(s, i, c.job, p, k);
      GetSet(s.pending, c.job.priority, s.pending.Get(c.job.priority) + {c.job.key}, p);
      PutPending(s, i, c.job);
    }
  }

  lemma PutPending(s: State, i: nat, job: Job)
    requires i < |s.calls|
    ensures Put(s, i, job).pending == s.pending
    ensures forall m: PerPriority<set<string>> ::
      Put(s, i, job).(pending := m).queues == Put(s, i, job).queues && Put(s, i, job).(pending := m).workers == Put(s, i, job).workers
  {
  }

  lemma WorkerIsExclusive(s: State, a: Action, p: Priority, k: string)
    requires Proper(s) && (a.Receive? || a.Attempt? || a.Wake? || a.Release?)
    requires Deduplicated(p) && k != "" && Exclusive(s, p, k)
    ensures Exclusive(AdvanceWorker(s, a), p, k)
  {
    hide PerPriority.Get, PerPriority.Set, Workers.Get, Workers.Set;
    var w := s.workers.Get(a.lane);
    assert ProperWorker(a.lane, w);
    forall w' { GetSetWorker(s.workers, a.lane, w', LaneOf(p)); }
    if a.Receive? {
      var q := s.queues.Get(a.priority);
      assert ProperQueue(q, a.priority, s.caps.Get(a.priority));
      if q != [] {
        GetSet(s.queues, a.priority, q[1..], p);
      }
    } else if a.Release? && w.Releasing? {
      GetSet(s.pending, w.job.priority, s.pending.Get(w.job.priority) - {w.job.key}, p);
    }
  }

  // ---------- every run ----------

  ghost predicate Inv(s: State) {
    && Proper(s) && Conserved(s)
    && (forall p, k :: Deduplicated(p) && k != "" ==> Exclusive(s, p, k))
  }

  lemma SubmitKeepsInv(s: State, job: Job)
    requires Inv(s)
    ensures Inv(Next(s, Submit(job)))
  {
    var t := Next(s, Submit(job));
    assert t.calls[..|t.calls| - 1] == s.calls;
    forall p, k | Deduplicated(p) && k != "" ensures Exclusive(t, p, k) {
      assert Exclusive(s, p, k);
    }
  }

  lemma StepKeepsInv(s: State, a: Action)
    requires Inv(s)
    ensures Inv(Next(s, a))
  {
    hide Proper, Conserved, Exclusive, AdvanceCall, AdvanceWorker;
    if a.Submit? {
      SubmitKeepsInv(s, a.job);
    } else if a.CallStep? {
      if a.call < |s.calls| {
        CallConserves(s, a.call, a.cancelled);
        CallIsProper(s, a.call, a.cancelled);
        forall p, k | Deduplicated(p) && k != "" ensures Exclusive(Next(s, a), p, k) {
          CallIsExclusive(s, a.call, a.cancelled, p, k);
        }
      }
    } else {
      WorkerConserves(s, a);
      WorkerIsProper(s, a);
      forall p, k | Deduplicated(p) && k != "" ensures Exclusive(Next(s, a), p, k) {
        WorkerIsExclusive(s, a, p, k);
      }
    }
  }

  lemma {:induction false} RunKeepsInv(s: State, actions: seq<Action>)
    requires Initial(s)
    ensures Inv(Run(s, actions))
    decreases |actions|
  {
    if actions != [] {
      hide Inv, Initial, Next;
      RunKeepsInv(s, actions[..|actions| - 1]);
      StepKeepsInv(Run(s, actions[..|actions| - 1]), actions[|actions| - 1]);
    }
  }

  /** At most one alert or report job of a non-empty key is queued or running, and its key is
      reserved exactly while there is one. */
  lemma OneJobPerKey(s: State, actions: seq<Action>, p: Priority, k: string)
    requires Initial(s) && Deduplicated(p) && k != ""
    ensures var t := Run(s, actions);
      && CountKey(t.queues.Get(p), k) + Holds(t.workers.Get(LaneOf(p)), p, k) <= 1
      && (CountKey(t.queues.Get(p), k) + Holds(t.workers.Get(LaneOf(p)), p, k) == 1 <==> k in t.pending.Get(p))
      && (forall l :: l != LaneOf(p) ==> Holds(t.workers.Get(l), p, k) == 0)
  {
    hide Initial, Run, PerPriority.Get, Workers.Get;
    RunKeepsInv(s, actions);
    var t := Run(s, actions);
    assert Exclusive(t, p, k);
    forall l | l != LaneOf(p) ensures Holds(t.workers.Get(l), p, k) == 0 {
      assert ProperWorker(l, t.workers.Get(l));
    }
  }

  /** A worker never starts a fourth attempt; a job that may not be retried gets one and never waits for
      another. */
  lemma AttemptsAreBounded(s: State, actions: seq<Action>, l: Lane)
    requires Initial(s)
    ensures var w := Run(s, actions).workers.Get(l);
      && (w.Running? || w.BackingOff? ==> w.failures <= 2)
      && (w.Running? && !w.job.retryable ==> w.failures == 0)
      && (w.BackingOff? ==> w.job.retryable && w.failures >= 1)
  {
    hide Initial, Run, Workers.Get;
    RunKeepsInv(s, actions);
    assert ProperWorker(l, Run(s, actions).workers.Get(l));
  }

  /** A failed attempt of a job that may be retried is followed by another until three have failed,
      unless the context is cancelled; a job that may not be retried has failed at once. */
  lemma FailureIsRetried(s: State, actions: seq<Action>, l: Lane)
    requires Initial(s) && Run(s, actions).workers.Get(l).Running?
    ensures var t := Run(s, actions); var w := t.workers.Get(l);
      var failed := Next(t, Attempt(l, false, false));
      if w.job.retryable && w.failures < 2 then
        && failed.counts == t.counts.(retried := t.counts.retried + 1)
        && Next(failed, Wake(l, false)).workers.Get(l) == Running(w.job, w.failures + 1)
      else
        && failed.counts == t.counts.(failed := t.counts.failed + 1) && failed.workers.Get(l) == Releasing(w.job)
  {
    hide Initial, Run, Workers.Get, Workers.Set, Conserved, Exclusive;
    RunKeepsInv(s, actions);
    var t := Run(s, actions);
    var w := t.workers.Get(l);
    assert ProperWorker(l, w);
    forall v, u: Workers { GetSetWorker(u, l, v, l); }
  }

  // ---------- first in, first out ----------

  /** The job that a step puts into the queue of `p`. */
  function PutBy(s: State, a: Action, p: Priority): seq<Job> {
    if a.CallStep? && a.call < |s.calls| && a.call < |Next(s, a).calls| && (s.calls[a.call].Start? || s.calls[a.call].DashRetry?)
       && s.calls[a.call].job.priority == p && Next(s, a).calls[a.call].OwesAccepted?
    then [s.calls[a.call].job] else []
  }

  /** The job that a step takes out of it: a worker starts it, or a newer dashboard replaces it. */
  function TakenBy(s: State, a: Action, p: Priority): seq<Job> {
    if a.Receive? && a.priority == p && s.workers.Get(a.lane).Waiting? && Next(s, a).workers.Get(a.lane).Running?
    then [Next(s, a).workers.Get(a.lane).job]
    else if a.CallStep? && a.call < |s.calls| && s.calls[a.call].DashFull? && p == Dashboard && s.queues.dashboard != []
    then [s.queues.dashboard[0]] else []
  }

  function PutIn(s: State, actions: seq<Action>, p: Priority): seq<Job> {
    if actions == [] then [] else
    var n := |actions| - 1;
    PutIn(s, actions[..n], p) + PutBy(Run(s, actions[..n]), actions[n], p)
  }

  function TakenIn(s: State, actions: seq<Action>, p: Priority): seq<Job> {
    if actions == [] then [] else
    var n := |actions| - 1;
    TakenIn(s, actions[..n], p) + TakenBy(Run(s, actions[..n]), actions[n], p)
  }

  lemma CallMovesQueue(s: State, i: nat, cancelled: bool, p: Priority)
    requires i < |s.calls| && ProperCall(s.calls[i])
    ensures var a := CallStep(i, cancelled);
      s.queues.Get(p) + PutBy(s, a, p) == TakenBy(s, a, p) + Next(s, a).queues.Get(p)
  {
    hide PerPriority.Get, PerPriority.Set, Workers.Get;
    var c := s.calls[i];
    assert s.queues.Get(Dashboard) == s.queues.dashboard by { DashboardQueue(s.queues); }
    if c.Start? || c.DashRetry? {
      GetSet(s.queues, c.job.priority, s.queues.Get(c.job.priority) + [c.job], p);
    } else if c.DashFull? && s.queues.Get(Dashboard) != [] {
      GetSet(s.queues, Dashboard, s.queues.Get(Dashboard)[1..], p);
    }
  }

  lemma DashboardQueue(q: PerPriority<seq<Job>>)
    ensures q.Get(Dashboard) == q.dashboard
  {
  }

  lemma WorkerMovesQueue(s: State, a: Action, p: Priority)
    requires a.Receive? || a.Attempt? || a.Wake? || a.Release?
    ensures s.queues.Get(p) + PutBy(s, a, p) == TakenBy(s, a, p) + Next(s, a).queues.Get(p)
  {
    hide PerPriority.Get, PerPriority.Set, Workers.Get, Workers.Set;
    if a.Receive? && s.queues.Get(a.priority) != [] {
      GetSet(s.queues, a.priority, s.queues.Get(a.priority)[1..], p);
      GetSetWorker(s.workers, a.lane, Running(s.queues.Get(a.priority)[0], 0), a.lane);
    }
  }

  /** In every run the jobs taken from a queue are the first ones put into it, in that order, and the rest
      is still there. */
  lemma {:induction false} FirstInFirstOut(s: State, actions: seq<Action>, p: Priority)
    requires Initial(s)
    ensures PutIn(s, actions, p) == TakenIn(s, actions, p) + Run(s, actions).queues.Get(p)
    decreases |actions|
  {
    hide Next, PutBy, TakenBy, PerPriority.Get, Inv;
    if actions == [] {
      EmptyQueue(s, p);
    } else {
      var n := |actions| - 1;
      var t, a := Run(s, actions[..n]), actions[n];
      FirstInFirstOut(s, actions[..n], p);
      RunKeepsInv(s, actions[..n]);
      MovesQueue(t, a, p);
      Shifted(PutIn(s, actions[..n], p), TakenIn(s, actions[..n], p), t.queues.Get(p), PutBy(t, a, p), TakenBy(t, a, p),
              Next(t, a).queues.Get(p));
    }
  }

  lemma EmptyQueue(s: State, p: Priority)
    requires Initial(s)
    ensures s.queues.Get(p) == []
  {
  }

  lemma Shifted(puts: seq<Job>, takes: seq<Job>, before: seq<Job>, put: seq<Job>, taken: seq<Job>, after: seq<Job>)
    requires puts == takes + before && before + put == taken + after
    ensures puts + put == takes + taken + after
  {
    assert puts + put == takes + (before + put);
    assert takes + taken + after == takes + (taken + after);
  }

  lemma MovesQueue(s: State, a: Action, p: Priority)
    requires Inv(s)
    ensures s.queues.Get(p) + PutBy(s, a, p) == TakenBy(s, a, p) + Next(s, a).queues.Get(p)
  {
    hide Conserved, Exclusive, AdvanceCall, AdvanceWorker, PerPriority.Get;
    if a.CallStep? && a.call < |s.calls| {
      CallMovesQueue(s, a.call, a.cancelled, p);
    } else if a.Receive? || a.Attempt? || a.Wake? || a.Release? {
      WorkerMovesQueue(s, a, p);
    }
  }

  /** When no call is between its channel operation and its counter, every submission has been
      counted once or is still in the scheduler. */
  lemma SubmissionsAreConserved(s: State, actions: seq<Action>)
    requires Initial(s)
    ensures var t := Run(s, actions);
      (forall i :: 0 <= i < |t.calls| ==> t.calls[i].Done? || t.calls[i].OwesAccepted?) ==>
        t.submitted == t.counts.succeeded + t.counts.failed + Queued(t.queues) + Executing(t.workers)
          + t.counts.dropped + t.counts.coalesced
  {
    hide Initial, Run, Queued, Executing, CallWeight, Proper;
    RunKeepsInv(s, actions);
    var t := Run(s, actions);
    if forall i :: 0 <= i < |t.calls| ==> t.calls[i].Done? || t.calls[i].OwesAccepted? {
      NothingOwed(t.calls);
    }
  }

  // ---------- the scheduler's own methods ----------

  datatype EnqueueResult = Accepted | Coalesced | QueueFull

  /** One call to the job's run function: whether it succeeds, whether the context is cancelled when
      it returns, and whether it is cancelled during the back-off after it. */
  datatype Try = Try(ok: bool, cancelled: bool, cancelledWaiting: bool)

  predicate GivesUp(t: Try) {
    t.cancelled || t.cancelledWaiting
  }

  /** A call that no other step interrupts is over after at most five steps. */
  function Uninterrupted(s: State, job: Job, cancelled: bool): State
    requires s.calls == []
  {
    var step := CallStep(0, cancelled);
    Run(s, [Submit(job), step, step, step, step, step])
  }

  lemma UninterruptedSteps(s: State, job: Job, c: bool)
    requires s.calls == []
    ensures Uninterrupted(s, job, c) ==
      Next(Next(Next(Next(Next(Next(s, Submit(job)), CallStep(0, c)), CallStep(0, c)), CallStep(0, c)),
                CallStep(0, c)), CallStep(0, c))
  {
    hide Next;
    var a, b := Submit(job), CallStep(0, c);
    assert [a, b, b, b, b, b][..5] == [a, b, b, b, b] && [a, b, b, b, b][..4] == [a, b, b, b] && [a, b, b, b][..3] == [a, b, b];
    assert [a, b, b][..2] == [a, b] && [a, b][..1] == [a] && [a][..0] == [];
    assert Run(s, []) == s;
    assert Run(s, [a]) == Next(s, a);
    assert Run(s, [a, b]) == Next(Run(s, [a]), b);
    assert Run(s, [a, b, b]) == Next(Run(s, [a, b]), b);
    assert Run(s, [a, b, b, b]) == Next(Run(s, [a, b, b]), b);
    assert Run(s, [a, b, b, b, b]) == Next(Run(s, [a, b, b, b]), b);
  }

  lemma SetBack<T>(m: PerPriority<T>, p: Priority, v: T)
    ensures m.Set(p, v).Set(p, m.Get(p)) == m
  {
  }

  lemma RunNothing(s: State)
    ensures Run(s, []) == s
  {
  }

  lemma RunMore(s: State, actions: seq<Action>, a: Action)
    ensures Run(s, actions + [a]) == Next(Run(s, actions), a)
  {
    assert (actions + [a])[..|actions|] == actions;
  }

  lemma SetWorkerLaws(m: Workers, l: Lane, w: Worker, v: Worker)
    ensures m.Set(l, m.Get(l)) == m && m.Set(l, w).Set(l, v) == m.Set(l, v) && m.Set(l, w).Get(l) == w
  {
  }

  class Scheduler {
    const caps: PerPriority<nat>
    var queues: PerPriority<seq<Job>>
    var pending: PerPriority<set<string>>
    var counts: Counters
    ghost var workers: Workers
    ghost var submitted: nat

    /** The state between two calls, with no call in progress. */
    ghost function View(): State
      reads this
    {
      State(caps, queues, pending, workers, [], submitted, counts)
    }

    constructor (emergency: nat, interaction: nat, alert: nat, report: nat)
      ensures Initial(View()) && caps == PerPriority(emergency, interaction, alert, 1, report)
    {
      caps := PerPriority(emergency, interaction, alert, 1, report);
      queues := PerPriority([], [], [], [], []);
      pending := PerPriority({}, {}, {}, {}, {});
      counts := Counters(0, 0, 0, 0, 0, 0);
      workers := Workers(Waiting, Waiting, Waiting, Waiting);
      submitted := 0;
    }

    method TrySend(job: Job) returns (sent: bool)
      modifies this`queues
      ensures sent == old(Room(View(), job.priority))
      ensures queues == if sent then old(queues.Set(job.priority, queues.Get(job.priority) + [job])) else old(queues)
    {
      var q := queues.Get(job.priority);
      sent := |q| < caps.Get(job.priority);
      if sent {
        queues := queues.Set(job.priority, q + [job]);
      }
    }

    method EnqueueDeduplicated(job: Job) returns (r: EnqueueResult)
      requires Deduplicated(job.priority)
      modifies this
      ensures View() == Uninterrupted(old(View()), job, false).(calls := [])
      ensures r.Coalesced? <==> job.key != "" && job.key in old(pending.Get(job.priority))
      ensures r.QueueFull? <==> !r.Coalesced? && |old(queues.Get(job.priority))| >= caps.Get(job.priority)
      ensures r.Accepted? ==> counts.accepted == old(counts.accepted) + 1
    {
      hide Run, PerPriority.Get, PerPriority.Set, Uninterrupted;
      UninterruptedSteps(View(), job, false);
      var p, k := job.priority, job.key;
      submitted := submitted + 1;
      if k != "" {
        if k in pending.Get(p) {
          counts := counts.(coalesced := counts.coalesced + 1);
          return Coalesced;
        }
        pending := pending.Set(p, pending.Get(p) + {k});
      }
      var sent := TrySend(job);
      if sent {
        counts := counts.(accepted := counts.accepted + 1);
        return Accepted;
      }
      if k != "" {
        GetSet(old(pending), p, old(pending).Get(p) + {k}, p);
        SetBack(old(pending), p, old(pending).Get(p) + {k});
        assert old(pending).Get(p) + {k} - {k} == old(pending).Get(p);
        pending := pending.Set(p, pending.Get(p) - {k});
      }
      counts := counts.(dropped := counts.dropped + 1);
      return QueueFull;
    }

    /** Latest wins: a full dashboard slot gives up its job for the new one. */
    method EnqueueDashboard(job: Job) returns (r: EnqueueResult)
      requires job.priority == Dashboard && caps.dashboard == 1 && |queues.dashboard| <= 1
      modifies this
      ensures View() == Uninterrupted(old(View()), job, false).(calls := [])
      ensures r == Accepted && queues == old(queues).Set(Dashboard, [job])
      ensures counts.coalesced == old(counts.coalesced) + |old(queues.dashboard)|
    {
      hide Run, Uninterrupted;
      UninterruptedSteps(View(), job, false);
      submitted := submitted + 1;
      var sent := TrySend(job);
      if !sent {
        if queues.dashboard != [] {
          queues := queues.Set(Dashboard, queues.dashboard[1..]);
          counts := counts.(coalesced := counts.coalesced + 1);
        }
        sent := TrySend(job);
      }
      assert queues.dashboard == [job];
      counts := counts.(accepted := counts.accepted + 1);
      return Accepted;
    }

    /** A blocking send. It returns once there is room or the caller's context is cancelled. */
    method EnqueueBlocking(job: Job, cancelled: bool) returns (r: EnqueueResult)
      requires job.priority == Emergency || job.priority == Interaction
      requires cancelled || Room(View(), job.priority)
      modifies this
      ensures View() == Uninterrupted(old(View()), job, cancelled).(calls := [])
      ensures r == if cancelled then QueueFull else Accepted
    {
      hide Run, Uninterrupted, PerPriority.Get, PerPriority.Set;
      UninterruptedSteps(View(), job, cancelled);
      submitted := submitted + 1;
      if cancelled {
        counts := counts.(dropped := counts.dropped + 1);
        return QueueFull;
      }
      var sent := TrySend(job);
      counts := counts.(accepted := counts.accepted + 1);
      return Accepted;
    }

    /** The worker's retry loop. `tries` supplies the outcomes of the calls; `s` is any state of the
        scheduler in which a worker has just taken the job. */
    method Execute(job: Job, tries: seq<Try>, ghost s: State, ghost lane: Lane) returns (attempts: nat, ok: bool,
                                                                                         ghost steps: seq<Action>)
      requires |tries| == 3
      requires s.workers.Get(lane) == Running(job, 0) && s.counts == counts
      modifies this`counts
      ensures 1 <= attempts <= 3 && (!job.retryable ==> attempts == 1)
      ensures forall k :: 0 <= k < attempts - 1 ==> !tries[k].ok && !GivesUp(tries[k])
      ensures ok == tries[attempts - 1].ok
      ensures job.retryable ==>
        (ok <==> exists n :: 0 <= n < 3 && tries[n].ok && forall k :: 0 <= k < n ==> !GivesUp(tries[k]))
      ensures job.retryable && !ok ==> attempts == 3 || tries[attempts - 1].cancelled || tries[attempts - 1].cancelledWaiting
      ensures var waited := if job.retryable && !ok && attempts < 3 && !tries[attempts - 1].cancelled then 1 else 0;
        counts == old(counts).(succeeded := old(counts.succeeded) + (if ok then 1 else 0),
                               failed := old(counts.failed) + (if ok then 0 else 1),
                               retried := old(counts.retried) + attempts - 1 + waited)
      ensures Run(s, steps) == s.(workers := s.workers.Set(lane, Releasing(job)), counts := counts)
    {
      hide Workers.Get, Workers.Set, Run;
      var max := if job.retryable then 3 else 1;
      attempts := 0;
      steps := [];
      SetWorkerLaws(s.workers, lane, Waiting, Waiting);
      RunNothing(s);
      while true
        invariant attempts < max
        invariant forall k :: 0 <= k < attempts ==> !tries[k].ok && !GivesUp(tries[k])
        invariant counts == old(counts).(retried := old(counts.retried) + attempts)
        invariant Run(s, steps) == s.(workers := s.workers.Set(lane, Running(job, attempts)), counts := counts)
        decreases max - attempts
      {
        var t := tries[attempts];
        SetWorkerLaws(s.workers, lane, Running(job, attempts), Releasing(job));
        SetWorkerLaws(s.workers, lane, Running(job, attempts), BackingOff(job, attempts + 1));
        SetWorkerLaws(s.workers, lane, BackingOff(job, attempts + 1), Releasing(job));
        SetWorkerLaws(s.workers, lane, BackingOff(job, attempts + 1), Running(job, attempts + 1));
        RunMore(s, steps, Attempt(lane, t.ok, t.cancelled));
        steps := steps + [Attempt(lane, t.ok, t.cancelled)];
        attempts := attempts + 1;
        if t.ok {
          counts := counts.(succeeded := counts.succeeded + 1);
          return attempts, true, steps;
        }
        if attempts >= max || t.cancelled {
          counts := counts.(failed := counts.failed + 1);
          return attempts, false, steps;
        }
        counts := counts.(retried := counts.retried + 1);
        RunMore(s, steps, Wake(lane, t.cancelledWaiting));
        steps := steps + [Wake(lane, t.cancelledWaiting)];
        if t.cancelledWaiting {
          counts := counts.(failed := counts.failed + 1);
          return attempts, false, steps;
        }
      }
    }
  }
}
