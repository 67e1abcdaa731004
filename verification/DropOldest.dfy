/** The drop-oldest queues: `rules.Queue` (normal lane), `enrichment.Service` and `RouteService`.

    All three keep a bounded channel and a set of pending keys under a mutex. A producer holds the
    mutex while it tries to send, takes the oldest entry out, and tries again; consumers receive
    without the mutex and take it only to clear the key. One channel operation is one step, so a
    consumer may run between any two steps of a producer. */
module DropOldest {

  /** Where the producer that holds the mutex stands. */
  datatype Phase<K> = Idle | Blocked(key: K) | Evicted(key: K)

  datatype State<K> = State(
    cap: nat, queue: seq<K>, pending: set<K>, inFlight: multiset<K>, phase: Phase<K>,
    submitted: nat, coalesced: nat, dropped: nat, taken: nat)

  datatype Action<K> =
    | Submit(key: K)     // lock, coalesce or mark pending, first send
    | Evict              // receive the oldest entry, if any
    | Resend             // second send, unlock
    | Take               // a consumer receives
    | Release(key: K)    // a consumer has finished and clears its key

  function Next<K>(s: State<K>, a: Action<K>): State<K> {
    match a
    case Submit(k) =>
      if !s.phase.Idle? then s
      else if k in s.pending then s.(submitted := s.submitted + 1, coalesced := s.coalesced + 1)
      else if |s.queue| < s.cap then s.(submitted := s.submitted + 1, pending := s.pending + {k},
                                        queue := s.queue + [k])
      else s.(submitted := s.submitted + 1, pending := s.pending + {k}, phase := Blocked(k))
    case Evict =>
      if !s.phase.Blocked? then s
      else if s.queue == [] then s.(phase := Evicted(s.phase.key))
      else s.(queue := s.queue[1..], pending := s.pending - {s.queue[0]}, dropped := s.dropped + 1,
              phase := Evicted(s.phase.key))
    case Resend =>
      if !s.phase.Evicted? then s
      else if |s.queue| < s.cap then s.(queue := s.queue + [s.phase.key], phase := Idle)
      else s.(pending := s.pending - {s.phase.key}, dropped := s.dropped + 1, phase := Idle)
    case Take =>
      if s.queue == [] then s
      else s.(queue := s.queue[1..], inFlight := s.inFlight + multiset{s.queue[0]}, taken := s.taken + 1)
    case Release(k) =>
      if !s.phase.Idle? || k !in s.inFlight then s
      else s.(inFlight := s.inFlight - multiset{k}, pending := s.pending - {k})
  }

  function Run<K>(s: State<K>, actions: seq<Action<K>>): State<K> {
    if actions == [] then s else Next(Run(s, actions[..|actions| - 1]), actions[|actions| - 1])
  }

  function Empty<K>(cap: nat): State<K> {
    State(cap, [], {}, multiset{}, Idle, 0, 0, 0, 0)
  }

  // ---------- the invariant ----------

  /** How often the queue is responsible for `k`: queued, in flight, or being submitted. */
  function Held<K>(s: State<K>, k: K): nat {
    multiset(s.queue)[k] + s.inFlight[k] + (if !s.phase.Idle? && s.phase.key == k then 1 else 0)
  }

  /** Pending is exactly what is held, and nothing is held twice. */
  ghost predicate Exact<K(!new)>(s: State<K>) {
    forall k :: ExactFor(s, k)
  }

  /** Every submission is accounted for, and after an eviction there is room. */
  predicate Balanced<K>(s: State<K>) {
    && |s.queue| <= s.cap
    && s.submitted == s.coalesced + s.taken + s.dropped + |s.queue| + (if s.phase.Idle? then 0 else 1)
    && (s.phase.Evicted? && s.cap >= 1 ==> |s.queue| < s.cap)
  }

  ghost predicate Inv<K(!new)>(s: State<K>) {
    Exact(s) && Balanced(s)
  }

  lemma SplitFirst<K>(q: seq<K>, k: K)
    requires q != []
    ensures multiset(q)[k] == (if q[0] == k then 1 else 0) + multiset(q[1..])[k]
  {
    assert q == [q[0]] + q[1..];
  }

  lemma SplitLast<K>(q: seq<K>, x: K, k: K)
    ensures multiset(q + [x])[k] == multiset(q)[k] + (if x == k then 1 else 0)
  {
  }

  predicate ExactFor<K>(s: State<K>, k: K) {
    Held(s, k) == if k in s.pending then 1 else 0
  }

  lemma SubmitIsExact<K>(s: State<K>, x: K, k: K)
    requires ExactFor(s, k)
    ensures ExactFor(Next(s, Submit(x)), k)
  {
    SplitLast(s.queue, x, k);
  }

  lemma EvictIsExact<K>(s: State<K>, k: K)
    requires ExactFor(s, k)
    ensures ExactFor(Next(s, Evict), k)
  {
    if s.queue != [] {
      SplitFirst(s.queue, k);
    }
  }

  lemma ResendIsExact<K>(s: State<K>, k: K)
    requires ExactFor(s, k)
    ensures ExactFor(Next(s, Resend), k)
  {
    if s.phase.Evicted? {
      SplitLast(s.queue, s.phase.key, k);
    }
  }

  lemma TakeIsExact<K>(s: State<K>, k: K)
    requires ExactFor(s, k)
    ensures ExactFor(Next(s, Take), k)
  {
    if s.queue != [] {
      SplitFirst(s.queue, k);
    }
  }

  lemma ReleaseIsExact<K>(s: State<K>, x: K, k: K)
    requires ExactFor(s, k)
    ensures ExactFor(Next(s, Release(x)), k)
  {
  }

  lemma StepKeepsInv<K(!new)>(s: State<K>, a: Action<K>)
    requires Inv(s)
    ensures Inv(Next(s, a))
  {
    assert Balanced(Next(s, a));
    hide Next, ExactFor;
    forall k
      ensures ExactFor(Next(s, a), k)
    {
      assert ExactFor(s, k);
      match a
      case Submit(x) => SubmitIsExact(s, x, k);
      case Evict => EvictIsExact(s, k);
      case Resend => ResendIsExact(s, k);
      case Take => TakeIsExact(s, k);
      case Release(x) => ReleaseIsExact(s, x, k);
    }
  }

  lemma {:induction false} RunKeepsInv<K(!new)>(cap: nat, actions: seq<Action<K>>)
    ensures Inv(Run(Empty<K>(cap), actions))
    decreases |actions|
  {
    if actions != [] {
      RunKeepsInv(cap, actions[..|actions| - 1]);
      StepKeepsInv(Run(Empty<K>(cap), actions[..|actions| - 1]), actions[|actions| - 1]);
    }
  }

  // ---------- what follows for every interleaving ----------

  /** The pending set is exactly the keys queued or in flight, none of them twice, whenever no
      producer is inside its critical section. */
  lemma PendingIsExact<K(!new)>(cap: nat, actions: seq<Action<K>>, k: K)
    requires Run(Empty<K>(cap), actions).phase.Idle?
    ensures var s := Run(Empty<K>(cap), actions);
            (multiset(s.queue) + s.inFlight)[k] == if k in s.pending then 1 else 0
  {
    RunKeepsInv(cap, actions);
    var s := Run(Empty<K>(cap), actions);
    assert ExactFor(s, k);
  }

  /** Submissions = coalesced + popped + dropped + depth, between producer calls. */
  lemma NothingIsLost<K(!new)>(cap: nat, actions: seq<Action<K>>)
    requires Run(Empty<K>(cap), actions).phase.Idle?
    ensures var s := Run(Empty<K>(cap), actions);
            s.submitted == s.coalesced + s.taken + s.dropped + |s.queue|
  {
    RunKeepsInv(cap, actions);
  }

  /** With capacity at least one a new key is always admitted: the second send never fails. */
  lemma NewKeyIsAdmitted<K(!new)>(cap: nat, actions: seq<Action<K>>)
    requires cap >= 1 && Run(Empty<K>(cap), actions).phase.Evicted?
    ensures var s := Run(Empty<K>(cap), actions);
            Next(s, Resend).queue == s.queue + [s.phase.key] && Next(s, Resend).dropped == s.dropped
  {
    RunKeepsInv(cap, actions);
    RunKeepsCap(Empty<K>(cap), actions);
  }

  lemma {:induction false} RunKeepsCap<K>(s: State<K>, actions: seq<Action<K>>)
    ensures Run(s, actions).cap == s.cap
    decreases |actions|
  {
    if actions != [] {
      RunKeepsCap(s, actions[..|actions| - 1]);
    }
  }

  /** Without capacity the second send fails and the submission is dropped, not forgotten. */
  lemma NoCapacityDrops<K>(s: State<K>, k: K)
    requires s.cap == 0 && s.queue == [] && s.phase.Idle? && k !in s.pending
    ensures var t := Next(Next(Next(s, Submit(k)), Evict), Resend);
            t == s.(submitted := s.submitted + 1, dropped := s.dropped + 1, pending := t.pending) && t.pending == s.pending
  {
    assert s.pending + {k} - {k} == s.pending;
  }

  // ---------- first in, first out ----------

  /** What has left the queue at either end of its life, in order. */
  function Left<K>(s: State<K>, a: Action<K>): seq<K> {
    if ((a.Evict? && s.phase.Blocked?) || a.Take?) && s.queue != [] then [s.queue[0]] else []
  }

  function Admitted<K>(s: State<K>, a: Action<K>): seq<K> {
    if |Next(s, a).queue| == |s.queue| + 1 then [Next(s, a).queue[|s.queue|]] else []
  }

  function AllLeft<K>(s: State<K>, actions: seq<Action<K>>): seq<K> {
    if actions == [] then [] else
    AllLeft(s, actions[..|actions| - 1]) + Left(Run(s, actions[..|actions| - 1]), actions[|actions| - 1])
  }

  function AllAdmitted<K>(s: State<K>, actions: seq<Action<K>>): seq<K> {
    if actions == [] then [] else
    AllAdmitted(s, actions[..|actions| - 1]) + Admitted(Run(s, actions[..|actions| - 1]), actions[|actions| - 1])
  }

  /** Entries leave, taken or evicted, in the order in which they were admitted. */
  lemma {:induction false} FirstInFirstOut<K>(cap: nat, actions: seq<Action<K>>)
    ensures AllAdmitted(Empty<K>(cap), actions) == AllLeft(Empty<K>(cap), actions) + Run(Empty<K>(cap), actions).queue
    decreases |actions|
  {
    if actions != [] {
      var s := Run(Empty<K>(cap), actions[..|actions| - 1]);
      var a := actions[|actions| - 1];
      FirstInFirstOut(cap, actions[..|actions| - 1]);
      QueueMoves(s, a);
      var t := Next(s, a);
      var left := AllLeft(Empty<K>(cap), actions[..|actions| - 1]);
      assert left + s.queue + Admitted(s, a) == left + (Left(s, a) + t.queue);
    }
  }

  lemma QueueMoves<K>(s: State<K>, a: Action<K>)
    ensures s.queue + Admitted(s, a) == Left(s, a) + Next(s, a).queue
  {
    if s.queue != [] {
      assert s.queue == [s.queue[0]] + s.queue[1..];
    }
  }

  // ---------- the queue as an object ----------

  class Queue<K(==,!new)> {
    var queue: seq<K>
    var pending: set<K>
    var submitted: nat
    var coalesced: nat
    var dropped: nat
    var taken: nat
    const cap: nat
    ghost var inFlight: multiset<K>
    ghost var phase: Phase<K>

    ghost function View(): State<K>
      reads this
    {
      State(cap, queue, pending, inFlight, phase, submitted, coalesced, dropped, taken)
    }

    constructor (cap: nat)
      ensures View() == Empty(cap) && Inv(View())
    {
      this.cap := cap;
      queue, pending, submitted, coalesced, dropped, taken := [], {}, 0, 0, 0, 0;
      inFlight, phase := multiset{}, Idle;
    }

    /** The producer's steps under the mutex; consumers may run between them. */
    method TrySubmit(key: K) returns (done: bool)
      requires Inv(View()) && phase.Idle?
      modifies this
      ensures Inv(View()) && View() == Next(old(View()), Submit(key)) && done == phase.Idle?
    {
      StepKeepsInv(View(), Submit(key));
      hide Inv;
      submitted := submitted + 1;
      if key in pending {
        coalesced := coalesced + 1;
        return true;
      }
      pending := pending + {key};
      if |queue| < cap {
        queue := queue + [key];
        return true;
      }
      phase := Blocked(key);
      return false;
    }

    method EvictOldest()
      requires Inv(View()) && phase.Blocked?
      modifies this
      ensures Inv(View()) && View() == Next(old(View()), Evict)
    {
      StepKeepsInv(View(), Evict);
      hide Inv;
      if queue != [] {
        pending := pending - {queue[0]};
        queue := queue[1..];
        dropped := dropped + 1;
      }
      phase := Evicted(phase.key);
    }

    method TryAgain(key: K) returns (admitted: bool)
      requires Inv(View()) && phase == Evicted(key)
      modifies this
      ensures Inv(View()) && View() == Next(old(View()), Resend) && phase.Idle?
      ensures cap >= 1 ==> admitted && queue == old(queue) + [key]
    {
      StepKeepsInv(View(), Resend);
      assert Balanced(View());
      hide Inv;
      phase := Idle;
      if |queue| < cap {
        queue := queue + [key];
        return true;
      }
      pending := pending - {key};
      dropped := dropped + 1;
      return false;
    }

    /** `Enqueue` for a normal entry when no consumer interferes. */
    method Enqueue(key: K) returns (admitted: bool)
      requires Inv(View()) && phase.Idle?
      modifies this
      ensures Inv(View()) && phase.Idle?
      ensures cap >= 1 ==> admitted
      ensures View() == Next(old(View()), Submit(key)) || View() == Next(Next(Next(old(View()), Submit(key)), Evict), Resend)
    {
      hide Inv;
      var done := TrySubmit(key);
      if done {
        return true;
      }
      EvictOldest();
      admitted := TryAgain(key);
    }

    /** `Pop` receives the oldest entry … */
    method Receive() returns (key: K)
      requires Inv(View()) && queue != []
      modifies this
      ensures Inv(View()) && View() == Next(old(View()), Take) && key == old(queue)[0]
    {
      StepKeepsInv(View(), Take);
      key := queue[0];
      queue := queue[1..];
      taken := taken + 1;
      inFlight := inFlight + multiset{key};
    }

    /** … and clears its key under the mutex once it is done with it. */
    method Clear(key: K)
      requires Inv(View()) && key in inFlight && phase.Idle?
      modifies this
      ensures Inv(View()) && View() == Next(old(View()), Release(key)) && key !in pending
    {
      StepKeepsInv(View(), Release(key));
      pending := pending - {key};
      inFlight := inFlight - multiset{key};
    }
  }
}
