/** Records kept in a map, and for every key the trace of events that made its record.

    A run of calls is a sequence of marks: the traces before the first call and after each one. */
module Traces {
  import opened Text

  /** How long an inactive record is kept. */
  const STATE_RETENTION := 7 * 24 * 3600 * 1_000_000_000

  function Find<K, V>(m: map<K, V>, k: K): Option<V> {
    if k in m then Some(m[k]) else None
  }

  function TraceOf<K, E>(traces: map<K, seq<E>>, k: K): seq<E> {
    if k in traces then traces[k] else []
  }

  /** Order of `lastSeenAt`, where the zero time comes first. */
  predicate NotAfter(a: Option<int>, b: Option<int>) {
    a.None? || (b.Some? && a.value <= b.value)
  }

  function Logged<K, E>(traces: map<K, seq<E>>, k: K, e: E): map<K, seq<E>> {
    traces[k := TraceOf(traces, k) + [e]]
  }

  lemma TraceAfter<K, E>(was: map<K, seq<E>>, k: K, e: E, j: K)
    ensures TraceOf(Logged(was, k, e), j) == if j == k then TraceOf(was, k) + [e] else TraceOf(was, j)
  {
  }

  lemma CountConcat<T>(xs: seq<T>, ys: seq<T>, a: T)
    ensures multiset(xs + ys)[a] == multiset(xs)[a] + multiset(ys)[a]
  {
  }

  lemma CountRaised<K>(alerts: seq<K>, k: K, fired: bool, j: K)
    ensures multiset(alerts + if fired then [k] else [])[j] == multiset(alerts)[j] + if fired && j == k then 1 else 0
  {
    assert alerts + [] == alerts;
  }

  /** Exactly the keys that have left the map have gained an event, and it is `e`. */
  ghost predicate Removed<K(!new), E, R>(
    start: map<K, seq<E>>, traces: map<K, seq<E>>, was: map<K, R>, records: map<K, R>, e: E)
  {
    forall k :: TraceOf(traces, k) == if k in was && k !in records then TraceOf(start, k) + [e] else TraceOf(start, k)
  }

  lemma RemovedNone<K(!new), E, R>(traces: map<K, seq<E>>, records: map<K, R>, e: E)
    ensures Removed(traces, traces, records, records, e)
  {
  }

  lemma RemoveOne<K(!new), E, R>(
    start: map<K, seq<E>>, traces: map<K, seq<E>>, was: map<K, R>, records: map<K, R>, key: K, e: E)
    requires Removed(start, traces, was, records, e) && key in records && key in was
    ensures Removed(start, Logged(traces, key, e), was, records - {key}, e)
  {
  }

  /** A trace gains at most one pruning. */
  ghost predicate MaybePruned<E>(before: seq<E>, after: seq<E>, aged: E, capped: E) {
    after == before || after == before + [aged] || after == before + [capped]
  }

  /** What pruning does to one key: nothing, or its record goes and the trace says why. */
  ghost predicate Pruned<E>(before: seq<E>, after: seq<E>, held: bool, expired: bool, stays: bool, aged: E, capped: E) {
    after == if stays || !held then before else if expired then before + [aged] else before + [capped]
  }

  /** Pruning by age and then by capacity, on one key. */
  lemma PrunedTwice<K(!new), E, R>(
    start: map<K, seq<E>>, middle: map<K, seq<E>>, after: map<K, seq<E>>,
    was: map<K, R>, young: map<K, R>, records: map<K, R>, aged: E, capped: E, expired: bool, k: K)
    requires Removed(start, middle, was, young, aged) && Removed(middle, after, young, records, capped)
    requires (k in young <==> k in was && !expired) && (k in records ==> k in young)
    ensures Pruned(TraceOf(start, k), TraceOf(after, k), k in was, expired, k in records, aged, capped)
  {
  }

  // ---------- runs of calls ----------

  ghost predicate Grows<K(!new), E>(before: map<K, seq<E>>, after: map<K, seq<E>>) {
    forall k :: TraceOf(before, k) <= TraceOf(after, k)
  }

  /** What a key's trace gains in a call. */
  ghost function Gained<K, E>(before: map<K, seq<E>>, after: map<K, seq<E>>, k: K): seq<E> {
    if TraceOf(before, k) <= TraceOf(after, k) then TraceOf(after, k)[|TraceOf(before, k)|..] else []
  }

  ghost predicate Chain<K(!new), E>(marks: seq<map<K, seq<E>>>) {
    marks != [] && marks[0] == map[] && forall c :: 0 <= c < |marks| - 1 ==> Grows(marks[c], marks[c + 1])
  }

  /** Event `n` of the key's trace happened in call `c`. */
  ghost predicate InCall<K, E>(marks: seq<map<K, seq<E>>>, k: K, c: int, n: int) {
    0 <= c < |marks| - 1 && |TraceOf(marks[c], k)| <= n < |TraceOf(marks[c + 1], k)|
  }

  lemma {:induction false} ChainGrows<K(!new), E>(marks: seq<map<K, seq<E>>>, k: K, i: nat, j: nat)
    requires Chain(marks) && i <= j < |marks|
    ensures TraceOf(marks[i], k) <= TraceOf(marks[j], k)
    decreases j
  {
    if i < j {
      ChainGrows(marks, k, i, j - 1);
      assert Grows(marks[j - 1], marks[j]);
    }
  }

  /** Every event between two marks belongs to a call between them. */
  lemma {:induction false} CallOf<K(!new), E>(marks: seq<map<K, seq<E>>>, k: K, i: nat, j: nat, n: nat) returns (c: nat)
    requires Chain(marks) && i <= j < |marks| && |TraceOf(marks[i], k)| <= n < |TraceOf(marks[j], k)|
    ensures i <= c < j && InCall(marks, k, c, n)
    decreases j
  {
    ChainGrows(marks, k, i, j);
    if n >= |TraceOf(marks[j - 1], k)| {
      c := j - 1;
    } else {
      c := CallOf(marks, k, i, j - 1, n);
    }
  }

  /** Later events belong to later calls. */
  lemma CallsInOrder<K(!new), E>(marks: seq<map<K, seq<E>>>, k: K, c: nat, m: nat, d: nat, n: nat)
    requires Chain(marks) && InCall(marks, k, c, m) && InCall(marks, k, d, n)
    ensures m <= n ==> c <= d
    ensures c < d ==> m < n
  {
    if d < c {
      ChainGrows(marks, k, d + 1, c);
    } else if c < d {
      ChainGrows(marks, k, c + 1, d);
    }
  }

  /** The events of a call, read off the trace at the end of the run. */
  lemma GainedAt<K(!new), E>(marks: seq<map<K, seq<E>>>, k: K, c: nat, n: nat)
    requires Chain(marks) && InCall(marks, k, c, n)
    ensures n < |TraceOf(marks[|marks| - 1], k)|
    ensures n - |TraceOf(marks[c], k)| < |Gained(marks[c], marks[c + 1], k)|
    ensures Gained(marks[c], marks[c + 1], k)[n - |TraceOf(marks[c], k)|] == TraceOf(marks[|marks| - 1], k)[n]
    ensures TraceOf(marks[|marks| - 1], k)[n] in Gained(marks[c], marks[c + 1], k)
  {
    ChainGrows(marks, k, c + 1, |marks| - 1);
    assert Grows(marks[c], marks[c + 1]);
  }
}
