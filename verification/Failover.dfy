/** `AircraftFailover`: one provider is active, higher-priority ones are probed for recovery. */
module Failover {

  /** What asking a provider comes to in one call: a frame, an error, or an error seen together
      with the cancellation of the call. */
  datatype Attempt<F> = Success(frame: F) | Failure | Cancelled

  datatype Result<F> = Frame(provider: nat, frame: F) | AllFailed | Aborted

  /** `active` is -1 before the first success. */
  datatype State = State(active: int, recoveries: seq<nat>)

  predicate Answers<F>(attempts: seq<Attempt<F>>, i: int) {
    0 <= i < |attempts| && attempts[i].Success?
  }

  /** Provider `i` was asked as a recovery probe: it is above the active one and no earlier probe
      saw the call cancelled. */
  predicate Probed<F>(attempts: seq<Attempt<F>>, active: int, i: int) {
    0 <= i < active <= |attempts| && forall j :: 0 <= j < i ==> !attempts[j].Cancelled?
  }

  /** What one call may do to the failover state. */
  ghost predicate CallSpec<F>(required: nat, s: State, attempts: seq<Attempt<F>>, t: State) {
    && |t.recoveries| == |s.recoveries| == |attempts|
    && -1 <= s.active < |attempts| && -1 <= t.active < |attempts|
    // an active provider that answers is left only for a recovered one of higher priority
    && (t.active != s.active && Answers(attempts, s.active) ==> 0 <= t.active < s.active && s.recoveries[t.active] + 1 >= required)
    // a higher-priority provider returns after enough probes, or because the active one failed
    && (t.active < s.active ==>
          0 <= t.active && Answers(attempts, t.active) && (s.recoveries[t.active] + 1 >= required || attempts[s.active].Failure?))
    // the one that returns is the first that has enough probes, or else the first that answers
    && (t.active < s.active ==> forall i :: 0 <= i < t.active && Answers(attempts, i) ==>
          s.recoveries[t.active] + 1 >= required && s.recoveries[i] + 1 < required)
    // a lower-priority provider takes over only when everything above it failed
    && (t.active > s.active ==> Answers(attempts, t.active) && forall i :: 0 <= i < t.active ==> attempts[i].Failure?)
    // activation clears the counters, otherwise each probe counts or resets its own
    && (forall i :: 0 <= i < |attempts| ==>
          t.recoveries[i] == if t.active != s.active then 0
                             else if !Probed(attempts, s.active, i) then s.recoveries[i]
                             else if attempts[i].Success? then s.recoveries[i] + 1 else 0)
  }

  // ---------- runs ----------

  ghost predicate IsRun<F>(required: nat, states: seq<State>, calls: seq<seq<Attempt<F>>>) {
    && |states| == |calls| + 1
    && states[0].active == -1 && (forall i :: 0 <= i < |states[0].recoveries| ==> states[0].recoveries[i] == 0)
    && forall k :: 0 <= k < |calls| ==> CallSpec(required, states[k], calls[k], states[k + 1])
  }

  /** Successful probes of `i` in a row before call `k`, since the last activation. */
  function Streak<F>(states: seq<State>, calls: seq<seq<Attempt<F>>>, k: nat, i: nat): nat
    requires k <= |calls| && |states| == |calls| + 1
  {
    if k == 0 || states[k].active != states[k - 1].active then 0
    else if !Probed(calls[k - 1], states[k - 1].active, i) then Streak(states, calls, k - 1, i)
    else if Answers(calls[k - 1], i) then Streak(states, calls, k - 1, i) + 1
    else 0
  }

  lemma {:induction false} CountersAreStreaks<F>(required: nat, states: seq<State>, calls: seq<seq<Attempt<F>>>,
                                                 k: nat, i: nat)
    requires IsRun(required, states, calls) && k <= |calls| && i < |states[0].recoveries|
    ensures i < |states[k].recoveries| && states[k].recoveries[i] == Streak(states, calls, k, i)
  {
    hide CallSpec, Probed;
    if k > 0 {
      hide IsRun;
      CountersAreStreaks(required, states, calls, k - 1, i);
      CounterMoves(required, states, calls, k, i);
    }
  }

  lemma CounterMoves<F>(required: nat, states: seq<State>, calls: seq<seq<Attempt<F>>>, k: nat, i: nat)
    requires IsRun(required, states, calls) && 0 < k <= |calls| && i < |states[k - 1].recoveries|
    ensures i < |calls[k - 1]| == |states[k].recoveries|
    ensures states[k].recoveries[i] ==
      if states[k].active != states[k - 1].active then 0
      else if !Probed(calls[k - 1], states[k - 1].active, i) then states[k - 1].recoveries[i]
      else if calls[k - 1][i].Success? then states[k - 1].recoveries[i] + 1 else 0
  {
    assert CallSpec(required, states[k - 1], calls[k - 1], states[k]);
  }

  /** Over every run: the failover goes back up to a provider only when that provider answers and
      has completed the required number of probes in a row since the last activation, or when
      the active provider failed in the same call. */
  lemma ReturnsOnlyWhenRecovered<F>(required: nat, states: seq<State>, calls: seq<seq<Attempt<F>>>, k: nat)
    requires IsRun(required, states, calls) && k < |calls| && states[k + 1].active < states[k].active
    ensures var back := states[k + 1].active;
            && 0 <= back && Answers(calls[k], back)
            && (Streak(states, calls, k, back) + 1 >= required || calls[k][states[k].active].Failure?)
  {
    SameWidth(required, states, calls, k);
    assert CallSpec(required, states[k], calls[k], states[k + 1]);
    CountersAreStreaks(required, states, calls, k, states[k + 1].active);
  }

  lemma {:induction false} SameWidth<F>(required: nat, states: seq<State>, calls: seq<seq<Attempt<F>>>, k: nat)
    requires IsRun(required, states, calls) && k <= |calls|
    ensures |states[k].recoveries| == |states[0].recoveries|
  {
    if k > 0 {
      SameWidth(required, states, calls, k - 1);
      assert CallSpec(required, states[k - 1], calls[k - 1], states[k]);
    }
  }

  class AircraftFailover<F> {
    const providers: nat
    const recoverySuccesses: nat
    var active: int
    var recoveries: seq<nat>

    ghost predicate Valid()
      reads this
    {
      && providers > 0 && recoverySuccesses > 0
      && -1 <= active < providers && |recoveries| == providers
      && forall i :: 0 <= i < providers ==> recoveries[i] < recoverySuccesses && (i >= active ==> recoveries[i] == 0)
    }

    ghost function View(): State
      reads this
    {
      State(active, recoveries)
    }

    /** No required number of recoveries means two. */
    constructor (providers: nat, recoverySuccesses: nat)
      requires providers > 0
      ensures Valid() && active == -1 && this.providers == providers
      ensures this.recoverySuccesses == if recoverySuccesses == 0 then 2 else recoverySuccesses
    {
      this.providers := providers;
      this.recoverySuccesses := if recoverySuccesses == 0 then 2 else recoverySuccesses;
      active := -1;
      recoveries := seq(providers, _ => 0);
    }

    method Activate(index: nat)
      requires providers > 0 && recoverySuccesses > 0 && index < providers && |recoveries| == providers
      modifies this
      ensures Valid() && active == index && recoveries == seq(providers, _ => 0)
    {
      active := index;
      recoveries := seq(providers, _ => 0);
    }

    /** The first provider at or after `start` that answers becomes active. */
    method FetchLower(attempts: seq<Attempt<F>>, start: nat) returns (r: Result<F>)
      requires Valid() && |attempts| == providers && start <= providers
      modifies this
      ensures Valid()
      ensures r.Frame? ==> start <= r.provider < providers && attempts[r.provider] == Success(r.frame) && active == r.provider
                           && recoveries == seq(providers, _ => 0)
      ensures r.Frame? ==> forall i :: start <= i < r.provider ==> attempts[i].Failure?
      ensures !r.Frame? ==> View() == old(View())
      ensures r.AllFailed? ==> forall i :: start <= i < providers ==> attempts[i].Failure?
      ensures r.Aborted? ==> exists i :: start <= i < providers && attempts[i].Cancelled?
    {
      for index := start to providers
        invariant Valid() && View() == old(View())
        invariant forall i :: start <= i < index ==> attempts[i].Failure?
      {
        match attempts[index]
        case Success(frame) =>
          Activate(index);
          return Frame(index, frame);
        case Cancelled =>
          return Aborted;
        case Failure =>
      }
      return AllFailed;
    }

    /** The frame is the active provider's own answer; without cancellation a call succeeds exactly
        when some provider answers; `CallSpec` says how the call moves the state. */
    method FetchAircraft(attempts: seq<Attempt<F>>) returns (r: Result<F>)
      requires Valid() && |attempts| == providers
      modifies this
      ensures Valid()
      ensures r.Frame? ==> active == r.provider && attempts[r.provider] == Success(r.frame)
      ensures !r.Frame? ==> active == old(active)
      ensures (forall i :: 0 <= i < providers ==> !attempts[i].Cancelled?) ==>
                (r.Frame? <==> exists i :: Answers(attempts, i))
      ensures CallSpec(recoverySuccesses, old(View()), attempts, View())
    {
      if active < 0 {
        r := FetchLower(attempts, 0);
        assert r.Frame? ==> Answers(attempts, r.provider);
        return;
      }
      if active == 0 {
        match attempts[0]
        case Success(frame) =>
          assert Answers(attempts, 0);
          return Frame(0, frame);
        case Cancelled => return Aborted;
        case Failure =>
          r := FetchLower(attempts, 1);
          assert r.Frame? ==> Answers(attempts, r.provider);
          return;
      }
      var current := active;
      var ended, early, recovered := ProbeHigher(attempts);
      if ended {
        assert early.Frame? ==> Answers(attempts, early.provider);
        return early;
      }
      match attempts[current]
      case Success(frame) =>
        assert Answers(attempts, current);
        return Frame(current, frame);
      case Cancelled => return Aborted;
      case Failure => r := TakeOver(attempts, recovered, old(View()));
    }

    /** The active provider has failed: the first one above it that answered takes over, or else the
        first one below it that answers. */
    method TakeOver(attempts: seq<Attempt<F>>, recovered: int, ghost was: State) returns (r: Result<F>)
      requires Valid() && |attempts| == providers && active > 0 && attempts[active].Failure? && -1 <= recovered < active
      requires was.active == active && |was.recoveries| == providers
      requires forall i :: 0 <= i < active ==> !attempts[i].Cancelled? && (recovered < 0 ==> attempts[i].Failure?)
      requires recovered >= 0 ==> attempts[recovered].Success? && forall i :: 0 <= i < recovered ==> attempts[i].Failure?
      requires forall i :: 0 <= i < providers ==>
        recoveries[i] == if !Probed(attempts, active, i) then was.recoveries[i]
                         else if attempts[i].Success? then was.recoveries[i] + 1 else 0
      modifies this
      ensures Valid() && CallSpec(recoverySuccesses, was, attempts, View())
      ensures r.Frame? ==> active == r.provider && attempts[r.provider] == Success(r.frame)
      ensures !r.Frame? ==> active == old(active)
      ensures (forall i :: 0 <= i < providers ==> !attempts[i].Cancelled?) ==>
                (r.Frame? <==> exists i :: Answers(attempts, i))
    {
      if recovered >= 0 {
        assert Answers(attempts, recovered);
        Activate(recovered);
        return Frame(recovered, attempts[recovered].frame);
      }
      r := FetchLower(attempts, active + 1);
      assert r.Frame? ==> Answers(attempts, r.provider);
    }

    /** Probes every provider above the active one; `recovered` is the first that answered. */
    method ProbeHigher(attempts: seq<Attempt<F>>) returns (ended: bool, r: Result<F>, recovered: int)
      requires Valid() && |attempts| == providers && active > 0
      modifies this
      ensures Valid() && -1 <= recovered < old(active)
      ensures ended && r.Frame? ==>
        && active == r.provider < old(active) && attempts[r.provider] == Success(r.frame)
        && old(recoveries)[r.provider] + 1 >= recoverySuccesses && recoveries == seq(providers, _ => 0)
      ensures !(ended && r.Frame?) ==> active == old(active) && forall i :: 0 <= i < providers ==>
        recoveries[i] == if !Probed(attempts, active, i) then old(recoveries)[i]
                         else if attempts[i].Success? then old(recoveries)[i] + 1 else 0
      ensures ended && !r.Frame? ==> exists i :: 0 <= i < active && attempts[i].Cancelled?
      ensures ended && r.Frame? ==>
        forall i :: 0 <= i < r.provider && attempts[i].Success? ==> old(recoveries)[i] + 1 < recoverySuccesses
      ensures !ended ==> forall i :: 0 <= i < active && attempts[i].Success? ==>
        old(recoveries)[i] + 1 < recoverySuccesses
      ensures !ended && recovered >= 0 ==> attempts[recovered].Success? && forall i :: 0 <= i < recovered ==>
        attempts[i].Failure?
      ensures !ended ==> forall i :: 0 <= i < active ==> !attempts[i].Cancelled? && (recovered < 0 ==> attempts[i].Failure?)
    {
      var current := active;
      recovered := -1;
      r := Aborted;
      for index := 0 to current
        invariant Valid() && active == current == old(active)
        invariant -1 <= recovered < index || recovered == -1
        invariant recovered >= 0 ==> attempts[recovered].Success? && forall i :: 0 <= i < recovered ==>
          attempts[i].Failure?
        invariant forall i :: 0 <= i < index && attempts[i].Success? ==> old(recoveries)[i] + 1 < recoverySuccesses
        invariant recovered < 0 ==> forall i :: 0 <= i < index ==> attempts[i].Failure?
        invariant forall i :: 0 <= i < index ==> !attempts[i].Cancelled?
        invariant forall i :: index <= i < providers ==> recoveries[i] == old(recoveries)[i]
        invariant forall i :: 0 <= i < index ==>
          recoveries[i] == if attempts[i].Success? then old(recoveries)[i] + 1 else 0
      {
        if !attempts[index].Success? {
          recoveries := recoveries[index := 0];
          if attempts[index].Cancelled? {
            return true, Aborted, recovered;
          }
        } else {
          var count := recoveries[index] + 1;
          if count >= recoverySuccesses {
            Activate(index);
            return true, Frame(index, attempts[index].frame), recovered;
          }
          recoveries := recoveries[index := count];
          if recovered < 0 {
            recovered := index;
          }
        }
      }
      ended := false;
    }
  }
}
