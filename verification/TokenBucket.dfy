/** The request limiter: `tokenBucket.wait`. One pass through its critical section is one attempt;
    any number of waiters attempt in any order, each reading a clock that does not run backwards. */
module TokenBucket {

  /** Seconds and tokens as exact reals. */
  datatype Bucket = Bucket(rate: real, burst: real, tokens: real, last: real)

  predicate Sound(b: Bucket) {
    b.rate > 0.0 && b.burst >= 1.0 && 0.0 <= b.tokens <= b.burst
  }

  /** Tokens gained in `dt` seconds: rate times time. */
  function Gain(dt: real, rate: real): real {
    dt * rate
  }

  lemma GainGrows(x: real, y: real, rate: real)
    requires rate > 0.0
    ensures x <= y ==> Gain(x, rate) <= Gain(y, rate)
    ensures x < y ==> Gain(x, rate) < Gain(y, rate)
    ensures Gain(0.0, rate) == 0.0
  {
  }

  lemma GainIsProduct(dt: real, rate: real)
    ensures Gain(dt, rate) == rate * dt
  {
  }

  lemma GainAdds(x: real, y: real, rate: real)
    ensures Gain(x + y, rate) == Gain(x, rate) + Gain(y, rate)
  {
  }

  lemma GainInverse(tokens: real, rate: real)
    requires rate > 0.0
    ensures Gain(tokens / rate, rate) == tokens
    ensures tokens > 0.0 ==> tokens / rate > 0.0
  {
  }

  function Refilled(b: Bucket, now: real): real {
    var t := b.tokens + Gain(now - b.last, b.rate);
    if t < b.burst then t else b.burst
  }

  predicate Grants(b: Bucket, now: real) {
    Refilled(b, now) >= 1.0
  }

  function Attempt(b: Bucket, now: real): Bucket {
    b.(tokens := if Grants(b, now) then Refilled(b, now) - 1.0 else Refilled(b, now), last := now)
  }

  class Limiter {
    var rate: real
    var burst: real
    var tokens: real
    var last: real

    ghost function View(): Bucket
      reads this
    {
      Bucket(rate, burst, tokens, last)
    }

    /** Nonpositive rates and bursts below one fall back to the defaults. */
    constructor (rate: real, burst: real, now: real)
      ensures Sound(View()) && tokens == this.burst && last == now
      ensures this.rate == (if rate <= 0.0 then 5.0 else rate) && this.burst == (if burst < 1.0 then 1.0 else burst)
    {
      this.rate := if rate <= 0.0 then 5.0 else rate;
      this.burst := if burst < 1.0 then 1.0 else burst;
      tokens := if burst < 1.0 then 1.0 else burst;
      last := now;
    }

    /** One critical section of `wait`: take a token, or say how long to sleep before retrying.
        Sleeping exactly that long is enough if nobody else takes a token meanwhile. */
    method TryTake(now: real) returns (granted: bool, sleep: real)
      requires Sound(View()) && now >= last
      modifies this`tokens, this`last
      ensures Sound(View()) && View() == Attempt(old(View()), now)
      ensures granted == Grants(old(View()), now)
      ensures granted <==> old(tokens) + rate * (now - old(last)) >= 1.0
      ensures granted ==> sleep == 0.0
      ensures !granted ==> sleep > 0.0 && Grants(View(), now + sleep)
      ensures !granted ==> forall t :: now <= t < now + sleep ==> !Grants(View(), t)
    {
      hide Gain;
      GainGrows(0.0, now - last, rate);
      GainIsProduct(now - last, rate);
      tokens := tokens + Gain(now - last, rate);
      if burst < tokens {
        tokens := burst;
      }
      last := now;
      granted, sleep := tokens >= 1.0, 0.0;
      if granted {
        tokens := tokens - 1.0;
      } else {
        sleep := (1.0 - tokens) / rate;
        SleepIsEnough(View(), sleep);
      }
    }
  }

  lemma SleepIsEnough(b: Bucket, sleep: real)
    requires Sound(b) && b.tokens < 1.0 && sleep == (1.0 - b.tokens) / b.rate
    ensures sleep > 0.0 && Grants(b, b.last + sleep)
    ensures forall t :: b.last <= t < b.last + sleep ==> !Grants(b, t)
  {
    hide Gain;
    GainInverse(1.0 - b.tokens, b.rate);
    assert b.last + sleep - b.last == sleep;
    forall t | b.last <= t < b.last + sleep
      ensures !Grants(b, t)
    {
      GainGrows(t - b.last, sleep, b.rate);
    }
  }

  // ---------- the rate bound over every run ----------

  predicate Nondecreasing(times: seq<real>) {
    forall i, j :: 0 <= i < j < |times| ==> times[i] <= times[j]
  }

  /** The bucket after the first `n` attempts. */
  function After(b: Bucket, times: seq<real>, n: nat): Bucket
    requires n <= |times|
  {
    if n == 0 then b else Attempt(After(b, times, n - 1), times[n - 1])
  }

  predicate GrantedAt(b: Bucket, times: seq<real>, n: nat)
    requires n < |times|
  {
    Grants(After(b, times, n), times[n])
  }

  /** Grants among attempts `lo` up to, not including, `hi`. */
  function Granted(b: Bucket, times: seq<real>, lo: nat, hi: nat): nat
    requires lo <= hi <= |times|
    decreases hi
  {
    if hi == lo then 0 else Granted(b, times, lo, hi - 1) + (if GrantedAt(b, times, hi - 1) then 1 else 0)
  }

  predicate Run(b: Bucket, times: seq<real>) {
    Sound(b) && Nondecreasing(times) && (times != [] ==> b.last <= times[0])
  }

  /** One attempt keeps the bucket sound and pays for its grant. */
  lemma AttemptPays(b: Bucket, now: real)
    requires Sound(b) && b.last <= now
    ensures Sound(Attempt(b, now))
    ensures Attempt(b, now).tokens + (if Grants(b, now) then 1.0 else 0.0) == Refilled(b, now)
    ensures Refilled(b, now) <= b.burst && Refilled(b, now) <= b.tokens + Gain(now - b.last, b.rate)
  {
    hide Gain;
    GainGrows(0.0, now - b.last, b.rate);
  }

  /** Tokens stay between zero and the burst, and the clock is the last attempt's. */
  lemma {:induction false} StaysSound(b: Bucket, times: seq<real>, n: nat)
    requires Run(b, times) && n <= |times|
    ensures var c := After(b, times, n);
            Sound(c) && c.rate == b.rate && c.burst == b.burst && c.last == if n == 0 then b.last else times[n - 1]
  {
    if n > 0 {
      StaysSound(b, times, n - 1);
      hide Sound, Refilled, Grants;
      AttemptPays(After(b, times, n - 1), times[n - 1]);
    }
  }

  /** Grants so far plus tokens left never exceed the burst plus what time has added. */
  lemma {:induction false} Budget(b: Bucket, times: seq<real>, lo: nat, hi: nat)
    requires Run(b, times) && lo < hi <= |times|
    ensures Granted(b, times, lo, hi) as real + After(b, times, hi).tokens <= b.burst + Gain(times[hi - 1] - times[lo], b.rate)
    decreases hi
  {
    hide Refilled, Grants, Gain;
    StaysSound(b, times, hi - 1);
    var c := After(b, times, hi - 1);
    AttemptPays(c, times[hi - 1]);
    if hi > lo + 1 {
      Budget(b, times, lo, hi - 1);
      GainAdds(times[hi - 2] - times[lo], times[hi - 1] - times[hi - 2], b.rate);
      assert times[hi - 2] - times[lo] + (times[hi - 1] - times[hi - 2]) == times[hi - 1] - times[lo];
    } else {
      assert Granted(b, times, lo, lo) == 0;
      GainGrows(0.0, 0.0, b.rate);
    }
  }

  /** In any window of length T at most burst + rate * T requests are let through. */
  lemma RateBound(b: Bucket, times: seq<real>, lo: nat, hi: nat, T: real)
    requires Run(b, times) && lo < hi <= |times| && times[hi - 1] - times[lo] <= T
    ensures Granted(b, times, lo, hi) as real <= b.burst + b.rate * T
  {
    hide After, Granted, Gain;
    Budget(b, times, lo, hi);
    StaysSound(b, times, hi);
    GainGrows(times[hi - 1] - times[lo], T, b.rate);
    var gain, product := Gain(T, b.rate), b.rate * T;
    assert gain == product by {
      GainIsProduct(T, b.rate);
    }
  }
}
