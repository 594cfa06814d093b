/**
  The Redis token bucket of the rate limiter, for one key. Times are whole seconds; rate and burst are whole numbers,
  so the token count is one too.
*/
module TokenBucket {
  import opened Basics

  datatype Config = Config(rate: nat, burst: nat)

  /** The stored hash. */
  datatype Bucket = Bucket(tokens: int, ts: int)

  /** Defaults stand in for values that are not positive. */
  function NewConfig(rps: int, burst: int): (c: Config)
    ensures c.rate > 0 && c.burst > 0
    ensures rps > 0 ==> c.rate == rps
    ensures rps <= 0 ==> c.rate == 100
    ensures burst > 0 ==> c.burst == burst
    ensures burst <= 0 ==> c.burst == c.rate
  {
    var rate := if rps <= 0 then 100 else rps;
    Config(rate, if burst <= 0 then rate else burst)
  }

  function Min(a: int, b: int): int { if a < b then a else b }

  function Refilled(c: Config, state: Option<Bucket>, now: int): int {
    match state
    case None => c.burst
    case Some(b) => Min(c.burst, b.tokens + (now - b.ts) * c.rate)
  }

  /** The script: refill, take a token if there is one, store the rest. */
  function Allow(c: Config, state: Option<Bucket>, now: int): (Bucket, bool) {
    var tokens := Refilled(c, state, now);
    if tokens >= 1 then (Bucket(tokens - 1, now), true) else (Bucket(tokens, now), false)
  }

  // ---- Expiry ---------------------------------------------------------------------------------------------------

  /** Seconds after its last use at which a key expires. */
  const IDLE := 120

  /** A key idle for less than the limit is there, one idle for longer is gone; at exactly the limit whole seconds
      do not tell, and `gone` decides. */
  function Kept(state: Option<Bucket>, now: int, gone: bool): Option<Bucket> {
    if state.Some? && (now - state.value.ts > IDLE || (now - state.value.ts == IDLE && gone)) then None else state
  }

  function Stored(hash: map<string, Bucket>, key: string): Option<Bucket> {
    if key in hash then Some(hash[key]) else None
  }

  lemma SameBut<V>(a: map<string, V>, b: map<string, V>, key: string, v: V)
    requires a - {key} == b - {key}
    ensures a[key := v] == b[key := v]
  {
    forall k | k != key ensures (k in a <==> k in b) && (k in a ==> a[k] == b[k]) {
      assert k in a <==> k in a - {key};
      assert k in b <==> k in b - {key};
      if k in a { assert (a - {key})[k] == (b - {key})[k]; }
    }
  }

  class Limiter {
    const config: Config
    var hash: map<string, Bucket>
    var deadline: map<string, int>

    /** Every key expires a fixed time after its last use. */
    ghost predicate Valid()
      reads this
    {
      hash.Keys == deadline.Keys && forall k | k in hash :: deadline[k] == hash[k].ts + IDLE
    }

    constructor (rps: int, burst: int)
      ensures Valid() && hash == map[]
      ensures config.rate == (if rps > 0 then rps else 100)
      ensures config.burst == (if burst > 0 then burst else config.rate)
    {
      config := NewConfig(rps, burst);
      hash, deadline := map[], map[];
    }

    /** Redis drops the key if it has expired, then runs the script. Keys do not share buckets. */
    method AllowRedis(key: string, now: int, gone: bool) returns (allowed: bool)
      requires Valid()
      modifies this
      ensures Valid()
      ensures var (bucket, answer) := Allow(config, Kept(Stored(old(hash), key), now, gone), now);
              hash == old(hash)[key := bucket] && allowed == answer
      ensures deadline == old(deadline)[key := now + IDLE]
    {
      Expire(key, now, gone);
      var tokens, ts := config.burst, now;
      if key in hash {
        tokens, ts := hash[key].tokens, hash[key].ts;
        var delta := (now - ts) * config.rate;
        tokens := Min(config.burst, tokens + delta);
      }
      allowed := tokens >= 1;
      if tokens >= 1 {
        tokens := tokens - 1;
      }
      SameBut(hash, old(hash), key, Bucket(tokens, now));
      SameBut(deadline, old(deadline), key, now + IDLE);
      hash := hash[key := Bucket(tokens, now)];
      deadline := deadline[key := now + IDLE];
    }

    /** What Redis does by itself once the deadline has passed. */
    method Expire(key: string, now: int, gone: bool)
      requires Valid()
      modifies this
      ensures Valid()
      ensures Stored(hash, key) == Kept(Stored(old(hash), key), now, gone)
      ensures hash - {key} == old(hash) - {key} && deadline - {key} == old(deadline) - {key}
    {
      if key in hash && (now > deadline[key] || (now == deadline[key] && gone)) {
        hash := hash - {key};
        deadline := deadline - {key};
      }
    }

    /** The answers a client gets who comes at these times and is new to the limiter. With burst at most 120 * rate
        they are those of a bucket that never expires. */
    method Serve(key: string, times: seq<int>, gone: seq<bool>) returns (answers: seq<bool>)
      requires Valid() && key !in hash && Ticking(times) && |times| == |gone|
      modifies this
      ensures Valid() && |answers| == |times|
      ensures forall n: nat | n < |times| :: answers[n] == AllowedExpiring(config, times, gone, n)
      ensures config.burst <= IDLE * config.rate ==>
                forall n: nat | n < |times| :: answers[n] == Allowed(config, times, n)
      ensures forall n: nat | n < |times| :: answers[n] <==>
                forall i: nat | i <= n && Unbroken(times, gone, i, n) :: Fits(config, answers, times, i, n)
      ensures config.burst <= 120 * config.rate ==> forall n: nat | n < |times| :: answers[n] <==>
                forall i: nat | i <= n :: Fits(config, answers, times, i, n)
    {
      answers := [];
      for i := 0 to |times|
        invariant Valid() && |answers| == i && Stored(hash, key) == AfterExpiring(config, times, gone, i)
        invariant forall n: nat | n < i :: answers[n] == AllowedExpiring(config, times, gone, n)
      {
        var allowed := AllowRedis(key, times[i], gone[i]);
        answers := answers + [allowed];
      }
      if config.burst <= IDLE * config.rate {
        forall n: nat | n < |times| ensures answers[n] == Allowed(config, times, n) {
          ExpiryIsInvisible(config, times, gone, n);
        }
        forall n: nat | n < |times|
          ensures answers[n] <==> forall i: nat | i <= n :: Fits(config, answers, times, i, n)
        {
          AnswersTell(config, answers, times, n);
        }
      }
      forall n: nat | n < |times|
        ensures answers[n] <==>
                forall i: nat | i <= n && Unbroken(times, gone, i, n) :: Fits(config, answers, times, i, n)
      {
        ExpiringAnswersTell(config, answers, times, gone, n);
      }
    }
  }

  // ---- Runs of one key --------------------------------------------------------------------------------------

  /** The bucket after the first n requests. */
  function After(c: Config, times: seq<int>, n: nat): Option<Bucket>
    requires n <= |times|
  {
    if n == 0 then None else Some(Allow(c, After(c, times, n - 1), times[n - 1]).0)
  }

  function Allowed(c: Config, times: seq<int>, n: nat): bool
    requires n < |times|
  {
    Allow(c, After(c, times, n), times[n]).1
  }

  /** How many of the requests i to n - 1 were allowed. */
  function Count(c: Config, times: seq<int>, i: nat, n: nat): nat
    requires i <= n <= |times|
    decreases n
  {
    if i == n then 0 else Count(c, times, i, n - 1) + if Allowed(c, times, n - 1) then 1 else 0
  }

  ghost predicate Ticking(times: seq<int>) {
    forall i, j | 0 <= i <= j < |times| :: times[i] <= times[j]
  }

  /** What the window from request i on still has room for when request n arrives. */
  function Room(c: Config, times: seq<int>, i: nat, n: nat): int
    requires i <= n < |times|
  {
    c.burst + c.rate * (times[n] - times[i]) - Count(c, times, i, n)
  }

  function TakenAt(c: Config, times: seq<int>, n: nat): int
    requires n < |times|
  {
    if Allowed(c, times, n) then 1 else 0
  }

  lemma TokensStep(c: Config, times: seq<int>, n: nat)
    requires 0 < n < |times|
    ensures Refilled(c, After(c, times, n), times[n])
            == Min(c.burst, Refilled(c, After(c, times, n - 1), times[n - 1]) - TakenAt(c, times, n - 1)
                            + c.rate * (times[n] - times[n - 1]))
  {
    assert (times[n] - times[n - 1]) * c.rate == c.rate * (times[n] - times[n - 1]);
  }

  lemma RoomStep(c: Config, times: seq<int>, i: nat, n: nat)
    requires i < n < |times|
    ensures Room(c, times, i, n)
            == Room(c, times, i, n - 1) - TakenAt(c, times, n - 1) + c.rate * (times[n] - times[n - 1])
  {
    Distribute(c.rate, times[n - 1] - times[i], times[n] - times[n - 1]);
  }

  ghost predicate Tightest(c: Config, times: seq<int>, n: nat, tokens: int)
    requires n < |times|
  {
    && (forall i | 0 <= i <= n :: tokens <= Room(c, times, i, n))
    && (exists i :: 0 <= i <= n && tokens == Room(c, times, i, n))
  }

  lemma TightestStep(c: Config, times: seq<int>, n: nat, before: int, tokens: int)
    requires 0 < n < |times| && Tightest(c, times, n - 1, before)
    requires tokens == Min(c.burst, before - TakenAt(c, times, n - 1) + c.rate * (times[n] - times[n - 1]))
    ensures Tightest(c, times, n, tokens)
  {
    assert Room(c, times, n, n) == c.burst;
    forall i | 0 <= i <= n ensures tokens <= Room(c, times, i, n) {
      if i < n { RoomStep(c, times, i, n); }
    }
    if tokens < c.burst {
      var i :| 0 <= i <= n - 1 && before == Room(c, times, i, n - 1);
      RoomStep(c, times, i, n);
      assert tokens == Room(c, times, i, n);
    }
  }

  /** The tokens at a request are the room of the tightest window that ends there. */
  lemma {:induction false} TokensAreTheTightestRoom(c: Config, times: seq<int>, n: nat)
    requires Ticking(times) && n < |times|
    ensures Tightest(c, times, n, Refilled(c, After(c, times, n), times[n]))
  {
    if n == 0 {
      assert Room(c, times, 0, 0) == c.burst;
    } else {
      TokensAreTheTightestRoom(c, times, n - 1);
      TokensStep(c, times, n);
      TightestStep(c, times, n, Refilled(c, After(c, times, n - 1), times[n - 1]),
                   Refilled(c, After(c, times, n), times[n]));
    }
  }

  lemma Distribute(a: int, b: int, d: int)
    ensures a * (b + d) == a * b + a * d
  {
  }

  /** A request is let through exactly when every window that ends with it stays within burst + rate * length. */
  lemma AllowedExactly(c: Config, times: seq<int>, n: nat)
    requires Ticking(times) && n < |times|
    ensures Allowed(c, times, n) <==>
            forall i | 0 <= i <= n :: Count(c, times, i, n) + 1 <= c.burst + c.rate * (times[n] - times[i])
  {
    TokensAreTheTightestRoom(c, times, n);
    var tokens := Refilled(c, After(c, times, n), times[n]);
    if tokens >= 1 {
      forall i | 0 <= i <= n ensures Count(c, times, i, n) + 1 <= c.burst + c.rate * (times[n] - times[i]) {
        assert tokens <= Room(c, times, i, n);
      }
    } else {
      var i :| 0 <= i <= n && tokens == Room(c, times, i, n);
      assert !(Count(c, times, i, n) + 1 <= c.burst + c.rate * (times[n] - times[i]));
    }
  }

  /** No window lets through more than burst + rate * length. */
  lemma {:induction false} NoWindowOverflows(c: Config, times: seq<int>, i: nat, n: nat)
    requires Ticking(times) && i <= n < |times|
    ensures Count(c, times, i, n + 1) <= c.burst + c.rate * (times[n] - times[i])
    decreases n
  {
    if Allowed(c, times, n) {
      AllowedExactly(c, times, n);
    } else if i < n {
      NoWindowOverflows(c, times, i, n - 1);
      LongerWindow(c.rate, times[i], times[n - 1], times[n]);
    }
  }

  lemma LongerWindow(rate: nat, first: int, middle: int, last: int)
    requires middle <= last
    ensures rate * (middle - first) <= rate * (last - first)
  {
    Distribute(rate, middle - first, last - middle);
    NonNegativeProduct(rate, last - middle);
  }

  lemma NonNegativeProduct(a: int, b: int)
    requires a >= 0 && b >= 0
    ensures a * b >= 0
  {
  }

  lemma {:induction false} CountBound(c: Config, times: seq<int>, i: nat, n: nat)
    requires i <= n <= |times|
    ensures Count(c, times, i, n) <= n - i
    decreases n
  {
    if i < n { CountBound(c, times, i, n - 1); }
  }

  /** A client whose arrivals stay within burst + rate * length on every window is never refused. */
  lemma ConformingIsNeverRefused(c: Config, times: seq<int>, n: nat)
    requires Ticking(times) && n < |times|
    requires forall i | 0 <= i <= n :: n - i + 1 <= c.burst + c.rate * (times[n] - times[i])
    ensures Allowed(c, times, n)
  {
    forall i | 0 <= i <= n ensures Count(c, times, i, n) + 1 <= c.burst + c.rate * (times[n] - times[i]) {
      CountBound(c, times, i, n);
    }
    AllowedExactly(c, times, n);
  }

  // ---- Runs with expiry -----------------------------------------------------------------------------------------

  function AfterExpiring(c: Config, times: seq<int>, gone: seq<bool>, n: nat): Option<Bucket>
    requires n <= |times| == |gone|
  {
    if n == 0 then None
    else Some(Allow(c, Kept(AfterExpiring(c, times, gone, n - 1), times[n - 1], gone[n - 1]), times[n - 1]).0)
  }

  function AllowedExpiring(c: Config, times: seq<int>, gone: seq<bool>, n: nat): bool
    requires n < |times| == |gone|
  {
    Allow(c, Kept(AfterExpiring(c, times, gone, n), times[n], gone[n]), times[n]).1
  }

  lemma RefillLowerBound(rate: nat, d: int)
    requires d >= IDLE
    ensures d * rate >= IDLE * rate
  {
  }

  /** With burst <= 120 * rate a bucket idle for the limit is full again, so forgetting it changes nothing. */
  lemma {:induction false} ExpiryIsInvisible(c: Config, times: seq<int>, gone: seq<bool>, n: nat)
    requires Ticking(times) && n <= |times| == |gone| && c.burst <= IDLE * c.rate
    ensures AfterExpiring(c, times, gone, n) == After(c, times, n)
    ensures After(c, times, n).Some? ==>
              After(c, times, n).value.tokens >= 0 && After(c, times, n).value.ts == times[n - 1]
    ensures n < |times| ==> AllowedExpiring(c, times, gone, n) == Allowed(c, times, n)
  {
    if n > 0 {
      ExpiryIsInvisible(c, times, gone, n - 1);
      if n > 1 { NonNegativeProduct(times[n - 1] - times[n - 2], c.rate); }
      SameRefill(c, After(c, times, n - 1), times[n - 1], gone[n - 1]);
    }
    if n < |times| { SameRefill(c, After(c, times, n), times[n], gone[n]); }
  }

  lemma SameRefill(c: Config, state: Option<Bucket>, now: int, gone: bool)
    requires c.burst <= IDLE * c.rate && (state.Some? ==> state.value.tokens >= 0)
    ensures Refilled(c, Kept(state, now, gone), now) == Refilled(c, state, now)
    ensures Allow(c, Kept(state, now, gone), now) == Allow(c, state, now)
  {
    if state.Some? && now - state.value.ts >= IDLE { RefillLowerBound(c.rate, now - state.value.ts); }
  }

  // ---- What the answers say ---------------------------------------------------------------------------------------

  /** How many of the answers i to n - 1 are yes. */
  function Passed(answers: seq<bool>, i: nat, n: nat): nat
    requires i <= n <= |answers|
    decreases n
  {
    if i == n then 0 else Passed(answers, i, n - 1) + if answers[n - 1] then 1 else 0
  }

  /** Letting request n through keeps the window that starts at request i within burst + rate * length. */
  predicate Fits(c: Config, answers: seq<bool>, times: seq<int>, i: nat, n: nat)
    requires i <= n < |answers| == |times|
  {
    Passed(answers, i, n) + 1 <= c.burst + c.rate * (times[n] - times[i])
  }

  /** The key has expired when request j comes, two minutes or more after the one before. */
  predicate Expired(times: seq<int>, gone: seq<bool>, j: nat)
    requires 0 < j < |times| == |gone|
  {
    times[j] - times[j - 1] > 120 || (times[j] - times[j - 1] == 120 && gone[j])
  }

  /** The key does not expire between requests i and n. */
  ghost predicate Unbroken(times: seq<int>, gone: seq<bool>, i: nat, n: nat)
    requires i <= n < |times| == |gone|
  {
    forall j: nat | i < j <= n :: !Expired(times, gone, j)
  }

  lemma {:induction false} PassedIsCount(c: Config, answers: seq<bool>, times: seq<int>, s: nat, i: nat, n: nat)
    requires s <= i <= n <= |times| == |answers|
    requires forall m: nat | s <= m < n :: answers[m] == Allowed(c, times[s..], m - s)
    ensures Count(c, times[s..], i - s, n - s) == Passed(answers, i, n)
    decreases n
  {
    if i < n { PassedIsCount(c, answers, times, s, i, n - 1); }
  }

  lemma SegmentTells(c: Config, answers: seq<bool>, times: seq<int>, s: nat, n: nat)
    requires Ticking(times) && s <= n < |times| == |answers|
    requires forall m: nat | s <= m <= n :: answers[m] == Allowed(c, times[s..], m - s)
    ensures answers[n] <==> forall i: nat | s <= i <= n :: Fits(c, answers, times, i, n)
  {
    var late := times[s..];
    AllowedExactly(c, late, n - s);
    if answers[n] {
      forall i: nat | s <= i <= n ensures Fits(c, answers, times, i, n) {
        FitsInSegment(c, answers, times, s, i - s, n);
      }
    } else {
      var k :| 0 <= k <= n - s && !(Count(c, late, k, n - s) + 1 <= c.burst + c.rate * (late[n - s] - late[k]));
      FitsInSegment(c, answers, times, s, k, n);
      assert !Fits(c, answers, times, s + k, n);
    }
  }

  lemma FitsInSegment(c: Config, answers: seq<bool>, times: seq<int>, s: nat, k: nat, n: nat)
    requires s + k <= n < |times| == |answers|
    requires forall m: nat | s <= m < n :: answers[m] == Allowed(c, times[s..], m - s)
    ensures Fits(c, answers, times, s + k, n)
       <==> Count(c, times[s..], k, n - s) + 1 <= c.burst + c.rate * (times[s..][n - s] - times[s..][k])
  {
    PassedIsCount(c, answers, times, s, s + k, n);
  }

  lemma AnswersTell(c: Config, answers: seq<bool>, times: seq<int>, n: nat)
    requires Ticking(times) && n < |times| == |answers|
    requires forall m: nat | m < |times| :: answers[m] == Allowed(c, times, m)
    ensures answers[n] <==> forall i: nat | i <= n :: Fits(c, answers, times, i, n)
  {
    assert times[0..] == times;
    SegmentTells(c, answers, times, 0, n);
  }

  /** The last request up to n that found no bucket. */
  ghost function Start(times: seq<int>, gone: seq<bool>, n: nat): (s: nat)
    requires n < |times| == |gone|
    ensures s <= n
  {
    if n == 0 || Expired(times, gone, n) then n else Start(times, gone, n - 1)
  }

  lemma {:induction false} StartIs(times: seq<int>, gone: seq<bool>, i: nat, n: nat)
    requires i <= n < |times| == |gone|
    ensures Unbroken(times, gone, i, n) <==> Start(times, gone, n) <= i
  {
    if i < n {
      if Expired(times, gone, n) {
        assert !Unbroken(times, gone, i, n);
      } else {
        StartIs(times, gone, i, n - 1);
        assert Unbroken(times, gone, i, n) <==> Unbroken(times, gone, i, n - 1);
      }
    }
  }

  lemma KeptTells(c: Config, times: seq<int>, gone: seq<bool>, n: nat)
    requires 0 < n < |times| == |gone|
    ensures Kept(AfterExpiring(c, times, gone, n), times[n], gone[n])
            == if Expired(times, gone, n) then None else AfterExpiring(c, times, gone, n)
  {
  }

  /** A bucket that expires is one that starts anew with the first request after. */
  lemma {:induction false} StartsAnew(c: Config, times: seq<int>, gone: seq<bool>, n: nat)
    requires n < |times| == |gone|
    ensures var s := Start(times, gone, n);
            Kept(AfterExpiring(c, times, gone, n), times[n], gone[n]) == After(c, times[s..], n - s)
  {
    if n > 0 {
      KeptTells(c, times, gone, n);
      if !Expired(times, gone, n) { StartsAnew(c, times, gone, n - 1); }
    }
  }

  lemma ExpiringAnswersTell(c: Config, answers: seq<bool>, times: seq<int>, gone: seq<bool>, n: nat)
    requires Ticking(times) && n < |times| == |answers| == |gone|
    requires forall m: nat | m < |times| :: answers[m] == AllowedExpiring(c, times, gone, m)
    ensures answers[n] <==>
            forall i: nat | i <= n && Unbroken(times, gone, i, n) :: Fits(c, answers, times, i, n)
  {
    var s := Start(times, gone, n);
    forall m: nat | s <= m <= n ensures answers[m] == Allowed(c, times[s..], m - s) {
      SameStart(times, gone, m, n);
      StartsAnew(c, times, gone, m);
    }
    SegmentTells(c, answers, times, s, n);
    forall i: nat | i <= n ensures Unbroken(times, gone, i, n) <==> s <= i { StartIs(times, gone, i, n); }
  }

  lemma {:induction false} SameStart(times: seq<int>, gone: seq<bool>, m: nat, n: nat)
    requires m <= n < |times| == |gone| && Start(times, gone, n) <= m
    ensures Start(times, gone, m) == Start(times, gone, n)
  {
    if m < n { SameStart(times, gone, m, n - 1); }
  }

  // A client that empties the bucket, waits out the expiry and asks again tells the two apart otherwise.

  function Tell(c: Config): (times: seq<int>) {
    seq(c.burst, _ => 0) + seq(IDLE * c.rate + 1, _ => IDLE)
  }

  lemma {:induction false} Draining(c: Config, n: nat)
    requires n <= c.burst
    ensures |Tell(c)| == c.burst + IDLE * c.rate + 1
    ensures n > 0 ==> After(c, Tell(c), n) == Some(Bucket(c.burst - n, 0))
    ensures n > 0 ==> AfterExpiring(c, Tell(c), seq(|Tell(c)|, _ => true), n) == Some(Bucket(c.burst - n, 0))
  {
    if n > 0 { Draining(c, n - 1); }
  }

  lemma {:induction false} Returning(c: Config, m: nat)
    requires c.rate > 0 && c.burst > IDLE * c.rate && 0 < m <= IDLE * c.rate
    ensures var times := Tell(c);
            && After(c, times, c.burst + m) == Some(Bucket(IDLE * c.rate - m, IDLE))
            && AfterExpiring(c, times, seq(|times|, _ => true), c.burst + m) == Some(Bucket(c.burst - m, IDLE))
  {
    ReturnTime(c, m);
    if m > 1 {
      Returning(c, m - 1);
    } else {
      Draining(c, c.burst);
      FirstReturn(c);
    }
  }

  lemma ReturnTime(c: Config, m: nat)
    requires 0 < m <= IDLE * c.rate + 1
    ensures |Tell(c)| == c.burst + IDLE * c.rate + 1 && Tell(c)[c.burst + m - 1] == IDLE
  {
  }

  lemma FirstReturn(c: Config)
    requires c.rate > 0 && c.burst > IDLE * c.rate
    ensures Allow(c, Some(Bucket(0, 0)), IDLE).0 == Bucket(IDLE * c.rate - 1, IDLE)
    ensures Allow(c, Kept(Some(Bucket(0, 0)), IDLE, true), IDLE).0 == Bucket(c.burst - 1, IDLE)
  {
  }

  /** Expiry is invisible on every run exactly when burst <= 120 * rate. */
  lemma ExpiryInvisibleExactly(c: Config)
    requires c.rate > 0
    ensures c.burst <= 120 * c.rate <==>
            forall times: seq<int>, gone: seq<bool>, n: nat ::
              Ticking(times) && n < |times| == |gone| ==> AllowedExpiring(c, times, gone, n) == Allowed(c, times, n)
  {
    if c.burst <= IDLE * c.rate {
      forall times: seq<int>, gone: seq<bool>, n: nat | Ticking(times) && n < |times| == |gone|
        ensures AllowedExpiring(c, times, gone, n) == Allowed(c, times, n)
      {
        ExpiryIsInvisible(c, times, gone, n);
      }
    } else {
      var times, gone := Tell(c), seq(|Tell(c)|, _ => true);
      var n := c.burst + IDLE * c.rate;
      Draining(c, 0);
      Returning(c, IDLE * c.rate);
      assert AllowedExpiring(c, times, gone, n) && !Allowed(c, times, n);
      assert Ticking(times);
    }
  }
}
