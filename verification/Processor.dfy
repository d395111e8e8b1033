/** The client of the external processor: bounded retries with a doubling backoff
    and jitter, in 64-bit nanoseconds. */
module Processor {
  import opened Int64
  import opened Prelude
  import JobTable

  /** What one POST came back with. */
  datatype Reply =
    | NotBuilt
    | NoResponse
    | Response(status: int, decoded: Option<string>)

  datatype Verdict = Success(summary: string) | Retryable | Permanent

  /** doOnce. */
  function Judge(r: Reply): Verdict {
    match r
    case NotBuilt => Permanent
    case NoResponse => Retryable
    case Response(status, decoded) =>
      if status >= 500 || status == 429 then Retryable
      else if status >= 400 then Permanent
      else if decoded.None? then Retryable
      else Success(decoded.value)
  }

  const FIRST_BACKOFF := 200_000_000

  /** Go's division truncates. */
  function Half(x: int): int {
    if x >= 0 then x / 2 else -((-x) / 2)
  }

  /** The backoff before the wait after call `k`, in int64. */
  function Backoff(k: nat): int {
    if k <= 1 then FIRST_BACKOFF else Wrap64(2 * Backoff(k - 1))
  }

  /** The argument of rand.Int64N, which panics unless it is positive. */
  function Spread(backoff: int): int {
    Wrap64(Half(backoff) + 1)
  }

  predicate CanDraw(k: nat) {
    Spread(Backoff(k)) > 0
  }

  /** Backoff plus jitter, when the generator's raw draw is `raw`. */
  function Jittered(backoff: int, raw: nat): int
    requires Spread(backoff) > 0
  {
    Wrap64(backoff + raw % Spread(backoff))
  }

  /** The wait after call `k`. */
  function Wait(k: nat, raw: nat): int
    requires CanDraw(k)
  {
    Jittered(Backoff(k), raw)
  }

  datatype Result = Processed(summary: string) | GaveUp(permanent: bool) | Cancelled | Panicked

  function Bound(maxRetries: int): nat {
    if maxRetries < 1 then 1 else maxRetries
  }

  function Sum(s: seq<int>): int {
    if s == [] then 0 else Sum(s[..|s| - 1]) + s[|s| - 1]
  }

  ghost predicate AllRetryable(replies: nat -> Reply, n: nat) {
    forall k: nat :: 1 <= k <= n ==> Judge(replies(k)).Retryable?
  }

  predicate IsWait(wait: int, k: nat, raw: nat) {
    CanDraw(k) && wait == Wait(k, raw)
  }

  ghost predicate WaitsAre(waits: seq<int>, raws: nat -> nat) {
    forall k :: 0 <= k < |waits| ==> IsWait(waits[k], k + 1, raws(k + 1))
  }

  /** How many calls Process will have made when it is about to make call `k`. */
  function CallsFrom(maxRetries: int, replies: nat -> Reply, cancels: nat -> bool, k: nat): (n: nat)
    requires k <= Bound(maxRetries)
    ensures k <= n <= Bound(maxRetries)
    decreases Bound(maxRetries) - k
  {
    if !Judge(replies(k)).Retryable? || k == Bound(maxRetries) || !CanDraw(k) || cancels(k) then k
    else CallsFrom(maxRetries, replies, cancels, k + 1)
  }

  /** Process. Call `k` is answered by `replies(k)`; during the wait that follows,
      `cancels(k)` says whether the context ends first. */
  method Process(maxRetries: int, replies: nat -> Reply, raws: nat -> nat, cancels: nat -> bool)
    returns (res: Result, calls: nat, waits: seq<int>)
    ensures 1 <= calls <= if maxRetries < 1 then 1 else maxRetries
    ensures res.Processed? <==>
      replies(calls).Response? && replies(calls).status < 400 && replies(calls).decoded.Some?
    ensures res.Processed? ==> replies(calls).decoded == Some(res.summary)
    ensures res.GaveUp? && res.permanent <==>
      || replies(calls).NotBuilt?
      || (replies(calls).Response? && 400 <= replies(calls).status < 500 && replies(calls).status != 429)
    ensures res.GaveUp? && !res.permanent ==> calls == if maxRetries < 1 then 1 else maxRetries
    ensures forall k: nat :: (1 <= k < calls || (k == calls && !res.Processed? && !(res.GaveUp? && res.permanent))) ==>
      || replies(k).NoResponse?
      || (replies(k).Response? &&
          (replies(k).status >= 500 || replies(k).status == 429 || (replies(k).status < 400 && replies(k).decoded.None?)))
    ensures forall k: nat :: 1 <= k < calls ==> !cancels(k)
    ensures res.Cancelled? ==> cancels(calls)
    ensures res.Cancelled? || res.Panicked? ==> calls < maxRetries
    ensures calls <= 37 && (res.Panicked? ==> calls == 37)
    ensures |waits| == if res.Cancelled? then calls else calls - 1
    ensures maxRetries <= 36 ==> forall k: nat :: k < |waits| ==>
      waits[k] == 200_000_000 * JobTable.Pow2(k) + raws(k + 1) % (100_000_000 * JobTable.Pow2(k) + 1)
    ensures WaitsAre(waits, raws) && |waits| < Bound(maxRetries)
    ensures calls == CallsFrom(maxRetries, replies, cancels, 1)
  {
    hide Wrap64, Spread, Jittered, Judge, AllRetryable, WaitsAre, IsWait, CanDraw, CallsFrom;
    var bound := if maxRetries < 1 then 1 else maxRetries;
    var backoff := FIRST_BACKOFF;
    var attempt := 1;
    waits := [];
    AtFirst(replies, raws);
    while true
      invariant 1 <= attempt <= bound && attempt <= 37 && |waits| == attempt - 1
      invariant backoff == Backoff(attempt)
      invariant CallsFrom(maxRetries, replies, cancels, 1) == CallsFrom(maxRetries, replies, cancels, attempt)
      invariant AllRetryable(replies, attempt - 1) && forall k: nat :: 1 <= k < attempt ==> !cancels(k)
      invariant WaitsAre(waits, raws)
      decreases bound - attempt
    {
      var verdict := Judge(replies(attempt));
      JudgeSplits(replies(attempt));
      RetryableSpelledOut(replies, attempt);
      DrawsEndAtThirtySeven(attempt);
      CallsFromHere(maxRetries, replies, cancels, attempt);
      WaitsSpelledOut(maxRetries, waits, raws);
      if verdict.Success? {
        return Processed(verdict.summary), attempt, waits;
      }
      if verdict.Permanent? || attempt >= bound {
        return GaveUp(verdict.Permanent?), attempt, waits;
      }
      if Spread(backoff) <= 0 {
        return Panicked, attempt, waits;
      }
      WaitsSnoc(waits, raws);
      waits := waits + [Jittered(backoff, raws(attempt))];
      if cancels(attempt) {
        WaitsSpelledOut(maxRetries, waits, raws);
        return Cancelled, attempt, waits;
      }
      backoff := Wrap64(2 * backoff);
      attempt := attempt + 1;
    }
  }

  lemma CallsFromHere(maxRetries: int, replies: nat -> Reply, cancels: nat -> bool, k: nat)
    requires k <= Bound(maxRetries)
    ensures CallsFrom(maxRetries, replies, cancels, k) ==
      if !Judge(replies(k)).Retryable? || k == Bound(maxRetries) || !CanDraw(k) || cancels(k) then k
      else CallsFrom(maxRetries, replies, cancels, k + 1)
  {
    hide Judge, CanDraw;
  }

  lemma DrawsEndAtThirtySeven(k: nat)
    ensures CanDraw(k) <==> Spread(Backoff(k)) > 0
    ensures 1 <= k <= 36 ==> CanDraw(k)
    ensures k == 37 ==> !CanDraw(k)
  {
    hide Wrap64, Backoff;
    AfterThirtySix();
    DrawsNeverPanic(37);
    assert 1 <= k <= 36 ==> k < Bound(37);
  }

  lemma AtFirst(replies: nat -> Reply, raws: nat -> nat)
    ensures AllRetryable(replies, 0) && WaitsAre([], raws)
  {
  }

  lemma WaitsSnoc(waits: seq<int>, raws: nat -> nat)
    requires WaitsAre(waits, raws)
    ensures var k := |waits| + 1;
      CanDraw(k) <==> Spread(Backoff(k)) > 0
    ensures var k := |waits| + 1;
      CanDraw(k) ==> WaitsAre(waits + [Jittered(Backoff(k), raws(k))], raws)
  {
    hide Spread, Jittered, Backoff;
  }

  /** What it took for the first `n - 1` replies to be worth another call. */
  lemma RetryableSpelledOut(replies: nat -> Reply, n: nat)
    requires n >= 1 && AllRetryable(replies, n - 1)
    ensures forall k: nat :: 1 <= k < n ==>
      || replies(k).NoResponse?
      || (replies(k).Response? &&
          (replies(k).status >= 500 || replies(k).status == 429 || (replies(k).status < 400 && replies(k).decoded.None?)))
    ensures Judge(replies(n)).Retryable? ==> AllRetryable(replies, n)
  {
  }

  lemma JudgeSplits(r: Reply)
    ensures Judge(r).Success? <==> r.Response? && r.status < 400 && r.decoded.Some?
    ensures Judge(r).Success? ==> r.decoded == Some(Judge(r).summary)
    ensures Judge(r).Permanent? <==> r.NotBuilt? || (r.Response? && 400 <= r.status < 500 && r.status != 429)
    ensures Judge(r).Retryable? <==>
      r.NoResponse? || (r.Response? && (r.status >= 500 || r.status == 429 || (r.status < 400 && r.decoded.None?)))
  {
  }

  // ---- the arithmetic ----------------------------------------------------

  lemma {:induction false} Pow2Add(a: nat, b: nat)
    ensures JobTable.Pow2(a + b) == JobTable.Pow2(a) * JobTable.Pow2(b)
  {
    if a > 0 {
      Pow2Add(a - 1, b);
    }
  }

  lemma Pow2At35()
    ensures JobTable.Pow2(35) == 0x8_0000_0000
  {
    assert JobTable.Pow2(3) == 8;
    assert JobTable.Pow2(5) == 32;
    Pow2Add(5, 5);
    Pow2Add(10, 10);
    Pow2Add(20, 10);
    Pow2Add(30, 5);
  }

  /** 200ms * 2^35 is the last doubling that fits. */
  lemma {:induction false} BackoffDoubles(k: nat)
    requires 1 <= k <= 36
    ensures Backoff(k) == FIRST_BACKOFF * JobTable.Pow2(k - 1) && JobTable.Pow2(k - 1) <= 0x8_0000_0000
  {
    hide Wrap64;
    JobTable.Pow2Grows(k - 1, 35);
    Pow2At35();
    if k > 1 {
      BackoffDoubles(k - 1);
      assert JobTable.Pow2(k - 1) == 2 * JobTable.Pow2(k - 2);
      WrapFits(2 * Backoff(k - 1));
    }
  }

  /** Up to 35 calls the wait after call k lies between 200ms and 300ms, times
      2^(k-1). */
  lemma WaitInRange(k: nat, raw: nat)
    requires 1 <= k <= 35
    ensures CanDraw(k)
    ensures FIRST_BACKOFF * JobTable.Pow2(k - 1) <= Wait(k, raw) <= 300_000_000 * JobTable.Pow2(k - 1)
  {
    hide Wrap64;
    BackoffDoubles(k);
    BackoffDoubles(k + 1);
    assert JobTable.Pow2(k) == 2 * JobTable.Pow2(k - 1);
    var b := Backoff(k);
    WrapFits(Half(b) + 1);
    WrapFits(b + raw % Spread(b));
  }

  predicate InRange(k: nat, raw: nat) {
    && k >= 1 && CanDraw(k)
    && FIRST_BACKOFF * JobTable.Pow2(k - 1) <= Wait(k, raw) <= 300_000_000 * JobTable.Pow2(k - 1)
  }

  /** Every wait that a client with this many calls can make is in its range. */
  ghost predicate AllWaitsInRange(maxRetries: int) {
    forall k: nat, raw: nat :: 1 <= k < Bound(maxRetries) ==> InRange(k, raw)
  }

  /** The 36th backoff still fits, but with jitter it can overflow: the timer then
      fires at once. The 37th is negative and the draw panics. */
  lemma AfterThirtySix()
    ensures CanDraw(36) && Half(Backoff(36)) >= 0 && Wait(36, Half(Backoff(36))) < 0
    ensures !CanDraw(37)
  {
    hide Wrap64;
    BackoffDoubles(36);
    Pow2At35();
    var b := Backoff(36);
    WrapFits(Half(b) + 1);
    assert Half(b) % Spread(b) == Half(b);
    WrapOver(b + Half(b));
    WrapOver(2 * b);
    assert Backoff(37) == 2 * b - WORD;
    WrapFits(Half(Backoff(37)) + 1);
  }

  lemma SomeWaitOverflows(maxRetries: int)
    requires maxRetries > 36
    ensures !AllWaitsInRange(maxRetries)
  {
    hide Wrap64, Wait, Backoff;
    AfterThirtySix();
    Pow2At35();
    var raw: nat := Half(Backoff(36));
    var k: nat := 36;
    assert 1 <= k < Bound(maxRetries);
    assert !InRange(k, raw);
  }

  /** No wait ever overflows exactly when at most 36 calls are configured. */
  lemma WaitsNeverOverflow(maxRetries: int)
    ensures AllWaitsInRange(maxRetries) <==> maxRetries <= 36
  {
    if maxRetries <= 36 {
      forall k: nat, raw: nat | 1 <= k < Bound(maxRetries) ensures InRange(k, raw) {
        WaitInRange(k, raw);
      }
    } else {
      SomeWaitOverflows(maxRetries);
    }
  }

  /** Waiting in all, for the waits of one call of Process. */
  lemma {:induction false} TotalWaitIsBounded(waits: seq<int>, raws: nat -> nat)
    requires WaitsAre(waits, raws) && |waits| <= 35
    ensures FIRST_BACKOFF * (JobTable.Pow2(|waits|) - 1) <= Sum(waits) <= 300_000_000 * (JobTable.Pow2(|waits|) - 1)
    decreases |waits|
  {
    hide Wait;
    if waits != [] {
      var n := |waits| - 1;
      assert forall k :: 0 <= k < n ==> waits[..n][k] == waits[k];
      assert IsWait(waits[n], n + 1, raws(n + 1));
      TotalWaitIsBounded(waits[..n], raws);
      WaitInRange(n + 1, raws(n + 1));
      assert JobTable.Pow2(n + 1) == 2 * JobTable.Pow2(n);
    }
  }

  /** The waits of a client with at most 36 calls: 200ms, doubled each time, plus a
      draw from none to half of that. */
  lemma WaitsSpelledOut(maxRetries: int, waits: seq<int>, raws: nat -> nat)
    requires WaitsAre(waits, raws) && |waits| < Bound(maxRetries)
    ensures maxRetries <= 36 ==> forall k: nat :: k < |waits| ==>
      waits[k] == 200_000_000 * JobTable.Pow2(k) + raws(k + 1) % (100_000_000 * JobTable.Pow2(k) + 1)
  {
    hide Wait, CanDraw;
    if maxRetries <= 36 {
      forall k: nat | k < |waits|
        ensures waits[k] == 200_000_000 * JobTable.Pow2(k) + raws(k + 1) % (100_000_000 * JobTable.Pow2(k) + 1)
      {
        assert IsWait(waits[k], k + 1, raws(k + 1));
        WaitIs(k + 1, raws(k + 1));
      }
    }
  }

  lemma WaitIs(k: nat, raw: nat)
    requires 1 <= k <= 35
    ensures CanDraw(k)
    ensures Wait(k, raw) ==
      200_000_000 * JobTable.Pow2(k - 1) + raw % (100_000_000 * JobTable.Pow2(k - 1) + 1)
  {
    hide Wrap64;
    BackoffDoubles(k);
    BackoffDoubles(k + 1);
    assert JobTable.Pow2(k) == 2 * JobTable.Pow2(k - 1);
    var b := Backoff(k);
    assert Half(b) == 100_000_000 * JobTable.Pow2(k - 1);
    WrapFits(Half(b) + 1);
    WrapFits(b + raw % Spread(b));
  }

  /** All the waiting in one call of Process. */
  lemma ProcessWaitsAtMost(maxRetries: int, waits: seq<int>, raws: nat -> nat)
    requires maxRetries <= 36 && WaitsAre(waits, raws) && |waits| < Bound(maxRetries)
    ensures 0 <= Sum(waits) <= 300_000_000 * (JobTable.Pow2(Bound(maxRetries) - 1) - 1)
  {
    hide Sum;
    TotalWaitIsBounded(waits, raws);
    JobTable.Pow2Grows(|waits|, Bound(maxRetries) - 1);
  }

  /** Drawing the jitter never panics exactly when at most 37 calls are
      configured. */
  lemma DrawsNeverPanic(maxRetries: int)
    ensures (forall k: nat :: 1 <= k < Bound(maxRetries) ==> CanDraw(k)) <==> maxRetries <= 37
  {
    hide Wrap64, Backoff;
    AfterThirtySix();
    if maxRetries <= 37 {
      forall k: nat | 1 <= k < Bound(maxRetries) ensures CanDraw(k) {
        if k <= 35 {
          WaitInRange(k, 0);
        }
      }
    }
  }
}
