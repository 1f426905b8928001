/**
 The token bucket behind the rate limiter, for one key, on exact integers.

 Times are milliseconds and levels are thousandths of a token, so one millisecond refills
 exactly `rate` units and one request costs `TOKEN` units.
 */
module TokenBucket {
  import opened Prelude

  const TOKEN := 1000
  const MIN_TTL := 6000

  datatype RawLimits = Limits(capacity: nat, rate: nat)

  type Limits = l: RawLimits | l.capacity >= 1 && l.rate >= 1 witness Limits(35, 20)

  /** What a key stores: the level left by the last call and the time of that call. */
  datatype Bucket = Bucket(level: int, lastRefill: int)

  datatype Answer = Answer(allowed: bool, waitMs: int, token: int)

  function Full(c: Limits): nat {
    TOKEN * c.capacity
  }

  /** The level a call at `now` finds; a key nobody used is full. */
  function Refilled(c: Limits, b: Option<Bucket>, now: int): int {
    match b
    case None => Full(c)
    case Some(b) => Min(Full(c), b.level + (now - b.lastRefill) * c.rate)
  }

  function Called(c: Limits, b: Option<Bucket>, now: int): Bucket {
    var level := Refilled(c, b, now);
    Bucket(if level >= TOKEN then level - TOKEN else level, now)
  }

  function Reply(c: Limits, b: Option<Bucket>, now: int): Answer {
    var level := Refilled(c, b, now);
    if level >= TOKEN
    then Answer(true, 0, TruncDiv(level - TOKEN, TOKEN))
    else Answer(false, CeilDiv(TOKEN - level, c.rate), TruncDiv(level, TOKEN))
  }

  /** How long a touched key is kept: long enough to refill, and never under `MIN_TTL`. */
  function Ttl(c: Limits): int {
    Max(CeilDiv(Full(c), c.rate), MIN_TTL)
  }

  /** The reported token count is what the call leaves, in whole tokens, rounded toward zero. */
  lemma RemainingIsWholeTokens(c: Limits, b: Option<Bucket>, now: int)
    ensures var left, token := Called(c, b, now).level, Reply(c, b, now).token;
      if left >= 0 then token * 1000 <= left < (token + 1) * 1000 else (token - 1) * 1000 < left <= token * 1000
  {
  }

  /** `Ttl` is the least time that is at least six seconds and fills an empty bucket. */
  lemma TtlIsLeast(c: Limits, ms: int)
    ensures ms >= Ttl(c) <==> ms >= 6000 && ms * c.rate >= 1000 * c.capacity
  {
    CeilDivIsLeastCover(Full(c), c.rate, ms);
  }

  // ---------- histories of one key that is never forgotten ----------

  function After(c: Limits, ts: seq<int>): Option<Bucket> {
    if ts == [] then None else Some(Called(c, After(c, ts[..|ts| - 1]), ts[|ts| - 1]))
  }

  lemma AfterOneMore(c: Limits, ts: seq<int>, now: int)
    ensures After(c, ts + [now]) == Some(Called(c, After(c, ts), now))
  {
    assert (ts + [now])[..|ts|] == ts;
  }

  function LevelAt(c: Limits, ts: seq<int>, j: nat): int
    requires j < |ts|
  {
    Refilled(c, After(c, ts[..j]), ts[j])
  }

  function AnswerAt(c: Limits, ts: seq<int>, j: nat): Answer
    requires j < |ts|
  {
    Reply(c, After(c, ts[..j]), ts[j])
  }

  /** How many of the calls `i..j` were admitted. */
  function AdmittedIn(c: Limits, ts: seq<int>, i: nat, j: nat): nat
    requires i <= j <= |ts|
    decreases j
  {
    if i == j then 0
    else AdmittedIn(c, ts, i, j - 1) + if AnswerAt(c, ts, j - 1).allowed then 1 else 0
  }

  /** What is left at call `j` of the allowance of the window that opens at call `i`. */
  function WindowSlack(c: Limits, ts: seq<int>, i: nat, j: nat): int
    requires i <= j < |ts|
  {
    1000 * c.capacity + (ts[j] - ts[i]) * c.rate - 1000 * AdmittedIn(c, ts, i, j)
  }

  /** One more admission at call `j` keeps the window that opens at call `i` within its allowance. */
  predicate Fits(c: Limits, ts: seq<int>, i: nat, j: nat)
    requires i <= j < |ts|
  {
    1000 * (AdmittedIn(c, ts, i, j) + 1) <= 1000 * c.capacity + (ts[j] - ts[i]) * c.rate
  }

  /** One more admission at call `j` keeps every window that it closes within its allowance. */
  ghost predicate FitsEverywhere(c: Limits, ts: seq<int>, j: nat)
    requires j < |ts|
  {
    forall i :: 0 <= i <= j ==> Fits(c, ts, i, j)
  }

  ghost predicate NonDecreasing(ts: seq<int>) {
    forall i, j :: 0 <= i <= j < |ts| ==> ts[i] <= ts[j]
  }

  // ---------- exactness over windows ----------

  lemma LevelStep(c: Limits, ts: seq<int>, j: nat)
    requires 0 < j < |ts|
    ensures LevelAt(c, ts, j) == Min(Full(c),
        LevelAt(c, ts, j - 1) - (if AnswerAt(c, ts, j - 1).allowed then TOKEN else 0) + (ts[j] - ts[j - 1]) * c.rate)
  {
    assert ts[..j][..j - 1] == ts[..j - 1];
  }

  /** The level is the least slack over all windows ending now; the clock may even run backwards. */
  lemma {:induction false} LevelIsLeastSlack(c: Limits, ts: seq<int>, j: nat)
    requires j < |ts|
    ensures forall i :: 0 <= i <= j ==> LevelAt(c, ts, j) <= WindowSlack(c, ts, i, j)
    ensures exists i :: 0 <= i <= j && LevelAt(c, ts, j) == WindowSlack(c, ts, i, j)
  {
    assert WindowSlack(c, ts, j, j) == Full(c);
    if j > 0 {
      LevelIsLeastSlack(c, ts, j - 1);
      LevelStep(c, ts, j);
      var spent := if AnswerAt(c, ts, j - 1).allowed then TOKEN else 0;
      forall i | 0 <= i < j
        ensures WindowSlack(c, ts, i, j) == WindowSlack(c, ts, i, j - 1) - spent + (ts[j] - ts[j - 1]) * c.rate
      {
        assert (ts[j] - ts[i]) * c.rate == (ts[j] - ts[j - 1]) * c.rate + (ts[j - 1] - ts[i]) * c.rate;
      }
      var w :| 0 <= w <= j - 1 && LevelAt(c, ts, j - 1) == WindowSlack(c, ts, w, j - 1);
      assert LevelAt(c, ts, j) == WindowSlack(c, ts, if LevelAt(c, ts, j) == Full(c) then j else w, j);
    }
  }

  /** A call is admitted exactly when admitting it keeps every window that it closes within its allowance. */
  lemma {:induction false} AdmittedExactlyWhenEveryWindowAllows(c: Limits, ts: seq<int>, j: nat)
    requires j < |ts|
    ensures AnswerAt(c, ts, j).allowed <==> FitsEverywhere(c, ts, j)
  {
    LevelIsLeastSlack(c, ts, j);
    if !AnswerAt(c, ts, j).allowed {
      var i :| 0 <= i <= j && LevelAt(c, ts, j) == WindowSlack(c, ts, i, j);
      assert !Fits(c, ts, i, j);
    } else {
      forall i | 0 <= i <= j
        ensures Fits(c, ts, i, j)
      {
        assert LevelAt(c, ts, j) <= WindowSlack(c, ts, i, j);
      }
    }
  }

  lemma {:induction false} AdmittedCallClosesWithinAllowance(c: Limits, ts: seq<int>, i: nat, j: nat)
    requires i <= j < |ts| && AnswerAt(c, ts, j).allowed
    ensures TOKEN * AdmittedIn(c, ts, i, j + 1) <= Full(c) + (ts[j] - ts[i]) * c.rate
  {
    AdmittedExactlyWhenEveryWindowAllows(c, ts, j);
    assert Fits(c, ts, i, j);
    assert AdmittedIn(c, ts, i, j + 1) == AdmittedIn(c, ts, i, j) + 1;
  }

  /**
   No window ever holds more than `capacity + rate * T` admissions: without a clock assumption when
   its last call was admitted, and always when the clock does not run backwards.
   */
  lemma {:induction false} WindowsStayWithinAllowance(c: Limits, ts: seq<int>, i: nat, j: nat)
    requires i <= j < |ts|
    requires AnswerAt(c, ts, j).allowed || NonDecreasing(ts)
    ensures 1000 * AdmittedIn(c, ts, i, j + 1) <= 1000 * c.capacity + (ts[j] - ts[i]) * c.rate
  {
    hide AnswerAt;
    if AnswerAt(c, ts, j).allowed {
      AdmittedCallClosesWithinAllowance(c, ts, i, j);
    } else if i < j {
      WindowsStayWithinAllowance(c, ts, i, j - 1);
      MulKeepsOrder(ts[j - 1] - ts[i], ts[j] - ts[i], c.rate);
    }
  }

  // ---------- the wait ----------

  /** After a refusal, a lone later call is admitted exactly when it comes at least `waitMs` later. */
  lemma {:induction false} WaitIsLeastDelay(c: Limits, b: Option<Bucket>, now: int, delay: nat)
    requires !Reply(c, b, now).allowed
    ensures Reply(c, b, now).waitMs >= 1
    ensures Reply(c, Some(Called(c, b, now)), now + delay).allowed <==> delay >= Reply(c, b, now).waitMs
  {
    var level := Refilled(c, b, now);
    CeilDivIsLeastCover(TOKEN - level, c.rate, delay);
    CeilDivIsLeastCover(TOKEN - level, c.rate, 0);
  }

  // ---------- refusals are free ----------

  lemma CappedRefillAdds(c: Limits, b: Option<Bucket>, t: int, t': int)
    requires b.Some? ==> b.value.lastRefill <= t
    requires t <= t'
    ensures Min(Full(c), Refilled(c, b, t) + (t' - t) * c.rate) == Refilled(c, b, t')
  {
    assert (t' - t) * c.rate >= 0;
    if b.Some? {
      var l := b.value.lastRefill;
      assert (t' - l) * c.rate == (t' - t) * c.rate + (t - l) * c.rate;
    }
  }

  lemma {:induction false} LastRefillIsLastCall(c: Limits, ts: seq<int>)
    requires ts != []
    ensures After(c, ts).Some? && After(c, ts).value.lastRefill == ts[|ts| - 1]
  {
  }

  function Without<T>(s: seq<T>, k: nat): seq<T>
    requires k < |s|
  {
    s[..k] + s[k + 1..]
  }

  /** The call right after a refused one finds what it would have found without it. */
  lemma {:induction false} NextCallSeesNoRefusal(c: Limits, ts: seq<int>, k: nat)
    requires NonDecreasing(ts)
    requires k + 1 < |ts| && !AnswerAt(c, ts, k).allowed
    ensures Refilled(c, After(c, ts[..k]), ts[k + 1]) == LevelAt(c, ts, k + 1)
  {
    assert ts[..k + 1][..k] == ts[..k];
    if k > 0 {
      LastRefillIsLastCall(c, ts[..k]);
    }
    CappedRefillAdds(c, After(c, ts[..k]), ts[k], ts[k + 1]);
  }

  /** Once one more call has been made, it no longer matters that call `k` was refused. */
  lemma {:induction false} RefusalLeavesNoTrace(c: Limits, ts: seq<int>, k: nat, j: nat)
    requires NonDecreasing(ts)
    requires k < j < |ts|
    requires !AnswerAt(c, ts, k).allowed
    ensures Refilled(c, After(c, Without(ts, k)[..j - 1]), ts[j]) == LevelAt(c, ts, j)
    decreases j
  {
    if j == k + 1 {
      assert ts[..k] == Without(ts, k)[..k];
      NextCallSeesNoRefusal(c, ts, k);
    } else {
      RefusalLeavesNoTrace(c, ts, k, j - 1);
      var without := Without(ts, k)[..j - 1];
      assert without[..j - 2] == Without(ts, k)[..j - 2];
      assert without[j - 2] == ts[j - 1];
      assert ts[..j][..j - 1] == ts[..j - 1];
    }
  }

  /** Deleting a refused call from a history leaves every other call's answer as it was. */
  lemma {:induction false} RefusalsAreFree(c: Limits, ts: seq<int>, k: nat, j: nat)
    requires NonDecreasing(ts)
    requires k < |ts| && j < |ts| && j != k
    requires !AnswerAt(c, ts, k).allowed
    ensures AnswerAt(c, Without(ts, k), if j < k then j else j - 1) == AnswerAt(c, ts, j)
  {
    if j < k {
      assert Without(ts, k)[..j] == ts[..j];
    } else {
      RefusalLeavesNoTrace(c, ts, k, j);
    }
  }

  // ---------- forgetting an idle key ----------

  lemma {:induction false} LevelsStayWithinBucket(c: Limits, ts: seq<int>)
    requires NonDecreasing(ts) && ts != []
    ensures 0 <= After(c, ts).value.level <= Full(c)
  {
    var n := |ts| - 1;
    if n > 0 {
      LevelsStayWithinBucket(c, ts[..n]);
      LastRefillIsLastCall(c, ts[..n]);
      assert (ts[n] - ts[n - 1]) * c.rate >= 0;
    }
  }

  /** A key idle for `Ttl` is full again, so a call cannot tell whether it was forgotten. */
  lemma {:induction false} IdleKeyIsFull(c: Limits, ts: seq<int>, now: int)
    requires NonDecreasing(ts) && ts != []
    requires now - ts[|ts| - 1] >= Ttl(c)
    ensures Refilled(c, After(c, ts), now) == Refilled(c, None, now)
  {
    LevelsStayWithinBucket(c, ts);
    LastRefillIsLastCall(c, ts);
    CeilDivIsLeastCover(Full(c), c.rate, now - ts[|ts| - 1]);
  }
}
