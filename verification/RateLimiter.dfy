/**
 The rate limiter as deployed: one Redis hash per client address, forgotten after a time to live,
 and the middleware that turns the script's reply into a response.
 */
module RateLimiter {
  import opened Prelude
  import opened TokenBucket

  /** A stored hash and the last millisecond at which Redis still serves it. */
  datatype Entry = Entry(bucket: Bucket, expireAt: int)

  type Store = map<string, Entry>

  datatype Hit = Hit(key: string, now: int)

  function Live(store: Store, key: string, now: int): Option<Bucket> {
    if key in store && now <= store[key].expireAt then Some(store[key].bucket) else None
  }

  function Scripted(c: Limits, store: Store, hit: Hit): Store {
    store[hit.key := Entry(Called(c, Live(store, hit.key, hit.now), hit.now), hit.now + Ttl(c))]
  }

  /** The store after a whole history of calls by all clients. */
  function Served(c: Limits, hits: seq<Hit>): Store {
    if hits == [] then map[] else Scripted(c, Served(c, hits[..|hits| - 1]), hits[|hits| - 1])
  }

  function TimesOf(hits: seq<Hit>, key: string): seq<int> {
    if hits == [] then []
    else
      var last := hits[|hits| - 1];
      var earlier := TimesOf(hits[..|hits| - 1], key);
      if last.key == key then earlier + [last.now] else earlier
  }

  ghost predicate Ordered(hits: seq<Hit>) {
    forall i, j :: 0 <= i <= j < |hits| ==> hits[i].now <= hits[j].now
  }

  lemma {:induction false} TimesAreOrdered(hits: seq<Hit>, key: string)
    requires Ordered(hits)
    ensures NonDecreasing(TimesOf(hits, key))
    ensures forall t :: t in TimesOf(hits, key) ==> t <= hits[|hits| - 1].now
  {
    if hits != [] {
      var before := hits[..|hits| - 1];
      TimesAreOrdered(before, key);
      var times, earlier := TimesOf(hits, key), TimesOf(before, key);
      assert forall t :: t in earlier ==> t <= hits[|before|].now;
      forall i, j | 0 <= i <= j < |times|
        ensures times[i] <= times[j]
      {
        assert i < |earlier| ==> times[i] == earlier[i] && earlier[i] in earlier;
      }
    }
  }

  /** `store` holds for `key` the bucket that saw exactly the calls at `times` and never forgets. */
  ghost predicate HoldsIdeal(c: Limits, store: Store, key: string, times: seq<int>) {
    if times == [] then key !in store
    else key in store && store[key] == Entry(After(c, times).value, times[|times| - 1] + Ttl(c))
  }

  lemma ScriptKeepsIdeal(c: Limits, store: Store, hit: Hit, times: seq<int>)
    requires Refilled(c, Live(store, hit.key, hit.now), hit.now) == Refilled(c, After(c, times), hit.now)
    ensures HoldsIdeal(c, Scripted(c, store, hit), hit.key, times + [hit.now])
  {
    AfterOneMore(c, times, hit.now);
  }

  /** Every key's stored hash is the bucket that never forgets, whatever expired on the way. */
  lemma {:induction false} StoreHoldsIdealBuckets(c: Limits, hits: seq<Hit>, key: string)
    requires Ordered(hits)
    ensures HoldsIdeal(c, Served(c, hits), key, TimesOf(hits, key))
    decreases |hits|, 0
  {
    if hits != [] {
      var before, last := hits[..|hits| - 1], hits[|hits| - 1];
      assert before + [last] == hits;
      if last.key == key {
        ForgettingIsInvisible(c, before, last);
        ScriptKeepsIdeal(c, Served(c, before), last, TimesOf(before, key));
      } else {
        StoreHoldsIdealBuckets(c, before, key);
      }
    }
  }

  /** The level any call finds is the level of the bucket that never forgets and sees only its key's calls. */
  lemma {:induction false} ForgettingIsInvisible(c: Limits, before: seq<Hit>, hit: Hit)
    requires Ordered(before + [hit])
    ensures Refilled(c, Live(Served(c, before), hit.key, hit.now), hit.now)
         == Refilled(c, After(c, TimesOf(before, hit.key)), hit.now)
    decreases |before|, 1
  {
    assert forall i :: 0 <= i < |before| ==> (before + [hit])[i] == before[i];
    StoreHoldsIdealBuckets(c, before, hit.key);
    var times := TimesOf(before, hit.key);
    TimesAreOrdered(before, hit.key);
    if times != [] && hit.now > times[|times| - 1] + Ttl(c) {
      IdleKeyIsFull(c, times, hit.now);
    }
  }

  // ---------- what a client sees ----------

  function Answered(c: Limits, before: seq<Hit>, hit: Hit): Answer {
    Reply(c, Live(Served(c, before), hit.key, hit.now), hit.now)
  }

  /**
   The deployed limiter answers every call as an ideal bucket of that key would: other clients'
   calls and every forgotten key are invisible.
   */
  lemma ServerIsIdealPerKey(c: Limits, before: seq<Hit>, hit: Hit)
    requires Ordered(before + [hit])
    ensures var times := TimesOf(before + [hit], hit.key);
      times != [] && Answered(c, before, hit) == AnswerAt(c, times, |times| - 1)
  {
    ForgettingIsInvisible(c, before, hit);
    assert (before + [hit])[..|before|] == before;
    var times := TimesOf(before + [hit], hit.key);
    assert times[..|times| - 1] == TimesOf(before, hit.key);
  }

  lemma {:induction false} OtherKeysDoNotCount(hits: seq<Hit>, others: seq<Hit>, key: string)
    requires forall h :: h in others ==> h.key != key
    ensures TimesOf(hits + others, key) == TimesOf(hits, key)
  {
    if others == [] {
      assert hits + others == hits;
    } else {
      var all := hits + others;
      assert all[..|all| - 1] == hits + others[..|others| - 1];
      OtherKeysDoNotCount(hits, others[..|others| - 1], key);
    }
  }

  lemma {:induction false} TimesOfBoth(hits: seq<Hit>, more: seq<Hit>, key: string)
    ensures TimesOf(hits + more, key) == TimesOf(hits, key) + TimesOf(more, key)
  {
    if more == [] {
      assert hits + more == hits;
    } else {
      var all := hits + more;
      assert all[..|all| - 1] == hits + more[..|more| - 1];
      TimesOfBoth(hits, more[..|more| - 1], key);
    }
  }

  /** Deleting a refused call of any client leaves the answer of every other call, by any client, as it was. */
  lemma {:induction false} RefusedHitsAreFree(c: Limits, hits: seq<Hit>, k: nat, j: nat)
    requires Ordered(hits)
    requires k < |hits| && j < |hits| && j != k
    ensures !Answered(c, hits[..k], hits[k]).allowed ==>
      Answered(c, Without(hits, k)[..if j < k then j else j - 1], hits[j]) == Answered(c, hits[..j], hits[j])
  {
    hide Answered, TimesOf, AnswerAt;
    if j < k {
      assert Without(hits, k)[..j] == hits[..j];
    } else {
      var key, before, between := hits[j].key, hits[..k], hits[k + 1..j];
      var without := Without(hits, k)[..j - 1];
      assert without == before + between;
      assert hits[..j] == before + [hits[k]] + between;
      assert Ordered(hits[..j] + [hits[j]]) && Ordered(without + [hits[j]]) && Ordered(before + [hits[k]]);
      ServerIsIdealPerKey(c, hits[..j], hits[j]);
      ServerIsIdealPerKey(c, without, hits[j]);
      ServerIsIdealPerKey(c, before, hits[k]);
      RefusalInTimes(c, before, hits[k], between + [hits[j]], key);
      assert hits[..j] + [hits[j]] == before + [hits[k]] + (between + [hits[j]]);
      assert without + [hits[j]] == before + (between + [hits[j]]);
      TimesAreOrdered(hits[..j] + [hits[j]], key);
      if hits[k].key == key && !Answered(c, before, hits[k]).allowed {
        var times := TimesOf(hits[..j] + [hits[j]], key);
        RefusalsAreFree(c, times, |TimesOf(before, key)|, |times| - 1);
      }
    }
  }

  /** Where the refused call sits in the history of `key`: nowhere, or behind the calls before it. */
  lemma RefusalInTimes(c: Limits, before: seq<Hit>, refused: Hit, after: seq<Hit>, key: string)
    requires after != [] && after[|after| - 1].key == key
    ensures var times, k := TimesOf(before + [refused] + after, key), |TimesOf(before, key)|;
      if refused.key != key then TimesOf(before + after, key) == times
      else
        && k + 1 < |times| && TimesOf(before + after, key) == Without(times, k)
        && times[..k + 1] == TimesOf(before + [refused], key)
        && AnswerAt(c, times, k) == AnswerAt(c, TimesOf(before + [refused], key), k)
  {
    TimesOfBoth(before + [refused], after, key);
    TimesOfBoth(before, after, key);
    TimesOfBoth(before, [refused], key);
    assert TimesOf([refused], key) == if refused.key == key then [refused.now] else [];
    assert TimesOf(after, key) != [];
    if refused.key == key {
      var times, k := TimesOf(before + [refused] + after, key), |TimesOf(before, key)|;
      assert times[..k] == TimesOf(before + [refused], key)[..k];
    }
  }

  /** A refused client that stays quiet is admitted exactly from `waitMs` on, whatever the others do. */
  lemma WaitIsHonest(c: Limits, before: seq<Hit>, refused: Hit, others: seq<Hit>, again: Hit)
    requires again.key == refused.key
    requires forall h :: h in others ==> h.key != refused.key
    requires Ordered(before + [refused]) && Ordered(before + [refused] + others + [again])
    requires !Answered(c, before, refused).allowed
    ensures Answered(c, before + [refused] + others, again).allowed
       <==> again.now - refused.now >= Answered(c, before, refused).waitMs
  {
    var first, all := before + [refused], before + [refused] + others;
    OtherKeysDoNotCount(first, others, refused.key);
    ForgettingIsInvisible(c, before, refused);
    ForgettingIsInvisible(c, all, again);
    assert first[..|before|] == before;
    AfterOneMore(c, TimesOf(before, refused.key), refused.now);
    assert (all + [again])[|before|] == refused && (all + [again])[|all|] == again;
    WaitIsLeastDelay(c, After(c, TimesOf(before, refused.key)), refused.now, again.now - refused.now);
  }

  // ---------- the script ----------

  /** The kinds of element a Redis reply can hold. */
  datatype LuaValue = Int64(n: int) | IntValue(i: int) | Float64(r: real) | Other

  datatype LuaReply = Array(items: seq<LuaValue>) | Scalar

  function Encoded(a: Answer): LuaReply {
    Array([Int64(if a.allowed then 1 else 0), Int64(a.waitMs), Int64(a.token)])
  }

  class Redis {
    var store: Store

    constructor ()
      ensures store == map[]
    {
      store := map[];
    }

    /** Refill, cap, decide, write back with a fresh time to live. */
    method RunScript(key: string, c: Limits, now: int) returns (reply: LuaReply)
      modifies this
      ensures store == Scripted(c, old(store), Hit(key, now))
      ensures reply == Encoded(Reply(c, Live(old(store), key, now), now))
    {
      var token, lastRefill := TOKEN * c.capacity, now;
      if key in store && now <= store[key].expireAt {
        token, lastRefill := store[key].bucket.level, store[key].bucket.lastRefill;
      }
      var diff := now - lastRefill;
      var addToken := diff * c.rate;
      token := Min(TOKEN * c.capacity, token + addToken);
      lastRefill := now;

      var fillTimeMs := CeilDiv(TOKEN * c.capacity, c.rate);
      var ttl := Max(fillTimeMs, MIN_TTL);

      if token >= TOKEN {
        token := token - TOKEN;
        store := store[key := Entry(Bucket(token, lastRefill), now + ttl)];
        return Array([Int64(1), Int64(0), Int64(TruncDiv(token, TOKEN))]);
      }

      var tokenNeed := TOKEN - token;
      var waitMs := CeilDiv(tokenNeed, c.rate);
      store := store[key := Entry(Bucket(token, lastRefill), now + ttl)];
      return Array([Int64(0), Int64(waitMs), Int64(TruncDiv(token, TOKEN))]);
    }
  }

  // ---------- the middleware ----------

  datatype LimitError = ScriptFailed | UnexpectedResponse | TooFewElements | UnsupportedElement

  datatype Limited = Limited(allowed: bool, waitMs: int, token: int, lastRefill: int)

  /** Go's conversion of one element to a 64-bit integer; a float loses its fraction. */
  function ToInt64(v: LuaValue): Result<int, LimitError> {
    match v
    case Int64(n) => Ok(n)
    case IntValue(i) => Ok(i)
    case Float64(r) => Ok(if r >= 0.0 then r.Floor else -((-r).Floor))
    case Other => Err(UnsupportedElement)
  }

  function Decoded(reply: LuaReply, now: int): Result<Limited, LimitError> {
    match reply
    case Scalar => Err(UnexpectedResponse)
    case Array(items) =>
      if |items| < 3 then Err(TooFewElements)
      else match (ToInt64(items[0]), ToInt64(items[1]), ToInt64(items[2]))
        case (Ok(allowed), Ok(waitMs), Ok(token)) => Ok(Limited(allowed == 1, waitMs, token, now))
        case _ => Err(UnsupportedElement)
  }

  /** Decoding gives back the script's answer, and fails exactly on replies that do not carry three numbers. */
  lemma DecodingIsExact(a: Answer, reply: LuaReply, now: int)
    ensures Decoded(Encoded(a), now) == Ok(Limited(a.allowed, a.waitMs, a.token, now))
    ensures Decoded(reply, now).Ok?
       <==> reply.Array? && |reply.items| >= 3 && forall k :: 0 <= k < 3 ==> !reply.items[k].Other?
  {
    assert reply.Array? && |reply.items| >= 3 ==>
      (forall k :: 0 <= k < 3 ==> !reply.items[k].Other?)
        == (!reply.items[0].Other? && !reply.items[1].Other? && !reply.items[2].Other?);
  }

  /** A number keeps its whole part; only the other elements are no numbers. */
  lemma NumbersAreTruncated(v: LuaValue)
    ensures ToInt64(v).Ok? <==> !v.Other?
    ensures v.Int64? ==> ToInt64(v).value == v.n
    ensures v.IntValue? ==> ToInt64(v).value == v.i
    ensures v.Float64? ==>
      var n := ToInt64(v).value;
      if v.r >= 0.0 then n as real <= v.r < n as real + 1.0 else n as real - 1.0 < v.r <= n as real
  {
  }

  function RetryAfterSecs(waitMs: int): int {
    Max(TruncDiv(waitMs + 999, 1000), 1)
  }

  /** `Retry-After` is the least whole number of seconds that covers the wait, and at least one. */
  lemma RetryAfterIsLeastCover(waitMs: int)
    requires waitMs >= 1
    ensures RetryAfterSecs(waitMs) >= 1
    ensures forall secs :: secs * 1000 >= waitMs <==> secs >= RetryAfterSecs(waitMs)
  {
    forall secs
      ensures secs * 1000 >= waitMs <==> secs >= RetryAfterSecs(waitMs)
    {
      CeilDivIsLeastCover(waitMs, 1000, secs);
    }
  }

  datatype Response =
    | Forwarded(limit: int, remaining: int, reset: int)
    | TooManyRequests(limit: int, remaining: int, reset: int, retryAfter: int)
    | InternalError

  /** The response a client owes to the answer of its own ideal bucket. */
  function ResponseTo(c: Limits, a: Answer, now: int): Response {
    if a.allowed then Forwarded(c.rate, a.token, now)
    else TooManyRequests(c.rate, a.token, now, RetryAfterSecs(a.waitMs))
  }

  /** What the level of a key's bucket decides about a response: everything in it. */
  lemma ResponseInFull(c: Limits, b: Option<Bucket>, now: int)
    ensures var r, level := ResponseTo(c, Reply(c, b, now), now), Refilled(c, b, now);
      && !r.InternalError? && r.limit == c.rate && r.reset == now
      && (r.Forwarded? <==> level >= 1000)
      && IsWhole(r.remaining, if r.Forwarded? then level - 1000 else level)
      && (r.TooManyRequests? ==>
            && r.retryAfter >= 1
            && forall secs :: secs >= r.retryAfter <==> level + secs * 1000 * c.rate >= 1000)
  {
    var level := Refilled(c, b, now);
    RemainingIsWholeTokens(c, b, now);
    if level < 1000 {
      var waitMs := Reply(c, b, now).waitMs;
      CeilDivIsLeastCover(1000 - level, c.rate, 0);
      RetryAfterIsLeastCover(waitMs);
      forall secs
        ensures secs >= RetryAfterSecs(waitMs) <==> level + secs * 1000 * c.rate >= 1000
      {
        CeilDivIsLeastCover(1000 - level, c.rate, secs * 1000);
      }
    }
  }

  /** `n` is `level` in whole tokens, rounded toward zero. */
  predicate IsWhole(n: int, level: int) {
    if level >= 0 then n * 1000 <= level < (n + 1) * 1000 else (n - 1) * 1000 < level <= n * 1000
  }

  /**
   What a client is told, after any history of calls by all clients: its request is forwarded exactly if every
   window that it closes stays within the allowance; else `Retry-After` is the least number of whole seconds
   after which the client, if it keeps quiet, is admitted. The headers carry the rate, the whole tokens left to
   the client's bucket, and the time of the call.
   */
  lemma ClientIsToldExactly(c: Limits, before: seq<Hit>, hit: Hit)
    requires Ordered(before + [hit])
    ensures var r, times := ResponseTo(c, Answered(c, before, hit), hit.now), TimesOf(before + [hit], hit.key);
      && !r.InternalError? && r.limit == c.rate && r.reset == hit.now && times != []
      && (r.Forwarded? <==> FitsEverywhere(c, times, |times| - 1))
      && IsWhole(r.remaining, After(c, times).value.level)
      && (r.TooManyRequests? ==>
            && r.retryAfter >= 1
            && forall secs: nat :: secs >= r.retryAfter <==>
                 Answered(c, before + [hit], Hit(hit.key, hit.now + secs * 1000)).allowed)
  {
    hide FitsEverywhere;
    var times := TimesOf(before + [hit], hit.key);
    ServerIsIdealPerKey(c, before, hit);
    AdmittedExactlyWhenEveryWindowAllows(c, times, |times| - 1);
    RemainingIsWholeTokens(c, After(c, times[..|times| - 1]), hit.now);
    hide AnswerAt;
    if !Answered(c, before, hit).allowed {
      RetryAfterAdmits(c, before, hit);
    }
  }

  lemma RetryAfterAdmits(c: Limits, before: seq<Hit>, hit: Hit)
    requires Ordered(before + [hit]) && !Answered(c, before, hit).allowed
    ensures var wait := RetryAfterSecs(Answered(c, before, hit).waitMs);
      && wait >= 1
      && forall secs: nat :: secs >= wait <==>
           Answered(c, before + [hit], Hit(hit.key, hit.now + secs * 1000)).allowed
  {
    var waitMs := Answered(c, before, hit).waitMs;
    assert waitMs >= 1 by {
      ResponseInFull(c, Live(Served(c, before), hit.key, hit.now), hit.now);
    }
    RetryAfterIsLeastCover(waitMs);
    hide Answered, RetryAfterSecs;
    forall secs: nat
      ensures secs >= RetryAfterSecs(waitMs) <==>
        Answered(c, before + [hit], Hit(hit.key, hit.now + secs * 1000)).allowed
    {
      var again := Hit(hit.key, hit.now + secs * 1000);
      assert before + [hit] + [] == before + [hit];
      OrderedOneMore(before + [hit], again);
      WaitIsHonest(c, before, hit, [], again);
    }
  }

  lemma OrderedOneMore(hits: seq<Hit>, again: Hit)
    requires Ordered(hits) && hits != [] && hits[|hits| - 1].now <= again.now
    ensures Ordered(hits + [again])
  {
  }

  class Middleware {
    const limits: Limits
    const redis: Redis

    constructor (limits: Limits, redis: Redis)
      ensures this.limits == limits && this.redis == redis
    {
      this.limits, this.redis := limits, redis;
    }

    /** A reply lost after the script ran is an error to the caller, and has spent what it spent. */
    method SetLimit(key: string, now: int, o: Outcome) returns (r: Result<Limited, LimitError>)
      modifies redis
      ensures redis.store == if o.Lost? then old(redis.store) else Scripted(limits, old(redis.store), Hit(key, now))
      ensures !o.Done? ==> r == Err(ScriptFailed)
      ensures o.Done? ==>
        var a := Reply(limits, Live(old(redis.store), key, now), now);
        r == Ok(Limited(a.allowed, a.waitMs, a.token, now))
    {
      if o.Lost? {
        return Err(ScriptFailed);
      }
      var reply := redis.RunScript(key, limits, now);
      if o.Unsure? {
        return Err(ScriptFailed);
      }
      r := Decoded(reply, now);
    }

    /** What the middleware owes to the key's bucket. */
    lemma ToldExactly(key: string, now: int)
      ensures var b := Live(redis.store, key, now);
        var r, level := ResponseTo(limits, Reply(limits, b, now), now), Refilled(limits, b, now);
        && !r.InternalError? && r.limit == limits.rate && r.reset == now
        && (r.Forwarded? <==> level >= 1000)
        && IsWhole(r.remaining, if r.Forwarded? then level - 1000 else level)
        && (r.TooManyRequests? ==>
              && r.retryAfter >= 1
              && forall secs :: secs >= r.retryAfter <==> level + secs * 1000 * limits.rate >= 1000)
        && forall before :: Ordered(before + [Hit(key, now)]) && redis.store == Served(limits, before) ==>
             var times := TimesOf(before + [Hit(key, now)], key);
             r.Forwarded? <==> FitsEverywhere(limits, times, |times| - 1)
    {
      ResponseInFull(limits, Live(redis.store, key, now), now);
      hide ResponseTo;
      forall before | Ordered(before + [Hit(key, now)]) && redis.store == Served(limits, before)
        ensures var times := TimesOf(before + [Hit(key, now)], key);
          ResponseTo(limits, Reply(limits, Live(redis.store, key, now), now), now).Forwarded? <==>
            FitsEverywhere(limits, times, |times| - 1)
      {
        ClientIsToldExactly(limits, before, Hit(key, now));
      }
    }

    /** `ip` is the host part of the remote address, if it has one. */
    method Limit(ip: Option<string>, now: int, o: Outcome) returns (r: Response)
      modifies redis
      ensures r.InternalError? <==> ip.None? || !o.Done?
      ensures ip.None? || o.Lost? ==> redis.store == old(redis.store)
      ensures ip.Some? && !o.Lost? ==>
        var hit := Hit("rate_limit:ip:" + ip.value, now);
        && redis.store == Scripted(limits, old(redis.store), hit)
        && (o.Done? ==> r == ResponseTo(limits, Reply(limits, Live(old(redis.store), hit.key, now), now), now))
      ensures ip.Some? && o.Done? ==>
        var level := Refilled(limits, Live(old(redis.store), "rate_limit:ip:" + ip.value, now), now);
        && r.limit == limits.rate && r.reset == now
        && (r.Forwarded? <==> level >= 1000)
        && IsWhole(r.remaining, if r.Forwarded? then level - 1000 else level)
        && (r.TooManyRequests? ==>
              && r.retryAfter >= 1
              && forall secs :: secs >= r.retryAfter <==> level + secs * 1000 * limits.rate >= 1000)
      ensures ip.Some? && o.Done? ==> forall before ::
        var hit := Hit("rate_limit:ip:" + ip.value, now);
        Ordered(before + [hit]) && old(redis.store) == Served(limits, before) ==>
        var times := TimesOf(before + [hit], hit.key);
        r.Forwarded? <==> FitsEverywhere(limits, times, |times| - 1)
    {
      if ip.Some? && o.Done? {
        ToldExactly("rate_limit:ip:" + ip.value, now);
      }
      hide ResponseTo, Served;
      if ip.None? {
        return InternalError;
      }
      var key := "rate_limit:ip:" + ip.value;
      var res := SetLimit(key, now, o);
      if res.Err? {
        return InternalError;
      }
      if !res.value.allowed {
        var retryAfterSecs := TruncDiv(res.value.waitMs + 999, 1000);
        if retryAfterSecs < 1 {
          retryAfterSecs := 1;
        }
        return TooManyRequests(limits.rate, res.value.token, res.value.lastRefill, retryAfterSecs);
      }
      r := Forwarded(limits.rate, res.value.token, res.value.lastRefill);
    }
  }
}
