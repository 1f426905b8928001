/**
 Logging out: a signed token stays valid until it expires, so logging out leaves a blocklist entry that
 has to live for the rest of the token's life, and every request checks the token and then the entry.

 The clock counts nanoseconds, as `time.Time` does; Redis counts whole milliseconds, and gets times to live
 rounded down to them.
 */
module Blocklist {
  import opened Prelude
  import opened Cache

  const NANOS_PER_MILLI := 1_000_000
  const NANOS_PER_SECOND := 1_000_000_000

  function Millis(nanos: int): int {
    nanos / NANOS_PER_MILLI
  }

  /** The time to live Redis is given for a positive duration: never less than one millisecond. */
  function TtlMillis(nanos: int): int {
    Max(1, Millis(nanos))
  }

  lemma MillisAreWhole(nanos: int)
    ensures Millis(nanos) == nanos / 1_000_000
    ensures nanos > 0 ==> TtlMillis(nanos) == if nanos < 1_000_000 then 1 else nanos / 1_000_000
  {
  }

  /** When the time to live of an entry was computed, and when the entry was written. */
  datatype Written = Written(computed: int, at: int)

  /** The last millisecond at which the entry is served. */
  function EntryEnd(exp: int, w: Written): int {
    Millis(w.at) + TtlMillis(exp * NANOS_PER_SECOND - w.computed)
  }

  /** A started `Logout` has computed its time to live; an ended one reports whether it succeeded. */
  datatype Logout = Computed(token: string, since: int, ttl: int) | Ended(token: string, ok: bool)

  /** The token was turned down, or the blocklist was read: with or without success, and the entry it met. */
  datatype Ground = BadToken | Looked(fault: bool, entry: Option<Written>)

  /** A request whose token verified, and one whose fate was decided at `at`. */
  datatype Check = Passed(token: string) | Decided(token: string, accepted: bool, at: int, ground: Ground)

  /** `exps` are the tokens ever signed with the second they expire; `written` the last entry of each token. */
  datatype State = State(
    exps: map<string, int>, cache: Entries, clock: int,
    logouts: map<nat, Logout>, checks: map<nat, Check>, written: map<string, Written>)

  datatype Event =
    | Tick(nanos: nat)
    | Write(k: CacheKey, value: string, expireAt: int, w: Outcome)
    | BeginLogout(l: nat, token: string)
    | EndLogout(l: nat, o: Outcome)
    | BeginCheck(c: nat, token: string)
    | EndCheck(c: nat, fault: bool)

  /** The check of the signature and of `exp`. */
  predicate IsValid(s: State, token: string) {
    token in s.exps && s.clock < s.exps[token] * NANOS_PER_SECOND
  }

  /** A request passes unless the entry is there, or cannot be read; an empty entry would not stop it. */
  predicate LetsPass(got: Got) {
    got.Miss? || got == Hit("")
  }

  function Step(s: State, e: Event): State {
    match e
    case Tick(nanos) => s.(clock := s.clock + nanos)
    case Write(k, value, expireAt, o) =>
      if k.Blocklisted? then s else s.(cache := Put(s.cache, k, value, expireAt, o))
    case BeginLogout(l, token) =>
      if l in s.logouts || token !in s.exps then s
      else
        var left := s.exps[token] * NANOS_PER_SECOND - s.clock;
        var logout := if left <= 0 then Ended(token, true) else Computed(token, s.clock, TtlMillis(left));
        s.(logouts := s.logouts[l := logout])
    case EndLogout(l, o) =>
      if l !in s.logouts || !s.logouts[l].Computed? then s
      else
        var token, since, ttl := s.logouts[l].token, s.logouts[l].since, s.logouts[l].ttl;
        s.(logouts := s.logouts[l := Ended(token, o.Done?)],
           cache := Put(s.cache, Blocklisted(token), "1", Millis(s.clock) + ttl, o),
           written := if o.Lost? then s.written else s.written[token := Written(since, s.clock)])
    case BeginCheck(c, token) =>
      if c in s.checks then s
      else
        var check := if IsValid(s, token) then Passed(token) else Decided(token, false, s.clock, BadToken);
        s.(checks := s.checks[c := check])
    case EndCheck(c, fault) =>
      if c !in s.checks || !s.checks[c].Passed? then s
      else
        var token := s.checks[c].token;
        var got := Read(s.cache, Blocklisted(token), Millis(s.clock), fault);
        var entry := if token in s.written then Some(s.written[token]) else None;
        s.(checks := s.checks[c := Decided(token, LetsPass(got), s.clock, Looked(fault, entry))])
  }

  function Run(s: State, es: seq<Event>): State
    decreases |es|
  {
    if es == [] then s else Run(Step(s, es[0]), es[1..])
  }

  function Initial(exps: map<string, int>, clock: int): State {
    State(exps, map[], clock, map[], map[], map[])
  }

  // ---------- the entry outlives the token ----------

  /**
   Rounding down opens no gap: an entry written at or after the moment its time to live was computed is
   live at every instant before the token expires.
   */
  lemma RoundingLeavesNoGap(exp: int, w: Written, now: int)
    requires IsTimely(exp, w) && now < exp * NANOS_PER_SECOND
    ensures Millis(now) <= EntryEnd(exp, w)
  {
    MillisOfDifference(exp, w.computed);
    assert exp * NANOS_PER_SECOND == exp * 1000 * NANOS_PER_MILLI;
    assert Millis(now) < exp * 1000;
    assert Millis(w.computed) <= Millis(w.at);
  }

  lemma MillisOfDifference(exp: int, t: int)
    ensures Millis(exp * NANOS_PER_SECOND - t) >= exp * 1000 - Millis(t) - 1
  {
    var m, r := t / NANOS_PER_MILLI, t % NANOS_PER_MILLI;
    assert t == m * NANOS_PER_MILLI + r;
    assert exp * NANOS_PER_SECOND - t == (exp * 1000 - m - 1) * NANOS_PER_MILLI + (NANOS_PER_MILLI - r);
  }

  /** The time to live was computed while the token was valid, and before the entry was written. */
  predicate IsTimely(exp: int, w: Written) {
    w.computed < exp * NANOS_PER_SECOND && w.computed <= w.at
  }

  /** A request gets through the blocklist exactly if it reads the store and the entry it meets, if any, is over. */
  predicate IsExact(exps: map<string, int>, check: Check) {
    check.Decided? ==>
      match check.ground
      case BadToken => !check.accepted
      case Looked(fault, entry) =>
        && check.token in exps
        && (entry.Some? ==> IsTimely(exps[check.token], entry.value))
        && (check.accepted <==>
              !fault && (entry.Some? ==> Millis(check.at) > EntryEnd(exps[check.token], entry.value)))
  }

  ghost predicate LogoutsInv(s: State) {
    forall l :: l in s.logouts ==>
      var g := s.logouts[l];
      && g.token in s.exps
      && (g.Computed? ==>
            && IsTimely(s.exps[g.token], Written(g.since, s.clock))
            && g.ttl == TtlMillis(s.exps[g.token] * NANOS_PER_SECOND - g.since))
      && (g.Ended? && g.ok ==> g.token in s.written || !IsValid(s, g.token))
  }

  ghost predicate EntriesInv(s: State) {
    && (forall token :: token in s.written <==> Blocklisted(token) in s.cache)
    && (forall token :: token in s.written ==>
          && token in s.exps && IsTimely(s.exps[token], s.written[token])
          && s.cache[Blocklisted(token)] == Entry("1", EntryEnd(s.exps[token], s.written[token])))
  }

  ghost predicate ChecksInv(s: State) {
    forall c :: c in s.checks ==> IsExact(s.exps, s.checks[c]) && (s.checks[c].Passed? ==> s.checks[c].token in s.exps)
  }

  ghost predicate Inv(s: State) {
    LogoutsInv(s) && EntriesInv(s) && ChecksInv(s)
  }

  lemma TickKeepsInv(s: State, nanos: nat)
    requires Inv(s)
    ensures Inv(Step(s, Tick(nanos)))
  {
    hide Millis, TtlMillis, IsExact, EntryEnd;
  }

  lemma BeginLogoutKeepsInv(s: State, l: nat, token: string)
    requires Inv(s)
    ensures Inv(Step(s, BeginLogout(l, token)))
  {
    hide Millis, TtlMillis, IsExact, EntryEnd;
  }

  lemma EndLogoutKeepsInv(s: State, l: nat, o: Outcome)
    requires Inv(s)
    ensures Inv(Step(s, EndLogout(l, o)))
  {
    hide Millis, TtlMillis, IsExact;
  }

  lemma WriteKeepsInv(s: State, k: CacheKey, value: string, expireAt: int, o: Outcome)
    requires Inv(s)
    ensures Inv(Step(s, Write(k, value, expireAt, o)))
  {
    hide Millis, TtlMillis, IsExact, IsTimely, EntryEnd;
  }

  lemma CheckStepKeepsInv(s: State, e: Event)
    requires Inv(s) && (e.BeginCheck? || e.EndCheck?)
    ensures Inv(Step(s, e))
  {
    hide Millis, TtlMillis, IsTimely, EntryEnd;
  }

  lemma StepKeepsInv(s: State, e: Event)
    requires Inv(s)
    ensures Inv(Step(s, e))
  {
    hide Inv, Step;
    match e
    case Write(k, value, expireAt, o) => WriteKeepsInv(s, k, value, expireAt, o);
    case BeginCheck(_, _) => CheckStepKeepsInv(s, e);
    case EndCheck(_, _) => CheckStepKeepsInv(s, e);
    case Tick(nanos) => TickKeepsInv(s, nanos);
    case BeginLogout(l, token) => BeginLogoutKeepsInv(s, l, token);
    case EndLogout(l, o) => EndLogoutKeepsInv(s, l, o);
  }

  lemma StepMovesOn(s: State, e: Event)
    ensures var s' := Step(s, e);
      s'.clock >= s.clock && s'.exps == s.exps && s.written.Keys <= s'.written.Keys
  {
    hide Millis, TtlMillis;
  }

  lemma {:induction false} RunKeepsInv(s: State, es: seq<Event>)
    requires Inv(s)
    ensures Inv(Run(s, es)) && Run(s, es).clock >= s.clock && Run(s, es).exps == s.exps
    ensures s.written.Keys <= Run(s, es).written.Keys
    decreases |es|
  {
    hide Inv, Step;
    if es != [] {
      StepKeepsInv(s, es[0]);
      StepMovesOn(s, es[0]);
      RunKeepsInv(Step(s, es[0]), es[1..]);
    }
  }

  /** While the token is valid, its entry is served. */
  lemma BlockedIsLive(s: State, token: string)
    requires Inv(s) && token in s.written && IsValid(s, token)
    ensures Read(s.cache, Blocklisted(token), Millis(s.clock), false) == Hit("1")
  {
    RoundingLeavesNoGap(s.exps[token], s.written[token], s.clock);
  }

  /** How a request with this token that is checked right now ends. */
  function CheckedNow(s: State, token: string, c: nat, fault: bool): bool
    requires c !in s.checks
  {
    var s' := Run(s, [BeginCheck(c, token), EndCheck(c, fault)]);
    c in s'.checks && s'.checks[c].Decided? && s'.checks[c].accepted
  }

  /**
   In every reachable state a request is let through exactly when the token is signed and not expired, no
   logout wrote its entry, and the store answers.
   */
  lemma AcceptedExactlyUntilLogout(
    exps: map<string, int>, clock: int, es: seq<Event>, token: string, c: nat, fault: bool)
    requires c !in Run(Initial(exps, clock), es).checks
    ensures var s := Run(Initial(exps, clock), es);
      CheckedNow(s, token, c, fault) <==>
        token in exps && s.clock < exps[token] * 1_000_000_000 && token !in s.written && !fault
  {
    hide Run, Inv;
    var s := Run(Initial(exps, clock), es);
    InitialInv(exps, clock);
    RunKeepsInv(Initial(exps, clock), es);
    CheckDecides(s, token, c, fault);
  }

  lemma InitialInv(exps: map<string, int>, clock: int)
    ensures Inv(Initial(exps, clock))
  {
  }

  lemma CheckDecides(s: State, token: string, c: nat, fault: bool)
    requires Inv(s) && c !in s.checks
    ensures CheckedNow(s, token, c, fault) <==> IsValid(s, token) && token !in s.written && !fault
  {
    var s1 := Step(s, BeginCheck(c, token));
    var s2 := Step(s1, EndCheck(c, fault));
    assert Run(s, [BeginCheck(c, token), EndCheck(c, fault)]) == Run(s1, [EndCheck(c, fault)]) == Run(s2, []);
    if token in s.written && IsValid(s, token) {
      BlockedIsLive(s, token);
    }
  }

  /** In every reachable state every decision taken so far was exact. */
  lemma DecisionsAreExact(exps: map<string, int>, clock: int, es: seq<Event>, c: nat)
    requires c in Run(Initial(exps, clock), es).checks
    ensures IsExact(exps, Run(Initial(exps, clock), es).checks[c])
  {
    hide Run;
    InitialInv(exps, clock);
    RunKeepsInv(Initial(exps, clock), es);
  }

  // ---------- logging out is final ----------

  /** The token has an entry or has expired, and every later request with it that read the blocklist met an entry. */
  ghost predicate MeetsEntries(s: State, token: string, before: map<nat, Check>) {
    && (token in s.written || !IsValid(s, token))
    && forall c :: c in s.checks && c !in before && s.checks[c].token == token ==>
         && (s.checks[c].Passed? ==> token in s.written)
         && (s.checks[c].Decided? && s.checks[c].ground.Looked? ==> s.checks[c].ground.entry.Some?)
  }

  lemma StepKeepsMeeting(s: State, e: Event, token: string, before: map<nat, Check>)
    requires MeetsEntries(s, token, before)
    ensures MeetsEntries(Step(s, e), token, before)
  {
    hide LetsPass, Millis, TtlMillis;
  }

  lemma {:induction false} MeetingFrom(s: State, es: seq<Event>, token: string, before: map<nat, Check>)
    requires MeetsEntries(s, token, before)
    ensures MeetsEntries(Run(s, es), token, before)
    decreases |es|
  {
    hide MeetsEntries, Step;
    if es != [] {
      StepKeepsMeeting(s, es[0], token, before);
      MeetingFrom(Step(s, es[0]), es[1..], token, before);
    }
  }

  /**
   Once a logout of a token has succeeded, a request that starts later is let through, in any run, exactly if
   its token was still valid at its first check and its read of the blocklist succeeds after the last
   millisecond of the entry it meets; that is never before the token has expired.
   */
  lemma LogoutIsFinal(
    exps: map<string, int>, clock: int, es: seq<Event>, later: seq<Event>, l: nat, token: string, c: nat)
    requires var s := Run(Initial(exps, clock), es);
      && l in s.logouts && s.logouts[l] == Ended(token, true) && c !in s.checks
      && var s' := Run(s, later); c in s'.checks && s'.checks[c].token == token && s'.checks[c].Decided?
    ensures var check := Run(Run(Initial(exps, clock), es), later).checks[c];
      match check.ground
      case BadToken => !check.accepted
      case Looked(fault, entry) =>
        && token in exps && entry.Some? && IsTimely(exps[token], entry.value)
        && (check.accepted <==> !fault && Millis(check.at) > EntryEnd(exps[token], entry.value))
        && (check.accepted ==> check.at >= exps[token] * NANOS_PER_SECOND)
  {
    hide Run, Inv, EntryEnd, IsTimely, Millis;
    var s := Run(Initial(exps, clock), es);
    InitialInv(exps, clock);
    RunKeepsInv(Initial(exps, clock), es);
    EndedIsBlocked(s, l);
    MeetingFrom(s, later, token, s.checks);
    RunKeepsInv(s, later);
    var s' := Run(s, later);
    ExactInInv(s', c);
    var check := s'.checks[c];
    if check.accepted && check.at < exps[token] * NANOS_PER_SECOND {
      RoundingLeavesNoGap(exps[token], check.ground.entry.value, check.at);
    }
  }

  lemma ExactInInv(s: State, c: nat)
    requires Inv(s) && c in s.checks
    ensures IsExact(s.exps, s.checks[c])
  {
  }

  lemma EndedIsBlocked(s: State, l: nat)
    requires Inv(s) && l in s.logouts && s.logouts[l] == Ended(s.logouts[l].token, true)
    ensures s.logouts[l].token in s.written || !IsValid(s, s.logouts[l].token)
  {
  }

  function HeldUp(token: string, w1: nat, w2: nat, wait: nat, fault: bool): seq<Event> {
    [BeginLogout(0, token), Tick(w1), EndLogout(0, Done), Tick(w2),
     BeginCheck(0, token), Tick(wait), EndCheck(0, fault)]
  }

  /**
   A logout whose entry is written `w1` after its time to live was computed, and `w2` later a request that is
   held up for `wait` between its two checks: it gets through exactly if the read comes after the entry.
   */
  lemma {:induction false} HeldUpCheckExactly(
    exps: map<string, int>, clock: int, token: string, w1: nat, w2: nat, wait: nat, fault: bool)
    requires token in exps && clock + w1 + w2 < exps[token] * NANOS_PER_SECOND
    ensures var s := Run(Initial(exps, clock), HeldUp(token, w1, w2, wait, fault));
      && s.logouts == map[0 := Ended(token, true)]
      && 0 in s.checks && s.checks[0].Decided? && s.checks[0].at == clock + w1 + w2 + wait
      && (s.checks[0].accepted <==>
            !fault && Millis(clock + w1 + w2 + wait) > EntryEnd(exps[token], Written(clock, clock + w1)))
  {
    hide Millis, TtlMillis, Run, Step, LetsPass, HeldUp, Read;
    var s := Initial(exps, clock);
    HeldUpRuns(s, token, w1, w2, wait, fault);
    LogoutInFull(s, 0, token, w1, Done);
    LogoutNotes(s, token, w1);
    var out := Step(Step(Step(s, BeginLogout(0, token)), Tick(w1)), EndLogout(0, Done));
    var later := Step(out, Tick(w2));
    TickOnly(out, w2);
    CheckInFull(later, 0, token, wait, fault);
    CheckKeepsLogouts(later, token, wait, fault);
    LetsPassExactly(later.cache, Blocklisted(token), Millis(later.clock + wait), fault);
  }

  lemma HeldUpRuns(s: State, token: string, w1: nat, w2: nat, wait: nat, fault: bool)
    ensures var out := Step(Step(Step(s, BeginLogout(0, token)), Tick(w1)), EndLogout(0, Done));
      Run(s, HeldUp(token, w1, w2, wait, fault)) ==
        Step(Step(Step(Step(out, Tick(w2)), BeginCheck(0, token)), Tick(wait)), EndCheck(0, fault))
  {
    hide Step, Run;
    RunSeven(s, HeldUp(token, w1, w2, wait, fault));
  }

  lemma TickOnly(s: State, nanos: nat)
    ensures Step(s, Tick(nanos)) == s.(clock := s.clock + nanos)
  {
  }

  lemma LogoutNotes(s: State, token: string, w: nat)
    requires s.logouts == map[] && s.checks == map[] && IsValid(s, token)
    ensures var s' := Step(Step(Step(s, BeginLogout(0, token)), Tick(w)), EndLogout(0, Done));
      s'.logouts == map[0 := Ended(token, true)] && s'.checks == map[]
  {
    hide Millis, TtlMillis;
  }

  lemma CheckKeepsLogouts(s: State, token: string, wait: nat, fault: bool)
    ensures Step(Step(Step(s, BeginCheck(0, token)), Tick(wait)), EndCheck(0, fault)).logouts == s.logouts
  {
    hide Millis, LetsPass;
  }

  /** An entry that says something stops every request that reads it in time. */
  lemma LetsPassExactly(cache: Entries, k: CacheKey, now: int, fault: bool)
    requires k in cache && cache[k].value != ""
    ensures LetsPass(Read(cache, k, now, fault)) <==> !fault && now > cache[k].expireAt
  {
  }

  lemma RunNext(s: State, es: seq<Event>, i: nat)
    requires i < |es|
    ensures Run(s, es[i..]) == Run(Step(s, es[i]), es[i + 1..])
  {
    hide Step;
    assert es[i..][0] == es[i] && es[i..][1..] == es[i + 1..];
  }

  lemma RunNothing(s: State, es: seq<Event>)
    requires es == []
    ensures Run(s, es) == s
  {
  }

  lemma RunSeven(s: State, es: seq<Event>)
    requires |es| == 7
    ensures Run(s, es) == Step(Step(Step(Step(Step(Step(Step(s, es[0]), es[1]), es[2]), es[3]), es[4]), es[5]), es[6])
  {
    RunNothing(Step(Step(Step(Step(Step(Step(Step(s, es[0]), es[1]), es[2]), es[3]), es[4]), es[5]), es[6]), es[7..]);
    hide Step, Run;
    assert es[0..] == es;
    var s1 := Step(s, es[0]);
    var s2 := Step(s1, es[1]);
    var s3 := Step(s2, es[2]);
    var s4 := Step(s3, es[3]);
    var s5 := Step(s4, es[4]);
    RunNext(s, es, 0);
    RunNext(s1, es, 1);
    RunNext(s2, es, 2);
    RunNext(s3, es, 3);
    RunNext(s4, es, 4);
    RunNext(s5, es, 5);
    RunNext(Step(s5, es[5]), es, 6);
  }

  /** So a request can get through after a logout, if it is held up until the entry is over. */
  lemma HeldUpCheckPasses(exps: map<string, int>, clock: int, token: string)
    requires token in exps && clock < exps[token] * NANOS_PER_SECOND
    ensures var wait := exps[token] * NANOS_PER_SECOND - clock + 2 * NANOS_PER_MILLI;
      var s := Run(Initial(exps, clock), HeldUp(token, 0, 0, wait, false));
      s.logouts == map[0 := Ended(token, true)] && 0 in s.checks && s.checks[0].Decided? && s.checks[0].accepted
  {
    hide Run;
    var wait := exps[token] * NANOS_PER_SECOND - clock + 2 * NANOS_PER_MILLI;
    HeldUpCheckExactly(exps, clock, token, 0, 0, wait, false);
    EntryEnds(exps[token], clock);
  }

  lemma EntryEnds(exp: int, t: int)
    requires t < exp * NANOS_PER_SECOND
    ensures EntryEnd(exp, Written(t, t)) < Millis(exp * NANOS_PER_SECOND + 2 * NANOS_PER_MILLI)
  {
    assert exp * NANOS_PER_SECOND + 2 * NANOS_PER_MILLI == (exp * 1000 + 2) * NANOS_PER_MILLI;
    var m, r := t / NANOS_PER_MILLI, t % NANOS_PER_MILLI;
    assert t == m * NANOS_PER_MILLI + r;
    assert exp * NANOS_PER_SECOND - t == (exp * 1000 - m) * NANOS_PER_MILLI - r;
    assert m < exp * 1000;
  }

  // ---------- the service and the middleware ----------

  datatype Verdict = HeaderMissing | TokenInvalid | TokenExpired | OnBlocklist | StatusUnknown | Accepted(token: string)

  const BEARER := "Bearer "

  class Tokens {
    const cache: RedisCache
    var exps: map<string, int>
    var clock: int
    ghost var state: State

    ghost predicate Valid()
      reads this, cache
    {
      cache.Valid() && state.exps == exps && state.cache == cache.entries && state.clock == clock
    }

    constructor (exps: map<string, int>, clock: int)
      ensures Valid() && fresh(cache) && state == Initial(exps, clock)
    {
      cache := new RedisCache();
      this.exps, this.clock, state := exps, clock, Initial(exps, clock);
    }

    method Wait(nanos: nat)
      requires Valid()
      modifies this
      ensures Valid() && state == Step(old(state), Tick(nanos)) && exps == old(exps)
    {
      clock := clock + nanos;
      state := Step(state, Tick(nanos));
    }

    /** `call` names the call; `wait` passes before the entry is written, which ends as `o`. */
    method Logout(token: string, call: nat, wait: nat, o: Outcome) returns (ok: bool)
      requires Valid() && token in exps && call !in state.logouts
      modifies this, cache
      ensures Valid() && exps == old(exps)
      ensures state ==
        if old(IsValid(state, token))
        then Step(Step(Step(old(state), BeginLogout(call, token)), Tick(wait)), EndLogout(call, o))
        else Step(old(state), BeginLogout(call, token))
      ensures ok <==> call in state.logouts && state.logouts[call] == Ended(token, true)
      ensures var left := exps[token] * 1_000_000_000 - old(clock);
        && (ok <==> left <= 0 || o.Done?)
        && cache.entries ==
             if left <= 0 || o.Lost? then old(cache.entries)
             else old(cache.entries)[Blocklisted(token) :=
               Entry("1", (old(clock) + wait) / 1_000_000 + if left < 1_000_000 then 1 else left / 1_000_000)]
    {
      hide Step, Millis, TtlMillis;
      LogoutInFull(state, call, token, wait, o);
      MillisAreWhole(clock + wait);
      MillisAreWhole(exps[token] * NANOS_PER_SECOND - clock);
      var left := exps[token] * NANOS_PER_SECOND - clock;
      state := Step(state, BeginLogout(call, token));
      if left <= 0 {
        return true;
      }
      Wait(wait);
      ok := cache.Set(Blocklisted(token), "1", TtlMillis(left), Millis(clock), o);
      state := Step(state, EndLogout(call, o));
    }

    method VerifyToken(token: string) returns (v: Verdict)
      requires Valid()
      ensures v == Accepted(token) <==> IsValid(state, token)
      ensures v == Accepted(token) || v == TokenExpired || v == TokenInvalid
      ensures v == TokenInvalid <==> token !in exps
      ensures v == TokenExpired <==> token in exps && exps[token] * 1_000_000_000 <= clock
    {
      v := if token !in exps then TokenInvalid
           else if clock >= exps[token] * NANOS_PER_SECOND then TokenExpired
           else Accepted(token);
    }

    /** The middleware: the header, the token, and then the blocklist, failing closed. */
    method Auth(header: string, call: nat, wait: nat, fault: bool) returns (v: Verdict)
      requires Valid() && call !in state.checks
      modifies this
      ensures Valid() && exps == old(exps)
      ensures v == HeaderMissing <==> !(BEARER <= header)
      ensures v == HeaderMissing ==> state == old(state)
      ensures BEARER <= header ==>
        var token := header[|BEARER|..];
        && state == (if old(IsValid(state, token))
                     then Step(Step(Step(old(state), BeginCheck(call, token)), Tick(wait)), EndCheck(call, fault))
                     else Step(old(state), BeginCheck(call, token)))
        && call in state.checks
        && state.checks[call].Decided? && state.checks[call].token == token
        && state.checks[call].at == clock && (state.checks[call].accepted <==> v == Accepted(token))
        && (v.Accepted? ==> v.token == token)
      ensures v == HeaderMissing <==> !("Bearer " <= header)
      ensures "Bearer " <= header ==>
        var token, k := header[7..], Blocklisted(header[7..]);
        var valid := token in exps && old(clock) < exps[token] * 1_000_000_000;
        var blocked :=
          && k in cache.entries && (old(clock) + wait) / 1_000_000 <= cache.entries[k].expireAt
          && cache.entries[k].value != "";
        && (v == TokenInvalid <==> token !in exps)
        && (v == TokenExpired <==> token in exps && !valid)
        && (v == StatusUnknown <==> valid && fault)
        && (v == OnBlocklist <==> valid && !fault && blocked)
        && (v == Accepted(token) <==> valid && !fault && !blocked)
    {
      hide Step, IsExact, Millis;
      if header == "" || !(BEARER <= header) {
        return HeaderMissing;
      }
      var token := header[|BEARER|..];
      CheckInFull(state, call, token, wait, fault);
      MillisAreWhole(clock + wait);
      v := VerifyToken(token);
      state := Step(state, BeginCheck(call, token));
      if !v.Accepted? {
        return;
      }
      Wait(wait);
      var got := cache.Get(Blocklisted(token), Millis(clock), fault);
      if got.Hit? && got.value != "" {
        v := OnBlocklist;
      } else if got.Fault? {
        v := StatusUnknown;
      }
      state := Step(state, EndCheck(call, fault));
    }
  }

  /** What a check does to the state, step by step. */
  lemma CheckInFull(s: State, c: nat, token: string, wait: nat, fault: bool)
    requires c !in s.checks
    ensures var begun := Step(s, BeginCheck(c, token));
      var waited := Step(begun, Tick(wait));
      var ended := Step(waited, EndCheck(c, fault));
      && begun.exps == s.exps && begun.cache == s.cache && begun.clock == s.clock
      && c in begun.checks
      && (!IsValid(s, token) ==> begun.checks[c] == Decided(token, false, s.clock, BadToken))
      && waited.exps == s.exps && waited.cache == s.cache && waited.clock == s.clock + wait
      && ended.exps == s.exps && ended.cache == s.cache && ended.clock == s.clock + wait
      && c in ended.checks
      && (IsValid(s, token) ==>
            && ended.checks[c].Decided? && ended.checks[c].token == token && ended.checks[c].at == s.clock + wait
            && ended.checks[c].accepted == LetsPass(Read(s.cache, Blocklisted(token), Millis(s.clock + wait), fault)))
  {
    hide Millis;
  }

  /** What a logout does to the state, step by step. */
  lemma LogoutInFull(s: State, l: nat, token: string, wait: nat, o: Outcome)
    requires l !in s.logouts && token in s.exps
    ensures var left := s.exps[token] * NANOS_PER_SECOND - s.clock;
      var begun := Step(s, BeginLogout(l, token));
      var waited := Step(begun, Tick(wait));
      var ended := Step(waited, EndLogout(l, o));
      && begun.exps == s.exps && begun.cache == s.cache && begun.clock == s.clock && l in begun.logouts
      && (left <= 0 ==> begun.logouts[l] == Ended(token, true))
      && waited.exps == s.exps && waited.cache == s.cache && waited.clock == s.clock + wait
      && (left > 0 ==>
            && ended.exps == s.exps && ended.clock == s.clock + wait
            && ended.cache == Put(s.cache, Blocklisted(token), "1", Millis(s.clock + wait) + TtlMillis(left), o)
            && l in ended.logouts && ended.logouts[l] == Ended(token, o.Done?))
  {
    hide Millis, TtlMillis;
  }
}
