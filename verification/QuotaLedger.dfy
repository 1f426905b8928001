/**
 What the quota rows are worth: the recorded usage never passes its limits, every gif ever created is
 accounted for, and a refusal by `Convert` is permanent.
 */
module QuotaLedger {
  import opened Prelude
  import opened Conversion
  import opened DeletedAccounts

  // ---------- limits ----------

  ghost predicate WithinLimits(s: State) {
    forall u :: u in s.quotas ==>
      var q := s.quotas[u];
      0 <= q.usedBytes <= q.totalBytes && 0 <= q.gifCount <= q.gifLimit
  }

  function QuotasAfter(s: State, c: Call, o: Outcome): map<string, Quota> {
    if c.IncrementUsage? && !o.Lost? && c.user in s.quotas && HasRoom(s.quotas[c.user], 0, 1)
    then s.quotas[c.user := Incremented(s.quotas[c.user], 0, 1)]
    else s.quotas
  }

  lemma PerformQuotas(s: State, c: Call, o: Outcome)
    ensures Perform(s, c, o).quotas == QuotasAfter(s, c, o)
  {
    if !c.IncrementUsage? {
      if c.InsertGif? {
      } else {
        PerformFrame(s, c, o);
      }
    }
  }

  lemma QuotaFrame(s: State, e: Event)
    ensures Step(s, e).quotas ==
      if e.DeleteUser? then s.quotas - {e.user}
      else if e.AddUser? && e.user !in s.quotas && e.user !in s.gone
      then s.quotas[e.user := Quota(0, 1073741824, 0, 100)]
      else QuotasAfter(s, CallOf(s, e), OutcomeOf(s, e))
  {
    PerformQuotas(s, CallOf(s, e), OutcomeOf(s, e));
  }

  predicate GrewInto(q: Quota, q': Quota) {
    && q.gifCount <= q'.gifCount && q.gifLimit == q'.gifLimit
    && q.usedBytes == q'.usedBytes && q.totalBytes == q'.totalBytes
  }

  /**
   Recorded usage never passes its limits, and until the account is deleted recorded counts never fall and limits
   never change.
   */
  lemma {:induction false} UsageStaysWithinLimits(s: State, es: seq<Event>)
    requires WithinLimits(s)
    ensures WithinLimits(Run(s, es))
    ensures forall u :: u in s.quotas && u !in Run(s, es).gone ==>
      u in Run(s, es).quotas && GrewInto(s.quotas[u], Run(s, es).quotas[u])
    decreases |es|
  {
    hide Step, OutcomeOf, CallOf;
    if es != [] {
      QuotaFrame(s, es[0]);
      StepFrame(s, es[0]);
      GoneStaysGone(Step(s, es[0]), es[1..]);
      UsageStaysWithinLimits(Step(s, es[0]), es[1..]);
    }
  }

  /**
   Once `Convert` refuses a user whose quota it could read, it refuses that user in every later state, as long as
   the account is there.
   */
  lemma RefusalIsPermanent(s: State, es: seq<Event>, u: string, job: string)
    requires WithinLimits(s) && u !in Run(s, es).gone
    requires u in s.quotas && 0 < s.quotas[u].gifCount && s.quotas[u].gifLimit <= s.quotas[u].gifCount
    ensures var s' := Run(s, es);
      && u in s'.quotas && 0 < s'.quotas[u].gifCount && s'.quotas[u].gifLimit <= s'.quotas[u].gifCount
      && Step(s', StartConvert(u, job, true)) == s'
  {
    UsageStaysWithinLimits(s, es);
  }

  // ---------- conservation ----------

  ghost function Owned(gifs: map<string, string>, u: string): set<string> {
    set k | k in gifs && gifs[k] == u
  }

  /** Runs of `u` whose gif is created and not yet put to the quota. */
  ghost function Uncounting(runs: map<nat, ProcessRun>, u: string): set<nat> {
    set p | p in runs && runs[p].pc.CountGif? && runs[p].user == u
  }

  lemma OwnedAfterInsertion(gifs: map<string, string>, key: string, user: string, u: string)
    requires key !in gifs
    ensures |Owned(gifs[key := user], u)| == |Owned(gifs, u)| + (if user == u then 1 else 0)
  {
    assert Owned(gifs[key := user], u) == Owned(gifs, u) + (if user == u then {key} else {});
  }

  lemma OwnedAfterDeletion(gifs: map<string, string>, key: string, u: string)
    requires key in gifs
    ensures |Owned(gifs, u)| == |Owned(gifs - {key}, u)| + (if gifs[key] == u then 1 else 0)
  {
    assert Owned(gifs, u) == Owned(gifs - {key}, u) + (if gifs[key] == u then {key} else {});
  }

  predicate IsUncounting(r: ProcessRun, u: string) {
    r.pc.CountGif? && r.user == u
  }

  lemma UncountingWithout(runs: map<nat, ProcessRun>, p: nat, u: string)
    requires p in runs
    ensures |Uncounting(runs, u)| == |Uncounting(runs - {p}, u)| + (if IsUncounting(runs[p], u) then 1 else 0)
  {
    assert Uncounting(runs, u) == Uncounting(runs - {p}, u) + (if IsUncounting(runs[p], u) then {p} else {});
  }

  lemma UncountingAfter(runs: map<nat, ProcessRun>, p: nat, r: ProcessRun, u: string)
    ensures |Uncounting(runs[p := r], u)| ==
      |Uncounting(runs, u)| + (if IsUncounting(r, u) then 1 else 0)
        - (if p in runs && IsUncounting(runs[p], u) then 1 else 0)
  {
    UncountingWithout(runs[p := r], p, u);
    assert runs[p := r] - {p} == runs - {p};
    if p in runs {
      UncountingWithout(runs, p, u);
    } else {
      assert runs - {p} == runs;
    }
  }

  ghost function Live(s: State, u: string): nat {
    |Owned(s.gifs, u)|
  }

  ghost function InFlight(s: State, u: string): nat {
    |Uncounting(s.runs, u)|
  }

  ghost predicate Balanced(s: State, u: string) {
    && (u !in s.gone ==> s.facts[Created(u)] == Live(s, u) + s.facts[Deleted(u)])
    && s.facts[Created(u)] ==
         s.facts[Counted(u)] + s.facts[Refused(u)] + s.facts[Uncounted(u)] + s.facts[Abandoned(u)] + InFlight(s, u)
    && (u !in s.gone ==> s.facts[Counted(u)] == if u in s.quotas then s.quotas[u].gifCount else 0)
  }

  lemma InFlightAfter(s: State, e: Event, u: string)
    ensures InFlight(Step(s, e), u) == InFlight(s, u)
      + (if e.StepProcess? && e.p in s.runs && IsUncounting(Advanced(s.runs[e.p], OutcomeOf(s, e), e.newKey), u)
         then 1 else 0)
      - (if e.StepProcess? && e.p in s.runs && IsUncounting(s.runs[e.p], u) then 1 else 0)
  {
    StepFrame(s, e);
    if e.StepProcess? && e.p in s.runs {
      UncountingAfter(s.runs, e.p, Advanced(s.runs[e.p], OutcomeOf(s, e), e.newKey), u);
    } else if e.Deliver? && e.p !in s.runs && e.job in s.converts {
      UncountingAfter(s.runs, e.p, ProcessRun(e.job, s.converts[e.job].user, MarkStatus, None), u);
    }
  }

  lemma InsertionFacts(s: State, c: Call, o: Outcome)
    requires c.InsertGif?
    ensures var s' := Perform(s, c, o);
      && s'.gifs == (if o.Lost? then s.gifs else s.gifs[c.key := c.user])
      && s'.facts == s.facts + (match o
           case Lost => multiset{}
           case Done => multiset{Created(c.user)}
           case Unsure => multiset{Created(c.user), Abandoned(c.user)})
  {
  }

  lemma InsertionFrame(s: State, c: Call, o: Outcome, u: string)
    requires c.InsertGif?
    ensures var s' := Perform(s, c, o);
      && s'.gifs == (if o.Lost? then s.gifs else s.gifs[c.key := c.user])
      && s'.facts[Created(u)] == s.facts[Created(u)] + (if !o.Lost? && c.user == u then 1 else 0)
      && s'.facts[Abandoned(u)] == s.facts[Abandoned(u)] + (if o.Unsure? && c.user == u then 1 else 0)
      && s'.facts[Deleted(u)] == s.facts[Deleted(u)] && s'.facts[Counted(u)] == s.facts[Counted(u)]
      && s'.facts[Refused(u)] == s.facts[Refused(u)] && s'.facts[Uncounted(u)] == s.facts[Uncounted(u)]
  {
    hide Perform;
    InsertionFacts(s, c, o);
  }

  lemma IncrementFrame(s: State, c: Call, o: Outcome)
    requires c.IncrementUsage?
    ensures var s' := Perform(s, c, o);
      s'.gifs == s.gifs && s'.facts == s.facts + multiset{
        if o.Lost? then Uncounted(c.user)
        else if c.user in s.quotas && HasRoom(s.quotas[c.user], 0, 1) then Counted(c.user)
        else Refused(c.user)}
  {
  }

  lemma StepGifsAndFacts(s: State, e: Event)
    requires !e.DeleteGif? && !e.DeleteUser?
    ensures var s', mid := Step(s, e), Perform(s, CallOf(s, e), OutcomeOf(s, e));
      s'.gifs == mid.gifs && s'.facts == mid.facts
  {
    hide Perform, Settled;
    PerformFrame(s, CallOf(s, e), OutcomeOf(s, e));
    CallWrites(s, CallOf(s, e), OutcomeOf(s, e));
  }

  lemma InsertionKeepsBalance(s: State, e: Event, u: string)
    requires Balanced(s, u) && CallOf(s, e).InsertGif?
    ensures Balanced(Step(s, e), u)
  {
    var c, o := CallOf(s, e), OutcomeOf(s, e);
    InFlightAfter(s, e, u);
    QuotaFrame(s, e);
    StepGifsAndFacts(s, e);
    InsertionFrame(s, c, o, u);
    if !o.Lost? {
      OwnedAfterInsertion(s.gifs, c.key, c.user, u);
    }
  }

  lemma IncrementKeepsBalance(s: State, e: Event, u: string)
    requires Balanced(s, u) && CallOf(s, e).IncrementUsage?
    ensures Balanced(Step(s, e), u)
  {
    InFlightAfter(s, e, u);
    QuotaFrame(s, e);
    StepGifsAndFacts(s, e);
    IncrementFrame(s, CallOf(s, e), OutcomeOf(s, e));
  }

  lemma DeletionKeepsBalance(s: State, e: Event, u: string)
    requires Balanced(s, u) && e.DeleteGif?
    ensures Balanced(Step(s, e), u)
  {
    if e.key in s.gifs {
      OwnedAfterDeletion(s.gifs, e.key, u);
    }
  }

  lemma AccountDeletionKeepsBalance(s: State, e: Event, u: string)
    requires Balanced(s, u) && e.DeleteUser?
    ensures Balanced(Step(s, e), u)
  {
    InFlightAfter(s, e, u);
    if e.user != u {
      assert Owned(GifsWithout(s.gifs, e.user), u) == Owned(s.gifs, u);
    }
  }

  lemma OtherEventsKeepBalance(s: State, e: Event, u: string)
    requires Balanced(s, u)
    requires !CallOf(s, e).InsertGif? && !CallOf(s, e).IncrementUsage? && !e.DeleteGif? && !e.DeleteUser?
    ensures Balanced(Step(s, e), u)
  {
    InFlightAfter(s, e, u);
    QuotaFrame(s, e);
    StepGifsAndFacts(s, e);
    PerformFrame(s, CallOf(s, e), OutcomeOf(s, e));
  }

  lemma {:induction false} BalancedFrom(s: State, es: seq<Event>, u: string)
    requires Balanced(s, u)
    ensures Balanced(Run(s, es), u)
    decreases |es|
  {
    if es != [] {
      var e := es[0];
      if CallOf(s, e).InsertGif? {
        InsertionKeepsBalance(s, e, u);
      } else if CallOf(s, e).IncrementUsage? {
        IncrementKeepsBalance(s, e, u);
      } else if e.DeleteGif? {
        DeletionKeepsBalance(s, e, u);
      } else if e.DeleteUser? {
        AccountDeletionKeepsBalance(s, e, u);
      } else {
        OtherEventsKeepBalance(s, e, u);
      }
      BalancedFrom(Step(s, es[0]), es[1..], u);
    }
  }

  /**
   Conservation, in every reachable state and for every user: each gif ever created was recorded in the quota,
   refused by it, lost with a failed increment, abandoned, or is in a run that has yet to count it. While the
   account is there, the gifs ever created are the live and the deleted ones and the quota row holds what was
   recorded, so deleting gives nothing back; with the account both are gone.
   */
  lemma EveryGifIsAccountedFor(now: int, es: seq<Event>, u: string)
    ensures var s := Run(Initial(now), es);
      && s.facts[Created(u)] ==
           s.facts[Counted(u)] + s.facts[Refused(u)] + s.facts[Uncounted(u)] + s.facts[Abandoned(u)] + InFlight(s, u)
      && (u !in s.gone ==>
            && s.facts[Created(u)] == Live(s, u) + s.facts[Deleted(u)]
            && s.facts[Counted(u)] == if u in s.quotas then s.quotas[u].gifCount else 0)
      && (u in s.gone ==> Live(s, u) == 0 && u !in s.quotas)
      && WithinLimits(s)
  {
    hide Run, WithinLimits, LeavesNothing;
    var s0, s := Initial(now), Run(Initial(now), es);
    assert Owned(s0.gifs, u) == {} && Uncounting(s0.runs, u) == {};
    BalancedFrom(s0, es, u);
    NothingIsWithinLimits(now);
    UsageStaysWithinLimits(s0, es);
    if u in s.gone {
      DeletedAccountOwnsNothing(now, es, u);
      assert Owned(s.gifs, u) == {};
    }
  }

  lemma NothingIsWithinLimits(now: int)
    ensures WithinLimits(Initial(now))
  {
  }
}
