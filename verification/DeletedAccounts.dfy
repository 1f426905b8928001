/**
 Deleting an account while its conversions are under way: the deletion cascades to the job, gif and quota rows,
 and the foreign keys keep late writes out.
 */
module DeletedAccounts {
  import opened Prelude
  import opened Conversion

  ghost predicate LeavesNothing(s: State, u: string) {
    u in s.gone ==>
      && u !in s.quotas
      && (forall j :: j in s.rows ==> s.rows[j].user != u)
      && (forall k :: k in s.gifs ==> s.gifs[k] != u)
  }

  lemma GifCallLeavesNothing(s: State, c: Call, o: Outcome, u: string)
    requires LeavesNothing(s, u) && (c.InsertGif? || c.IncrementUsage?)
    ensures LeavesNothing(Perform(s, c, Settled(s, c, o)), u)
  {
    hide HasRoom, Incremented;
    GifCallFrame(s, c, Settled(s, c, o));
  }

  lemma StoreCallLeavesNothing(s: State, c: Call, o: Outcome, u: string)
    requires LeavesNothing(s, u) && !c.InsertGif? && !c.IncrementUsage?
    ensures LeavesNothing(Perform(s, c, Settled(s, c, o)), u)
  {
    hide HasRoom, Incremented, Note;
    StoreCallFrame(s, c, Settled(s, c, o));
  }

  /** A call leaves a deleted account without rows, once the foreign keys have had their say. */
  lemma CallLeavesNothing(s: State, c: Call, o: Outcome, u: string)
    requires LeavesNothing(s, u)
    ensures LeavesNothing(Perform(s, c, Settled(s, c, o)), u)
  {
    hide LeavesNothing, Perform, Settled;
    if c.InsertGif? || c.IncrementUsage? {
      GifCallLeavesNothing(s, c, o, u);
    } else {
      StoreCallLeavesNothing(s, c, o, u);
    }
  }

  lemma StepLeavesNothing(s: State, e: Event, u: string)
    requires LeavesNothing(s, u)
    ensures LeavesNothing(Step(s, e), u)
  {
    if e.StepConvert? && e.job in s.converts {
      CallLeavesNothing(s, ConvertCall(e.job, s.converts[e.job]), e.o, u);
    } else if e.StepProcess? && e.p in s.runs {
      CallLeavesNothing(s, ProcessCall(s.runs[e.p]), e.o, u);
    }
    hide Perform, Settled;
  }

  lemma {:induction false} RunLeavesNothing(s: State, es: seq<Event>, u: string)
    requires LeavesNothing(s, u)
    ensures LeavesNothing(Run(s, es), u)
    decreases |es|
  {
    hide LeavesNothing, Step;
    if es != [] {
      StepLeavesNothing(s, es[0], u);
      RunLeavesNothing(Step(s, es[0]), es[1..], u);
    }
  }

  /**
   In every reachable state a deleted account has no quota, no gif and no job row, although its calls and its
   runs go on and try to write them.
   */
  lemma DeletedAccountOwnsNothing(now: int, es: seq<Event>, u: string)
    requires u in Run(Initial(now), es).gone
    ensures var s := Run(Initial(now), es);
      && u !in s.quotas
      && (forall j :: j in s.rows ==> s.rows[j].user != u)
      && (forall k :: k in s.gifs ==> s.gifs[k] != u)
  {
    RunLeavesNothing(Initial(now), es, u);
  }

  lemma {:induction false} GoneStaysGone(s: State, es: seq<Event>)
    ensures s.gone <= Run(s, es).gone
    decreases |es|
  {
    hide Step;
    if es != [] {
      StepFrame(s, es[0]);
      GoneStaysGone(Step(s, es[0]), es[1..]);
    }
  }
}
