/**
 The job table as a state machine: when every message is delivered once and a publish error means
 "not queued", rows only move forward and a finished row is final; a redelivery breaks exactly that.
 */
module JobRows {
  import opened Prelude
  import opened Cache
  import opened Conversion
  import opened DeletedAccounts
  import opened JobStatus

  /** Every row ever seen has one of four shapes, whichever best-effort updates were dropped. */
  lemma RowsHaveFourShapes(now: int, es: seq<Event>, j: string)
    requires j in Run(Initial(now), es).rows
    ensures var s := Run(Initial(now), es); var r := s.rows[j];
      || r == JobRow(r.user, QUEUED, 0, "")
      || r == JobRow(r.user, PROCESSING, 20, "")
      || (r == JobRow(r.user, DONE, 100, r.resultKey) && Produced(s, j, r.resultKey))
      || r == JobRow(r.user, FAILED, 0, "")
  {
    ReachableInv(now, es);
    assert RowOf(Run(Initial(now), es), j);
  }

  function Rank(r: JobRow): nat {
    if r.status == QUEUED then 0 else if r.status == PROCESSING then 1 else 2
  }

  /** No second delivery of a message, and no publish that fails after queueing. */
  ghost predicate Orderly(s: State, e: Event) {
    && (e.Deliver? ==> forall p :: p in s.runs ==> s.runs[p].job != e.job)
    && (e.StepConvert? && e.job in s.converts && s.converts[e.job].pc.Publish? ==> !e.o.Unsure?)
  }

  ghost predicate OrderlyRun(s: State, es: seq<Event>)
    decreases |es|
  {
    es == [] || (Orderly(s, es[0]) && OrderlyRun(Step(s, es[0]), es[1..]))
  }

  /** Job `j` has at most one run, and a run only after its `Convert` returned. */
  ghost predicate OneRun(s: State, j: string) {
    && (forall p, q :: p in s.runs && q in s.runs && s.runs[p].job == j && s.runs[q].job == j ==> p == q)
    && (forall p :: p in s.runs && s.runs[p].job == j ==> j in s.sent)
    && (j in s.sent ==> j in s.converts && s.converts[j].pc.Returned?)
  }

  /** How far the row of job `j` may be, given its `Convert` and its run. */
  ghost predicate RowInStep(s: State, j: string) {
    j in s.rows ==>
      && j in s.converts && !SetsEntries(s.converts[j].pc)
      && (IsPublishing(s.converts[j].pc) || (j in s.sent && !HasRun(s, j)) ==> s.rows[j].status == QUEUED)
      && (forall p :: p in s.runs && s.runs[p].job == j && IsEarly(s.runs[p].pc) ==> s.rows[j].status == QUEUED)
      && (forall p :: p in s.runs && s.runs[p].job == j && IsWorking(s.runs[p].pc) ==> Rank(s.rows[j]) <= 1)
  }

  ghost predicate InStep(s: State, j: string) {
    OneRun(s, j) && RowInStep(s, j)
  }

  ghost predicate HasRun(s: State, j: string) {
    exists p :: p in s.runs && s.runs[p].job == j
  }

  predicate SetsEntries(pc: ConvertPc) {
    pc.SetOwner? || pc.SetStatus? || pc.SetGif? || pc.CreateRow?
  }

  predicate IsPublishing(pc: ConvertPc) {
    pc.Publish? || pc.UndoStatus? || pc.UndoGif? || pc.UndoRow?
  }

  predicate IsEarly(pc: ProcessPc) {
    pc.MarkStatus? || pc.MarkRow?
  }

  predicate IsWorking(pc: ProcessPc) {
    pc.Transcode? || pc.FailRow? || pc.StoreGif? || pc.Complete? || pc.CompleteRow?
  }

  lemma StepKeepsOneRun(s: State, e: Event, j: string)
    requires OneRun(s, j) && Orderly(s, e)
    ensures OneRun(Step(s, e), j)
  {
    hide Step, Perform, RowsWithout;
    StepFrame(s, e);
  }

  /** The event is no call or delivery of job `j`. */
  predicate IsForeign(s: State, e: Event, j: string) {
    && !(e.StepConvert? && e.job == j) && !(e.Deliver? && e.job == j)
    && !(e.StepProcess? && e.p in s.runs && s.runs[e.p].job == j)
  }

  lemma OthersLeaveRow(s: State, e: Event, j: string)
    requires IsForeign(s, e, j)
    ensures var s' := Step(s, e);
      && (j in s'.rows ==> j in s.rows && s'.rows[j] == s.rows[j])
      && (j in s.converts ==> j in s'.converts && s'.converts[j] == s.converts[j])
  {
    var c, o := CallOf(s, e), OutcomeOf(s, e);
    assert !WritesRow(c, o, j);
    hide Step, Perform, CallOf, OutcomeOf, Advanced, ConvertNext;
    StepFrame(s, e);
    UnwrittenRow(s, c, o, j);
  }

  lemma OthersLeaveRuns(s: State, e: Event, j: string)
    requires IsForeign(s, e, j)
    ensures var s' := Step(s, e);
      && (j in s'.sent ==> j in s.sent)
      && forall p ::
        && (p in s.runs && s.runs[p].job == j ==> p in s'.runs && s'.runs[p] == s.runs[p])
        && (p in s'.runs && s'.runs[p].job == j ==> p in s.runs && s'.runs[p] == s.runs[p])
  {
    hide Step, Perform, RowsWithout;
    StepFrame(s, e);
  }

  /** Events of other jobs leave everything about `j` alone, except that its row may go with its user. */
  lemma OthersKeepRowInStep(s: State, e: Event, j: string)
    requires RowInStep(s, j) && IsForeign(s, e, j)
    ensures RowInStep(Step(s, e), j)
  {
    hide Step, IsForeign;
    OthersLeaveRow(s, e, j);
    OthersLeaveRuns(s, e, j);
  }

  lemma ConvertKeepsRowInStep(s: State, e: Event, j: string)
    requires InStep(s, j) && Orderly(s, e)
    requires e.StepConvert? && e.job == j && j in s.converts
    ensures RowInStep(Step(s, e), j)
  {
    StepFrame(s, e);
    var c, o := CallOf(s, e), OutcomeOf(s, e);
    if WritesRow(c, o, j) {
      WrittenRowIs(s, c, o, j);
    } else {
      UnwrittenRow(s, c, o, j);
    }
    assert Step(s, e).runs == s.runs;
    assert HasRun(Step(s, e), j) == HasRun(s, j);
  }

  lemma DeliveryKeepsRowInStep(s: State, e: Event, j: string)
    requires InStep(s, j) && Orderly(s, e)
    requires e.Deliver? && e.job == j
    ensures RowInStep(Step(s, e), j)
  {
    StepFrame(s, e);
    UnwrittenRow(s, CallOf(s, e), OutcomeOf(s, e), j);
  }

  lemma ProcessKeepsRowInStep(s: State, e: Event, j: string)
    requires InStep(s, j)
    requires e.StepProcess? && e.p in s.runs && s.runs[e.p].job == j
    ensures RowInStep(Step(s, e), j)
  {
    hide Step, Perform;
    StepFrame(s, e);
    var c, o := CallOf(s, e), OutcomeOf(s, e);
    if WritesRow(c, o, j) {
      WrittenRowIs(s, c, o, j);
    } else {
      UnwrittenRow(s, c, o, j);
    }
    assert Step(s, e).runs[e.p].job == j;
  }

  lemma StepKeepsInStep(s: State, e: Event, j: string)
    requires InStep(s, j) && Orderly(s, e)
    ensures InStep(Step(s, e), j)
  {
    StepKeepsOneRun(s, e, j);
    if e.StepConvert? && e.job == j && j in s.converts {
      ConvertKeepsRowInStep(s, e, j);
    } else if e.Deliver? && e.job == j {
      DeliveryKeepsRowInStep(s, e, j);
    } else if e.StepProcess? && e.p in s.runs && s.runs[e.p].job == j {
      ProcessKeepsRowInStep(s, e, j);
    } else if e.StepConvert? && e.job == j {
      assert Step(s, e) == s;
    } else {
      OthersKeepRowInStep(s, e, j);
    }
  }

  /** The row `r` is still there, no less advanced, and the same if it was finished. */
  predicate Advances(r: JobRow, rows: map<string, JobRow>, j: string) {
    && j in rows && rows[j].user == r.user && Rank(r) <= Rank(rows[j])
    && (Rank(r) == 2 ==> rows[j] == r)
  }

  lemma StepAdvancesRow(s: State, e: Event, j: string)
    requires InStep(s, j) && Orderly(s, e) && j in s.rows && s.rows[j].user !in Step(s, e).gone
    ensures Advances(s.rows[j], Step(s, e).rows, j)
  {
    StepFrame(s, e);
    var c, o := CallOf(s, e), OutcomeOf(s, e);
    if WritesRow(c, o, j) {
      WrittenRowIs(s, c, o, j);
    } else {
      UnwrittenRow(s, c, o, j);
    }
  }

  lemma {:induction false} AdvancesFrom(s: State, es: seq<Event>, j: string)
    requires InStep(s, j) && OrderlyRun(s, es) && j in s.rows && s.rows[j].user !in Run(s, es).gone
    ensures Advances(s.rows[j], Run(s, es).rows, j)
    decreases |es|
  {
    hide Step, InStep, Orderly;
    if es != [] {
      StepKeepsInStep(s, es[0], j);
      GoneStaysGone(Step(s, es[0]), es[1..]);
      StepAdvancesRow(s, es[0], j);
      AdvancesFrom(Step(s, es[0]), es[1..], j);
    }
  }

  lemma {:induction false} RunKeepsInStep(s: State, es: seq<Event>, j: string)
    requires InStep(s, j) && OrderlyRun(s, es)
    ensures InStep(Run(s, es), j)
    decreases |es|
  {
    if es != [] {
      StepKeepsInStep(s, es[0], j);
      RunKeepsInStep(Step(s, es[0]), es[1..], j);
    }
  }

  lemma {:induction false} ConvertKeepsUser(s: State, es: seq<Event>, j: string)
    requires j in s.converts
    ensures j in Run(s, es).converts && Run(s, es).converts[j].user == s.converts[j].user
    decreases |es|
  {
    hide Step;
    if es != [] {
      StepFrame(s, es[0]);
      ConvertKeepsUser(Step(s, es[0]), es[1..], j);
    }
  }

  /** In any run, orderly or not: a row goes with its user's account and never comes back. */
  lemma RowGoesWithItsUser(now: int, es: seq<Event>, later: seq<Event>, j: string)
    requires j in Run(Initial(now), es).rows
    requires Run(Initial(now), es).rows[j].user in Run(Run(Initial(now), es), later).gone
    ensures j !in Run(Run(Initial(now), es), later).rows
  {
    hide Run, Inv;
    var s := Run(Initial(now), es);
    RunAppends(Initial(now), es, later);
    RowIsOfItsConvert(now, es, j);
    ConvertKeepsUser(s, later, j);
    DeletedAccountOwnsNothing(now, es + later, s.rows[j].user);
    if j in Run(s, later).rows {
      RowIsOfItsConvert(now, es + later, j);
    }
  }

  lemma RowIsOfItsConvert(now: int, es: seq<Event>, j: string)
    requires j in Run(Initial(now), es).rows
    ensures var s := Run(Initial(now), es); j in s.converts && s.rows[j].user == s.converts[j].user
  {
    ReachableInv(now, es);
    assert RowOf(Run(Initial(now), es), j);
  }

  /**
   In an orderly run a row is there exactly as long as its user's account is not deleted; meanwhile it never
   moves back, and once done or failed it never changes again.
   */
  lemma RowsOnlyAdvance(now: int, es: seq<Event>, later: seq<Event>, j: string)
    requires OrderlyRun(Initial(now), es) && OrderlyRun(Run(Initial(now), es), later)
    requires j in Run(Initial(now), es).rows
    ensures var s, s' := Run(Initial(now), es), Run(Run(Initial(now), es), later);
      && (j in s'.rows <==> s.rows[j].user !in s'.gone)
      && (j in s'.rows ==> Rank(s.rows[j]) <= Rank(s'.rows[j]))
      && (j in s'.rows && Rank(s.rows[j]) == 2 ==> s'.rows[j] == s.rows[j])
  {
    hide Run, InStep, OrderlyRun;
    var s := Run(Initial(now), es);
    if s.rows[j].user in Run(s, later).gone {
      RowGoesWithItsUser(now, es, later, j);
    } else {
      RunKeepsInStep(Initial(now), es, j);
      AdvancesFrom(s, later, j);
    }
  }

  /** A second delivery of a sent message takes any row, even a finished one, back to "processing". */
  lemma RedeliveryReopensRow(s: State, p: nat, j: string)
    requires j in s.sent && j in s.converts && j in s.rows && p !in s.runs
    ensures var es := [Deliver(p, j), StepProcess(p, Done, ""), StepProcess(p, Done, "")];
      j in Run(s, es).rows && Run(s, es).rows[j] == JobRow(s.rows[j].user, PROCESSING, 20, "")
  {
    var e1, e2 := Deliver(p, j), StepProcess(p, Done, "");
    var s1, s2 := Step(s, e1), Step(Step(s, e1), e2);
    assert s1.runs[p] == ProcessRun(j, s.converts[j].user, MarkStatus, None);
    assert s2.runs[p].pc == MarkRow;
    assert Run(s, [e1, e2, e2]) == Run(s1, [e2, e2]) == Run(s2, [e2]) == Run(Step(s2, e2), []);
  }

  /** An insertion that fails after the row was finished leaves the cache at "failed" and the row at "done". */
  lemma {:induction false} LateFailureLeavesDoneRow(s: State, p: nat)
    requires p in s.runs && s.runs[p].pc.CreateGif? && s.runs[p].job in s.rows
    requires s.rows[s.runs[p].job].status == DONE
    ensures var j, es := s.runs[p].job, [StepProcess(p, Lost, ""), StepProcess(p, Done, "")];
      && j in Run(s, es).rows && Run(s, es).rows[j] == s.rows[j]
      && Read(Run(s, es).cache, JobStatus(j), s.now, false) == Hit(FAILED)
  {
    var e1, e2 := StepProcess(p, Lost, ""), StepProcess(p, Done, "");
    assert Step(s, e1).runs[p].pc == FailStatus;
    assert Run(s, [e1, e2]) == Run(Step(s, e1), [e2]) == Run(Step(Step(s, e1), e2), []);
  }
}
