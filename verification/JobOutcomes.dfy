/**
 How a conversion ends in the cache and in the job table: when "completed" is final, when the two come to
 disagree, and which events take a row back.
 */
module JobOutcomes {
  import opened Prelude
  import opened Cache
  import opened Conversion
  import opened JobStatus
  import opened JobRows

  // ---------- when "completed" is final ----------

  /** The run has written "completed" and has not failed since. */
  predicate IsPast(pc: ProcessPc) {
    pc.CompleteRow? || pc.CreateGif? || pc.CountGif? || pc.Finished?
  }

  ghost predicate PastReports(s: State, j: string) {
    forall p :: p in s.runs && s.runs[p].job == j && IsPast(s.runs[p].pc) ==> ReportsCompleted(s, j)
  }

  lemma StepKeepsPastReports(s: State, e: Event, j: string)
    requires OneRun(s, j) && PastReports(s, j)
    ensures PastReports(Step(s, e), j)
  {
    hide Step, Perform;
    StepFrame(s, e);
  }

  lemma {:induction false} RunKeepsPastReports(s: State, es: seq<Event>, j: string)
    requires InStep(s, j) && PastReports(s, j) && OrderlyRun(s, es)
    ensures PastReports(Run(s, es), j)
    decreases |es|
  {
    hide InStep, PastReports, Step, Orderly;
    if es != [] {
      StepKeepsInStep(s, es[0], j);
      OneRunOf(s, j);
      StepKeepsPastReports(s, es[0], j);
      RunKeepsPastReports(Step(s, es[0]), es[1..], j);
    }
  }

  lemma OneRunOf(s: State, j: string)
    requires InStep(s, j)
    ensures OneRun(s, j)
  {
  }

  /** In an orderly run, a conversion that got past "completed" and has not failed is reported as completed. */
  lemma CompletedWhilePast(now: int, es: seq<Event>, p: nat)
    requires OrderlyRun(Initial(now), es)
    requires p in Run(Initial(now), es).runs && IsPast(Run(Initial(now), es).runs[p].pc)
    ensures ReportsCompleted(Run(Initial(now), es), Run(Initial(now), es).runs[p].job)
  {
    hide Run;
    var j := Run(Initial(now), es).runs[p].job;
    RunKeepsPastReports(Initial(now), es, j);
  }

  // ---------- how it ends ----------

  /** During `es` the insertion or the increment of run `p` fails. */
  ghost predicate Breaks(s: State, es: seq<Event>, p: nat)
    decreases |es|
  {
    es != [] && (BreaksNow(s, es[0], p) || Breaks(Step(s, es[0]), es[1..], p))
  }

  predicate BreaksNow(s: State, e: Event, p: nat) {
    && e.StepProcess? && e.p == p && p in s.runs
    && (s.runs[p].pc.CreateGif? || s.runs[p].pc.CountGif?) && !OutcomeOf(s, e).Done?
  }

  /** During `es` run `p` writes "failed", and the write reaches the cache. */
  ghost predicate Tells(s: State, es: seq<Event>, p: nat)
    decreases |es|
  {
    es != [] && (TellsNow(s, es[0], p) || Tells(Step(s, es[0]), es[1..], p))
  }

  predicate TellsNow(s: State, e: Event, p: nat) {
    e.StepProcess? && e.p == p && p in s.runs && s.runs[p].pc.FailStatus? && !e.o.Lost?
  }

  /** Run `p` of `j` got past "completed"; since then it failed or not, and said so or not. */
  ghost predicate CameThrough(s: State, p: nat, j: string, broke: bool, told: bool) {
    && OneRun(s, j) && p in s.runs && s.runs[p].job == j
    && (IsPast(s.runs[p].pc) || s.runs[p].pc.FailStatus? || s.runs[p].pc.Stopped?)
    && (broke <==> !IsPast(s.runs[p].pc))
    && (told ==> s.runs[p].pc.Stopped?)
    && JobStatus(j) in s.cache && s.cache[JobStatus(j)].value == (if told then FAILED else COMPLETED)
  }

  lemma OwnStepComesThrough(s: State, e: Event, p: nat, j: string, broke: bool, told: bool)
    requires CameThrough(s, p, j, broke, told) && e.StepProcess? && e.p == p
    ensures CameThrough(Step(s, e), p, j, broke || BreaksNow(s, e, p), told || TellsNow(s, e, p))
  {
    hide Step, Perform;
    StepFrame(s, e);
  }

  lemma OtherStepComesThrough(s: State, e: Event, p: nat, j: string, broke: bool, told: bool)
    requires CameThrough(s, p, j, broke, told) && Orderly(s, e) && !(e.StepProcess? && e.p == p)
    ensures CameThrough(Step(s, e), p, j, broke, told)
  {
    StepKeepsOneRun(s, e, j);
    hide Step, Perform, ConvertNext, ProcessNext;
    StepFrame(s, e);
  }

  lemma StepComesThrough(s: State, e: Event, p: nat, j: string, broke: bool, told: bool)
    requires CameThrough(s, p, j, broke, told) && Orderly(s, e)
    ensures CameThrough(Step(s, e), p, j, broke || BreaksNow(s, e, p), told || TellsNow(s, e, p))
  {
    hide CameThrough, Step, Orderly;
    if e.StepProcess? && e.p == p {
      OwnStepComesThrough(s, e, p, j, broke, told);
    } else {
      OtherStepComesThrough(s, e, p, j, broke, told);
    }
  }

  lemma {:induction false} RunComesThrough(s: State, es: seq<Event>, p: nat, j: string, broke: bool, told: bool)
    requires CameThrough(s, p, j, broke, told) && OrderlyRun(s, es)
    ensures CameThrough(Run(s, es), p, j, broke || Breaks(s, es, p), told || Tells(s, es, p))
    decreases |es|
  {
    hide CameThrough, Step, Orderly, BreaksNow, TellsNow;
    if es != [] {
      StepComesThrough(s, es[0], p, j, broke, told);
      RunComesThrough(Step(s, es[0]), es[1..], p, j, broke || BreaksNow(s, es[0], p), told || TellsNow(s, es[0], p));
    }
  }

  /**
   "Completed" is final exactly as long as the insertion and the increment succeed, or nobody is told: in any
   orderly run from a conversion past "completed", the entry ends at "failed" if and only if the run fails
   there and its "failed" write reaches the cache, and at "completed" otherwise. A row that is done by then
   stays done unless its user's account is deleted, so that is exactly when the cache and the job table part.
   */
  lemma CacheAndRowPartExactly(now: int, es: seq<Event>, later: seq<Event>, p: nat)
    requires OrderlyRun(Initial(now), es) && OrderlyRun(Run(Initial(now), es), later)
    requires p in Run(Initial(now), es).runs && IsPast(Run(Initial(now), es).runs[p].pc)
    ensures var s, s' := Run(Initial(now), es), Run(Run(Initial(now), es), later);
      var j := s.runs[p].job;
      && JobStatus(j) in s'.cache
      && s'.cache[JobStatus(j)].value == (if Tells(s, later, p) then FAILED else COMPLETED)
      && (Tells(s, later, p) ==> Breaks(s, later, p))
      && p in s'.runs && (Breaks(s, later, p) <==> s'.runs[p].pc.FailStatus? || s'.runs[p].pc.Stopped?)
      && (j in s.rows && s.rows[j].status == DONE && s.rows[j].user !in s'.gone ==>
            j in s'.rows && s'.rows[j] == s.rows[j])
  {
    hide Run, Breaks, Tells;
    var s := Run(Initial(now), es);
    var j := s.runs[p].job;
    CompletedWhilePast(now, es, p);
    RunKeepsInStep(Initial(now), es, j);
    RunComesThrough(s, later, p, j, false, false);
    if j in s.rows && s.rows[j].user !in Run(s, later).gone {
      AdvancesFrom(s, later, j);
    }
  }

  // ---------- which events take "completed" back ----------

  /** Only a run of a sent message writes "completed". */
  ghost predicate CompletedWasSent(s: State, j: string) {
    ReportsCompleted(s, j) ==> j in s.sent
  }

  lemma StepKeepsCompletedSent(s: State, e: Event, j: string)
    requires Messages(s) && CompletedWasSent(s, j)
    ensures CompletedWasSent(Step(s, e), j)
  {
    hide Step, Perform;
    StepFrame(s, e);
  }

  lemma {:induction false} RunKeepsCompletedSent(s: State, es: seq<Event>, j: string)
    requires Messages(s) && CompletedWasSent(s, j)
    ensures CompletedWasSent(Run(s, es), j) && Messages(Run(s, es))
    decreases |es|
  {
    hide Messages, CompletedWasSent, Step;
    if es != [] {
      StepKeepsMessages(s, es[0]);
      StepKeepsCompletedSent(s, es[0], j);
      RunKeepsCompletedSent(Step(s, es[0]), es[1..], j);
    }
  }

  /** The event writes the status entry of `j` for a run at `pc`, and the write reaches the cache. */
  predicate SetsStatusAt(s: State, e: Event, j: string, pc: ProcessPc) {
    e.StepProcess? && e.p in s.runs && s.runs[e.p].job == j && s.runs[e.p].pc == pc && !e.o.Lost?
  }

  predicate UndoesStatus(s: State, e: Event, j: string) {
    e.StepConvert? && e.job == j && j in s.converts && s.converts[j].pc.UndoStatus? && !e.o.Lost?
  }

  /**
   In every reachable state, orderly or not: an entry that says "completed" stops saying so exactly by the
   "processing" or "failed" write of some run of the job, or by the undo of its `Convert`.
   */
  lemma CompletedIsLostExactly(now: int, es: seq<Event>, e: Event, j: string)
    requires ReportsCompleted(Run(Initial(now), es), j)
    ensures var s := Run(Initial(now), es);
      !ReportsCompleted(Step(s, e), j) <==>
        SetsStatusAt(s, e, j, MarkStatus) || SetsStatusAt(s, e, j, FailStatus) || UndoesStatus(s, e, j)
  {
    hide Run;
    RunKeepsCompletedSent(Initial(now), es, j);
    CompletedIsLost(Run(Initial(now), es), e, j);
  }

  lemma CompletedIsLost(s: State, e: Event, j: string)
    requires Messages(s) && ReportsCompleted(s, j) && j in s.sent
    ensures !ReportsCompleted(Step(s, e), j) <==>
      SetsStatusAt(s, e, j, MarkStatus) || SetsStatusAt(s, e, j, FailStatus) || UndoesStatus(s, e, j)
  {
    hide Step, Perform, RowsWithout, Advanced, ConvertNext;
    StepFrame(s, e);
  }

  // ---------- which events take a row back ----------

  /** A row is there only once its `Convert` has inserted it. */
  ghost predicate IsFiled(s: State, j: string) {
    j in s.rows ==> j in s.converts && !SetsEntries(s.converts[j].pc)
  }

  lemma StepKeepsFiled(s: State, e: Event, j: string)
    requires IsFiled(s, j)
    ensures IsFiled(Step(s, e), j)
  {
    hide Step;
    StepFrame(s, e);
    var c, o := CallOf(s, e), OutcomeOf(s, e);
    if WritesRow(c, o, j) {
      WrittenRowIs(s, c, o, j);
    } else {
      UnwrittenRow(s, c, o, j);
    }
    hide Perform;
  }

  lemma {:induction false} RunKeepsFiled(s: State, es: seq<Event>, j: string)
    requires IsFiled(s, j)
    ensures IsFiled(Run(s, es), j)
    decreases |es|
  {
    hide IsFiled, Step;
    if es != [] {
      StepKeepsFiled(s, es[0], j);
      RunKeepsFiled(Step(s, es[0]), es[1..], j);
    }
  }

  /** The event is a row update by a run of `j` at `pc`, and it reaches the table. */
  predicate UpdatesAt(s: State, e: Event, j: string, pc: ProcessPc) {
    e.StepProcess? && e.p in s.runs && s.runs[e.p].job == j && s.runs[e.p].pc == pc && !e.o.Lost?
  }

  predicate IsDeletion(e: Event, user: string) {
    e.DeleteUser? && e.user == user
  }

  predicate Undoes(s: State, e: Event, j: string) {
    e.StepConvert? && e.job == j && j in s.converts && s.converts[j].pc.UndoRow? && !e.o.Lost?
  }

  /**
   In every reachable state, orderly or not: a row goes exactly with its user's account; it falls back only from
   done or failed, by the "processing" update of some run; and a done or failed row changes exactly by that, by a
   "failed" update of a done row, or by a "done" update that does not say what the row says already.
   */
  lemma RowFallsBackExactly(now: int, es: seq<Event>, e: Event, j: string)
    requires j in Run(Initial(now), es).rows
    ensures var s := Run(Initial(now), es); var s' := Step(s, e);
      && (j !in s'.rows <==> IsDeletion(e, s.rows[j].user))
      && (j in s'.rows ==>
            (Rank(s'.rows[j]) < Rank(s.rows[j]) <==> Rank(s.rows[j]) == 2 && UpdatesAt(s, e, j, MarkRow)))
      && (j in s'.rows && Rank(s.rows[j]) == 2 ==>
            (s'.rows[j] != s.rows[j] <==>
              || UpdatesAt(s, e, j, MarkRow)
              || (s.rows[j].status == DONE && (UpdatesAt(s, e, j, FailRow) || Undoes(s, e, j)))
              || (UpdatesAt(s, e, j, CompleteRow)
                  && !(s.rows[j].status == DONE && s.rows[j].resultKey == GifOf(s.runs[e.p])))))
  {
    hide Run;
    var s := Run(Initial(now), es);
    RunKeepsFiled(Initial(now), es, j);
    ReachableInv(now, es);
    RowAfter(s, e, j);
  }

  lemma RowAfter(s: State, e: Event, j: string)
    requires IsFiled(s, j) && RowOf(s, j) && j in s.rows
    ensures var s' := Step(s, e);
      && (j !in s'.rows <==> IsDeletion(e, s.rows[j].user))
      && (j in s'.rows ==>
            s'.rows[j] ==
            if UpdatesAt(s, e, j, MarkRow) then JobRow(s.rows[j].user, PROCESSING, 20, "")
            else if UpdatesAt(s, e, j, FailRow) || Undoes(s, e, j) then JobRow(s.rows[j].user, FAILED, 0, "")
            else if UpdatesAt(s, e, j, CompleteRow) then JobRow(s.rows[j].user, DONE, 100, GifOf(s.runs[e.p]))
            else s.rows[j])
  {
    hide Step, Perform;
    StepFrame(s, e);
    var c, o := CallOf(s, e), OutcomeOf(s, e);
    if WritesRow(c, o, j) {
      WrittenRowIs(s, c, o, j);
    } else {
      UnwrittenRow(s, c, o, j);
    }
  }

  // ---------- runs from the beginning ----------

  function Times(e: Event, n: nat): seq<Event> {
    if n == 0 then [] else [e] + Times(e, n - 1)
  }

  lemma RunTimes(s: State, e: Event, n: nat)
    requires n > 0
    ensures Run(s, Times(e, n)) == Run(Step(s, e), Times(e, n - 1))
  {
    assert Times(e, n)[1..] == Times(e, n - 1);
  }

  lemma {:induction false} OrderlyAppends(s: State, es: seq<Event>, more: seq<Event>)
    ensures OrderlyRun(s, es + more) <==> OrderlyRun(s, es) && OrderlyRun(Run(s, es), more)
    decreases |es|
  {
    hide Step, Orderly;
    if es == [] {
      assert es + more == more;
    } else {
      assert (es + more)[1..] == es[1..] + more;
      OrderlyAppends(Step(s, es[0]), es[1..], more);
    }
  }

  lemma {:induction false} TimesIsOrderly(s: State, e: Event, n: nat)
    requires e.StepProcess? || (e.StepConvert? && e.o.Done?)
    ensures OrderlyRun(s, Times(e, n))
    decreases n
  {
    hide Step;
    if n > 0 {
      assert Times(e, n)[1..] == Times(e, n - 1);
      TimesIsOrderly(Step(s, e), e, n - 1);
    }
  }

  /** A conversion that was accepted: its row is queued, and the rest of its `Convert` is at `pc`. */
  ghost predicate IsAccepted(s: State, user: string, job: string, pc: ConvertPc) {
    && job in s.converts && s.converts[job] == ConvertRun(user, pc)
    && job in s.rows && s.rows[job] == JobRow(user, QUEUED, 0, "")
    && s.runs == map[]
  }

  /** `Convert` up to its publish. */
  function ToPublish(user: string, job: string): seq<Event> {
    [StartConvert(user, job, false)] + Times(StepConvert(job, Done), 4)
  }

  /** One successful call of a `Convert` that has not published yet. */
  lemma ConvertMovesOn(s: State, user: string, job: string, pc: ConvertPc)
    requires job in s.converts && s.converts[job] == ConvertRun(user, pc) && SetsEntries(pc)
    requires job !in s.rows && s.runs == map[] && s.sent == {} && s.gone == {}
    ensures var s' := Step(s, StepConvert(job, Done));
      && job in s'.converts && s'.converts[job] == ConvertRun(user, ConvertNext(pc, Done))
      && s'.runs == map[] && s'.sent == {} && s'.gone == {}
      && if pc.CreateRow? then IsAccepted(s', user, job, Publish) else job !in s'.rows
  {
  }

  lemma AcceptsJob(now: int, user: string, job: string)
    ensures var s := Run(Initial(now), ToPublish(user, job));
      IsAccepted(s, user, job, Publish) && s.sent == {}
    ensures OrderlyRun(Initial(now), ToPublish(user, job))
  {
    hide Run;
    var start, e := StartConvert(user, job, false), StepConvert(job, Done);
    RunAppends(Initial(now), [start], Times(e, 4));
    RunFirst(Initial(now), start);
    var s1 := Step(Initial(now), start);
    RunTimes(s1, e, 4);
    assert s1.converts == map[job := ConvertRun(user, SetOwner)];
    hide Step, IsAccepted;
    ConvertMovesOn(s1, user, job, SetOwner);
    var s2 := Step(s1, e);
    RunTimes(s2, e, 3);
    ConvertMovesOn(s2, user, job, SetStatus);
    var s3 := Step(s2, e);
    RunTimes(s3, e, 2);
    ConvertMovesOn(s3, user, job, SetGif);
    var s4 := Step(s3, e);
    RunTimes(s4, e, 1);
    ConvertMovesOn(s4, user, job, CreateRow);
    RunNone(Step(s4, e));
    OrderlyAppends(Initial(now), [start], Times(e, 4));
    TimesIsOrderly(s1, e, 4);
    FirstIsOrderly(Initial(now), start);
  }

  lemma RunFirst(s: State, e: Event)
    ensures Run(s, [e]) == Step(s, e)
  {
    hide Step;
    assert Run(s, [e]) == Run(Step(s, e), []);
  }

  lemma RunNone(s: State)
    ensures Run(s, []) == s
  {
  }

  lemma FirstIsOrderly(s: State, e: Event)
    ensures OrderlyRun(s, [e]) <==> Orderly(s, e)
  {
    hide Step, Orderly;
    assert [e][1..] == [];
  }

  /** A run of `job` has converted its video, reported it, and is about to insert the GIF. */
  ghost predicate IsConverted(s: State, user: string, job: string, p: nat, key: string) {
    && p in s.runs && s.runs[p] == ProcessRun(job, user, CreateGif, Some(key + GIF_SUFFIX))
    && job in s.rows && s.rows[job] == JobRow(user, DONE, 100, key + GIF_SUFFIX)
    && JobStatus(job) in s.cache && s.cache[JobStatus(job)].value == COMPLETED
  }

  function ToInsertion(job: string, p: nat, key: string): seq<Event> {
    [Deliver(p, job)] + Times(StepProcess(p, Done, key), 6)
  }

  /** One successful call of a run that is still working. */
  lemma RunMovesOn(s: State, p: nat, key: string)
    requires p in s.runs && (IsEarly(s.runs[p].pc) || IsWorking(s.runs[p].pc)) && s.runs[p].job in s.rows
    ensures var s', r := Step(s, StepProcess(p, Done, key)), s.runs[p];
      && s'.runs == s.runs[p := Advanced(r, Done, key)] && s'.converts == s.converts && s'.sent == s.sent
      && r.job in s'.rows
      && s'.rows[r.job] ==
        (match r.pc
         case MarkRow => JobRow(s.rows[r.job].user, PROCESSING, 20, "")
         case FailRow => JobRow(s.rows[r.job].user, FAILED, 0, "")
         case CompleteRow => JobRow(s.rows[r.job].user, DONE, 100, GifOf(r))
         case _ => s.rows[r.job])
      && (r.pc.Complete? ==> ReportsCompleted(s', r.job))
      && (r.pc.CompleteRow? && ReportsCompleted(s, r.job) ==> ReportsCompleted(s', r.job))
  {
    var e := StepProcess(p, Done, key);
    var c, o := CallOf(s, e), OutcomeOf(s, e);
    hide Step, Perform;
    StepFrame(s, e);
    if WritesRow(c, o, s.runs[p].job) {
      WrittenRowIs(s, c, o, s.runs[p].job);
    } else {
      UnwrittenRow(s, c, o, s.runs[p].job);
    }
  }

  lemma Delivers(s: State, p: nat, job: string)
    requires p !in s.runs && job in s.sent && job in s.converts
    ensures Step(s, Deliver(p, job)) == s.(runs := s.runs[p := ProcessRun(job, s.converts[job].user, MarkStatus, None)])
  {
  }

  /** The run of `job` has got as far as `pc` without a failure. */
  ghost predicate GotTo(s: State, user: string, job: string, p: nat, key: string, pc: ProcessPc) {
    && s.runs == map[p := ProcessRun(job, user, pc, if BeforeTranscoding(pc) then None else Some(key + GIF_SUFFIX))]
    && job in s.rows
    && s.rows[job] ==
      (if IsEarly(pc) then JobRow(user, QUEUED, 0, "")
       else if pc.CreateGif? then JobRow(user, DONE, 100, key + GIF_SUFFIX)
       else JobRow(user, PROCESSING, 20, ""))
    && (pc.CompleteRow? || pc.CreateGif? ==> ReportsCompleted(s, job))
  }

  lemma GetsOn(s: State, user: string, job: string, p: nat, key: string, pc: ProcessPc)
    requires GotTo(s, user, job, p, key, pc) && (IsEarly(pc) || IsWorking(pc)) && !pc.FailRow?
    ensures var s' := Step(s, StepProcess(p, Done, key));
      GotTo(s', user, job, p, key, ProcessNext(pc, Done)) && s'.converts == s.converts && s'.sent == s.sent
  {
    hide Step;
    RunMovesOn(s, p, key);
  }

  lemma ConvertsVideo(s: State, user: string, job: string, pc: ConvertPc, p: nat, key: string)
    requires IsAccepted(s, user, job, pc) && job in s.sent
    ensures var s' := Run(s, ToInsertion(job, p, key));
      && IsConverted(s', user, job, p, key)
      && s'.converts == s.converts && s'.sent == s.sent && s'.runs.Keys == {p}
    ensures OrderlyRun(s, ToInsertion(job, p, key))
  {
    hide Run, Step;
    Delivers(s, p, job);
    var deliver, e := Deliver(p, job), StepProcess(p, Done, key);
    var s1 := Step(s, deliver);
    assert GotTo(s1, user, job, p, key, MarkStatus);
    hide GotTo;
    RunAppends(s, [deliver], Times(e, 6));
    RunFirst(s, deliver);
    OrderlyAppends(s, [deliver], Times(e, 6));
    TimesIsOrderly(s1, e, 6);
    FirstIsOrderly(s, deliver);
    WorksThrough(s1, user, job, p, key);
    IsAtInsertion(Run(s1, Times(e, 6)), user, job, p, key);
  }

  lemma WorksThrough(s1: State, user: string, job: string, p: nat, key: string)
    requires GotTo(s1, user, job, p, key, MarkStatus)
    ensures var s' := Run(s1, Times(StepProcess(p, Done, key), 6));
      GotTo(s', user, job, p, key, CreateGif) && s'.converts == s1.converts && s'.sent == s1.sent
  {
    hide Run, Step, GotTo;
    var e := StepProcess(p, Done, key);
    RunTimes(s1, e, 6);
    GetsOn(s1, user, job, p, key, MarkStatus);
    var s2 := Step(s1, e);
    RunTimes(s2, e, 5);
    GetsOn(s2, user, job, p, key, MarkRow);
    var s3 := Step(s2, e);
    RunTimes(s3, e, 4);
    GetsOn(s3, user, job, p, key, Transcode);
    var s4 := Step(s3, e);
    RunTimes(s4, e, 3);
    GetsOn(s4, user, job, p, key, StoreGif);
    var s5 := Step(s4, e);
    RunTimes(s5, e, 2);
    GetsOn(s5, user, job, p, key, Complete);
    var s6 := Step(s5, e);
    RunTimes(s6, e, 1);
    GetsOn(s6, user, job, p, key, CompleteRow);
    RunNone(Step(s6, e));
  }

  lemma IsAtInsertion(s: State, user: string, job: string, p: nat, key: string)
    requires GotTo(s, user, job, p, key, CreateGif)
    ensures IsConverted(s, user, job, p, key) && s.runs.Keys == {p}
  {
  }

  /** The whole conversion, message by message, up to the insertion. */
  function WholeConversion(user: string, job: string, p: nat, key: string): seq<Event> {
    ToPublish(user, job) + [StepConvert(job, Done)] + ToInsertion(job, p, key)
  }

  lemma Converts(now: int, user: string, job: string, p: nat, key: string)
    ensures var s := Run(Initial(now), WholeConversion(user, job, p, key));
      && IsConverted(s, user, job, p, key) && s.runs.Keys == {p}
      && job in s.sent && job in s.converts && s.converts[job] == ConvertRun(user, Returned)
    ensures OrderlyRun(Initial(now), WholeConversion(user, job, p, key))
  {
    hide Run;
    var s0, publish := Initial(now), StepConvert(job, Done);
    AcceptsJob(now, user, job);
    var s1 := Run(s0, ToPublish(user, job));
    Publishes(s1, user, job, Done);
    RunFirst(s1, publish);
    FirstIsOrderly(s1, publish);
    RunAppends(s0, ToPublish(user, job), [publish]);
    OrderlyAppends(s0, ToPublish(user, job), [publish]);
    var s2 := Step(s1, publish);
    ConvertsVideo(s2, user, job, Returned, p, key);
    RunAppends(s0, ToPublish(user, job) + [publish], ToInsertion(job, p, key));
    OrderlyAppends(s0, ToPublish(user, job) + [publish], ToInsertion(job, p, key));
  }

  lemma Publishes(s: State, user: string, job: string, o: Outcome)
    requires IsAccepted(s, user, job, Publish) && !o.Lost?
    ensures var s' := Step(s, StepConvert(job, o));
      IsAccepted(s', user, job, if o.Done? then Returned else UndoStatus) && job in s'.sent
  {
  }

  /**
   The parting is reachable, in an orderly run: the insertion fails, the cache says "failed", and the row
   says "done".
   */
  lemma LateFailureHappens(now: int, user: string, job: string, key: string)
    ensures var es := WholeConversion(user, job, 0, key) + [StepProcess(0, Lost, ""), StepProcess(0, Done, "")];
      var s := Run(Initial(now), es);
      && OrderlyRun(Initial(now), es)
      && job in s.rows && s.rows[job] == JobRow(user, DONE, 100, key + GIF_SUFFIX)
      && Read(s.cache, JobStatus(job), s.now, false) == Hit(FAILED)
  {
    hide Run, Step;
    var s0, es := Initial(now), WholeConversion(user, job, 0, key);
    var e1, e2 := StepProcess(0, Lost, ""), StepProcess(0, Done, "");
    Converts(now, user, job, 0, key);
    var s := Run(s0, es);
    RunAppends(s0, es, [e1, e2]);
    OrderlyAppends(s0, es, [e1, e2]);
    LateFailureLeavesDoneRow(s, 0);
    StepsAreOrderly(s, e1, e2);
    RunPair(s, e1, e2);
    TimeStands(s, e1);
    TimeStands(Step(s, e1), e2);
  }

  lemma RunPair(s: State, e1: Event, e2: Event)
    ensures Run(s, [e1, e2]) == Step(Step(s, e1), e2)
  {
    hide Step;
    assert [e1, e2][1..] == [e2];
    RunFirst(Step(s, e1), e2);
  }

  lemma StepsAreOrderly(s: State, e1: Event, e2: Event)
    requires e1.StepProcess? && e2.StepProcess?
    ensures OrderlyRun(s, [e1, e2])
  {
    hide Step;
    assert [e1, e2][1..] == [e2];
    FirstIsOrderly(Step(s, e1), e2);
  }

  lemma TimeStands(s: State, e: Event)
    requires e.StepProcess?
    ensures Step(s, e).now == s.now
  {
    hide Perform;
  }

  /**
   Single delivery is needed: the same message delivered again takes a finished row, whose GIF may be about
   to be stored, back to "processing".
   */
  lemma RedeliveryHappens(now: int, user: string, job: string, key: string)
    ensures var es := WholeConversion(user, job, 0, key);
      var again := [Deliver(1, job), StepProcess(1, Done, ""), StepProcess(1, Done, "")];
      var s, s' := Run(Initial(now), es), Run(Initial(now), es + again);
      && job in s.rows && s.rows[job] == JobRow(user, DONE, 100, key + GIF_SUFFIX)
      && job in s'.rows && s'.rows[job] == JobRow(user, PROCESSING, 20, "")
  {
    hide Run, Step;
    var es := WholeConversion(user, job, 0, key);
    var again := [Deliver(1, job), StepProcess(1, Done, ""), StepProcess(1, Done, "")];
    Converts(now, user, job, 0, key);
    RunAppends(Initial(now), es, again);
    RedeliveryReopensRow(Run(Initial(now), es), 1, job);
  }

  /** Up to a publish that is reported as failed although the message was queued. */
  function UnsureConversion(user: string, job: string, p: nat, key: string): seq<Event> {
    ToPublish(user, job) + [StepConvert(job, Unsure)] + ToInsertion(job, p, key)
  }

  /**
   And a failed publish must mean that nothing was queued: otherwise the message is converted, and the undo of
   `Convert` then takes the finished row to "failed". Each message is delivered once here.
   */
  lemma UnsurePublishHappens(now: int, user: string, job: string, key: string)
    ensures var es := UnsureConversion(user, job, 0, key);
      var s, s' := Run(Initial(now), es), Run(Initial(now), es + Times(StepConvert(job, Done), 3));
      && job in s.rows && s.rows[job] == JobRow(user, DONE, 100, key + GIF_SUFFIX)
      && job in s'.rows && s'.rows[job] == JobRow(user, FAILED, 0, "")
  {
    hide Run, Step;
    var s0, es, undo := Initial(now), UnsureConversion(user, job, 0, key), StepConvert(job, Done);
    AcceptsJob(now, user, job);
    var s1 := Run(s0, ToPublish(user, job));
    Publishes(s1, user, job, Unsure);
    RunFirst(s1, StepConvert(job, Unsure));
    RunAppends(s0, ToPublish(user, job), [StepConvert(job, Unsure)]);
    var s2 := Step(s1, StepConvert(job, Unsure));
    ConvertsVideo(s2, user, job, UndoStatus, 0, key);
    RunAppends(s0, ToPublish(user, job) + [StepConvert(job, Unsure)], ToInsertion(job, 0, key));
    var s := Run(s0, es);
    RunAppends(s0, es, Times(undo, 3));
    RunTimes(s, undo, 3);
    RunTimes(Step(s, undo), undo, 2);
    RunTimes(Step(Step(s, undo), undo), undo, 1);
    RunNone(Step(Step(Step(s, undo), undo), undo));
    UndoMovesOn(s, user, job);
    UndoMovesOn(Step(s, undo), user, job);
    UndoMovesOn(Step(Step(s, undo), undo), user, job);
  }

  lemma UndoMovesOn(s: State, user: string, job: string)
    requires job in s.converts && s.converts[job].user == user && job in s.rows
    requires s.converts[job].pc.UndoStatus? || s.converts[job].pc.UndoGif? || s.converts[job].pc.UndoRow?
    ensures var s' := Step(s, StepConvert(job, Done));
      && s'.converts == s.converts[job := ConvertRun(user, ConvertNext(s.converts[job].pc, Done))]
      && job in s'.rows
      && s'.rows[job] == if s.converts[job].pc.UndoRow? then JobRow(s.rows[job].user, FAILED, 0, "") else s.rows[job]
  {
  }
}
