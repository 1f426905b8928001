/**
 What a client may conclude from `ConversionStatus`: the three cache entries of a job nest by expiry,
 "completed" and "done" always carry a produced key, and only the job's owner is answered.
 */
module JobStatus {
  import opened Prelude
  import opened Cache
  import opened Conversion

  predicate StatusWasSet(pc: ConvertPc) {
    pc.SetGif? || GifWasSet(pc)
  }

  predicate GifWasSet(pc: ConvertPc) {
    pc.CreateRow? || pc.Publish? || pc.UndoStatus? || pc.UndoGif? || pc.UndoRow? || pc.Returned?
  }

  predicate GifWasStored(pc: ProcessPc) {
    pc.Complete? || pc.CompleteRow? || pc.CreateGif? || pc.CountGif? || pc.Finished?
  }

  // ---------- messages ----------

  predicate HasSent(pc: ConvertPc) {
    pc.UndoStatus? || pc.UndoGif? || pc.UndoRow? || pc.Returned? || pc.Errored?
  }

  /** Messages come from a `Convert` that got as far as publishing, and runs come from messages. */
  ghost predicate Messages(s: State) {
    && (forall j :: j in s.sent ==> j in s.converts && HasSent(s.converts[j].pc))
    && RunsComeFromMessages(s)
  }

  ghost predicate RunsComeFromMessages(s: State) {
    && (forall p :: p in s.runs ==> s.runs[p].job in s.sent)
    && (forall p :: p in s.runs && s.runs[p].job in s.converts ==>
          s.runs[p].user == s.converts[s.runs[p].job].user)
  }

  lemma StepKeepsSenders(s: State, e: Event, j: string)
    requires j in s.sent ==> j in s.converts && HasSent(s.converts[j].pc)
    requires j in Step(s, e).sent
    ensures j in Step(s, e).converts && HasSent(Step(s, e).converts[j].pc)
  {
    hide Step, Perform, RowsWithout, Advanced;
    StepFrame(s, e);
  }

  lemma StepKeepsRunsFromMessages(s: State, e: Event)
    requires Messages(s)
    ensures RunsComeFromMessages(Step(s, e))
  {
    hide Step, Perform, RowsWithout, ConvertNext, OutcomeOf, CallOf;
    StepFrame(s, e);
  }

  lemma StepKeepsMessages(s: State, e: Event)
    requires Messages(s)
    ensures Messages(Step(s, e))
  {
    hide Step, RunsComeFromMessages;
    StepKeepsRunsFromMessages(s, e);
    forall j | j in Step(s, e).sent
      ensures j in Step(s, e).converts && HasSent(Step(s, e).converts[j].pc)
    {
      StepKeepsSenders(s, e, j);
    }
  }

  // ---------- expiry ----------

  /** `k` is in the cache and outlives the owner entry of its job, if there is one. */
  predicate Outlives(cache: Entries, k: CacheKey) {
    k in cache && (JobOwner(k.id) in cache ==> cache[JobOwner(k.id)].expireAt <= cache[k].expireAt)
  }

  ghost predicate Nested(cache: Entries, converts: map<string, ConvertRun>, now: int) {
    && (forall j :: JobOwner(j) in cache ==> cache[JobOwner(j)].expireAt <= now + 5 * MINUTE)
    && (forall j :: JobOwner(j) in cache ==> j in converts && cache[JobOwner(j)].value == converts[j].user)
    && (forall j :: j in converts && StatusWasSet(converts[j].pc) ==> Outlives(cache, JobStatus(j)))
    && (forall j :: j in converts && GifWasSet(converts[j].pc) ==> Outlives(cache, JobGif(j)))
  }

  lemma LaterEntryKeepsNested(
    cache: Entries, converts: map<string, ConvertRun>, now: int, k: CacheKey, value: string, ttl: int, o: Outcome)
    requires Nested(cache, converts, now) && !k.JobOwner? && ttl >= 5 * MINUTE
    ensures Nested(Put(cache, k, value, now + ttl, o), converts, now)
  {
  }

  lemma OwnerEntryKeepsNested(cache: Entries, converts: map<string, ConvertRun>, now: int, job: string, o: Outcome)
    requires Nested(cache, converts, now) && job in converts && converts[job].pc.SetOwner?
    ensures Nested(Put(cache, JobOwner(job), converts[job].user, now + 5 * MINUTE, o), converts, now)
  {
  }

  lemma ReachingPcKeepsNested(cache: Entries, converts: map<string, ConvertRun>, now: int, job: string, r: ConvertRun)
    requires Nested(cache, converts, now) && (job in converts ==> converts[job].user == r.user)
    requires StatusWasSet(r.pc) ==> Outlives(cache, JobStatus(job))
    requires GifWasSet(r.pc) ==> Outlives(cache, JobGif(job))
    ensures Nested(cache, converts[job := r], now)
  {
  }

  lemma LaterClockKeepsNested(cache: Entries, converts: map<string, ConvertRun>, now: int, later: int)
    requires Nested(cache, converts, now) && now <= later
    ensures Nested(cache, converts, later)
  {
  }

  /** What an event's own cache write leads to, before its run moves on. */
  lemma WriteKeepsNested(s: State, e: Event)
    requires Nested(s.cache, s.converts, s.now)
    ensures Nested(Step(s, e).cache, s.converts, s.now)
  {
    hide Step, Perform, Nested;
    StepFrame(s, e);
    var c, o := CallOf(s, e), OutcomeOf(s, e);
    if c.SetEntry? {
      if c.k.JobOwner? {
        OwnerEntryKeepsNested(s.cache, s.converts, s.now, e.job, o);
      } else {
        LaterEntryKeepsNested(s.cache, s.converts, s.now, c.k, c.value, c.ttl, o);
      }
    }
  }

  /** A `Convert` that moves on has written the entries its new position promises. */
  lemma MovingOnKeepsNested(s: State, e: Event)
    requires Nested(s.cache, s.converts, s.now)
    requires Nested(Step(s, e).cache, s.converts, s.now)
    requires e.StepConvert? && e.job in s.converts
    ensures Nested(Step(s, e).cache, Step(s, e).converts, s.now)
  {
    hide Step, Perform;
    StepFrame(s, e);
    var s' := Step(s, e);
    ReachingPcKeepsNested(s'.cache, s.converts, s.now, e.job, s'.converts[e.job]);
  }

  lemma StepKeepsNested(s: State, e: Event)
    requires Nested(s.cache, s.converts, s.now)
    ensures Nested(Step(s, e).cache, Step(s, e).converts, Step(s, e).now)
  {
    hide Step, Perform, Nested;
    WriteKeepsNested(s, e);
    StepFrame(s, e);
    var s' := Step(s, e);
    if e.StepConvert? && e.job in s.converts {
      MovingOnKeepsNested(s, e);
    } else if e.StartConvert? && e.job !in s.converts {
      ReachingPcKeepsNested(s'.cache, s.converts, s.now, e.job, ConvertRun(e.user, SetOwner));
    }
    LaterClockKeepsNested(s'.cache, s'.converts, s.now, s'.now);
  }

  // ---------- produced keys ----------

  predicate BeforeTranscoding(pc: ProcessPc) {
    pc.MarkStatus? || pc.MarkRow? || pc.Transcode?
  }

  ghost predicate RunsCarryGif(s: State) {
    forall p :: p in s.runs ==>
      && (BeforeTranscoding(s.runs[p].pc) ==> s.runs[p].gif.None?)
      && (s.runs[p].pc.StoreGif? || GifWasStored(s.runs[p].pc) ==> s.runs[p].gif.Some?)
      && (s.runs[p].gif.Some? ==> IsGifKey(s.runs[p].gif.value))
  }

  lemma StepKeepsRunsCarryGif(s: State, e: Event)
    requires RunsCarryGif(s)
    ensures RunsCarryGif(Step(s, e))
  {
    hide Step, Perform, CallOf;
    StepFrame(s, e);
    if e.StepProcess? {
      assert IsGifKey(e.newKey + GIF_SUFFIX);
    }
    hide IsGifKey;
  }

  lemma ProducedStays(s: State, e: Event, j: string, key: string)
    requires RunsCarryGif(s)
    requires Produced(s, j, key)
    ensures Produced(Step(s, e), j, key)
  {
    StepFrame(s, e);
    var p :| p in s.runs && s.runs[p].job == j && s.runs[p].gif == Some(key);
    var s' := Step(s, e);
    assert p in s'.runs && s'.runs[p].job == j && s'.runs[p].gif == Some(key);
  }

  ghost predicate GifIsProduced(s: State, j: string) {
    JobGif(j) in s.cache && Produced(s, j, s.cache[JobGif(j)].value)
  }

  ghost predicate ReportsCompleted(s: State, j: string) {
    JobStatus(j) in s.cache && s.cache[JobStatus(j)].value == COMPLETED
  }

  /** Until its message is sent, a job's status entry says "queued"; no entry ever says "done". */
  ghost predicate SeededStatus(s: State, j: string) {
    && (JobStatus(j) in s.cache ==> s.cache[JobStatus(j)].value != DONE)
    && (j in s.converts && (s.converts[j].pc.SetGif? || s.converts[j].pc.CreateRow? || s.converts[j].pc.Publish?) ==>
          JobStatus(j) in s.cache && s.cache[JobStatus(j)].value == QUEUED)
  }

  /** A returned job with a finished conversion has a produced key in its gif entry. */
  ghost predicate FinishedIsProduced(s: State, j: string) {
    j in s.converts && s.converts[j].pc.Returned? ==>
      && (ReportsCompleted(s, j) ==> GifIsProduced(s, j))
      && (forall p :: p in s.runs && s.runs[p].job == j && GifWasStored(s.runs[p].pc) ==> GifIsProduced(s, j))
  }

  /** Once a returned job's gif entry holds a produced key, it always will. */
  lemma ProducedGifStays(s: State, e: Event, j: string)
    requires Messages(s) && RunsCarryGif(s)
    requires j in s.converts && s.converts[j].pc.Returned? && GifIsProduced(s, j)
    ensures GifIsProduced(Step(s, e), j)
  {
    StepFrame(s, e);
    ProducedStays(s, e, j, s.cache[JobGif(j)].value);
    if e.StepProcess? && e.p in s.runs && s.runs[e.p].pc.StoreGif? && s.runs[e.p].job == j {
      assert Step(s, e).runs[e.p].gif == Some(GifOf(s.runs[e.p]));
      assert Produced(Step(s, e), j, GifOf(s.runs[e.p]));
    }
  }

  lemma StepKeepsSeededStatus(s: State, e: Event, j: string)
    requires Messages(s) && SeededStatus(s, j)
    ensures SeededStatus(Step(s, e), j)
  {
    hide Step, Perform, RowsWithout, Advanced;
    StepFrame(s, e);
  }

  lemma PublishingFinishesNothing(s: State, e: Event, j: string)
    requires Messages(s) && SeededStatus(s, j)
    requires j in s.converts && !s.converts[j].pc.Returned? && Step(s, e).converts[j].pc.Returned?
    ensures FinishedIsProduced(Step(s, e), j)
  {
    hide Step, Perform, RowsWithout;
    StepFrame(s, e);
    assert s.converts[j].pc.Publish?;
    assert j !in s.sent;
  }

  lemma StoringProduces(s: State, e: Event, j: string)
    requires RunsCarryGif(s)
    requires e.StepProcess? && e.p in s.runs && s.runs[e.p].job == j && s.runs[e.p].pc.StoreGif? && !e.o.Lost?
    ensures GifIsProduced(Step(s, e), j)
  {
    StepFrame(s, e);
    var s' := Step(s, e);
    assert s'.runs[e.p].job == j && s'.runs[e.p].gif == Some(GifOf(s.runs[e.p]));
  }

  lemma StepKeepsFinishedIsProduced(s: State, e: Event, j: string)
    requires Messages(s) && RunsCarryGif(s) && SeededStatus(s, j) && FinishedIsProduced(s, j)
    ensures FinishedIsProduced(Step(s, e), j)
  {
    StepFrame(s, e);
    if j in s.converts && Step(s, e).converts[j].pc.Returned? {
      if !s.converts[j].pc.Returned? {
        PublishingFinishesNothing(s, e, j);
      } else if GifIsProduced(s, j) {
        ProducedGifStays(s, e, j);
      } else if e.StepProcess? && e.p in s.runs && s.runs[e.p].job == j && s.runs[e.p].pc.StoreGif? && !e.o.Lost? {
        StoringProduces(s, e, j);
      } else {
        NothingFinishes(s, e, j);
      }
    }
  }

  lemma NothingFinishes(s: State, e: Event, j: string)
    requires Messages(s) && FinishedIsProduced(s, j)
    requires j in s.converts && s.converts[j].pc.Returned? && !GifIsProduced(s, j)
    requires !(e.StepProcess? && e.p in s.runs && s.runs[e.p].job == j && s.runs[e.p].pc.StoreGif? && !e.o.Lost?)
    ensures !ReportsCompleted(Step(s, e), j)
    ensures forall p :: p in Step(s, e).runs && Step(s, e).runs[p].job == j ==> !GifWasStored(Step(s, e).runs[p].pc)
  {
    hide Step, Perform, RowsWithout;
    StepFrame(s, e);
  }

  // ---------- the job table ----------

  /** A row is in one of four shapes, belongs to the job's user, and a done row carries a produced key. */
  ghost predicate RowOf(s: State, j: string) {
    j in s.rows ==>
      var r := s.rows[j];
      && j in s.converts && r.user == s.converts[j].user
      && (|| (r.status == QUEUED && r.progress == 0 && r.resultKey == "")
          || (r.status == PROCESSING && r.progress == 20 && r.resultKey == "")
          || (r.status == DONE && r.progress == 100 && Produced(s, j, r.resultKey))
          || (r.status == FAILED && r.progress == 0 && r.resultKey == ""))
  }

  predicate WritesRow(c: Call, o: Outcome, j: string) {
    (c.InsertRow? || c.UpdateRow?) && c.job == j && !o.Lost?
  }

  lemma UnwrittenRow(s: State, c: Call, o: Outcome, j: string)
    requires !WritesRow(c, o, j)
    ensures var s' := Perform(s, c, o);
      (j in s'.rows <==> j in s.rows) && (j in s.rows ==> s'.rows[j] == s.rows[j])
  {
    PerformFrame(s, c, o);
  }

  lemma StepKeepsRowOf(s: State, e: Event, j: string)
    requires RunsCarryGif(s) && RowOf(s, j)
    ensures RowOf(Step(s, e), j)
  {
    if WritesRow(CallOf(s, e), OutcomeOf(s, e), j) {
      WrittenRow(s, e, j);
    } else {
      StepFrame(s, e);
      UnwrittenRow(s, CallOf(s, e), OutcomeOf(s, e), j);
      if j in s.rows && s.rows[j].status == DONE {
        ProducedStays(s, e, j, s.rows[j].resultKey);
      }
    }
  }

  lemma WrittenRowIs(s: State, c: Call, o: Outcome, j: string)
    requires WritesRow(c, o, j)
    ensures var s' := Perform(s, c, o);
      && (c.InsertRow? ==>
            j in s'.rows && s'.rows[j] == JobRow(if j in s.rows then s.rows[j].user else c.user, QUEUED, 0, ""))
      && (c.UpdateRow? ==> (j in s'.rows <==> j in s.rows))
      && (c.UpdateRow? && j in s.rows ==> s'.rows[j] == JobRow(s.rows[j].user, c.status, c.progress, c.key))
  {
  }

  lemma WrittenRow(s: State, e: Event, j: string)
    requires RunsCarryGif(s) && RowOf(s, j)
    requires WritesRow(CallOf(s, e), OutcomeOf(s, e), j)
    ensures RowOf(Step(s, e), j)
  {
    StepFrame(s, e);
    WrittenRowIs(s, CallOf(s, e), OutcomeOf(s, e), j);
    if e.StepConvert? {
      assert s.converts[j].pc.CreateRow? || s.converts[j].pc.UndoRow?;
    } else {
      var r, s' := s.runs[e.p], Step(s, e);
      assert r.pc.MarkRow? || r.pc.FailRow? || r.pc.CompleteRow?;
      assert s'.runs[e.p].job == j;
      if r.pc.CompleteRow? {
        assert s'.runs[e.p].gif == Some(GifOf(r));
        assert Produced(s', j, GifOf(r));
      }
    }
  }

  // ---------- every reachable state ----------

  ghost predicate Inv(s: State) {
    && Messages(s) && Nested(s.cache, s.converts, s.now) && RunsCarryGif(s)
    && (forall j :: SeededStatus(s, j))
    && (forall j :: FinishedIsProduced(s, j))
    && (forall j :: RowOf(s, j))
  }

  lemma StepKeepsInv(s: State, e: Event)
    requires Inv(s)
    ensures Inv(Step(s, e))
  {
    StepKeepsMessages(s, e);
    StepKeepsNested(s, e);
    StepKeepsRunsCarryGif(s, e);
    forall j
      ensures SeededStatus(Step(s, e), j) && FinishedIsProduced(Step(s, e), j) && RowOf(Step(s, e), j)
    {
      StepKeepsSeededStatus(s, e, j);
      StepKeepsFinishedIsProduced(s, e, j);
      StepKeepsRowOf(s, e, j);
    }
  }

  lemma {:induction false} RunKeepsInv(s: State, es: seq<Event>)
    requires Inv(s)
    ensures Inv(Run(s, es))
    decreases |es|
  {
    if es != [] {
      StepKeepsInv(s, es[0]);
      RunKeepsInv(Step(s, es[0]), es[1..]);
    }
  }

  lemma ReachableInv(now: int, es: seq<Event>)
    ensures Inv(Run(Initial(now), es))
  {
    RunKeepsInv(Initial(now), es);
  }

  // ---------- the status endpoint ----------

  datatype StatusResult = StatusResult(status: string, gif: string, progress: int)

  datatype StatusError = OwnerMismatch | CacheGetFailed | CacheFault

  /** What the job table answers; a fault and a missing row are both "no row". */
  function ReadRow(s: State, job: string, fault: bool): Option<JobRow> {
    if !fault && job in s.rows then Some(s.rows[job]) else None
  }

  /** Cache first, then the job table; the three cache reads and the row read are passed in. */
  function ConversionStatus(user: string, owner: Got, status: Got, gif: Got, row: Option<JobRow>)
    : Result<StatusResult, StatusError>
  {
    if owner.Hit? && owner.value != user then Err(OwnerMismatch)
    else if owner.Hit? && status.Hit? then
      Ok(StatusResult(status.value, if gif.Hit? then gif.value else "", 0))
    else if row.Some? then
      if row.value.user != user then Err(OwnerMismatch)
      else Ok(StatusResult(row.value.status, row.value.resultKey, row.value.progress))
    else if owner.Fault? then Err(CacheFault)
    else Err(CacheGetFailed)
  }

  /** The endpoint at one instant, with any of its four reads faulty. */
  function StatusAt(
    s: State, user: string, job: string, ownerFault: bool, statusFault: bool, gifFault: bool, rowFault: bool)
    : Result<StatusResult, StatusError>
  {
    ConversionStatus(user,
      Read(s.cache, JobOwner(job), s.now, ownerFault),
      Read(s.cache, JobStatus(job), s.now, statusFault),
      Read(s.cache, JobGif(job), s.now, gifFault),
      ReadRow(s, job, rowFault))
  }

  /** While the owner entry of a returned job lives, so do its status and its gif entry. */
  lemma OwnerEntryExpiresFirst(now: int, es: seq<Event>, j: string)
    requires var s := Run(Initial(now), es);
      j in s.converts && s.converts[j].pc.Returned? && IsLive(s.cache, JobOwner(j), s.now)
    ensures var s := Run(Initial(now), es);
      IsLive(s.cache, JobStatus(j), s.now) && IsLive(s.cache, JobGif(j), s.now)
  {
    ReachableInv(now, es);
    var s := Run(Initial(now), es);
    assert Outlives(s.cache, JobStatus(j)) && Outlives(s.cache, JobGif(j));
  }

  /**
   The answer in every reachable state and for every fault, about any job. With the owner and the status entry
   live and readable the owner gets what they and the GIF entry say; else, with a row that can be read, what the
   row says. A mismatch is reported exactly to another user whose owner entry or row could be read, and the two
   cache errors exactly when neither store answers: a fault if the owner entry could not be read, else a miss.
   */
  lemma StatusIsExact(
    now: int, es: seq<Event>, user: string, j: string,
    ownerFault: bool, statusFault: bool, gifFault: bool, rowFault: bool)
    ensures var s := Run(Initial(now), es);
      var r := StatusAt(s, user, j, ownerFault, statusFault, gifFault, rowFault);
      var owned := !ownerFault && JobOwner(j) in s.cache && s.now <= s.cache[JobOwner(j)].expireAt;
      var cached := owned && !statusFault && JobStatus(j) in s.cache && s.now <= s.cache[JobStatus(j)].expireAt;
      var named := !gifFault && JobGif(j) in s.cache && s.now <= s.cache[JobGif(j)].expireAt;
      var filed := !rowFault && j in s.rows;
      && (owned || filed ==> j in s.converts)
      && (r == Err(OwnerMismatch) <==> (owned || filed) && user != s.converts[j].user)
      && (r.Ok? <==> (cached || filed) && user == s.converts[j].user)
      && (cached && user == s.converts[j].user ==>
            r == Ok(StatusResult(s.cache[JobStatus(j)].value, if named then s.cache[JobGif(j)].value else "", 0)))
      && (!cached && filed && user == s.converts[j].user ==>
            r == Ok(StatusResult(s.rows[j].status, s.rows[j].resultKey, s.rows[j].progress)))
      && (r == Err(CacheFault) <==> ownerFault && !filed)
      && (r == Err(CacheGetFailed) <==> !ownerFault && !filed && !(owned && (cached || user != s.converts[j].user)))
  {
    hide Run;
    ReachableInv(now, es);
    assert RowOf(Run(Initial(now), es), j);
  }

  /**
   Every answer about a returned job goes to the user who asked for the conversion, and an answer that
   says the work is finished carries a key one of the job's own runs produced, never a placeholder; it
   lacks the key only if the gif entry could not be read.
   */
  lemma StatusIsSound(
    now: int, es: seq<Event>, user: string, j: string,
    ownerFault: bool, statusFault: bool, gifFault: bool, rowFault: bool)
    requires var s := Run(Initial(now), es);
      && j in s.converts && s.converts[j].pc.Returned?
      && StatusAt(s, user, j, ownerFault, statusFault, gifFault, rowFault).Ok?
    ensures var s := Run(Initial(now), es);
      var r := StatusAt(s, user, j, ownerFault, statusFault, gifFault, rowFault).value;
      && user == s.converts[j].user
      && (r.status == COMPLETED || r.status == DONE ==>
            || (Produced(s, j, r.gif) && r.gif !in {QUEUED, FAILED, ""})
            || (gifFault && r.status == COMPLETED && r.gif == ""))
  {
    ReachableInv(now, es);
    var s := Run(Initial(now), es);
    assert SeededStatus(s, j) && FinishedIsProduced(s, j) && RowOf(s, j);
    if IsLive(s.cache, JobOwner(j), s.now) {
      OwnerEntryExpiresFirst(now, es, j);
    }
    var r := StatusAt(s, user, j, ownerFault, statusFault, gifFault, rowFault).value;
    if Produced(s, j, r.gif) {
      GifKeyIsNoPlaceholder(r.gif);
    }
  }

  lemma {:induction false} ProducedGifStaysForever(s: State, es: seq<Event>, j: string)
    requires Inv(s)
    requires j in s.converts && s.converts[j].pc.Returned? && GifIsProduced(s, j)
    ensures GifIsProduced(Run(s, es), j)
    decreases |es|
  {
    hide Step, Perform, CallOf, GifIsProduced, Messages, RunsCarryGif, Nested, SeededStatus, FinishedIsProduced;
    if es != [] {
      ProducedGifStays(s, es[0], j);
      StepFrame(s, es[0]);
      StepKeepsInv(s, es[0]);
      ProducedGifStaysForever(Step(s, es[0]), es[1..], j);
    }
  }

  /**
   The three reads need not happen at once: if the status read said "completed", a gif read any number of
   events later finds a produced key or nothing, never a placeholder.
   */
  lemma LateGifReadIsSound(now: int, es: seq<Event>, later: seq<Event>, j: string)
    requires var s := Run(Initial(now), es);
      j in s.converts && s.converts[j].pc.Returned? && Read(s.cache, JobStatus(j), s.now, false) == Hit(COMPLETED)
    ensures var s' := Run(Run(Initial(now), es), later);
      var gif := Read(s'.cache, JobGif(j), s'.now, false);
      gif.Hit? ==> Produced(s', j, gif.value)
  {
    ReachableInv(now, es);
    var s := Run(Initial(now), es);
    assert FinishedIsProduced(s, j);
    ProducedGifStaysForever(s, later, j);
  }
}
