/**
 One `Convert` and one `Process` from beginning to end, with nobody in between: what each leaves in the cache, the
 tables and the queue, and how it ends, for every way its calls can end.
 */
module ConversionScripts {
  import opened Prelude
  import opened Cache
  import opened Conversion

  /** Steps of one `Convert`, one per store call; a step past its end does nothing. */
  function ConvertSteps(job: string, outs: seq<Outcome>): seq<Event> {
    if outs == [] then [] else [StepConvert(job, outs[0])] + ConvertSteps(job, outs[1..])
  }

  function ProcessSteps(p: nat, outs: seq<Outcome>, newKey: string): seq<Event> {
    if outs == [] then [] else [StepProcess(p, outs[0], newKey)] + ProcessSteps(p, outs[1..], newKey)
  }

  /** From `s` on, the rest of the script `outs` of `job` leads to `end`. */
  ghost predicate ConvertEnds(s: State, job: string, outs: seq<Outcome>, i: nat, end: State) {
    i <= |outs| && Run(s, ConvertSteps(job, outs[i..])) == end
  }

  lemma EndedConvertStays(s: State, job: string, o: Outcome)
    requires job in s.converts && (s.converts[job].pc.Returned? || s.converts[job].pc.Errored?)
    ensures Step(s, StepConvert(job, o)) == s
  {
    assert s.converts[job := s.converts[job]] == s.converts;
  }

  lemma {:induction false} EndedConvertIsIdle(s: State, job: string, outs: seq<Outcome>)
    requires job in s.converts && (s.converts[job].pc.Returned? || s.converts[job].pc.Errored?)
    ensures Run(s, ConvertSteps(job, outs)) == s
  {
    hide Step, Perform;
    if outs != [] {
      EndedConvertStays(s, job, outs[0]);
      EndedConvertIsIdle(s, job, outs[1..]);
    }
  }

  lemma ConvertHasEnded(s: State, job: string, outs: seq<Outcome>, i: nat, end: State)
    requires ConvertEnds(s, job, outs, i, end)
    requires job in s.converts && (s.converts[job].pc.Returned? || s.converts[job].pc.Errored?)
    ensures s == end
  {
    EndedConvertIsIdle(s, job, outs[i..]);
  }

  ghost predicate ProcessEnds(s: State, p: nat, outs: seq<Outcome>, newKey: string, i: nat, end: State) {
    i <= |outs| && Run(s, ProcessSteps(p, outs[i..], newKey)) == end
  }

  lemma EndedProcessStays(s: State, p: nat, o: Outcome, newKey: string)
    requires p in s.runs && (s.runs[p].pc.Finished? || s.runs[p].pc.Stopped?)
    ensures Step(s, StepProcess(p, o, newKey)) == s
  {
    assert s.runs[p := s.runs[p]] == s.runs;
  }

  lemma {:induction false} EndedProcessIsIdle(s: State, p: nat, outs: seq<Outcome>, newKey: string)
    requires p in s.runs && (s.runs[p].pc.Finished? || s.runs[p].pc.Stopped?)
    ensures Run(s, ProcessSteps(p, outs, newKey)) == s
  {
    hide Step, Perform;
    if outs != [] {
      EndedProcessStays(s, p, outs[0], newKey);
      EndedProcessIsIdle(s, p, outs[1..], newKey);
    }
  }

  lemma ProcessHasEnded(s: State, p: nat, outs: seq<Outcome>, newKey: string, i: nat, end: State)
    requires ProcessEnds(s, p, outs, newKey, i, end)
    requires p in s.runs && (s.runs[p].pc.Finished? || s.runs[p].pc.Stopped?)
    ensures s == end
  {
    EndedProcessIsIdle(s, p, outs[i..], newKey);
  }

  /** The row with new contents, if it is there and the write reaches it. */
  function RowSet(rows: map<string, JobRow>, job: string, status: string, progress: int, key: string, o: Outcome)
    : map<string, JobRow>
  {
    if o.Lost? || job !in rows then rows else rows[job := JobRow(rows[job].user, status, progress, key)]
  }

  // ---------- an accepted conversion ----------

  /** A user is refused exactly for a quota row that could be read and whose count is positive and at its limit. */
  lemma RefusedExactly(s: State, user: string, job: string, quotaRead: bool)
    requires job !in s.converts
    ensures Step(s, StartConvert(user, job, quotaRead)) == s <==>
      && quotaRead && user in s.quotas
      && 0 < s.quotas[user].gifCount && s.quotas[user].gifLimit <= s.quotas[user].gifCount
  {
    assert job in Step(s, StartConvert(user, job, quotaRead)).converts <==> !(quotaRead && AtLimit(s, user));
  }

  /** Starting a `Convert` takes the machine to its first step, or nowhere if the quota refuses it. */
  lemma StartedConvert(s: State, user: string, job: string, quotaRead: bool, outs: seq<Outcome>)
    requires job !in s.converts
    ensures var end := Run(s, [StartConvert(user, job, quotaRead)] + ConvertSteps(job, outs));
            if quotaRead && AtLimit(s, user) then end == s
            else ConvertEnds(s.(converts := s.converts[job := ConvertRun(user, SetOwner)]), job, outs, 0, end)
  {
    var script := ConvertSteps(job, outs);
    assert ([StartConvert(user, job, quotaRead)] + script)[1..] == script;
    assert outs[0..] == outs;
    if quotaRead && AtLimit(s, user) {
      RefusedConvertIsIdle(s, job, outs);
    }
  }

  lemma {:induction false} RefusedConvertIsIdle(s: State, job: string, outs: seq<Outcome>)
    requires job !in s.converts
    ensures Run(s, ConvertSteps(job, outs)) == s
  {
    if outs != [] {
      RefusedConvertIsIdle(s, job, outs[1..]);
    }
  }

  lemma NextConvertCall(s: State, job: string, outs: seq<Outcome>, i: nat, end: State)
    requires i < |outs| && ConvertEnds(s, job, outs, i, end)
    ensures ConvertEnds(Step(s, StepConvert(job, outs[i])), job, outs, i + 1, end)
  {
    hide Step;
    assert outs[i..][1..] == outs[i + 1..];
  }

  /** One successful call of a `Convert` whose user has an account. */
  lemma DoneConvertCall(s: State, job: string)
    requires job in s.converts && s.converts[job].user !in s.gone && job !in s.rows
    ensures var user, s' := s.converts[job].user, Step(s, StepConvert(job, Done));
      match s.converts[job].pc
      case SetOwner => s' == s.(cache := s.cache[JobOwner(job) := Entry(user, s.now + 300_000)],
                                converts := s.converts[job := ConvertRun(user, SetStatus)])
      case SetStatus => s' == s.(cache := s.cache[JobStatus(job) := Entry("queued", s.now + 300_000)],
                                 converts := s.converts[job := ConvertRun(user, SetGif)])
      case SetGif => s' == s.(cache := s.cache[JobGif(job) := Entry("queued", s.now + 300_000)],
                              converts := s.converts[job := ConvertRun(user, CreateRow)])
      case CreateRow => s' == s.(rows := s.rows[job := JobRow(user, "queued", 0, "")],
                                 converts := s.converts[job := ConvertRun(user, Publish)])
      case _ => true
  {
  }

  lemma DonePublish(s: State, job: string)
    requires job in s.converts && s.converts[job].pc.Publish?
    ensures Step(s, StepConvert(job, Done)) ==
      s.(sent := s.sent + {job}, converts := s.converts[job := ConvertRun(s.converts[job].user, Returned)])
  {
  }

  /**
   A conversion that the quota does not refuse, of a user with an account, and whose calls all succeed: the three
   entries live for five minutes, the row is queued, the message is sent, and nothing else has changed.
   */
  lemma AcceptedJobIsQueued(s: State, user: string, job: string, quotaRead: bool, outs: seq<Outcome>)
    requires job !in s.converts && job !in s.rows && user !in s.gone
    requires !(quotaRead && user in s.quotas
               && 0 < s.quotas[user].gifCount && s.quotas[user].gifLimit <= s.quotas[user].gifCount)
    requires |outs| == 8 && forall i :: 0 <= i < 5 ==> outs[i].Done?
    ensures Run(s, [StartConvert(user, job, quotaRead)] + ConvertSteps(job, outs)) ==
      s.(cache := s.cache[JobOwner(job) := Entry(user, s.now + 300_000)]
                         [JobStatus(job) := Entry("queued", s.now + 300_000)]
                         [JobGif(job) := Entry("queued", s.now + 300_000)],
         rows := s.rows[job := JobRow(user, "queued", 0, "")],
         sent := s.sent + {job},
         converts := s.converts[job := ConvertRun(user, Returned)])
  {
    hide Step, Run, ConvertSteps, ConvertEnds;
    assert !(quotaRead && AtLimit(s, user));
    hide AtLimit;
    var end := Run(s, [StartConvert(user, job, quotaRead)] + ConvertSteps(job, outs));
    StartedConvert(s, user, job, quotaRead, outs);
    var s0 := s.(converts := s.converts[job := ConvertRun(user, SetOwner)]);
    var s3 := EntriesAreSeeded(s0, user, job, outs, end);
    JobIsQueued(s3, user, job, outs, end);
    assert end.converts == s.converts[job := ConvertRun(user, Returned)];
  }

  lemma JobIsQueued(s3: State, user: string, job: string, outs: seq<Outcome>, end: State)
    requires job in s3.converts && s3.converts[job] == ConvertRun(user, CreateRow)
    requires job !in s3.rows && user !in s3.gone
    requires |outs| == 8 && outs[3].Done? && outs[4].Done?
    requires ConvertEnds(s3, job, outs, 3, end)
    ensures end == s3.(
      rows := s3.rows[job := JobRow(user, "queued", 0, "")], sent := s3.sent + {job},
      converts := s3.converts[job := ConvertRun(user, Returned)])
  {
    hide Run, Step, ConvertSteps, ConvertEnds;
    NextConvertCall(s3, job, outs, 3, end);
    DoneConvertCall(s3, job);
    var s4 := Step(s3, StepConvert(job, Done));
    NextConvertCall(s4, job, outs, 4, end);
    DonePublish(s4, job);
    var s5 := Step(s4, StepConvert(job, Done));
    ConvertHasEnded(s5, job, outs, 5, end);
    assert s5.converts == s3.converts[job := ConvertRun(user, Returned)];
  }

  lemma EntriesAreSeeded(s0: State, user: string, job: string, outs: seq<Outcome>, end: State) returns (s3: State)
    requires job in s0.converts && s0.converts[job] == ConvertRun(user, SetOwner)
    requires job !in s0.rows && user !in s0.gone
    requires |outs| == 8 && forall i :: 0 <= i < 3 ==> outs[i].Done?
    requires ConvertEnds(s0, job, outs, 0, end)
    ensures ConvertEnds(s3, job, outs, 3, end)
    ensures s3 == s0.(
      cache := s0.cache[JobOwner(job) := Entry(user, s0.now + 300_000)]
                       [JobStatus(job) := Entry("queued", s0.now + 300_000)]
                       [JobGif(job) := Entry("queued", s0.now + 300_000)],
      converts := s0.converts[job := ConvertRun(user, CreateRow)])
  {
    hide Run, Step, ConvertSteps, ConvertEnds;
    NextConvertCall(s0, job, outs, 0, end);
    DoneConvertCall(s0, job);
    var s1 := Step(s0, StepConvert(job, Done));
    NextConvertCall(s1, job, outs, 1, end);
    DoneConvertCall(s1, job);
    var s2 := Step(s1, StepConvert(job, Done));
    NextConvertCall(s2, job, outs, 2, end);
    DoneConvertCall(s2, job);
    s3 := Step(s2, StepConvert(job, Done));
    assert s3.converts == s0.converts[job := ConvertRun(user, CreateRow)];
  }

  /** The writes after a failed publish, one after the other. */
  lemma UndoCalls(s: State, job: string, o: Outcome)
    requires job in s.converts
    ensures var r, s' := s.converts[job], Step(s, StepConvert(job, o));
      match r.pc
      case UndoStatus => s' == s.(cache := Put(s.cache, JobStatus(job), "failed", s.now + 300_000, o),
                                  converts := s.converts[job := r.(pc := UndoGif)])
      case UndoGif => s' == s.(cache := Put(s.cache, JobGif(job), "failed", s.now + 300_000, o),
                               converts := s.converts[job := r.(pc := UndoRow)])
      case UndoRow => s' == s.(rows := RowSet(s.rows, job, "failed", 0, "", o),
                               converts := s.converts[job := r.(pc := Errored)])
      case Publish => s' == s.(sent := if o.Lost? then s.sent else s.sent + {job},
                               converts := s.converts[job := r.(pc := if o.Done? then Returned else UndoStatus)])
      case _ => true
  {
  }

  /** The clean-up leads here. */
  lemma UndoEnds(s: State, job: string, outs: seq<Outcome>, end: State)
    requires job in s.converts && s.converts[job].pc.UndoStatus?
    requires |outs| == 8 && ConvertEnds(s, job, outs, 5, end)
    ensures job in end.converts && end.converts[job].pc.Errored? && end.sent == s.sent
    ensures end.cache ==
      Put(Put(s.cache, JobStatus(job), "failed", s.now + 300_000, outs[5]),
          JobGif(job), "failed", s.now + 300_000, outs[6])
    ensures end.rows == RowSet(s.rows, job, "failed", 0, "", outs[7])
  {
    hide Step, Run, ConvertSteps, ConvertEnds, Put, RowSet;
    UndoCalls(s, job, outs[5]);
    NextConvertCall(s, job, outs, 5, end);
    var s6 := Step(s, StepConvert(job, outs[5]));
    UndoCalls(s6, job, outs[6]);
    NextConvertCall(s6, job, outs, 6, end);
    var s7 := Step(s6, StepConvert(job, outs[6]));
    UndoCalls(s7, job, outs[7]);
    NextConvertCall(s7, job, outs, 7, end);
    ConvertHasEnded(Step(s7, StepConvert(job, outs[7])), job, outs, 8, end);
  }

  lemma PublishIsUndone(s3: State, user: string, job: string, outs: seq<Outcome>, end: State)
    requires job in s3.converts && s3.converts[job] == ConvertRun(user, CreateRow)
    requires job !in s3.rows && user !in s3.gone
    requires |outs| == 8 && outs[3].Done? && !outs[4].Done? && ConvertEnds(s3, job, outs, 3, end)
    ensures job in end.converts && end.converts[job].pc.Errored?
    ensures end.sent == if outs[4].Lost? then s3.sent else s3.sent + {job}
    ensures end.cache ==
      Put(Put(s3.cache, JobStatus(job), "failed", s3.now + 300_000, outs[5]),
          JobGif(job), "failed", s3.now + 300_000, outs[6])
    ensures end.rows == RowSet(s3.rows[job := JobRow(user, "queued", 0, "")], job, "failed", 0, "", outs[7])
  {
    hide Step, Run, ConvertSteps, ConvertEnds, Put, RowSet;
    DoneConvertCall(s3, job);
    NextConvertCall(s3, job, outs, 3, end);
    var s4 := Step(s3, StepConvert(job, outs[3]));
    UndoCalls(s4, job, outs[4]);
    NextConvertCall(s4, job, outs, 4, end);
    UndoEnds(Step(s4, StepConvert(job, outs[4])), job, outs, end);
  }

  /**
   A conversion whose message could not be published for sure: the status and the GIF entry say "failed" and the row
   is failed, each if its own write is not lost, and the call has failed.
   */
  lemma FailedPublishIsUndone(s: State, user: string, job: string, quotaRead: bool, outs: seq<Outcome>)
    requires job !in s.converts && job !in s.rows && user !in s.gone
    requires !(quotaRead && user in s.quotas
               && 0 < s.quotas[user].gifCount && s.quotas[user].gifLimit <= s.quotas[user].gifCount)
    requires |outs| == 8 && (forall i :: 0 <= i < 4 ==> outs[i].Done?) && !outs[4].Done?
    ensures var end := Run(s, [StartConvert(user, job, quotaRead)] + ConvertSteps(job, outs));
      && job in end.converts && end.converts[job].pc.Errored?
      && (job in end.sent <==> job in s.sent || outs[4].Unsure?)
      && JobStatus(job) in end.cache && JobGif(job) in end.cache && job in end.rows
      && end.cache[JobStatus(job)] == Entry(if outs[5].Lost? then "queued" else "failed", s.now + 300_000)
      && end.cache[JobGif(job)] == Entry(if outs[6].Lost? then "queued" else "failed", s.now + 300_000)
      && end.rows[job] == JobRow(user, if outs[7].Lost? then "queued" else "failed", 0, "")
  {
    hide Step, Run, ConvertSteps, ConvertEnds;
    assert !(quotaRead && AtLimit(s, user));
    hide AtLimit;
    var end := Run(s, [StartConvert(user, job, quotaRead)] + ConvertSteps(job, outs));
    StartedConvert(s, user, job, quotaRead, outs);
    var s0 := s.(converts := s.converts[job := ConvertRun(user, SetOwner)]);
    var s3 := EntriesAreSeeded(s0, user, job, outs, end);
    PublishIsUndone(s3, user, job, outs, end);
  }

  lemma UndoneRowIs(rows: map<string, JobRow>, job: string, o: Outcome)
    ensures job in rows && !o.Lost? ==>
      var rows' := RowSet(rows, job, "failed", 0, "", o);
      job in rows' && rows'[job] == JobRow(rows[job].user, "failed", 0, "")
  {
  }

  // ---------- a conversion carried out ----------

  lemma NextProcessCall(s: State, p: nat, outs: seq<Outcome>, newKey: string, i: nat, end: State)
    requires i < |outs| && ProcessEnds(s, p, outs, newKey, i, end)
    ensures ProcessEnds(Step(s, StepProcess(p, outs[i], newKey)), p, outs, newKey, i + 1, end)
  {
    hide Step;
    assert outs[i..][1..] == outs[i + 1..];
  }

  /** Everything but the run `p` itself and the stores is as before. */
  ghost predicate OnlyMoves(s: State, s': State, p: nat, r: ProcessRun) {
    && s'.runs == s.runs[p := r] && s'.now == s.now && s'.gone == s.gone
    && s'.converts == s.converts && s'.sent == s.sent
  }

  lemma StepIsCall(s: State, p: nat, o: Outcome, newKey: string)
    requires p in s.runs
    ensures var r := s.runs[p];
      var settled := Settled(s, ProcessCall(r), o);
      Step(s, StepProcess(p, o, newKey)) ==
        Perform(s, ProcessCall(r), settled).(runs := s.runs[p := Advanced(r, settled, newKey)])
  {
    hide Perform, ProcessCall, Settled, Advanced;
  }

  /** A call that writes an entry, and only that. */
  lemma EntryCall(s: State, p: nat, o: Outcome, newKey: string)
    requires p in s.runs
    ensures var r, s' := s.runs[p], Step(s, StepProcess(p, o, newKey));
      match r.pc
      case MarkStatus =>
        && OnlyMoves(s, s', p, r.(pc := if o.Done? then MarkRow else Stopped))
        && s'.cache == Put(s.cache, JobStatus(r.job), "processing", s.now + 600_000, o)
        && s'.rows == s.rows && s'.gifs == s.gifs && s'.quotas == s.quotas
      case StoreGif =>
        && OnlyMoves(s, s', p, r.(pc := if o.Done? then Complete else Stopped))
        && s'.cache == Put(s.cache, JobGif(r.job), GifOf(r), s.now + 300_000, o)
        && s'.rows == s.rows && s'.gifs == s.gifs && s'.quotas == s.quotas
      case Complete =>
        && OnlyMoves(s, s', p, r.(pc := if o.Done? then CompleteRow else Stopped))
        && s'.cache == Put(s.cache, JobStatus(r.job), "completed", s.now + 300_000, o)
        && s'.rows == s.rows && s'.gifs == s.gifs && s'.quotas == s.quotas
      case FailStatus =>
        && OnlyMoves(s, s', p, r.(pc := Stopped))
        && s'.cache == Put(s.cache, JobStatus(r.job), "failed", s.now + 300_000, o)
        && s'.rows == s.rows && s'.gifs == s.gifs && s'.quotas == s.quotas
      case _ => true
  {
    StepIsCall(s, p, o, newKey);
    StoreFrame(s, ProcessCall(s.runs[p]), Settled(s, ProcessCall(s.runs[p]), o));
    hide Step, Perform, GifOf;
  }

  lemma StoreFrame(s: State, c: Call, o: Outcome)
    ensures var s' := Perform(s, c, o);
      && s'.now == s.now && s'.converts == s.converts && s'.gone == s.gone
      && (!c.InsertGif? && !c.IncrementUsage? ==> s'.gifs == s.gifs && s'.quotas == s.quotas)
      && (c.SetEntry? ==>
            && s'.cache == Put(s.cache, c.k, c.value, s.now + c.ttl, o)
            && s'.rows == s.rows && s'.sent == s.sent)
      && (c.UpdateRow? ==>
            && s'.rows == RowSet(s.rows, c.job, c.status, c.progress, c.key, o)
            && s'.cache == s.cache && s'.sent == s.sent)
      && (c.TranscodeVideo? ==> s' == s)
  {
    hide HasRoom, Incremented, Put;
    PerformFrame(s, c, o);
    CallWrites(s, c, o);
  }

  /** A call that updates the row, whose failure nobody looks at, or asks the transcoder. */
  lemma RowCall(s: State, p: nat, o: Outcome, newKey: string)
    requires p in s.runs
    ensures var r, s' := s.runs[p], Step(s, StepProcess(p, o, newKey));
      match r.pc
      case MarkRow =>
        && OnlyMoves(s, s', p, r.(pc := Transcode))
        && s'.rows == RowSet(s.rows, r.job, "processing", 20, "", o)
        && s'.cache == s.cache && s'.gifs == s.gifs && s'.quotas == s.quotas
      case FailRow =>
        && OnlyMoves(s, s', p, r.(pc := FailStatus))
        && s'.rows == RowSet(s.rows, r.job, "failed", 0, "", o)
        && s'.cache == s.cache && s'.gifs == s.gifs && s'.quotas == s.quotas
      case CompleteRow =>
        && OnlyMoves(s, s', p, r.(pc := CreateGif))
        && s'.rows == RowSet(s.rows, r.job, "done", 100, GifOf(r), o)
        && s'.cache == s.cache && s'.gifs == s.gifs && s'.quotas == s.quotas
      case Transcode =>
        && OnlyMoves(s, s', p,
             if o.Done? then r.(pc := StoreGif, gif := Some(newKey + "_output.gif")) else r.(pc := FailRow))
        && s'.rows == s.rows && s'.cache == s.cache && s'.gifs == s.gifs && s'.quotas == s.quotas
      case _ => true
  {
    StepIsCall(s, p, o, newKey);
    StoreFrame(s, ProcessCall(s.runs[p]), Settled(s, ProcessCall(s.runs[p]), o));
    hide Step, Perform, GifOf, RowSet;
  }

  /** The insertion fails for a key that exists and for a deleted account. */
  lemma InsertionCall(s: State, p: nat, o: Outcome, newKey: string)
    requires p in s.runs && s.runs[p].pc.CreateGif?
    ensures var r, s' := s.runs[p], Step(s, StepProcess(p, o, newKey));
      var may := GifOf(r) !in s.gifs && r.user !in s.gone;
      && OnlyMoves(s, s', p, r.(pc := if may && o.Done? then CountGif else FailStatus))
      && s'.gifs == (if may && !o.Lost? then s.gifs[GifOf(r) := r.user] else s.gifs)
      && s'.rows == s.rows && s'.cache == s.cache && s'.quotas == s.quotas
  {
    StepIsCall(s, p, o, newKey);
    hide Step, GifOf, HasRoom, Incremented;
  }

  /** The quota rows after one more GIF: the count goes up exactly if it and the bytes stay in their limits. */
  function Recorded(quotas: map<string, Quota>, user: string, o: Outcome): map<string, Quota> {
    if !o.Lost? && user in quotas
      && quotas[user].usedBytes <= quotas[user].totalBytes && quotas[user].gifCount + 1 <= quotas[user].gifLimit
    then quotas[user := quotas[user].(gifCount := quotas[user].gifCount + 1)]
    else quotas
  }

  lemma CountingCall(s: State, p: nat, o: Outcome, newKey: string)
    requires p in s.runs && s.runs[p].pc.CountGif?
    ensures var r, s' := s.runs[p], Step(s, StepProcess(p, o, newKey));
      && OnlyMoves(s, s', p, r.(pc := if o.Done? then Finished else FailStatus))
      && s'.quotas == Recorded(s.quotas, r.user, o)
      && s'.rows == s.rows && s'.cache == s.cache && s'.gifs == s.gifs
  {
    StepIsCall(s, p, o, newKey);
    CountingPerformed(s, s.runs[p].user, o);
    GifCallFrame(s, IncrementUsage(s.runs[p].user), o);
    hide Step, Perform, Recorded;
  }

  lemma CountingPerformed(s: State, user: string, o: Outcome)
    ensures var s' := Perform(s, IncrementUsage(user), o);
      s'.quotas == Recorded(s.quotas, user, o) && s'.gifs == s.gifs
  {
    hide Note;
  }

  /** The run `p` of `job` got to `pc`, the `i`-th of its calls, in state `s`; its script leads to `end`. */
  ghost predicate IsAt(
    s: State, p: nat, r: ProcessRun, outs: seq<Outcome>, newKey: string, i: nat, end: State)
  {
    p in s.runs && s.runs[p] == r && |outs| == 9 && ProcessEnds(s, p, outs, newKey, i, end)
  }

  /** The last call of a run that failed. */
  lemma FailureIsTold(s: State, p: nat, r: ProcessRun, outs: seq<Outcome>, newKey: string, i: nat, end: State)
    requires IsAt(s, p, r, outs, newKey, i, end) && r.pc.FailStatus? && i < 9
    ensures OnlyMoves(s, end, p, r.(pc := Stopped))
    ensures end.cache == Put(s.cache, JobStatus(r.job), "failed", s.now + 300_000, outs[i])
    ensures end.rows == s.rows && end.gifs == s.gifs && end.quotas == s.quotas
  {
    hide Step, Run, Put, ProcessSteps, ProcessEnds;
    EntryCall(s, p, outs[i], newKey);
    NextProcessCall(s, p, outs, newKey, i, end);
    ProcessHasEnded(Step(s, StepProcess(p, outs[i], newKey)), p, outs, newKey, i + 1, end);
  }

  /** The transcoder failed: the row and then the entry say so. */
  lemma FailedTranscodingEnds(s: State, p: nat, r: ProcessRun, outs: seq<Outcome>, newKey: string, end: State)
    requires IsAt(s, p, r, outs, newKey, 3, end) && r.pc.FailRow?
    ensures OnlyMoves(s, end, p, r.(pc := Stopped))
    ensures end.cache == Put(s.cache, JobStatus(r.job), "failed", s.now + 300_000, outs[4])
    ensures end.rows == RowSet(s.rows, r.job, "failed", 0, "", outs[3])
    ensures end.gifs == s.gifs && end.quotas == s.quotas
  {
    hide Step, Run, Put, RowSet, ProcessSteps, ProcessEnds;
    RowCall(s, p, outs[3], newKey);
    NextProcessCall(s, p, outs, newKey, 3, end);
    FailureIsTold(Step(s, StepProcess(p, outs[3], newKey)), p, r.(pc := FailStatus), outs, newKey, 4, end);
  }

  /** From the increment on. */
  lemma CountingEnds(s: State, p: nat, r: ProcessRun, outs: seq<Outcome>, newKey: string, end: State)
    requires IsAt(s, p, r, outs, newKey, 7, end) && r.pc.CountGif?
    ensures OnlyMoves(s, end, p, r.(pc := if outs[7].Done? then Finished else Stopped))
    ensures end.rows == s.rows && end.gifs == s.gifs && end.quotas == Recorded(s.quotas, r.user, outs[7])
    ensures end.cache ==
      if outs[7].Done? then s.cache else Put(s.cache, JobStatus(r.job), "failed", s.now + 300_000, outs[8])
  {
    hide Step, Run, Put, Recorded, ProcessSteps, ProcessEnds;
    CountingCall(s, p, outs[7], newKey);
    NextProcessCall(s, p, outs, newKey, 7, end);
    var s' := Step(s, StepProcess(p, outs[7], newKey));
    if outs[7].Done? {
      ProcessHasEnded(s', p, outs, newKey, 8, end);
    } else {
      FailureIsTold(s', p, r.(pc := FailStatus), outs, newKey, 8, end);
    }
  }

  /** From the insertion on. */
  lemma RecordingEnds(s: State, p: nat, r: ProcessRun, outs: seq<Outcome>, newKey: string, end: State)
    requires IsAt(s, p, r, outs, newKey, 6, end) && r.pc.CreateGif?
    ensures var may := GifOf(r) !in s.gifs && r.user !in s.gone;
      var inserted := may && outs[6].Done?;
      && OnlyMoves(s, end, p, r.(pc := if inserted && outs[7].Done? then Finished else Stopped))
      && end.rows == s.rows
      && end.gifs == (if may && !outs[6].Lost? then s.gifs[GifOf(r) := r.user] else s.gifs)
      && end.quotas == (if inserted then Recorded(s.quotas, r.user, outs[7]) else s.quotas)
      && end.cache ==
        (if inserted && outs[7].Done? then s.cache
         else Put(s.cache, JobStatus(r.job), "failed", s.now + 300_000, if inserted then outs[8] else outs[7]))
  {
    hide Step, Run, Put, Recorded, ProcessSteps, ProcessEnds, GifOf;
    InsertionCall(s, p, outs[6], newKey);
    NextProcessCall(s, p, outs, newKey, 6, end);
    var s' := Step(s, StepProcess(p, outs[6], newKey));
    var may := GifOf(r) !in s.gifs && r.user !in s.gone;
    if !(may && outs[6].Done?) {
      FailureIsTold(s', p, r.(pc := FailStatus), outs, newKey, 7, end);
    } else {
      CountingEnds(s', p, r.(pc := CountGif), outs, newKey, end);
    }
  }

  /** From the finished transcoding to the insertion, if both entries can be written. */
  lemma PublishingLeads(s: State, p: nat, r: ProcessRun, outs: seq<Outcome>, newKey: string, end: State)
    returns (s': State)
    requires IsAt(s, p, r, outs, newKey, 3, end) && r.pc.StoreGif?
    ensures !(outs[3].Done? && outs[4].Done?) ==>
      && OnlyMoves(s, end, p, r.(pc := Stopped))
      && end.rows == s.rows && end.gifs == s.gifs && end.quotas == s.quotas
    ensures outs[3].Done? && outs[4].Done? ==>
      && IsAt(s', p, r.(pc := CreateGif), outs, newKey, 6, end) && OnlyMoves(s, s', p, r.(pc := CreateGif))
      && s'.cache == s.cache[JobGif(r.job) := Entry(GifOf(r), s.now + 300_000)]
                            [JobStatus(r.job) := Entry("completed", s.now + 300_000)]
      && s'.rows == RowSet(s.rows, r.job, "done", 100, GifOf(r), outs[5])
      && s'.gifs == s.gifs && s'.quotas == s.quotas
  {
    hide Step, Run, RowSet, ProcessSteps, ProcessEnds;
    EntryCall(s, p, outs[3], newKey);
    NextProcessCall(s, p, outs, newKey, 3, end);
    s' := Step(s, StepProcess(p, outs[3], newKey));
    if !outs[3].Done? {
      ProcessHasEnded(s', p, outs, newKey, 4, end);
      return;
    }
    EntryCall(s', p, outs[4], newKey);
    NextProcessCall(s', p, outs, newKey, 4, end);
    s' := Step(s', StepProcess(p, outs[4], newKey));
    if !outs[4].Done? {
      ProcessHasEnded(s', p, outs, newKey, 5, end);
      return;
    }
    RowCall(s', p, outs[5], newKey);
    NextProcessCall(s', p, outs, newKey, 5, end);
    s' := Step(s', StepProcess(p, outs[5], newKey));
  }

  /** A delivered message whose first entry can be written gets to the transcoder. */
  lemma TranscoderIsAsked(s: State, p: nat, job: string, outs: seq<Outcome>, newKey: string, end: State)
    returns (s': State, r: ProcessRun)
    requires p !in s.runs && job in s.sent && job in s.converts && |outs| == 9
    requires end == Run(s, [Deliver(p, job)] + ProcessSteps(p, outs, newKey))
    ensures r == ProcessRun(job, s.converts[job].user, Transcode, None)
    ensures !outs[0].Done? ==>
      && OnlyMoves(s, end, p, r.(pc := Stopped))
      && end.rows == s.rows && end.gifs == s.gifs && end.quotas == s.quotas
    ensures outs[0].Done? ==>
      && IsAt(s', p, r, outs, newKey, 2, end) && OnlyMoves(s, s', p, r)
      && s'.cache == s.cache[JobStatus(job) := Entry("processing", s.now + 600_000)]
      && s'.rows == RowSet(s.rows, job, "processing", 20, "", outs[1])
      && s'.gifs == s.gifs && s'.quotas == s.quotas
  {
    hide Step, RowSet, Run, ProcessSteps, ProcessEnds;
    r := ProcessRun(job, s.converts[job].user, Transcode, None);
    s' := s.(runs := s.runs[p := r.(pc := MarkStatus)]);
    DeliveryStarts(s, p, job, outs, newKey);
    EntryCall(s', p, outs[0], newKey);
    NextProcessCall(s', p, outs, newKey, 0, end);
    s' := Step(s', StepProcess(p, outs[0], newKey));
    if !outs[0].Done? {
      ProcessHasEnded(s', p, outs, newKey, 1, end);
      return;
    }
    RowCall(s', p, outs[1], newKey);
    NextProcessCall(s', p, outs, newKey, 1, end);
    s' := Step(s', StepProcess(p, outs[1], newKey));
  }

  lemma DeliveryStarts(s: State, p: nat, job: string, outs: seq<Outcome>, newKey: string)
    requires p !in s.runs && job in s.sent && job in s.converts && |outs| == 9
    ensures var s' := s.(runs := s.runs[p := ProcessRun(job, s.converts[job].user, MarkStatus, None)]);
      ProcessEnds(s', p, outs, newKey, 0, Run(s, [Deliver(p, job)] + ProcessSteps(p, outs, newKey)))
  {
    var script := ProcessSteps(p, outs, newKey);
    assert ([Deliver(p, job)] + script)[1..] == script && outs[0..] == outs;
  }

  lemma LastRowCounts(
    rows: map<string, JobRow>, job: string, status: string, progress: int, key: string, o: Outcome, o': Outcome)
    requires job in rows && !o'.Lost?
    ensures var rows' := RowSet(RowSet(rows, job, "processing", 20, "", o), job, status, progress, key, o');
      job in rows' && rows'[job] == JobRow(rows[job].user, status, progress, key)
  {
  }

  /** The calls that must succeed before the GIF can be inserted: the first entry, the transcoder, two entries. */
  predicate ReachesInsertion(outs: seq<Outcome>)
    requires |outs| == 9
  {
    outs[0].Done? && outs[2].Done? && outs[3].Done? && outs[4].Done?
  }

  /**
   A transcoding that fails: the row and the status entry end at "failed", each if its own write is not lost, and
   no GIF and no quota row changes.
   */
  lemma FailedTranscodingIsTold(s: State, p: nat, job: string, outs: seq<Outcome>, newKey: string)
    requires p !in s.runs && job in s.sent && job in s.converts && |outs| == 9
    requires outs[0].Done? && !outs[2].Done?
    ensures var end := Run(s, [Deliver(p, job)] + ProcessSteps(p, outs, newKey));
      && p in end.runs && end.runs[p].pc.Stopped? && end.runs[p].gif.None?
      && end.gifs == s.gifs && end.quotas == s.quotas
      && JobStatus(job) in end.cache
      && end.cache[JobStatus(job)] ==
           (if outs[4].Lost? then Entry("processing", s.now + 600_000) else Entry("failed", s.now + 300_000))
      && (job in s.rows && !outs[3].Lost? ==>
            job in end.rows && end.rows[job] == JobRow(s.rows[job].user, "failed", 0, ""))
  {
    hide Step, Run, ProcessSteps, ProcessEnds;
    var end := Run(s, [Deliver(p, job)] + ProcessSteps(p, outs, newKey));
    var s', r := TranscoderIsAsked(s, p, job, outs, newKey, end);
    RowCall(s', p, outs[2], newKey);
    NextProcessCall(s', p, outs, newKey, 2, end);
    FailedTranscodingEnds(Step(s', StepProcess(p, outs[2], newKey)), p, r.(pc := FailRow), outs, newKey, end);
  }

  /**
   A run that ends before its insertion without a failed transcoding: it just stops, and no GIF and no quota row
   changes.
   */
  lemma UnpublishedConversionStops(s: State, p: nat, job: string, outs: seq<Outcome>, newKey: string)
    requires p !in s.runs && job in s.sent && job in s.converts && |outs| == 9
    requires !ReachesInsertion(outs) && (outs[0].Done? ==> outs[2].Done?)
    ensures var end := Run(s, [Deliver(p, job)] + ProcessSteps(p, outs, newKey));
      && p in end.runs && end.runs[p].pc.Stopped? && end.gifs == s.gifs && end.quotas == s.quotas
      && (job in s.rows && outs[0].Done? && !outs[1].Lost? ==>
            job in end.rows && end.rows[job] == JobRow(s.rows[job].user, "processing", 20, ""))
  {
    hide Step, Run, ProcessSteps, ProcessEnds;
    var end := Run(s, [Deliver(p, job)] + ProcessSteps(p, outs, newKey));
    var s', r := TranscoderIsAsked(s, p, job, outs, newKey, end);
    if outs[0].Done? {
      RowCall(s', p, outs[2], newKey);
      NextProcessCall(s', p, outs, newKey, 2, end);
      var converted := r.(pc := StoreGif, gif := Some(newKey + "_output.gif"));
      var _ := PublishingLeads(Step(s', StepProcess(p, outs[2], newKey)), p, converted, outs, newKey, end);
    }
  }

  /** The stores after a run that gets to its insertion, call by call. */
  lemma StoresOfPublished(s: State, p: nat, job: string, outs: seq<Outcome>, newKey: string)
    requires p !in s.runs && job in s.sent && job in s.converts && |outs| == 9 && ReachesInsertion(outs)
    ensures var end := Run(s, [Deliver(p, job)] + ProcessSteps(p, outs, newKey));
      var user, key := s.converts[job].user, newKey + "_output.gif";
      var may := key !in s.gifs && user !in s.gone;
      var inserted := may && outs[6].Done?;
      var finished := inserted && outs[7].Done?;
      var completed :=
        s.cache[JobStatus(job) := Entry("processing", s.now + 600_000)]
               [JobGif(job) := Entry(key, s.now + 300_000)]
               [JobStatus(job) := Entry("completed", s.now + 300_000)];
      && p in end.runs && end.runs[p].pc == (if finished then Finished else Stopped)
      && end.cache ==
           (if finished then completed
            else Put(completed, JobStatus(job), "failed", s.now + 300_000, if inserted then outs[8] else outs[7]))
      && end.rows == RowSet(RowSet(s.rows, job, "processing", 20, "", outs[1]), job, "done", 100, key, outs[5])
      && end.gifs == (if may && !outs[6].Lost? then s.gifs[key := user] else s.gifs)
      && end.quotas == (if inserted then Recorded(s.quotas, user, outs[7]) else s.quotas)
  {
    hide Step, Run, ProcessSteps, ProcessEnds, RowSet, Recorded, Put;
    var end := Run(s, [Deliver(p, job)] + ProcessSteps(p, outs, newKey));
    var s', r := TranscoderIsAsked(s, p, job, outs, newKey, end);
    RowCall(s', p, outs[2], newKey);
    NextProcessCall(s', p, outs, newKey, 2, end);
    var converted := r.(pc := StoreGif, gif := Some(newKey + "_output.gif"));
    var s'' := PublishingLeads(Step(s', StepProcess(p, outs[2], newKey)), p, converted, outs, newKey, end);
    RecordingEnds(s'', p, converted.(pc := CreateGif), outs, newKey, end);
  }

  /**
   A run that gets to its insertion: the entries say "completed" and name the GIF, and the row is done. It finishes
   exactly if the insertion and the increment succeed; if not, the status entry says "failed" instead, unless that
   write is lost. The GIF is its user's, and the quota row counts it exactly if it has room.
   */
  lemma PublishedConversionEnds(s: State, p: nat, job: string, outs: seq<Outcome>, newKey: string)
    requires p !in s.runs && job in s.sent && job in s.converts && |outs| == 9 && ReachesInsertion(outs)
    ensures var end := Run(s, [Deliver(p, job)] + ProcessSteps(p, outs, newKey));
      var user, key := s.converts[job].user, newKey + "_output.gif";
      var may := key !in s.gifs && user !in s.gone;
      var inserted := may && outs[6].Done?;
      var finished := inserted && outs[7].Done?;
      var told := !finished && !(if inserted then outs[8] else outs[7]).Lost?;
      && p in end.runs && end.runs[p].pc == (if finished then Finished else Stopped)
      && JobStatus(job) in end.cache && JobGif(job) in end.cache
      && end.cache[JobStatus(job)] == Entry(if told then "failed" else "completed", s.now + 300_000)
      && end.cache[JobGif(job)] == Entry(key, s.now + 300_000)
      && (job in s.rows && !outs[5].Lost? ==>
            job in end.rows && end.rows[job] == JobRow(s.rows[job].user, "done", 100, key))
      && end.gifs == (if may && !outs[6].Lost? then s.gifs[key := user] else s.gifs)
      && end.quotas.Keys == s.quotas.Keys
      && (forall u :: u in s.quotas ==>
            var q := s.quotas[u];
            end.quotas[u] ==
              if u == user && inserted && !outs[7].Lost? && q.usedBytes <= q.totalBytes && q.gifCount < q.gifLimit
              then q.(gifCount := q.gifCount + 1) else q)
  {
    hide Step, Run, ProcessSteps;
    StoresOfPublished(s, p, job, outs, newKey);
    if job in s.rows && !outs[5].Lost? {
      LastRowCounts(s.rows, job, "done", 100, newKey + "_output.gif", outs[1], outs[5]);
    }
    hide RowSet;
  }
}
