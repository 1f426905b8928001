/**
 `Convert` and `Process` as the services run them: one store call after another, stopping or undoing
 where they do. Each is proved to be a run of the conversion machine, so everything proved of the
 machine's interleavings holds of these bodies.
 */
module ConversionService {
  import opened Prelude
  import opened Cache
  import opened Conversion
  import opened ConversionScripts
  import opened Keys

  datatype ConvertError = OwnerMismatch | QuotaExceeded | CacheSetFailed | RowFailed | QueueFailed

  datatype ProcessError = CacheFailed | TranscodeFailed | GifFailed | QuotaFailed

  class MediaService {
    const cache: RedisCache
    var rows: map<string, JobRow>
    var sent: set<string>
    var gifs: map<string, string>
    var quotas: map<string, Quota>
    /** Deleted accounts, which the foreign keys no longer find. */
    var gone: set<string>
    var now: int
    /** The machine's state: the stores above, and the calls under way. */
    ghost var state: State

    ghost predicate Valid()
      reads this, cache
    {
      && cache.Valid()
      && state.cache == cache.entries && state.rows == rows && state.sent == sent
      && state.gifs == gifs && state.quotas == quotas && state.gone == gone && state.now == now
    }

    /** The machine's stores are the service's. */
    lemma StoresAre()
      requires Valid()
      ensures state.cache == cache.entries && state.rows == rows && state.sent == sent
      ensures state.gifs == gifs && state.quotas == quotas && state.gone == gone && state.now == now
    {
    }

    constructor (now: int)
      ensures Valid() && fresh(cache) && state == Initial(now)
    {
      cache := new RedisCache();
      rows, sent, gifs, quotas, gone, this.now := map[], {}, map[], map[], {}, now;
      state := Initial(now);
    }

    // ---------- repositories ----------

    method SetEntry(k: CacheKey, value: string, ttl: int, o: Outcome) returns (ok: bool)
      requires Valid()
      modifies this, cache
      ensures Valid() && ok == o.Done?
      ensures state == Perform(old(state), Call.SetEntry(k, value, ttl), o)
      ensures rows == old(rows) && gifs == old(gifs) && quotas == old(quotas) && gone == old(gone)
    {
      ok := cache.Set(k, value, ttl, now, o);
      state := Perform(state, Call.SetEntry(k, value, ttl), o);
    }

    method CreateJob(job: string, user: string, o: Outcome) returns (ok: bool)
      requires Valid()
      modifies this
      ensures Valid()
      ensures ok <==> o.Done? && (job in old(rows) || user !in old(gone))
      ensures gone == old(gone) && quotas == old(quotas)
      ensures rows ==
        if o.Lost? || (job !in old(rows) && user in old(gone)) then old(rows)
        else old(rows)[job := JobRow(if job in old(rows) then old(rows)[job].user else user, "queued", 0, "")]
      ensures var settled := Settled(old(state), InsertRow(job, user), o);
        && ok == settled.Done?
        && state == Perform(old(state), InsertRow(job, user), settled)
    {
      ok := (job in rows || user !in gone) && o.Done?;
      if !o.Lost? {
        if job in rows {
          rows := rows[job := rows[job].(status := QUEUED, progress := 0, resultKey := "")];
        } else if user !in gone {
          rows := rows[job := JobRow(user, QUEUED, 0, "")];
        }
      }
      state := Perform(state, InsertRow(job, user), Settled(state, InsertRow(job, user), o));
    }

    method UpdateStatus(job: string, status: string, progress: int, key: string, o: Outcome)
      requires Valid()
      modifies this
      ensures Valid()
      ensures state == Perform(old(state), UpdateRow(job, status, progress, key), o)
      ensures gifs == old(gifs) && quotas == old(quotas) && gone == old(gone)
      ensures rows ==
        if o.Lost? || job !in old(rows) then old(rows)
        else old(rows)[job := JobRow(old(rows)[job].user, status, progress, key)]
    {
      if !o.Lost? && job in rows {
        rows := rows[job := rows[job].(status := status, progress := progress, resultKey := key)];
      }
      state := Perform(state, UpdateRow(job, status, progress, key), o);
    }

    method PublishVideo(job: string, o: Outcome) returns (ok: bool)
      requires Valid()
      modifies this
      ensures Valid() && ok == o.Done?
      ensures state == Perform(old(state), Send(job), o)
    {
      if !o.Lost? {
        sent := sent + {job};
      }
      ok := o.Done?;
      state := Perform(state, Send(job), o);
    }

    method CreateGif(user: string, key: string, o: Outcome) returns (ok: bool)
      requires Valid()
      modifies this
      ensures Valid()
      ensures ok <==> o.Done? && key !in old(gifs) && user !in old(gone)
      ensures gifs == if o.Lost? || key in old(gifs) || user in old(gone) then old(gifs) else old(gifs)[key := user]
      ensures var settled := Settled(old(state), InsertGif(user, key), o);
        && ok == settled.Done?
        && state == Perform(old(state), InsertGif(user, key), settled)
    {
      ok := key !in gifs && user !in gone && o.Done?;
      if key !in gifs && user !in gone && !o.Lost? {
        gifs := gifs[key := user];
      }
      state := Perform(state, InsertGif(user, key), Settled(state, InsertGif(user, key), o));
    }

    /** One conditional UPDATE: both counters move together or not at all. */
    method IncrementUsage(user: string, addBytes: nat, addGifCount: nat, o: Outcome) returns (r: Option<bool>)
      requires Valid()
      modifies this
      ensures var q := old(quotas);
        var fits := user in q && q[user].usedBytes + addBytes <= q[user].totalBytes
                    && q[user].gifCount + addGifCount <= q[user].gifLimit;
        && r == (if o.Done? then Some(fits) else None)
        && quotas ==
             if !o.Lost? && fits
             then q[user := Quota(q[user].usedBytes + addBytes, q[user].totalBytes,
                                  q[user].gifCount + addGifCount, q[user].gifLimit)]
             else q
      ensures addBytes == 0 && addGifCount == 1 ==>
        Valid() && state == Perform(old(state), Call.IncrementUsage(user), o)
    {
      var affected := 0;
      if !o.Lost? && user in quotas {
        var q := quotas[user];
        if q.usedBytes + addBytes <= q.totalBytes && q.gifCount + addGifCount <= q.gifLimit {
          quotas := quotas[user := q.(usedBytes := q.usedBytes + addBytes, gifCount := q.gifCount + addGifCount)];
          affected := 1;
        }
      }
      r := if o.Done? then Some(affected > 0) else None;
      state := Perform(state, Call.IncrementUsage(user), o);
    }

    // ---------- services ----------

    /**
     `job` is the fresh job id, `quotaRead` tells whether the quota row could be read, and `outs` how the
     store calls end, in order; calls that are not made ignore their entry.
     */
    method Convert(user: string, key: string, job: string, quotaRead: bool, outs: seq<Outcome>)
      returns (r: Result<string, ConvertError>)
      requires Valid() && job !in state.converts && |outs| == 8
      modifies this, cache
      ensures Valid()
      ensures r == Err(OwnerMismatch) <==> ':' in key && !(user + ":" <= key)
      ensures r == Err(OwnerMismatch) ==> state == old(state)
      ensures r != Err(OwnerMismatch) ==>
        state == Run(old(state), [StartConvert(user, job, quotaRead)] + ConvertSteps(job, outs))
      ensures var mine := ':' !in key || user + ":" <= key;
        var full := quotaRead && user in old(quotas)
                    && 0 < old(quotas)[user].gifCount && old(quotas)[user].gifCount >= old(quotas)[user].gifLimit;
        var seeded := outs[0].Done? && outs[1].Done? && outs[2].Done?;
        var filed := outs[3].Done? && (job in old(rows) || user !in old(gone));
        && (r == Err(QuotaExceeded) <==> mine && full)
        && (r == Err(CacheSetFailed) <==> mine && !full && !seeded)
        && (r == Err(RowFailed) <==> mine && !full && seeded && !filed)
        && (r == Err(QueueFailed) <==> mine && !full && seeded && filed && !outs[4].Done?)
        && (r.Ok? <==> mine && !full && seeded && filed && outs[4].Done?)
      ensures r.Ok? && job !in old(rows) ==>
        && job in sent && rows == old(rows)[job := JobRow(user, "queued", 0, "")]
        && cache.entries == old(cache.entries)[JobOwner(job) := Entry(user, old(now) + 300_000)]
                                              [JobStatus(job) := Entry("queued", old(now) + 300_000)]
                                              [JobGif(job) := Entry("queued", old(now) + 300_000)]
      ensures r.Ok? ==> r.value == "queued"
      ensures r.Ok? <==> job in state.converts && state.converts[job].pc.Returned?
    {
      hide Valid, Run, ConvertSteps, ConvertEnds, Perform, Step;
      StoresAre();
      ghost var before := state;
      if ':' in key && !(user + ":" <= key) {
        return Err(OwnerMismatch);
      }
      ghost var end := BeginConvert(user, job, quotaRead, outs);
      if quotaRead && user in quotas {
        var quota := quotas[user];
        if quota.gifCount > 0 && quota.gifCount >= quota.gifLimit {
          return Err(QuotaExceeded);
        }
      }
      var ok := SeedEntries(user, job, outs, end);
      if !ok {
        return Err(CacheSetFailed);
      }

      r := QueueJob(user, job, outs, end);
      if r.Ok? && job !in before.rows {
        AcceptedJobIsQueued(before, user, job, quotaRead, outs);
        StoresAre();
      }
    }

    /** The job row and the message; a failed publish is undone as far as the stores allow. */
    method QueueJob(user: string, job: string, outs: seq<Outcome>, ghost end: State)
      returns (r: Result<string, ConvertError>)
      requires Valid() && |outs| == 8
      requires job in state.converts && state.converts[job] == ConvertRun(user, CreateRow)
      requires ConvertEnds(state, job, outs, 3, end)
      modifies this, cache
      ensures Valid() && state == end
      ensures var filed := outs[3].Done? && (job in old(rows) || user !in old(gone));
        && (r.Ok? <==> filed && outs[4].Done?)
        && (r.Err? ==> r.error == if filed then QueueFailed else RowFailed)
      ensures r.Ok? ==> r.value == "queued"
      ensures job in state.converts && (r.Ok? <==> state.converts[job].pc.Returned?)
    {
      hide Valid, Run, ConvertSteps, ConvertEnds, Perform;
      ghost var s := state;
      var ok := CreateJob(job, user, outs[3]);
      MoveConvert(s, job, ConvertRun(user, CreateRow), outs, 3, end);
      if !ok {
        ConvertHasEnded(state, job, outs, 4, end);
        return Err(RowFailed);
      }

      s := state;
      ok := PublishVideo(job, outs[4]);
      MoveConvert(s, job, ConvertRun(user, Publish), outs, 4, end);
      if !ok {
        UndoConvert(user, job, outs, end);
        return Err(QueueFailed);
      }
      ConvertHasEnded(state, job, outs, 5, end);
      r := Ok(QUEUED);
    }

    /** The three cache entries of a new job; the first write that fails ends the call. */
    method SeedEntries(user: string, job: string, outs: seq<Outcome>, ghost end: State) returns (ok: bool)
      requires Valid() && |outs| == 8
      requires job in state.converts && state.converts[job] == ConvertRun(user, SetOwner)
      requires ConvertEnds(state, job, outs, 0, end)
      modifies this, cache
      ensures Valid() && rows == old(rows) && gone == old(gone)
      ensures ok <==> outs[0].Done? && outs[1].Done? && outs[2].Done?
      ensures job in state.converts && state.converts[job] == ConvertRun(user, if ok then CreateRow else Errored)
      ensures if ok then ConvertEnds(state, job, outs, 3, end) else state == end
    {
      hide Valid, Run, ConvertSteps, ConvertEnds, Perform;
      ghost var s := state;
      ok := SetEntry(JobOwner(job), user, 5 * MINUTE, outs[0]);
      MoveConvert(s, job, ConvertRun(user, SetOwner), outs, 0, end);
      if !ok {
        ConvertHasEnded(state, job, outs, 1, end);
        return;
      }

      s := state;
      ok := SetEntry(JobStatus(job), QUEUED, 5 * MINUTE, outs[1]);
      MoveConvert(s, job, ConvertRun(user, SetStatus), outs, 1, end);
      if !ok {
        ConvertHasEnded(state, job, outs, 2, end);
        return;
      }

      s := state;
      ok := SetEntry(JobGif(job), QUEUED, 5 * MINUTE, outs[2]);
      MoveConvert(s, job, ConvertRun(user, SetGif), outs, 2, end);
      if !ok {
        ConvertHasEnded(state, job, outs, 3, end);
        return;
      }
    }

    /** The best-effort clean-up after a failed publish. */
    method UndoConvert(user: string, job: string, outs: seq<Outcome>, ghost end: State)
      requires Valid() && |outs| == 8
      requires job in state.converts && state.converts[job] == ConvertRun(user, UndoStatus)
      requires ConvertEnds(state, job, outs, 5, end)
      modifies this, cache
      ensures Valid() && state == end
      ensures job in state.converts && state.converts[job].pc.Errored?
      ensures !outs[5].Lost? ==>
        JobStatus(job) in cache.entries && cache.entries[JobStatus(job)] == Entry("failed", old(now) + 300_000)
      ensures !outs[6].Lost? ==>
        JobGif(job) in cache.entries && cache.entries[JobGif(job)] == Entry("failed", old(now) + 300_000)
      ensures job in old(rows) && !outs[7].Lost? ==>
        job in rows && rows[job] == JobRow(old(rows)[job].user, "failed", 0, "")
      ensures forall k :: k !in {JobStatus(job), JobGif(job)} ==>
        (k in cache.entries <==> k in old(cache.entries))
        && (k in cache.entries ==> cache.entries[k] == old(cache.entries)[k])
    {
      hide Valid, Run, ConvertSteps, ConvertEnds, Perform, RowSet;
      StoresAre();
      UndoEnds(state, job, outs, end);
      UndoneRowIs(rows, job, outs[7]);
      ghost var s := state;
      var _ := SetEntry(JobStatus(job), FAILED, 5 * MINUTE, outs[5]);
      MoveConvert(s, job, ConvertRun(user, UndoStatus), outs, 5, end);
      s := state;
      var _ := SetEntry(JobGif(job), FAILED, 5 * MINUTE, outs[6]);
      MoveConvert(s, job, ConvertRun(user, UndoGif), outs, 6, end);
      s := state;
      UpdateStatus(job, FAILED, 0, "", outs[7]);
      MoveConvert(s, job, ConvertRun(user, UndoRow), outs, 7, end);
      ConvertHasEnded(state, job, outs, 8, end);
      StoresAre();
    }

    /**
     `p` names this delivery of the message of `user` and `job`; `newKey` is the random part of the key the transcoder
     would choose, `outs` how the calls end, in order.
     */
    method Process(p: nat, user: string, job: string, outs: seq<Outcome>, newKey: string)
      returns (r: Option<ProcessError>)
      requires Valid() && p !in state.runs && |outs| == 9
      requires job in state.sent && job in state.converts && state.converts[job].user == user
      modifies this, cache
      ensures Valid()
      ensures state == Run(old(state), [Deliver(p, job)] + ProcessSteps(p, outs, newKey))
      ensures p in state.runs && state.runs[p].job == job
      ensures r.None? <==> state.runs[p].pc.Finished?
      ensures r.Some? ==> state.runs[p].pc.Stopped?
      ensures var published := outs[3].Done? && outs[4].Done?;
        var inserted := outs[6].Done? && newKey + "_output.gif" !in old(gifs) && user !in old(gone);
        r == if outs[0].Done? && !outs[2].Done? then Some(TranscodeFailed)
             else if !outs[0].Done? || !published then Some(CacheFailed)
             else if !inserted then Some(GifFailed)
             else if !outs[7].Done? then Some(QuotaFailed)
             else None
      ensures r.None? ==>
        && gifs == old(gifs)[newKey + "_output.gif" := user]
        && JobStatus(job) in cache.entries && JobGif(job) in cache.entries
        && cache.entries[JobStatus(job)] == Entry("completed", old(now) + 300_000)
        && cache.entries[JobGif(job)] == Entry(newKey + "_output.gif", old(now) + 300_000)
      ensures r == Some(TranscodeFailed) ==>
        && gifs == old(gifs) && quotas == old(quotas)
        && JobStatus(job) in cache.entries
        && (!outs[4].Lost? ==> cache.entries[JobStatus(job)] == Entry("failed", old(now) + 300_000))
        && (job in old(rows) && !outs[3].Lost? ==>
              job in rows && rows[job] == JobRow(old(rows)[job].user, "failed", 0, ""))
    {
      hide Valid, Run, ProcessSteps, ProcessEnds, Perform, Step;
      StoresAre();
      EndIsTold(p, job, outs, newKey);
      ghost var run, end := BeginProcess(p, job, outs, newKey);
      ghost var s := state;
      var ok := SetEntry(JobStatus(job), PROCESSING, 10 * MINUTE, outs[0]);
      MoveProcess(s, p, run, outs, newKey, 0, end);
      if !ok {
        ProcessHasEnded(state, p, outs, newKey, 1, end);
        return Some(CacheFailed);
      }
      s := state;
      UpdateStatus(job, PROCESSING, 20, "", outs[1]);
      MoveProcess(s, p, run.(pc := MarkRow), outs, newKey, 1, end);

      s := state;
      TranscodingTouchesNoStore(s, outs[2]);
      MoveProcess(s, p, run.(pc := Transcode), outs, newKey, 2, end);
      if !outs[2].Done? {
        FailJob(p, job, run.(pc := FailRow), outs, newKey, end);
        StoresAre();
        return Some(TranscodeFailed);
      }
      var gifKey := newKey + "_output.gif";
      r := PublishResult(p, user, job, run.(pc := StoreGif, gif := Some(gifKey)), gifKey, outs, newKey, end);
      StoresAre();
    }

    /** The transcoder failed: the row and the status entry say so, as far as the stores allow. */
    method FailJob(p: nat, job: string, ghost run: ProcessRun, outs: seq<Outcome>, newKey: string, ghost end: State)
      requires Valid() && |outs| == 9
      requires p in state.runs && state.runs[p] == run && run.job == job && run.pc.FailRow?
      requires ProcessEnds(state, p, outs, newKey, 3, end)
      modifies this, cache
      ensures Valid() && state == end
      ensures p in state.runs && state.runs[p] == run.(pc := Stopped)
    {
      hide Valid, Run, ProcessSteps, ProcessEnds, Perform;
      ghost var s := state;
      UpdateStatus(job, FAILED, 0, "", outs[3]);
      MoveProcess(s, p, run, outs, newKey, 3, end);
      FailEntry(p, job, run.(pc := FailStatus), outs, newKey, 4, end);
    }

    /** The last call of a failed run, its `i`-th: the status entry says "failed", if the cache allows. */
    method FailEntry(
      p: nat, job: string, ghost run: ProcessRun, outs: seq<Outcome>, newKey: string, i: nat, ghost end: State)
      requires Valid() && i < |outs|
      requires p in state.runs && state.runs[p] == run && run.job == job && run.pc.FailStatus?
      requires ProcessEnds(state, p, outs, newKey, i, end)
      modifies this, cache
      ensures Valid() && state == end
      ensures p in state.runs && state.runs[p] == run.(pc := Stopped)
    {
      hide Valid, Run, ProcessSteps, ProcessEnds, Perform;
      ghost var s := state;
      var _ := SetEntry(JobStatus(job), FAILED, 5 * MINUTE, outs[i]);
      MoveProcess(s, p, run, outs, newKey, i, end);
      ProcessHasEnded(state, p, outs, newKey, i + 1, end);
    }

    /** The gif exists: first its key, then "completed", then the row, and only then the gif's own record. */
    method PublishResult(
      p: nat, user: string, job: string, ghost run: ProcessRun, gifKey: string, outs: seq<Outcome>, newKey: string,
      ghost end: State)
      returns (r: Option<ProcessError>)
      requires Valid() && |outs| == 9
      requires p in state.runs && state.runs[p] == run && run.job == job && run.user == user
      requires run.pc.StoreGif? && run.gif == Some(gifKey)
      requires ProcessEnds(state, p, outs, newKey, 3, end)
      modifies this, cache
      ensures Valid() && state == end
      ensures p in state.runs && state.runs[p] == run.(pc := if r.None? then Finished else Stopped)
      ensures var inserted := outs[6].Done? && gifKey !in old(gifs) && user !in old(gone);
        r == (if !outs[3].Done? || !outs[4].Done? then Some(CacheFailed)
              else if !inserted then Some(GifFailed)
              else if !outs[7].Done? then Some(QuotaFailed) else None)
    {
      hide Valid, Run, ProcessSteps, ProcessEnds, Perform;
      ghost var s := state;
      var ok := SetEntry(JobGif(job), gifKey, 5 * MINUTE, outs[3]);
      MoveProcess(s, p, run, outs, newKey, 3, end);
      if !ok {
        ProcessHasEnded(state, p, outs, newKey, 4, end);
        return Some(CacheFailed);
      }
      s := state;
      ok := SetEntry(JobStatus(job), COMPLETED, 5 * MINUTE, outs[4]);
      MoveProcess(s, p, run.(pc := Complete), outs, newKey, 4, end);
      if !ok {
        ProcessHasEnded(state, p, outs, newKey, 5, end);
        return Some(CacheFailed);
      }
      s := state;
      UpdateStatus(job, DONE, 100, gifKey, outs[5]);
      MoveProcess(s, p, run.(pc := CompleteRow), outs, newKey, 5, end);
      r := RecordGif(p, user, job, run.(pc := ProcessPc.CreateGif), gifKey, outs, newKey, end);
    }

    /** The gif row, then the quota; a quota without room is only logged. */
    method RecordGif(
      p: nat, user: string, job: string, ghost run: ProcessRun, gifKey: string, outs: seq<Outcome>, newKey: string,
      ghost end: State)
      returns (r: Option<ProcessError>)
      requires Valid() && |outs| == 9
      requires p in state.runs && state.runs[p] == run && run.job == job && run.user == user
      requires run.pc.CreateGif? && run.gif == Some(gifKey)
      requires ProcessEnds(state, p, outs, newKey, 6, end)
      modifies this, cache
      ensures Valid() && state == end
      ensures p in state.runs && state.runs[p] == run.(pc := if r.None? then Finished else Stopped)
      ensures var inserted := outs[6].Done? && gifKey !in old(gifs) && user !in old(gone);
        r == (if !inserted then Some(GifFailed) else if !outs[7].Done? then Some(QuotaFailed) else None)
    {
      hide Valid, Run, ProcessSteps, ProcessEnds, Perform;
      ghost var s := state;
      var ok := CreateGif(user, gifKey, outs[6]);
      MoveProcess(s, p, run, outs, newKey, 6, end);
      if !ok {
        FailEntry(p, job, run.(pc := FailStatus), outs, newKey, 7, end);
        return Some(GifFailed);
      }
      s := state;
      var recorded := IncrementUsage(user, 0, 1, outs[7]);
      MoveProcess(s, p, run.(pc := CountGif), outs, newKey, 7, end);
      if recorded.None? {
        FailEntry(p, job, run.(pc := FailStatus), outs, newKey, 8, end);
        return Some(QuotaFailed);
      }
      ProcessHasEnded(state, p, outs, newKey, 8, end);
      r := None;
    }

    /** `handle` of the video worker: a body that does not parse and a failed run are both dead-lettered. */
    method Handle(p: nat, message: Option<(string, string)>, outs: seq<Outcome>, newKey: string) returns (acked: bool)
      requires Valid() && p !in state.runs && |outs| == 9
      requires message.Some? ==>
        var (user, job) := message.value; job in state.sent && job in state.converts && state.converts[job].user == user
      modifies this, cache
      ensures Valid()
      ensures message.None? ==> !acked && state == old(state)
      ensures message.Some? ==>
        state == Run(old(state), [Deliver(p, message.value.1)] + ProcessSteps(p, outs, newKey))
      ensures message.Some? ==> p in state.runs && (acked <==> state.runs[p].pc.Finished?)
      ensures acked <==>
        && message.Some? && outs[0].Done? && outs[2].Done? && outs[3].Done? && outs[4].Done? && outs[6].Done?
        && newKey + "_output.gif" !in old(gifs) && message.value.0 !in old(gone) && outs[7].Done?
    {
      if message.None? {
        return false;
      }
      var (user, job) := message.value;
      var err := Process(p, user, job, outs, newKey);
      acked := err.None?;
    }

    /** How the run `p` would end, should it start now, as far as a caller of `Process` can tell. */
    lemma EndIsTold(p: nat, job: string, outs: seq<Outcome>, newKey: string)
      requires Valid() && p !in state.runs && job in state.sent && job in state.converts && |outs| == 9
      ensures var end := Run(state, [Deliver(p, job)] + ProcessSteps(p, outs, newKey));
        && p in end.runs
        && (end.runs[p].pc.Finished? ==>
              && end.gifs == gifs[newKey + "_output.gif" := state.converts[job].user]
              && JobStatus(job) in end.cache && JobGif(job) in end.cache
              && end.cache[JobStatus(job)] == Entry("completed", now + 300_000)
              && end.cache[JobGif(job)] == Entry(newKey + "_output.gif", now + 300_000))
        && (outs[0].Done? && !outs[2].Done? ==>
              && end.gifs == gifs && end.quotas == quotas
              && JobStatus(job) in end.cache
              && (!outs[4].Lost? ==> end.cache[JobStatus(job)] == Entry("failed", now + 300_000))
              && (job in rows && !outs[3].Lost? ==>
                    job in end.rows && end.rows[job] == JobRow(rows[job].user, "failed", 0, "")))
    {
      hide Run, Step, ProcessSteps;
      if ReachesInsertion(outs) {
        PublishedConversionEnds(state, p, job, outs, newKey);
      } else if outs[0].Done? && !outs[2].Done? {
        FailedTranscodingIsTold(state, p, job, outs, newKey);
      } else {
        UnpublishedConversionStops(state, p, job, outs, newKey);
      }
    }

    // ---------- where the machine's runs stand ----------

    ghost method BeginProcess(p: nat, job: string, outs: seq<Outcome>, newKey: string)
      returns (run: ProcessRun, end: State)
      requires Valid() && p !in state.runs && job in state.sent && job in state.converts
      modifies `state
      ensures Valid()
      ensures end == Run(old(state), [Deliver(p, job)] + ProcessSteps(p, outs, newKey))
      ensures run == ProcessRun(job, old(state).converts[job].user, MarkStatus, None)
      ensures p in state.runs && state.runs[p] == run
      ensures ProcessEnds(state, p, outs, newKey, 0, end)
    {
      var script := ProcessSteps(p, outs, newKey);
      end := Run(state, [Deliver(p, job)] + script);
      assert ([Deliver(p, job)] + script)[1..] == script && outs[0..] == outs;
      run := ProcessRun(job, state.converts[job].user, MarkStatus, None);
      state := state.(runs := state.runs[p := run]);
    }

    /** Moves the run `r` past the call it just made in state `s`, which ended as `outs[i]`. */
    ghost method MoveProcess(s: State, p: nat, r: ProcessRun, outs: seq<Outcome>, newKey: string, i: nat, end: State)
      requires Valid() && i < |outs| && p in s.runs && s.runs[p] == r
      requires state == Perform(s, ProcessCall(r), Settled(s, ProcessCall(r), outs[i]))
      requires ProcessEnds(s, p, outs, newKey, i, end)
      modifies `state
      ensures Valid()
      ensures p in state.runs && state.runs[p] == Advanced(r, Settled(s, ProcessCall(r), outs[i]), newKey)
      ensures ProcessEnds(state, p, outs, newKey, i + 1, end)
    {
      state := state.(runs := state.runs[p := Advanced(r, Settled(s, ProcessCall(r), outs[i]), newKey)]);
      assert outs[i..][1..] == outs[i + 1..];
    }

    /** Starts the machine's run of a `Convert`, unless the quota refuses it; `end` is where its script leads. */
    ghost method BeginConvert(user: string, job: string, quotaRead: bool, outs: seq<Outcome>) returns (end: State)
      requires Valid() && job !in state.converts
      modifies `state
      ensures Valid() && state.quotas == quotas == old(state).quotas
      ensures end == Run(old(state), [StartConvert(user, job, quotaRead)] + ConvertSteps(job, outs))
      ensures quotaRead && AtLimit(old(state), user) ==> state == old(state) == end
      ensures !(quotaRead && AtLimit(old(state), user)) ==>
        && job in state.converts && state.converts[job] == ConvertRun(user, SetOwner)
        && ConvertEnds(state, job, outs, 0, end)
    {
      end := Run(state, [StartConvert(user, job, quotaRead)] + ConvertSteps(job, outs));
      StartedConvert(state, user, job, quotaRead, outs);
      if !(quotaRead && AtLimit(state, user)) {
        state := state.(converts := state.converts[job := ConvertRun(user, SetOwner)]);
      }
    }

    /** Moves the run `r` of `job` past the call it just made in state `s`, which ended as `outs[i]`. */
    ghost method MoveConvert(s: State, job: string, r: ConvertRun, outs: seq<Outcome>, i: nat, end: State)
      requires Valid() && i < |outs| && job in s.converts && s.converts[job] == r
      requires state == Perform(s, ConvertCall(job, r), Settled(s, ConvertCall(job, r), outs[i]))
      requires ConvertEnds(s, job, outs, i, end)
      modifies `state
      ensures Valid()
      ensures job in state.converts
      ensures state.converts[job] == r.(pc := ConvertNext(r.pc, Settled(s, ConvertCall(job, r), outs[i])))
      ensures ConvertEnds(state, job, outs, i + 1, end)
    {
      var settled := Settled(s, ConvertCall(job, r), outs[i]);
      state := state.(converts := state.converts[job := r.(pc := ConvertNext(r.pc, settled))]);
      assert outs[i..][1..] == outs[i + 1..];
    }
  }

  lemma TranscodingTouchesNoStore(s: State, o: Outcome)
    ensures Perform(s, TranscodeVideo, o) == s
  {
  }
}
