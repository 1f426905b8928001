/**
 The conversion protocol as a step machine: many `Convert` calls and many `Process` runs, each
 advancing one store call at a time, over the cache, the job table, the gif table and the quotas.

 A run that crashes is a run that takes no further step. A message may be delivered again at any time.
 */
module Conversion {
  import opened Prelude
  import opened Cache

  const QUEUED := "queued"
  const PROCESSING := "processing"
  const COMPLETED := "completed"
  const DONE := "done"
  const FAILED := "failed"

  datatype JobRow = JobRow(user: string, status: string, progress: int, resultKey: string)

  datatype Quota = Quota(usedBytes: int, totalBytes: int, gifCount: int, gifLimit: int)

  /** The next store call of a `Convert`. */
  datatype ConvertPc =
    | SetOwner | SetStatus | SetGif | CreateRow | Publish
    | UndoStatus | UndoGif | UndoRow
    | Returned | Errored

  datatype ConvertRun = ConvertRun(user: string, pc: ConvertPc)

  /** The next call of a `Process`. */
  datatype ProcessPc =
    | MarkStatus | MarkRow | Transcode | FailRow | StoreGif | Complete | CompleteRow
    | CreateGif | CountGif | FailStatus
    | Finished | Stopped

  /** `gif` is the key this run's transcoder produced, once it has. */
  datatype ProcessRun = ProcessRun(job: string, user: string, pc: ProcessPc, gif: Option<string>)

  /** What happened to a user's gifs, one entry per occurrence. */
  datatype Fact =
    | Created(user: string)    // the row was inserted
    | Deleted(user: string)    // its owner removed the row
    | Counted(user: string)    // the quota row recorded a creation
    | Refused(user: string)    // the quota row had no room for it
    | Uncounted(user: string)  // the increment failed without effect
    | Abandoned(user: string)  // the insertion was reported as failed, so no increment was tried

  /** `gone` holds the deleted accounts; their ids are never given out again. */
  datatype State = State(
    now: int,
    cache: Entries,
    rows: map<string, JobRow>,
    converts: map<string, ConvertRun>,
    sent: set<string>,
    runs: map<nat, ProcessRun>,
    gifs: map<string, string>,
    quotas: map<string, Quota>,
    gone: set<string>,
    facts: multiset<Fact>)

  function Initial(now: int): State {
    State(now, map[], map[], map[], {}, map[], map[], map[], {}, multiset{})
  }

  datatype Event =
    | Tick(ms: nat)
    | AddUser(user: string)
    | DeleteUser(user: string)
    | StartConvert(user: string, job: string, quotaRead: bool)
    | StepConvert(job: string, o: Outcome)
    | Deliver(p: nat, job: string)
    | StepProcess(p: nat, o: Outcome, newKey: string)
    | DeleteGif(user: string, key: string, o: Outcome)

  // ---------- the stores ----------

  /** One call to a store or to the transcoder. */
  datatype Call =
    | SetEntry(k: CacheKey, value: string, ttl: int)
    | InsertRow(job: string, user: string)
    | UpdateRow(job: string, status: string, progress: int, key: string)
    | Send(job: string)
    | TranscodeVideo
    | InsertGif(user: string, key: string)
    | IncrementUsage(user: string)
    | NoCall

  /** The condition of the conditional quota update. */
  predicate HasRoom(q: Quota, bytes: int, count: int) {
    q.usedBytes + bytes <= q.totalBytes && q.gifCount + count <= q.gifLimit
  }

  function Incremented(q: Quota, bytes: int, count: int): Quota {
    q.(usedBytes := q.usedBytes + bytes, gifCount := q.gifCount + count)
  }

  function Note(s: State, f: Fact): (s': State)
    ensures s'.sent == s.sent && s'.cache == s.cache && s'.rows == s.rows
    ensures s'.runs == s.runs && s'.converts == s.converts && s'.gone == s.gone && s'.now == s.now
    ensures s'.gifs == s.gifs && s'.quotas == s.quotas
  {
    s.(facts := s.facts + multiset{f})
  }

  /**
   A gif whose key exists is rejected by the primary key, a new gif or job row of a deleted account by the
   foreign key; any other call ends as the store decides.
   */
  function Settled(s: State, c: Call, o: Outcome): Outcome {
    if c.InsertGif? && (c.key in s.gifs || c.user in s.gone) then Lost
    else if c.InsertRow? && c.job !in s.rows && c.user in s.gone then Lost
    else o
  }

  /** The effect of a call that ends as `o`. */
  function Perform(s: State, c: Call, o: Outcome): (s': State)
    ensures s'.converts == s.converts && s'.runs == s.runs && s'.now == s.now && s'.gone == s.gone
  {
    if o.Lost? then if c.IncrementUsage? then Note(s, Uncounted(c.user)) else s
    else match c
      case SetEntry(k, value, ttl) => s.(cache := Put(s.cache, k, value, s.now + ttl, o))
      case InsertRow(job, user) =>
        var owner := if job in s.rows then s.rows[job].user else user;
        s.(rows := s.rows[job := JobRow(owner, QUEUED, 0, "")])
      case UpdateRow(job, status, progress, key) =>
        if job !in s.rows then s
        else s.(rows := s.rows[job := JobRow(s.rows[job].user, status, progress, key)])
      case Send(job) => s.(sent := s.sent + {job})
      case InsertGif(user, key) =>
        var inserted := Note(s.(gifs := s.gifs[key := user]), Created(user));
        if o.Done? then inserted else Note(inserted, Abandoned(user))
      case IncrementUsage(user) =>
        if user in s.quotas && HasRoom(s.quotas[user], 0, 1)
        then Note(s.(quotas := s.quotas[user := Incremented(s.quotas[user], 0, 1)]), Counted(user))
        else Note(s, Refused(user))
      case TranscodeVideo => s
      case NoCall => s
  }

  lemma GifCallFrame(s: State, c: Call, o: Outcome)
    requires c.InsertGif? || c.IncrementUsage?
    ensures var s' := Perform(s, c, o); s'.sent == s.sent && s'.cache == s.cache && s'.rows == s.rows
  {
    hide HasRoom, Incremented, Note;
  }

  lemma StoreCallFrame(s: State, c: Call, o: Outcome)
    requires !c.InsertGif? && !c.IncrementUsage?
    ensures var s' := Perform(s, c, o);
      && (!c.Send? ==> s'.sent == s.sent)
      && (!c.SetEntry? ==> s'.cache == s.cache)
      && (!c.InsertRow? && !c.UpdateRow? ==> s'.rows == s.rows)
      && s'.gifs == s.gifs && s'.quotas == s.quotas && s'.facts == s.facts
  {
    hide HasRoom, Incremented, Put, Note;
  }

  lemma PerformFrame(s: State, c: Call, o: Outcome)
    ensures var s' := Perform(s, c, o);
      && s'.now == s.now && s'.converts == s.converts && s'.runs == s.runs
      && (!c.Send? ==> s'.sent == s.sent)
      && (!c.SetEntry? ==> s'.cache == s.cache)
      && (!c.InsertRow? && !c.UpdateRow? ==> s'.rows == s.rows)
      && (!c.InsertGif? && !c.IncrementUsage? ==>
            s'.gifs == s.gifs && s'.quotas == s.quotas && s'.facts == s.facts)
  {
    hide Perform;
    if c.InsertGif? || c.IncrementUsage? {
      GifCallFrame(s, c, o);
    } else {
      StoreCallFrame(s, c, o);
    }
  }

  lemma CallWrites(s: State, c: Call, o: Outcome)
    ensures var s' := Perform(s, c, o);
      && (c.SetEntry? ==> s'.cache == Put(s.cache, c.k, c.value, s.now + c.ttl, o))
      && (c.Send? ==> s'.sent == if o.Lost? then s.sent else s.sent + {c.job})
      && (c.NoCall? ==> s' == s)
  {
    hide HasRoom, Incremented, Note;
  }

  /** `Convert` refuses a user whose recorded count has reached the limit. */
  predicate AtLimit(s: State, user: string) {
    user in s.quotas && s.quotas[user].gifCount > 0 && s.quotas[user].gifCount >= s.quotas[user].gifLimit
  }

  // ---------- the control of the two services ----------

  function ConvertCall(job: string, r: ConvertRun): Call {
    match r.pc
    case SetOwner => SetEntry(JobOwner(job), r.user, 5 * MINUTE)
    case SetStatus => SetEntry(JobStatus(job), QUEUED, 5 * MINUTE)
    case SetGif => SetEntry(JobGif(job), QUEUED, 5 * MINUTE)
    case CreateRow => InsertRow(job, r.user)
    case Publish => Send(job)
    case UndoStatus => SetEntry(JobStatus(job), FAILED, 5 * MINUTE)
    case UndoGif => SetEntry(JobGif(job), FAILED, 5 * MINUTE)
    case UndoRow => UpdateRow(job, FAILED, 0, "")
    case Returned => NoCall
    case Errored => NoCall
  }

  function ConvertNext(pc: ConvertPc, o: Outcome): ConvertPc {
    match pc
    case SetOwner => if o.Done? then SetStatus else Errored
    case SetStatus => if o.Done? then SetGif else Errored
    case SetGif => if o.Done? then CreateRow else Errored
    case CreateRow => if o.Done? then Publish else Errored
    case Publish => if o.Done? then Returned else UndoStatus
    case UndoStatus => UndoGif
    case UndoGif => UndoRow
    case UndoRow => Errored
    case Returned => Returned
    case Errored => Errored
  }

  function GifOf(r: ProcessRun): string {
    if r.gif.Some? then r.gif.value else ""
  }

  function ProcessCall(r: ProcessRun): Call {
    match r.pc
    case MarkStatus => SetEntry(JobStatus(r.job), PROCESSING, 10 * MINUTE)
    case MarkRow => UpdateRow(r.job, PROCESSING, 20, "")
    case Transcode => TranscodeVideo
    case FailRow => UpdateRow(r.job, FAILED, 0, "")
    case StoreGif => SetEntry(JobGif(r.job), GifOf(r), 5 * MINUTE)
    case Complete => SetEntry(JobStatus(r.job), COMPLETED, 5 * MINUTE)
    case CompleteRow => UpdateRow(r.job, DONE, 100, GifOf(r))
    case CreateGif => InsertGif(r.user, GifOf(r))
    case CountGif => IncrementUsage(r.user)
    case FailStatus => SetEntry(JobStatus(r.job), FAILED, 5 * MINUTE)
    case Finished => NoCall
    case Stopped => NoCall
  }

  function ProcessNext(pc: ProcessPc, o: Outcome): ProcessPc {
    match pc
    case MarkStatus => if o.Done? then MarkRow else Stopped
    case MarkRow => Transcode
    case Transcode => if o.Done? then StoreGif else FailRow
    case FailRow => FailStatus
    case StoreGif => if o.Done? then Complete else Stopped
    case Complete => if o.Done? then CompleteRow else Stopped
    case CompleteRow => CreateGif
    case CreateGif => if o.Done? then CountGif else FailStatus
    case CountGif => if o.Done? then Finished else FailStatus
    case FailStatus => Stopped
    case Finished => Finished
    case Stopped => Stopped
  }

  function AdvanceConvert(s: State, job: string, o: Outcome): State
    requires job in s.converts
  {
    var r := s.converts[job];
    var settled := Settled(s, ConvertCall(job, r), o);
    Perform(s, ConvertCall(job, r), settled).(converts := s.converts[job := r.(pc := ConvertNext(r.pc, settled))])
  }

  /** `newKey` is the random part of the key the transcoder chooses, when it is the one called. */
  function Advanced(r: ProcessRun, o: Outcome, newKey: string): ProcessRun {
    r.(pc := ProcessNext(r.pc, o),
       gif := if r.pc.Transcode? && o.Done? then Some(newKey + GIF_SUFFIX) else r.gif)
  }

  function AdvanceProcess(s: State, p: nat, o: Outcome, newKey: string): State
    requires p in s.runs
  {
    var r := s.runs[p];
    var settled := Settled(s, ProcessCall(r), o);
    Perform(s, ProcessCall(r), settled).(runs := s.runs[p := Advanced(r, settled, newKey)])
  }

  function RowsWithout(rows: map<string, JobRow>, user: string): map<string, JobRow> {
    map j | j in rows && rows[j].user != user :: rows[j]
  }

  function GifsWithout(gifs: map<string, string>, user: string): map<string, string> {
    map k | k in gifs && gifs[k] != user :: gifs[k]
  }

  /** Deleting an account cascades to its rows; cache entries, messages and calls under way stay. */
  function WithoutUser(s: State, user: string): State {
    s.(rows := RowsWithout(s.rows, user), gifs := GifsWithout(s.gifs, user), quotas := s.quotas - {user},
       gone := s.gone + {user})
  }

  /** One event; an event that cannot happen changes nothing. */
  function Step(s: State, e: Event): State {
    match e
    case Tick(ms) => s.(now := s.now + ms)
    case AddUser(user) =>
      if user in s.quotas || user in s.gone then s else s.(quotas := s.quotas[user := Quota(0, 1073741824, 0, 100)])
    case DeleteUser(user) => WithoutUser(s, user)
    case StartConvert(user, job, quotaRead) =>
      if job in s.converts || (quotaRead && AtLimit(s, user)) then s
      else s.(converts := s.converts[job := ConvertRun(user, SetOwner)])
    case StepConvert(job, o) => if job in s.converts then AdvanceConvert(s, job, o) else s
    case Deliver(p, job) =>
      if p in s.runs || job !in s.sent || job !in s.converts then s
      else s.(runs := s.runs[p := ProcessRun(job, s.converts[job].user, MarkStatus, None)])
    case StepProcess(p, o, newKey) => if p in s.runs then AdvanceProcess(s, p, o, newKey) else s
    case DeleteGif(user, key, o) =>
      if key !in s.gifs || s.gifs[key] != user || o.Lost? then s
      else Note(s.(gifs := s.gifs - {key}), Deleted(user))
  }

  /** The store call an event makes, and how it ends. */
  function CallOf(s: State, e: Event): Call {
    match e
    case StepConvert(job, _) => if job in s.converts then ConvertCall(job, s.converts[job]) else NoCall
    case StepProcess(p, _, _) => if p in s.runs then ProcessCall(s.runs[p]) else NoCall
    case _ => NoCall
  }

  function OutcomeOf(s: State, e: Event): Outcome {
    if e.StepConvert? || e.StepProcess? then Settled(s, CallOf(s, e), e.o)
    else Done
  }

  lemma StepMovesStores(s: State, e: Event)
    ensures var s', c, o := Step(s, e), CallOf(s, e), OutcomeOf(s, e);
      && s'.cache == (if c.SetEntry? then Put(s.cache, c.k, c.value, s.now + c.ttl, o) else s.cache)
      && s'.rows == (if e.DeleteUser? then RowsWithout(s.rows, e.user) else Perform(s, c, o).rows)
      && s'.sent == (if c.Send? && !o.Lost? then s.sent + {c.job} else s.sent)
  {
    hide Perform, Settled, RowsWithout, GifsWithout, Note, AtLimit, Advanced, ConvertNext;
    hide ConvertCall, ProcessCall;
    PerformFrame(s, CallOf(s, e), OutcomeOf(s, e));
    CallWrites(s, CallOf(s, e), OutcomeOf(s, e));
  }

  lemma StepMovesTime(s: State, e: Event)
    ensures var s' := Step(s, e);
      && s'.gone == (if e.DeleteUser? then s.gone + {e.user} else s.gone)
      && s'.now == s.now + (if e.Tick? then e.ms else 0)
  {
    hide Perform, Settled, RowsWithout, GifsWithout, Note, AtLimit, Advanced, ConvertNext;
    hide ConvertCall, ProcessCall;
  }

  lemma StepMovesRuns(s: State, e: Event)
    ensures var s', o := Step(s, e), OutcomeOf(s, e);
      s'.runs ==
        (if e.StepProcess? && e.p in s.runs then s.runs[e.p := Advanced(s.runs[e.p], o, e.newKey)]
         else if e.Deliver? && e.p !in s.runs && e.job in s.sent && e.job in s.converts
         then s.runs[e.p := ProcessRun(e.job, s.converts[e.job].user, MarkStatus, None)]
         else s.runs)
  {
    hide Perform, Settled, RowsWithout, GifsWithout, Note, AtLimit, Advanced, ConvertNext;
    hide ConvertCall, ProcessCall;
  }

  lemma StepMovesConverts(s: State, e: Event)
    ensures var s', o := Step(s, e), OutcomeOf(s, e);
      s'.converts ==
        (if e.StepConvert? && e.job in s.converts
         then s.converts[e.job := s.converts[e.job].(pc := ConvertNext(s.converts[e.job].pc, o))]
         else if e.StartConvert? && e.job !in s.converts && !(e.quotaRead && AtLimit(s, e.user))
         then s.converts[e.job := ConvertRun(e.user, SetOwner)]
         else s.converts)
  {
    hide Perform, Settled, RowsWithout, GifsWithout, Note, AtLimit, Advanced, ConvertNext;
    hide ConvertCall, ProcessCall;
  }

  /** An event changes the stores only through its call, and a run only by advancing or starting it. */
  lemma StepFrame(s: State, e: Event)
    ensures var s', c, o := Step(s, e), CallOf(s, e), OutcomeOf(s, e);
      && s'.cache == (if c.SetEntry? then Put(s.cache, c.k, c.value, s.now + c.ttl, o) else s.cache)
      && s'.rows == (if e.DeleteUser? then RowsWithout(s.rows, e.user) else Perform(s, c, o).rows)
      && s'.gone == (if e.DeleteUser? then s.gone + {e.user} else s.gone)
      && s'.runs ==
        (if e.StepProcess? && e.p in s.runs then s.runs[e.p := Advanced(s.runs[e.p], o, e.newKey)]
         else if e.Deliver? && e.p !in s.runs && e.job in s.sent && e.job in s.converts
         then s.runs[e.p := ProcessRun(e.job, s.converts[e.job].user, MarkStatus, None)]
         else s.runs)
      && s'.converts ==
        (if e.StepConvert? && e.job in s.converts
         then s.converts[e.job := s.converts[e.job].(pc := ConvertNext(s.converts[e.job].pc, o))]
         else if e.StartConvert? && e.job !in s.converts && !(e.quotaRead && AtLimit(s, e.user))
         then s.converts[e.job := ConvertRun(e.user, SetOwner)]
         else s.converts)
      && s'.sent == (if c.Send? && !o.Lost? then s.sent + {c.job} else s.sent)
      && s'.now == s.now + if e.Tick? then e.ms else 0
  {
    hide Step, Perform, OutcomeOf, CallOf, RowsWithout, Advanced, ConvertNext, AtLimit;
    StepMovesStores(s, e);
    StepMovesTime(s, e);
    StepMovesRuns(s, e);
    StepMovesConverts(s, e);
  }

  function Run(s: State, es: seq<Event>): State
    decreases |es|
  {
    if es == [] then s else Run(Step(s, es[0]), es[1..])
  }

  /** Some run of `job` produced the gif `key`. */
  ghost predicate Produced(s: State, job: string, key: string) {
    exists p :: p in s.runs && s.runs[p].job == job && s.runs[p].gif == Some(key)
  }

  const GIF_SUFFIX := "_output.gif"

  predicate IsGifKey(key: string) {
    |GIF_SUFFIX| <= |key| && key[|key| - |GIF_SUFFIX|..] == GIF_SUFFIX
  }

  /** A produced key always tells itself apart from the placeholders the cache starts with. */
  lemma GifKeyIsNoPlaceholder(key: string)
    requires IsGifKey(key)
    ensures key != QUEUED && key != FAILED && key != ""
  {
    assert key[|key| - |GIF_SUFFIX|..][|GIF_SUFFIX| - 1] == 'f';
    assert QUEUED[|QUEUED| - 1] == 'd' && FAILED[|FAILED| - 1] == 'd';
  }

  lemma {:induction false} RunAppends(s: State, es: seq<Event>, more: seq<Event>)
    ensures Run(s, es + more) == Run(Run(s, es), more)
    decreases |es|
  {
    if es == [] {
      assert es + more == more;
    } else {
      assert (es + more)[1..] == es[1..] + more;
      RunAppends(Step(s, es[0]), es[1..], more);
    }
  }
}
