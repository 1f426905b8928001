/**
 Uploading a video: a minted key, the bucket's notification (possibly delivered again), the worker that
 processes the video and saves the user's one `last_upload` row, and the status the user polls.

 Each call of each handler is an event, so handlers of the same key may interleave in any way.
 */
module Uploads {
  import opened Prelude
  import opened Cache
  import opened Keys

  const STATUS_TTL := 5 * MINUTE

  /** What preprocessing reports; `size` is missing when its text is no number. */
  datatype Video = Video(fileKey: string, size: Option<int>)

  /** The next call of a handler. */
  datatype Pc = Marking | Working | MarkingFailed | Nacking | Acking | MarkingOk | Ended

  datatype Handler = Handler(key: string, pc: Pc)

  /** Who saved: the processing worker, for a video of that size, or the save-metadata worker. */
  datatype Writer = ProcessingWorker(size: int) | SaveVideoWorker

  /** One upsert of a `last_upload` row: whose row, the video it then names, and the writer. */
  datatype Save = Save(user: string, fileKey: string, writer: Writer)

  /**
   `uuids` is what `uuid.Parse` makes of a text, and `users` are the parsed ids of the accounts there are, and
   `gone` of those that were deleted; ids are never used twice. `lastUpload` is keyed by the parsed id. `acked`
   are the settled notifications that were acknowledged, and `saves` every upsert in order.
   */
  datatype State = State(
    uuids: map<string, string>, users: set<string>, gone: set<string>, maxBytes: int, cache: Entries, now: int,
    lastUpload: map<string, string>, handlers: map<nat, Handler>, acked: set<nat>, saves: seq<Save>)

  datatype Event =
    | Tick(ms: nat)
    | AddUser(user: string)
    | DeleteUser(user: string)
    | Write(k: CacheKey, value: string, expireAt: int, w: Outcome)
    | StartUpload(user: string, id: string, ext: string, u: Outcome)
    | Notify(h: nat, key: string)
    | SaveUpload(userText: string, savedKey: string, q: Outcome)
    | Advance(h: nat, o: Outcome, video: Option<Video>)

  /** The user a key belongs to, if it names one. */
  function UserOf(s: State, key: string): Option<string> {
    var text := SeparateUserId(key);
    if text != "" && text in s.uuids then Some(s.uuids[text]) else None
  }

  /** `ProcessAndSave` gets as far as the upsert, and the row's foreign key names an account. */
  predicate IsAccepted(s: State, key: string, video: Option<Video>) {
    && key != "" && video.Some? && UserOf(s, key).Some? && UserOf(s, key).value in s.users
    && video.value.size.Some? && video.value.size.value <= s.maxBytes
  }

  function SetStatus(s: State, key: string, status: string, o: Outcome): (s': State)
    ensures s' == s.(cache := Put(s.cache, Uploading(key), status, s.now + STATUS_TTL, o))
  {
    s.(cache := Put(s.cache, Uploading(key), status, s.now + STATUS_TTL, o))
  }

  function SetPc(s: State, h: nat, pc: Pc): (s': State)
    requires h in s.handlers
    ensures s'.uuids == s.uuids && s'.users == s.users && s'.gone == s.gone && s'.now == s.now
    ensures s'.maxBytes == s.maxBytes && s'.cache == s.cache
    ensures s'.lastUpload == s.lastUpload && s'.saves == s.saves && s'.acked == s.acked
    ensures s'.handlers == s.handlers[h := Handler(s.handlers[h].key, pc)]
  {
    s.(handlers := s.handlers[h := s.handlers[h].(pc := pc)])
  }

  function Saved(s: State, key: string, video: Option<Video>, o: Outcome): (s': State)
    ensures s'.uuids == s.uuids && s'.users == s.users && s'.gone == s.gone && s'.now == s.now
    ensures s'.maxBytes == s.maxBytes && s'.cache == s.cache
    ensures s'.handlers == s.handlers && s'.acked == s.acked
  {
    if !IsAccepted(s, key, video) || o.Lost? then s
    else s.(lastUpload := s.lastUpload[UserOf(s, key).value := video.value.fileKey],
            saves := s.saves + [Save(UserOf(s, key).value, video.value.fileKey,
                                     ProcessingWorker(video.value.size.value))])
  }

  /** The table's other writer: the save-metadata worker, which writes the key of its message. */
  function SavedMetadata(s: State, userText: string, savedKey: string, o: Outcome): (s': State)
    ensures s'.uuids == s.uuids && s'.users == s.users && s'.gone == s.gone && s'.now == s.now
    ensures s'.maxBytes == s.maxBytes && s'.cache == s.cache
    ensures s'.handlers == s.handlers && s'.acked == s.acked
  {
    if userText !in s.uuids || s.uuids[userText] !in s.users || o.Lost? then s
    else s.(lastUpload := s.lastUpload[s.uuids[userText] := savedKey],
            saves := s.saves + [Save(s.uuids[userText], savedKey, SaveVideoWorker)])
  }

  function NextPc(pc: Pc, accepted: bool, o: Outcome): Pc {
    match pc
    case Marking => if o.Done? then Working else Nacking
    case Working => if accepted && o.Done? then Acking else MarkingFailed
    case MarkingFailed => Nacking
    case Nacking => Ended
    case Acking => if o.Done? then MarkingOk else Ended
    case MarkingOk => Ended
    case Ended => Ended
  }

  function AdvanceHandler(s: State, h: nat, o: Outcome, video: Option<Video>): State
    requires h in s.handlers
  {
    var key, pc := s.handlers[h].key, s.handlers[h].pc;
    var after :=
      match pc
      case Marking => SetStatus(s, key, "processing", o)
      case Working => Saved(s, key, video, o)
      case MarkingFailed => SetStatus(s, key, "failed", o)
      case Acking => if o.Lost? then s else s.(acked := s.acked + {h})
      case MarkingOk => SetStatus(s, key, "ok", o)
      case _ => s;
    if pc.Ended? then s else SetPc(after, h, NextPc(pc, IsAccepted(s, key, video), o))
  }

  function Step(s: State, e: Event): State {
    match e
    case Tick(ms) => s.(now := s.now + ms)
    case AddUser(user) => if user in s.gone then s else s.(users := s.users + {user})
    case DeleteUser(user) =>
      if user !in s.users then s
      else s.(users := s.users - {user}, gone := s.gone + {user}, lastUpload := s.lastUpload - {user})
    case Write(k, value, expireAt, o) =>
      if k.Uploading? then s else s.(cache := Put(s.cache, k, value, expireAt, o))
    case StartUpload(user, id, ext, o) => SetStatus(s, Minted(user, id, ext), "uploading", o)
    case SaveUpload(userText, savedKey, o) => SavedMetadata(s, userText, savedKey, o)
    case Notify(h, key) =>
      if h in s.handlers then s else s.(handlers := s.handlers[h := Handler(key, Marking)])
    case Advance(h, o, video) =>
      if h in s.handlers then AdvanceHandler(s, h, o, video) else s
  }

  function Run(s: State, es: seq<Event>): State
    decreases |es|
  {
    if es == [] then s else Run(Step(s, es[0]), es[1..])
  }

  function Initial(uuids: map<string, string>, maxBytes: int, now: int): State {
    State(uuids, {}, {}, maxBytes, map[], now, map[], map[], {}, [])
  }

  // ---------- the status ----------

  datatype StatusResult =
    | OwnerMismatch | CacheFailed | Reported(status: string) | Ready(fileKey: string) | NotFound | RowFailed

  /** The row of the caller, whose id the database reads as a UUID. */
  function GetLastVideo(s: State, user: string): Option<string> {
    if user in s.uuids && s.uuids[user] in s.lastUpload then Some(s.lastUpload[s.uuids[user]]) else None
  }

  /** A missing entry is reported as a failed upload; a caller whose id is no UUID makes the query fail. */
  function StatusOf(s: State, user: string, key: string, cacheFault: bool, rowFault: bool): StatusResult {
    if !PassesOwnerCheck(user, key) then OwnerMismatch
    else
      var got := Read(s.cache, Uploading(key), s.now, cacheFault);
      if got.Fault? then CacheFailed
      else
        var status := if got.Hit? then got.value else "failed";
        if status != "ok" then Reported(status)
        else if rowFault || user !in s.uuids then RowFailed
        else
          var row := GetLastVideo(s, user);
          if row.Some? then Ready(row.value) else NotFound
  }

  // ---------- ready means saved ----------

  /** The last of `saves`, whichever writer made it, that belongs to `user`. */
  function LastOf(saves: seq<Save>, user: string): Option<string> {
    if saves == [] then None
    else
      var last := saves[|saves| - 1];
      if last.user == user then Some(last.fileKey) else LastOf(saves[..|saves| - 1], user)
  }

  /** The user of the key has a row, or had one and deleted the account with it. */
  ghost predicate WasSaved(s: State, key: string) {
    UserOf(s, key).Some? && (UserOf(s, key).value in s.lastUpload || UserOf(s, key).value in s.gone)
  }

  ghost predicate Inv(s: State) {
    && s.lastUpload.Keys <= s.users && s.users !! s.gone
    && (forall key :: Uploading(key) in s.cache && s.cache[Uploading(key)].value == "ok" ==> WasSaved(s, key))
    && (forall h :: h in s.handlers && (s.handlers[h].pc.Acking? || s.handlers[h].pc.MarkingOk?) ==>
          WasSaved(s, s.handlers[h].key))
    && (forall h :: h in s.acked ==> h in s.handlers && WasSaved(s, s.handlers[h].key))
  }

  lemma StatusKeepsInv(s: State, key: string, status: string, o: Outcome)
    requires Inv(s) && (status == "ok" ==> WasSaved(s, key))
    ensures Inv(SetStatus(s, key, status, o))
  {
    forall k
      ensures WasSaved(SetStatus(s, key, status, o), k) == WasSaved(s, k)
    {
    }
    hide WasSaved;
  }

  lemma SaveKeepsInv(s: State, key: string, video: Option<Video>, o: Outcome)
    requires Inv(s)
    ensures Inv(Saved(s, key, video, o))
    ensures IsAccepted(s, key, video) && !o.Lost? ==> WasSaved(Saved(s, key, video, o), key)
  {
    var s' := Saved(s, key, video, o);
    forall k
      ensures UserOf(s', k) == UserOf(s, k) && (WasSaved(s, k) ==> WasSaved(s', k))
    {
    }
    hide UserOf;
  }

  lemma SavedMetadataKeepsInv(s: State, userText: string, savedKey: string, o: Outcome)
    requires Inv(s)
    ensures Inv(SavedMetadata(s, userText, savedKey, o))
  {
    var s' := SavedMetadata(s, userText, savedKey, o);
    forall k
      ensures UserOf(s', k) == UserOf(s, k) && (WasSaved(s, k) ==> WasSaved(s', k))
    {
    }
    hide UserOf;
  }

  lemma PcKeepsInv(s: State, h: nat, pc: Pc)
    requires Inv(s) && h in s.handlers
    requires pc.Acking? || pc.MarkingOk? ==> WasSaved(s, s.handlers[h].key)
    ensures Inv(SetPc(s, h, pc))
  {
    forall k
      ensures WasSaved(SetPc(s, h, pc), k) == WasSaved(s, k)
    {
    }
    hide WasSaved;
  }

  /** Behind the save, the row of the handler's key is there, so the notification may be acknowledged. */
  lemma AckKeepsInv(s: State, h: nat)
    requires Inv(s) && h in s.handlers && (s.handlers[h].pc.Acking? || s.handlers[h].pc.MarkingOk?)
    ensures var s' := s.(acked := s.acked + {h});
      Inv(s') && WasSaved(s, s.handlers[h].key) && WasSaved(s', s.handlers[h].key)
  {
    forall k
      ensures WasSaved(s.(acked := s.acked + {h}), k) == WasSaved(s, k)
    {
    }
    hide WasSaved;
  }

  lemma AdvanceKeepsInv(s: State, h: nat, o: Outcome, video: Option<Video>)
    requires Inv(s) && h in s.handlers
    ensures Inv(AdvanceHandler(s, h, o, video))
  {
    hide Inv, WasSaved, IsAccepted, SetStatus, Saved, SetPc;
    var key, pc := s.handlers[h].key, s.handlers[h].pc;
    var s' := AdvanceHandler(s, h, o, video);
    match pc
    case Marking =>
      StatusKeepsInv(s, key, "processing", o);
      PcKeepsInv(SetStatus(s, key, "processing", o), h, s'.handlers[h].pc);
    case Working =>
      SaveKeepsInv(s, key, video, o);
      PcKeepsInv(Saved(s, key, video, o), h, s'.handlers[h].pc);
    case MarkingFailed =>
      StatusKeepsInv(s, key, "failed", o);
      PcKeepsInv(SetStatus(s, key, "failed", o), h, Nacking);
    case Nacking => PcKeepsInv(s, h, Ended);
    case Acking =>
      AckKeepsInv(s, h);
      PcKeepsInv(if o.Lost? then s else s.(acked := s.acked + {h}), h, s'.handlers[h].pc);
    case MarkingOk =>
      AckKeepsInv(s, h);
      StatusKeepsInv(s, key, "ok", o);
      PcKeepsInv(SetStatus(s, key, "ok", o), h, Ended);
    case Ended =>
  }

  lemma StepKeepsInv(s: State, e: Event)
    requires Inv(s)
    ensures Inv(Step(s, e)) && Step(s, e).uuids == s.uuids && Step(s, e).now >= s.now
  {
    hide AdvanceHandler, Inv;
    match e
    case Advance(h, o, video) =>
      if h in s.handlers {
        AdvanceKeepsInv(s, h, o, video);
        AdvanceFrame(s, h, o, video);
      }
    case StartUpload(user, id, ext, o) => StatusKeepsInv(s, Minted(user, id, ext), "uploading", o);
    case SaveUpload(userText, savedKey, o) => SavedMetadataKeepsInv(s, userText, savedKey, o);
    case DeleteUser(user) => DeletionKeepsInv(s, user);
    case _ => QuietKeepsInv(s, e);
  }

  lemma DeletionKeepsInv(s: State, user: string)
    requires Inv(s)
    ensures Inv(Step(s, DeleteUser(user)))
  {
    forall k
      ensures WasSaved(s, k) ==> WasSaved(Step(s, DeleteUser(user)), k)
    {
    }
    hide WasSaved;
  }

  lemma QuietKeepsInv(s: State, e: Event)
    requires Inv(s) && (e.Tick? || e.Write? || e.Notify? || e.AddUser?)
    ensures Inv(Step(s, e))
  {
    forall k
      ensures WasSaved(Step(s, e), k) == WasSaved(s, k)
    {
    }
    hide WasSaved;
  }

  lemma AdvanceFrame(s: State, h: nat, o: Outcome, video: Option<Video>)
    requires h in s.handlers
    ensures var s' := AdvanceHandler(s, h, o, video); s'.uuids == s.uuids && s'.now == s.now
  {
    hide SetStatus, Saved, SetPc, IsAccepted;
  }

  lemma {:induction false} RunKeepsInv(s: State, es: seq<Event>)
    requires Inv(s)
    ensures Inv(Run(s, es)) && Run(s, es).uuids == s.uuids
    decreases |es|
  {
    hide Inv, Step;
    if es != [] {
      StepKeepsInv(s, es[0]);
      RunKeepsInv(Step(s, es[0]), es[1..]);
    }
  }

  lemma InitialInv(uuids: map<string, string>, maxBytes: int, now: int)
    ensures Inv(Initial(uuids, maxBytes, now))
  {
  }

  /** A notification is acknowledged only once the user of its key has a row, which lives as long as the account. */
  lemma AcknowledgedMeansSaved(uuids: map<string, string>, maxBytes: int, now: int, es: seq<Event>, h: nat)
    requires h in Run(Initial(uuids, maxBytes, now), es).acked
    ensures var s := Run(Initial(uuids, maxBytes, now), es); h in s.handlers && WasSaved(s, s.handlers[h].key)
  {
    hide Run;
    InitialInv(uuids, maxBytes, now);
    RunKeepsInv(Initial(uuids, maxBytes, now), es);
  }

  lemma {:induction false} ColonlessSeparatesToItself(key: string)
    requires ':' !in key
    ensures SeparateUserId(key) == key
  {
    if key != "" {
      assert key[0] in key && key == [key[0]] + key[1..];
      ColonlessSeparatesToItself(key[1..]);
    }
  }

  /** A key without a colon that reads as another user's id: nothing ties its "ok" to the caller's row. */
  predicate IsSomebodyElses(uuids: map<string, string>, key: string, user: string) {
    ':' !in key && key != "" && key in uuids && user in uuids && uuids[user] != uuids[key]
  }

  /** A key that passes the owner check and is nobody else's is the caller's own. */
  lemma OwnKeyNamesCaller(s: State, user: string, key: string)
    requires ':' !in user && user != "" && PassesOwnerCheck(user, key) && user in s.uuids
    requires UserOf(s, key).Some? && !IsSomebodyElses(s.uuids, key, user)
    ensures UserOf(s, key).value == s.uuids[user]
  {
    if ':' in key {
      assert key == user + ":" + key[|user| + 1..];
      SeparateStopsAtColon(user, key[|user| + 1..]);
    } else {
      ColonlessSeparatesToItself(key);
    }
  }

  /**
   In every reachable state, with working reads: a caller whose id has no colon is told "last video not found"
   exactly when the key passes the owner check, its live entry says "ok", and either the caller's account has
   been deleted, or the key, having no colon, names another user and the caller has no row.
   */
  lemma NotFoundExactly(
    uuids: map<string, string>, maxBytes: int, now: int, es: seq<Event>, user: string, key: string)
    requires ':' !in user && user != ""
    ensures var s := Run(Initial(uuids, maxBytes, now), es);
      StatusOf(s, user, key, false, false).NotFound? <==>
        && PassesOwnerCheck(user, key) && Read(s.cache, Uploading(key), s.now, false) == Hit("ok") && user in uuids
        && (uuids[user] in s.gone || (IsSomebodyElses(uuids, key, user) && uuids[user] !in s.lastUpload))
  {
    hide Run;
    var s := Run(Initial(uuids, maxBytes, now), es);
    InitialInv(uuids, maxBytes, now);
    RunKeepsInv(Initial(uuids, maxBytes, now), es);
    if StatusOf(s, user, key, false, false).NotFound? && !IsSomebodyElses(uuids, key, user) {
      assert WasSaved(s, key);
      OwnKeyNamesCaller(s, user, key);
    }
  }

  /**
   So for a key minted by `Upload` only its owner gets past the check, and hears "not found" exactly when the
   entry says "ok" and the account has been deleted since. Otherwise the answer is a status other than "ok", a
   store failure, or the video last saved for that user, be it by the processing worker or by the
   save-metadata worker.
   */
  lemma MintedKeyIsReadyWhenOk(
    uuids: map<string, string>, maxBytes: int, now: int, es: seq<Event>,
    owner: string, id: string, ext: string, user: string, cacheFault: bool, rowFault: bool)
    requires ':' !in owner && ':' !in user && owner != ""
    ensures var s, key := Run(Initial(uuids, maxBytes, now), es), Minted(owner, id, ext);
      var r := StatusOf(s, user, key, cacheFault, rowFault);
      && (r.OwnerMismatch? <==> user != owner)
      && (r.NotFound? <==>
            && user == owner && !cacheFault && !rowFault && owner in uuids && uuids[owner] in s.gone
            && Read(s.cache, Uploading(key), s.now, false) == Hit("ok"))
      && (r.Ready? ==> owner in uuids && Some(r.fileKey) == LastOf(s.saves, uuids[owner]))
  {
    hide Run, Inv;
    var s := Run(Initial(uuids, maxBytes, now), es);
    var key := Minted(owner, id, ext);
    MintedKeyNamesItsUser(owner, id, ext, user);
    assert ':' in key by {
      assert key[|owner|] == ':';
    }
    if user == owner {
      NotFoundExactly(uuids, maxBytes, now, es, user, key);
    }
    InitialInv(uuids, maxBytes, now);
    RunKeepsInv(Initial(uuids, maxBytes, now), es);
    RowsAreLastSaves(Initial(uuids, maxBytes, now), es);
  }

  /** No video above the limit was saved by the processing worker. */
  ghost predicate SavesFit(s: State) {
    forall i :: 0 <= i < |s.saves| && s.saves[i].writer.ProcessingWorker? ==> s.saves[i].writer.size <= s.maxBytes
  }

  lemma StepKeepsFitting(s: State, e: Event)
    requires SavesFit(s)
    ensures SavesFit(Step(s, e)) && Step(s, e).maxBytes == s.maxBytes
  {
    hide UserOf, NextPc;
  }

  lemma {:induction false} RunKeepsFitting(s: State, es: seq<Event>)
    requires SavesFit(s)
    ensures SavesFit(Run(s, es)) && Run(s, es).maxBytes == s.maxBytes
    decreases |es|
  {
    hide SavesFit, Step;
    if es != [] {
      StepKeepsFitting(s, es[0]);
      RunKeepsFitting(Step(s, es[0]), es[1..]);
    }
  }

  /** Whatever the interleaving, every save by the processing worker was of a video within the limit. */
  lemma OversizedVideosAreNeverSaved(uuids: map<string, string>, maxBytes: int, now: int, es: seq<Event>, i: nat)
    requires i < |Run(Initial(uuids, maxBytes, now), es).saves|
    ensures var save := Run(Initial(uuids, maxBytes, now), es).saves[i];
      save.writer.ProcessingWorker? ==> save.writer.size <= maxBytes
  {
    hide Run;
    RunKeepsFitting(Initial(uuids, maxBytes, now), es);
  }

  /** The table is the last save of every user. */
  ghost predicate RowsAreLast(s: State) {
    forall u :: u in s.lastUpload ==> Some(s.lastUpload[u]) == LastOf(s.saves, u)
  }

  lemma SaveKeepsLast(s: State, s': State, save: Save)
    requires RowsAreLast(s)
    requires s'.saves == s.saves + [save] && s'.lastUpload == s.lastUpload[save.user := save.fileKey]
    ensures RowsAreLast(s')
  {
    assert s'.saves[..|s'.saves| - 1] == s.saves;
  }

  lemma StepKeepsLast(s: State, e: Event)
    requires RowsAreLast(s)
    ensures RowsAreLast(Step(s, e))
  {
    hide RowsAreLast, UserOf, IsAccepted;
    var s' := Step(s, e);
    if s'.saves == s.saves {
      SavesDecideLast(s, s');
    } else {
      SaveKeepsLast(s, s', s'.saves[|s.saves|]);
    }
  }

  lemma SavesDecideLast(s: State, s': State)
    requires RowsAreLast(s) && s'.saves == s.saves
    requires forall u :: u in s'.lastUpload ==> u in s.lastUpload && s'.lastUpload[u] == s.lastUpload[u]
    ensures RowsAreLast(s')
  {
  }

  lemma {:induction false} RowsAreLastSaves(s: State, es: seq<Event>)
    requires RowsAreLast(s)
    ensures RowsAreLast(Run(s, es))
    decreases |es|
  {
    hide RowsAreLast, Step;
    if es != [] {
      StepKeepsLast(s, es[0]);
      RowsAreLastSaves(Step(s, es[0]), es[1..]);
    }
  }

  function Handled(h: nat, key: string, video: Video): seq<Event> {
    var next := Advance(h, Done, None);
    [Notify(h, key), next, Advance(h, Done, Some(video)), next, next]
  }

  /** A handler whose calls all succeed saves the row and leaves "ok". */
  lemma HandledAlone(s: State, h: nat, key: string, video: Video)
    requires h !in s.handlers && IsAccepted(s, key, Some(video))
    ensures var s' := Run(s, Handled(h, key, video));
      && s'.uuids == s.uuids && s'.users == s.users && s'.now == s.now
      && s'.lastUpload == s.lastUpload[UserOf(s, key).value := video.fileKey]
      && s'.cache == s.cache[Uploading(key) := Entry("processing", s.now + STATUS_TTL)]
                            [Uploading(key) := Entry("ok", s.now + STATUS_TTL)]
  {
    hide Run, UserOf, AdvanceHandler;
    var next := Advance(h, Done, None);
    RunFive(s, Notify(h, key), next, Advance(h, Done, Some(video)), next, next);
    var s1 := s.(handlers := s.handlers[h := Handler(key, Marking)]);
    var s2 := SetPc(SetStatus(s1, key, "processing", Done), h, Working);
    var s3 := SetPc(Saved(s2, key, Some(video), Done), h, Acking);
    var s4 := SetPc(s3.(acked := s3.acked + {h}), h, MarkingOk);
    DoneAdvances(s1, h, None);
    UuidsDecideUser(s, s2, key);
    DoneAdvances(s2, h, Some(video));
    DoneAdvances(s3, h, None);
    DoneAdvances(s4, h, None);
  }

  lemma UuidsDecideUser(s: State, s': State, key: string)
    requires s'.uuids == s.uuids
    ensures UserOf(s', key) == UserOf(s, key)
  {
  }

  lemma DoneAdvances(s: State, h: nat, video: Option<Video>)
    requires h in s.handlers
    ensures var key, s' := s.handlers[h].key, AdvanceHandler(s, h, Done, video);
      && (s.handlers[h].pc.Marking? ==> s' == SetPc(SetStatus(s, key, "processing", Done), h, Working))
      && (s.handlers[h].pc.Working? && IsAccepted(s, key, video) ==> s' == SetPc(Saved(s, key, video, Done), h, Acking))
      && (s.handlers[h].pc.Acking? ==> s' == SetPc(s.(acked := s.acked + {h}), h, MarkingOk))
      && (s.handlers[h].pc.MarkingOk? ==> s' == SetPc(SetStatus(s, key, "ok", Done), h, Ended))
  {
    hide SetPc, SetStatus, Saved, IsAccepted;
  }

  /** One call of a handler that has been started and whose other calls succeed. */
  lemma CallDecides(s: State, h: nat, o: Outcome, video: Option<Video>)
    requires h in s.handlers
    ensures var key, s' := s.handlers[h].key, AdvanceHandler(s, h, o, video);
      var accepted := IsAccepted(s, key, video);
      && (s.handlers[h].pc.Working? ==>
            s' == SetPc(Saved(s, key, video, o), h, if accepted && o.Done? then Acking else MarkingFailed))
      && (s.handlers[h].pc.MarkingFailed? ==> s' == SetPc(SetStatus(s, key, "failed", o), h, Nacking))
      && (s.handlers[h].pc.Nacking? ==> s' == SetPc(s, h, Ended))
  {
    hide SetPc, SetStatus, Saved, IsAccepted;
  }

  /**
   How a delivered notification ends, when its two status writes and its settlement succeed: it is acknowledged and
   its status is "ok" exactly if the key is not empty, the video could be read, the text before the colon is the id
   of an account, the size is a number within the limit, and the row could be written; else the status is "failed".
   The row changes exactly if the write took effect under those conditions.
   */
  lemma NotifiedVideoEnds(s: State, h: nat, key: string, video: Option<Video>, o: Outcome)
    requires h !in s.handlers && h !in s.acked
    ensures var next, text := Advance(h, Done, None), SeparateUserId(key);
      var end := Run(s, [Notify(h, key), next, Advance(h, o, video), next, next]);
      var fits :=
        && key != "" && video.Some? && text != "" && text in s.uuids && s.uuids[text] in s.users
        && video.value.size.Some? && video.value.size.value <= s.maxBytes;
      && (h in end.acked <==> fits && o.Done?)
      && Uploading(key) in end.cache
      && end.cache[Uploading(key)] == Entry(if fits && o.Done? then "ok" else "failed", s.now + 300_000)
      && end.lastUpload ==
           (if fits && !o.Lost? then s.lastUpload[s.uuids[text] := video.value.fileKey] else s.lastUpload)
  {
    hide Run, AdvanceHandler, SeparateUserId;
    var next := Advance(h, Done, None);
    RunFive(s, Notify(h, key), next, Advance(h, o, video), next, next);
    var s1 := s.(handlers := s.handlers[h := Handler(key, Marking)]);
    DoneAdvances(s1, h, None);
    var s2 := AdvanceHandler(s1, h, Done, None);
    CallDecides(s2, h, o, video);
    var s3 := AdvanceHandler(s2, h, o, video);
    DoneAdvances(s3, h, None);
    CallDecides(s3, h, Done, None);
    var s4 := AdvanceHandler(s3, h, Done, None);
    DoneAdvances(s4, h, None);
    CallDecides(s4, h, Done, None);
  }

  /** Until a handler is done with its video, the key's status is "processing"; after an upload it is "uploading". */
  lemma StatusSaysWhereItIs(
    s: State, h: nat, key: string, user: string, id: string, ext: string, cacheFault: bool, rowFault: bool)
    requires h !in s.handlers && PassesOwnerCheck(user, key) && !cacheFault && ':' !in user
    ensures StatusOf(Step(Step(s, Notify(h, key)), Advance(h, Done, None)), user, key, cacheFault, rowFault)
         == Reported("processing")
    ensures StatusOf(Step(s, StartUpload(user, id, ext, Done)), user, user + ":" + id + ext, cacheFault, rowFault)
         == Reported("uploading")
  {
    MintedKeyNamesItsUser(user, id, ext, user);
    var s1 := Step(s, Notify(h, key));
    DoneAdvances(s1, h, None);
    hide AdvanceHandler;
  }

  /** From upload to playback: a video handled without failure is served to its owner for five minutes. */
  lemma UploadedVideoIsServed(s: State, h: nat, user: string, id: string, ext: string, video: Video, ms: nat)
    requires h !in s.handlers && ':' !in user && user != "" && user in s.uuids && s.uuids[user] in s.users
    requires video.size.Some? && video.size.value <= s.maxBytes
    ensures var key := Minted(user, id, ext);
      var s' := Step(Run(Step(s, StartUpload(user, id, ext, Done)), Handled(h, key, video)), Tick(ms));
      StatusOf(s', user, key, false, false) == if ms <= 300_000 then Ready(video.fileKey) else Reported("failed")
  {
    hide Run, Handled;
    var key := Minted(user, id, ext);
    MintedKeyNamesItsUser(user, id, ext, user);
    assert key != "" by {
      assert key[|user|] == ':';
    }
    HandledAlone(Step(s, StartUpload(user, id, ext, Done)), h, key, video);
  }

  /** The prefix of a run that opens the accounts of two users. */
  lemma AccountsOpened(uuids: map<string, string>, maxBytes: int, now: int, user: string, user': string)
    ensures Run(Initial(uuids, maxBytes, now), [AddUser(user), AddUser(user')]) ==
      Initial(uuids, maxBytes, now).(users := {user, user'})
  {
    var s := Initial(uuids, maxBytes, now);
    var s1 := Step(s, AddUser(user));
    assert Run(s, [AddUser(user), AddUser(user')]) == Run(s1, [AddUser(user')]) == Run(Step(s1, AddUser(user')), []);
    assert Step(s1, AddUser(user')).users == {user, user'};
  }

  lemma {:induction false} RunAppends(s: State, es: seq<Event>, more: seq<Event>)
    ensures Run(s, es + more) == Run(Run(s, es), more)
    decreases |es|
  {
    hide Step;
    if es == [] {
      assert es + more == more;
    } else {
      assert (es + more)[1..] == es[1..] + more;
      RunAppends(Step(s, es[0]), es[1..], more);
    }
  }

  /** For every key that names another user: one video handled under it, and the caller hears "not found". */
  lemma ColonlessKeyMayBeNotFound(uuids: map<string, string>, maxBytes: int, now: int, user: string, key: string)
    requires maxBytes >= 0 && IsSomebodyElses(uuids, key, user)
    ensures var es := [AddUser(uuids[user]), AddUser(uuids[key])] + Handled(0, key, Video("v", Some(0)));
      var s := Run(Initial(uuids, maxBytes, now), es);
      uuids[user] in s.users && StatusOf(s, user, key, false, false).NotFound?
  {
    hide Run, Handled;
    var opening := [AddUser(uuids[user]), AddUser(uuids[key])];
    AccountsOpened(uuids, maxBytes, now, uuids[user], uuids[key]);
    RunAppends(Initial(uuids, maxBytes, now), opening, Handled(0, key, Video("v", Some(0))));
    ColonlessSeparatesToItself(key);
    HandledAlone(Run(Initial(uuids, maxBytes, now), opening), 0, key, Video("v", Some(0)));
  }

  /** The keys about which a caller with an account can ever hear it are exactly those. */
  lemma MembersMayHearNotFoundExactly(
    uuids: map<string, string>, maxBytes: int, now: int, user: string, key: string)
    requires ':' !in user && user != "" && maxBytes >= 0
    ensures (exists es ::
              var s := Run(Initial(uuids, maxBytes, now), es);
              StatusOf(s, user, key, false, false).NotFound? && user in uuids && uuids[user] in s.users)
       <==> IsSomebodyElses(uuids, key, user)
  {
    hide Run, StatusOf, PassesOwnerCheck, Read;
    if IsSomebodyElses(uuids, key, user) {
      ColonlessKeyMayBeNotFound(uuids, maxBytes, now, user, key);
    }
    forall es |
      var s := Run(Initial(uuids, maxBytes, now), es);
      StatusOf(s, user, key, false, false).NotFound? && user in uuids && uuids[user] in s.users
      ensures IsSomebodyElses(uuids, key, user)
    {
      NotFoundExactly(uuids, maxBytes, now, es, user, key);
      MembersAreNotGone(uuids, maxBytes, now, es, uuids[user]);
    }
  }

  lemma MembersAreNotGone(uuids: map<string, string>, maxBytes: int, now: int, es: seq<Event>, user: string)
    ensures var s := Run(Initial(uuids, maxBytes, now), es); user in s.users ==> user !in s.gone
  {
    hide Run;
    InitialInv(uuids, maxBytes, now);
    RunKeepsInv(Initial(uuids, maxBytes, now), es);
  }

  /** And every minted key can lose its row: its video is handled, and then the account deleted. */
  lemma DeletedAccountHearsNotFound(
    uuids: map<string, string>, maxBytes: int, now: int, owner: string, id: string, ext: string)
    requires maxBytes >= 0 && ':' !in owner && owner != "" && owner in uuids
    ensures var key := Minted(owner, id, ext);
      var es := [AddUser(uuids[owner]), StartUpload(owner, id, ext, Done)] + Handled(0, key, Video("v", Some(0)))
        + [DeleteUser(uuids[owner])];
      StatusOf(Run(Initial(uuids, maxBytes, now), es), owner, key, false, false).NotFound?
  {
    hide Run, Handled;
    var u, key, video := uuids[owner], Minted(owner, id, ext), Video("v", Some(0));
    var s0, opening := Initial(uuids, maxBytes, now), [AddUser(u), StartUpload(owner, id, ext, Done)];
    RunAppends(s0, opening, Handled(0, key, video));
    RunAppends(s0, opening + Handled(0, key, video), [DeleteUser(u)]);
    RunFew(s0, AddUser(u), StartUpload(owner, id, ext, Done));
    MintedKeyNamesItsUser(owner, id, ext, owner);
    assert key != "" by {
      assert key[|owner|] == ':';
    }
    var s := Run(s0, opening);
    HandledAlone(s, 0, key, video);
    RunLast(Run(s, Handled(0, key, video)), DeleteUser(u));
  }

  lemma RunLast(s: State, e: Event)
    ensures Run(s, [e]) == Step(s, e)
  {
    hide Step;
    assert Run(s, [e]) == Run(Step(s, e), []);
  }

  lemma RunFew(s: State, e1: Event, e2: Event)
    ensures Run(s, [e1, e2]) == Step(Step(s, e1), e2)
  {
    hide Step;
    assert Run(s, [e1, e2]) == Run(Step(s, e1), [e2]);
    RunLast(Step(s, e1), e2);
  }

  lemma RunFive(s: State, e1: Event, e2: Event, e3: Event, e4: Event, e5: Event)
    ensures Run(s, [e1, e2, e3, e4, e5]) == Step(Step(Step(Step(Step(s, e1), e2), e3), e4), e5)
  {
    hide Step;
    var s1 := Step(s, e1);
    var s2 := Step(s1, e2);
    var s3 := Step(s2, e3);
    var s4 := Step(s3, e4);
    assert Run(s, [e1, e2, e3, e4, e5]) == Run(s1, [e2, e3, e4, e5]) == Run(s2, [e3, e4, e5])
      == Run(s3, [e4, e5]) == Run(s4, [e5]) == Run(Step(s4, e5), []);
  }
}
