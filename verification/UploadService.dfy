/**
 `Upload`, `ProcessAndSave`, `Status` and the processing worker's `handle`, as they run: each changes the
 stores exactly as its events of the upload machine do.
 */
module UploadService {
  import opened Prelude
  import opened Cache
  import opened Keys
  import opened Uploads
  import Conversion

  datatype UploadError = InvalidExt | QuotaExceeded | StorageFailed | StatusFailed

  /** A delivered notification: no JSON, without records, with an undecodable key, or naming a key. */
  datatype Body = Malformed | WithoutRecords | Undecodable | Naming(key: string)

  /** How the outside world answers one handler, call by call. */
  datatype World = World(mark: Outcome, video: Option<Video>, save: Outcome, third: Outcome, fourth: Outcome)

  /** A handler that could not mark its key rejects the notification with its second call and is done. */
  function Calls(h: nat, w: World): seq<Event> {
    [Advance(h, w.mark, None), Advance(h, w.save, w.video), Advance(h, w.third, None), Advance(h, w.fourth, None)]
  }

  lemma RunFour(s: State, es: seq<Event>)
    requires |es| == 4
    ensures Run(s, es) == Step(Step(Step(Step(s, es[0]), es[1]), es[2]), es[3])
  {
    hide Step;
    var s1 := Step(s, es[0]);
    var s2 := Step(s1, es[1]);
    var s3 := Step(s2, es[2]);
    assert es == [es[0], es[1], es[2], es[3]];
    assert Run(s, es) == Run(s1, [es[1], es[2], es[3]]) == Run(s2, [es[2], es[3]]) == Run(s3, [es[3]])
      == Run(Step(s3, es[3]), []);
  }

  class MediaService {
    const cache: RedisCache
    const uuids: map<string, string>
    const maxBytes: int
    var users: set<string>
    var lastUpload: map<string, string>
    var now: int
    ghost var state: State

    ghost predicate Valid()
      reads this, cache
    {
      && cache.Valid() && state.cache == cache.entries && state.now == now
      && state.lastUpload == lastUpload && state.users == users && state.uuids == uuids && state.maxBytes == maxBytes
    }

    constructor (uuids: map<string, string>, maxBytes: int, now: int)
      ensures Valid() && fresh(cache) && state == Initial(uuids, maxBytes, now)
    {
      cache := new RedisCache();
      this.uuids, this.maxBytes, this.now, users, lastUpload := uuids, maxBytes, now, {}, map[];
      state := Initial(uuids, maxBytes, now);
    }

    method UpdateUploadingStatus(key: string, status: string, o: Outcome) returns (ok: bool)
      requires Valid()
      modifies this, cache
      ensures Valid() && ok == o.Done? && state == SetStatus(old(state), key, status, o)
    {
      ok := cache.Set(Uploading(key), status, STATUS_TTL, now, o);
      state := SetStatus(state, key, status, o);
    }

    /** `quota` is missing when it could not be read, which does not stop the upload. */
    method Upload(
      filename: string, user: string, quota: Option<Conversion.Quota>, id: string, created: bool, o: Outcome)
      returns (r: Result<string, UploadError>)
      requires Valid()
      modifies this, cache
      ensures Valid()
      ensures exists ext: string ::
        && IsExt(filename, ext)
        && (r == Err(InvalidExt) <==> ext == "" || ext == ".")
        && (r.Ok? ==> r.value == user + ":" + id + ext)
        && state == (if r.Ok? || r.error.StatusFailed?
                     then Step(old(state), StartUpload(user, id, ext, o)) else old(state))
      ensures var usedUp :=
          quota.Some? && quota.value.totalBytes > 0 && quota.value.usedBytes >= quota.value.totalBytes;
        && (r == Err(QuotaExceeded) <==> r != Err(InvalidExt) && usedUp)
        && (r == Err(StorageFailed) <==> r != Err(InvalidExt) && !usedUp && !created)
        && (r == Err(StatusFailed) <==> r != Err(InvalidExt) && !usedUp && created && !o.Done?)
      ensures r.Ok? ==>
        cache.entries == old(cache.entries)[Uploading(r.value) := Entry("uploading", old(now) + 300_000)]
    {
      var ext := Ext(filename);
      if ext == "" || ext == "." {
        return Err(InvalidExt);
      }
      if quota.Some? {
        if quota.value.totalBytes > 0 && quota.value.usedBytes >= quota.value.totalBytes {
          return Err(QuotaExceeded);
        }
      }
      var key := user + ":" + id + ext;
      if !created {
        return Err(StorageFailed);
      }
      var ok := UpdateUploadingStatus(key, "uploading", o);
      if !ok {
        return Err(StatusFailed);
      }
      r := Ok(key);
    }

    /** The text before the first colon. */
    method Separate(key: string) returns (text: string)
      ensures text == SeparateUserId(key)
    {
      var i := 0;
      while i < |key| && key[i] != ':'
        invariant 0 <= i <= |key|
        invariant SeparateUserId(key) == key[..i] + SeparateUserId(key[i..])
      {
        assert key[..i + 1] == key[..i] + [key[i]];
        assert key[i..][1..] == key[i + 1..];
        i := i + 1;
      }
      text := key[..i];
    }

    /** The row needs an account to belong to. */
    method CreateLastVideo(user: string, fileKey: string, o: Outcome) returns (ok: bool)
      modifies `lastUpload
      ensures ok <==> o.Done? && user in users
      ensures lastUpload == if o.Lost? || user !in users then old(lastUpload) else old(lastUpload)[user := fileKey]
    {
      ok := o.Done? && user in users;
      if !o.Lost? && user in users {
        lastUpload := lastUpload[user := fileKey];
      }
    }

    method ProcessAndSave(key: string, video: Option<Video>, o: Outcome) returns (ok: bool)
      requires Valid()
      modifies this
      ensures Valid() && state == Saved(old(state), key, video, o)
      ensures ok <==> IsAccepted(old(state), key, video) && o.Done?
      ensures var text := SeparateUserId(key);
        var fits :=
          && key != "" && video.Some? && text != "" && text in uuids && uuids[text] in users
          && video.value.size.Some? && video.value.size.value <= maxBytes;
        && (ok <==> fits && o.Done?)
        && lastUpload ==
             (if fits && !o.Lost? then old(lastUpload)[uuids[text] := video.value.fileKey] else old(lastUpload))
      ensures users == old(users) && now == old(now)
    {
      hide SeparateUserId;
      ghost var s := state;
      state := Saved(state, key, video, o);
      if key == "" || video.None? {
        return false;
      }
      var text := Separate(key);
      if text == "" {
        return false;
      }
      if video.value.size.None? || video.value.size.value > maxBytes {
        return false;
      }
      if text !in uuids {
        return false;
      }
      ok := CreateLastVideo(uuids[text], video.value.fileKey, o);
    }

    method Status(user: string, key: string, cacheFault: bool, rowFault: bool) returns (r: StatusResult)
      requires Valid()
      ensures r == StatusOf(state, user, key, cacheFault, rowFault)
      ensures var mine := ':' !in key || user + ":" <= key;
        var live := Uploading(key) in cache.entries && now <= cache.entries[Uploading(key)].expireAt;
        var status := if live then cache.entries[Uploading(key)].value else "failed";
        && (r == OwnerMismatch <==> !mine)
        && (r == CacheFailed <==> mine && cacheFault)
        && (mine && !cacheFault && status != "ok" ==> r == Reported(status))
        && (mine && !cacheFault && status == "ok" ==>
              r == if rowFault || user !in uuids then RowFailed
                   else if uuids[user] in lastUpload then Ready(lastUpload[uuids[user]])
                   else NotFound)
    {
      if ':' in key && !(user + ":" <= key) {
        return OwnerMismatch;
      }
      var got := cache.Get(Uploading(key), now, cacheFault);
      var status := if got.Hit? then got.value else "failed";
      if got.Fault? {
        return CacheFailed;
      }
      if status != "ok" {
        return Reported(status);
      }
      if rowFault || user !in uuids {
        return RowFailed;
      }
      if uuids[user] !in lastUpload {
        return NotFound;
      }
      r := Ready(lastUpload[uuids[user]]);
    }

    lemma AcceptedExactly(key: string, video: Option<Video>)
      requires Valid()
      ensures var text := SeparateUserId(key);
        IsAccepted(state, key, video) <==>
          && key != "" && video.Some? && text != "" && text in uuids && uuids[text] in users
          && video.value.size.Some? && video.value.size.value <= maxBytes
    {
    }

    // ---------- the worker ----------

    /** Settles the delivery of `h`; `ack` tells which way. */
    method Settle(h: nat, ack: bool, o: Outcome, ghost video: Option<Video>) returns (ok: bool)
      requires Valid() && h in state.handlers && state.handlers[h].pc == (if ack then Acking else Nacking)
      modifies `state
      ensures Valid() && ok == o.Done? && state == Step(old(state), Advance(h, o, video))
    {
      ok := o.Done?;
      state := Step(state, Advance(h, o, video));
    }

    /** One status write of the handler of `h`. */
    method Mark(h: nat, key: string, status: string, o: Outcome) returns (ok: bool)
      requires Valid() && h in state.handlers && state.handlers[h].key == key
      requires match state.handlers[h].pc
        case Marking => status == "processing"
        case MarkingFailed => status == "failed"
        case MarkingOk => status == "ok"
        case _ => false
      modifies this, cache
      ensures Valid() && ok == o.Done? && state == Step(old(state), Advance(h, o, None))
    {
      ghost var s := state;
      ok := UpdateUploadingStatus(key, status, o);
      state := Step(s, Advance(h, o, None));
    }

    /** The processing of the handler of `h`. */
    method Work(h: nat, key: string, video: Option<Video>, o: Outcome) returns (ok: bool)
      requires Valid() && h in state.handlers && state.handlers[h] == Handler(key, Working)
      modifies this
      ensures Valid() && state == Step(old(state), Advance(h, o, video))
      ensures ok <==> state.handlers[h].pc == Acking
    {
      ghost var s := state;
      ok := ProcessAndSave(key, video, o);
      state := Step(s, Advance(h, o, video));
    }

    /** `processed` tells that the video was saved and acknowledged and is marked "ok". */
    method Handle(h: nat, body: Body, w: World) returns (processed: bool)
      requires Valid() && h !in state.handlers
      modifies this, cache
      ensures Valid()
      ensures body.Naming? ==> state == Run(Step(old(state), Notify(h, body.key)), Calls(h, w))
      ensures !body.Naming? ==> state == old(state) && !processed
      ensures processed <==>
        && body.Naming? && IsAccepted(old(state), body.key, w.video)
        && w == World(Done, w.video, Done, Done, Done)
      ensures processed <==>
        && body.Naming? && body.key != "" && w == World(Done, w.video, Done, Done, Done)
        && var text := SeparateUserId(body.key);
           && text != "" && text in uuids && uuids[text] in old(users)
           && w.video.Some? && w.video.value.size.Some? && w.video.value.size.value <= maxBytes
    {
      hide AdvanceHandler, Run, SeparateUserId;
      if body.Naming? {
        AcceptedExactly(body.key, w.video);
      }
      hide IsAccepted;
      if !body.Naming? {
        return false;
      }
      var key := body.key;
      state := Step(state, Notify(h, key));
      ghost var s := state;
      UuidsDecideAcceptance(old(state), s, key, w.video);
      RunFour(s, Calls(h, w));
      CallsInFull(s, h, w);
      var marked := Mark(h, key, "processing", w.mark);
      if !marked {
        var rejected := Settle(h, false, w.save, w.video);
        return false;
      }
      var saved := Work(h, key, w.video, w.save);
      if !saved {
        var told := Mark(h, key, "failed", w.third);
        var rejected := Settle(h, false, w.fourth, None);
        return false;
      }
      var acked := Settle(h, true, w.third, None);
      if !acked {
        return false;
      }
      processed := Mark(h, key, "ok", w.fourth);
    }
  }

  /** Where the calls of a handler that has just started lead. */
  lemma CallsInFull(s: State, h: nat, w: World)
    requires h in s.handlers && s.handlers[h].pc.Marking?
    ensures var key := s.handlers[h].key;
      var s1 := Step(s, Advance(h, w.mark, None));
      var s2 := Step(s1, Advance(h, w.save, w.video));
      var s3 := Step(s2, Advance(h, w.third, None));
      && h in s1.handlers && s1.handlers[h] == Handler(key, if w.mark.Done? then Working else Nacking)
      && h in s2.handlers && s2.handlers[h].key == key
      && (w.mark.Done? ==>
            s2.handlers[h].pc == (if IsAccepted(s, key, w.video) && w.save.Done? then Acking else MarkingFailed))
      && (!w.mark.Done? ==> s3 == s2 && Step(s2, Advance(h, w.fourth, None)) == s2)
      && h in s3.handlers && s3.handlers[h].key == key
      && (s2.handlers[h].pc.MarkingFailed? ==> s3.handlers[h].pc.Nacking?)
      && (s2.handlers[h].pc.Acking? ==> s3.handlers[h].pc == (if w.third.Done? then MarkingOk else Ended))
      && (s3.handlers[h].pc.Ended? ==> Step(s3, Advance(h, w.fourth, None)) == s3)
  {
    var key := s.handlers[h].key;
    var s1 := Step(s, Advance(h, w.mark, None));
    UuidsDecideAcceptance(s, s1, key, w.video);
    OneCall(s, h, w.mark, None);
    OneCall(s1, h, w.save, w.video);
    var s2 := Step(s1, Advance(h, w.save, w.video));
    OneCall(s2, h, w.third, None);
    OneCall(Step(s2, Advance(h, w.third, None)), h, w.fourth, None);
    hide Step, IsAccepted;
  }

  lemma UuidsDecideAcceptance(s: State, s': State, key: string, video: Option<Video>)
    requires s'.uuids == s.uuids && s'.users == s.users && s'.maxBytes == s.maxBytes
    ensures IsAccepted(s', key, video) == IsAccepted(s, key, video)
  {
  }

  lemma EndedStays(accepted: bool, o: Outcome)
    ensures NextPc(Ended, accepted, o) == Ended
  {
  }

  lemma OneCall(s: State, h: nat, o: Outcome, video: Option<Video>)
    requires h in s.handlers
    ensures var s', key := Step(s, Advance(h, o, video)), s.handlers[h].key;
      && s'.uuids == s.uuids && s'.users == s.users && s'.maxBytes == s.maxBytes
      && h in s'.handlers && s'.handlers[h].key == key
      && s'.handlers[h].pc == NextPc(s.handlers[h].pc, IsAccepted(s, key, video), o)
      && (s.handlers[h].pc.Ended? ==> s' == s)
  {
    hide IsAccepted, Saved, SetStatus, SetPc, NextPc;
    assert NextPc(Ended, IsAccepted(s, s.handlers[h].key, video), o).Ended? by {
      EndedStays(IsAccepted(s, s.handlers[h].key, video), o);
    }
  }
}
