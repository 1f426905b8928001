/** Sharing, unsharing and downloading as the services do them, on the tables of the share machine. */
module ShareService {
  import opened Prelude
  import opened Shares

  datatype ShareError =
    | InvalidExpiry | UserNotFound | GifNotFound | OwnerMismatch | NotFound | NotAuthorized
    | QueryFailed | StorageFailed

  class Database {
    var users: map<nat, string>
    var gifs: map<string, nat>
    var shares: map<nat, Share>
    var downloads: map<string, nat>
    var next: nat
    var now: int
    ghost var state: State

    ghost predicate Valid()
      reads this
    {
      && state.users == users && state.gifs == gifs && state.shares == shares && state.next == next && state.now == now
      && Inv(state)
    }

    constructor (now: int)
      ensures Valid() && state == Initial(now)
    {
      users, gifs, shares, downloads, next, this.now := map[], map[], map[], map[], 0, now;
      state := Initial(now);
      new;
      InitialInv(now);
    }

    // ---------- repositories ----------

    /** `Err` is a failed query, `Ok(None)` no such row. */
    method GetByEmail(email: string, fault: bool) returns (r: Result<Option<nat>, ()>)
      requires Valid()
      ensures r.Err? <==> fault
      ensures r.Ok? && r.value.Some? ==> HasEmail(state, r.value.value, email)
      ensures r.Ok? && r.value.None? ==> !exists u :: HasEmail(state, u, email)
    {
      if fault {
        return Err(());
      }
      assert forall u :: HasEmail(state, u, email) <==> u in users && users[u] == email;
      if exists u :: u in users && users[u] == email {
        var u :| u in users && users[u] == email;
        return Ok(Some(u));
      }
      r := Ok(None);
    }

    method GetGifOwner(gif: string, fault: bool) returns (r: Result<Option<nat>, ()>)
      requires Valid()
      ensures r == if fault then Err(()) else Ok(OwnerOf(state, gif))
    {
      r := if fault then Err(()) else Ok(if gif in gifs then Some(gifs[gif]) else None);
    }

    method GetShareOwner(recipient: nat, gif: string, fault: bool) returns (r: Result<Option<nat>, ()>)
      requires Valid()
      ensures r == if fault then Err(()) else Ok(ShareOwnerOf(state, gif, recipient))
    {
      if fault {
        return Err(());
      }
      MatchOf(state);
      ShareOwnerIsOwner(state, gif, recipient);
      if exists id ::
          id in shares && shares[id].gif == gif && shares[id].recipient == recipient && shares[id].expiresAt > now {
        var id :|
          id in shares && shares[id].gif == gif && shares[id].recipient == recipient && shares[id].expiresAt > now;
        assert IsLiveRow(state, id, gif, recipient);
        return Ok(Some(shares[id].owner));
      }
      assert forall id :: !IsLiveRow(state, id, gif, recipient);
      r := Ok(None);
    }

    /** The insert fails when a row it refers to is gone. */
    method UpsertShare(c: nat, p: Pending, o: Outcome) returns (ok: bool)
      requires Valid() && c in state.pending && state.pending[c] == p
      modifies this
      ensures Valid() && state == Step(old(state), FinishShare(c, o))
      ensures downloads == old(downloads) && now == old(now) && users == old(users)
      ensures ok <==> p.gif in old(gifs) && p.granter in old(users) && p.recipient in old(users) && o.Done?
    {
      hide Inv, Step, Upserted, HasRow;
      ghost var s := state;
      FinishKeepsInv(s, c, o);
      FinishIs(s, c, o);
      state := Step(s, FinishShare(c, o));
      ok := p.gif in gifs && p.granter in users && p.recipient in users && o.Done?;
      if p.gif !in gifs || p.granter !in users || p.recipient !in users || o.Lost? {
        return;
      }
      ghost var s' := s.(pending := s.pending - {c});
      MatchOf(s);
      UpsertFrame(s', p);
      if exists id :: id in shares && shares[id].gif == p.gif && shares[id].recipient == p.recipient {
        var id :| id in shares && shares[id].gif == p.gif && shares[id].recipient == p.recipient;
        UpsertMoves(s', p, id);
        shares := shares[id := shares[id].(expiresAt := p.expiresAt)];
      } else {
        UpsertAdds(s', p);
        shares := shares[next := Share(p.gif, p.granter, p.recipient, p.expiresAt)];
        next := next + 1;
      }
    }

    method DeleteShare(gif: string, recipient: nat, o: Outcome) returns (ok: bool)
      requires state.shares == shares
      modifies `shares
      ensures ok == o.Done?
      ensures shares == if o.Lost? then old(shares) else RowsWithout(old(state), gif, recipient)
    {
      ok := o.Done?;
      if !o.Lost? {
        shares := map id | id in shares && !(shares[id].gif == gif && shares[id].recipient == recipient) :: shares[id];
      }
    }

    method IncrementDownload(gif: string, o: Outcome) returns (ok: bool)
      modifies `downloads
      ensures ok == o.Done?
      ensures downloads ==
        if o.Lost? || gif !in gifs then old(downloads)
        else old(downloads)[gif := (if gif in old(downloads) then old(downloads)[gif] else 0) + 1]
    {
      ok := o.Done?;
      if !o.Lost? && gif in gifs {
        downloads := downloads[gif := (if gif in downloads then downloads[gif] else 0) + 1];
      }
    }

    // ---------- services ----------

    /** `c` names the call; a share that is granted is one its recipient can use. */
    method Create(
      c: nat, granter: nat, gif: string, email: string, expiresAt: int, userFault: bool, gifFault: bool, o: Outcome)
      returns (r: Result<(), ShareError>)
      requires Valid() && c !in state.pending
      modifies this
      ensures Valid() && downloads == old(downloads)
      ensures state ==
        if userFault || gifFault then old(state)
        else Step(Step(old(state), BeginShare(c, granter, gif, email, expiresAt)), FinishShare(c, o))
      ensures r.Ok? ==> OwnerOf(old(state), gif) == Some(granter) && expiresAt > now
      ensures r.Ok? ==> exists u :: HasEmail(state, u, email) && HoldsShare(state, gif, u)
      ensures r == Err(InvalidExpiry) <==> expiresAt <= now
      ensures !userFault && !gifFault ==>
        var known := exists u :: HasEmail(old(state), u, email);
        && (r == Err(UserNotFound) <==> expiresAt > now && !known)
        && (r == Err(GifNotFound) <==> expiresAt > now && known && gif !in old(gifs))
        && (r == Err(OwnerMismatch) <==> expiresAt > now && known && gif in old(gifs) && old(gifs)[gif] != granter)
        && (r.Ok? <==> expiresAt > now && known && gif in old(gifs) && old(gifs)[gif] == granter && o.Done?)
    {
      hide Inv, Upserted, HoldsShare;
      ghost var s := state;
      if expiresAt <= now {
        return Err(InvalidExpiry);
      }
      var user := GetByEmail(email, userFault);
      if user.Err? {
        return Err(QueryFailed);
      }
      if user.value.None? {
        return Err(UserNotFound);
      }
      var owner := GetGifOwner(gif, gifFault);
      if owner.Err? {
        return Err(QueryFailed);
      }
      if owner.value.None? {
        return Err(GifNotFound);
      }
      if owner.value.value != granter {
        return Err(OwnerMismatch);
      }
      var u := user.value.value;
      var p := Pending(gif, granter, u, expiresAt);
      BegunWith(s, c, p, email);
      BeginKeepsInv(s, c, granter, gif, email, expiresAt);
      OwnersAreUsers(s, gif);
      state := Begun(s, c, granter, gif, email, expiresAt);
      var ok := UpsertShare(c, p, o);
      if !ok {
        return Err(QueryFailed);
      }
      GrantIsHeld(Begun(s, c, granter, gif, email, expiresAt), c, o);
      r := Ok(());
    }

    /** Unsharing needs a live share; an expired one is reported as not found. */
    method Delete(d: nat, caller: nat, gif: string, recipient: nat, fault: bool, o: Outcome)
      returns (r: Result<(), ShareError>)
      requires Valid() && d !in state.removals
      modifies this
      ensures Valid() && downloads == old(downloads)
      ensures state ==
        if fault then old(state)
        else Step(Step(old(state), BeginUnshare(d, caller, gif, recipient)), FinishUnshare(d, o))
      ensures r.Ok? ==> ShareOwnerOf(old(state), gif, recipient) == Some(caller) && !HoldsShare(state, gif, recipient)
      ensures r == Err(NotFound) <==> !fault && !old(HoldsShare(state, gif, recipient))
      ensures !fault && o.Done? ==> (r.Ok? <==> ShareOwnerOf(old(state), gif, recipient) == Some(caller))
      ensures var mine := gif in old(gifs) && old(gifs)[gif] == caller;
        && (r == Err(NotAuthorized) <==> !fault && old(HoldsShare(state, gif, recipient)) && !mine)
        && (r.Ok? <==> !fault && old(HoldsShare(state, gif, recipient)) && mine && o.Done?)
    {
      hide Inv, Step, ShareOwnerOf, HoldsShare, RowsWithout;
      ghost var s := state;
      MatchOf(s);
      ShareOwnerIsOwner(s, gif, recipient);
      UnshareInFull(s, d, caller, gif, recipient, o);
      var owner := GetShareOwner(recipient, gif, fault);
      if owner.Err? {
        return Err(QueryFailed);
      }
      if owner.value.None? {
        OwnersExist(s, gif, recipient);
        return Err(NotFound);
      }
      if owner.value.value != caller {
        return Err(NotAuthorized);
      }
      ghost var begun := Step(s, BeginUnshare(d, caller, gif, recipient));
      StepKeepsInv(s, BeginUnshare(d, caller, gif, recipient));
      StepKeepsInv(begun, FinishUnshare(d, o));
      var ok := DeleteShare(gif, recipient, o);
      state := Step(begun, FinishUnshare(d, o));
      if !ok {
        return Err(QueryFailed);
      }
      r := Ok(());
    }

    /** The download is counted before the storage is asked for a link, `linked` or not. */
    method Download(caller: nat, gif: string, ownerFault: bool, shareFault: bool, o: Outcome, linked: bool)
      returns (r: Result<(), ShareError>)
      requires Valid()
      modifies `downloads
      ensures Valid() && state == old(state)
      ensures r.Ok? ==> MayDownload(state, gif, caller)
      ensures r.Ok? ==>
        downloads == old(downloads)[gif := (if gif in old(downloads) then old(downloads)[gif] else 0) + 1]
      ensures !ownerFault && !shareFault && o.Done? && linked ==> (r.Ok? <==> MayDownload(state, gif, caller))
      ensures r == Err(StorageFailed) <==>
        !ownerFault && !shareFault && o.Done? && !linked && MayDownload(state, gif, caller)
      ensures r == Err(StorageFailed) ==>
        downloads == old(downloads)[gif := (if gif in old(downloads) then old(downloads)[gif] else 0) + 1]
      ensures r == Err(OwnerMismatch) ==> !MayDownload(state, gif, caller) && downloads == old(downloads)
      ensures r == Err(GifNotFound) <==> !ownerFault && gif !in gifs
      ensures r == Err(OwnerMismatch) <==>
        !ownerFault && !shareFault && gif in gifs && !MayDownload(state, gif, caller)
    {
      hide Inv, SharesMatch, Standing;
      MatchOf(state);
      HoldingIsStanding(state, gif, caller);
      ShareOwnerIsOwner(state, gif, caller);
      var owner := GetGifOwner(gif, ownerFault);
      if owner.Err? {
        return Err(QueryFailed);
      }
      if owner.value.None? {
        return Err(GifNotFound);
      }
      var shareOwner := GetShareOwner(caller, gif, shareFault);
      if shareOwner.Err? {
        return Err(QueryFailed);
      }
      if owner.value.value != caller && shareOwner.value != owner.value {
        return Err(OwnerMismatch);
      }
      var ok := IncrementDownload(gif, o);
      if !ok {
        return Err(QueryFailed);
      }
      if !linked {
        return Err(StorageFailed);
      }
      r := Ok(());
    }

    /** Deleting a GIF takes its shares with it, and gives no quota back. */
    method DeleteGif(caller: nat, gif: string, fault: bool, o: Outcome) returns (r: Result<(), ShareError>)
      requires Valid()
      modifies this
      ensures Valid()
      ensures state == if fault || o.Lost? then old(state) else Step(old(state), Event.DeleteGif(caller, gif))
      ensures r.Ok? ==> old(OwnerOf(state, gif)) == Some(caller) && OwnerOf(state, gif) == None
      ensures r.Ok? ==> forall u :: !MayDownload(state, gif, u)
      ensures var mine := gif in old(gifs) && old(gifs)[gif] == caller;
        && (r.Ok? <==> !fault && mine && o.Done?)
        && (r == Err(GifNotFound) <==> !fault && gif !in old(gifs))
        && (r == Err(OwnerMismatch) <==> !fault && gif in old(gifs) && !mine)
        && gifs == (if !fault && mine && !o.Lost? then old(gifs) - {gif} else old(gifs))
    {
      hide Inv;
      ghost var s := state;
      var owner := GetGifOwner(gif, fault);
      if owner.Err? {
        return Err(QueryFailed);
      }
      if owner.value.None? {
        return Err(GifNotFound);
      }
      if owner.value.value != caller {
        return Err(OwnerMismatch);
      }
      if !o.Lost? {
        DeleteGifKeepsInv(s, gif);
        gifs := gifs - {gif};
        shares := map id | id in shares && shares[id].gif != gif :: shares[id];
        state := WithoutGif(s, gif);
      }
      if !o.Done? {
        return Err(QueryFailed);
      }
      r := Ok(());
    }
  }

  lemma FinishIs(s: State, c: nat, o: Outcome)
    requires c in s.pending
    ensures var p, s' := s.pending[c], s.(pending := s.pending - {c});
      Step(s, FinishShare(c, o)) == if o.Lost? || !RefersToRows(s, p) then s' else Upserted(s', p)
  {
    hide Upserted;
  }

  lemma UpsertAdds(s: State, p: Pending)
    requires forall id :: id in s.shares ==> s.shares[id].gif != p.gif || s.shares[id].recipient != p.recipient
    ensures Upserted(s, p).next == s.next + 1
    ensures Upserted(s, p).shares == s.shares[s.next := Share(p.gif, p.granter, p.recipient, p.expiresAt)]
  {
  }

  lemma UpsertMoves(s: State, p: Pending, id: nat)
    requires SharesMatch(s) && IsRow(s, id, p.gif, p.recipient)
    ensures Upserted(s, p).shares == s.shares[id := s.shares[id].(expiresAt := p.expiresAt)]
    ensures Upserted(s, p).next == s.next
  {
    forall j | IsRow(s, j, p.gif, p.recipient)
      ensures j == id
    {
      OnlyRow(s, id, j, p.gif, p.recipient);
    }
    hide SharesMatch;
  }

  lemma BegunWith(s: State, c: nat, p: Pending, email: string)
    requires Inv(s) && c !in s.pending && p.expiresAt > s.now
    requires HasEmail(s, p.recipient, email) && OwnerOf(s, p.gif) == Some(p.granter)
    ensures Begun(s, c, p.granter, p.gif, email, p.expiresAt) == s.(pending := s.pending[c := p])
  {
    hide SharesMatch, LogMatches, PendingMatch, Agrees;
  }

  lemma OwnersAreUsers(s: State, gif: string)
    requires Inv(s)
    ensures gif in s.gifs ==> s.gifs[gif] in s.users
  {
  }

  /** What an unsharing does to the tables: nothing, unless the caller owns the live share. */
  lemma UnshareInFull(s: State, d: nat, caller: nat, gif: string, recipient: nat, o: Outcome)
    requires SharesMatch(s) && d !in s.removals
    ensures var ended := Step(Step(s, BeginUnshare(d, caller, gif, recipient)), FinishUnshare(d, o));
      if ShareOwnerOf(s, gif, recipient) == Some(caller) then
        && ended.users == s.users && ended.gifs == s.gifs && ended.next == s.next && ended.now == s.now
        && ended.shares == (if o.Lost? then s.shares else RowsWithout(s, gif, recipient))
        && (!o.Lost? ==> !HoldsShare(ended, gif, recipient))
      else ended == s
  {
    BegunUnshareIs(s, d, caller, gif, recipient);
    var begun := s.(removals := s.removals[d := Removal(gif, recipient)]);
    RemovedHoldsNothing(begun.(removals := begun.removals - {d}), gif, recipient);
    assert RowsWithout(begun.(removals := begun.removals - {d}), gif, recipient) == RowsWithout(s, gif, recipient);
    hide BegunUnshare, ShareOwnerOf, HoldsShare, RowsWithout, SharesMatch;
  }

  lemma BegunUnshareIs(s: State, d: nat, caller: nat, gif: string, recipient: nat)
    requires SharesMatch(s) && d !in s.removals
    ensures BegunUnshare(s, d, caller, gif, recipient) ==
      if ShareOwnerOf(s, gif, recipient) == Some(caller) then s.(removals := s.removals[d := Removal(gif, recipient)])
      else s
  {
  }

  lemma RemovedHoldsNothing(s: State, gif: string, recipient: nat)
    ensures !HoldsShare(Removed(s, gif, recipient), gif, recipient)
  {
  }

  lemma OwnersExist(s: State, gif: string, recipient: nat)
    requires SharesMatch(s)
    ensures HoldsShare(s, gif, recipient) ==> OwnerOf(s, gif).Some?
  {
  }

  lemma GrantIsHeld(s: State, c: nat, o: Outcome)
    requires Inv(s) && c in s.pending && RefersToRows(s, s.pending[c]) && !o.Lost? && s.pending[c].expiresAt > s.now
    ensures var p := s.pending[c]; HoldsShare(Step(s, FinishShare(c, o)), p.gif, p.recipient)
  {
    hide Inv, HoldsShare;
    var p, s' := s.pending[c], s.(pending := s.pending - {c});
    var after := Step(s, FinishShare(c, o));
    FinishKeepsInv(s, c, o);
    UpsertFrame(s', p);
    StandingAfter(s.log, Granted(p.gif, p.recipient, p.granter, p.expiresAt), p.gif, p.recipient);
    hide Upserted, Standing;
    HoldingIsStanding(after, p.gif, p.recipient);
  }
}
