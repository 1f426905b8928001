/**
 Who may download a GIF: its owner, and whoever holds an unexpired share of it. The share table has foreign
 keys that cascade and one row per GIF and recipient; sharing again moves the expiry.

 `Create` checks first and writes later, so other calls may come in between. GIF keys are random and are
 never used twice.
 */
module Shares {
  import opened Prelude

  datatype Share = Share(gif: string, owner: nat, recipient: nat, expiresAt: int)

  /** A share that passed the checks and is about to be written. */
  datatype Pending = Pending(gif: string, granter: nat, recipient: nat, expiresAt: int)

  /** An unsharing whose owner check has passed and whose row is about to be deleted. */
  datatype Removal = Removal(gif: string, recipient: nat)

  /** What has been decided about a GIF and a recipient, in order. */
  datatype Fact =
    | Granted(gif: string, recipient: nat, granter: nat, expiresAt: int)
    | Revoked(gif: string, recipient: nat)

  /** Users by id with their address, GIFs by key with their owner; `usedKeys` were GIF keys at some time. */
  datatype State = State(
    users: map<nat, string>, gifs: map<string, nat>, shares: map<nat, Share>,
    pending: map<nat, Pending>, removals: map<nat, Removal>, usedKeys: set<string>, log: seq<Fact>, next: nat, now: int)

  datatype Event =
    | Tick(ms: nat)
    | AddUser(email: string)
    | DeleteUser(user: nat)
    | AddGif(gif: string, owner: nat)
    | DeleteGif(caller: nat, gif: string)
    | BeginShare(c: nat, granter: nat, gif: string, email: string, expiresAt: int)
    | FinishShare(c: nat, o: Outcome)
    | BeginUnshare(d: nat, caller: nat, gif: string, recipient: nat)
    | FinishUnshare(d: nat, o: Outcome)

  ghost predicate IsRow(s: State, id: nat, gif: string, recipient: nat) {
    id in s.shares && s.shares[id].gif == gif && s.shares[id].recipient == recipient
  }

  ghost predicate HasRow(s: State, gif: string, recipient: nat) {
    exists id :: IsRow(s, id, gif, recipient)
  }

  ghost predicate IsLiveRow(s: State, id: nat, gif: string, recipient: nat) {
    IsRow(s, id, gif, recipient) && s.shares[id].expiresAt > s.now
  }

  ghost predicate HoldsShare(s: State, gif: string, recipient: nat) {
    exists id :: IsLiveRow(s, id, gif, recipient)
  }

  ghost predicate HasEmail(s: State, user: nat, email: string) {
    user in s.users && s.users[user] == email
  }

  /** The insert with its conflict clause: an existing row keeps its id and its owner. */
  ghost function Upserted(s: State, p: Pending): State {
    var s' := s.(log := s.log + [Granted(p.gif, p.recipient, p.granter, p.expiresAt)]);
    if HasRow(s, p.gif, p.recipient) then
      var id :| IsRow(s, id, p.gif, p.recipient);
      s'.(shares := s.shares[id := s.shares[id].(expiresAt := p.expiresAt)])
    else
      s'.(shares := s.shares[s.next := Share(p.gif, p.granter, p.recipient, p.expiresAt)], next := s.next + 1)
  }

  predicate RefersToRows(s: State, p: Pending) {
    p.gif in s.gifs && p.granter in s.users && p.recipient in s.users
  }

  /** Rows that survive the deletion of a GIF. */
  function WithoutGif(s: State, gif: string): State {
    s.(gifs := s.gifs - {gif}, shares := map id | id in s.shares && s.shares[id].gif != gif :: s.shares[id])
  }

  function WithoutUser(s: State, user: nat): State {
    s.(users := s.users - {user},
       gifs := map g | g in s.gifs && s.gifs[g] != user :: s.gifs[g],
       shares := map id |
         id in s.shares && s.shares[id].owner != user && s.shares[id].recipient != user
         && !(s.shares[id].gif in s.gifs && s.gifs[s.shares[id].gif] == user) :: s.shares[id])
  }

  function RowsWithout(s: State, gif: string, recipient: nat): map<nat, Share> {
    map id | id in s.shares && !(s.shares[id].gif == gif && s.shares[id].recipient == recipient) :: s.shares[id]
  }

  /** The deletion does not ask again whose share it is; it takes the row of the pair, if there is one. */
  function Removed(s: State, gif: string, recipient: nat): State {
    s.(shares := RowsWithout(s, gif, recipient), log := s.log + [Revoked(gif, recipient)])
  }

  /** The owner check of an unsharing needs a live share. */
  ghost function BegunUnshare(s: State, d: nat, caller: nat, gif: string, recipient: nat): State {
    if d in s.removals || !HoldsShare(s, gif, recipient) then s
    else
      var id :| IsLiveRow(s, id, gif, recipient);
      if s.shares[id].owner != caller then s
      else s.(removals := s.removals[d := Removal(gif, recipient)])
  }

  ghost function Begun(s: State, c: nat, granter: nat, gif: string, email: string, expiresAt: int): State {
    if c in s.pending || expiresAt <= s.now || !(exists u :: HasEmail(s, u, email))
      || gif !in s.gifs || s.gifs[gif] != granter
    then s
    else
      var u :| HasEmail(s, u, email);
      s.(pending := s.pending[c := Pending(gif, granter, u, expiresAt)])
  }

  ghost function Step(s: State, e: Event): State {
    match e
    case Tick(ms) => s.(now := s.now + ms)
    case AddUser(email) =>
      if exists u :: HasEmail(s, u, email) then s
      else s.(users := s.users[s.next := email], next := s.next + 1)
    case DeleteUser(user) => WithoutUser(s, user)
    case AddGif(gif, owner) =>
      if gif in s.usedKeys || owner !in s.users then s
      else s.(gifs := s.gifs[gif := owner], usedKeys := s.usedKeys + {gif})
    case DeleteGif(caller, gif) =>
      if gif in s.gifs && s.gifs[gif] == caller then WithoutGif(s, gif) else s
    case BeginShare(c, granter, gif, email, expiresAt) => Begun(s, c, granter, gif, email, expiresAt)
    case FinishShare(c, o) =>
      if c !in s.pending then s
      else
        var p, s' := s.pending[c], s.(pending := s.pending - {c});
        if o.Lost? || !RefersToRows(s, p) then s' else Upserted(s', p)
    case BeginUnshare(d, caller, gif, recipient) => BegunUnshare(s, d, caller, gif, recipient)
    case FinishUnshare(d, o) =>
      if d !in s.removals then s
      else
        var s' := s.(removals := s.removals - {d});
        if o.Lost? then s' else Removed(s', s.removals[d].gif, s.removals[d].recipient)
  }

  ghost function Run(s: State, es: seq<Event>): State
    decreases |es|
  {
    if es == [] then s else Run(Step(s, es[0]), es[1..])
  }

  function Initial(now: int): State {
    State(map[], map[], map[], map[], map[], {}, [], 0, now)
  }

  // ---------- the policy ----------

  /** The expiry that the last fact about the pair leaves standing. */
  function Standing(log: seq<Fact>, gif: string, recipient: nat): Option<int> {
    if log == [] then None
    else
      var last := log[|log| - 1];
      if last.gif == gif && last.recipient == recipient then
        if last.Granted? then Some(last.expiresAt) else None
      else Standing(log[..|log| - 1], gif, recipient)
  }

  lemma StandingAfter(log: seq<Fact>, f: Fact, gif: string, recipient: nat)
    ensures Standing(log + [f], gif, recipient) ==
      if f.gif == gif && f.recipient == recipient then
        (if f.Granted? then Some(f.expiresAt) else None)
      else Standing(log, gif, recipient)
  {
    assert (log + [f])[..|log|] == log;
  }

  ghost predicate Keyed(s: State) {
    && (forall u :: u in s.users ==> u < s.next)
    && (forall id :: id in s.shares ==> id < s.next)
    && (forall c :: c in s.pending ==> s.pending[c].recipient < s.next && s.pending[c].gif in s.usedKeys)
    && (forall d :: d in s.removals ==> s.removals[d].recipient < s.next && s.removals[d].gif in s.usedKeys)
    && (forall u, v :: u in s.users && v in s.users && s.users[u] == s.users[v] ==> u == v)
    && (forall g :: g in s.gifs ==> g in s.usedKeys && s.gifs[g] in s.users)
  }

  /** Every share belongs to the owner of its GIF, and there is one per GIF and recipient. */
  ghost predicate SharesMatch(s: State) {
    && (forall id :: id in s.shares ==>
          && s.shares[id].gif in s.gifs && s.gifs[s.shares[id].gif] == s.shares[id].owner
          && s.shares[id].recipient in s.users)
    && (forall i, j :: i in s.shares && j in s.shares && SamePair(s.shares[i], s.shares[j]) ==> i == j)
  }

  predicate SamePair(a: Share, b: Share) {
    a.gif == b.gif && a.recipient == b.recipient
  }

  ghost predicate PendingMatch(s: State) {
    forall c :: c in s.pending && s.pending[c].gif in s.gifs ==> s.gifs[s.pending[c].gif] == s.pending[c].granter
  }

  /** Only owners grant. */
  ghost predicate LogMatches(s: State) {
    && (forall k :: 0 <= k < |s.log| && s.log[k].Granted? && s.log[k].gif in s.gifs ==>
          s.gifs[s.log[k].gif] == s.log[k].granter)
    && (forall k :: 0 <= k < |s.log| ==> s.log[k].gif in s.usedKeys && s.log[k].recipient < s.next)
  }

  /** The row of an existing pair is what the log leaves standing. */
  ghost predicate Agrees(s: State, gif: string, recipient: nat) {
    && (forall id :: IsRow(s, id, gif, recipient) ==> Standing(s.log, gif, recipient) == Some(s.shares[id].expiresAt))
    && (gif in s.gifs && recipient in s.users && !HasRow(s, gif, recipient) ==> Standing(s.log, gif, recipient).None?)
  }

  ghost predicate TablesMatch(s: State) {
    Keyed(s) && SharesMatch(s) && PendingMatch(s) && LogMatches(s)
  }

  ghost predicate Inv(s: State) {
    TablesMatch(s) && forall gif, recipient :: Agrees(s, gif, recipient)
  }

  lemma {:induction false} NothingStands(log: seq<Fact>, gif: string, recipient: nat)
    requires forall k :: 0 <= k < |log| ==> log[k].gif != gif || log[k].recipient != recipient
    ensures Standing(log, gif, recipient) == None
  {
    if log != [] {
      NothingStands(log[..|log| - 1], gif, recipient);
    }
  }

  // ---------- the invariant, event by event ----------

  lemma AddUserKeepsInv(s: State, email: string)
    requires Inv(s)
    ensures Inv(Step(s, AddUser(email)))
  {
    var s' := Step(s, AddUser(email));
    if s' != s {
      assert forall u :: u in s.users ==> HasEmail(s, u, s.users[u]);
      forall gif, recipient
        ensures Agrees(s', gif, recipient)
      {
        assert Agrees(s, gif, recipient);
        assert forall id :: IsRow(s', id, gif, recipient) == IsRow(s, id, gif, recipient);
        if recipient == s.next {
          NeverDecided(s, gif, recipient);
        }
      }
    }
  }

  /** More users and GIFs, and whatever else changes, leave the shares matching. */
  lemma MatchGrows(s: State, s': State)
    requires SharesMatch(s) && s'.shares == s.shares && s.users.Keys <= s'.users.Keys
    requires forall g :: g in s.gifs ==> g in s'.gifs && s'.gifs[g] == s.gifs[g]
    ensures SharesMatch(s')
  {
  }

  lemma LogMatchesOnTables(s: State, s': State)
    requires LogMatches(s) && s'.log == s.log && s'.gifs == s.gifs && s'.usedKeys == s.usedKeys && s'.next >= s.next
    ensures LogMatches(s')
  {
  }

  lemma AddGifKeepsTables(s: State, gif: string, owner: nat)
    requires TablesMatch(s) && gif !in s.usedKeys && owner in s.users
    ensures TablesMatch(Step(s, AddGif(gif, owner)))
  {
    var s' := Step(s, AddGif(gif, owner));
    MatchGrows(s, s');
    assert LogMatches(s') by {
      hide SharesMatch, PendingMatch;
    }
    hide SharesMatch, LogMatches;
  }

  lemma NeverDecided(s: State, gif: string, recipient: nat)
    requires LogMatches(s) && (gif !in s.usedKeys || recipient >= s.next)
    ensures Standing(s.log, gif, recipient) == None
  {
    NothingStands(s.log, gif, recipient);
  }

  lemma AddGifKeepsInv(s: State, gif: string, owner: nat)
    requires Inv(s)
    ensures Inv(Step(s, AddGif(gif, owner)))
  {
    var s' := Step(s, AddGif(gif, owner));
    if s' != s {
      AddGifKeepsTables(s, gif, owner);
      hide TablesMatch;
      forall g, recipient
        ensures Agrees(s', g, recipient)
      {
        assert Agrees(s, g, recipient);
        assert forall id :: IsRow(s', id, g, recipient) == IsRow(s, id, g, recipient);
        if g == gif {
          NeverDecided(s, g, recipient);
        }
      }
    }
  }

  /** Deleting a GIF or a user takes away all rows of a pair, or none while both remain. */
  lemma DeletionAgrees(s: State, s': State, gif: string, recipient: nat)
    requires Agrees(s, gif, recipient) && s'.log == s.log
    requires s'.users.Keys <= s.users.Keys && s'.gifs.Keys <= s.gifs.Keys
    requires forall id ::
      IsRow(s', id, gif, recipient) ==> IsRow(s, id, gif, recipient) && s'.shares[id] == s.shares[id]
    requires gif in s'.gifs && recipient in s'.users ==>
      forall id :: IsRow(s, id, gif, recipient) ==> IsRow(s', id, gif, recipient)
    ensures Agrees(s', gif, recipient)
  {
  }

  lemma DeleteGifKeepsInv(s: State, gif: string)
    requires Inv(s)
    ensures Inv(WithoutGif(s, gif))
  {
    DeleteGifKeepsTables(s, gif);
    forall g, recipient
      ensures Agrees(WithoutGif(s, gif), g, recipient)
    {
      hide Agrees, TablesMatch;
      DeletionAgrees(s, WithoutGif(s, gif), g, recipient);
    }
    hide Agrees, TablesMatch, WithoutGif;
  }

  /** `s'` is `s` with fewer users, GIFs and shares, and no share has lost what it refers to. */
  ghost predicate Shrinks(s: State, s': State) {
    && s' == s.(users := s'.users, gifs := s'.gifs, shares := s'.shares)
    && s'.users.Keys <= s.users.Keys && (forall u :: u in s'.users ==> s'.users[u] == s.users[u])
    && (forall g :: g in s'.gifs ==> g in s.gifs && s'.gifs[g] == s.gifs[g] && s.gifs[g] in s'.users)
    && (forall id :: id in s'.shares ==>
          && id in s.shares && s'.shares[id] == s.shares[id]
          && s.shares[id].gif in s'.gifs && s.shares[id].recipient in s'.users)
  }

  lemma GifDeletionShrinks(s: State, gif: string)
    requires SharesMatch(s) && Keyed(s)
    ensures Shrinks(s, WithoutGif(s, gif))
  {
  }

  lemma UserDeletionShrinks(s: State, user: nat)
    requires SharesMatch(s) && Keyed(s)
    ensures Shrinks(s, WithoutUser(s, user))
  {
  }

  lemma ShrinkingKeepsMatch(s: State, s': State)
    requires SharesMatch(s) && Shrinks(s, s')
    ensures SharesMatch(s')
  {
  }

  lemma DeleteGifKeepsTables(s: State, gif: string)
    requires TablesMatch(s)
    ensures TablesMatch(WithoutGif(s, gif))
  {
    hide Shrinks, SharesMatch, Keyed, PendingMatch, LogMatches, WithoutGif;
    GifDeletionShrinks(s, gif);
    ShrinkingKeepsMatch(s, WithoutGif(s, gif));
    FewerKeepTheRest(s, WithoutGif(s, gif));
  }

  /** Deletions leave the ids, the pending calls and the log as they should be. */
  lemma FewerKeepTheRest(s: State, s': State)
    requires Keyed(s) && PendingMatch(s) && LogMatches(s)
    requires Shrinks(s, s')
    ensures Keyed(s') && PendingMatch(s') && LogMatches(s')
  {
    assert PendingMatch(s') by {
      hide Keyed, LogMatches;
    }
    assert LogMatches(s') by {
      hide Keyed, PendingMatch;
    }
  }

  lemma DeleteUserKeepsInv(s: State, user: nat)
    requires Inv(s)
    ensures Inv(WithoutUser(s, user))
  {
    DeleteUserKeepsTables(s, user);
    forall gif, recipient
      ensures Agrees(WithoutUser(s, user), gif, recipient)
    {
      PairSurvives(s, user, gif, recipient);
      hide Agrees, TablesMatch, WithoutUser;
      DeletionAgrees(s, WithoutUser(s, user), gif, recipient);
    }
    hide Agrees, TablesMatch, WithoutUser;
  }

  lemma DeleteUserKeepsTables(s: State, user: nat)
    requires TablesMatch(s)
    ensures TablesMatch(WithoutUser(s, user))
  {
    hide Shrinks, SharesMatch, Keyed, PendingMatch, LogMatches, WithoutUser;
    UserDeletionShrinks(s, user);
    ShrinkingKeepsMatch(s, WithoutUser(s, user));
    FewerKeepTheRest(s, WithoutUser(s, user));
  }

  lemma PairSurvives(s: State, user: nat, gif: string, recipient: nat)
    requires SharesMatch(s)
    ensures var s' := WithoutUser(s, user);
      && s'.log == s.log && s'.users.Keys <= s.users.Keys && s'.gifs.Keys <= s.gifs.Keys
      && (forall id :: IsRow(s', id, gif, recipient) ==> IsRow(s, id, gif, recipient) && s'.shares[id] == s.shares[id])
      && (gif in s'.gifs && recipient in s'.users ==>
            forall id :: IsRow(s, id, gif, recipient) ==> IsRow(s', id, gif, recipient))
  {
  }

  lemma UpsertKeepsInv(s: State, p: Pending)
    requires Inv(s) && RefersToRows(s, p) && s.gifs[p.gif] == p.granter
    ensures Inv(Upserted(s, p))
  {
    forall gif, recipient
      ensures Agrees(Upserted(s, p), gif, recipient)
    {
      hide Agrees, Upserted, PendingMatch, LogMatches;
      UpsertAgrees(s, p, gif, recipient);
    }
    hide Agrees, Upserted;
    UpsertKeepsTables(s, p);
  }

  lemma UpsertKeepsTables(s: State, p: Pending)
    requires TablesMatch(s) && RefersToRows(s, p) && s.gifs[p.gif] == p.granter
    ensures TablesMatch(Upserted(s, p))
  {
    UpsertKeepsMatch(s, p);
    UpsertFrame(s, p);
    hide Upserted, SharesMatch;
    var s' := Upserted(s, p);
    assert Keyed(s');
    assert PendingMatch(s');
    var fact := Granted(p.gif, p.recipient, p.granter, p.expiresAt);
    assert s'.log == s.log + [fact];
    assert LogMatches(s');
  }

  lemma UpsertFrame(s: State, p: Pending)
    ensures var s' := Upserted(s, p);
      && s'.users == s.users && s'.gifs == s.gifs && s'.usedKeys == s.usedKeys
      && s'.pending == s.pending && s'.removals == s.removals
      && s'.log == s.log + [Granted(p.gif, p.recipient, p.granter, p.expiresAt)]
      && s'.next >= s.next && s'.now == s.now
      && (forall id :: id in s'.shares ==> id in s.shares || id < s'.next)
  {
  }

  lemma UpsertKeepsMatch(s: State, p: Pending)
    requires Keyed(s) && SharesMatch(s) && RefersToRows(s, p) && s.gifs[p.gif] == p.granter
    ensures SharesMatch(Upserted(s, p))
  {
    if HasRow(s, p.gif, p.recipient) {
      forall id | IsRow(s, id, p.gif, p.recipient)
        ensures SharesMatch(s.(shares := s.shares[id := s.shares[id].(expiresAt := p.expiresAt)]))
      {
        MovingKeepsMatch(s, id, p.expiresAt);
      }
      hide SharesMatch;
      MatchIgnoresLog(s, p);
    } else {
      AddingKeepsMatch(s, p);
      hide SharesMatch;
    }
  }

  lemma AddingKeepsMatch(s: State, p: Pending)
    requires Keyed(s) && SharesMatch(s) && RefersToRows(s, p) && s.gifs[p.gif] == p.granter
    requires !HasRow(s, p.gif, p.recipient)
    ensures SharesMatch(Upserted(s, p))
  {
    forall id | id in s.shares
      ensures s.shares[id].gif != p.gif || s.shares[id].recipient != p.recipient
    {
      assert !IsRow(s, id, p.gif, p.recipient);
    }
    hide HasRow;
  }

  lemma MovingKeepsMatch(s: State, id: nat, expiresAt: int)
    requires SharesMatch(s) && id in s.shares
    ensures SharesMatch(s.(shares := s.shares[id := s.shares[id].(expiresAt := expiresAt)]))
  {
  }

  lemma MatchIgnoresLog(s: State, p: Pending)
    requires HasRow(s, p.gif, p.recipient)
    requires forall id :: IsRow(s, id, p.gif, p.recipient) ==>
      SharesMatch(s.(shares := s.shares[id := s.shares[id].(expiresAt := p.expiresAt)]))
    ensures SharesMatch(Upserted(s, p))
  {
    var id :| IsRow(s, id, p.gif, p.recipient)
      && Upserted(s, p).shares == s.shares[id := s.shares[id].(expiresAt := p.expiresAt)];
    MatchGrows(s.(shares := Upserted(s, p).shares), Upserted(s, p));
    hide SharesMatch;
  }

  lemma OnlyRow(s: State, id: nat, j: nat, gif: string, recipient: nat)
    requires SharesMatch(s) && IsRow(s, id, gif, recipient) && IsRow(s, j, gif, recipient)
    ensures id == j
  {
    assert SamePair(s.shares[id], s.shares[j]);
  }

  /** What the write leaves of a pair: the row with the new expiry, or exactly the rows of another pair. */
  lemma UpsertRows(s: State, p: Pending, id: nat, gif: string, recipient: nat)
    requires Keyed(s) && SharesMatch(s)
    ensures var s' := Upserted(s, p);
      && (gif != p.gif || recipient != p.recipient ==>
            IsRow(s', id, gif, recipient) == IsRow(s, id, gif, recipient)
            && (IsRow(s, id, gif, recipient) ==> s'.shares[id] == s.shares[id]))
      && (IsRow(s', id, p.gif, p.recipient) ==> s'.shares[id].expiresAt == p.expiresAt)
  {
    hide SharesMatch;
    forall j, k | IsRow(s, j, p.gif, p.recipient) && IsRow(s, k, p.gif, p.recipient)
      ensures j == k
    {
      OnlyRow(s, j, k, p.gif, p.recipient);
    }
    assert IsRow(s, id, p.gif, p.recipient) ==> HasRow(s, p.gif, p.recipient);
  }

  lemma UpsertMakesRow(s: State, p: Pending)
    ensures HasRow(Upserted(s, p), p.gif, p.recipient)
  {
    var s' := Upserted(s, p);
    if HasRow(s, p.gif, p.recipient) {
      var id :| IsRow(s, id, p.gif, p.recipient)
        && s'.shares == s.shares[id := s.shares[id].(expiresAt := p.expiresAt)];
      assert IsRow(s', id, p.gif, p.recipient);
    } else {
      assert IsRow(s', s.next, p.gif, p.recipient);
    }
  }

  lemma UpsertAgrees(s: State, p: Pending, gif: string, recipient: nat)
    requires Keyed(s) && SharesMatch(s) && Agrees(s, gif, recipient)
    ensures Agrees(Upserted(s, p), gif, recipient)
  {
    UpsertFrame(s, p);
    UpsertMakesRow(s, p);
    forall id
      ensures var s' := Upserted(s, p);
        && (gif != p.gif || recipient != p.recipient ==>
              IsRow(s', id, gif, recipient) == IsRow(s, id, gif, recipient)
              && (IsRow(s, id, gif, recipient) ==> s'.shares[id] == s.shares[id]))
        && (IsRow(s', id, p.gif, p.recipient) ==> s'.shares[id].expiresAt == p.expiresAt)
    {
      UpsertRows(s, p, id, gif, recipient);
    }
    StandingAfter(s.log, Granted(p.gif, p.recipient, p.granter, p.expiresAt), gif, recipient);
    hide Upserted, Keyed, SharesMatch, Standing;
  }

  lemma RemovalKeepsInv(s: State, gif: string, recipient: nat)
    requires Inv(s) && gif in s.usedKeys && recipient < s.next
    ensures Inv(Removed(s, gif, recipient))
  {
    hide Agrees, TablesMatch, Removed;
    RemovalKeepsTables(s, gif, recipient);
    forall g, r
      ensures Agrees(Removed(s, gif, recipient), g, r)
    {
      RemovalAgrees(s, gif, recipient, g, r);
    }
  }

  lemma RemovalKeepsTables(s: State, gif: string, recipient: nat)
    requires TablesMatch(s) && gif in s.usedKeys && recipient < s.next
    ensures TablesMatch(Removed(s, gif, recipient))
  {
    var s' := Removed(s, gif, recipient);
    assert SharesMatch(s');
    assert LogMatches(s') by {
      hide SharesMatch, PendingMatch, RowsWithout;
    }
    hide LogMatches;
  }

  lemma HolderExists(s: State, gif: string, recipient: nat)
    requires SharesMatch(s) && HoldsShare(s, gif, recipient)
    ensures gif in s.gifs && recipient in s.users
  {
  }

  lemma RemovalAgrees(s: State, gif: string, recipient: nat, g: string, r: nat)
    requires Agrees(s, g, r)
    ensures Agrees(Removed(s, gif, recipient), g, r)
  {
    var s' := Removed(s, gif, recipient);
    StandingAfter(s.log, Revoked(gif, recipient), g, r);
    assert forall id :: IsRow(s', id, g, r) <==> IsRow(s, id, g, r) && (g != gif || r != recipient);
    hide Standing, RowsWithout;
  }

  /** Noting a call that is under way touches no table. */
  lemma NotingKeepsInv(s: State, s': State)
    requires Inv(s) && s' == s.(pending := s'.pending, removals := s'.removals)
    requires Keyed(s') && PendingMatch(s')
    ensures Inv(s')
  {
    SameTablesKeepAgreement(s, s');
    MatchGrows(s, s');
    LogMatchesOnTables(s, s');
    hide Agrees, SharesMatch, LogMatches, Keyed, PendingMatch;
  }

  lemma BeginUnshareKeepsInv(s: State, d: nat, caller: nat, gif: string, recipient: nat)
    requires Inv(s)
    ensures Inv(BegunUnshare(s, d, caller, gif, recipient))
  {
    hide Agrees, SharesMatch, LogMatches, HoldsShare, IsLiveRow;
    if HoldsShare(s, gif, recipient) {
      HolderExists(s, gif, recipient);
      NotingKeepsInv(s, s.(removals := s.removals[d := Removal(gif, recipient)]));
    }
  }

  lemma FinishUnshareKeepsInv(s: State, d: nat, o: Outcome)
    requires Inv(s)
    ensures Inv(Step(s, FinishUnshare(d, o)))
  {
    hide Agrees, SharesMatch, LogMatches;
    if d in s.removals {
      var s' := s.(removals := s.removals - {d});
      NotingKeepsInv(s, s');
      RemovalKeepsInv(s', s.removals[d].gif, s.removals[d].recipient);
      hide Inv, Removed;
    }
  }

  lemma SameTablesKeepAgreement(s: State, s': State)
    requires Inv(s) && s'.shares == s.shares && s'.gifs == s.gifs && s'.users == s.users && s'.log == s.log
    ensures forall gif, recipient :: Agrees(s', gif, recipient)
  {
    forall gif, recipient
      ensures Agrees(s', gif, recipient)
    {
      assert Agrees(s, gif, recipient);
      assert forall id :: IsRow(s', id, gif, recipient) == IsRow(s, id, gif, recipient);
    }
  }

  lemma BeginKeepsInv(s: State, c: nat, granter: nat, gif: string, email: string, expiresAt: int)
    requires Inv(s)
    ensures Inv(Begun(s, c, granter, gif, email, expiresAt))
  {
    hide Agrees, SharesMatch, LogMatches;
    NotingKeepsInv(s, Begun(s, c, granter, gif, email, expiresAt));
  }

  lemma FinishKeepsInv(s: State, c: nat, o: Outcome)
    requires Inv(s)
    ensures Inv(Step(s, FinishShare(c, o)))
  {
    hide Agrees, SharesMatch, LogMatches, Upserted;
    if c in s.pending {
      var p, s' := s.pending[c], s.(pending := s.pending - {c});
      NotingKeepsInv(s, s');
      if RefersToRows(s, p) {
        UpsertKeepsInv(s', p);
      }
      hide Inv, Upserted;
    }
  }

  lemma StepKeepsInv(s: State, e: Event)
    requires Inv(s)
    ensures Inv(Step(s, e))
  {
    match e
    case Tick(ms) =>
      SameTablesKeepAgreement(s, Step(s, e));
      hide Agrees;
    case AddUser(email) => AddUserKeepsInv(s, email);
    case DeleteUser(user) => DeleteUserKeepsInv(s, user);
    case AddGif(gif, owner) => AddGifKeepsInv(s, gif, owner);
    case DeleteGif(caller, gif) => DeleteGifKeepsInv(s, gif);
    case BeginShare(c, granter, gif, email, expiresAt) => BeginKeepsInv(s, c, granter, gif, email, expiresAt);
    case FinishShare(c, o) => FinishKeepsInv(s, c, o);
    case BeginUnshare(d, caller, gif, recipient) => BeginUnshareKeepsInv(s, d, caller, gif, recipient);
    case FinishUnshare(d, o) => FinishUnshareKeepsInv(s, d, o);
  }

  lemma {:induction false} RunKeepsInv(s: State, es: seq<Event>)
    requires Inv(s)
    ensures Inv(Run(s, es))
    decreases |es|
  {
    hide Inv, Step;
    if es != [] {
      StepKeepsInv(s, es[0]);
      RunKeepsInv(Step(s, es[0]), es[1..]);
    }
  }

  lemma InitialInv(now: int)
    ensures Inv(Initial(now))
  {
  }

  /** In every reachable state a share belongs to its GIF's owner, and a GIF is shared once with a recipient. */
  lemma SharesFollowOwners(now: int, es: seq<Event>)
    ensures SharesMatch(Run(Initial(now), es))
  {
    hide Run, SharesMatch;
    InitialInv(now);
    RunKeepsInv(Initial(now), es);
  }

  // ---------- downloads ----------

  function OwnerOf(s: State, gif: string): Option<nat> {
    if gif in s.gifs then Some(s.gifs[gif]) else None
  }

  /** The owner named by a live share. */
  ghost function ShareOwnerOf(s: State, gif: string, recipient: nat): Option<nat> {
    if HoldsShare(s, gif, recipient) then
      var id :| IsLiveRow(s, id, gif, recipient);
      Some(s.shares[id].owner)
    else None
  }

  /** The test of `Download` on its two lookups. */
  predicate Passes(owner: Option<nat>, shareOwner: Option<nat>, caller: nat) {
    owner.Some? && (owner.value == caller || shareOwner == owner)
  }

  /** What the history says: the caller owns the GIF, or the last decision about the two was a grant still running. */
  predicate MayDownload(s: State, gif: string, caller: nat) {
    && gif in s.gifs
    && (s.gifs[gif] == caller
        || (caller in s.users && Standing(s.log, gif, caller).Some? && Standing(s.log, gif, caller).value > s.now))
  }

  lemma HoldingIsStanding(s: State, gif: string, recipient: nat)
    requires Inv(s)
    ensures HoldsShare(s, gif, recipient) <==>
      && gif in s.gifs && recipient in s.users
      && Standing(s.log, gif, recipient).Some? && Standing(s.log, gif, recipient).value > s.now
  {
    hide Standing;
    assert Agrees(s, gif, recipient);
    if HoldsShare(s, gif, recipient) {
      var id :| IsLiveRow(s, id, gif, recipient);
      assert IsRow(s, id, gif, recipient);
    } else if HasRow(s, gif, recipient) {
      var id :| IsRow(s, id, gif, recipient);
      assert !IsLiveRow(s, id, gif, recipient);
    }
  }

  lemma ShareOwnerIsOwner(s: State, gif: string, recipient: nat)
    requires SharesMatch(s)
    ensures ShareOwnerOf(s, gif, recipient) == if HoldsShare(s, gif, recipient) then OwnerOf(s, gif) else None
  {
  }

  lemma StepKeepsOwner(s: State, e: Event, gif: string)
    requires Inv(s) && gif in s.usedKeys
    ensures var s' := Step(s, e);
      && gif in s'.usedKeys
      && (gif in s'.gifs ==> gif in s.gifs && s'.gifs[gif] == s.gifs[gif])
  {
    hide Inv, SharesMatch, Agrees;
    if e.FinishShare? && e.c in s.pending {
      UpsertFrame(s.(pending := s.pending - {e.c}), s.pending[e.c]);
      hide Upserted;
    }
  }

  lemma {:induction false} RunKeepsOwner(s: State, es: seq<Event>, gif: string)
    requires Inv(s) && gif in s.usedKeys
    ensures var s' := Run(s, es); gif in s'.gifs ==> gif in s.gifs && s'.gifs[gif] == s.gifs[gif]
    decreases |es|
  {
    hide Inv, Step;
    if es != [] {
      StepKeepsInv(s, es[0]);
      StepKeepsOwner(s, es[0], gif);
      RunKeepsOwner(Step(s, es[0]), es[1..], gif);
    }
  }

  /**
   The two lookups of `Download`, with any other calls `between` them, let a caller through exactly when the
   policy does: the caller owned the GIF at the first, or holds a running grant at the second.
   */
  lemma DownloadFollowsPolicy(now: int, es: seq<Event>, between: seq<Event>, gif: string, caller: nat)
    ensures var s := Run(Initial(now), es);
      var s' := Run(s, between);
      Passes(OwnerOf(s, gif), ShareOwnerOf(s', gif, caller), caller) <==>
        gif in s.gifs && (s.gifs[gif] == caller || MayDownload(s', gif, caller))
  {
    hide Run, Inv, SharesMatch, Standing;
    InitialInv(now);
    RunKeepsInv(Initial(now), es);
    var s := Run(Initial(now), es);
    RunKeepsInv(s, between);
    var s' := Run(s, between);
    MatchOf(s');
    HoldingIsStanding(s', gif, caller);
    ShareOwnerIsOwner(s', gif, caller);
    if gif in s.gifs {
      UsedOf(s, gif);
      RunKeepsOwner(s, between, gif);
    }
  }

  lemma MatchOf(s: State)
    requires Inv(s)
    ensures SharesMatch(s)
  {
  }

  lemma UsedOf(s: State, gif: string)
    requires Inv(s) && gif in s.gifs
    ensures gif in s.usedKeys
  {
  }

  /** In one instant: the two-lookup test is the policy. */
  lemma DownloadIsPolicy(now: int, es: seq<Event>, gif: string, caller: nat)
    ensures var s := Run(Initial(now), es);
      Passes(OwnerOf(s, gif), ShareOwnerOf(s, gif, caller), caller) <==> MayDownload(s, gif, caller)
  {
    var s := Run(Initial(now), es);
    assert Run(s, []) == s;
    hide Run;
    DownloadFollowsPolicy(now, es, [], gif, caller);
  }

  /** The grant behind a download was made by the owner, and nothing was decided about the two since. */
  lemma GrantsComeFromOwners(now: int, es: seq<Event>, gif: string, caller: nat)
    requires var s := Run(Initial(now), es); MayDownload(s, gif, caller) && s.gifs[gif] != caller
    ensures var s := Run(Initial(now), es);
      exists k :: 0 <= k < |s.log|
        && s.log[k].Granted? && s.log[k].gif == gif && s.log[k].recipient == caller
        && s.log[k].granter == s.gifs[gif] && s.log[k].expiresAt > s.now
        && forall l :: k < l < |s.log| ==> s.log[l].gif != gif || s.log[l].recipient != caller
  {
    hide Run, Agrees;
    var s := Run(Initial(now), es);
    InitialInv(now);
    RunKeepsInv(Initial(now), es);
    var k := LastFact(s.log, gif, caller);
  }

  lemma {:induction false} LastFact(log: seq<Fact>, gif: string, recipient: nat) returns (k: nat)
    requires Standing(log, gif, recipient).Some?
    ensures k < |log| && log[k].Granted? && log[k].gif == gif && log[k].recipient == recipient
    ensures Standing(log, gif, recipient) == Some(log[k].expiresAt)
    ensures forall l :: k < l < |log| ==> log[l].gif != gif || log[l].recipient != recipient
  {
    var last := log[|log| - 1];
    if last.gif == gif && last.recipient == recipient {
      k := |log| - 1;
    } else {
      k := LastFact(log[..|log| - 1], gif, recipient);
    }
  }
}
