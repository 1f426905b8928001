/**
 Verification and resending call by call: `Verify` looks its token up before its transaction, and
 `ResendVerify` runs outside any, so everything else may happen between their calls.

 The table constraints hold in every interleaving. What does not is "no verifier for a verified account", and
 the two ways to get there are told exactly. A call that fails for good is one that takes no further step.
 */
module AccountRaces {
  import opened Prelude
  import opened Accounts

  /** The row that a `Verify` found, and whose it was. */
  datatype Found = Found(row: nat, user: nat)

  /** How far a `ResendVerify` has got. */
  datatype ResendPc = Checked | LookedUp(row: Option<nat>) | Cleared | Inserted(token: nat)

  datatype Resending = Resending(user: nat, email: string, pc: ResendPc)

  datatype Race = Race(s: State, finds: map<nat, Found>, resends: map<nat, Resending>)

  /** Signing up and deleting an account are one transaction each; the other moves are single calls to a store. */
  datatype Move =
    | Pass(ms: nat)
    | SignUp(to: string, f: Fault<SignupCall>)
    | Leave(user: nat)
    | FindToken(c: nat, row: nat, token: nat)
    | CommitVerify(c: nat, v: Fault<VerifyCall>)
    | CheckUser(c: nat, user: nat, email: string)
    | LookUpRow(c: nat, found: Option<nat>)
    | DropOld(c: nat, o: Outcome)
    | InsertNew(c: nat, o: Outcome)
    | MailNew(c: nat, o: Outcome)

  function At(r: Race, c: nat, pc: ResendPc): Race
    requires c in r.resends
  {
    r.(resends := r.resends[c := r.resends[c].(pc := pc)])
  }

  /** The call has returned. */
  function Ended(r: Race, c: nat): Race {
    r.(resends := r.resends - {c})
  }

  ghost predicate MayInsert(t: Tables, user: nat) {
    user in t.users && !HasVerifier(t, user)
  }

  /** The insert draws a fresh token; the row needs its user, and must be that user's only one. */
  ghost function InsertedRow(r: Race, c: nat, o: Outcome): Race
    requires c in r.resends
  {
    var user, n := r.resends[c].user, r.s.next;
    var drawn := r.(s := r.s.(next := n + 1));
    if o.Lost? || !MayInsert(r.s.tables, user) then Ended(drawn, c)
    else
      var rows := r.s.tables.verifiers[n := NewVerifierFor(user, n, r.s.now)];
      var added := drawn.(s := drawn.s.(tables := r.s.tables.(verifiers := rows)));
      if o.Done? then At(added, c, Inserted(n)) else Ended(added, c)
  }

  /** One move; one that cannot happen changes nothing. */
  ghost function Moved(r: Race, m: Move): Race {
    match m
    case Pass(ms) => r.(s := Step(r.s, Tick(ms)))
    case SignUp(to, f) => r.(s := SignedUp(r.s, to, f))
    case Leave(user) => r.(s := Step(r.s, DeleteUser(user)))
    case FindToken(c, row, token) =>
      if c in r.finds || !Matches(r.s, row, token) then r
      else r.(finds := r.finds[c := Found(row, r.s.tables.verifiers[row].user)])
    case CommitVerify(c, f) =>
      if c !in r.finds then r
      else r.(s := Consumed(r.s, r.finds[c].row, r.finds[c].user, f), finds := r.finds - {c})
    case CheckUser(c, user, email) =>
      if c in r.resends || !HasEmail(r.s.tables, user, email) || r.s.tables.users[user].verified then r
      else r.(resends := r.resends[c := Resending(user, email, Checked)])
    case LookUpRow(c, found) =>
      if c !in r.resends || !r.resends[c].pc.Checked? || !IsAnswer(r.s.tables, r.resends[c].user, found) then r
      else At(r, c, LookedUp(found))
    case DropOld(c, o) =>
      if c !in r.resends || !r.resends[c].pc.LookedUp? then r
      else
        var row := r.resends[c].pc.row;
        if row.None? then At(r, c, Cleared)
        else
          var dropped := if o.Lost? then r.s else WithoutRow(r.s, row.value);
          if o.Done? then At(r.(s := dropped), c, Cleared) else Ended(r.(s := dropped), c)
    case InsertNew(c, o) =>
      if c !in r.resends || !r.resends[c].pc.Cleared? then r else InsertedRow(r, c, o)
    case MailNew(c, o) =>
      if c !in r.resends || !r.resends[c].pc.Inserted? then r
      else
        var mail := Mail(r.resends[c].email, r.resends[c].pc.token);
        Ended(if o.Lost? then r else r.(s := r.s.(outbox := r.s.outbox + [mail])), c)
  }

  function WithoutRow(s: State, row: nat): State {
    s.(tables := s.tables.(verifiers := s.tables.verifiers - {row}))
  }

  /** What the query for the user's row may return. */
  ghost predicate IsAnswer(t: Tables, user: nat, found: Option<nat>) {
    if found.Some? then IsRowOf(t, found.value, user) else !HasVerifier(t, user)
  }

  ghost function RunMoves(r: Race, ms: seq<Move>): Race
    decreases |ms|
  {
    if ms == [] then r else RunMoves(Moved(r, ms[0]), ms[1..])
  }

  function Start(now: int): Race {
    Race(Initial(now), map[], map[])
  }

  // ---------- the constraints hold in every interleaving ----------

  /** Rows belong to users, one row to a user and one to a hash. */
  ghost predicate RowsDiffer(t: Tables) {
    && (forall i :: i in t.verifiers ==> t.verifiers[i].user in t.users)
    && (forall i, j :: i in t.verifiers && j in t.verifiers && t.verifiers[i].user == t.verifiers[j].user ==> i == j)
    && (forall i, j :: i in t.verifiers && j in t.verifiers && t.verifiers[i].hash == t.verifiers[j].hash ==> i == j)
  }

  ghost predicate Numbered(s: State) {
    && (forall u :: u in s.tables.users ==> u < s.next)
    && (forall i :: i in s.tables.verifiers ==> i < s.next && s.tables.verifiers[i].hash.token < s.next)
    && (forall i :: i in s.tables.profiles ==> i < s.next)
    && (forall i :: i in s.tables.quotas ==> i < s.next)
  }

  ghost predicate IsWhole(s: State) {
    && EmailsDiffer(s.tables.users) && RowsDiffer(s.tables) && Numbered(s)
    && OnePerUser(s.tables.users, s.tables.profiles) && OnePerUser(s.tables.users, s.tables.quotas)
  }

  /** No more rows and no other users or addresses; mails and the clock do not matter. */
  ghost predicate HasNoMore(s: State, s': State) {
    && s' == s.(tables := s'.tables, now := s'.now, outbox := s'.outbox)
    && s'.tables == s.tables.(users := s'.tables.users, verifiers := s'.tables.verifiers)
    && (forall i :: i in s'.tables.verifiers ==>
          i in s.tables.verifiers && s'.tables.verifiers[i] == s.tables.verifiers[i])
    && s'.tables.users.Keys == s.tables.users.Keys
    && (forall u :: u in s.tables.users ==> s'.tables.users[u].email == s.tables.users[u].email)
  }

  lemma NoMoreRowsDiffer(s: State, s': State)
    requires RowsDiffer(s.tables) && HasNoMore(s, s')
    ensures RowsDiffer(s'.tables)
  {
  }

  lemma NoMoreNumbers(s: State, s': State)
    requires Numbered(s) && HasNoMore(s, s')
    ensures Numbered(s')
  {
  }

  lemma NoMoreUsers(s: State, s': State)
    requires EmailsDiffer(s.tables.users) && HasNoMore(s, s')
    requires OnePerUser(s.tables.users, s.tables.profiles) && OnePerUser(s.tables.users, s.tables.quotas)
    ensures EmailsDiffer(s'.tables.users)
    ensures OnePerUser(s'.tables.users, s'.tables.profiles) && OnePerUser(s'.tables.users, s'.tables.quotas)
  {
    SameUsersKeepRows(s.tables.users, s'.tables.users, s.tables.profiles);
    SameUsersKeepRows(s.tables.users, s'.tables.users, s.tables.quotas);
    hide OnePerUser;
  }

  lemma FewerRowsStayWhole(s: State, s': State)
    requires IsWhole(s) && HasNoMore(s, s')
    ensures IsWhole(s')
  {
    hide HasNoMore, OnePerUser, EmailsDiffer, RowsDiffer, Numbered;
    NoMoreRowsDiffer(s, s');
    NoMoreNumbers(s, s');
    NoMoreUsers(s, s');
  }

  lemma InsertedRowDiffers(s: State, user: nat)
    requires RowsDiffer(s.tables) && Numbered(s) && MayInsert(s.tables, user)
    ensures RowsDiffer(s.tables.(verifiers := s.tables.verifiers[s.next := NewVerifierFor(user, s.next, s.now)]))
  {
    forall i | i in s.tables.verifiers
      ensures s.tables.verifiers[i].user != user
    {
      assert IsRowOf(s.tables, i, user) <==> s.tables.verifiers[i].user == user;
    }
  }

  lemma InsertStaysWhole(r: Race, c: nat, o: Outcome)
    requires IsWhole(r.s) && c in r.resends
    ensures IsWhole(InsertedRow(r, c, o).s)
  {
    hide OnePerUser, EmailsDiffer, RowsDiffer, HasVerifier;
    if MayInsert(r.s.tables, r.resends[c].user) {
      InsertedRowDiffers(r.s, r.resends[c].user);
    }
  }

  lemma NewAccountStaysWhole(s: State, to: string)
    requires IsWhole(s) && !Taken(s.tables, to)
    ensures IsWhole(s.(tables := NewAccount(s.tables, to, s.next, s.now), next := s.next + 1))
  {
    hide OnePerUser, EmailsDiffer, RowsDiffer;
    var n, t' := s.next, NewAccount(s.tables, to, s.next, s.now);
    assert n !in s.tables.users && n !in s.tables.profiles && n !in s.tables.quotas;
    NewUserGetsRow(s.tables.users, s.tables.profiles, n, User(to, false));
    NewUserGetsRow(s.tables.users, s.tables.quotas, n, User(to, false));
    NewEmailDiffers(s.tables, to, n);
    NewRowDiffers(s, to);
  }

  lemma NewEmailDiffers(t: Tables, to: string, n: nat)
    requires EmailsDiffer(t.users) && !Taken(t, to)
    ensures EmailsDiffer(t.users[n := User(to, false)])
  {
    forall u | u in t.users
      ensures t.users[u].email != to
    {
      assert HasEmail(t, u, to) <==> t.users[u].email == to;
    }
  }

  lemma NewRowDiffers(s: State, to: string)
    requires RowsDiffer(s.tables) && Numbered(s)
    ensures RowsDiffer(NewAccount(s.tables, to, s.next, s.now))
  {
  }

  lemma SignUpStaysWhole(s: State, to: string, f: Fault<SignupCall>)
    requires IsWhole(s)
    ensures IsWhole(SignedUp(s, to, f))
  {
    if !Taken(s.tables, to) {
      NewAccountStaysWhole(s, to);
    }
    OnlyMailsAndNumbers(s, SignedUp(s, to, f));
    if !Taken(s.tables, to) && Commits(f) {
      OnlyMailsAndNumbers(
        s.(tables := NewAccount(s.tables, to, s.next, s.now), next := s.next + 1), SignedUp(s, to, f));
    }
    hide IsWhole, NewAccount;
  }

  /** Mails and unused numbers do not matter. */
  lemma OnlyMailsAndNumbers(s: State, s': State)
    requires IsWhole(s)
    ensures s'.tables == s.tables && s'.next >= s.next ==> IsWhole(s')
  {
    hide OnePerUser, EmailsDiffer, RowsDiffer;
  }

  lemma LeavingKeepsRows(s: State, user: nat)
    requires RowsDiffer(s.tables)
    ensures RowsDiffer(Deleted(s.tables, user))
  {
    hide RowsWithout;
  }

  lemma LeavingKeepsNumbers(s: State, user: nat)
    requires Numbered(s)
    ensures Numbered(s.(tables := Deleted(s.tables, user)))
  {
  }

  lemma LeavingKeepsEmails(t: Tables, user: nat)
    requires EmailsDiffer(t.users)
    ensures EmailsDiffer(Deleted(t, user).users)
  {
    hide RowsWithout, WithoutUser;
  }

  lemma LeavingStaysWhole(s: State, user: nat)
    requires IsWhole(s)
    ensures IsWhole(Step(s, DeleteUser(user)))
  {
    hide OnePerUser, EmailsDiffer, RowsDiffer, Numbered;
    DeletedUserLosesRow(s.tables.users, s.tables.profiles, user);
    DeletedUserLosesRow(s.tables.users, s.tables.quotas, user);
    LeavingKeepsRows(s, user);
    LeavingKeepsNumbers(s, user);
    LeavingKeepsEmails(s.tables, user);
  }

  lemma MoveStaysWhole(r: Race, m: Move)
    requires IsWhole(r.s)
    ensures IsWhole(Moved(r, m).s)
  {
    hide IsWhole, SignedUp, InsertedRow, Deleted, WithoutRow;
    match m
    case Pass(_) => FewerRowsStayWhole(r.s, Moved(r, m).s);
    case SignUp(to, f) => SignUpStaysWhole(r.s, to, f);
    case Leave(user) => LeavingStaysWhole(r.s, user);
    case CommitVerify(c, f) =>
      if c in r.finds {
        FewerRowsStayWhole(r.s, Consumed(r.s, r.finds[c].row, r.finds[c].user, f));
      }
    case DropOld(c, o) =>
      if c in r.resends && r.resends[c].pc.LookedUp? && r.resends[c].pc.row.Some? {
        DroppingStaysWhole(r.s, r.resends[c].pc.row.value);
      }
    case InsertNew(c, o) =>
      if c in r.resends {
        InsertStaysWhole(r, c, o);
      }
    case MailNew(c, o) => FewerRowsStayWhole(r.s, Moved(r, m).s);
    case _ =>
  }

  lemma DroppingStaysWhole(s: State, row: nat)
    requires IsWhole(s)
    ensures IsWhole(WithoutRow(s, row))
  {
    hide IsWhole;
    FewerRowsStayWhole(s, WithoutRow(s, row));
  }

  lemma {:induction false} RunStaysWhole(r: Race, ms: seq<Move>)
    requires IsWhole(r.s)
    ensures IsWhole(RunMoves(r, ms).s)
    decreases |ms|
  {
    hide IsWhole, Moved;
    if ms != [] {
      MoveStaysWhole(r, ms[0]);
      RunStaysWhole(Moved(r, ms[0]), ms[1..]);
    }
  }

  /**
   In every interleaving of the single calls: one verifier at most per user and per hash, each of an existing
   user, and exactly one profile and one quota per account.
   */
  lemma TablesStayWhole(now: int, ms: seq<Move>)
    ensures IsWhole(RunMoves(Start(now), ms).s)
  {
    hide RunMoves;
    InitialInv(now);
    hide IsWhole;
    InitialIsWhole(now);
    RunStaysWhole(Start(now), ms);
  }

  lemma InitialIsWhole(now: int)
    ensures IsWhole(Initial(now))
  {
    InitialInv(now);
  }

  // ---------- leftovers ----------

  /** A verified account with a verifier. */
  ghost predicate HasLeftover(t: Tables, u: nat) {
    u in t.users && t.users[u].verified && HasVerifier(t, u)
  }

  /** A verification commits for `u` although its row is no longer the one that was found. */
  ghost predicate CommitsOverReplaced(r: Race, m: Move, u: nat) {
    && m.CommitVerify? && m.c in r.finds && r.finds[m.c].user == u && CommitsVerify(m.v)
    && u in r.s.tables.users && HasVerifier(r.s.tables, u) && !IsRowOf(r.s.tables, r.finds[m.c].row, u)
  }

  /** A resend inserts a row for `u`, who has been verified since the resend checked. */
  ghost predicate InsertsAfterVerified(r: Race, m: Move, u: nat) {
    && m.InsertNew? && m.c in r.resends && r.resends[m.c].user == u && r.resends[m.c].pc.Cleared? && !m.o.Lost?
    && u in r.s.tables.users && r.s.tables.users[u].verified && !HasVerifier(r.s.tables, u)
  }

  lemma CommitLeaves(s: State, row: nat, user: nat, f: Fault<VerifyCall>, u: nat)
    requires IsWhole(s) && !HasLeftover(s.tables, u)
    ensures HasLeftover(Consumed(s, row, user, f).tables, u) <==>
      && user == u && CommitsVerify(f) && u in s.tables.users && HasVerifier(s.tables, u) && !IsRowOf(s.tables, row, u)
  {
    hide OnePerUser, EmailsDiffer, Numbered;
    var t' := Consumed(s, row, user, f).tables;
    assert forall j :: IsRowOf(t', j, u) ==> IsRowOf(s.tables, j, u);
    if CommitsVerify(f) {
      assert forall j :: IsRowOf(t', j, u) <==> IsRowOf(s.tables, j, u) && j != row;
    }
  }

  lemma InsertLeaves(r: Race, c: nat, o: Outcome, u: nat)
    requires IsWhole(r.s) && c in r.resends && !HasLeftover(r.s.tables, u)
    ensures HasLeftover(InsertedRow(r, c, o).s.tables, u) <==>
      && r.resends[c].user == u && !o.Lost?
      && u in r.s.tables.users && r.s.tables.users[u].verified && !HasVerifier(r.s.tables, u)
  {
    hide OnePerUser, EmailsDiffer;
    var t, t' := r.s.tables, InsertedRow(r, c, o).s.tables;
    if !o.Lost? && MayInsert(t, r.resends[c].user) {
      assert IsRowOf(t', r.s.next, r.resends[c].user);
      assert forall j :: IsRowOf(t', j, u) <==> IsRowOf(t, j, u) || (j == r.s.next && u == r.resends[c].user);
    }
  }

  lemma SignUpLeaves(s: State, to: string, f: Fault<SignupCall>, u: nat)
    requires IsWhole(s) && !HasLeftover(s.tables, u)
    ensures !HasLeftover(SignedUp(s, to, f).tables, u)
  {
    hide OnePerUser, EmailsDiffer, RowsDiffer;
    var t' := SignedUp(s, to, f).tables;
    assert forall j :: IsRowOf(t', j, u) ==> IsRowOf(s.tables, j, u) || u == s.next;
  }

  lemma LeavingLeaves(s: State, user: nat, u: nat)
    requires !HasLeftover(s.tables, u)
    ensures !HasLeftover(Step(s, DeleteUser(user)).tables, u)
  {
    assert forall j :: IsRowOf(Deleted(s.tables, user), j, u) ==> IsRowOf(s.tables, j, u);
  }

  lemma DroppingLeaves(s: State, row: nat, u: nat)
    requires !HasLeftover(s.tables, u)
    ensures !HasLeftover(WithoutRow(s, row).tables, u)
  {
    assert forall j :: IsRowOf(WithoutRow(s, row).tables, j, u) ==> IsRowOf(s.tables, j, u);
  }

  lemma MoveLeaves(r: Race, m: Move, u: nat)
    requires IsWhole(r.s) && !HasLeftover(r.s.tables, u)
    ensures HasLeftover(Moved(r, m).s.tables, u) <==> CommitsOverReplaced(r, m, u) || InsertsAfterVerified(r, m, u)
  {
    hide IsWhole, SignedUp, InsertedRow, Deleted, WithoutRow, Consumed, HasLeftover, HasVerifier, IsRowOf;
    match m
    case SignUp(to, f) => SignUpLeaves(r.s, to, f, u);
    case Leave(user) => LeavingLeaves(r.s, user, u);
    case CommitVerify(c, f) =>
      if c in r.finds {
        CommitLeaves(r.s, r.finds[c].row, r.finds[c].user, f, u);
      }
    case DropOld(c, o) =>
      if c in r.resends && r.resends[c].pc.LookedUp? && r.resends[c].pc.row.Some? {
        DroppingLeaves(r.s, r.resends[c].pc.row.value, u);
      }
    case InsertNew(c, o) =>
      if c in r.resends {
        InsertLeaves(r, c, o, u);
      }
    case _ =>
  }

  /**
   In every reachable state: a move makes an account a verified one with a verifier exactly when it commits a
   verification whose row has been replaced since it was found, or inserts the row of a resend for a user who
   has been verified since the resend checked.
   */
  lemma LeftoversExactly(now: int, ms: seq<Move>, m: Move, u: nat)
    requires !HasLeftover(RunMoves(Start(now), ms).s.tables, u)
    ensures var r := RunMoves(Start(now), ms);
      HasLeftover(Moved(r, m).s.tables, u) <==> CommitsOverReplaced(r, m, u) || InsertsAfterVerified(r, m, u)
  {
    hide RunMoves;
    TablesStayWhole(now, ms);
    MoveLeaves(RunMoves(Start(now), ms), m, u);
  }

  /** So a run in which neither happens leaves no such account. */
  lemma {:induction false} LeftoversHaveCauses(now: int, ms: seq<Move>, u: nat)
    requires HasLeftover(RunMoves(Start(now), ms).s.tables, u)
    ensures exists k ::
      && 0 <= k < |ms|
      && (CommitsOverReplaced(RunMoves(Start(now), ms[..k]), ms[k], u)
          || InsertsAfterVerified(RunMoves(Start(now), ms[..k]), ms[k], u))
    decreases |ms|
  {
    hide HasLeftover, CommitsOverReplaced, InsertsAfterVerified, Moved, IsWhole;
    if ms == [] {
      NoLeftoverAtStart(now, u);
    } else {
      var n := |ms| - 1;
      assert ms == ms[..n] + [ms[n]];
      RunMovesAppends(Start(now), ms[..n], [ms[n]]);
      RunOneMove(RunMoves(Start(now), ms[..n]), ms[n]);
      if HasLeftover(RunMoves(Start(now), ms[..n]).s.tables, u) {
        LeftoversHaveCauses(now, ms[..n], u);
        var k :| 0 <= k < n
          && (CommitsOverReplaced(RunMoves(Start(now), ms[..n][..k]), ms[..n][k], u)
              || InsertsAfterVerified(RunMoves(Start(now), ms[..n][..k]), ms[..n][k], u));
        assert ms[..n][..k] == ms[..k] && ms[..n][k] == ms[k];
      } else {
        LeftoversExactly(now, ms[..n], ms[n], u);
      }
    }
  }

  lemma NoLeftoverAtStart(now: int, u: nat)
    ensures !HasLeftover(RunMoves(Start(now), []).s.tables, u)
  {
  }

  lemma {:induction false} RunMovesAppends(r: Race, ms: seq<Move>, more: seq<Move>)
    ensures RunMoves(r, ms + more) == RunMoves(RunMoves(r, ms), more)
    decreases |ms|
  {
    hide Moved;
    if ms == [] {
      assert ms + more == more;
    } else {
      assert (ms + more)[1..] == ms[1..] + more;
      RunMovesAppends(Moved(r, ms[0]), ms[1..], more);
    }
  }

  lemma RunOneMove(r: Race, m: Move)
    ensures RunMoves(r, [m]) == Moved(r, m)
  {
    hide Moved;
    assert RunMoves(r, [m]) == RunMoves(Moved(r, m), []);
  }

  // ---------- whole calls, and the two failing runs ----------

  /** The calls of a resend after its check, all of which succeed. */
  function Renewal(row: Option<nat>): seq<Move> {
    [LookUpRow(0, row), DropOld(0, Done), InsertNew(0, Done)]
  }

  /** A resend that has checked an existing user, and the row the user has by now. */
  ghost predicate IsRenewing(r: Race, u: nat, email: string, row: Option<nat>) {
    && 0 in r.resends && r.resends[0] == Resending(u, email, Checked)
    && u in r.s.tables.users && IsAnswer(r.s.tables, u, row)
  }

  /** Whatever has happened to the user since the check, the renewal gives a new working token. */
  lemma RenewalGivesToken(r: Race, u: nat, email: string, row: Option<nat>)
    requires IsWhole(r.s) && IsRenewing(r, u, email, row)
    ensures var r' := RunMoves(r, Renewal(row));
      && r'.s == r.s.(next := r.s.next + 1, tables := r.s.tables.(verifiers :=
           WithoutUser(r.s.tables.verifiers, u)[r.s.next := NewVerifierFor(u, r.s.next, r.s.now)]))
      && r'.finds == r.finds && r'.resends == r.resends[0 := Resending(u, email, Inserted(r.s.next))]
      && HasVerifier(r'.s.tables, u) && Works(r'.s, r.s.next)
  {
    hide RunMoves, IsWhole;
    var m1, m2, m3 := LookUpRow(0, row), DropOld(0, Done), InsertNew(0, Done);
    RunThreeMoves(r, m1, m2, m3);
    var r1 := Moved(r, m1);
    var r2 := Moved(r1, m2);
    DroppedIsWithoutUser(r.s, u, row);
    assert r2.s.tables == r.s.tables.(verifiers := WithoutUser(r.s.tables.verifiers, u));
    NoRowsWithout(r.s.tables, u);
    var r3 := Moved(r2, m3);
    assert r3.s.tables.verifiers[r.s.next] == NewVerifierFor(u, r.s.next, r.s.now);
    assert Matches(r3.s, r.s.next, r.s.next) && IsRowOf(r3.s.tables, r.s.next, u);
    hide Moved, HasVerifier, Works, Matches;
  }

  lemma DroppedIsWithoutUser(s: State, u: nat, row: Option<nat>)
    requires IsWhole(s) && IsAnswer(s.tables, u, row)
    ensures WithoutUser(s.tables.verifiers, u) ==
      if row.Some? then s.tables.verifiers - {row.value} else s.tables.verifiers
  {
    hide OnePerUser, EmailsDiffer, Numbered;
    assert forall i :: IsRowOf(s.tables, i, u) <==> i in s.tables.verifiers && s.tables.verifiers[i].user == u;
  }

  lemma RunThreeMoves(r: Race, m1: Move, m2: Move, m3: Move)
    ensures RunMoves(r, [m1, m2, m3]) == Moved(Moved(Moved(r, m1), m2), m3)
  {
    hide Moved;
    var r1 := Moved(r, m1);
    var r2 := Moved(r1, m2);
    assert RunMoves(r, [m1, m2, m3]) == RunMoves(r1, [m2, m3]) == RunMoves(r2, [m3]) == RunMoves(Moved(r2, m3), []);
  }

  /** The calls of a resend in a row are the whole call. */
  lemma WholeResendIsMoves(s: State, u: nat, email: string, row: Option<nat>)
    requires IsWhole(s) && HasEmail(s.tables, u, email) && !s.tables.users[u].verified && IsAnswer(s.tables, u, row)
    ensures var r := RunMoves(Moved(Race(s, map[], map[]), CheckUser(0, u, email)), Renewal(row));
      Moved(r, MailNew(0, Done)).s == Resent(s, email, NoFault)
  {
    hide RunMoves, IsWhole, HasVerifier, Works;
    var r0 := Moved(Race(s, map[], map[]), CheckUser(0, u, email));
    RenewalGivesToken(r0, u, email, row);
    ResentIs(s, u, email);
    hide Resent, Replaced, Renewal;
  }

  lemma ResentIs(s: State, u: nat, email: string)
    requires IsWhole(s) && HasEmail(s.tables, u, email) && !s.tables.users[u].verified
    ensures Resent(s, email, NoFault) == s.(
      next := s.next + 1, outbox := s.outbox + [Mail(email, s.next)], tables := s.tables.(verifiers :=
        WithoutUser(s.tables.verifiers, u)[s.next := NewVerifierFor(u, s.next, s.now)]))
  {
    hide OnePerUser, RowsDiffer, Numbered, HasVerifier;
  }

  /** The calls of a verification in a row are the whole call. */
  lemma WholeVerifyIsMoves(s: State, row: nat, token: nat, f: Fault<VerifyCall>)
    requires Inv(s) && Matches(s, row, token) && How(f, FindHash).Done?
    ensures var r := Moved(Race(s, map[], map[]), FindToken(0, row, token));
      Moved(r, CommitVerify(0, f)).s == VerifiedBy(s, token, f)
  {
    OnlyMatch(s, row, token, f);
    hide Inv, VerifiedBy, Consumed;
  }

  /** An account that has just been opened by its sign-up. */
  ghost predicate IsNew(s: State, email: string) {
    && IsWhole(s) && s.next == 2 && 1 in s.tables.users && s.tables.users[1] == User(email, false)
    && s.tables.verifiers == map[1 := NewVerifierFor(1, 1, s.now)]
  }

  lemma SignsUp(now: int, email: string)
    requires email != "anonymous@ffgif.local"
    ensures var r := RunMoves(Start(now), [SignUp(email, NoFault)]);
      IsNew(r.s, email) && r.finds == map[] && r.resends == map[] && r.s.now == now
  {
    hide RunMoves, IsWhole;
    InitialIsWhole(now);
    MoveStaysWhole(Start(now), SignUp(email, NoFault));
    RunOneMove(Start(now), SignUp(email, NoFault));
    assert forall u :: HasEmail(Initial(now).tables, u, email) ==> u == 0;
  }

  /** A resend between the two halves of a verification: the account is verified, and keeps the new verifier. */
  lemma ResendInsideVerifyHappens(now: int, email: string)
    requires email != "anonymous@ffgif.local"
    ensures var ms := [SignUp(email, NoFault)] + [FindToken(0, 1, 1), CheckUser(0, 1, email)]
        + Renewal(Some(1)) + [CommitVerify(0, NoFault)];
      HasLeftover(RunMoves(Start(now), ms).s.tables, 1)
  {
    hide RunMoves, IsWhole, HasLeftover, HasVerifier, Works, Matches;
    var ms1 := [SignUp(email, NoFault)];
    var ms2 := ms1 + [FindToken(0, 1, 1), CheckUser(0, 1, email)];
    var ms3 := ms2 + Renewal(Some(1));
    SignsUp(now, email);
    RunMovesAppends(Start(now), ms1, [FindToken(0, 1, 1), CheckUser(0, 1, email)]);
    RunMovesAppends(Start(now), ms2, Renewal(Some(1)));
    RunMovesAppends(Start(now), ms3, [CommitVerify(0, NoFault)]);
    var r1 := RunMoves(Start(now), ms1);
    RunTwoMoves(r1, FindToken(0, 1, 1), CheckUser(0, 1, email));
    FindsAndChecks(r1, email);
    var r2 := RunMoves(Start(now), ms2);
    RenewalGivesToken(r2, 1, email, Some(1));
    var r3 := RunMoves(Start(now), ms3);
    RunOneMove(r3, CommitVerify(0, NoFault));
    TablesStayWhole(now, ms3);
    NotVerifiedYet(r3.s, 1);
    CommitLeaves(r3.s, 1, 1, NoFault, 1);
    hide Moved, Renewal;
  }

  lemma NotVerifiedYet(s: State, u: nat)
    ensures u in s.tables.users && !s.tables.users[u].verified ==> !HasLeftover(s.tables, u)
  {
  }

  lemma FindsAndChecks(r: Race, email: string)
    requires IsNew(r.s, email) && r.finds == map[] && r.resends == map[]
    ensures var r' := Moved(Moved(r, FindToken(0, 1, 1)), CheckUser(0, 1, email));
      && r'.s == r.s && r'.finds == map[0 := Found(1, 1)] && r'.resends == map[0 := Resending(1, email, Checked)]
      && IsRenewing(r', 1, email, Some(1))
  {
    hide IsWhole;
    assert Matches(r.s, 1, 1);
  }

  lemma RunTwoMoves(r: Race, m1: Move, m2: Move)
    ensures RunMoves(r, [m1, m2]) == Moved(Moved(r, m1), m2)
  {
    hide Moved;
    assert RunMoves(r, [m1, m2]) == RunMoves(Moved(r, m1), [m2]);
    RunOneMove(Moved(r, m1), m2);
  }

  /**
   A verification between the check of a resend and the rest of it: the row it consumes is the user's own, and
   still the account ends verified with a verifier whose token works.
   */
  lemma VerifyInsideResendHappens(now: int, email: string)
    requires email != "anonymous@ffgif.local"
    ensures var ms := [SignUp(email, NoFault)] + [FindToken(0, 1, 1), CheckUser(0, 1, email)]
        + [CommitVerify(0, NoFault)] + Renewal(None);
      var s := RunMoves(Start(now), ms).s;
      HasLeftover(s.tables, 1) && Works(s, 2)
  {
    hide RunMoves, IsWhole, HasVerifier, Works, Matches;
    var ms1 := [SignUp(email, NoFault)];
    var ms2 := ms1 + [FindToken(0, 1, 1), CheckUser(0, 1, email)];
    var ms3 := ms2 + [CommitVerify(0, NoFault)];
    SignsUp(now, email);
    RunMovesAppends(Start(now), ms1, [FindToken(0, 1, 1), CheckUser(0, 1, email)]);
    RunMovesAppends(Start(now), ms2, [CommitVerify(0, NoFault)]);
    RunMovesAppends(Start(now), ms3, Renewal(None));
    var r1 := RunMoves(Start(now), ms1);
    RunTwoMoves(r1, FindToken(0, 1, 1), CheckUser(0, 1, email));
    FindsAndChecks(r1, email);
    var r2 := RunMoves(Start(now), ms2);
    RunOneMove(r2, CommitVerify(0, NoFault));
    var r3 := RunMoves(Start(now), ms3);
    assert r3.s.tables.verifiers == map[];
    NobodyHasRow(r3.s.tables, 1);
    TablesStayWhole(now, ms3);
    RenewalGivesToken(r3, 1, email, None);
    hide Moved, Renewal;
  }

  lemma NobodyHasRow(t: Tables, u: nat)
    requires t.verifiers == map[]
    ensures !HasVerifier(t, u)
  {
  }
}
