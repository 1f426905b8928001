/**
 Accounts and their verification tokens: signing up, asking for another token, presenting one, and
 deleting the account. Every service call is one event; any call it makes to a store may fail.
 */
module Accounts {
  import opened Prelude
  import opened Cache

  /** SHA-256 of a token; taken to be injective, as a constructor is. */
  datatype TokenHash = Sha256(token: nat)

  datatype User = User(email: string, verified: bool)

  datatype Verifier = Verifier(user: nat, hash: TokenHash, expireAt: int)

  /** `profiles` and `quotas` tell whose row each row is; all rows are keyed by their ids. */
  datatype Tables = Tables(
    users: map<nat, User>, verifiers: map<nat, Verifier>, profiles: map<nat, nat>, quotas: map<nat, nat>)

  /** A verification mail handed to the mail queue. */
  datatype Mail = Mail(to: string, token: nat)

  /** Each call draws the number `next`, never seen before, for the token and the rows it makes. */
  datatype State = State(tables: Tables, outbox: seq<Mail>, next: nat, now: int)

  const TOKEN_LIFE := 30 * MINUTE

  /** At most one call to a store goes wrong, as `o` says. */
  datatype Fault<+C> = NoFault | At(call: C, o: Outcome)

  function How<C(==)>(f: Fault<C>, call: C): Outcome {
    if f.At? && f.call == call then f.o else Done
  }

  datatype SignupCall =
    | Begin | FindUser | HashPassword | AddUser | AddVerifier | AddProfile | AddQuota | Commit | Publish

  datatype ResendCall = Find | GetVerifier | DropVerifier | NewVerifier | PublishAgain

  datatype VerifyCall = FindHash | BeginTx | SetVerified | DropUsed | CommitTx

  datatype Event =
    | Tick(ms: nat)
    | Signup(email: string, s: Fault<SignupCall>)
    | Resend(email: string, r: Fault<ResendCall>)
    | Verify(token: nat, v: Fault<VerifyCall>)
    | DeleteUser(user: nat)

  // ---------- what each call does ----------

  ghost predicate HasEmail(t: Tables, u: nat, email: string) {
    u in t.users && t.users[u].email == email
  }

  ghost predicate Taken(t: Tables, email: string) {
    exists u :: HasEmail(t, u, email)
  }

  function NewVerifierFor(user: nat, n: nat, now: int): Verifier {
    Verifier(user, Sha256(n), now + TOKEN_LIFE)
  }

  function NewAccount(t: Tables, email: string, n: nat, now: int): Tables {
    Tables(t.users[n := User(email, false)], t.verifiers[n := NewVerifierFor(n, n, now)],
           t.profiles[n := n], t.quotas[n := n])
  }

  /** The calls of the transaction itself all succeed, and its commit reached the database. */
  predicate Commits(f: Fault<SignupCall>) {
    f.NoFault? || f.o.Done? || f.call.Publish? || (f.call.Commit? && f.o.Unsure?)
  }

  ghost function SignedUp(s: State, email: string, f: Fault<SignupCall>): State {
    var s' := s.(next := s.next + 1);
    if Taken(s.tables, email) || !Commits(f) then s'
    else
      var done := s'.(tables := NewAccount(s.tables, email, s.next, s.now));
      if How(f, Commit).Done? && !How(f, Publish).Lost? then done.(outbox := s.outbox + [Mail(email, s.next)])
      else done
  }

  function WithoutUser(rows: map<nat, Verifier>, user: nat): map<nat, Verifier> {
    map i | i in rows && rows[i].user != user :: rows[i]
  }

  ghost predicate IsRowOf(t: Tables, i: nat, user: nat) {
    i in t.verifiers && t.verifiers[i].user == user
  }

  ghost predicate HasVerifier(t: Tables, user: nat) {
    exists i :: IsRowOf(t, i, user)
  }

  /** The old row goes first and is not put back if a later call fails. */
  ghost function Replaced(s: State, u: nat, email: string, f: Fault<ResendCall>): State
    requires s.next > 0
  {
    var n := s.next - 1;
    var drop := if HasVerifier(s.tables, u) then How(f, DropVerifier) else Done;
    var dropped := if drop.Lost? then s.tables.verifiers else WithoutUser(s.tables.verifiers, u);
    var renewed :=
      if !drop.Done? || How(f, NewVerifier).Lost? then dropped else dropped[n := NewVerifierFor(u, n, s.now)];
    var s' := s.(tables := s.tables.(verifiers := renewed));
    if drop.Done? && How(f, NewVerifier).Done? && !How(f, PublishAgain).Lost?
    then s'.(outbox := s.outbox + [Mail(email, n)])
    else s'
  }

  ghost function Resent(s: State, email: string, f: Fault<ResendCall>): State {
    var s' := s.(next := s.next + 1);
    if !Taken(s.tables, email) then s'
    else
      var u :| HasEmail(s.tables, u, email);
      if !How(f, Find).Done? || s.tables.users[u].verified || !How(f, GetVerifier).Done? then s'
      else Replaced(s', u, email, f)
  }

  ghost predicate Matches(s: State, i: nat, token: nat) {
    i in s.tables.verifiers && s.tables.verifiers[i].hash == Sha256(token) && s.now < s.tables.verifiers[i].expireAt
  }

  /** `Verify` finds a row for the token. */
  ghost predicate Works(s: State, token: nat) {
    exists i :: Matches(s, i, token)
  }

  predicate CommitsVerify(f: Fault<VerifyCall>) {
    f.NoFault? || f.o.Done? || f.call.FindHash? || (f.call.CommitTx? && f.o.Unsure?)
  }

  /** The transaction of `Verify` on the row `i` of `user` that was found before it. */
  function Consumed(s: State, i: nat, user: nat, f: Fault<VerifyCall>): State {
    if !CommitsVerify(f) then s
    else
      var users := s.tables.users;
      s.(tables := s.tables.(
           users := if user in users then users[user := users[user].(verified := true)] else users,
           verifiers := s.tables.verifiers - {i}))
  }

  ghost function VerifiedBy(s: State, token: nat, f: Fault<VerifyCall>): State {
    if !How(f, FindHash).Done? || !Works(s, token) then s
    else
      var i :| Matches(s, i, token);
      Consumed(s, i, s.tables.verifiers[i].user, f)
  }

  function RowsWithout(rows: map<nat, nat>, user: nat): map<nat, nat> {
    map i | i in rows && rows[i] != user :: rows[i]
  }

  function Deleted(t: Tables, user: nat): Tables {
    Tables(t.users - {user}, WithoutUser(t.verifiers, user), RowsWithout(t.profiles, user), RowsWithout(t.quotas, user))
  }

  ghost function Step(s: State, e: Event): State {
    match e
    case Tick(ms) => s.(now := s.now + ms)
    case Signup(email, f) => SignedUp(s, email, f)
    case Resend(email, f) => Resent(s, email, f)
    case Verify(token, f) => VerifiedBy(s, token, f)
    case DeleteUser(user) => s.(tables := Deleted(s.tables, user))
  }

  ghost function Run(s: State, es: seq<Event>): State
    decreases |es|
  {
    if es == [] then s else Run(Step(s, es[0]), es[1..])
  }

  /** The migrations leave one verified account behind. */
  function Initial(now: int): State {
    State(Tables(map[0 := User("anonymous@ffgif.local", true)], map[], map[0 := 0], map[0 := 0]), [], 1, now)
  }

  // ---------- the invariant ----------

  ghost predicate EmailsDiffer(users: map<nat, User>) {
    forall u, u' :: u in users && u' in users && users[u].email == users[u'].email ==> u == u'
  }

  /** Exactly one row for every user and none for anybody else. */
  ghost predicate OnePerUser(users: map<nat, User>, rows: map<nat, nat>) {
    && (forall i :: i in rows ==> rows[i] in users)
    && (forall i, j :: i in rows && j in rows && rows[i] == rows[j] ==> i == j)
    && (forall u :: u in users ==> u in rows.Values)
  }

  /** At most one verifier per user and per hash, and none for a verified user. */
  ghost predicate VerifiersAreSound(t: Tables) {
    && (forall i :: i in t.verifiers ==> t.verifiers[i].user in t.users && !t.users[t.verifiers[i].user].verified)
    && (forall i, j :: i in t.verifiers && j in t.verifiers && t.verifiers[i].user == t.verifiers[j].user ==> i == j)
    && (forall i, j :: i in t.verifiers && j in t.verifiers && t.verifiers[i].hash == t.verifiers[j].hash ==> i == j)
  }

  ghost predicate FreshIsUnused(s: State) {
    && s.next > 0
    && (forall u :: u in s.tables.users ==> u < s.next)
    && (forall i :: i in s.tables.verifiers ==> i < s.next && s.tables.verifiers[i].hash.token < s.next)
    && (forall i :: i in s.tables.profiles ==> i < s.next)
    && (forall i :: i in s.tables.quotas ==> i < s.next)
    && (forall k :: 0 <= k < |s.outbox| ==> s.outbox[k].token < s.next)
  }

  /** Mails go out in the order of their tokens, and no mail to an address is newer than its user's verifier. */
  ghost predicate MailsAreSound(s: State) {
    && (forall k, l :: 0 <= k < l < |s.outbox| ==> s.outbox[k].token < s.outbox[l].token)
    && (forall i, k ::
          i in s.tables.verifiers && 0 <= k < |s.outbox| && s.tables.verifiers[i].user in s.tables.users ==>
            MailFits(s.tables.verifiers[i], s.tables.users[s.tables.verifiers[i].user].email, s.outbox[k]))
  }

  predicate MailFits(row: Verifier, email: string, m: Mail) {
    && (m.to == email ==> m.token <= row.hash.token)
    && (m.token == row.hash.token ==> m.to == email)
  }

  ghost predicate Inv(s: State) {
    && EmailsDiffer(s.tables.users)
    && VerifiersAreSound(s.tables)
    && OnePerUser(s.tables.users, s.tables.profiles)
    && OnePerUser(s.tables.users, s.tables.quotas)
    && FreshIsUnused(s)
    && MailsAreSound(s)
  }

  lemma NewUserGetsRow(users: map<nat, User>, rows: map<nat, nat>, n: nat, user: User)
    requires OnePerUser(users, rows) && n !in users && n !in rows
    ensures OnePerUser(users[n := user], rows[n := n])
  {
    var users', rows' := users[n := user], rows[n := n];
    forall u | u in users'
      ensures u in rows'.Values
    {
      if u == n {
        assert rows'[n] == u;
      } else {
        var i :| i in rows && rows[i] == u;
        assert rows'[i] == u;
      }
    }
  }

  lemma DeletedUserLosesRow(users: map<nat, User>, rows: map<nat, nat>, user: nat)
    requires OnePerUser(users, rows)
    ensures OnePerUser(users - {user}, RowsWithout(rows, user))
  {
    var rows' := RowsWithout(rows, user);
    forall u | u in users && u != user
      ensures u in rows'.Values
    {
      var i :| i in rows && rows[i] == u;
      assert rows'[i] == u;
    }
  }

  lemma SameUsersKeepRows(users: map<nat, User>, users': map<nat, User>, rows: map<nat, nat>)
    requires OnePerUser(users, rows) && users'.Keys == users.Keys
    ensures OnePerUser(users', rows)
  {
  }

  /** The number `n` names no row and no token yet. */
  ghost predicate Unused(s: State, n: nat) {
    && n < s.next && n !in s.tables.verifiers
    && (forall i :: i in s.tables.verifiers ==> s.tables.verifiers[i].hash.token < n)
    && (forall k :: 0 <= k < |s.outbox| ==> s.outbox[k].token < n)
  }

  lemma DrawKeepsInv(s: State)
    requires Inv(s)
    ensures Inv(s.(next := s.next + 1)) && Unused(s.(next := s.next + 1), s.next)
  {
    hide OnePerUser, EmailsDiffer, MailFits;
  }

  /** The rows and the mails only care about users that have a row. */
  lemma RowsIgnoreOtherUsers(s: State, s': State)
    requires VerifiersAreSound(s.tables) && MailsAreSound(s)
    requires s'.tables.verifiers == s.tables.verifiers && s'.outbox == s.outbox
    requires forall i :: i in s.tables.verifiers ==>
      var u := s.tables.verifiers[i].user; u in s'.tables.users && s'.tables.users[u] == s.tables.users[u]
    ensures VerifiersAreSound(s'.tables) && MailsAreSound(s')
  {
    hide MailFits;
  }

  function WithUser(t: Tables, email: string, n: nat): Tables {
    t.(users := t.users[n := User(email, false)], profiles := t.profiles[n := n], quotas := t.quotas[n := n])
  }

  lemma NewUserKeepsInv(s: State, email: string, n: nat)
    requires Inv(s) && Unused(s, n) && !Taken(s.tables, email)
    requires n !in s.tables.users && n !in s.tables.profiles && n !in s.tables.quotas
    ensures Inv(s.(tables := WithUser(s.tables, email, n)))
  {
    hide OnePerUser, MailsAreSound;
    RowsIgnoreOtherUsers(s, s.(tables := WithUser(s.tables, email, n)));
    NewUserGetsRow(s.tables.users, s.tables.profiles, n, User(email, false));
    NewUserGetsRow(s.tables.users, s.tables.quotas, n, User(email, false));
    forall u | u in s.tables.users
      ensures s.tables.users[u].email != email
    {
      assert HasEmail(s.tables, u, email) <==> s.tables.users[u].email == email;
    }
  }

  lemma FewerRowsKeepInv(s: State, rows: map<nat, Verifier>)
    requires Inv(s)
    requires forall i :: i in rows ==> i in s.tables.verifiers && rows[i] == s.tables.verifiers[i]
    ensures Inv(s.(tables := s.tables.(verifiers := rows)))
  {
    hide OnePerUser, EmailsDiffer, MailFits;
  }

  lemma NewRowKeepsInv(s: State, u: nat, n: nat)
    requires Inv(s) && Unused(s, n)
    requires u in s.tables.users && !s.tables.users[u].verified && !HasVerifier(s.tables, u)
    ensures Inv(s.(tables := s.tables.(verifiers := s.tables.verifiers[n := NewVerifierFor(u, n, s.now)])))
  {
    hide OnePerUser, EmailsDiffer;
    forall i | i in s.tables.verifiers
      ensures s.tables.verifiers[i].user != u
    {
      assert IsRowOf(s.tables, i, u) <==> s.tables.verifiers[i].user == u;
    }
  }

  lemma MailKeepsInv(s: State, n: nat)
    requires Inv(s) && n in s.tables.verifiers && s.tables.verifiers[n].hash == Sha256(n)
    requires forall k :: 0 <= k < |s.outbox| ==> s.outbox[k].token < n
    ensures Inv(s.(outbox := s.outbox + [Mail(s.tables.users[s.tables.verifiers[n].user].email, n)]))
  {
    hide OnePerUser;
  }

  lemma RowsAreOfOthers(s: State, u: nat)
    requires Inv(s) && !HasVerifier(s.tables, u)
    ensures forall i :: i in s.tables.verifiers ==>
      s.tables.verifiers[i].user != u && s.tables.verifiers[i].user in s.tables.users
  {
    hide Inv;
    forall i | i in s.tables.verifiers
      ensures s.tables.verifiers[i].user != u && s.tables.verifiers[i].user in s.tables.users
    {
      RowFacts(s, i);
      assert IsRowOf(s.tables, i, u) <==> s.tables.verifiers[i].user == u;
    }
  }

  lemma VerifyingKeepsEmails(users: map<nat, User>, u: nat)
    requires EmailsDiffer(users) && u in users
    ensures EmailsDiffer(users[u := users[u].(verified := true)])
  {
  }

  lemma VerifiedUserKeepsInv(s: State, u: nat)
    requires Inv(s) && u in s.tables.users && !HasVerifier(s.tables, u)
    ensures Inv(s.(tables := s.tables.(users := s.tables.users[u := s.tables.users[u].(verified := true)])))
  {
    hide OnePerUser, MailsAreSound, VerifiersAreSound, EmailsDiffer, HasVerifier;
    var users' := s.tables.users[u := s.tables.users[u].(verified := true)];
    VerifyingKeepsEmails(s.tables.users, u);
    SameUsersKeepRows(s.tables.users, users', s.tables.profiles);
    SameUsersKeepRows(s.tables.users, users', s.tables.quotas);
    RowsAreOfOthers(s, u);
    RowsIgnoreOtherUsers(s, s.(tables := s.tables.(users := users')));
  }

  lemma NoRowsWithout(t: Tables, u: nat)
    ensures !HasVerifier(t.(verifiers := WithoutUser(t.verifiers, u)), u)
  {
  }

  lemma NobodyHasNoVerifier(s: State, u: nat)
    requires Inv(s) && u !in s.tables.users
    ensures !HasVerifier(s.tables, u)
  {
  }

  lemma SignupKeepsInv(s: State, email: string, f: Fault<SignupCall>)
    requires Inv(s)
    ensures Inv(SignedUp(s, email, f))
  {
    hide Inv;
    var n, t := s.next, s.tables;
    var s1 := s.(next := n + 1);
    DrawKeepsInv(s);
    if !Taken(t, email) && Commits(f) {
      var t2 := WithUser(t, email, n);
      assert n !in t.users && n !in t.profiles && n !in t.quotas by {
        NextNamesNothing(s);
      }
      NewUserKeepsInv(s1, email, n);
      NobodyHasNoVerifier(s, n);
      assert forall i :: IsRowOf(t2, i, n) <==> IsRowOf(t, i, n);
      NewRowKeepsInv(s1.(tables := t2), n, n);
      var s3 := s1.(tables := NewAccount(t, email, n, s.now));
      assert s3.tables == t2.(verifiers := t2.verifiers[n := NewVerifierFor(n, n, s.now)]);
      MailKeepsInv(s3, n);
    }
  }

  lemma NextNamesNothing(s: State)
    requires Inv(s)
    ensures s.next !in s.tables.users && s.next !in s.tables.profiles && s.next !in s.tables.quotas
  {
  }

  lemma ReplacedKeepsInv(s: State, u: nat, email: string, f: Fault<ResendCall>)
    requires Inv(s) && s.next > 0 && Unused(s, s.next - 1)
    requires HasEmail(s.tables, u, email) && !s.tables.users[u].verified
    ensures Inv(Replaced(s, u, email, f))
  {
    hide Inv;
    var n, rows := s.next - 1, WithoutUser(s.tables.verifiers, u);
    FewerRowsKeepInv(s, rows);
    var s1 := s.(tables := s.tables.(verifiers := rows));
    NoRowsWithout(s.tables, u);
    NewRowKeepsInv(s1, u, n);
    MailKeepsInv(s1.(tables := s1.tables.(verifiers := rows[n := NewVerifierFor(u, n, s.now)])), n);
  }

  lemma ResendKeepsInv(s: State, email: string, f: Fault<ResendCall>)
    requires Inv(s)
    ensures Inv(Resent(s, email, f))
  {
    hide Inv, Replaced, Unused;
    DrawKeepsInv(s);
    var s1 := s.(next := s.next + 1);
    forall u | HasEmail(s.tables, u, email) && !s.tables.users[u].verified
      ensures Inv(Replaced(s1, u, email, f))
    {
      ReplacedKeepsInv(s1, u, email, f);
    }
  }

  lemma ConsumedKeepsInv(s: State, i: nat, f: Fault<VerifyCall>)
    requires Inv(s) && i in s.tables.verifiers
    ensures Inv(Consumed(s, i, s.tables.verifiers[i].user, f))
  {
    hide OnePerUser, EmailsDiffer, FreshIsUnused, MailsAreSound;
    var u, rows := s.tables.verifiers[i].user, s.tables.verifiers - {i};
    FewerRowsKeepInv(s, rows);
    var s1 := s.(tables := s.tables.(verifiers := rows));
    assert !HasVerifier(s1.tables, u);
    VerifiedUserKeepsInv(s1, u);
  }

  lemma VerifyKeepsInv(s: State, token: nat, f: Fault<VerifyCall>)
    requires Inv(s)
    ensures Inv(VerifiedBy(s, token, f))
  {
    hide Inv, Consumed;
    forall i | Matches(s, i, token)
      ensures Inv(Consumed(s, i, s.tables.verifiers[i].user, f))
    {
      ConsumedKeepsInv(s, i, f);
    }
  }

  lemma DeleteKeepsTables(t: Tables, user: nat)
    requires EmailsDiffer(t.users) && VerifiersAreSound(t)
    ensures EmailsDiffer(Deleted(t, user).users) && VerifiersAreSound(Deleted(t, user))
  {
    hide RowsWithout;
  }

  lemma DeleteKeepsMails(s: State, user: nat)
    requires MailsAreSound(s) && FreshIsUnused(s)
    ensures MailsAreSound(s.(tables := Deleted(s.tables, user))) && FreshIsUnused(s.(tables := Deleted(s.tables, user)))
  {
    hide MailFits;
  }

  lemma DeleteKeepsInv(s: State, user: nat)
    requires Inv(s)
    ensures Inv(s.(tables := Deleted(s.tables, user)))
  {
    hide OnePerUser, EmailsDiffer, VerifiersAreSound, MailsAreSound, FreshIsUnused;
    DeleteKeepsTables(s.tables, user);
    DeleteKeepsMails(s, user);
    DeletedUserLosesRow(s.tables.users, s.tables.profiles, user);
    DeletedUserLosesRow(s.tables.users, s.tables.quotas, user);
  }

  lemma StepKeepsInv(s: State, e: Event)
    requires Inv(s)
    ensures Inv(Step(s, e))
  {
    hide SignedUp, Resent, VerifiedBy, OnePerUser, EmailsDiffer, Deleted;
    match e
    case Tick(_) =>
    case Signup(email, f) => SignupKeepsInv(s, email, f);
    case Resend(email, f) => ResendKeepsInv(s, email, f);
    case Verify(token, f) => VerifyKeepsInv(s, token, f);
    case DeleteUser(user) => DeleteKeepsInv(s, user);
  }

  lemma {:induction false} RunKeepsInv(s: State, es: seq<Event>)
    requires Inv(s)
    ensures Inv(Run(s, es))
    decreases |es|
  {
    hide Inv, Step;
    if es != [] {
      StepKeepsInv(s, es[0]);
      RunKeepsInv(Step(s, es[0]), es[1..]);
    }
  }

  lemma InitialInv(now: int)
    ensures Inv(Initial(now))
  {
    var s := Initial(now);
    assert s.tables.profiles[0] == 0 && s.tables.quotas[0] == 0;
  }

  /**
   Whatever calls fail: at most one verifier per user, none for a verified one, and exactly one profile
   and one quota per account.
   */
  lemma AccountsStayWhole(now: int, es: seq<Event>)
    ensures var t := Run(Initial(now), es).tables;
      && VerifiersAreSound(t)
      && EmailsDiffer(t.users)
      && OnePerUser(t.users, t.profiles)
      && OnePerUser(t.users, t.quotas)
  {
    hide Run;
    InitialInv(now);
    RunKeepsInv(Initial(now), es);
  }

  // ---------- tokens over a run ----------

  /** Time and numbering only move forward. */
  lemma {:induction false} RunMovesForward(s: State, es: seq<Event>)
    ensures Run(s, es).now >= s.now && Run(s, es).next >= s.next
    decreases |es|
  {
    if es != [] {
      StepMovesForward(s, es[0]);
      RunMovesForward(Step(s, es[0]), es[1..]);
    }
  }

  lemma StepMovesForward(s: State, e: Event)
    ensures Step(s, e).now >= s.now && Step(s, e).next >= s.next
  {
  }

  /** A verifier row is never edited, and a new one carries the number its call drew. */
  lemma RowsComeFrom(s: State, e: Event, i: nat)
    requires i in Step(s, e).tables.verifiers
    ensures var row := Step(s, e).tables.verifiers[i];
      (i in s.tables.verifiers && s.tables.verifiers[i] == row) || row.hash == Sha256(s.next)
  {
  }

  /** A token that does not work will never work again, whatever is called afterwards. */
  lemma {:induction false} DeadTokensStayDead(s: State, es: seq<Event>, token: nat)
    requires token < s.next && !Works(s, token)
    ensures !Works(Run(s, es), token)
    decreases |es|
  {
    hide Step;
    if es != [] {
      var s' := Step(s, es[0]);
      StepMovesForward(s, es[0]);
      forall i
        ensures Matches(s', i, token) ==> Matches(s, i, token)
      {
        if Matches(s', i, token) {
          RowsComeFrom(s, es[0], i);
        }
      }
      DeadTokensStayDead(s', es[1..], token);
    }
  }

  /** A token verifies an account once: after its transaction commits it is dead for good. */
  lemma TokensWorkOnce(s: State, token: nat, f: Fault<VerifyCall>, es: seq<Event>)
    requires Inv(s) && Works(s, token) && How(f, FindHash).Done? && CommitsVerify(f)
    ensures !Works(Run(VerifiedBy(s, token, f), es), token)
  {
    var s' := VerifiedBy(s, token, f);
    assert !Works(s', token);
    DeadTokensStayDead(s', es, token);
  }

  /**
   Of the tokens mailed to an address only the last one can work, and it works only for an unverified
   account with that very address.
   */
  lemma {:induction false} OnlyTheLatestMailWorks(now: int, es: seq<Event>, k: nat)
    requires var s := Run(Initial(now), es); k < |s.outbox| && Works(s, s.outbox[k].token)
    ensures var s := Run(Initial(now), es);
      && (forall l :: k < l < |s.outbox| ==> s.outbox[l].to != s.outbox[k].to)
      && (exists u :: HasEmail(s.tables, u, s.outbox[k].to) && !s.tables.users[u].verified)
  {
    hide Run, OnePerUser;
    var s := Run(Initial(now), es);
    InitialInv(now);
    RunKeepsInv(Initial(now), es);
    LatestMail(s, k);
  }

  lemma LatestMail(s: State, k: nat)
    requires Inv(s) && k < |s.outbox| && Works(s, s.outbox[k].token)
    ensures forall l :: k < l < |s.outbox| ==> s.outbox[l].to != s.outbox[k].to
    ensures exists u :: HasEmail(s.tables, u, s.outbox[k].to) && !s.tables.users[u].verified
  {
    hide OnePerUser, EmailsDiffer;
    var i :| Matches(s, i, s.outbox[k].token);
    var u := s.tables.verifiers[i].user;
    assert MailFits(s.tables.verifiers[i], s.tables.users[u].email, s.outbox[k]);
    assert HasEmail(s.tables, u, s.outbox[k].to);
    forall l | k < l < |s.outbox|
      ensures s.outbox[l].to != s.outbox[k].to
    {
      assert MailFits(s.tables.verifiers[i], s.tables.users[u].email, s.outbox[l]);
      assert s.outbox[k].token < s.outbox[l].token;
    }
  }

  /** The call is none of the three that can take the row of `user` and its `token` away. */
  predicate Spares(e: Event, user: nat, email: string, token: nat) {
    match e
    case Resend(to, _) => to != email
    case Verify(t, _) => t != token
    case DeleteUser(u) => u != user
    case _ => true
  }

  ghost predicate Holds(s: State, i: nat, row: Verifier, email: string) {
    i in s.tables.verifiers && s.tables.verifiers[i] == row && HasEmail(s.tables, row.user, email)
  }

  lemma OtherResendSpares(s: State, to: string, f: Fault<ResendCall>, i: nat, row: Verifier, email: string)
    requires Inv(s) && Holds(s, i, row, email) && to != email
    ensures Holds(Resent(s, to, f), i, row, email)
  {
    hide OnePerUser, MailsAreSound, VerifiersAreSound, EmailsDiffer;
  }

  lemma OtherVerifySpares(s: State, t: nat, f: Fault<VerifyCall>, i: nat, row: Verifier, email: string)
    requires Inv(s) && Holds(s, i, row, email) && t != row.hash.token
    ensures Holds(VerifiedBy(s, t, f), i, row, email)
  {
    hide OnePerUser, MailsAreSound, FreshIsUnused, EmailsDiffer;
  }

  lemma SparedRowStays(s: State, e: Event, i: nat, row: Verifier, email: string)
    requires Inv(s) && Holds(s, i, row, email) && Spares(e, row.user, email, row.hash.token)
    ensures Holds(Step(s, e), i, row, email)
  {
    hide Resent, VerifiedBy, OnePerUser, MailsAreSound, VerifiersAreSound, EmailsDiffer;
    assert i != s.next && row.user != s.next;
    match e
    case Resend(to, f) => OtherResendSpares(s, to, f, i, row, email);
    case Verify(t, f) => OtherVerifySpares(s, t, f, i, row, email);
    case _ =>
  }

  lemma {:induction false} SparedRowStaysFor(s: State, es: seq<Event>, i: nat, row: Verifier, email: string)
    requires Inv(s) && Holds(s, i, row, email)
    requires forall k :: 0 <= k < |es| ==> Spares(es[k], row.user, email, row.hash.token)
    ensures Holds(Run(s, es), i, row, email) && Inv(Run(s, es))
    decreases |es|
  {
    hide Inv, Step, Holds, Spares;
    if es != [] {
      assert Spares(es[0], row.user, email, row.hash.token);
      StepKeepsInv(s, es[0]);
      SparedRowStays(s, es[0], i, row, email);
      SparedRowStaysFor(Step(s, es[0]), es[1..], i, row, email);
    }
  }

  /** A row found by a token is the only one, and its user is not verified yet. */
  lemma VerifyConsumes(s: State, i: nat, token: nat)
    requires Inv(s) && Matches(s, i, token)
    ensures VerifiedBy(s, token, NoFault) == Consumed(s, i, s.tables.verifiers[i].user, NoFault)
    ensures !s.tables.users[s.tables.verifiers[i].user].verified
  {
    hide OnePerUser, MailsAreSound;
  }

  lemma ResendMakesRow(s: State, u: nat, email: string)
    requires Inv(s) && HasEmail(s.tables, u, email) && !s.tables.users[u].verified
    ensures var s' := Resent(s, email, NoFault);
      && Inv(s') && Holds(s', s.next, NewVerifierFor(u, s.next, s.now), email)
      && s'.outbox == s.outbox + [Mail(email, s.next)] && s'.now == s.now
  {
    hide OnePerUser, MailsAreSound;
    ResendKeepsInv(s, email, NoFault);
  }

  /**
   From every state with an unverified account: after a resend, and any other calls that do not concern
   the account, the new token verifies it exactly until it is half an hour old.
   */
  lemma {:induction false} ResendThenVerify(s: State, u: nat, email: string, es: seq<Event>)
    requires Inv(s) && HasEmail(s.tables, u, email) && !s.tables.users[u].verified
    requires forall k :: 0 <= k < |es| ==> Spares(es[k], u, email, s.next)
    ensures var s' := Run(Resent(s, email, NoFault), es);
      var after := VerifiedBy(s', s.next, NoFault);
      && u in after.tables.users
      && (after.tables.users[u].verified <==> s'.now < s.now + 1_800_000)
  {
    hide Inv, Run, Resent, VerifiedBy, Spares;
    var row := NewVerifierFor(u, s.next, s.now);
    ResendMakesRow(s, u, email);
    SparedRowStaysFor(Resent(s, email, NoFault), es, s.next, row, email);
    VerifyDecides(Run(Resent(s, email, NoFault), es), s.next, row, email);
  }

  lemma VerifyDecides(s: State, i: nat, row: Verifier, email: string)
    requires Inv(s) && Holds(s, i, row, email)
    ensures var after := VerifiedBy(s, row.hash.token, NoFault);
      row.user in after.tables.users && (after.tables.users[row.user].verified <==> s.now < row.expireAt)
  {
    hide OnePerUser, MailsAreSound, VerifiedBy;
    var token := row.hash.token;
    if Matches(s, i, token) {
      VerifyConsumes(s, i, token);
    } else {
      forall j
        ensures !Matches(s, j, token)
      {
      }
      NothingToVerify(s, token);
    }
  }

  lemma NothingToVerify(s: State, token: nat)
    requires !Works(s, token)
    ensures VerifiedBy(s, token, NoFault) == s
  {
  }

  /**
   `Verify` looks the token up before its transaction. The account it verifies keeps a verifier exactly
   when, by the time of the commit, a resend has replaced the row that was found.
   */
  lemma VerifyLeavesReplacedRow(s: State, i: nat, u: nat, f: Fault<VerifyCall>)
    requires Inv(s) && u in s.tables.users && CommitsVerify(f)
    ensures var after := Consumed(s, i, u, f);
      && after.tables.users[u].verified
      && (HasVerifier(after.tables, u) <==> HasVerifier(s.tables, u) && !IsRowOf(s.tables, i, u))
  {
    hide OnePerUser, MailsAreSound, EmailsDiffer;
    var after := Consumed(s, i, u, f);
    forall j | IsRowOf(s.tables, j, u) && j != i
      ensures IsRowOf(after.tables, j, u)
    {
    }
    if HasVerifier(after.tables, u) {
      var j :| IsRowOf(after.tables, j, u);
      assert IsRowOf(s.tables, j, u);
    }
  }

  /** So a resend between the two breaks "no verifier for a verified account". */
  lemma ResendInsideVerify(s: State, i: nat, token: nat)
    requires Inv(s) && Matches(s, i, token)
    ensures var u := s.tables.verifiers[i].user;
      var after := Consumed(Resent(s, s.tables.users[u].email, NoFault), i, u, NoFault);
      u in after.tables.users && after.tables.users[u].verified && HasVerifier(after.tables, u)
  {
    hide Inv, Resent;
    var u := s.tables.verifiers[i].user;
    RowFacts(s, i);
    var email := s.tables.users[u].email;
    ResendMakesRow(s, u, email);
    var s' := Resent(s, email, NoFault);
    assert IsRowOf(s'.tables, s.next, u);
    ResendDropsOld(s, i);
    VerifyLeavesReplacedRow(s', i, u, NoFault);
  }

  lemma RowFacts(s: State, i: nat)
    requires Inv(s) && i in s.tables.verifiers
    ensures var u := s.tables.verifiers[i].user;
      u in s.tables.users && HasEmail(s.tables, u, s.tables.users[u].email) && !s.tables.users[u].verified && i < s.next
  {
  }

  lemma ResendDropsOld(s: State, i: nat)
    requires Inv(s) && i in s.tables.verifiers
    ensures var u := s.tables.verifiers[i].user;
      !IsRowOf(Resent(s, s.tables.users[u].email, NoFault).tables, i, u)
  {
    hide OnePerUser, MailsAreSound;
    assert HasEmail(s.tables, s.tables.verifiers[i].user, s.tables.users[s.tables.verifiers[i].user].email);
  }

  // ---------- the service ----------

  datatype AuthError =
    | TransactionFailed | UserExists | HashFailed | CreateFailed | VerifierFailed | ProfileFailed | QuotaFailed
    | QueueFailed | UserNotFound | LookupFailed | AlreadyVerified | FetchFailed | DropFailed | InvalidToken
    | SetVerifiedFailed

  class AuthService {
    var tables: Tables
    var outbox: seq<Mail>
    var next: nat
    var now: int

    ghost function Abs(): State
      reads this
    {
      State(tables, outbox, next, now)
    }

    constructor (now: int)
      ensures Abs() == Initial(now) && Inv(Abs())
    {
      tables, outbox, next, this.now := Initial(now).tables, [], 1, now;
      new;
      InitialInv(now);
    }

    // ---------- repositories ----------

    /** `Err` is a failed query; `Ok(None)` that there is no such row. */
    method GetByEmail(email: string, o: Outcome) returns (r: Result<Option<nat>, ()>)
      ensures r.Err? <==> !o.Done?
      ensures r == Ok(None) ==> !Taken(tables, email)
      ensures r.Ok? && r.value.Some? ==> HasEmail(tables, r.value.value, email)
    {
      if !o.Done? {
        return Err(());
      }
      if exists u :: u in tables.users && tables.users[u].email == email {
        var u :| u in tables.users && tables.users[u].email == email;
        return Ok(Some(u));
      }
      r := Ok(None);
    }

    /** Inserts run into the UNIQUE constraints, and into an error that already aborted the transaction. */
    method CreateUser(id: nat, email: string, aborted: bool, o: Outcome) returns (ok: bool)
      modifies `tables
      ensures ok <==> !aborted && o.Done? && !Taken(old(tables), email)
      ensures ok ==> tables == old(tables).(users := old(tables).users[id := User(email, false)])
    {
      var taken := exists u :: u in tables.users && tables.users[u].email == email;
      assert forall u :: HasEmail(tables, u, email) <==> u in tables.users && tables.users[u].email == email;
      ok := !aborted && o.Done? && !taken;
      if !aborted && !o.Lost? && !taken {
        tables := tables.(users := tables.users[id := User(email, false)]);
      }
    }

    method CreateVerifier(id: nat, user: nat, hash: TokenHash, o: Outcome) returns (ok: bool)
      modifies `tables
      ensures var rows := old(tables).verifiers;
        var allowed := user in old(tables).users
          && forall i :: i in rows ==> rows[i].user != user && rows[i].hash != hash;
        && (ok <==> o.Done? && allowed)
        && tables == old(tables).(verifiers :=
             if !o.Lost? && allowed then rows[id := Verifier(user, hash, now + 1_800_000)] else rows)
    {
      var allowed := user in tables.users
        && forall i :: i in tables.verifiers ==> tables.verifiers[i].user != user && tables.verifiers[i].hash != hash;
      ok := o.Done? && allowed;
      if !o.Lost? && allowed {
        tables := tables.(verifiers := tables.verifiers[id := Verifier(user, hash, now + TOKEN_LIFE)]);
      }
    }

    method DeleteVerifier(id: nat, o: Outcome) returns (ok: bool)
      modifies `tables
      ensures ok <==> o.Done?
      ensures tables ==
        if o.Lost? then old(tables) else old(tables).(verifiers := old(tables).verifiers - {id})
    {
      ok := o.Done?;
      if !o.Lost? {
        tables := tables.(verifiers := tables.verifiers - {id});
      }
    }

    method SetProfile(id: nat, user: nat, o: Outcome) returns (ok: bool)
      modifies `tables
      ensures ok <==> o.Done? && user !in old(tables).profiles.Values
      ensures ok ==> tables == old(tables).(profiles := old(tables).profiles[id := user])
    {
      ok := o.Done? && user !in tables.profiles.Values;
      if !o.Lost? && user !in tables.profiles.Values {
        tables := tables.(profiles := tables.profiles[id := user]);
      }
    }

    method CreateQuota(id: nat, user: nat, o: Outcome) returns (ok: bool)
      modifies `tables
      ensures ok <==> o.Done? && user !in old(tables).quotas.Values
      ensures ok ==> tables == old(tables).(quotas := old(tables).quotas[id := user])
    {
      ok := o.Done? && user !in tables.quotas.Values;
      if !o.Lost? && user !in tables.quotas.Values {
        tables := tables.(quotas := tables.quotas[id := user]);
      }
    }

    method PublishEmail(to: string, token: nat, o: Outcome) returns (ok: bool)
      modifies `outbox
      ensures ok <==> o.Done?
      ensures outbox == if o.Lost? then old(outbox) else old(outbox) + [Mail(to, token)]
    {
      ok := o.Done?;
      if !o.Lost? {
        outbox := outbox + [Mail(to, token)];
      }
    }

    // ---------- sign-up ----------

    /** The function that runs inside the transaction; a failed lookup goes on to fail at the insert. */
    method InsertAccount(n: nat, email: string, f: Fault<SignupCall>) returns (r: Result<(), AuthError>)
      requires Inv(Abs().(next := n)) && next == n + 1
      requires How(f, Begin).Done?
      modifies `tables
      ensures r.Ok? ==> !Taken(old(tables), email) && tables == NewAccount(old(tables), email, n, now)
      ensures r.Ok? <==> !Taken(old(tables), email) && (Commits(f) || f.call.Commit?)
      ensures How(f, FindUser).Done? && Taken(old(tables), email) ==> r == Err(UserExists)
    {
      NextNamesNothing(Abs().(next := n));
      var found := GetByEmail(email, How(f, FindUser));
      if found.Ok? && found.value.Some? {
        return Err(UserExists);
      }
      if !How(f, HashPassword).Done? {
        return Err(HashFailed);
      }
      var ok := CreateUser(n, email, found.Err?, How(f, AddUser));
      if !ok {
        return Err(CreateFailed);
      }
      ok := CreateVerifier(n, n, Sha256(n), How(f, AddVerifier));
      if !ok {
        return Err(VerifierFailed);
      }
      ok := SetProfile(n, n, How(f, AddProfile));
      if !ok {
        return Err(ProfileFailed);
      }
      ok := CreateQuota(n, n, How(f, AddQuota));
      if !ok {
        return Err(QuotaFailed);
      }
      r := Ok(());
    }

    /** All four rows or none: whatever fails before the commit is rolled back. */
    method Signup(email: string, f: Fault<SignupCall>) returns (r: Result<nat, AuthError>)
      requires Inv(Abs())
      modifies this
      ensures Abs() == Step(old(Abs()), Event.Signup(email, f)) && Inv(Abs())
      ensures tables == old(tables) || tables == NewAccount(old(tables), email, old(next), now)
      ensures r.Ok? ==> outbox == old(outbox) + [Mail(email, old(next))] && Works(Abs(), old(next))
      ensures Taken(old(tables), email) ==> r.Err? && tables == old(tables)
      ensures r.Ok? <==> !Taken(old(tables), email) && (f.NoFault? || f.o.Done?)
      ensures var n := old(next);
        var committed := f.NoFault? || f.o.Done? || f.call.Publish? || (f.call.Commit? && f.o.Unsure?);
        tables ==
          if Taken(old(tables), email) || !committed then old(tables)
          else Tables(old(tables).users[n := User(email, false)],
                      old(tables).verifiers[n := Verifier(n, Sha256(n), now + 1_800_000)],
                      old(tables).profiles[n := n], old(tables).quotas[n := n])
    {
      hide Inv;
      ghost var s := Abs();
      SignupKeepsInv(s, email, f);
      var n, saved := next, tables;
      next := next + 1;
      if !How(f, Begin).Done? {
        return Err(TransactionFailed);
      }
      var done := InsertAccount(n, email, f);
      if done.Err? {
        tables := saved;
        return Err(done.error);
      }
      if !How(f, Commit).Done? {
        if How(f, Commit).Lost? {
          tables := saved;
        }
        return Err(TransactionFailed);
      }
      var sent := PublishEmail(email, n, How(f, Publish));
      if !sent {
        return Err(QueueFailed);
      }
      assert Matches(Abs(), n, n);
      r := Ok(n);
    }

    // ---------- another token ----------

    method GetVerifierOf(user: nat, o: Outcome) returns (r: Result<Option<nat>, ()>)
      ensures r.Err? <==> !o.Done?
      ensures r == Ok(None) ==> !HasVerifier(tables, user)
      ensures r.Ok? && r.value.Some? ==> IsRowOf(tables, r.value.value, user)
    {
      if !o.Done? {
        return Err(());
      }
      if exists i :: i in tables.verifiers && tables.verifiers[i].user == user {
        var i :| i in tables.verifiers && tables.verifiers[i].user == user;
        return Ok(Some(i));
      }
      r := Ok(None);
    }

    /** Deletes the old row, adds one for the token `n`, and mails it. */
    method ReplaceVerifier(n: nat, u: nat, email: string, row: Option<nat>, f: Fault<ResendCall>)
      returns (r: Result<(), AuthError>)
      requires Inv(Abs()) && Unused(Abs(), n) && next == n + 1 && HasEmail(tables, u, email)
      requires row.None? ==> !HasVerifier(tables, u)
      requires row.Some? ==> IsRowOf(tables, row.value, u)
      modifies `tables, `outbox
      ensures Abs() == Replaced(old(Abs()), u, email, f)
      ensures r.Ok? ==> outbox == old(outbox) + [Mail(email, n)] && Works(Abs(), n)
      ensures r != Err(AlreadyVerified) && r != Err(UserNotFound) && (f.NoFault? ==> r.Ok?)
      ensures r.Ok? ==>
        && tables.users == old(tables).users
        && tables.verifiers ==
             WithoutUser(old(tables).verifiers, u)[n := Verifier(u, Sha256(n), now + 1_800_000)]
    {
      hide Inv, Unused;
      if row.Some? {
        OneRowGoes(Abs(), row.value);
        assert HasVerifier(tables, u);
        var dropped := DeleteVerifier(row.value, How(f, DropVerifier));
        if !dropped {
          return Err(DropFailed);
        }
      } else {
        NoRowGoes(tables, u);
      }
      assert tables == old(tables).(verifiers := WithoutUser(old(tables).verifiers, u));
      OldHashesDiffer(old(Abs()), n, u);
      var ok := CreateVerifier(n, u, Sha256(n), How(f, NewVerifier));
      if !ok {
        return Err(VerifierFailed);
      }
      assert Matches(Abs(), n, n);
      var sent := PublishEmail(email, n, How(f, PublishAgain));
      if !sent {
        return Err(QueueFailed);
      }
      assert Matches(Abs(), n, n);
      r := Ok(());
    }

    method ResendVerify(email: string, f: Fault<ResendCall>) returns (r: Result<(), AuthError>)
      requires Inv(Abs())
      modifies this
      ensures Abs() == Step(old(Abs()), Event.Resend(email, f)) && Inv(Abs())
      ensures r.Ok? ==> outbox == old(outbox) + [Mail(email, old(next))] && Works(Abs(), old(next))
      ensures r == Err(AlreadyVerified) ==> outbox == old(outbox) && tables == old(tables)
      ensures var asked := !(f.At? && f.call.Find? && !f.o.Done?);
        && (r == Err(UserNotFound) <==> asked && !Taken(old(tables), email))
        && (r == Err(AlreadyVerified) <==>
              asked && exists u :: HasEmail(old(tables), u, email) && old(tables).users[u].verified)
      ensures r.Ok? ==> exists u ::
        && HasEmail(old(tables), u, email) && !old(tables).users[u].verified
        && tables.users == old(tables).users
        && tables.verifiers.Keys
             == {old(next)} + (set i | i in old(tables).verifiers && old(tables).verifiers[i].user != u)
        && tables.verifiers[old(next)] == Verifier(u, Sha256(old(next)), now + 1_800_000)
        && forall i :: i in tables.verifiers && i != old(next) ==>
             i in old(tables).verifiers && tables.verifiers[i] == old(tables).verifiers[i]
      ensures f.NoFault? ==>
        (r.Ok? <==> exists u :: HasEmail(old(tables), u, email) && !old(tables).users[u].verified)
    {
      hide Inv, Unused, Replaced, Resent;
      ghost var s := Abs();
      ResendKeepsInv(s, email, f);
      DrawKeepsInv(s);
      var n := next;
      next := next + 1;
      assert Abs() == s.(next := s.next + 1);
      var found := GetByEmail(email, How(f, Find));
      if found.Err? {
        FailedLookup(s, email, f);
        return Err(LookupFailed);
      }
      if found.value.None? {
        FailedLookup(s, email, f);
        return Err(UserNotFound);
      }
      var u := found.value.value;
      ResentAt(s, u, email, f);
      if tables.users[u].verified {
        return Err(AlreadyVerified);
      }
      var row := GetVerifierOf(u, How(f, GetVerifier));
      if row.Err? {
        return Err(FetchFailed);
      }
      r := ReplaceVerifier(n, u, email, row.value, f);
    }

    // ---------- presenting a token ----------

    method GetByHash(hash: TokenHash, o: Outcome) returns (r: Result<Option<nat>, ()>)
      ensures r.Err? <==> !o.Done?
      ensures r == Ok(None) ==> !Works(Abs(), hash.token)
      ensures r.Ok? && r.value.Some? ==> Matches(Abs(), r.value.value, hash.token)
    {
      if !o.Done? {
        return Err(());
      }
      if exists i :: i in tables.verifiers && tables.verifiers[i].hash == hash && tables.verifiers[i].expireAt > now {
        var i :| i in tables.verifiers && tables.verifiers[i].hash == hash && tables.verifiers[i].expireAt > now;
        return Ok(Some(i));
      }
      forall i | i in tables.verifiers
        ensures !Matches(Abs(), i, hash.token)
      {
        assert !(tables.verifiers[i].hash == hash && tables.verifiers[i].expireAt > now);
      }
      r := Ok(None);
    }

    method Verify(token: nat, f: Fault<VerifyCall>) returns (r: Result<(), AuthError>)
      requires Inv(Abs())
      modifies `tables
      ensures Abs() == Step(old(Abs()), Event.Verify(token, f)) && Inv(Abs())
      ensures r.Ok? ==> old(Works(Abs(), token)) && !Works(Abs(), token)
      ensures r == Err(InvalidToken) <==> How(f, FindHash).Done? && !old(Works(Abs(), token))
      ensures r.Ok? <==> old(Works(Abs(), token)) && (f.NoFault? || f.o.Done?)
      ensures r.Ok? ==> exists i ::
        && i in old(tables).verifiers && old(tables).verifiers[i].hash == Sha256(token)
        && now < old(tables).verifiers[i].expireAt
        && var u := old(tables).verifiers[i].user;
           && u in old(tables).users
           && tables == old(tables).(users := old(tables).users[u := User(old(tables).users[u].email, true)],
                                     verifiers := old(tables).verifiers - {i})
    {
      hide Inv, VerifiedBy, Consumed;
      ghost var s := Abs();
      VerifyKeepsInv(s, token, f);
      MissedLookup(s, token, f);
      var found := GetByHash(Sha256(token), How(f, FindHash));
      if found.Err? {
        return Err(FetchFailed);
      }
      if found.value.None? {
        return Err(InvalidToken);
      }
      var i := found.value.value;
      var u, saved := tables.verifiers[i].user, tables;
      RowFacts(s, i);
      OnlyMatch(s, i, token, f);
      ConsumedInFull(s, i, u, f);
      if !How(f, BeginTx).Done? {
        return Err(TransactionFailed);
      }
      if !How(f, SetVerified).Done? {
        return Err(SetVerifiedFailed);
      }
      if u in tables.users {
        tables := tables.(users := tables.users[u := tables.users[u].(verified := true)]);
      }
      var dropped := DeleteVerifier(i, How(f, DropUsed));
      if !dropped {
        tables := saved;
        return Err(DropFailed);
      }
      if !How(f, CommitTx).Done? {
        if How(f, CommitTx).Lost? {
          tables := saved;
        }
        return Err(TransactionFailed);
      }
      assert saved.verifiers[i].hash == Sha256(token) && saved.verifiers[i].user == u;
      r := Ok(());
    }
  }

  lemma NoRowGoes(t: Tables, u: nat)
    requires !HasVerifier(t, u)
    ensures WithoutUser(t.verifiers, u) == t.verifiers
  {
    assert forall i :: IsRowOf(t, i, u) <==> i in t.verifiers && t.verifiers[i].user == u;
  }

  lemma OldHashesDiffer(s: State, n: nat, u: nat)
    requires Unused(s, n)
    ensures var rows := WithoutUser(s.tables.verifiers, u);
      forall i :: i in rows ==> rows[i].user != u && rows[i].hash != Sha256(n)
  {
  }

  lemma FailedLookup(s: State, email: string, f: Fault<ResendCall>)
    requires !How(f, Find).Done? || !Taken(s.tables, email)
    ensures Resent(s, email, f) == s.(next := s.next + 1)
  {
  }

  /** The row found by the address is the account meant. */
  lemma ResentAt(s: State, u: nat, email: string, f: Fault<ResendCall>)
    requires Inv(s) && HasEmail(s.tables, u, email) && How(f, Find).Done?
    ensures forall v :: HasEmail(s.tables, v, email) ==> v == u
    ensures Resent(s, email, f) ==
      if s.tables.users[u].verified || !How(f, GetVerifier).Done? then s.(next := s.next + 1)
      else Replaced(s.(next := s.next + 1), u, email, f)
  {
    hide OnePerUser, MailsAreSound, Replaced, VerifiersAreSound;
  }

  /** Deleting the user's row by its id leaves the rows of all other users. */
  lemma OneRowGoes(s: State, i: nat)
    requires Inv(s) && i in s.tables.verifiers
    ensures s.tables.verifiers - {i} == WithoutUser(s.tables.verifiers, s.tables.verifiers[i].user)
  {
    hide OnePerUser, MailsAreSound;
  }

  lemma OnlyMatch(s: State, i: nat, token: nat, f: Fault<VerifyCall>)
    requires Inv(s) && Matches(s, i, token)
    ensures !How(f, FindHash).Done? || VerifiedBy(s, token, f) == Consumed(s, i, s.tables.verifiers[i].user, f)
    ensures CommitsVerify(f) ==> !Works(Consumed(s, i, s.tables.verifiers[i].user, f), token)
  {
    hide OnePerUser, MailsAreSound;
  }

  lemma ConsumedInFull(s: State, i: nat, u: nat, f: Fault<VerifyCall>)
    requires How(f, FindHash).Done?
    ensures var begun := How(f, BeginTx).Done? && How(f, SetVerified).Done? && How(f, DropUsed).Done?;
      && (begun && !How(f, CommitTx).Lost? <==> CommitsVerify(f))
      && (!CommitsVerify(f) ==> Consumed(s, i, u, f) == s)
      && (CommitsVerify(f) ==> Consumed(s, i, u, f) == s.(tables := s.tables.(
            users :=
              if u in s.tables.users then s.tables.users[u := s.tables.users[u].(verified := true)] else s.tables.users,
            verifiers := s.tables.verifiers - {i})))
  {
  }

  lemma MissedLookup(s: State, token: nat, f: Fault<VerifyCall>)
    ensures !How(f, FindHash).Done? || !Works(s, token) ==> VerifiedBy(s, token, f) == s
  {
  }
}
