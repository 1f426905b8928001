/**
 One row of the gif table under concurrent READ COMMITTED transactions: conditional edits that
 lock, compare `updated_at` and write, and the unconditional statements that bump it too.

 Transactions for other keys never touch this row, so one row is the whole story of a key.
 */
module GifVersions {
  import opened Prelude

  datatype Row = Row(
    owner: string, name: string, status: string,
    persist: bool, isPublic: bool, download: int, updatedAt: int)

  /** An absent field keeps the stored value. */
  datatype Patch = Patch(
    name: Option<string>, status: Option<string>,
    persist: Option<bool>, isPublic: Option<bool>)

  datatype Request =
    | Edit(patch: Patch, expected: int)
    | CountDownload
    | SaveRecent
    | Delete

  function Coalesce<T>(o: Option<T>, stored: T): T {
    if o.Some? then o.value else stored
  }

  /** The row a request leaves behind; `now` is the start time of its transaction. */
  function Applied(req: Request, row: Row, now: int): Option<Row> {
    match req
    case Edit(p, _) =>
      Some(row.(name := Coalesce(p.name, row.name),
                status := Coalesce(p.status, row.status),
                persist := Coalesce(p.persist, row.persist),
                isPublic := Coalesce(p.isPublic, row.isPublic),
                updatedAt := now))
    case CountDownload => Some(row.(download := row.download + 1, updatedAt := now))
    case SaveRecent => Some(row.(persist := true, updatedAt := now))
    case Delete => None
  }

  type TxId = nat

  datatype Phase = Waiting | Holding(seen: Row) | Wrote(after: Option<Row>) | Committed | RolledBack

  datatype Tx = Tx(req: Request, start: int, phase: Phase)

  /** One committed change of the row. */
  datatype Commit = Commit(tx: TxId, req: Request, start: int, before: Row, after: Option<Row>)

  /** `row` is what others can read; `used` collects every start time the clock handed out. */
  datatype Db = Db(
    row: Option<Row>, holder: Option<TxId>, txs: map<TxId, Tx>, used: set<int>, log: seq<Commit>)

  datatype Event =
    | Begin(t: TxId, req: Request, start: int)
    | Lock(t: TxId)
    | Write(t: TxId)
    | CommitTx(t: TxId)
    | Abort(t: TxId)

  function SetPhase(s: Db, t: TxId, phase: Phase): Db
    requires t in s.txs
  {
    s.(txs := s.txs[t := s.txs[t].(phase := phase)])
  }

  function Release(s: Db, t: TxId, phase: Phase): Db
    requires t in s.txs
  {
    SetPhase(if s.holder == Some(t) then s.(holder := None) else s, t, phase)
  }

  /** One step of one transaction; an event that cannot happen changes nothing. */
  function Step(s: Db, e: Event): Db {
    if e.Begin? then
      if e.t in s.txs then s
      else s.(txs := s.txs[e.t := Tx(e.req, e.start, Waiting)], used := s.used + {e.start})
    else if e.t !in s.txs then s
    else
      var tx := s.txs[e.t];
      match e
      case Lock(t) =>
        if !tx.phase.Waiting? || s.holder.Some? then s
        else if s.row.None? then SetPhase(s, t, if tx.req.Edit? then RolledBack else Committed)
        else SetPhase(s.(holder := Some(t)), t, Holding(s.row.value))
      case Write(t) =>
        if !tx.phase.Holding? || s.row.None? then s
        else if tx.req.Edit? && tx.phase.seen.updatedAt != tx.req.expected then Release(s, t, RolledBack)
        else SetPhase(s, t, Wrote(Applied(tx.req, s.row.value, tx.start)))
      case CommitTx(t) =>
        if !tx.phase.Wrote? || s.row.None? then s
        else
          var entry := Commit(t, tx.req, tx.start, s.row.value, tx.phase.after);
          Release(s.(row := tx.phase.after, log := s.log + [entry]), t, Committed)
      case Abort(t) =>
        if tx.phase.Committed? then s else Release(s, t, RolledBack)
  }

  function Run(s: Db, es: seq<Event>): Db {
    if es == [] then s else Step(Run(s, es[..|es| - 1]), es[|es| - 1])
  }

  function Initial(row: Row): Db {
    Db(Some(row), None, map[], {row.updatedAt}, [])
  }

  /** The clock never hands out a start time twice, nor the initial row's version. */
  ghost predicate DistinctStarts(row: Row, es: seq<Event>) {
    forall i :: 0 <= i < |es| && es[i].Begin? ==> es[i].start !in Run(Initial(row), es[..i]).used
  }

  // ---------- the invariant of every run ----------

  /** The row after the first `i` commits. */
  function RowAt(row: Row, log: seq<Commit>, i: nat): Option<Row>
    requires i <= |log|
  {
    if i == 0 then Some(row) else log[i - 1].after
  }

  /** Commit `i` replaced the row the commits before it left, with what its request makes of it. */
  ghost predicate Link(row: Row, log: seq<Commit>, i: nat)
    requires i < |log|
  {
    var c := log[i];
    && RowAt(row, log, i) == Some(c.before)
    && c.after == Applied(c.req, c.before, c.start)
    && (c.req.Edit? ==> c.before.updatedAt == c.req.expected)
  }

  ghost predicate Chained(row: Row, s: Db) {
    && s.row == RowAt(row, s.log, |s.log|)
    && forall i :: 0 <= i < |s.log| ==> Link(row, s.log, i)
  }

  ghost predicate Locking(s: Db) {
    && (forall t :: t in s.txs && (s.txs[t].phase.Holding? || s.txs[t].phase.Wrote?) ==> s.holder == Some(t))
    && (forall t :: t in s.txs && s.txs[t].phase.Holding? ==> s.row == Some(s.txs[t].phase.seen))
    && (forall t :: t in s.txs && s.txs[t].phase.Wrote? ==>
          var tx := s.txs[t];
          && s.row.Some?
          && tx.phase.after == Applied(tx.req, s.row.value, tx.start)
          && (tx.req.Edit? ==> s.row.value.updatedAt == tx.req.expected))
  }

  ghost predicate Logged(s: Db) {
    && (forall i :: 0 <= i < |s.log| ==>
          var c := s.log[i];
          c.tx in s.txs && s.txs[c.tx] == Tx(c.req, c.start, Committed))
    && (forall i, j :: 0 <= i < j < |s.log| ==> s.log[i].tx != s.log[j].tx)
  }

  ghost predicate Inv(row: Row, s: Db) {
    Chained(row, s) && Locking(s) && Logged(s)
  }

  lemma LongerLogKeepsLink(row: Row, log: seq<Commit>, c: Commit, i: nat)
    requires i < |log| && Link(row, log, i)
    ensures Link(row, log + [c], i)
  {
    assert (log + [c])[i] == log[i];
    assert i > 0 ==> (log + [c])[i - 1] == log[i - 1];
  }

  lemma CommitKeepsChain(row: Row, s: Db, t: TxId)
    requires Chained(row, s) && Locking(s)
    requires t in s.txs && s.txs[t].phase.Wrote?
    ensures Chained(row, Step(s, CommitTx(t)))
  {
    var s', n, tx := Step(s, CommitTx(t)), |s.log|, s.txs[t];
    var c := Commit(t, tx.req, tx.start, s.row.value, tx.phase.after);
    assert s'.log == s.log + [c] && s'.row == c.after;
    assert n > 0 ==> s'.log[n - 1] == s.log[n - 1];
    forall i | 0 <= i < n
      ensures Link(row, s'.log, i)
    {
      LongerLogKeepsLink(row, s.log, c, i);
    }
  }

  lemma StepKeepsChain(row: Row, s: Db, e: Event)
    requires Chained(row, s) && Locking(s)
    ensures Chained(row, Step(s, e))
  {
    if e.CommitTx? && e.t in s.txs && s.txs[e.t].phase.Wrote? {
      CommitKeepsChain(row, s, e.t);
    } else {
      assert Step(s, e).log == s.log && Step(s, e).row == s.row;
    }
  }

  lemma StepKeepsLocking(s: Db, e: Event)
    requires Locking(s)
    ensures Locking(Step(s, e))
  {
  }

  lemma StepKeepsLogged(s: Db, e: Event)
    requires Logged(s)
    ensures Logged(Step(s, e))
  {
    var s' := Step(s, e);
    forall i | 0 <= i < |s'.log|
      ensures var c := s'.log[i]; c.tx in s'.txs && s'.txs[c.tx] == Tx(c.req, c.start, Committed)
    {
      if i < |s.log| {
        assert s'.log[i] == s.log[i];
      }
    }
  }

  lemma {:induction false} RunKeepsInv(row: Row, es: seq<Event>)
    ensures Inv(row, Run(Initial(row), es))
  {
    if es != [] {
      RunKeepsInv(row, es[..|es| - 1]);
      var before, e := Run(Initial(row), es[..|es| - 1]), es[|es| - 1];
      StepKeepsChain(row, before, e);
      StepKeepsLocking(before, e);
      StepKeepsLogged(before, e);
    }
  }

  /** Start times differ between transactions and from the initial version. */
  ghost predicate StartsDiffer(row: Row, s: Db) {
    && row.updatedAt in s.used
    && (forall t :: t in s.txs ==> s.txs[t].start in s.used && s.txs[t].start != row.updatedAt)
    && (forall t, t' :: t in s.txs && t' in s.txs && t != t' ==> s.txs[t].start != s.txs[t'].start)
  }

  lemma StepKeepsStartsDiffer(row: Row, s: Db, e: Event)
    requires StartsDiffer(row, s) && (e.Begin? ==> e.start !in s.used)
    ensures StartsDiffer(row, Step(s, e))
  {
    hide Applied;
  }

  lemma {:induction false} RunKeepsStartsDiffer(row: Row, es: seq<Event>)
    requires DistinctStarts(row, es)
    ensures StartsDiffer(row, Run(Initial(row), es))
  {
    hide Step, StartsDiffer;
    if es == [] {
      InitialStartsDiffer(row);
    } else {
      var before := es[..|es| - 1];
      assert forall i :: 0 <= i < |before| ==> before[..i] == es[..i];
      RunKeepsStartsDiffer(row, before);
      StepKeepsStartsDiffer(row, Run(Initial(row), before), es[|es| - 1]);
    }
  }

  lemma InitialStartsDiffer(row: Row)
    ensures StartsDiffer(row, Initial(row))
  {
  }

  // ---------- compare and swap ----------

  lemma VersionIsStart(req: Request, row: Row, now: int)
    ensures Applied(req, row, now).Some? ==> Applied(req, row, now).value.updatedAt == now
  {
  }

  /** The start time of the transaction that wrote the row after the first `i` commits. */
  function WriterStart(row: Row, log: seq<Commit>, i: nat): int
    requires i <= |log|
  {
    if i == 0 then row.updatedAt else log[i - 1].start
  }

  /**
   Without any assumption on the clock: two rows in the history have the same version exactly when the
   transactions that wrote them started at the same time.
   */
  lemma {:induction false} VersionsCoincideExactly(row: Row, es: seq<Event>, i: nat, j: nat)
    requires i < j <= |Run(Initial(row), es).log|
    ensures var log := Run(Initial(row), es).log;
      RowAt(row, log, i).Some? && RowAt(row, log, j).Some? ==>
      (RowAt(row, log, i).value.updatedAt == RowAt(row, log, j).value.updatedAt <==>
        WriterStart(row, log, i) == WriterStart(row, log, j))
  {
    hide Run, Step;
    RunKeepsInv(row, es);
    var log := Run(Initial(row), es).log;
    assert Link(row, log, j - 1);
    VersionIsStart(log[j - 1].req, log[j - 1].before, log[j - 1].start);
    if i > 0 {
      assert Link(row, log, i - 1);
      VersionIsStart(log[i - 1].req, log[i - 1].before, log[i - 1].start);
    }
  }

  /** So, when start times differ, no version that was replaced ever comes back. */
  lemma {:induction false} VersionsNeverReturn(row: Row, es: seq<Event>, i: nat, j: nat)
    requires DistinctStarts(row, es)
    requires i < j <= |Run(Initial(row), es).log|
    ensures var log := Run(Initial(row), es).log;
      RowAt(row, log, i).Some? && RowAt(row, log, j).Some? ==>
      RowAt(row, log, i).value.updatedAt != RowAt(row, log, j).value.updatedAt
  {
    hide Run, Step;
    RunKeepsInv(row, es);
    RunKeepsStartsDiffer(row, es);
    VersionsCoincideExactly(row, es, i, j);
    var log := Run(Initial(row), es).log;
    assert i > 0 ==> log[i - 1].tx != log[j - 1].tx;
  }

  /** Two committed edits name one version exactly when the writers of the rows they replaced started together. */
  lemma {:induction false} EditsShareVersionExactly(row: Row, es: seq<Event>, i: nat, j: nat)
    requires i < j < |Run(Initial(row), es).log|
    ensures var log := Run(Initial(row), es).log;
      log[i].req.Edit? && log[j].req.Edit? ==>
      (log[i].req.expected == log[j].req.expected <==> WriterStart(row, log, i) == WriterStart(row, log, j))
  {
    hide Run, Step;
    RunKeepsInv(row, es);
    var log := Run(Initial(row), es).log;
    assert Link(row, log, i) && Link(row, log, j);
    VersionsCoincideExactly(row, es, i, j);
  }

  /**
   A committed edit replaced exactly the row its caller had read: whoever read `seen` at any moment and
   names its version overwrites `seen` and nothing newer.
   */
  lemma {:induction false} EditReplacesWhatItsCallerRead(row: Row, es: seq<Event>, seen: Row, i: nat, j: nat)
    requires DistinctStarts(row, es)
    requires var log := Run(Initial(row), es).log;
      && i <= |log| && RowAt(row, log, i) == Some(seen)
      && j < |log| && log[j].req.Edit? && log[j].req.expected == seen.updatedAt
    ensures Run(Initial(row), es).log[j].before == seen && i == j
  {
    hide Run, Step;
    RunKeepsInv(row, es);
    var log := Run(Initial(row), es).log;
    assert Link(row, log, j);
    if i < j {
      VersionsNeverReturn(row, es, i, j);
    } else if j < i {
      VersionsNeverReturn(row, es, j, i);
    }
  }

  /** Of all the edits that name one version, at most one is ever committed. */
  lemma {:induction false} OneEditPerVersion(row: Row, es: seq<Event>, i: nat, j: nat)
    requires DistinctStarts(row, es)
    requires i < j < |Run(Initial(row), es).log|
    ensures var log := Run(Initial(row), es).log;
      log[i].req.Edit? && log[j].req.Edit? ==> log[i].req.expected != log[j].req.expected
  {
    hide Run, Step;
    RunKeepsInv(row, es);
    var log := Run(Initial(row), es).log;
    assert Link(row, log, i) && Link(row, log, j);
    VersionsNeverReturn(row, es, i, j);
  }

  // ---------- serial meaning ----------

  function Folded(row: Option<Row>, log: seq<Commit>): Option<Row> {
    if log == [] then row
    else
      var before := Folded(row, log[..|log| - 1]);
      if before.None? then None else Applied(log[|log| - 1].req, before.value, log[|log| - 1].start)
  }

  function Downloads(log: seq<Commit>): nat {
    if log == [] then 0
    else Downloads(log[..|log| - 1]) + if log[|log| - 1].req.CountDownload? then 1 else 0
  }

  lemma {:induction false} ChainIsFold(row: Row, log: seq<Commit>)
    requires forall i :: 0 <= i < |log| ==> Link(row, log, i)
    ensures RowAt(row, log, |log|) == Folded(Some(row), log)
    ensures RowAt(row, log, |log|).Some? ==>
      var last := RowAt(row, log, |log|).value;
      last.download == row.download + Downloads(log) && last.owner == row.owner
  {
    if log != [] {
      var n := |log| - 1;
      var before := log[..n];
      forall i | 0 <= i < n
        ensures Link(row, before, i)
      {
        assert Link(row, log, i) && before[i] == log[i];
        assert i > 0 ==> before[i - 1] == log[i - 1];
      }
      ChainIsFold(row, before);
      assert Link(row, log, n);
      assert n > 0 ==> before[n - 1] == log[n - 1];
      assert RowAt(row, before, n) == RowAt(row, log, n);
    }
  }

  /**
   Whatever the interleaving, the readable row is the initial row with the committed requests applied one
   after another in commit order, `download` counted each committed download once, and the owner is still
   the owner, so a check made before the transaction began has not gone stale.
   */
  lemma ConcurrentEditsAreSerial(row: Row, es: seq<Event>)
    ensures var s := Run(Initial(row), es);
      && s.row == Folded(Some(row), s.log)
      && (s.row.Some? ==>
            s.row.value.download == row.download + Downloads(s.log) && s.row.value.owner == row.owner)
  {
    hide Run, Step;
    RunKeepsInv(row, es);
    ChainIsFold(row, Run(Initial(row), es).log);
  }

  /** The row `after` has the fields the patch names from the patch, and every other field from `before`. */
  predicate IsPatched(p: Patch, before: Row, after: Row, now: int) {
    && after.name == (if p.name.Some? then p.name.value else before.name)
    && after.status == (if p.status.Some? then p.status.value else before.status)
    && after.persist == (if p.persist.Some? then p.persist.value else before.persist)
    && after.isPublic == (if p.isPublic.Some? then p.isPublic.value else before.isPublic)
    && after.owner == before.owner && after.download == before.download && after.updatedAt == now
  }

  /**
   Field by field, for every committed change of every run: an edit sets exactly the fields its patch names,
   saving only sets `persist`, and a download only raises `download` by one; each stamps the start time of its
   transaction. Only a deletion leaves no row.
   */
  lemma EveryChangeFieldByField(row: Row, es: seq<Event>, i: nat)
    requires i < |Run(Initial(row), es).log|
    ensures var c := Run(Initial(row), es).log[i];
      && (c.after.None? <==> c.req.Delete?)
      && (c.req.Edit? ==> IsPatched(c.req.patch, c.before, c.after.value, c.start))
      && (c.req.SaveRecent? ==>
            c.after.value == Row(c.before.owner, c.before.name, c.before.status, true, c.before.isPublic,
                                 c.before.download, c.start))
      && (c.req.CountDownload? ==>
            c.after.value == Row(c.before.owner, c.before.name, c.before.status, c.before.persist, c.before.isPublic,
                                 c.before.download + 1, c.start))
  {
    hide Run;
    RunKeepsInv(row, es);
    assert Link(row, Run(Initial(row), es).log, i);
  }

  // ---------- runs of one transaction alone ----------

  lemma {:induction false} RunAppends(s: Db, es: seq<Event>, more: seq<Event>)
    ensures Run(s, es + more) == Run(Run(s, es), more)
  {
    if more == [] {
      assert es + more == es;
    } else {
      var all := es + more;
      assert all[..|all| - 1] == es + more[..|more| - 1];
      RunAppends(s, es, more[..|more| - 1]);
    }
  }

  /** The four steps of a transaction nobody interferes with. */
  function Alone(s: Db, t: TxId, req: Request, start: int): Db {
    Step(Step(Step(Step(s, Begin(t, req, start)), Lock(t)), Write(t)), CommitTx(t))
  }

  function Script(t: TxId, req: Request, start: int): seq<Event> {
    [Begin(t, req, start), Lock(t), Write(t), CommitTx(t)]
  }

  lemma AloneIsRun(s: Db, t: TxId, req: Request, start: int)
    ensures Run(s, Script(t, req, start)) == Alone(s, t, req, start)
  {
    var es := Script(t, req, start);
    assert es[..3][..2] == es[..2] && es[..2][..1] == es[..1] && es[..1][..0] == [];
    assert Run(s, es[..1]) == Step(s, es[0]);
    assert Run(s, es[..2]) == Step(Run(s, es[..1]), es[1]);
    assert Run(s, es[..3]) == Step(Run(s, es[..2]), es[2]);
  }

  /** Alone, a request on an unlocked row commits, unless it is an edit of another version. */
  lemma AloneCommits(s: Db, t: TxId, req: Request, start: int)
    requires t !in s.txs && s.holder == None && s.row.Some?
    requires req.Edit? ==> req.expected == s.row.value.updatedAt
    ensures var after := Applied(req, s.row.value, start);
      Alone(s, t, req, start) == Db(
        after, None, s.txs[t := Tx(req, start, Committed)], s.used + {start},
        s.log + [Commit(t, req, start, s.row.value, after)])
  {
    var s2 := Step(Step(s, Begin(t, req, start)), Lock(t));
    assert s2.txs == s.txs[t := Tx(req, start, Holding(s.row.value))];
    var s4 := Step(Step(s2, Write(t)), CommitTx(t));
    assert s4.txs == s.txs[t := Tx(req, start, Committed)];
  }

  lemma ScriptCommits(s: Db, es: seq<Event>, t: TxId, req: Request, start: int)
    requires var now := Run(s, es);
      && t !in now.txs && now.holder == None && now.row.Some?
      && (req.Edit? ==> req.expected == now.row.value.updatedAt)
    ensures var now := Run(s, es);
      var after := Applied(req, now.row.value, start);
      Run(s, es + Script(t, req, start)) == Db(
        after, None, now.txs[t := Tx(req, start, Committed)], now.used + {start},
        now.log + [Commit(t, req, start, now.row.value, after)])
  {
    RunAppends(s, es, Script(t, req, start));
    AloneIsRun(Run(s, es), t, req, start);
    AloneCommits(Run(s, es), t, req, start);
  }

  /** The clock assumption is needed: when transactions share a start time, two edits of one version commit. */
  lemma SharedStartLetsTwoEditsThrough(row: Row, patch: Patch, now: int)
    ensures exists es ::
      var log := Run(Initial(row), es).log;
      |log| == 3 && log[1].req == Edit(patch, now) && log[2].req == Edit(patch, now)
  {
    var s, edit := Initial(row), Edit(patch, now);
    var es1 := [] + Script(0, CountDownload, now);
    ScriptCommits(s, [], 0, CountDownload, now);
    var es2 := es1 + Script(1, edit, now);
    ScriptCommits(s, es1, 1, edit, now);
    ScriptCommits(s, es2, 2, edit, now);
    assert |Run(s, es2 + Script(2, edit, now)).log| == 3;
  }
}
