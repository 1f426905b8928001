/** The gif row's repository statements and the conditional update built from them. */
module GifService {
  import opened Prelude
  import opened GifVersions

  class Database {
    var row: Option<Row>
    var holder: Option<TxId>
    var txs: map<TxId, Tx>
    var used: set<int>
    var log: seq<Commit>

    function State(): Db
      reads this
    {
      Db(row, holder, txs, used, log)
    }

    constructor (row: Row)
      ensures State() == Initial(row)
    {
      this.row, holder, txs, used, log := Some(row), None, map[], {row.updatedAt}, [];
    }

    /** What other requests do to the row meanwhile. */
    method Others(es: seq<Event>)
      modifies this
      ensures State() == Run(old(State()), es)
    {
      var s := Run(State(), es);
      row, holder, txs, used, log := s.row, s.holder, s.txs, s.used, s.log;
    }

    method BeginTx(t: TxId, req: Request, start: int)
      requires t !in txs
      modifies this
      ensures State() == Step(old(State()), Begin(t, req, start))
    {
      txs := txs[t := Tx(req, start, Waiting)];
      used := used + {start};
    }

    /** SELECT ... FOR UPDATE, once the lock is free. */
    method GetByKeyForUpdate(t: TxId) returns (found: Option<Row>)
      requires t in txs && txs[t].phase.Waiting? && txs[t].req.Edit? && holder == None
      modifies this
      ensures State() == Step(old(State()), Lock(t))
      ensures found == row == old(row)
    {
      found := row;
      if found.None? {
        txs := txs[t := txs[t].(phase := RolledBack)];
      } else {
        holder := Some(t);
        txs := txs[t := txs[t].(phase := Holding(found.value))];
      }
    }

    /** UPDATE ... COALESCE ... RETURNING by the transaction that holds the lock. */
    method Update(t: TxId, patch: Patch) returns (updated: Row)
      requires t in txs && row.Some? && txs[t].phase == Holding(row.value)
      requires txs[t].req == Edit(patch, row.value.updatedAt)
      modifies this
      ensures State() == Step(old(State()), Write(t))
      ensures Some(updated) == Applied(txs[t].req, row.value, txs[t].start)
      ensures IsPatched(patch, row.value, updated, txs[t].start)
    {
      var r := row.value;
      updated := Row(
        r.owner,
        if patch.name.Some? then patch.name.value else r.name,
        if patch.status.Some? then patch.status.value else r.status,
        if patch.persist.Some? then patch.persist.value else r.persist,
        if patch.isPublic.Some? then patch.isPublic.value else r.isPublic,
        r.download,
        txs[t].start);
      txs := txs[t := txs[t].(phase := Wrote(Some(updated)))];
    }

    method Commit(t: TxId)
      requires t in txs && txs[t].phase.Wrote? && holder == Some(t) && row.Some?
      modifies this
      ensures State() == Step(old(State()), CommitTx(t))
    {
      log := log + [GifVersions.Commit(t, txs[t].req, txs[t].start, row.value, txs[t].phase.after)];
      row := txs[t].phase.after;
      holder := None;
      txs := txs[t := txs[t].(phase := Committed)];
    }

    method Rollback(t: TxId)
      requires t in txs && !txs[t].phase.Committed?
      modifies this
      ensures State() == Step(old(State()), Abort(t))
    {
      if holder == Some(t) {
        holder := None;
      }
      txs := txs[t := txs[t].(phase := RolledBack)];
    }

    /** A lone UPDATE or DELETE statement: it waits for the lock, writes and commits by itself. */
    method Execute(t: TxId, req: Request, start: int)
      requires t !in txs && holder == None && !req.Edit?
      modifies this
      ensures State() == Run(old(State()), Script(t, req, start))
      ensures row == if old(row).None? then None else Applied(req, old(row).value, start)
      ensures old(row).Some? ==>
        var r := old(row).value;
        match req
        case CountDownload =>
          row == Some(Row(r.owner, r.name, r.status, r.persist, r.isPublic, r.download + 1, start))
        case SaveRecent => row == Some(Row(r.owner, r.name, r.status, true, r.isPublic, r.download, start))
        case Delete => row == None
    {
      AloneIsRun(State(), t, req, start);
      LoneStatement(State(), t, req, start);
      hide Run, Step, Script;
      txs := txs[t := Tx(req, start, Committed)];
      used := used + {start};
      if row.None? {
        return;
      }
      var r := row.value;
      var after :=
        match req
        case CountDownload => Some(r.(download := r.download + 1, updatedAt := start))
        case SaveRecent => Some(r.(persist := true, updatedAt := start))
        case _ => None;
      log := log + [GifVersions.Commit(t, req, start, r, after)];
      row := after;
    }
  }

  /** What a lone statement comes to: it waits for nobody, and fails to find a row or commits its change. */
  lemma LoneStatement(s: Db, t: TxId, req: Request, start: int)
    requires t !in s.txs && s.holder == None && !req.Edit?
    ensures Alone(s, t, req, start) ==
      if s.row.None? then s.(txs := s.txs[t := Tx(req, start, Committed)], used := s.used + {start})
      else Db(Applied(req, s.row.value, start), None, s.txs[t := Tx(req, start, Committed)], s.used + {start},
              s.log + [Commit(t, req, start, s.row.value, Applied(req, s.row.value, start))])
  {
    if s.row.Some? {
      AloneCommits(s, t, req, start);
    } else {
      var s1 := Step(s, Begin(t, req, start));
      assert Step(s1, Lock(t)).txs == s.txs[t := Tx(req, start, Committed)];
    }
  }

  datatype UpdateError = NotFound | OwnerMismatch | VersionMismatch | StoreFailed

  /** Which call to the database fails, if one does; only a commit may fail and yet take effect. */
  datatype Fault = NoFault | OwnerFault | BeginFault | SelectFault | UpdateFault | CommitLost | CommitUnsure

  /** The call gets as far as asking for the lock. */
  predicate ReachesLock(owned: Option<Row>, userId: string, fault: Fault) {
    owned.Some? && owned.value.owner == userId && !fault.OwnerFault? && !fault.BeginFault? && !fault.SelectFault?
  }

  /**
   What a conditional update must answer, given the row its owner check read and the row it locked; faults
   are met in the order of the calls.
   */
  function Verdict(owned: Option<Row>, locked: Option<Row>, userId: string, expected: int, fault: Fault)
    : Option<UpdateError>
  {
    if fault.OwnerFault? then Some(StoreFailed)
    else if owned.None? then Some(NotFound)
    else if owned.value.owner != userId then Some(OwnerMismatch)
    else if fault.BeginFault? || fault.SelectFault? then Some(StoreFailed)
    else if locked.None? then Some(NotFound)
    else if locked.value.updatedAt != expected then Some(VersionMismatch)
    else if !fault.NoFault? then Some(StoreFailed)
    else None
  }

  /** Everything that happened to the row before transaction `t` got the lock. */
  function BeforeLock(between: seq<Event>, begin: Event, waiting: seq<Event>): seq<Event> {
    between + [begin] + waiting
  }

  lemma RunOneMore(s: Db, es: seq<Event>, e: Event)
    ensures Run(s, es + [e]) == Step(Run(s, es), e)
  {
    assert (es + [e])[..|es|] == es;
  }

  /** A transaction moves by its own events only. */
  lemma {:induction false} OthersLeaveTx(s: Db, es: seq<Event>, t: TxId)
    requires t in s.txs && forall i :: 0 <= i < |es| ==> es[i].t != t
    ensures t in Run(s, es).txs && Run(s, es).txs[t] == s.txs[t]
  {
    if es != [] {
      OthersLeaveTx(s, es[..|es| - 1], t);
    }
  }

  class MediaService {
    const db: Database

    constructor (db: Database)
      ensures this.db == db
    {
      this.db := db;
    }

    /**
     Edit the row if it is still at version `lastUpdatedAt`. `t` and `start` are the transaction the database
     opens; other requests run `between` the owner check and the transaction, and while it is `waiting` for
     the lock. `es` is the history of the row during the call.
     */
    method Update(
      userId: string, patch: Patch, lastUpdatedAt: int, t: TxId, start: int, between: seq<Event>, waiting: seq<Event>,
      fault: Fault)
      returns (r: Result<Row, UpdateError>, ghost es: seq<Event>)
      requires t !in Run(db.State(), between).txs
      requires forall i :: 0 <= i < |waiting| ==> waiting[i].t != t
      requires Run(db.State(), BeforeLock(between, Begin(t, Edit(patch, lastUpdatedAt), start), waiting)).holder == None
      modifies db
      ensures db.State() == Run(old(db.State()), es)
      ensures var req := Edit(patch, lastUpdatedAt);
        var met := Run(old(db.State()), BeforeLock(between, Begin(t, req, start), waiting));
        var verdict := Verdict(old(db.row), met.row, userId, lastUpdatedAt, fault);
        && (r.Err? <==> verdict.Some?)
        && (r.Err? ==> Some(r.error) == verdict)
        && (ReachesLock(old(db.row), userId, fault) ==>
              var edited := r.Ok? || (met.row.Some? && met.row.value.updatedAt == lastUpdatedAt && fault.CommitUnsure?);
              && db.holder == None
              && db.row == (if edited then Applied(req, met.row.value, start) else met.row)
              && db.log == met.log + (if edited then [Commit(t, req, start, met.row.value, db.row)] else []))
        && (r.Ok? ==> ReachesLock(old(db.row), userId, fault) && Some(r.value) == db.row)
      ensures var begin := Begin(t, Edit(patch, lastUpdatedAt), start);
        var owned, met := old(db.row), Run(old(db.State()), BeforeLock(between, begin, waiting)).row;
        var quiet := !fault.OwnerFault? && !fault.BeginFault? && !fault.SelectFault?;
        && (r.Ok? <==>
              && fault.NoFault? && owned.Some? && owned.value.owner == userId
              && met.Some? && met.value.updatedAt == lastUpdatedAt)
        && (r.Ok? ==> IsPatched(patch, met.value, r.value, start))
        && (r == Err(OwnerMismatch) <==> !fault.OwnerFault? && owned.Some? && owned.value.owner != userId)
        && (r == Err(NotFound) <==>
              || (!fault.OwnerFault? && owned.None?)
              || (quiet && owned.Some? && owned.value.owner == userId && met.None?))
        && (r == Err(VersionMismatch) <==>
              && quiet && owned.Some? && owned.value.owner == userId
              && met.Some? && met.value.updatedAt != lastUpdatedAt)
      ensures !ReachesLock(old(db.row), userId, fault) ==>
        db.row == Run(old(db.State()), between).row && db.log == Run(old(db.State()), between).log
    {
      hide Run, Step;
      ghost var s := db.State();
      var owner := if db.row.Some? then Some(db.row.value.owner) else None;
      db.Others(between);
      es := between;
      if fault.OwnerFault? {
        return Err(StoreFailed), es;
      }
      if owner.None? {
        return Err(NotFound), es;
      }
      if owner.value != userId {
        return Err(OwnerMismatch), es;
      }

      if fault.BeginFault? {
        return Err(StoreFailed), es;
      }
      var req := Edit(patch, lastUpdatedAt);
      var begin := Begin(t, req, start);
      db.BeginTx(t, req, start);
      RunOneMore(s, es, begin);
      es := es + [begin];
      if fault.SelectFault? {
        AbortedLeavesRow(Run(s, between), begin);
        db.Rollback(t);
        RunOneMore(s, es, Abort(t));
        es := es + [Abort(t)];
        return Err(StoreFailed), es;
      }
      ghost var begun := db.State();
      BegunWaits(Run(s, between), begin);
      OthersLeaveTx(begun, waiting, t);
      db.Others(waiting);
      RunAppends(s, es, waiting);
      es := es + waiting;
      ghost var met := db.State();
      LockedSteps(met, t);

      var resp := db.GetByKeyForUpdate(t);
      RunOneMore(s, es, Lock(t));
      es := es + [Lock(t)];
      if resp.None? {
        db.Rollback(t);
        RunOneMore(s, es, Abort(t));
        es := es + [Abort(t)];
        return Err(NotFound), es;
      }

      var curUpdatedAt := resp.value.updatedAt;
      if curUpdatedAt != lastUpdatedAt {
        db.Rollback(t);
        RunOneMore(s, es, Abort(t));
        es := es + [Abort(t)];
        return Err(VersionMismatch), es;
      }
      if fault.UpdateFault? {
        db.Rollback(t);
        RunOneMore(s, es, Abort(t));
        es := es + [Abort(t)];
        return Err(StoreFailed), es;
      }
      var updated := db.Update(t, patch);
      RunOneMore(s, es, Write(t));
      es := es + [Write(t)];
      if fault.CommitLost? {
        db.Rollback(t);
        RunOneMore(s, es, Abort(t));
        es := es + [Abort(t)];
        return Err(StoreFailed), es;
      }
      db.Commit(t);
      RunOneMore(s, es, CommitTx(t));
      es := es + [CommitTx(t)];
      if fault.CommitUnsure? {
        return Err(StoreFailed), es;
      }
      r := Ok(updated);
    }
  }

  lemma BegunWaits(s: Db, begin: Event)
    requires begin.Begin? && begin.t !in s.txs
    ensures var s' := Step(s, begin);
      && begin.t in s'.txs && s'.txs[begin.t] == Tx(begin.req, begin.start, Waiting)
      && s'.row == s.row && s'.log == s.log
  {
  }

  lemma AbortedLeavesRow(s: Db, begin: Event)
    requires begin.Begin? && begin.t !in s.txs
    ensures var s' := Step(s, begin);
      begin.t in s'.txs && !s'.txs[begin.t].phase.Committed?
      && Step(s', Abort(begin.t)).row == s.row && Step(s', Abort(begin.t)).log == s.log
  {
  }

  /** The steps of an edit from the moment the lock is free, up to each point where it may end. */
  lemma LockedSteps(s: Db, t: TxId)
    requires t in s.txs && s.txs[t].phase.Waiting? && s.txs[t].req.Edit? && s.holder == None
    ensures var req, start := s.txs[t].req, s.txs[t].start;
      var locked := Step(s, Lock(t));
      && locked.row == s.row && locked.log == s.log
      && t in locked.txs && !locked.txs[t].phase.Committed?
      && (s.row.None? ==> var end := Step(locked, Abort(t)); end.row == s.row && end.log == s.log && end.holder == None)
      && (s.row.Some? ==>
            && locked.holder == Some(t) && locked.txs[t] == Tx(req, start, Holding(s.row.value))
            && var end := Step(locked, Abort(t)); end.row == s.row && end.log == s.log && end.holder == None)
      && (s.row.Some? && s.row.value.updatedAt == req.expected ==>
            var after := Applied(req, s.row.value, start);
            var wrote := Step(locked, Write(t));
            && t in wrote.txs && wrote.txs[t] == Tx(req, start, Wrote(after))
            && wrote.holder == Some(t) && wrote.row == s.row && wrote.log == s.log
            && (var end := Step(wrote, Abort(t)); end.row == s.row && end.log == s.log && end.holder == None)
            && var end := Step(wrote, CommitTx(t));
               && end.row == after && end.holder == None
               && end.log == s.log + [Commit(t, req, start, s.row.value, after)])
  {
  }
}
