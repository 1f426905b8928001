/**
 `SaveMetadata` and the save worker's `handle`, as they run: each body is proved to be the run of the queue
 machine that its handler contributes, so the machine's accounting holds of them.
 */
module SaveWorker {
  import opened Prelude
  import opened SaveQueue

  /** The two ways `SaveMetadata` fails; `Failure` carries the error text the worker looks at. */
  datatype SaveError = InvalidUser | Failure(text: string)

  /** The text of two joined errors is their texts on separate lines. */
  function Joined(text: string, text': string): string {
    text + "\n" + text'
  }

  lemma OnlyTheStatAloneReadsInvalidUser(text: string, text': string)
    ensures Joined(text, text') != INVALID_USER_TEXT
    ensures "SaveMetadata: " + text != INVALID_USER_TEXT
  {
    assert Joined(text, text')[|text|] == '\n';
    assert ("SaveMetadata: " + text)[0] == 'S';
  }

  /** How the outside world answers one handler: the stat, the republish, the upsert and the settlement. */
  datatype World = World(statError: Option<string>, republish: Outcome, upsert: Outcome, settle: Outcome, at: nat)

  /** The events a handler of `m` contributes before its error is judged. */
  function SaveSteps(tag: nat, m: Message, w: World): seq<Event> {
    if w.statError.Some?
    then [Advance(tag, Lost, w.statError.value, w.at), Advance(tag, w.republish, "", w.at)]
    else [Advance(tag, Done, "", w.at), Advance(tag, w.upsert, "", w.at)]
  }

  function HandlerSteps(tag: nat, m: Message, w: World): seq<Event> {
    [Advance(tag, Done, "", w.at)]
    + (if IsGood(m) then SaveSteps(tag, m, w) else [])
    + [Advance(tag, w.settle, "", w.at)]
  }

  lemma RunOne(s: State, e: Event)
    ensures Run(s, [e]) == Step(s, e)
  {
    hide Step;
    assert Run(s, [e]) == Run(Step(s, e), []);
  }

  /** What the last call of a handler leaves in the queues. */
  lemma SettlingInFull(s: State, tag: nat, v: Verdict, o: Outcome, at: nat)
    requires tag in s.running && s.running[tag].pc == Settle(v)
    ensures var s', heard := Step(s, Advance(tag, o, "", at)), !o.Lost? && tag in s.unacked;
      && s'.unacked == (if heard then s.unacked - {tag} else s.unacked)
      && s'.ready == (if heard && v.Requeue? then InsertedAt(s.ready, at, s.unacked[tag]) else s.ready)
      && s'.dead == (if heard && v.Reject? then s.dead + multiset{s.unacked[tag]} else s.dead)
      && s'.retry == s.retry && s'.now == s.now
  {
    hide InsertedAt, Enqueued;
    if !o.Lost? && tag in s.unacked && v.Reject? {
      DeadLetterIsAppended(s.(unacked := s.unacked - {tag}), s.unacked[tag]);
    } else if !o.Lost? {
      SettledFrame(s, tag, v, at);
    }
  }

  /** The stat changes no queue; its outcome decides what the handler calls next. */
  lemma StatMoves(s: State, tag: nat, m: Message, w: World)
    requires tag in s.running && s.running[tag] == Handler(m, Stat)
    ensures Step(s, SaveSteps(tag, m, w)[0]) == s.(running := s.running[tag :=
      Handler(m, if w.statError.Some? then Republish(w.statError.value) else Save)])
  {
  }

  class SaveVideoWorker {
    var ready: seq<Message>
    var retry: seq<Delayed>
    var dead: multiset<Message>
    var unacked: map<nat, Message>
    var now: int
    /** The key of each user's last upload. */
    var lastUpload: map<string, string>
    ghost var state: State

    ghost predicate Valid()
      reads this
    {
      state.ready == ready && state.retry == retry && state.dead == dead && state.unacked == unacked && state.now == now
    }

    constructor (concurrency: nat, now: int)
      ensures Valid() && state == Initial(concurrency, now) && lastUpload == map[]
    {
      ready, retry, dead, unacked, this.now, lastUpload := [], [], multiset{}, map[], now, map[];
      state := Initial(concurrency, now);
    }

    method PublishRetrySaveVideo(m: Message, o: Outcome, ghost tag: nat) returns (ok: bool)
      requires Valid() && tag in state.running && state.running[tag].msg == m && state.running[tag].pc.Republish?
      modifies this
      ensures Valid() && ok == o.Done? && lastUpload == old(lastUpload)
      ensures var why := old(state).running[tag].pc.text;
        tag in state.running
        && state.running[tag] == Handler(m, Settle(if ok && why == INVALID_USER_TEXT then Reject else Requeue))
      ensures forall at :: state == Step(old(state), Advance(tag, o, "", at))
    {
      if !o.Lost? {
        retry := retry + [Delayed(m, now + 1000)];
      }
      ok := o.Done?;
      state := Step(state, Advance(tag, o, "", 0));
    }

    /** The upsert of the user's one row. */
    method CreateLastVideo(m: Message, o: Outcome, ghost tag: nat) returns (ok: bool)
      requires Valid() && IsGood(m)
      requires tag in state.running && state.running[tag].msg == m && state.running[tag].pc.Save?
      modifies this
      ensures Valid() && ok == o.Done?
      ensures tag in state.running && state.running[tag] == Handler(m, Settle(if ok then Ack else Requeue))
      ensures lastUpload == if o.Lost? then old(lastUpload) else old(lastUpload)[m.user.text := m.key]
      ensures forall at :: state == Step(old(state), Advance(tag, o, "", at))
    {
      if !o.Lost? {
        lastUpload := lastUpload[m.user.text := m.key];
      }
      ok := o.Done?;
      state := Step(state, Advance(tag, o, "", 0));
    }

    /** Ack, nack without requeue, or nack with requeue; a tag the broker took back is ignored. */
    method SettleDelivery(tag: nat, v: Verdict, o: Outcome, at: nat)
      requires Valid() && tag in state.running && state.running[tag].pc == Settle(v)
      modifies this
      ensures Valid() && lastUpload == old(lastUpload)
      ensures state == Step(old(state), Advance(tag, o, "", at))
    {
      hide Step, InsertedAt;
      SettlingInFull(state, tag, v, o, at);
      if !o.Lost? && tag in unacked {
        var m := unacked[tag];
        unacked := unacked - {tag};
        match v
        case Ack =>
        case Reject => dead := dead + multiset{m};
        case Requeue => ready := InsertedAt(ready, at, m);
      }
      state := Step(state, Advance(tag, o, "", at));
    }

    /** Saves the upload's metadata; a failed stat puts a copy in the retry queue and still fails. */
    method SaveMetadata(tag: nat, m: Message, w: World) returns (err: Option<SaveError>)
      requires Valid() && m.Saving?
      requires tag in state.running && state.running[tag] == Handler(m, if IsGood(m) then Stat else Settle(Reject))
      modifies this
      ensures Valid()
      ensures !IsGood(m) ==> err == Some(InvalidUser) && state == old(state) && lastUpload == old(lastUpload)
      ensures IsGood(m) ==> state == Run(old(state), SaveSteps(tag, m, w)) && err != Some(InvalidUser)
      ensures IsGood(m) ==> tag in state.running && state.running[tag] == Handler(m,
        Settle(if err.None? then Ack else if err == Some(Failure(INVALID_USER_TEXT)) then Reject else Requeue))
      ensures err.None? <==> IsGood(m) && w.statError.None? && w.upsert.Done?
      ensures lastUpload ==
        if m.user.Uuid? && w.statError.None? && !w.upsert.Lost?
        then old(lastUpload)[m.user.text := m.key] else old(lastUpload)
      ensures IsGood(m) ==>
        (err == Some(Failure(INVALID_USER_TEXT)) <==> w.statError == Some(INVALID_USER_TEXT) && w.republish.Done?)
    {
      if m.user.NotUuid? {
        return Some(InvalidUser);
      }
      hide Step, Run, Settled, Enqueued;
      ghost var s := state;
      StatMoves(s, tag, m, w);
      OnlyTheStatAloneReadsInvalidUser(if w.statError.Some? then w.statError.value else "", "");
      ghost var first := SaveSteps(tag, m, w)[0];
      state := Step(state, first);
      RunTwo(s, SaveSteps(tag, m, w));
      if w.statError.Some? {
        var text := w.statError.value;
        var republished := PublishRetrySaveVideo(m, w.republish, tag);
        assert state == Step(Step(s, first), Advance(tag, w.republish, "", w.at));
        if !republished {
          OnlyTheStatAloneReadsInvalidUser(text, "publish failed");
          return Some(Failure(Joined(text, "publish failed")));
        }
        return Some(Failure(text));
      }
      var created := CreateLastVideo(m, w.upsert, tag);
      assert state == Step(Step(s, first), Advance(tag, w.upsert, "", w.at));
      if !created {
        OnlyTheStatAloneReadsInvalidUser("upsert failed", "");
        return Some(Failure("SaveMetadata: " + "upsert failed"));
      }
      err := None;
    }

    /** The handler of one delivery, from parsing the body to settling it. */
    method Handle(tag: nat, m: Message, w: World) returns (verdict: Verdict)
      requires Valid() && tag in state.running && state.running[tag] == Handler(m, Start)
      modifies this
      ensures Valid() && state == Run(old(state), HandlerSteps(tag, m, w))
      ensures verdict == Ack ==> IsGood(m) && lastUpload == old(lastUpload)[m.user.text := m.key]
      ensures verdict == Ack <==> IsGood(m) && w.statError.None? && w.upsert.Done?
      ensures verdict == Reject <==> !IsGood(m) || (w.statError == Some(INVALID_USER_TEXT) && w.republish.Done?)
      ensures verdict == Ack <==> m.Saving? && m.user.Uuid? && w.statError.None? && w.upsert.Done?
      ensures verdict == Reject <==>
        m.Garbled? || m.user.NotUuid? || (w.statError == Some("invalid user id") && w.republish.Done?)
      ensures lastUpload ==
        if m.Saving? && m.user.Uuid? && w.statError.None? && !w.upsert.Lost?
        then old(lastUpload)[m.user.text := m.key] else old(lastUpload)
    {
      ghost var s := state;
      state := Step(state, Advance(tag, Done, "", w.at));
      HandlerStepsRun(s, tag, m, w);
      if m.Garbled? {
        verdict := Reject;
      } else {
        var err := SaveMetadata(tag, m, w);
        if err.Some? {
          if err.value.InvalidUser? || err.value.text == INVALID_USER_TEXT {
            verdict := Reject;
          } else {
            verdict := Requeue;
          }
        } else {
          verdict := Ack;
        }
      }
      SettleDelivery(tag, verdict, w.settle, w.at);
    }
  }

  lemma RunTwo(s: State, es: seq<Event>)
    requires |es| == 2
    ensures Run(s, es) == Step(Step(s, es[0]), es[1])
  {
    hide Step;
    assert es[1..] == [es[1]];
    RunOne(Step(s, es[0]), es[1]);
  }

  lemma HandlerStepsRun(s: State, tag: nat, m: Message, w: World)
    ensures Run(s, HandlerSteps(tag, m, w)) ==
      Step(Run(Step(s, Advance(tag, Done, "", w.at)), if IsGood(m) then SaveSteps(tag, m, w) else []),
           Advance(tag, w.settle, "", w.at))
  {
    hide Step;
    var first, last := Advance(tag, Done, "", w.at), Advance(tag, w.settle, "", w.at);
    var mid := if IsGood(m) then SaveSteps(tag, m, w) else [];
    RunOne(s, first);
    RunAppends(s, [first], mid);
    RunAppends(s, [first] + mid, [last]);
    RunOne(Run(s, [first] + mid), last);
  }
}
