/**
 The save-metadata worker and its queues: a bounded pool of handlers over the save queue, a retry queue
 whose messages expire back into it, and a dead-letter queue.

 Every step of every handler, every delivery and every lost connection is an event; bodies are counted,
 so the theorems say where each copy of each message is.
 */
module SaveQueue {
  import opened Prelude

  // ---------- topology ----------

  const EMAIL_QUEUE := "email.queue"
  const PROCESS_QUEUE := "process.queue"
  const MAIN_QUEUE := "video.save.queue"
  const RETRY_QUEUE := "save.retry.queue"
  const UPLOAD_QUEUE := "process.upload.queue"

  function DeadOf(queue: string): string {
    queue + ".dead"
  }

  /** Where a queue sends what it rejects or lets expire, and after how many milliseconds it expires. */
  datatype QueueArgs = QueueArgs(deadLetterTo: Option<string>, ttl: Option<int>)

  function Topology(): map<string, QueueArgs> {
    map[
      DeadOf(EMAIL_QUEUE) := QueueArgs(None, None),
      EMAIL_QUEUE := QueueArgs(Some(DeadOf(EMAIL_QUEUE)), None),
      DeadOf(PROCESS_QUEUE) := QueueArgs(None, None),
      PROCESS_QUEUE := QueueArgs(Some(DeadOf(PROCESS_QUEUE)), None),
      DeadOf(MAIN_QUEUE) := QueueArgs(None, None),
      MAIN_QUEUE := QueueArgs(Some(DeadOf(MAIN_QUEUE)), None),
      DeadOf(RETRY_QUEUE) := QueueArgs(None, None),
      RETRY_QUEUE := QueueArgs(Some(MAIN_QUEUE), Some(1000)),
      DeadOf(UPLOAD_QUEUE) := QueueArgs(None, None),
      UPLOAD_QUEUE := QueueArgs(Some(DeadOf(UPLOAD_QUEUE)), None)]
  }

  /** Following dead-letter links ends after at most two hops, in a queue that forwards nothing. */
  lemma DeadLetterLinksEnd(queue: string)
    requires queue in Topology() && Topology()[queue].deadLetterTo.Some?
    ensures var next := Topology()[queue].deadLetterTo.value;
      && next in Topology()
      && (Topology()[next].deadLetterTo.Some? ==>
            && queue == RETRY_QUEUE && next == MAIN_QUEUE
            && Topology()[next].deadLetterTo == Some(DeadOf(MAIN_QUEUE))
            && Topology()[DeadOf(MAIN_QUEUE)].deadLetterTo.None?)
  {
    var mains := {EMAIL_QUEUE, PROCESS_QUEUE, MAIN_QUEUE, RETRY_QUEUE, UPLOAD_QUEUE};
    assert queue in mains;
    forall q | q in mains
      ensures Topology()[DeadOf(q)] == QueueArgs(None, None)
    {
      assert DeadOf(q)[|q|..] == ".dead";
    }
  }

  /**
   There are ten queues. What the five working ones reject goes to the queue of the same name with ".dead" behind
   it, and stays there; only the retry queue lets messages expire, after a second, back into the save queue.
   */
  lemma EveryQueueHasItsPartner()
    ensures Topology().Keys ==
      {"email.queue", "process.queue", "video.save.queue", "save.retry.queue", "process.upload.queue",
       "email.queue.dead", "process.queue.dead", "video.save.queue.dead", "save.retry.queue.dead",
       "process.upload.queue.dead"}
    ensures forall q :: q in {"email.queue", "process.queue", "video.save.queue", "process.upload.queue"} ==>
      Topology()[q] == QueueArgs(Some(q + ".dead"), None)
    ensures Topology()["save.retry.queue"] == QueueArgs(Some("video.save.queue"), Some(1000))
    ensures forall q ::
      q in {"email.queue", "process.queue", "video.save.queue", "save.retry.queue", "process.upload.queue"} ==>
        Topology()[q + ".dead"] == QueueArgs(None, None)
  {
    assert DeadOf("email.queue") == "email.queue.dead" && DeadOf("process.queue") == "process.queue.dead";
    assert DeadOf("video.save.queue") == "video.save.queue.dead";
    assert DeadOf("save.retry.queue") == "save.retry.queue.dead";
    assert DeadOf("process.upload.queue") == "process.upload.queue.dead";
  }

  /** What `Setup` asks of the broker; it may turn any of these down. */
  datatype Request =
    | OpenChannel | DeclareQueue(name: string) | DeclareExchange(exchange: string) | BindQueue(queue: string)

  class RabbitMQ {
    var queues: map<string, QueueArgs>
    /** Fanout exchanges with the queues bound to them. */
    var exchanges: map<string, set<string>>

    constructor ()
      ensures queues == map[] && exchanges == map[]
    {
      queues, exchanges := map[], map[];
    }

    method Declare(name: string, args: QueueArgs, refused: set<Request>) returns (ok: bool)
      modifies `queues
      ensures ok <==> DeclareQueue(name) !in refused
      ensures queues == if ok then old(queues)[name := args] else old(queues)
    {
      ok := DeclareQueue(name) !in refused;
      if ok {
        queues := queues[name := args];
      }
    }

    /** The upload queue listens to the exchange the bucket's notifications arrive at. */
    method DeclareUploadProcessQueue(exchange: string, refused: set<Request>) returns (ok: bool)
      modifies this
      ensures ok <==> DeclareExchange(exchange) !in refused && DeclareQueue(UPLOAD_QUEUE) !in refused
                      && BindQueue(UPLOAD_QUEUE) !in refused
      ensures ok ==>
        && queues == old(queues)[UPLOAD_QUEUE := QueueArgs(Some(DeadOf(UPLOAD_QUEUE)), None)]
        && var bound := if exchange in old(exchanges) then old(exchanges)[exchange] else {};
           exchanges == old(exchanges)[exchange := bound + {UPLOAD_QUEUE}]
    {
      if DeclareExchange(exchange) in refused {
        return false;
      }
      if exchange !in exchanges {
        exchanges := exchanges[exchange := {}];
      }
      ok := Declare(UPLOAD_QUEUE, QueueArgs(Some(DeadOf(UPLOAD_QUEUE)), None), refused);
      if !ok || BindQueue(UPLOAD_QUEUE) in refused {
        return false;
      }
      var bound := exchanges[exchange] + {UPLOAD_QUEUE};
      assert exchanges[exchange := bound] == old(exchanges)[exchange := bound];
      exchanges := exchanges[exchange := bound];
    }

    /** Declares every queue after its dead-letter queue, and the exchange with its binding last. */
    method Setup(exchange: string, refused: set<Request>) returns (ok: bool)
      requires queues == map[] && exchanges == map[]
      modifies this
      ensures ok <==>
        && OpenChannel !in refused && DeclareExchange(exchange) !in refused && BindQueue(UPLOAD_QUEUE) !in refused
        && forall name :: name in Topology() ==> DeclareQueue(name) !in refused
      ensures ok ==> queues == Topology() && exchanges == map[exchange := {UPLOAD_QUEUE}]
    {
      ok := OpenChannel !in refused;
      if ok { ok := Declare(DeadOf(EMAIL_QUEUE), QueueArgs(None, None), refused); }
      if ok { ok := Declare(EMAIL_QUEUE, QueueArgs(Some(DeadOf(EMAIL_QUEUE)), None), refused); }
      if ok { ok := Declare(DeadOf(PROCESS_QUEUE), QueueArgs(None, None), refused); }
      if ok { ok := Declare(PROCESS_QUEUE, QueueArgs(Some(DeadOf(PROCESS_QUEUE)), None), refused); }
      if ok { ok := Declare(DeadOf(MAIN_QUEUE), QueueArgs(None, None), refused); }
      if ok { ok := Declare(MAIN_QUEUE, QueueArgs(Some(DeadOf(MAIN_QUEUE)), None), refused); }
      if ok { ok := Declare(DeadOf(RETRY_QUEUE), QueueArgs(None, None), refused); }
      if ok { ok := Declare(RETRY_QUEUE, QueueArgs(Some(MAIN_QUEUE), Some(1000)), refused); }
      if ok { ok := Declare(DeadOf(UPLOAD_QUEUE), QueueArgs(None, None), refused); }
      if ok { ok := DeclareUploadProcessQueue(exchange, refused); }
      assert {} + {UPLOAD_QUEUE} == {UPLOAD_QUEUE};
    }
  }

  // ---------- messages ----------

  /** What `uuid.Parse` makes of the user field. */
  datatype UserField = Uuid(text: string) | NotUuid(text: string)

  /** A body as published; a garbled one is no JSON object of the expected shape. */
  datatype Message = Garbled(raw: string) | Saving(key: string, user: UserField, filename: string)

  predicate IsGood(m: Message) {
    m.Saving? && m.user.Uuid?
  }

  const INVALID_USER_TEXT := "invalid user id"

  datatype Verdict = Ack | Reject | Requeue

  /** The next call of a handler. */
  datatype Pc = Start | Stat | Republish(text: string) | Save | Settle(verdict: Verdict) | Returning

  datatype Handler = Handler(msg: Message, pc: Pc)

  datatype Delayed = Delayed(msg: Message, due: int)

  datatype State = State(
    concurrency: nat,
    now: int,
    ready: seq<Message>,              // the save queue
    retry: seq<Delayed>,              // the retry queue
    dead: multiset<Message>,          // the save queue's dead-letter queue
    unacked: map<nat, Message>,       // delivered and not settled, by delivery tag
    channel: map<nat, Message>,       // delivered and not yet received by the worker's loop
    held: Option<(nat, Message)>,     // received and waiting for the semaphore
    running: map<nat, Handler>,       // handlers that hold the semaphore
    nextTag: nat,
    acked: multiset<Message>,
    published: multiset<Message>,     // by other services
    copies: multiset<Message>,        // republished by handlers
    saved: multiset<Message>)         // one for every upsert of the last_upload row

  function Initial(concurrency: nat, now: int): State {
    State(concurrency, now, [], [], multiset{}, map[], map[], None, map[], 0,
          multiset{}, multiset{}, multiset{}, multiset{})
  }

  /** A message enters one of the queues of the save pipeline. */
  function Enqueued(s: State, queue: string, m: Message): (s': State)
    ensures s'.unacked == s.unacked && s'.running == s.running && s'.concurrency == s.concurrency
    ensures s'.channel == s.channel && s'.held == s.held && s'.nextTag == s.nextTag
    ensures s'.acked == s.acked && s'.published == s.published && s'.copies == s.copies && s'.saved == s.saved
    ensures queue == MAIN_QUEUE || queue == RETRY_QUEUE ==> s'.dead == s.dead
  {
    if queue == MAIN_QUEUE then s.(ready := s.ready + [m])
    else if queue == RETRY_QUEUE then
      var ttl := Topology()[RETRY_QUEUE].ttl;
      s.(retry := s.retry + [Delayed(m, s.now + if ttl.Some? then ttl.value else 0)])
    else if queue == DeadOf(MAIN_QUEUE) then s.(dead := s.dead + multiset{m})
    else s
  }

  /** The broker forwards a message that `queue` rejected or let expire. */
  function DeadLettered(s: State, queue: string, m: Message): (s': State)
    ensures s'.unacked == s.unacked && s'.running == s.running && s'.concurrency == s.concurrency
    ensures s'.channel == s.channel && s'.held == s.held && s'.nextTag == s.nextTag
    ensures s'.acked == s.acked && s'.published == s.published && s'.copies == s.copies && s'.saved == s.saved
  {
    if queue in Topology() && Topology()[queue].deadLetterTo.Some?
    then Enqueued(s, Topology()[queue].deadLetterTo.value, m)
    else s
  }

  datatype Event =
    | Tick(ms: nat)
    | PublishSave(m: Message)
    | Expire
    | Deliver
    | Receive(tag: nat)
    | Spawn
    | Advance(tag: nat, o: Outcome, text: string, at: nat)
    | Return(tag: nat)

  function InsertedAt(ready: seq<Message>, at: nat, m: Message): seq<Message> {
    if at <= |ready| then ready[..at] + [m] + ready[at..] else ready + [m]
  }

  /** The broker settles a delivery; a tag it no longer knows is ignored. */
  function Settled(s: State, tag: nat, v: Verdict, at: nat): State {
    if tag !in s.unacked then s
    else
      var m := s.unacked[tag];
      var rest := s.(unacked := s.unacked - {tag});
      match v
      case Ack => rest.(acked := rest.acked + multiset{m})
      case Reject => DeadLettered(rest, MAIN_QUEUE, m)
      case Requeue => rest.(ready := InsertedAt(rest.ready, at, m))
  }

  function NextPc(h: Handler, o: Outcome, text: string): Pc {
    match h.pc
    case Start => if IsGood(h.msg) then Stat else Settle(Reject)
    case Stat => if o.Done? then Save else Republish(text)
    case Republish(why) => Settle(if o.Done? && why == INVALID_USER_TEXT then Reject else Requeue)
    case Save => Settle(if o.Done? then Ack else Requeue)
    case Settle(_) => Returning
    case Returning => Returning
  }

  /** One call of a handler; `text` is the error text of a failed stat, `at` where a requeued message goes. */
  function AdvanceHandler(s: State, tag: nat, o: Outcome, text: string, at: nat): State
    requires tag in s.running
  {
    var h := s.running[tag];
    var after :=
      match h.pc
      case Republish(_) =>
        if o.Lost? then s else Enqueued(s.(copies := s.copies + multiset{h.msg}), RETRY_QUEUE, h.msg)
      case Save => if o.Lost? then s else s.(saved := s.saved + multiset{h.msg})
      case Settle(v) => if o.Lost? then s else Settled(s, tag, v, at)
      case _ => s;
    after.(running :=
      if h.pc.Returning? then s.running - {tag} else s.running[tag := h.(pc := NextPc(h, o, text))])
  }

  function Step(s: State, e: Event): State {
    match e
    case Tick(ms) => s.(now := s.now + ms)
    case PublishSave(m) => Enqueued(s.(published := s.published + multiset{m}), MAIN_QUEUE, m)
    case Expire =>
      if s.retry == [] || s.now < s.retry[0].due then s
      else DeadLettered(s.(retry := s.retry[1..]), RETRY_QUEUE, s.retry[0].msg)
    case Deliver =>
      if s.ready == [] || (s.concurrency > 0 && |s.unacked| >= s.concurrency) then s
      else s.(ready := s.ready[1..],
              unacked := s.unacked[s.nextTag := s.ready[0]],
              channel := s.channel[s.nextTag := s.ready[0]],
              nextTag := s.nextTag + 1)
    case Receive(tag) =>
      if tag !in s.channel || s.held.Some? then s
      else s.(channel := s.channel - {tag}, held := Some((tag, s.channel[tag])))
    case Spawn =>
      if s.held.None? || |s.running| >= s.concurrency then s
      else s.(held := None, running := s.running[s.held.value.0 := Handler(s.held.value.1, Start)])
    case Advance(tag, o, text, at) =>
      if tag in s.running then AdvanceHandler(s, tag, o, text, at) else s
    case Return(tag) => Settled(s, tag, Requeue, |s.ready|)
  }

  function Run(s: State, es: seq<Event>): State
    decreases |es|
  {
    if es == [] then s else Run(Step(s, es[0]), es[1..])
  }

  /** The broker delivers the first ready message exactly while the prefetch count leaves room; zero is no limit. */
  lemma DeliversExactly(s: State)
    ensures var s' := Step(s, Deliver);
      if s.ready != [] && (s.concurrency == 0 || |s.unacked| < s.concurrency)
      then s'.ready == s.ready[1..] && s'.unacked == s.unacked[s.nextTag := s.ready[0]]
      else s' == s
  {
  }

  /** A republished message waits for a second: it goes back, at the head of the retry queue, exactly from then on. */
  lemma RetryWaitsOneSecond(s: State, tag: nat, o: Outcome, text: string, at: nat, ms: nat)
    requires s.retry == [] && tag in s.running && s.running[tag].pc.Republish? && !o.Lost?
    ensures var s' := Step(Step(Step(s, Advance(tag, o, text, at)), Tick(ms)), Expire);
      if ms >= 1000 then s'.retry == [] && s'.ready == s.ready + [s.running[tag].msg]
      else s'.ready == s.ready && s'.retry == [Delayed(s.running[tag].msg, s.now + 1000)]
  {
    var m := s.running[tag].msg;
    RepublishedIsDelayed(s, tag, o, text, at);
    hide AdvanceHandler, Settled, Enqueued, DeadLettered;
    var s1 := Step(s, Advance(tag, o, text, at));
    var s2 := Step(s1, Tick(ms));
    assert s2 == s1.(now := s.now + ms);
    ExpiryIs(s2);
  }

  lemma RepublishedIsDelayed(s: State, tag: nat, o: Outcome, text: string, at: nat)
    requires tag in s.running && s.running[tag].pc.Republish? && !o.Lost?
    ensures var s' := Step(s, Advance(tag, o, text, at));
      && s'.ready == s.ready && s'.now == s.now
      && s'.retry == s.retry + [Delayed(s.running[tag].msg, s.now + 1000)]
  {
    hide Settled, InsertedAt, NextPc, DeadLettered;
    EveryQueueHasItsPartner();
  }

  lemma ExpiryIs(s: State)
    requires s.retry != []
    ensures var s' := Step(s, Expire);
      if s.now >= s.retry[0].due then s'.retry == s.retry[1..] && s'.ready == s.ready + [s.retry[0].msg]
      else s' == s
  {
    hide AdvanceHandler, Settled;
    EveryQueueHasItsPartner();
    if s.now >= s.retry[0].due {
      assert Step(s, Expire) == Enqueued(s.(retry := s.retry[1..]), MAIN_QUEUE, s.retry[0].msg);
    }
  }

  // ---------- the pool ----------

  /** A prefetch count of zero means no limit to the broker, but nothing then gets past the semaphore. */
  ghost predicate Bounded(s: State) {
    |s.running| <= s.concurrency && (s.concurrency > 0 ==> |s.unacked| <= s.concurrency)
  }

  lemma {:induction false} PoolIsBounded(s: State, es: seq<Event>)
    requires Bounded(s)
    ensures Bounded(Run(s, es)) && Run(s, es).concurrency == s.concurrency
    decreases |es|
  {
    if es != [] {
      StepKeepsBounds(s, es[0]);
      PoolIsBounded(Step(s, es[0]), es[1..]);
    }
  }

  /** Settling takes at most the delivery itself out of the unacknowledged ones, and touches no handler. */
  lemma SettledFrame(s: State, tag: nat, v: Verdict, at: nat)
    ensures var s' := Settled(s, tag, v, at);
      && s'.unacked == s.unacked - {tag}
      && s'.running == s.running && s'.concurrency == s.concurrency
      && s'.channel == s.channel && s'.held == s.held && s'.nextTag == s.nextTag
  {
    hide Enqueued, DeadLettered;
  }

  lemma FewerAfterRemoval<T>(m: map<nat, T>, k: nat)
    ensures |m - {k}| <= |m|
  {
    assert (m - {k}).Keys == m.Keys - {k};
  }

  lemma AdvanceFrame(s: State, tag: nat, o: Outcome, text: string, at: nat)
    requires tag in s.running
    ensures var s', h := AdvanceHandler(s, tag, o, text, at), s.running[tag];
      && s'.unacked == (if h.pc.Settle? && !o.Lost? then s.unacked - {tag} else s.unacked)
      && s'.running ==
           (if h.pc.Returning? then s.running - {tag} else s.running[tag := h.(pc := NextPc(h, o, text))])
      && s'.concurrency == s.concurrency
      && s'.channel == s.channel && s'.held == s.held && s'.nextTag == s.nextTag
  {
    hide Enqueued, DeadLettered, Settled;
    var h := s.running[tag];
    if h.pc.Settle? {
      SettledFrame(s, tag, h.pc.verdict, at);
    }
  }

  lemma AdvanceKeepsBounds(s: State, tag: nat, o: Outcome, text: string, at: nat)
    requires Bounded(s) && tag in s.running
    ensures var s' := AdvanceHandler(s, tag, o, text, at); Bounded(s') && s'.concurrency == s.concurrency
  {
    hide AdvanceHandler;
    AdvanceFrame(s, tag, o, text, at);
    FewerAfterRemoval(s.unacked, tag);
    FewerAfterRemoval(s.running, tag);
    var h := s.running[tag];
    assert s.running[tag := h.(pc := NextPc(h, o, text))].Keys == s.running.Keys;
  }

  lemma StepKeepsBounds(s: State, e: Event)
    requires Bounded(s)
    ensures Bounded(Step(s, e)) && Step(s, e).concurrency == s.concurrency
  {
    hide Enqueued, DeadLettered, Settled, AdvanceHandler;
    if e.Advance? && e.tag in s.running {
      AdvanceKeepsBounds(s, e.tag, e.o, e.text, e.at);
    } else if e.Return? {
      SettledFrame(s, e.tag, Requeue, |s.ready|);
      FewerAfterRemoval(s.unacked, e.tag);
    }
  }

  // ---------- where every copy is ----------

  function Waiting(retry: seq<Delayed>, m: Message): nat {
    if retry == [] then 0 else (if retry[0].msg == m then 1 else 0) + Waiting(retry[1..], m)
  }

  ghost function TagsOf(unacked: map<nat, Message>, m: Message): set<nat> {
    set t | t in unacked && unacked[t] == m
  }

  /** Copies of `m` that can still be delivered or settled. */
  ghost function LiveCopies(s: State, m: Message): nat {
    multiset(s.ready)[m] + Waiting(s.retry, m) + |TagsOf(s.unacked, m)|
  }

  /** Every copy of `m` there is, wherever it ended up. */
  ghost function AllCopies(s: State, m: Message): nat {
    LiveCopies(s, m) + s.acked[m] + s.dead[m]
  }

  lemma {:induction false} WaitingAppends(retry: seq<Delayed>, d: Delayed, m: Message)
    ensures Waiting(retry + [d], m) == Waiting(retry, m) + (if d.msg == m then 1 else 0)
  {
    if retry != [] {
      assert (retry + [d])[1..] == retry[1..] + [d];
      WaitingAppends(retry[1..], d, m);
    }
  }

  /** Entering any queue of the pipeline adds exactly one copy. */
  lemma EnqueuedAddsOne(s: State, queue: string, m0: Message, m: Message)
    requires queue == MAIN_QUEUE || queue == RETRY_QUEUE || queue == DeadOf(MAIN_QUEUE)
    ensures AllCopies(Enqueued(s, queue, m0), m) == AllCopies(s, m) + (if m0 == m then 1 else 0)
    ensures queue != DeadOf(MAIN_QUEUE) ==>
      LiveCopies(Enqueued(s, queue, m0), m) == LiveCopies(s, m) + (if m0 == m then 1 else 0)
  {
    if queue == RETRY_QUEUE {
      var due := Enqueued(s, queue, m0).retry[|s.retry|].due;
      WaitingAppends(s.retry, Delayed(m0, due), m);
    }
  }

  lemma TagsWithout(unacked: map<nat, Message>, t: nat, m: Message)
    requires t in unacked
    ensures |TagsOf(unacked, m)| == |TagsOf(unacked - {t}, m)| + (if unacked[t] == m then 1 else 0)
  {
    assert TagsOf(unacked, m) == TagsOf(unacked - {t}, m) + (if unacked[t] == m then {t} else {});
  }

  lemma InsertionCounts(ready: seq<Message>, at: nat, m0: Message, m: Message)
    ensures multiset(InsertedAt(ready, at, m0))[m] == multiset(ready)[m] + (if m0 == m then 1 else 0)
  {
    if at <= |ready| {
      assert ready == ready[..at] + ready[at..];
    }
  }

  lemma DeadLetterIsAppended(s: State, m: Message)
    ensures DeadLettered(s, MAIN_QUEUE, m) == s.(dead := s.dead + multiset{m})
  {
    assert DeadLettered(s, MAIN_QUEUE, m) == Enqueued(s, DeadOf(MAIN_QUEUE), m);
  }

  /** Settling a delivery moves its copy and neither makes nor loses one. */
  lemma SettlingMovesOne(s: State, tag: nat, v: Verdict, at: nat, m: Message)
    ensures AllCopies(Settled(s, tag, v, at), m) == AllCopies(s, m)
    ensures v.Requeue? ==> LiveCopies(Settled(s, tag, v, at), m) == LiveCopies(s, m)
  {
    hide DeadLettered, InsertedAt;
    if tag in s.unacked {
      var m0 := s.unacked[tag];
      TagsWithout(s.unacked, tag, m);
      match v
      case Ack =>
      case Reject => DeadLetterIsAppended(s.(unacked := s.unacked - {tag}), m0);
      case Requeue => InsertionCounts(s.ready, at, m0, m);
    }
  }

  /** Delivery tags are used once, and whoever refers to a delivery refers to the same body. */
  ghost predicate Tagged(s: State) {
    && (forall t :: t in s.unacked || t in s.channel || t in s.running ==> t < s.nextTag)
    && (s.held.Some? ==> s.held.value.0 < s.nextTag && s.held.value.0 !in s.channel && s.held.value.0 !in s.running)
    && (forall t :: t in s.channel ==> t !in s.running)
    && (forall t :: t in s.unacked && t in s.channel ==> s.unacked[t] == s.channel[t])
    && (forall t :: t in s.unacked && t in s.running ==> s.unacked[t] == s.running[t].msg)
    && (s.held.Some? && s.held.value.0 in s.unacked ==> s.unacked[s.held.value.0] == s.held.value.1)
  }

  lemma AdvanceKeepsTagged(s: State, tag: nat, o: Outcome, text: string, at: nat)
    requires Tagged(s) && tag in s.running
    ensures Tagged(AdvanceHandler(s, tag, o, text, at))
  {
    hide AdvanceHandler;
    AdvanceFrame(s, tag, o, text, at);
  }

  lemma ReturnKeepsTagged(s: State, tag: nat, at: nat)
    requires Tagged(s)
    ensures Tagged(Settled(s, tag, Requeue, at))
  {
    hide Settled;
    SettledFrame(s, tag, Requeue, at);
  }

  lemma DeliverKeepsTagged(s: State)
    requires Tagged(s)
    ensures Tagged(Step(s, Deliver))
  {
    hide Enqueued, DeadLettered, Settled, AdvanceHandler;
  }

  lemma ReceiveKeepsTagged(s: State, tag: nat)
    requires Tagged(s)
    ensures Tagged(Step(s, Receive(tag)))
  {
    hide Enqueued, DeadLettered, Settled, AdvanceHandler;
  }

  lemma SpawnKeepsTagged(s: State)
    requires Tagged(s)
    ensures Tagged(Step(s, Spawn))
  {
    hide Enqueued, DeadLettered, Settled, AdvanceHandler;
  }

  lemma StepKeepsTagged(s: State, e: Event)
    requires Tagged(s)
    ensures Tagged(Step(s, e))
  {
    hide Enqueued, DeadLettered, Settled, AdvanceHandler;
    match e
    case Advance(tag, o, text, at) =>
      if tag in s.running {
        AdvanceKeepsTagged(s, tag, o, text, at);
      }
    case Return(tag) => ReturnKeepsTagged(s, tag, |s.ready|);
    case Deliver => DeliverKeepsTagged(s);
    case Receive(tag) => ReceiveKeepsTagged(s, tag);
    case Spawn => SpawnKeepsTagged(s);
    case _ =>
  }

  lemma ExpiryMovesOne(s: State, m: Message)
    ensures LiveCopies(Step(s, Expire), m) == LiveCopies(s, m)
    ensures var s' := Step(s, Expire);
      s'.acked == s.acked && s'.dead == s.dead && s'.published == s.published && s'.copies == s.copies
  {
    if s.retry != [] && s.now >= s.retry[0].due {
      var rest := s.(retry := s.retry[1..]);
      assert Step(s, Expire) == Enqueued(rest, MAIN_QUEUE, s.retry[0].msg);
      EnqueuedAddsOne(rest, MAIN_QUEUE, s.retry[0].msg, m);
    }
  }

  lemma StepKeepsAccount(s: State, e: Event, m: Message)
    requires Tagged(s)
    requires AllCopies(s, m) == s.published[m] + s.copies[m]
    ensures var s' := Step(s, e); AllCopies(s', m) == s'.published[m] + s'.copies[m]
  {
    hide DeadLettered, Settled, AdvanceHandler, Enqueued;
    match e
    case Tick(_) =>
    case PublishSave(m0) => EnqueuedAddsOne(s.(published := s.published + multiset{m0}), MAIN_QUEUE, m0, m);
    case Expire => ExpiryMovesOne(s, m);
    case Deliver => DeliveryMovesOne(s, m);
    case Receive(_) =>
    case Spawn =>
    case Advance(tag, o, text, at) =>
      if tag in s.running {
        AdvanceKeepsAccount(s, tag, o, text, at, m);
      }
    case Return(tag) => ReturnMovesOne(s, tag, m);
  }

  lemma ReturnMovesOne(s: State, tag: nat, m: Message)
    ensures var s' := Step(s, Return(tag));
      && AllCopies(s', m) == AllCopies(s, m) && s'.published == s.published && s'.copies == s.copies
      && s'.dead == s.dead && s'.acked == s.acked && s'.saved == s.saved
  {
    SettlingMovesOne(s, tag, Requeue, |s.ready|, m);
  }

  lemma SettledCounters(s: State, tag: nat, v: Verdict, at: nat, m: Message)
    ensures var s' := Settled(s, tag, v, at);
      var mine := tag in s.unacked && s.unacked[tag] == m;
      && s'.saved == s.saved && s'.copies == s.copies && s'.published == s.published
      && s'.acked[m] == s.acked[m] + (if mine && v.Ack? then 1 else 0)
      && s'.dead[m] == s.dead[m] + (if mine && v.Reject? then 1 else 0)
  {
    if tag in s.unacked && v.Reject? {
      var rest := s.(unacked := s.unacked - {tag});
      assert Settled(s, tag, v, at) == Enqueued(rest, DeadOf(MAIN_QUEUE), s.unacked[tag]);
    }
  }

  lemma NextTagIsFree(s: State)
    requires Tagged(s)
    ensures s.nextTag !in s.unacked
  {
  }

  lemma DeliveryMovesOne(s: State, m: Message)
    requires Tagged(s)
    ensures LiveCopies(Step(s, Deliver), m) == LiveCopies(s, m)
  {
    hide Enqueued, DeadLettered, Settled, AdvanceHandler, Tagged, Waiting;
    var s' := Step(s, Deliver);
    assert s.nextTag !in s.unacked by {
      NextTagIsFree(s);
    }
    if s.ready != [] && (s.concurrency == 0 || |s.unacked| < s.concurrency) {
      assert s.ready == [s.ready[0]] + s.ready[1..];
      TagsWithout(s'.unacked, s.nextTag, m);
      assert s'.unacked - {s.nextTag} == s.unacked;
    }
  }

  lemma RepublishAddsOne(s: State, tag: nat, o: Outcome, text: string, at: nat, m: Message)
    requires tag in s.running && s.running[tag].pc.Republish?
    ensures var s', n := AdvanceHandler(s, tag, o, text, at), if s.running[tag].msg == m && !o.Lost? then 1 else 0;
      && AllCopies(s', m) == AllCopies(s, m) + n && LiveCopies(s', m) == LiveCopies(s, m) + n
      && s'.copies[m] == s.copies[m] + n && s'.published == s.published && s'.dead[m] == s.dead[m]
  {
    var m0 := s.running[tag].msg;
    EnqueuedAddsOne(s.(copies := s.copies + multiset{m0}), RETRY_QUEUE, m0, m);
  }

  lemma HandlersHoldNoCopies(s: State, s': State, m: Message)
    requires s' == s.(running := s'.running)
    ensures LiveCopies(s', m) == LiveCopies(s, m) && AllCopies(s', m) == AllCopies(s, m)
  {
  }

  lemma SettleMovesOne(s: State, tag: nat, o: Outcome, text: string, at: nat, m: Message)
    requires tag in s.running && s.running[tag].pc.Settle?
    ensures var s' := AdvanceHandler(s, tag, o, text, at);
      && AllCopies(s', m) == AllCopies(s, m)
      && (s.running[tag].pc.verdict.Requeue? ==> LiveCopies(s', m) == LiveCopies(s, m))
      && s'.copies == s.copies && s'.published == s.published
  {
    hide Settled, LiveCopies, AllCopies;
    var v := s.running[tag].pc.verdict;
    SettlingMovesOne(s, tag, v, at, m);
    SettledCounters(s, tag, v, at, m);
    HandlersHoldNoCopies(if o.Lost? then s else Settled(s, tag, v, at), AdvanceHandler(s, tag, o, text, at), m);
  }

  lemma AdvanceKeepsAccount(s: State, tag: nat, o: Outcome, text: string, at: nat, m: Message)
    requires tag in s.running
    requires AllCopies(s, m) == s.published[m] + s.copies[m]
    ensures var s' := AdvanceHandler(s, tag, o, text, at); AllCopies(s', m) == s'.published[m] + s'.copies[m]
  {
    var h := s.running[tag];
    if h.pc.Republish? {
      RepublishAddsOne(s, tag, o, text, at, m);
    } else if h.pc.Settle? {
      SettleMovesOne(s, tag, o, text, at, m);
    }
  }

  lemma {:induction false} AccountFrom(s: State, es: seq<Event>, m: Message)
    requires Tagged(s)
    requires AllCopies(s, m) == s.published[m] + s.copies[m]
    ensures Tagged(Run(s, es))
    ensures AllCopies(Run(s, es), m) == Run(s, es).published[m] + Run(s, es).copies[m]
    decreases |es|
  {
    if es != [] {
      StepKeepsTagged(s, es[0]);
      StepKeepsAccount(s, es[0], m);
      AccountFrom(Step(s, es[0]), es[1..], m);
    }
  }

  /**
   Message accounting, at every step of every run and for every body: copies ready, waiting to be retried,
   unacknowledged, acknowledged and dead are exactly the published ones and the republished ones; and never
   more than `concurrency` handlers run.
   */
  lemma EveryCopyIsAccountedFor(concurrency: nat, now: int, es: seq<Event>, m: Message)
    ensures var s := Run(Initial(concurrency, now), es);
      && multiset(s.ready)[m] + Waiting(s.retry, m) + |TagsOf(s.unacked, m)| + s.acked[m] + s.dead[m]
           == s.published[m] + s.copies[m]
      && |s.running| <= concurrency
  {
    var s := Initial(concurrency, now);
    assert TagsOf(s.unacked, m) == {};
    AccountFrom(s, es, m);
    PoolIsBounded(s, es);
  }

  // ---------- who is acknowledged, who is dead ----------

  predicate IsPending(h: Handler, v: Verdict, m: Message) {
    h.pc == Settle(v) && h.msg == m
  }

  /** Handlers about to settle a copy of `m` as `v`. */
  ghost function Pending(running: map<nat, Handler>, v: Verdict, m: Message): set<nat> {
    set t | t in running && IsPending(running[t], v, m)
  }

  lemma PendingWithout(running: map<nat, Handler>, t: nat, v: Verdict, m: Message)
    requires t in running
    ensures |Pending(running, v, m)| == |Pending(running - {t}, v, m)| + (if IsPending(running[t], v, m) then 1 else 0)
  {
    hide IsPending;
    var rest := running - {t};
    assert forall x :: x in rest <==> x in running && x != t;
    assert forall x :: x in rest ==> rest[x] == running[x];
    if IsPending(running[t], v, m) {
      assert Pending(running, v, m) == Pending(rest, v, m) + {t};
    } else {
      assert Pending(running, v, m) == Pending(rest, v, m);
    }
  }

  lemma PendingAfter(running: map<nat, Handler>, t: nat, h: Handler, v: Verdict, m: Message)
    ensures |Pending(running[t := h], v, m)| ==
      |Pending(running, v, m)| + (if IsPending(h, v, m) then 1 else 0)
        - (if t in running && IsPending(running[t], v, m) then 1 else 0)
  {
    PendingWithout(running[t := h], t, v, m);
    assert running[t := h] - {t} == running - {t};
    if t in running {
      PendingWithout(running, t, v, m);
    } else {
      assert running - {t} == running;
    }
  }

  predicate NeedsGood(pc: Pc) {
    pc.Stat? || pc.Republish? || pc.Save? || pc == Settle(Ack) || pc == Settle(Requeue)
  }

  /** Every settled or settling copy of `m` was earned: an ack by a save, a rejection of a good body by a copy. */
  ghost predicate Earned(s: State, m: Message) {
    && s.acked[m] + |Pending(s.running, Ack, m)| <= s.saved[m]
    && (IsGood(m) ==> s.dead[m] + |Pending(s.running, Reject, m)| <= s.copies[m])
    && (!IsGood(m) ==> s.acked[m] == 0)
    && (forall t :: t in s.running && NeedsGood(s.running[t].pc) ==> IsGood(s.running[t].msg))
  }

  /** What one call of a handler does to the counters that `Earned` compares. */
  lemma AdvanceCounters(s: State, tag: nat, o: Outcome, text: string, at: nat, m: Message)
    requires Tagged(s) && tag in s.running
    ensures var s', h := AdvanceHandler(s, tag, o, text, at), s.running[tag];
      var mine := h.msg == m && !o.Lost?;
      && s'.saved[m] == s.saved[m] + (if mine && h.pc.Save? then 1 else 0)
      && s'.copies[m] == s.copies[m] + (if mine && h.pc.Republish? then 1 else 0)
      && s.acked[m] <= s'.acked[m] <= s.acked[m] + (if mine && h.pc == Settle(Ack) then 1 else 0)
      && s.dead[m] <= s'.dead[m] <= s.dead[m] + (if mine && h.pc == Settle(Reject) then 1 else 0)
  {
    hide Settled, Enqueued, DeadLettered;
    var h := s.running[tag];
    if h.pc.Settle? {
      SettledCounters(s, tag, h.pc.verdict, at, m);
    }
  }

  lemma PendingAfterAdvance(s: State, tag: nat, o: Outcome, text: string, at: nat, v: Verdict, m: Message)
    requires tag in s.running
    ensures var s', h := AdvanceHandler(s, tag, o, text, at), s.running[tag];
      |Pending(s'.running, v, m)| == |Pending(s.running, v, m)|
        + (if NextPc(h, o, text) == Settle(v) && h.msg == m then 1 else 0)
        - (if IsPending(h, v, m) then 1 else 0)
  {
    hide AdvanceHandler;
    AdvanceFrame(s, tag, o, text, at);
    var h := s.running[tag];
    if h.pc.Returning? {
      PendingWithout(s.running, tag, v, m);
    } else {
      PendingAfter(s.running, tag, h.(pc := NextPc(h, o, text)), v, m);
    }
  }

  lemma AdvanceKeepsEarned(s: State, tag: nat, o: Outcome, text: string, at: nat, m: Message)
    requires Tagged(s) && Earned(s, m) && tag in s.running
    ensures Earned(AdvanceHandler(s, tag, o, text, at), m)
  {
    hide AdvanceHandler, Pending;
    AdvanceCounters(s, tag, o, text, at, m);
    PendingAfterAdvance(s, tag, o, text, at, Ack, m);
    PendingAfterAdvance(s, tag, o, text, at, Reject, m);
    AdvanceFrame(s, tag, o, text, at);
  }

  lemma SpawnKeepsEarned(s: State, m: Message)
    requires Tagged(s) && Earned(s, m)
    ensures Earned(Step(s, Spawn), m)
  {
    if s.held.Some? {
      PendingAfter(s.running, s.held.value.0, Handler(s.held.value.1, Start), Ack, m);
      PendingAfter(s.running, s.held.value.0, Handler(s.held.value.1, Start), Reject, m);
    }
  }

  lemma StepKeepsEarned(s: State, e: Event, m: Message)
    requires Tagged(s) && Earned(s, m)
    ensures Earned(Step(s, e), m)
  {
    hide AdvanceHandler, Settled, DeadLettered, Enqueued, Pending;
    match e
    case Advance(tag, o, text, at) =>
      if tag in s.running {
        AdvanceKeepsEarned(s, tag, o, text, at, m);
      }
    case Spawn => SpawnKeepsEarned(s, m);
    case Return(tag) =>
      ReturnMovesOne(s, tag, m);
      SettledFrame(s, tag, Requeue, |s.ready|);
    case Expire => ExpiryMovesOne(s, m);
    case _ =>
  }

  lemma {:induction false} EarnedFrom(s: State, es: seq<Event>, m: Message)
    requires Tagged(s) && Earned(s, m)
    ensures Earned(Run(s, es), m)
    decreases |es|
  {
    if es != [] {
      StepKeepsTagged(s, es[0]);
      StepKeepsEarned(s, es[0], m);
      EarnedFrom(Step(s, es[0]), es[1..], m);
    }
  }

  /**
   A message is acknowledged only after its metadata was saved, a bad one never; and a good message is never
   lost: its live and acknowledged copies never number fewer than its publications.
   */
  lemma GoodMessagesAreNeverLost(concurrency: nat, now: int, es: seq<Event>, m: Message)
    ensures var s := Run(Initial(concurrency, now), es);
      && s.acked[m] <= s.saved[m]
      && (!IsGood(m) ==> s.acked[m] == 0)
      && (IsGood(m) ==> LiveCopies(s, m) + s.acked[m] >= s.published[m])
  {
    var s := Initial(concurrency, now);
    assert Pending(s.running, Ack, m) == {} && Pending(s.running, Reject, m) == {};
    EarnedFrom(s, es, m);
    EveryCopyIsAccountedFor(concurrency, now, es, m);
  }

  // ---------- dead letters ----------

  ghost predicate OnlyBadDie(s: State) {
    && (forall m :: m in s.dead ==> !IsGood(m))
    && (forall t :: t in s.running && s.running[t].pc == Settle(Reject) ==> !IsGood(s.running[t].msg))
    && (forall t :: t in s.running && s.running[t].pc.Republish? ==> s.running[t].pc.text != INVALID_USER_TEXT)
  }

  lemma StepKeepsOnlyBadDie(s: State, e: Event)
    requires Tagged(s) && OnlyBadDie(s)
    requires e.Advance? ==> e.text != INVALID_USER_TEXT
    ensures OnlyBadDie(Step(s, e))
  {
    hide Step, NextPc, AdvanceHandler;
    forall m | m in Step(s, e).dead
      ensures !IsGood(m)
    {
      DeadAfter(s, e, m);
    }
    if !e.Advance? {
      forall t | t in Step(s, e).running
        ensures var h := Step(s, e).running[t]; h.pc.Start? || (t in s.running && s.running[t] == h)
      {
        OthersStayOrStart(s, e, t);
      }
    } else {
      AdvanceOnly(s, e);
      if e.tag in s.running {
        AdvanceFrame(s, e.tag, e.o, e.text, e.at);
        ReasonsToReject(s.running[e.tag], e.o, e.text);
      }
    }
  }

  /** A handler rejects a bad body, or one whose stat failed with the text of a bad user id. */
  lemma ReasonsToReject(h: Handler, o: Outcome, text: string)
    ensures NextPc(h, o, text) == Settle(Reject) ==>
      (h.pc.Start? && !IsGood(h.msg)) || (h.pc.Republish? && h.pc.text == INVALID_USER_TEXT)
    ensures NextPc(h, o, text).Republish? ==> NextPc(h, o, text).text == text
  {
  }

  lemma DeadAfter(s: State, e: Event, m: Message)
    requires Tagged(s)
    ensures m in Step(s, e).dead ==>
      m in s.dead || (e.Advance? && e.tag in s.running && s.running[e.tag] == Handler(m, Settle(Reject)))
  {
    hide AdvanceHandler, Settled, DeadLettered, Enqueued, Tagged;
    match e
    case Advance(tag, o, text, at) =>
      if tag in s.running {
        AdvanceCounters(s, tag, o, text, at, m);
      }
    case Return(tag) => ReturnMovesOne(s, tag, m);
    case Expire => ExpiryMovesOne(s, m);
    case PublishSave(m0) =>
      assert Step(s, e).dead == s.dead;
    case _ =>
  }

  /** Apart from advancing, the only change to the handlers is a new one at its start. */
  lemma OthersStayOrStart(s: State, e: Event, t: nat)
    requires !e.Advance? && t in Step(s, e).running
    ensures var h := Step(s, e).running[t]; h.pc.Start? || (t in s.running && s.running[t] == h)
  {
    hide AdvanceHandler, Settled, DeadLettered, Enqueued, NextPc;
    if e.Return? {
      SettledFrame(s, e.tag, Requeue, |s.ready|);
    }
  }

  lemma AdvanceOnly(s: State, e: Event)
    requires e.Advance?
    ensures Step(s, e) == if e.tag in s.running then AdvanceHandler(s, e.tag, e.o, e.text, e.at) else s
  {
    hide AdvanceHandler;
  }

  lemma {:induction false} OnlyBadDieFrom(s: State, es: seq<Event>)
    requires Tagged(s) && OnlyBadDie(s)
    requires forall i :: 0 <= i < |es| && es[i].Advance? ==> es[i].text != INVALID_USER_TEXT
    ensures OnlyBadDie(Run(s, es))
    decreases |es|
  {
    if es != [] {
      StepKeepsTagged(s, es[0]);
      StepKeepsOnlyBadDie(s, es[0]);
      OnlyBadDieFrom(Step(s, es[0]), es[1..]);
    }
  }

  /**
   Unless a failed stat reports exactly the text "invalid user id", only garbled bodies and bad user ids
   are dead-lettered.
   */
  lemma {:induction false} DeadLettersAreBad(concurrency: nat, now: int, es: seq<Event>, m: Message)
    requires forall i :: 0 <= i < |es| && es[i].Advance? ==> es[i].text != INVALID_USER_TEXT
    requires m in Run(Initial(concurrency, now), es).dead
    ensures !IsGood(m)
  {
    hide Run;
    OnlyBadDieFrom(Initial(concurrency, now), es);
  }

  /**
   A failed stat whose copy was queued leaves, once the delivery is settled, one more live copy than before
   and every other body as it was; only the text "invalid user id" makes the original die, leaving the copy
   in its place.
   */
  lemma {:induction false} FailedStatAddsOneCopy(s: State, tag: nat, text: string, at: nat, m: Message)
    requires Tagged(s) && tag in s.running && tag in s.unacked && s.running[tag].pc.Stat?
    ensures var es := [Advance(tag, Lost, text, at), Advance(tag, Done, "", at), Advance(tag, Done, "", at)];
      var s' := Run(s, es);
      && LiveCopies(s', m) == LiveCopies(s, m) + (if s.running[tag].msg == m && text != INVALID_USER_TEXT then 1 else 0)
      && s'.dead[m] == s.dead[m] + (if s.running[tag].msg == m && text == INVALID_USER_TEXT then 1 else 0)
      && tag !in s'.unacked
  {
    hide Run, AdvanceHandler, Settled, Enqueued, DeadLettered, LiveCopies;
    RunThree(s, Advance(tag, Lost, text, at), Advance(tag, Done, "", at), Advance(tag, Done, "", at));
    var s1 := AfterFailedStat(s, tag, text, at);
    var s2 := AdvanceHandler(s1, tag, Done, "", at);
    HandlersHoldNoCopies(s, s1, m);
    RepublishAddsOne(s1, tag, Done, "", at, m);
    AdvanceFrame(s1, tag, Done, "", at);
    AdvanceKeepsTagged(s1, tag, Done, "", at);
    LastCallSettles(s2, tag, at, m);
  }

  lemma {:induction false} RunThree(s: State, e1: Event, e2: Event, e3: Event)
    ensures Run(s, [e1, e2, e3]) == Step(Step(Step(s, e1), e2), e3)
  {
    hide Step;
    var s1 := Step(s, e1);
    var s2 := Step(s1, e2);
    assert Run(s, [e1, e2, e3]) == Run(s1, [e2, e3]) == Run(s2, [e3]) == Run(Step(s2, e3), []);
  }

  function AfterFailedStat(s: State, tag: nat, text: string, at: nat): (s1: State)
    requires tag in s.running && s.running[tag].pc.Stat?
    ensures s1 == s.(running := s.running[tag := s.running[tag].(pc := Republish(text))])
  {
    AdvanceHandler(s, tag, Lost, text, at)
  }

  lemma LastCallSettles(s: State, tag: nat, at: nat, m: Message)
    requires Tagged(s) && tag in s.running && tag in s.unacked
    requires s.running[tag].pc == Settle(Requeue) || s.running[tag].pc == Settle(Reject)
    ensures var s', mine := AdvanceHandler(s, tag, Done, "", at), s.running[tag].msg == m;
      var dies := if mine && s.running[tag].pc == Settle(Reject) then 1 else 0;
      && LiveCopies(s', m) == LiveCopies(s, m) - dies
      && s'.dead[m] == s.dead[m] + dies && tag !in s'.unacked
  {
    hide Settled, Enqueued, DeadLettered;
    var v := s.running[tag].pc.verdict;
    SettlingMovesOne(s, tag, v, at, m);
    SettledCounters(s, tag, v, at, m);
    SettledFrame(s, tag, v, at);
    var after, s' := Settled(s, tag, v, at), AdvanceHandler(s, tag, Done, "", at);
    assert LiveCopies(s', m) == LiveCopies(after, m);
  }

  /** The event makes a copy of `m` a dead letter: a known delivery of it is rejected, and the broker hears it. */
  predicate DiesNow(s: State, e: Event, m: Message) {
    && e.Advance? && e.tag in s.running && s.running[e.tag] == Handler(m, Settle(Reject))
    && e.tag in s.unacked && !e.o.Lost?
  }

  lemma DeadGrows(s: State, e: Event, m: Message)
    requires Tagged(s)
    ensures Step(s, e).dead[m] == s.dead[m] + (if DiesNow(s, e, m) then 1 else 0)
  {
    hide Settled, DeadLettered, Enqueued;
    match e
    case Advance(tag, o, text, at) =>
      if tag in s.running && s.running[tag].pc.Settle? {
        SettledCounters(s, tag, s.running[tag].pc.verdict, at, m);
      } else if tag in s.running && s.running[tag].pc.Republish? {
        RepublishAddsOne(s, tag, o, text, at, m);
      }
    case Return(tag) => ReturnMovesOne(s, tag, m);
    case Expire => ExpiryMovesOne(s, m);
    case PublishSave(m0) => assert Step(s, e).dead == s.dead;
    case _ =>
  }

  /**
   In every reachable state: a copy of a good message becomes a dead letter exactly when its handler rejects a
   delivery the broker still knows, and a handler of it comes to reject exactly by a republish that succeeds
   after a stat failed with the text "invalid user id".
   */
  lemma GoodIsDeadLetteredExactly(concurrency: nat, now: int, es: seq<Event>, e: Event, m: Message)
    requires IsGood(m)
    ensures var s := Run(Initial(concurrency, now), es);
      && Step(s, e).dead[m] == s.dead[m] + (if DiesNow(s, e, m) then 1 else 0)
      && (e.Advance? && e.tag in s.running && s.running[e.tag].msg == m ==>
            (NextPc(s.running[e.tag], e.o, e.text) == Settle(Reject) <==>
               s.running[e.tag].pc == Republish(INVALID_USER_TEXT) && e.o.Done?))
  {
    hide Run, Step;
    RunKeepsTagged(Initial(concurrency, now), es);
    DeadGrows(Run(Initial(concurrency, now), es), e, m);
  }

  lemma {:induction false} RunKeepsTagged(s: State, es: seq<Event>)
    requires Tagged(s)
    ensures Tagged(Run(s, es))
    decreases |es|
  {
    hide Tagged, Step;
    if es != [] {
      StepKeepsTagged(s, es[0]);
      RunKeepsTagged(Step(s, es[0]), es[1..]);
    }
  }

  lemma {:induction false} RunAppends(s: State, es: seq<Event>, more: seq<Event>)
    ensures Run(s, es + more) == Run(Run(s, es), more)
    decreases |es|
  {
    hide Step;
    if es == [] {
      assert es + more == more;
    } else {
      assert (es + more)[1..] == es[1..] + more;
      RunAppends(Step(s, es[0]), es[1..], more);
    }
  }

  function UpToStat(m: Message): seq<Event> {
    [PublishSave(m), Deliver, Receive(0), Spawn, Advance(0, Done, "", 0)]
  }

  /** The first message is where the arguments say, and nothing else is anywhere. */
  ghost predicate IsAlone(
    s: State, ready: seq<Message>, delivered: map<nat, Message>, channel: map<nat, Message>,
    held: Option<(nat, Message)>, running: map<nat, Handler>) {
    && s.concurrency > 0 && s.dead == multiset{} && s.nextTag == |delivered|
    && s.ready == ready && s.unacked == delivered && s.channel == channel && s.held == held && s.running == running
  }

  lemma IsPublished(concurrency: nat, now: int, m: Message)
    requires concurrency > 0
    ensures IsAlone(Step(Initial(concurrency, now), PublishSave(m)), [m], map[], map[], None, map[])
  {
    hide DeadLettered, Settled, AdvanceHandler;
  }

  lemma IsDelivered(s: State, m: Message)
    requires IsAlone(s, [m], map[], map[], None, map[])
    ensures IsAlone(Step(s, Deliver), [], map[0 := m], map[0 := m], None, map[])
  {
    hide DeadLettered, Settled, AdvanceHandler, Enqueued;
  }

  lemma IsReceived(s: State, m: Message)
    requires IsAlone(s, [], map[0 := m], map[0 := m], None, map[])
    ensures IsAlone(Step(s, Receive(0)), [], map[0 := m], map[], Some((0, m)), map[])
  {
    hide DeadLettered, Settled, AdvanceHandler, Enqueued;
  }

  lemma IsSpawned(s: State, m: Message)
    requires IsAlone(s, [], map[0 := m], map[], Some((0, m)), map[])
    ensures IsAlone(Step(s, Spawn), [], map[0 := m], map[], None, map[0 := Handler(m, Start)])
  {
    hide DeadLettered, Settled, AdvanceHandler, Enqueued;
  }

  lemma IsStarted(s: State, m: Message)
    requires IsAlone(s, [], map[0 := m], map[], None, map[0 := Handler(m, Start)]) && IsGood(m)
    ensures IsAlone(Step(s, Advance(0, Done, "", 0)), [], map[0 := m], map[], None, map[0 := Handler(m, Stat)])
  {
    hide DeadLettered, Settled, Enqueued;
  }

  /** A good message on its way: published, delivered, received, and its handler about to stat. */
  lemma ReachesStat(concurrency: nat, now: int, m: Message)
    requires concurrency > 0 && IsGood(m)
    ensures var s := Run(Initial(concurrency, now), UpToStat(m));
      && s.running == map[0 := Handler(m, Stat)] && 0 in s.unacked && s.dead == multiset{}
  {
    hide Step, Run;
    var s0 := Initial(concurrency, now);
    RunFive(s0, UpToStat(m));
    var s1 := Step(s0, PublishSave(m));
    var s2 := Step(s1, Deliver);
    var s3 := Step(s2, Receive(0));
    IsPublished(concurrency, now, m);
    IsDelivered(s1, m);
    IsReceived(s2, m);
    IsSpawned(s3, m);
    IsStarted(Step(s3, Spawn), m);
  }

  lemma RunFive(s: State, es: seq<Event>)
    requires |es| == 5
    ensures Run(s, es) == Step(Step(Step(Step(Step(s, es[0]), es[1]), es[2]), es[3]), es[4])
  {
    hide Step;
    var s1 := Step(s, es[0]);
    var s2 := Step(s1, es[1]);
    assert es[1..][1..] == es[2..] && es[2..] == [es[2], es[3], es[4]];
    assert Run(s, es) == Run(s1, es[1..]) == Run(s2, es[2..]);
    RunThree(s2, es[2], es[3], es[4]);
  }

  /** So a good message does die, in a run from the beginning, of a stat with that text. */
  lemma GoodMessageDies(concurrency: nat, now: int, m: Message)
    requires concurrency > 0 && IsGood(m)
    ensures var stat := Advance(0, Lost, INVALID_USER_TEXT, 0);
      var es := UpToStat(m) + [stat, Advance(0, Done, "", 0), Advance(0, Done, "", 0)];
      Run(Initial(concurrency, now), es).dead[m] == 1
  {
    hide Run, Step, Tagged;
    var s0, stat, next := Initial(concurrency, now), Advance(0, Lost, INVALID_USER_TEXT, 0), Advance(0, Done, "", 0);
    ReachesStat(concurrency, now, m);
    InitialIsTagged(concurrency, now);
    RunKeepsTagged(s0, UpToStat(m));
    RunAppends(s0, UpToStat(m), [stat, next, next]);
    FailedStatAddsOneCopy(Run(s0, UpToStat(m)), 0, INVALID_USER_TEXT, 0, m);
  }

  lemma InitialIsTagged(concurrency: nat, now: int)
    ensures Tagged(Initial(concurrency, now))
  {
  }
}
