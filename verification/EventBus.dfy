/**
 The live event bus: bounded subscriber queues with eviction, event ids, and the activity state
 that status events carry.

 `Bus` holds the values of a bus whose queues are named by `Q`; the class names them by the queue
 objects themselves.
 */
module EventBus {

  datatype AgentState = Idle | Thinking

  /** What is emitted; `Other` is every type that belongs in history. */
  datatype Kind = Status(state: AgentState) | NotificationCleared(notifId: string) | Other(text: string)
  {
    predicate LiveOnly() {
      !Other?
    }
  }

  datatype Event = Event(kind: Kind, id: int)

  datatype Item = Live(event: Event) | Evicted

  /** The history write: kept, or dropped, perhaps after its row id was taken. */
  datatype Write = Kept | Dropped(taken: bool)

  const CAPACITY := 1000

  // ---------------------------------------------------------------- values

  /** What waits in a queue and what its reader already took. */
  datatype Queue = Queue(items: seq<Item>, consumed: seq<Item>)
  {
    predicate Full() {
      |items| >= CAPACITY
    }

    function All(): seq<Item> {
      consumed + items
    }
  }

  function Offered(q: Queue, event: Event): Queue {
    q.(items := if q.Full() then [Evicted] else q.items + [Live(event)])
  }

  datatype Bus<Q(==)> = Bus(
    state: AgentState, liveId: int, lastRow: nat, queues: map<Q, Queue>, subscribed: set<Q>)

  datatype Step<Q> =
    | Subscribe(q: Q)
    | Unsubscribe(q: Q)
    | Consume(q: Q)
    | Emit(kind: Kind, write: Write)
    | SetState(state: AgentState)

  predicate Stores(kind: Kind, write: Write, logging: bool) {
    !kind.LiveOnly() && logging && write.Kept?
  }

  function IdOf<Q(==)>(b: Bus<Q>, kind: Kind, write: Write, logging: bool): int {
    if Stores(kind, write, logging) then b.lastRow + 1 else b.liveId - 1
  }

  function Broadcasted<Q(==)>(queues: map<Q, Queue>, subscribed: set<Q>, event: Event): map<Q, Queue> {
    map q | q in queues :: if q in subscribed then Offered(queues[q], event) else queues[q]
  }

  function StillSubscribed<Q(==)>(queues: map<Q, Queue>, subscribed: set<Q>): set<Q> {
    set q | q in subscribed && (q in queues ==> !queues[q].Full())
  }

  function Emitting<Q(==)>(b: Bus<Q>, kind: Kind, write: Write, logging: bool): Bus<Q> {
    var event := Event(kind, IdOf(b, kind, write, logging));
    Bus(b.state,
      if Stores(kind, write, logging) then b.liveId else b.liveId - 1,
      if !kind.LiveOnly() && logging && (write.Kept? || write.taken) then b.lastRow + 1 else b.lastRow,
      Broadcasted(b.queues, b.subscribed, event), StillSubscribed(b.queues, b.subscribed))
  }

  function Next<Q(==)>(b: Bus<Q>, s: Step<Q>, logging: bool): Bus<Q> {
    match s
    case Subscribe(q) => b.(queues := b.queues[q := Queue([], [])], subscribed := b.subscribed + {q})
    case Unsubscribe(q) => b.(subscribed := b.subscribed - {q})
    case Consume(q) =>
      if q in b.queues && b.queues[q].items != [] then
        b.(queues := b.queues[q := Queue(b.queues[q].items[1..], b.queues[q].consumed + [b.queues[q].items[0]])])
      else b
    case Emit(kind, write) => Emitting(b, kind, write, logging)
    case SetState(state) => if state == b.state then b else Emitting(b.(state := state), Status(state), Kept, logging)
  }

  // ---------------------------------------------------------------- the bus as an object

  class Subscriber {
    var items: seq<Item>
    ghost var consumed: seq<Item>

    constructor ()
      ensures items == [] && consumed == []
    {
      items, consumed := [], [];
    }

    ghost function View(): Queue
      reads this
    {
      Queue(items, consumed)
    }

    method PutNowait(item: Item) returns (full: bool)
      modifies this
      ensures full <==> old(View()).Full()
      ensures View() == if full then old(View()) else Queue(old(items) + [item], old(consumed))
    {
      full := |items| >= CAPACITY;
      if !full {
        items := items + [item];
      }
    }

    method Get() returns (item: Item)
      requires items != []
      modifies this
      ensures item == old(items[0]) && View() == Queue(old(items[1..]), old(consumed) + [item])
    {
      item := items[0];
      items, consumed := items[1..], consumed + [item];
    }
  }

  class EventBus {
    const logging: bool
    var subscribers: set<Subscriber>
    var state: AgentState
    var liveId: int
    var lastRow: nat
    ghost var handedOut: set<Subscriber>

    constructor (logging: bool, lastRow: nat)
      ensures Valid() && View() == Bus(Idle, 0, lastRow, map[], {}) && this.logging == logging
    {
      this.logging, this.lastRow := logging, lastRow;
      subscribers, state, liveId, handedOut := {}, Idle, 0, {};
    }

    ghost predicate Valid()
      reads this
    {
      subscribers <= handedOut
    }

    ghost function View(): Bus<Subscriber>
      reads this, handedOut
    {
      Bus(state, liveId, lastRow, map q | q in handedOut :: q.View(), subscribers)
    }

    method SubscribeQueue() returns (q: Subscriber)
      requires Valid()
      modifies this`subscribers, this`handedOut
      ensures Valid() && fresh(q) && handedOut == old(handedOut) + {q}
      ensures View() == Next(old(View()), Subscribe(q), logging)
    {
      q := new Subscriber();
      subscribers, handedOut := subscribers + {q}, handedOut + {q};
    }

    method UnsubscribeQueue(q: Subscriber)
      requires Valid()
      modifies this`subscribers
      ensures Valid() && View() == Next(old(View()), Unsubscribe(q), logging)
    {
      subscribers := subscribers - {q};
    }

    method NextLiveId() returns (id: int)
      modifies this`liveId
      ensures id == liveId == old(liveId) - 1
    {
      liveId := liveId - 1;
      id := liveId;
    }

    /** On overflow the backlog is drained and replaced by one marker. */
    method Offer(q: Subscriber, event: Event)
      modifies this`subscribers, q
      ensures q.View() == Offered(old(q.View()), event)
      ensures subscribers == if old(q.View()).Full() then old(subscribers) - {q} else old(subscribers)
    {
      var full := q.PutNowait(Live(event));
      if full {
        subscribers := subscribers - {q};
        while q.items != []
          invariant q.consumed == old(q.consumed) && subscribers == old(subscribers) - {q}
        {
          q.items := q.items[1..];
        }
        full := q.PutNowait(Evicted);
        assert q.items == [Evicted];
      }
    }

    method EmitEvent(kind: Kind, write: Write)
      requires Valid()
      modifies this`subscribers, this`liveId, this`lastRow, subscribers
      ensures Valid() && handedOut == old(handedOut)
      ensures View() == Next(old(View()), Emit(kind, write), logging)
    {
      hide Broadcasted, StillSubscribed;
      var id;
      if !kind.LiveOnly() && logging {
        if write.Kept? {
          lastRow := lastRow + 1;
          id := lastRow;
        } else {
          lastRow := if write.taken then lastRow + 1 else lastRow;
          id := NextLiveId();
        }
      } else {
        id := NextLiveId();
      }
      assert View().queues == old(View()).queues;
      Broadcast(Event(kind, id));
    }

    method Broadcast(event: Event)
      requires Valid()
      modifies this`subscribers, subscribers
      ensures Valid() && handedOut == old(handedOut)
      ensures View().queues == Broadcasted(old(View()).queues, old(subscribers), event)
      ensures subscribers == StillSubscribed(old(View()).queues, old(subscribers))
    {
      hide Offered, Queue.Full;
      var rest := subscribers;
      while rest != {}
        invariant rest <= old(subscribers) && subscribers <= old(subscribers)
        invariant forall q | q in handedOut ::
          q.View() == if q in old(subscribers) - rest then Offered(old(q.View()), event) else old(q.View())
        invariant forall q | q in old(subscribers) ::
          q in subscribers <==> q in rest || !old(q.View()).Full()
        decreases |rest|
      {
        var q :| q in rest;
        rest := rest - {q};
        Offer(q, event);
      }
    }

    method ChangeState(newState: AgentState)
      requires Valid()
      modifies this`subscribers, this`state, this`liveId, this`lastRow, subscribers
      ensures Valid() && handedOut == old(handedOut)
      ensures View() == Next(old(View()), SetState(newState), logging)
    {
      if newState == state {
        return;
      }
      state := newState;
      EmitEvent(Status(newState), Kept);
    }
  }

  // ---------------------------------------------------------------- every run

  datatype Run<Q> = Start(lastRow: nat) | After(past: Run<Q>, step: Step<Q>)

  function Reached<Q(==)>(run: Run<Q>, logging: bool): Bus<Q> {
    match run
    case Start(lastRow) => Bus(Idle, 0, lastRow, map[], {})
    case After(past, step) => Next(Reached(past, logging), step, logging)
  }

  /** Queues are handed out once, and only `set_state` emits a status. */
  ghost predicate Proper<Q>(run: Run<Q>, logging: bool) {
    run.After? ==>
      && Proper(run.past, logging)
      && (run.step.Subscribe? ==> run.step.q !in Reached(run.past, logging).queues)
      && (run.step.Emit? ==> !run.step.kind.Status?)
  }

  /** The event a step emits, if it emits one. */
  function News<Q(==)>(b: Bus<Q>, s: Step<Q>, logging: bool): seq<Event> {
    match s
    case Emit(kind, write) => [Event(kind, IdOf(b, kind, write, logging))]
    case SetState(state) => if state == b.state then [] else [Event(Status(state), b.liveId - 1)]
    case _ => []
  }

  /** The events emitted since `q` subscribed, up to its unsubscribing. */
  function Since<Q(==)>(run: Run<Q>, q: Q, logging: bool): seq<Event> {
    match run
    case Start(_) => []
    case After(past, step) =>
      if step == Subscribe(q) then []
      else if Left(past, q) then Since(past, q, logging)
      else Since(past, q, logging) + News(Reached(past, logging), step, logging)
  }

  predicate Left<Q(==)>(run: Run<Q>, q: Q) {
    run.After? && run.step != Subscribe(q) && (run.step == Unsubscribe(q) || Left(run.past, q))
  }

  function Lives(events: seq<Event>): (items: seq<Item>)
    ensures |items| == |events| && forall i | 0 <= i < |events| :: items[i] == Live(events[i])
  {
    seq(|events|, i requires 0 <= i < |events| => Live(events[i]))
  }

  // ---------------------------------------------------------------- delivery

  ghost predicate Complete(q: Queue, since: seq<Event>) {
    q.All() == Lives(since)
  }

  /** Delivery cut off after `n` events by one marker. */
  ghost predicate CutAt(q: Queue, since: seq<Event>, n: nat) {
    n <= |since| && q.All() == Lives(since[..n]) + [Evicted]
  }

  ghost predicate CutOff(q: Queue, since: seq<Event>) {
    exists n: nat :: CutAt(q, since, n)
  }

  lemma OfferDelivers(q: Queue, since: seq<Event>, event: Event)
    requires |q.items| <= CAPACITY && Complete(q, since)
    ensures |Offered(q, event).items| <= CAPACITY
    ensures if q.Full() then CutOff(Offered(q, event), since + [event]) else Complete(Offered(q, event), since + [event])
  {
    var after := Offered(q, event);
    if q.Full() {
      var n := |q.consumed|;
      assert q.consumed == q.All()[..n] == Lives(since[..n]);
      assert (since + [event])[..n] == since[..n];
      assert CutAt(after, since + [event], n);
    } else {
      assert after.All() == q.All() + [Live(event)] == Lives(since + [event]);
    }
  }

  lemma StaysCutOff(q: Queue, since: seq<Event>, event: Event)
    requires CutOff(q, since)
    ensures CutOff(q, since + [event])
  {
    var n: nat :| CutAt(q, since, n);
    assert (since + [event])[..n] == since[..n];
    assert CutAt(q, since + [event], n);
  }

  /** A subscriber's queue against the events since it subscribed. */
  ghost predicate Delivered(q: Queue, since: seq<Event>, subscribed: bool, left: bool) {
    && |q.items| <= CAPACITY
    && (Complete(q, since) || CutOff(q, since))
    && (subscribed ==> Complete(q, since) && !left)
    && (!subscribed && !left ==> CutOff(q, since))
  }

  lemma ConsumeDelivers(q: Queue, since: seq<Event>, subscribed: bool, left: bool)
    requires Delivered(q, since, subscribed, left) && q.items != []
    ensures Delivered(Queue(q.items[1..], q.consumed + [q.items[0]]), since, subscribed, left)
  {
    var after := Queue(q.items[1..], q.consumed + [q.items[0]]);
    assert after.All() == q.All();
    if CutOff(q, since) {
      var n: nat :| CutAt(q, since, n);
      assert CutAt(after, since, n);
    }
  }

  lemma EventDelivers(q: Queue, since: seq<Event>, event: Event, subscribed: bool, left: bool)
    requires Delivered(q, since, subscribed, left)
    ensures
      Delivered(if subscribed then Offered(q, event) else q, if left then since else since + [event],
        subscribed && !q.Full(), left)
  {
    if subscribed {
      OfferDelivers(q, since, event);
    } else if !left {
      StaysCutOff(q, since, event);
    }
  }

  lemma StepDelivers<Q>(run: Run<Q>, q: Q, logging: bool)
    requires run.After? && Proper(run, logging)
    requires var b := Reached(run.past, logging);
      && b.subscribed <= b.queues.Keys
      && (q in b.queues ==> Delivered(b.queues[q], Since(run.past, q, logging), q in b.subscribed, Left(run.past, q)))
    ensures var b := Reached(run, logging);
      && b.subscribed <= b.queues.Keys
      && (q in b.queues ==> Delivered(b.queues[q], Since(run, q, logging), q in b.subscribed, Left(run, q)))
  {
    hide Delivered, Offered, Complete, CutOff;
    var past, step := run.past, run.step;
    var b, since := Reached(past, logging), Since(past, q, logging);
    var news := News(b, step, logging);
    if step == Subscribe(q) {
      assert Delivered(Queue([], []), [], true, false) by { NewQueueDelivers(); }
    } else if q in b.queues {
      if step == Unsubscribe(q) {
        UnsubscribeDelivers(b.queues[q], since, q in b.subscribed, Left(past, q));
      } else if step == Consume(q) && b.queues[q].items != [] {
        ConsumeDelivers(b.queues[q], since, q in b.subscribed, Left(past, q));
      }
      if news == [] {
        assert since + news == since;
      } else {
        EventDelivers(b.queues[q], since, news[0], q in b.subscribed, Left(past, q));
        assert news == [news[0]];
      }
    }
  }

  lemma NewQueueDelivers()
    ensures Delivered(Queue([], []), [], true, false)
  {
  }

  lemma UnsubscribeDelivers(q: Queue, since: seq<Event>, subscribed: bool, left: bool)
    requires Delivered(q, since, subscribed, left)
    ensures Delivered(q, since, false, true)
  {
  }

  /**
   What a subscriber consumed, followed by its queue, is exactly the events emitted since it
   subscribed; or, once evicted, a prefix of them followed by one marker and nothing after. The
   queue never exceeds its capacity.
   */
  lemma {:induction false} EveryEventOrACleanCut<Q>(run: Run<Q>, q: Q, logging: bool)
    requires Proper(run, logging)
    ensures var b := Reached(run, logging);
      && b.subscribed <= b.queues.Keys
      && (q in b.queues ==> Delivered(b.queues[q], Since(run, q, logging), q in b.subscribed, Left(run, q)))
  {
    hide Delivered, Next;
    if run.After? {
      EveryEventOrACleanCut(run.past, q, logging);
      StepDelivers(run, q, logging);
    }
  }

  // ---------------------------------------------------------------- the connect snapshot

  /** The state a client ends at when it folds `events` over the snapshot's state. */
  function Folded(state: AgentState, events: seq<Event>): AgentState {
    if events == [] then state
    else
      var last := events[|events| - 1];
      if last.kind.Status? then last.kind.state else Folded(state, events[..|events| - 1])
  }

  lemma FoldedOneMore(state: AgentState, events: seq<Event>, event: Event)
    ensures Folded(state, events + [event]) == if event.kind.Status? then event.kind.state else Folded(state, events)
  {
    assert (events + [event])[..|events|] == events;
  }

  ghost predicate Extends<Q>(run: Run<Q>, past: Run<Q>) {
    run == past || (run.After? && Extends(run.past, past))
  }

  /** `q` is handed out by the run, and no later. */
  ghost predicate SubscribedBy<Q>(run: Run<Q>, q: Q) {
    run.After? && (run.step == Subscribe(q) || SubscribedBy(run.past, q))
  }

  /**
   A client reads the bus state at some point after it subscribed and then folds everything it was
   sent over it: it ends at the bus state, whatever was queued before the snapshot was taken.
   */
  lemma {:induction false} FoldEndsAtTheBusState<Q>(run: Run<Q>, snapshot: Run<Q>, q: Q, logging: bool)
    requires Proper(run, logging) && Extends(run, snapshot) && SubscribedBy(snapshot, q) && !Left(run, q)
    ensures Folded(Reached(snapshot, logging).state, Since(run, q, logging)) == Reached(run, logging).state
  {
    hide Broadcasted, StillSubscribed;
    if run == snapshot {
      FoldIsTheBusState(run, q, Reached(run, logging).state, logging);
    } else if run.step == Subscribe(q) {
      OnceHandedOut(run.past, snapshot, q, logging);
    } else {
      FoldEndsAtTheBusState(run.past, snapshot, q, logging);
      FoldStep(run, q, Reached(snapshot, logging).state, logging);
    }
  }

  /** A step's status news, if it has any, is the state it leaves. */
  lemma NewsTellsTheState<Q>(b: Bus<Q>, step: Step<Q>, logging: bool)
    requires step.Emit? ==> !step.kind.Status?
    ensures var news := News(b, step, logging);
      && |news| <= 1
      && Next(b, step, logging).state == if news != [] && news[0].kind.Status? then news[0].kind.state else b.state
  {
  }

  lemma FoldStep<Q>(run: Run<Q>, q: Q, state: AgentState, logging: bool)
    requires Proper(run, logging) && run.After? && run.step != Subscribe(q) && !Left(run, q)
    requires Folded(state, Since(run.past, q, logging)) == Reached(run.past, logging).state
    ensures Folded(state, Since(run, q, logging)) == Reached(run, logging).state
  {
    var b, since := Reached(run.past, logging), Since(run.past, q, logging);
    var news := News(b, run.step, logging);
    assert Since(run, q, logging) == since + news && Reached(run, logging) == Next(b, run.step, logging);
    NewsTellsTheState(b, run.step, logging);
    hide Next, News, Since, Reached, Folded;
    if news == [] {
      assert since + news == since;
    } else {
      FoldedOneMore(state, since, news[0]);
      assert news == [news[0]];
    }
  }

  /** Folding over the state the events already led to changes nothing. */
  lemma {:induction false} FoldIsTheBusState<Q>(run: Run<Q>, q: Q, state: AgentState, logging: bool)
    requires Proper(run, logging) && SubscribedBy(run, q) && !Left(run, q)
    requires state == Reached(run, logging).state
    ensures Folded(state, Since(run, q, logging)) == Reached(run, logging).state
  {
    if run.step == Subscribe(q) {
    } else {
      var since, news := Since(run.past, q, logging), News(Reached(run.past, logging), run.step, logging);
      if news == [] {
        assert since + news == since;
        FoldIsTheBusState(run.past, q, state, logging);
      } else {
        FoldedOneMore(state, since, news[0]);
        if !news[0].kind.Status? { FoldIsTheBusState(run.past, q, state, logging); }
      }
    }
  }

  lemma {:induction false} OnceHandedOut<Q>(run: Run<Q>, past: Run<Q>, q: Q, logging: bool)
    requires Extends(run, past) && SubscribedBy(past, q)
    ensures q in Reached(run, logging).queues
  {
    if run != past {
      OnceHandedOut(run.past, past, q, logging);
    } else if run.step != Subscribe(q) {
      OnceHandedOut(run.past, run.past, q, logging);
    }
  }

  // ---------------------------------------------------------------- event ids

  function Emitted<Q(==)>(run: Run<Q>, logging: bool): seq<Event> {
    match run
    case Start(_) => []
    case After(past, step) => Emitted(past, logging) + News(Reached(past, logging), step, logging)
  }

  ghost predicate Distinct(events: seq<Event>, liveId: int, lastRow: nat) {
    && (forall i | 0 <= i < |events| :: if events[i].id > 0 then events[i].id <= lastRow else liveId <= events[i].id < 0)
    && (forall i, j | 0 <= i < j < |events| :: events[i].id != events[j].id)
  }

  /** A step's event takes an id beyond those in use. */
  lemma NewsTakesAnId<Q>(b: Bus<Q>, step: Step<Q>, logging: bool)
    requires b.liveId <= 0
    ensures var after, news := Next(b, step, logging), News(b, step, logging);
      && after.liveId <= b.liveId && after.lastRow >= b.lastRow && |news| <= 1
      && (news != [] ==>
            if news[0].id > 0 then b.lastRow < news[0].id <= after.lastRow
            else after.liveId <= news[0].id < b.liveId)
  {
    hide Broadcasted, StillSubscribed;
  }

  lemma DistinctOneMore(events: seq<Event>, event: Event, liveId: int, lastRow: nat, newLive: int, newRow: nat)
    requires Distinct(events, liveId, lastRow) && newLive <= liveId <= 0 && lastRow <= newRow
    requires if event.id > 0 then lastRow < event.id <= newRow else newLive <= event.id < liveId
    ensures Distinct(events + [event], newLive, newRow)
  {
  }

  lemma DistinctStays(events: seq<Event>, liveId: int, lastRow: nat, newLive: int, newRow: nat)
    requires Distinct(events, liveId, lastRow) && newLive <= liveId && lastRow <= newRow
    ensures Distinct(events, newLive, newRow)
  {
  }

  /** No two events of a session share an id: stored ones take fresh row ids, the others count down from -1. */
  lemma {:induction false} IdsNeverCollide<Q>(run: Run<Q>, logging: bool)
    ensures var b := Reached(run, logging); b.liveId <= 0 && Distinct(Emitted(run, logging), b.liveId, b.lastRow)
  {
    hide Next, News, Distinct;
    match run
    case Start(lastRow) => assert Distinct([], 0, lastRow) by { NoneCollide(lastRow); }
    case After(past, step) =>
      IdsNeverCollide(past, logging);
      var b, after := Reached(past, logging), Reached(run, logging);
      var before, news := Emitted(past, logging), News(b, step, logging);
      NewsTakesAnId(b, step, logging);
      if news == [] {
        assert before + news == before;
        DistinctStays(before, b.liveId, b.lastRow, after.liveId, after.lastRow);
      } else {
        assert news == [news[0]];
        DistinctOneMore(before, news[0], b.liveId, b.lastRow, after.liveId, after.lastRow);
      }
  }

  lemma NoneCollide(lastRow: nat)
    ensures Distinct([], 0, lastRow)
  {
  }

  /** Ids tell an event's history: a stored event has the positive id of its row, any other a negative one. */
  lemma IdsTellWhatIsStored<Q>(run: Run<Q>, logging: bool, kind: Kind, write: Write)
    ensures
      var b := Reached(run, logging);
      var event := Event(kind, IdOf(b, kind, write, logging));
      && Emitted(After(run, Emit(kind, write)), logging) == Emitted(run, logging) + [event]
      && event.id == if kind.Other? && logging && write == Kept then RowsTaken(run, logging) + 1 else -(1 + LiveIds(run, logging))
  {
    IdsAreCounted(run, logging);
  }

  /** How many row ids were taken up to now, those of dropped writes included. */
  function RowsTaken<Q>(run: Run<Q>, logging: bool): nat {
    match run
    case Start(lastRow) => lastRow
    case After(past, Emit(Other(_), write)) =>
      RowsTaken(past, logging) + if logging && (write == Kept || write == Dropped(true)) then 1 else 0
    case After(past, _) => RowsTaken(past, logging)
  }

  /** How many events took an id of the session's own. */
  function LiveIds<Q(==)>(run: Run<Q>, logging: bool): nat {
    match run
    case Start(_) => 0
    case After(past, Emit(kind, write)) => LiveIds(past, logging) + if kind.Other? && logging && write == Kept then 0 else 1
    case After(past, SetState(state)) => LiveIds(past, logging) + if state == LastState(past) then 0 else 1
    case After(past, _) => LiveIds(past, logging)
  }

  /** The state last set; a bus starts idle. */
  function LastState<Q>(run: Run<Q>): AgentState {
    match run
    case Start(_) => Idle
    case After(_, SetState(state)) => state
    case After(past, _) => LastState(past)
  }

  lemma {:induction false} IdsAreCounted<Q>(run: Run<Q>, logging: bool)
    ensures var b := Reached(run, logging);
      b.state == LastState(run) && b.lastRow == RowsTaken(run, logging) && b.liveId + LiveIds(run, logging) == 0
  {
    hide Broadcasted, StillSubscribed;
    if run.After? { IdsAreCounted(run.past, logging); }
  }

  // ---------------------------------------------------------------- status events

  /** The states told by status events, in the order they were emitted. */
  function Told(events: seq<Event>): seq<AgentState> {
    if events == [] then []
    else
      var rest, last := Told(events[..|events| - 1]), events[|events| - 1];
      if last.kind.Status? then rest + [last.kind.state] else rest
  }

  /** The changes among the states that were set. */
  function StateChanges<Q>(run: Run<Q>): seq<AgentState> {
    match run
    case Start(_) => []
    case After(past, SetState(state)) => StateChanges(past) + if state == LastState(past) then [] else [state]
    case After(past, _) => StateChanges(past)
  }

  /** Over every run, the status events tell exactly the changes of state, each once and in order. */
  lemma {:induction false} StatusEventsAreTheChanges<Q>(run: Run<Q>, logging: bool)
    requires Proper(run, logging)
    ensures Told(Emitted(run, logging)) == StateChanges(run)
  {
    hide Next, Told;
    match run
    case Start(_) => assert Told([]) == [] by { NothingTold(); }
    case After(past, step) =>
      StatusEventsAreTheChanges(past, logging);
      IdsAreCounted(past, logging);
      var before, news := Emitted(past, logging), News(Reached(past, logging), step, logging);
      if news == [] {
        assert before + news == before;
      } else {
        assert news == [news[0]];
        ToldOneMore(before, news[0]);
      }
  }

  lemma NothingTold()
    ensures Told([]) == []
  {
  }

  lemma ToldOneMore(events: seq<Event>, event: Event)
    ensures Told(events + [event]) == Told(events) + if event.kind.Status? then [event.kind.state] else []
  {
    assert (events + [event])[..|events|] == events;
  }

  // ---------------------------------------------------------------- who is evicted

  /** What a step emits reaches a queue that is already full: 1000 items, none of them read. */
  predicate Overflows<Q(==)>(b: Bus<Q>, s: Step<Q>, q: Q, logging: bool) {
    News(b, s, logging) != [] && q in b.queues && |b.queues[q].items| >= 1000
  }

  /** Since it subscribed, `q` was full when something was emitted. */
  ghost predicate Overflowed<Q>(run: Run<Q>, q: Q, logging: bool) {
    run.After? && run.step != Subscribe(q) && (Overflowed(run.past, q, logging) || Overflows(Reached(run.past, logging), run.step, q, logging))
  }

  /** A subscriber is still subscribed exactly when it did not unsubscribe and was never full when something was emitted. */
  lemma {:induction false} EvictedExactlyOnOverflow<Q>(run: Run<Q>, q: Q, logging: bool)
    requires Proper(run, logging) && SubscribedBy(run, q)
    ensures q in Reached(run, logging).subscribed <==> !Left(run, q) && !Overflowed(run, q, logging)
  {
    if run.step != Subscribe(q) {
      EvictedExactlyOnOverflow(run.past, q, logging);
      OnceHandedOut(run.past, run.past, q, logging);
      StepEvicts(Reached(run.past, logging), run.step, q, logging);
      hide Next, Broadcasted, StillSubscribed, News;
    }
  }

  lemma StepEvicts<Q>(b: Bus<Q>, s: Step<Q>, q: Q, logging: bool)
    requires q in b.queues && s != Subscribe(q)
    ensures q in Next(b, s, logging).subscribed <==>
      q in b.subscribed && s != Unsubscribe(q) && !Overflows(b, s, q, logging)
  {
    hide Broadcasted;
  }

  /** And it reads its queue from the front, one item at a time. */
  lemma ReadingTakesTheFront<Q>(run: Run<Q>, q: Q, logging: bool)
    requires q in Reached(run, logging).queues && Reached(run, logging).queues[q].items != []
    ensures
      var before, after := Reached(run, logging).queues[q], Reached(After(run, Consume(q)), logging).queues[q];
      after.consumed == before.consumed + [before.items[0]] && before.items == [before.items[0]] + after.items
  {
    ConsumingTakesTheFront(Reached(run, logging), q, logging);
    hide Next;
  }

  lemma ConsumingTakesTheFront<Q>(b: Bus<Q>, q: Q, logging: bool)
    requires q in b.queues && b.queues[q].items != []
    ensures
      var before, after := b.queues[q], Next(b, Consume(q), logging).queues;
      && q in after && after[q].consumed == before.consumed + [before.items[0]] && before.items == [before.items[0]] + after[q].items
  {
    var items := b.queues[q].items;
    assert items == [items[0]] + items[1..];
  }
}
