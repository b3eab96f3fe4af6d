/**
 The turn queue: the message processor, which runs queued items as turns, and its queue watcher,
 which delivers items that land while a turn runs.

 A step is what one of them does between two awaits. `put` and `gone` are the record of what was
 enqueued and of how each item left; no step reads them.
 */
module TurnQueue {

  /** A notification as it was read: its file, and which write of that file. */
  datatype Note = Note(path: nat, birth: nat)

  /** A queued turn; `notes` are the notifications its prompt renders. Boot turns render none. */
  datatype Item = Item(id: nat, interruptible: bool, notes: seq<Note>)

  datatype Exit = Ran(item: Item) | Preempted(item: Item) | Deferred(item: Item)

  /** Where the processor is: waiting for an item, going through `pending`, or in a turn whose
      prompt the CLI has or has not received. */
  datatype Stage = Idle | Looping | Running(item: Item, delivered: bool) | Stopped

  /** What the watcher holds: an item it took, and whether it is being sent. */
  datatype Hand = Empty | Taken(item: Item) | Sending(item: Item)

  datatype State = State(
    queue: seq<Item>, pending: seq<Item>, stage: Stage, hand: Hand, inFlight: seq<Note>,
    bootPending: nat, authenticated: bool, shutdown: bool, put: seq<Item>, gone: seq<Exit>)

  datatype Event =
    | Put(notes: seq<Note>)
    | Take                         // the processor takes the next item
    | Loop                         // one round over `pending`, up to a started turn
    | Get                          // the watcher takes the next item
    | Offer(open: bool)            // is there a client, an open turn and no compaction?
    | Sent(ok: bool)               // the preempting write returns
    | Deliver                      // the CLI receives the running prompt
    | EndTurn(failed: bool, flagged: bool)
    | RestartTool                  // the model asks for a restart
    | Authenticate(authenticated: bool)
    | Shutdown
    | Die                          // the processor is cancelled or raises

  predicate Enabled(s: State, e: Event) {
    match e
    case Take => s.stage.Idle? && s.queue != []
    case Loop => s.stage.Looping?
    case Get => s.stage.Running? && s.hand.Empty? && s.queue != []
    case Offer(_) => s.stage.Running? && s.hand.Taken?
    case Sent(_) => s.stage.Running? && s.hand.Sending?
    case Deliver => s.stage.Running?
    case EndTurn(failed, flagged) =>
      && s.stage.Running? && s.hand.Empty?
      && (!failed ==> s.stage.delivered && !flagged)
      && (failed && !flagged ==> s.stage.delivered)  // only an undelivered query raises the flag's error
    case RestartTool => !s.shutdown
    case Die => !s.stage.Stopped?
    case _ => true
  }

  /** Counting a finished boot turn, clamped at zero as the code does. */
  function Consumed(s: State, item: Item): nat {
    if item.interruptible || s.bootPending == 0 then s.bootPending else s.bootPending - 1
  }

  function Next(s: State, e: Event): State
    requires Enabled(s, e)
  {
    match e
    case Put(notes) =>
      var item := Item(|s.put|, true, notes);
      s.(queue := s.queue + [item], put := s.put + [item])
    case Take => s.(queue := s.queue[1..], pending := [s.queue[0]], stage := Looping)
    case Loop =>
      if s.pending == [] then s.(stage := Idle)
      else if s.shutdown then s.(queue := s.queue + s.pending, pending := [], stage := Idle)
      else
        var current := s.pending[0];
        if !s.authenticated then
          s.(pending := s.pending[1..], bootPending := Consumed(s, current), gone := s.gone + [Deferred(current)])
        else
          s.(pending := s.pending[1..], stage := Running(current, false), inFlight := current.notes)
    case Get => s.(queue := s.queue[1..], hand := Taken(s.queue[0]))
    case Offer(open) =>
      if open && s.stage.item.interruptible && s.authenticated then s.(hand := Sending(s.hand.item))
      else s.(pending := s.pending + [s.hand.item], hand := Empty)
    case Sent(ok) =>
      if ok then
        s.(hand := Empty, bootPending := Consumed(s, s.hand.item), gone := s.gone + [Preempted(s.hand.item)])
      else s.(pending := s.pending + [s.hand.item], hand := Empty)
    case Deliver => s.(stage := s.stage.(delivered := true))
    case EndTurn(failed, _) =>
      s.(stage := Looping, inFlight := [], bootPending := Consumed(s, s.stage.item),
         gone := s.gone + [Ran(s.stage.item)], shutdown := s.shutdown || failed)
    case RestartTool => s.(inFlight := [])
    case Authenticate(authenticated) => s.(authenticated := authenticated)
    case Shutdown => s.(shutdown := true)
    case Die => s.(stage := Stopped)
  }

  // ---------------------------------------------------------------- the places of an item

  function Current(s: State): seq<Item> {
    if s.stage.Running? then [s.stage.item] else []
  }

  function InHand(s: State): seq<Item> {
    if s.hand.Empty? then [] else [s.hand.item]
  }

  /** Everything the processor still has: the running turn, then what waits, in the order it will run. */
  function Line(s: State): seq<Item> {
    Current(s) + (s.pending + (InHand(s) + s.queue))
  }

  /** The items that ran, or were deferred when their turn came. */
  function Started(gone: seq<Exit>): seq<Item> {
    if gone == [] then []
    else
      var rest, last := Started(gone[..|gone| - 1]), gone[|gone| - 1];
      if last.Preempted? then rest else rest + [last.item]
  }

  function Preempts(gone: seq<Exit>): seq<Item> {
    if gone == [] then []
    else
      var rest, last := Preempts(gone[..|gone| - 1]), gone[|gone| - 1];
      if last.Preempted? then rest + [last.item] else rest
  }

  /** The plain turns so far, then the line. */
  function Story(s: State): seq<Item> {
    Started(s.gone) + Line(s)
  }

  function BootCount(items: seq<Item>): nat {
    if items == [] then 0
    else BootCount(items[..|items| - 1]) + (if items[|items| - 1].interruptible then 0 else 1)
  }

  /** Nothing waits in `pending` outside a round, and nothing is in hand or in flight outside a turn. */
  ghost predicate Shaped(s: State) {
    && (s.stage.Idle? ==> s.pending == [])
    && (!s.stage.Running? && !s.stage.Stopped? ==> s.hand.Empty? && s.inFlight == [])
    && (s.stage.Running? ==> s.inFlight == s.stage.item.notes || s.inFlight == [])
  }

  // ---------------------------------------------------------------- runs

  /** A boot starts with its boot turns queued and counted. */
  datatype Run = Boot(turns: seq<bool>, authenticated: bool) | After(past: Run, event: Event)

  function BootItems(turns: seq<bool>): seq<Item> {
    seq(|turns|, i requires 0 <= i < |turns| => Item(i, turns[i], []))
  }

  function Booted(turns: seq<bool>, authenticated: bool): State {
    var items := BootItems(turns);
    State(items, [], Idle, Empty, [], BootCount(items), authenticated, false, items, [])
  }

  ghost predicate Possible(run: Run)
    decreases run, 0
  {
    run.Boot? || (Possible(run.past) && Enabled(Reached(run.past), run.event))
  }

  ghost function Reached(run: Run): State
    requires Possible(run)
    decreases run, 1
  {
    if run.Boot? then Booted(run.turns, run.authenticated) else Next(Reached(run.past), run.event)
  }

  // ---------------------------------------------------------------- how a step moves items

  /** The item that leaves in a step, if one does. */
  function Leaving(s: State, e: Event): seq<Item>
    requires Enabled(s, e)
  {
    if e.EndTurn? then [s.stage.item]
    else if e == Sent(true) then [s.hand.item]
    else if e.Loop? && s.pending != [] && !s.shutdown && !s.authenticated then [s.pending[0]]
    else []
  }

  /** Whether a round puts `pending` back behind the queue. */
  predicate PutsBack(s: State, e: Event) {
    e.Loop? && s.stage.Looping? && s.pending != [] && s.shutdown
  }

  /** A step keeps the line, appends to it, takes one item out of it, or puts `pending` back. */
  ghost predicate Moves(s: State, e: Event, t: State)
    requires Enabled(s, e) && Shaped(s)
  {
    if e.Put? then Line(t) == Line(s) + [Item(|s.put|, true, e.notes)]
    else if e == Sent(true) then
      && Line(s) == Current(s) + s.pending + [s.hand.item] + s.queue
      && Line(t) == Current(s) + s.pending + s.queue
    else if PutsBack(s, e) then Line(s) == s.pending + s.queue && Line(t) == s.queue + s.pending
    else Line(s) == Leaving(s, e) + Line(t)
  }

  lemma PutMoves(s: State, e: Event)
    requires Shaped(s) && e.Put?
    ensures Moves(s, e, Next(s, e))
  {
    var item := Item(|s.put|, true, e.notes);
    assert Line(Next(s, e)) == Current(s) + (s.pending + (InHand(s) + (s.queue + [item])));
  }

  lemma TakeMoves(s: State, e: Event)
    requires Shaped(s) && Enabled(s, e) && (e.Take? || e.Get?)
    ensures Moves(s, e, Next(s, e))
  {
    var x, rest := s.queue[0], s.queue[1..];
    assert s.queue == [x] + rest && Leaving(s, e) == [];
    assert Line(s) == Current(s) + (s.pending + (InHand(s) + ([x] + rest)));
    if e.Take? { Padded([], rest); Padded([x], rest); Padded([], [x] + rest); }
  }

  lemma LoopMoves(s: State, e: Event)
    requires Shaped(s) && Enabled(s, e) && e.Loop?
    ensures Moves(s, e, Next(s, e))
  {
    var t := Next(s, e);
    assert Line(s) == s.pending + s.queue by { Padded(s.pending, s.queue); }
    if s.pending == [] {
    } else if s.shutdown {
      assert Line(t) == s.queue + s.pending by { Padded([], s.queue + s.pending); }
    } else {
      var head, rest := [s.pending[0]], s.pending[1..];
      Reassociated(head, rest, s.queue);
      assert s.pending == head + rest;
      if s.authenticated {
        assert Line(t) == head + (rest + ([] + s.queue));
        Padded(rest, s.queue);
      } else {
        assert Line(t) == rest + s.queue by { Padded(rest, s.queue); }
      }
    }
  }

  lemma Padded<X>(a: seq<X>, b: seq<X>)
    ensures [] + (a + ([] + b)) == a + b
    ensures a + ([] + b) == a + b
    ensures [] + a == a
  {
  }

  lemma Reassociated<X>(a: seq<X>, b: seq<X>, c: seq<X>)
    ensures (a + b) + c == a + (b + c)
  {
  }

  lemma HandMoves(s: State, e: Event)
    requires Shaped(s) && Enabled(s, e) && (e.Offer? || e.Sent?)
    ensures Moves(s, e, Next(s, e))
  {
    Shifted(Current(s), s.pending, s.hand.item, s.queue);
  }

  lemma Shifted<X>(a: seq<X>, b: seq<X>, x: X, c: seq<X>)
    ensures a + ((b + [x]) + ([] + c)) == a + (b + ([x] + c)) == a + b + [x] + c
    ensures a + (b + ([] + c)) == a + b + c
  {
  }

  lemma OtherMoves(s: State, e: Event)
    requires Shaped(s) && Enabled(s, e) && (e.Deliver? || e.EndTurn? || e.RestartTool? || e.Authenticate? || e.Shutdown?)
    ensures Moves(s, e, Next(s, e))
  {
  }

  lemma StepMoves(s: State, e: Event)
    requires Enabled(s, e) && Shaped(s) && !e.Die?
    ensures Moves(s, e, Next(s, e))
  {
    hide Moves, Next, Shaped;
    match e
    case Put(_) => PutMoves(s, e);
    case Take => TakeMoves(s, e);
    case Get => TakeMoves(s, e);
    case Loop => LoopMoves(s, e);
    case Offer(_) => HandMoves(s, e);
    case Sent(_) => HandMoves(s, e);
    case _ => OtherMoves(s, e);
  }

  // ---------------------------------------------------------------- conservation

  ghost predicate Increasing(items: seq<Item>) {
    forall i, j | 0 <= i < j < |items| :: items[i].id < items[j].id
  }

  /** Items are numbered as they are enqueued. */
  ghost predicate Numbered(put: seq<Item>) {
    forall i | 0 <= i < |put| :: put[i].id == i
  }

  /** Every enqueued item is in the line or has left, and none twice. */
  ghost predicate Conserved(s: State) {
    multiset(Started(s.gone)) + multiset(Line(s)) + multiset(Preempts(s.gone)) == multiset(s.put)
  }

  /** What ran, what runs and what waits are in enqueue order. */
  ghost predicate InOrder(s: State) {
    Increasing(Story(s)) && forall i | 0 <= i < |Story(s)| :: Story(s)[i].id < |s.put|
  }

  /** The boot counter counts the non-interruptible items not yet finished with. */
  ghost predicate BootCounted(s: State) {
    s.bootPending == BootCount(Line(s))
  }

  lemma GoneOneMore(gone: seq<Exit>, exit: Exit)
    ensures Started(gone + [exit]) == if exit.Preempted? then Started(gone) else Started(gone) + [exit.item]
    ensures Preempts(gone + [exit]) == if exit.Preempted? then Preempts(gone) + [exit.item] else Preempts(gone)
  {
    assert (gone + [exit])[..|gone|] == gone;
  }

  /** The item that leaves is recorded once, as a preempt or as a started turn. */
  lemma GoneSteps(s: State, e: Event)
    requires Enabled(s, e)
    ensures var t := Next(s, e);
      if e == Sent(true) then
        Started(t.gone) == Started(s.gone) && Preempts(t.gone) == Preempts(s.gone) + Leaving(s, e)
      else
        Started(t.gone) == Started(s.gone) + Leaving(s, e) && Preempts(t.gone) == Preempts(s.gone)
  {
    if Leaving(s, e) != [] {
      GoneOneMore(s.gone, if e == Sent(true) then Preempted(s.hand.item)
                          else if e.EndTurn? then Ran(s.stage.item)
                          else Deferred(s.pending[0]));
    }
  }

  lemma {:induction false} BootCountSplits(a: seq<Item>, b: seq<Item>)
    ensures BootCount(a + b) == BootCount(a) + BootCount(b)
    decreases |b|
  {
    if b == [] {
      assert a + b == a;
    } else {
      assert (a + b)[..|a + b| - 1] == a + b[..|b| - 1];
      BootCountSplits(a, b[..|b| - 1]);
    }
  }

  lemma PutLog(s: State, e: Event)
    requires Enabled(s, e)
    ensures Next(s, e).put == if e.Put? then s.put + [Item(|s.put|, true, e.notes)] else s.put
    ensures s.shutdown ==> Next(s, e).shutdown
  {
  }

  lemma StepConserves(s: State, e: Event)
    requires Enabled(s, e) && Shaped(s) && Conserved(s) && !e.Die?
    ensures Conserved(Next(s, e))
  {
    hide Next, Line, Started, Preempts, Shaped, Enabled;
    StepMoves(s, e);
    GoneSteps(s, e);
    PutLog(s, e);
  }

  lemma IncreasingWithout(a: seq<Item>, x: Item, b: seq<Item>)
    requires Increasing(a + [x] + b)
    ensures Increasing(a + b)
  {
    var all, rest := a + [x] + b, a + b;
    forall i, j | 0 <= i < j < |rest| ensures rest[i].id < rest[j].id {
      assert rest[i] == all[if i < |a| then i else i + 1] && rest[j] == all[if j < |a| then j else j + 1];
    }
  }

  lemma StepKeepsOrder(s: State, e: Event)
    requires Enabled(s, e) && Shaped(s) && InOrder(s) && !e.Die? && !s.shutdown
    ensures InOrder(Next(s, e))
  {
    hide Next, Line, Started, Preempts, Shaped, Increasing;
    StepMoves(s, e);
    GoneSteps(s, e);
    PutLog(s, e);
    var t := Next(s, e);
    if e.Put? {
      assert Story(t) == Story(s) + [Item(|s.put|, true, e.notes)];
      IncreasingOneMore(Story(s), Item(|s.put|, true, e.notes));
    } else if e == Sent(true) {
      StoryWithout(Started(s.gone), Current(s) + s.pending, s.hand.item, s.queue, |s.put|);
    } else {
      assert Story(t) == Story(s);
    }
  }

  lemma StoryWithout(started: seq<Item>, waiting: seq<Item>, x: Item, queue: seq<Item>, bound: nat)
    requires
      var story := started + (waiting + [x] + queue);
      Increasing(story) && forall i | 0 <= i < |story| :: story[i].id < bound
    ensures
      var story := started + (waiting + queue);
      Increasing(story) && forall i | 0 <= i < |story| :: story[i].id < bound
  {
    hide Increasing;
    var front := started + waiting;
    var all, rest := started + (waiting + [x] + queue), started + (waiting + queue);
    assert all == front + [x] + queue && rest == front + queue;
    IncreasingWithout(front, x, queue);
    forall i | 0 <= i < |rest| ensures rest[i].id < bound {
      assert rest[i] == all[if i < |front| then i else i + 1];
    }
  }

  lemma IncreasingOneMore(items: seq<Item>, x: Item)
    requires Increasing(items) && forall i | 0 <= i < |items| :: items[i].id < x.id
    ensures Increasing(items + [x])
  {
  }

  lemma StepCountsBoot(s: State, e: Event)
    requires Enabled(s, e) && Shaped(s) && BootCounted(s) && !e.Die?
    ensures BootCounted(Next(s, e))
    ensures Leaving(s, e) != [] && !Leaving(s, e)[0].interruptible ==> s.bootPending > 0
  {
    hide Line, Shaped, BootCount;
    StepMoves(s, e);
    var t := Next(s, e);
    BootCountOfOne();
    if e.Put? {
      BootCountSplits(Line(s), [Item(|s.put|, true, e.notes)]);
    } else if e == Sent(true) {
      BootCountSplits(Current(s) + s.pending + [s.hand.item], s.queue);
      BootCountSplits(Current(s) + s.pending, [s.hand.item]);
      BootCountSplits(Current(s) + s.pending, s.queue);
    } else if PutsBack(s, e) {
      BootCountSplits(s.pending, s.queue);
      BootCountSplits(s.queue, s.pending);
    } else {
      BootCountSplits(Leaving(s, e), Line(t));
    }
  }

  lemma BootCountOfOne()
    ensures BootCount([]) == 0
    ensures forall item :: BootCount([item]) == if item.interruptible then 0 else 1
  {
    forall item ensures BootCount([item]) == if item.interruptible then 0 else 1 {
      assert [item][..0] == [];
    }
  }

  lemma StepKeepsShape(s: State, e: Event)
    requires Enabled(s, e) && Shaped(s)
    ensures Shaped(Next(s, e))
  {
  }

  lemma StepKeepsNumbers(s: State, e: Event)
    requires Enabled(s, e) && Numbered(s.put)
    ensures Numbered(Next(s, e).put)
  {
    PutLog(s, e);
  }

  lemma BootIsSound(turns: seq<bool>, authenticated: bool)
    ensures var s := Booted(turns, authenticated);
      Shaped(s) && Numbered(s.put) && Conserved(s) && InOrder(s) && BootCounted(s)
  {
    var s := Booted(turns, authenticated);
    assert Line(s) == s.queue && Story(s) == s.queue;
  }

  ghost predicate Sound(s: State) {
    && Shaped(s) && Numbered(s.put)
    && (!s.stage.Stopped? ==> Conserved(s) && BootCounted(s) && (!s.shutdown ==> InOrder(s)))
  }

  lemma StepIsSound(s: State, e: Event)
    requires Enabled(s, e) && Sound(s)
    ensures Sound(Next(s, e))
  {
    hide Next, Shaped, Numbered, Conserved, BootCounted, InOrder, Enabled;
    StepKeepsShape(s, e);
    StepKeepsNumbers(s, e);
    PutLog(s, e);
    StoppedStays(s, e);
    if !e.Die? && !s.stage.Stopped? {
      StepConserves(s, e);
      StepCountsBoot(s, e);
      if !s.shutdown { StepKeepsOrder(s, e); }
    }
  }

  lemma StoppedStays(s: State, e: Event)
    requires Enabled(s, e)
    ensures Next(s, e).stage.Stopped? <==> s.stage.Stopped? || e.Die?
  {
  }

  lemma {:induction false} EveryRunIsSound(run: Run)
    requires Possible(run)
    ensures Sound(Reached(run))
    decreases run
  {
    hide Sound, Next, Enabled;
    if run.Boot? {
      assert Sound(Booted(run.turns, run.authenticated)) by {
        BootIsSound(run.turns, run.authenticated);
        BootSound(run.turns, run.authenticated);
      }
    } else {
      EveryRunIsSound(run.past);
      StepIsSound(Reached(run.past), run.event);
    }
  }

  lemma BootSound(turns: seq<bool>, authenticated: bool)
    ensures Sound(Booted(turns, authenticated))
  {
    hide Shaped, Numbered, Conserved, BootCounted, InOrder;
    BootIsSound(turns, authenticated);
  }

  // ---------------------------------------------------------------- the theorems

  /** How often an item is in the line, has run or been deferred, or has left as a preempt. */
  ghost function Whereabouts(s: State, item: Item): nat {
    multiset(Line(s))[item] + multiset(Started(s.gone))[item] + multiset(Preempts(s.gone))[item]
  }

  lemma NumberedOnce(put: seq<Item>, i: nat)
    requires Numbered(put) && i < |put|
    ensures multiset(put)[put[i]] == 1
  {
    assert put == put[..i] + [put[i]] + put[i + 1..];
    assert put[i] !in put[..i] && put[i] !in put[i + 1..];
  }

  /** Until the processor stops, every enqueued item is in exactly one place or has left exactly once. */
  lemma NothingLostNothingTwice(run: Run, i: nat)
    requires Possible(run) && !Reached(run).stage.Stopped? && i < |Reached(run).put|
    ensures Whereabouts(Reached(run), Reached(run).put[i]) == 1
  {
    hide Next, Line, Started, Preempts, Shaped, InOrder, BootCounted;
    EveryRunIsSound(run);
    NumberedOnce(Reached(run).put, i);
  }

  /** Before shutdown, plain turns run in the order they were enqueued, and the line keeps that order. */
  lemma PlainTurnsRunInOrder(run: Run)
    requires Possible(run) && !Reached(run).stage.Stopped? && !Reached(run).shutdown
    ensures Increasing(Started(Reached(run).gone) + Line(Reached(run)))
  {
    hide Next, Line, Started, Preempts, Shaped, Conserved, BootCounted;
    EveryRunIsSound(run);
  }

  /** The boot counter counts the unfinished boot turns, so clamping it at zero never happens. */
  lemma BootCompletesWithTheLastBootTurn(run: Run)
    requires Possible(run) && !Reached(run).stage.Stopped?
    ensures Reached(run).bootPending == BootCount(Line(Reached(run)))
    ensures forall e | Enabled(Reached(run), e) && !e.Die? && Leaving(Reached(run), e) != [] ::
      !Leaving(Reached(run), e)[0].interruptible ==> Reached(run).bootPending > 0
  {
    hide Next, Line, Conserved, InOrder, BootCount;
    EveryRunIsSound(run);
    forall e | Enabled(Reached(run), e) && !e.Die? && Leaving(Reached(run), e) != []
      ensures !Leaving(Reached(run), e)[0].interruptible ==> Reached(run).bootPending > 0
    {
      StepCountsBoot(Reached(run), e);
    }
  }

  /** What is being sent is sent into an interruptible turn. */
  ghost predicate SendsPolitely(s: State) {
    s.stage.Running? && s.hand.Sending? ==> s.stage.item.interruptible
  }

  lemma StepSendsPolitely(s: State, e: Event)
    requires Enabled(s, e) && Shaped(s) && SendsPolitely(s)
    ensures SendsPolitely(Next(s, e))
  {
  }

  /** While a boot turn runs nothing is being delivered into it. */
  lemma {:induction false} BootTurnsAreNotPreempted(run: Run)
    requires Possible(run)
    ensures SendsPolitely(Reached(run))
    decreases run
  {
    hide Next, Enabled, Conserved, BootCounted, InOrder, Numbered;
    if run.After? {
      BootTurnsAreNotPreempted(run.past);
      EveryRunIsSound(run.past);
      StepSendsPolitely(Reached(run.past), run.event);
    }
  }

  /** A turn of the run failed. */
  ghost predicate Failed(run: Run) {
    run.After? && (Failed(run.past) || (run.event.EndTurn? && run.event.failed))
  }

  /** After a failed turn, and after shutdown was asked for between turns, no further turn starts. */
  lemma {:induction false} FailureStartsNothing(run: Run)
    requires Possible(run) && Failed(run)
    ensures Reached(run).shutdown && !Reached(run).stage.Running?
    decreases run
  {
    if Failed(run.past) { FailureStartsNothing(run.past); }
  }

  // ---------------------------------------------------------------- what a run decides

  /** What sign-in was last set to. */
  predicate SignedIn(run: Run) {
    match run
    case Boot(_, authenticated) => authenticated
    case After(past, event) => if event.Authenticate? then event.authenticated else SignedIn(past)
  }

  /** A shutdown was asked for, or a turn failed. */
  predicate GoingDown(run: Run) {
    run.After? && (GoingDown(run.past) || run.event.Shutdown? || (run.event.EndTurn? && run.event.failed))
  }

  /** Since the last turn started, the CLI received its prompt. */
  predicate Received(run: Run) {
    run.After? && !run.event.Loop? && (run.event.Deliver? || Received(run.past))
  }

  /** Since the last turn started, the restart tool was called. */
  predicate RestartAsked(run: Run) {
    run.After? && !run.event.Loop? && (run.event.RestartTool? || RestartAsked(run.past))
  }

  lemma StepSetsFlags(s: State, e: Event)
    requires Enabled(s, e)
    ensures var t := Next(s, e);
      && t.authenticated == (if e.Authenticate? then e.authenticated else s.authenticated)
      && t.shutdown == (s.shutdown || e.Shutdown? || (e.EndTurn? && e.failed))
      && (t.stage.Running? && e.Loop? ==> !t.stage.delivered && t.inFlight == t.stage.item.notes)
      && (t.stage.Running? && !e.Loop? ==>
            && s.stage.Running? && t.stage.item == s.stage.item
            && t.stage.delivered == (s.stage.delivered || e.Deliver?)
            && t.inFlight == if e.RestartTool? then [] else s.inFlight)
  {
  }

  /** The flags are what the run did to them, and the running turn has its notifications in flight until a restart is asked for. */
  lemma {:induction false} FlagsFollowTheRun(run: Run)
    requires Possible(run)
    ensures var s := Reached(run);
      && (s.authenticated <==> SignedIn(run)) && (s.shutdown <==> GoingDown(run))
      && (s.stage.Running? ==>
            && (s.stage.delivered <==> Received(run))
            && s.inFlight == if RestartAsked(run) then [] else s.stage.item.notes)
    decreases run
  {
    hide Next, Enabled;
    if run.After? {
      FlagsFollowTheRun(run.past);
      StepSetsFlags(Reached(run.past), run.event);
    }
  }

  /** The next item starts exactly while signed in and not going down; it is deferred when signed out, and goes back at shutdown. */
  lemma NextItemStartsWhileSignedIn(run: Run)
    requires Possible(run) && Reached(run).stage.Looping? && Reached(run).pending != []
    ensures
      var s, t := Reached(run), Next(Reached(run), Loop);
      && (t.stage.Running? <==> SignedIn(run) && !GoingDown(run))
      && (t.stage.Running? ==> t.stage.item == s.pending[0] && !t.stage.delivered && t.inFlight == s.pending[0].notes)
      && (!SignedIn(run) && !GoingDown(run) ==> t.gone == s.gone + [Deferred(s.pending[0])] && t.pending == s.pending[1..])
      && (GoingDown(run) ==> t.queue == s.queue + s.pending && t.pending == [] && t.gone == s.gone)
  {
    FlagsFollowTheRun(run);
  }

  /** An item is sent into the running turn exactly when the client is open, the turn is no boot turn and sign-in holds. */
  lemma PreemptsPassEveryGate(run: Run, open: bool)
    requires Possible(run) && Enabled(Reached(run), Offer(open))
    ensures
      var s, t := Reached(run), Next(Reached(run), Offer(open));
      && (t.hand.Sending? <==> open && s.stage.item.interruptible && SignedIn(run))
      && (t.hand.Sending? ==> t.hand.item == s.hand.item && t.pending == s.pending)
      && (!t.hand.Sending? ==> t.hand.Empty? && t.pending == s.pending + [s.hand.item])
  {
    FlagsFollowTheRun(run);
  }
}
