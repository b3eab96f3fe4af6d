/**
 Notification intake: files on disk, the monitor that announces and queues them, and the turn queue
 that delivers them and clears their files.

 Files are written by others at any time. A write is numbered, so a file says which write it holds;
 `latest`, `delivered`, `condemned`, `announced` and `discarded` are the record, and no step reads them.
 */
module NotificationIntake {
  import opened Options
  import opened TurnQueue

  datatype Disposition = Interrupt | Snooze | Trash

  /** What a write left in a file: its number, and whether it parses as a notification. */
  datatype Content = Content(birth: nat, parses: bool)

  type Files = map<nat, Content>

  /** The rules of one tick, and which notifications are the agent's own. */
  datatype Rules = Rules(disposition: Note -> Disposition, core: Note -> bool)

  datatype Intake = Intake(
    turns: State, files: Files, trash: Files,
    loaded: Option<seq<Note>>, snoozed: seq<Note>, queuedPaths: set<nat>,
    births: nat, latest: Files, delivered: set<nat>, condemned: set<Note>, announced: seq<Note>, discarded: seq<Note>)

  datatype Move =
    | Write(path: nat, parses: bool)
    | Load(listing: seq<nat>)             // a tick prunes the queued paths and reads the directory
    | Decide(rules: Rules, flush: bool)   // the rest of the tick, once the rules are loaded
    | Turn(event: Event)
    | Crash(turns: seq<bool>, authenticated: bool)

  // ---------------------------------------------------------------- selecting

  function Filter<X>(xs: seq<X>, keep: X -> bool): seq<X> {
    if xs == [] then []
    else
      var rest, last := Filter(xs[..|xs| - 1], keep), xs[|xs| - 1];
      if keep(last) then rest + [last] else rest
  }

  lemma {:induction false} FilterKeeps<X>(xs: seq<X>, keep: X -> bool, x: X)
    ensures multiset(Filter(xs, keep))[x] == if keep(x) then multiset(xs)[x] else 0
  {
    if xs != [] {
      FilterKeeps(xs[..|xs| - 1], keep, x);
      assert xs == xs[..|xs| - 1] + [xs[|xs| - 1]];
    }
  }

  function Paths(notes: seq<Note>): set<nat> {
    set n | n in notes :: n.path
  }

  function Births(notes: seq<Note>): set<nat> {
    set n | n in notes :: n.birth
  }

  /** The files of a listing that parse, as they are read. */
  function Parse(files: Files, listing: seq<nat>): seq<Note> {
    if listing == [] then []
    else
      var rest, last := Parse(files, listing[..|listing| - 1]), listing[|listing| - 1];
      if last in files && files[last].parses then rest + [Note(last, files[last].birth)] else rest
  }

  function Malformed(files: Files, listing: seq<nat>): set<nat> {
    set p | p in listing && p in files && !files[p].parses
  }

  // ---------------------------------------------------------------- the monitor's tick

  function Except(core: Note -> bool): Note -> bool {
    n => !core(n)
  }

  function Judged(rules: Rules, d: Disposition): Note -> bool {
    n => rules.disposition(n) == d
  }

  function Unqueued(queuedPaths: set<nat>): Note -> bool {
    (n: Note) => n.path !in queuedPaths
  }

  /** A batch as queued turns: the agent's own notifications first, then the others. */
  function Sections(batch: seq<Note>, core: Note -> bool): seq<seq<Note>> {
    var system, external := Filter(batch, core), Filter(batch, Except(core));
    if system == [] && external == [] then []
    else if system == [] then [external]
    else if external == [] then [system]
    else [system, external]
  }

  function PutAll(turns: State, sections: seq<seq<Note>>): State {
    if sections == [] then turns
    else Next(PutAll(turns, sections[..|sections| - 1]), Put(sections[|sections| - 1]))
  }

  function Chosen(unseen: seq<Note>, rules: Rules, d: Disposition): seq<Note> {
    Filter(unseen, Judged(rules, d))
  }

  function Fresh(loaded: seq<Note>, queuedPaths: set<nat>): seq<Note> {
    Filter(loaded, Unqueued(queuedPaths))
  }

  /** Moving files into the trash replaces same-named entries. */
  function TrashedWith(trash: Files, files: Files, paths: set<nat>): Files {
    trash + map p | p in files && p in paths :: files[p]
  }

  /** Intake of the new notifications: announce, trash, remember, queue the interrupting ones. */
  function Scanned(s: Intake, rules: Rules): Intake
    requires s.loaded.Some?
  {
    var unseen := Fresh(s.loaded.value, s.queuedPaths);
    var trashed := Chosen(unseen, rules, Trash);
    var interrupting, snoozing := Chosen(unseen, rules, Interrupt), Chosen(unseen, rules, Snooze);
    s.(turns := PutAll(s.turns, Sections(interrupting, rules.core)),
       files := s.files - Paths(trashed),
       trash := TrashedWith(s.trash, s.files, Paths(trashed)),
       loaded := None,
       snoozed := s.snoozed + snoozing,
       queuedPaths := s.queuedPaths + Paths(interrupting) + Paths(snoozing),
       announced := s.announced + unseen,
       discarded := s.discarded + trashed,
       condemned := s.condemned + Condemned(trashed, s.files))
  }

  /** The writes that a rule judged and that go to the trash: the file still holds what was read. */
  function Condemned(trashed: seq<Note>, files: Files): set<Note> {
    set n | n in trashed && OnDisk(files, n)
  }

  /** Queueing the snoozed batch once the agent has been idle long enough. */
  function Flushed(s: Intake, core: Note -> bool): Intake {
    s.(turns := PutAll(s.turns, Sections(s.snoozed, core)), snoozed := [])
  }

  // ---------------------------------------------------------------- the processor's files

  /** The notifications whose files a step of the processor clears. */
  function Cleared(t: State, e: Event): seq<Note>
    requires Enabled(t, e)
  {
    match e
    case Sent(ok) => if ok then t.hand.item.notes else []
    case EndTurn(_, flagged) => if t.authenticated && !flagged then t.inFlight else []
    case RestartTool => t.inFlight
    case _ => []
  }

  /** The notifications whose prompt a step hands to the CLI. */
  function HandedOver(t: State, e: Event): seq<Note>
    requires Enabled(t, e)
  {
    match e
    case Sent(ok) => if ok then t.hand.item.notes else []
    case Deliver => t.stage.item.notes
    case _ => []
  }

  predicate Distinct(paths: seq<nat>) {
    forall i, j | 0 <= i < j < |paths| :: paths[i] != paths[j]
  }

  predicate Able(s: Intake, m: Move) {
    match m
    case Load(listing) => s.loaded.None? && Distinct(listing) && forall p | p in listing :: p in s.files
    case Decide(_, _) => s.loaded.Some?
    case Turn(e) => !e.Put? && Enabled(s.turns, e)
    case _ => true
  }

  function Moved(s: Intake, m: Move): Intake
    requires Able(s, m)
  {
    match m
    case Write(p, parses) =>
      var content := Content(s.births, parses);
      s.(files := s.files[p := content], latest := s.latest[p := content], births := s.births + 1)
    case Load(listing) =>
      s.(loaded := Some(Parse(s.files, listing)),
         files := s.files - Malformed(s.files, listing),
         queuedPaths := s.queuedPaths * s.files.Keys)
    case Decide(rules, flush) =>
      var scanned := Scanned(s, rules);
      if flush then Flushed(scanned, rules.core) else scanned
    case Turn(e) =>
      s.(turns := Next(s.turns, e),
         files := s.files - Paths(Cleared(s.turns, e)),
         delivered := s.delivered + Births(HandedOver(s.turns, e)))
    case Crash(turns, authenticated) =>
      s.(turns := Booted(turns, authenticated), loaded := None, snoozed := [], queuedPaths := {},
         announced := [], discarded := [])
  }

  datatype History = Begin(turns: seq<bool>, authenticated: bool) | Then(past: History, move: Move)

  ghost predicate Happens(h: History)
    decreases h, 0
  {
    h.Begin? || (Happens(h.past) && Able(Now(h.past), h.move))
  }

  ghost function Now(h: History): Intake
    requires Happens(h)
    decreases h, 1
  {
    if h.Begin? then
      Intake(Booted(h.turns, h.authenticated), map[], map[], None, [], {}, 0, map[], {}, {}, [], [])
    else Moved(Now(h.past), h.move)
  }

  // ---------------------------------------------------------------- what the turn queue holds

  function NotesOf(items: seq<Item>): multiset<Note> {
    if items == [] then multiset{} else NotesOf(items[..|items| - 1]) + multiset(items[|items| - 1].notes)
  }

  lemma {:induction false} NotesOfSplits(a: seq<Item>, b: seq<Item>)
    ensures NotesOf(a + b) == NotesOf(a) + NotesOf(b)
    decreases |b|
  {
    if b == [] {
      assert a + b == a;
    } else {
      assert (a + b)[..|a + b| - 1] == a + b[..|b| - 1];
      NotesOfSplits(a, b[..|b| - 1]);
    }
  }

  lemma NotesOfOne(item: Item)
    ensures NotesOf([item]) == multiset(item.notes)
  {
    assert [item][..0] == [];
  }

  lemma NotesOfNone()
    ensures NotesOf([]) == multiset{}
  {
  }

  /** The notifications of the turn in flight and of the items that wait. */
  function Held(t: State): multiset<Note> {
    multiset(t.inFlight) + NotesOf(t.pending) + NotesOf(InHand(t)) + NotesOf(t.queue)
  }

  /** What a step lets go of, whether or not it clears the files. */
  function Released(t: State, e: Event): multiset<Note>
    requires Enabled(t, e)
  {
    if e.EndTurn? || e.RestartTool? then multiset(t.inFlight)
    else NotesOf(Leaving(t, e))
  }

  lemma QueueHolds(t: State, e: Event)
    requires Enabled(t, e) && Shaped(t) && (e.Put? || e.Take? || e.Get?)
    ensures Held(Next(t, e)) == Held(t) + if e.Put? then multiset(e.notes) else multiset{}
  {
    hide NotesOf;
    NotesOfNone();
    if e.Put? {
      NotesOfSplits(t.queue, [Item(|t.put|, true, e.notes)]);
      NotesOfOne(Item(|t.put|, true, e.notes));
    } else {
      assert t.queue == [t.queue[0]] + t.queue[1..];
      NotesOfSplits([t.queue[0]], t.queue[1..]);
    }
  }

  lemma LoopHolds(t: State, e: Event)
    requires Enabled(t, e) && Shaped(t) && e.Loop?
    ensures Held(Next(t, e)) + Released(t, e) == Held(t)
  {
    var u := Next(t, e);
    assert t.inFlight == [] && t.hand.Empty? && InHand(u) == [] == InHand(t);
    if t.pending == [] {
      assert u == t.(stage := Idle);
      assert Leaving(t, e) == [];
      NotesOfNone();
    } else {
      var head, rest := t.pending[0], t.pending[1..];
      assert t.pending == [head] + rest;
      PendingHolds(t, u, e, head, rest);
    }
  }

  /** The head of `pending` starts, or leaves, or everything goes back to the queue. */
  lemma PendingHolds(t: State, u: State, e: Event, head: Item, rest: seq<Item>)
    requires Enabled(t, e) && e.Loop? && u == Next(t, e) && t.inFlight == []
    requires InHand(u) == [] == InHand(t) && t.pending == [head] + rest && t.pending[1..] == rest
    ensures Held(u) + Released(t, e) == Held(t)
  {
    hide NotesOf, InHand;
    NotesOfNone();
    NotesOfSplits([head], rest);
    NotesOfOne(head);
    if t.shutdown {
      NotesOfSplits(t.queue, t.pending);
    }
  }

  lemma OfferHolds(t: State, e: Event)
    requires Enabled(t, e) && Shaped(t) && e.Offer?
    ensures Held(Next(t, e)) + Released(t, e) == Held(t)
  {
    hide NotesOf;
    NotesOfNone();
    var u, item := Next(t, e), t.hand.item;
    NotesOfSplits(t.pending, [item]);
    assert Leaving(t, e) == [] && InHand(t) == [item] && u.queue == t.queue && u.inFlight == t.inFlight;
    if u.hand.Empty? {
      assert u.pending == t.pending + [item] && InHand(u) == [];
    } else {
      assert u.pending == t.pending && InHand(u) == [item];
    }
  }

  lemma SentHolds(t: State, e: Event)
    requires Enabled(t, e) && Shaped(t) && e.Sent?
    ensures Held(Next(t, e)) + Released(t, e) == Held(t)
  {
    hide NotesOf;
    NotesOfNone();
    var u, item := Next(t, e), t.hand.item;
    NotesOfSplits(t.pending, [item]);
    assert InHand(u) == [] && InHand(t) == [item] && u.queue == t.queue && u.inFlight == t.inFlight;
    if e.ok {
      assert u.pending == t.pending && Leaving(t, e) == [item];
    } else {
      assert u.pending == t.pending + [item] && Leaving(t, e) == [];
    }
  }

  lemma OtherHolds(t: State, e: Event)
    requires Enabled(t, e) && Shaped(t)
    requires e.Deliver? || e.EndTurn? || e.RestartTool? || e.Authenticate? || e.Shutdown? || e.Die?
    ensures Held(Next(t, e)) + Released(t, e) == Held(t)
  {
    hide NotesOf;
    NotesOfNone();
    var u := Next(t, e);
    assert u.pending == t.pending && u.queue == t.queue && InHand(u) == InHand(t);
    if e.EndTurn? || e.RestartTool? {
      assert u.inFlight == [];
    } else {
      assert u.inFlight == t.inFlight && Leaving(t, e) == [];
    }
  }

  /** A step holds what it held, less what it releases. */
  lemma StepHolds(t: State, e: Event)
    requires Enabled(t, e) && Shaped(t) && !e.Put?
    ensures Held(Next(t, e)) + Released(t, e) == Held(t)
  {
    hide Held, Next, Released, Shaped;
    match e
    case Take => QueueHolds(t, e); NothingReleased(t, e);
    case Get => QueueHolds(t, e); NothingReleased(t, e);
    case Loop => LoopHolds(t, e);
    case Offer(_) => OfferHolds(t, e);
    case Sent(_) => SentHolds(t, e);
    case _ => OtherHolds(t, e);
  }

  lemma NothingReleased(t: State, e: Event)
    requires Enabled(t, e) && (e.Take? || e.Get?)
    ensures Released(t, e) == multiset{}
  {
  }

  // ---------------------------------------------------------------- putting batches

  lemma SectionsPartition(batch: seq<Note>, core: Note -> bool)
    ensures var sections := Sections(batch, core);
      && |sections| <= 2 && (forall i | 0 <= i < |sections| :: sections[i] != [])
      && (if |sections| == 0 then multiset(batch) == multiset{}
          else if |sections| == 1 then multiset(batch) == multiset(sections[0])
          else multiset(batch) == multiset(sections[0]) + multiset(sections[1]))
  {
    CoreDivides(batch, core);
    hide Filter;
    var system, external := Filter(batch, core), Filter(batch, Except(core));
    var sections := Sections(batch, core);
    if system == [] && external == [] {
      assert multiset(system) == multiset{} == multiset(external);
    } else if system == [] {
      assert multiset(system) == multiset{} && sections == [external];
    } else if external == [] {
      assert multiset(external) == multiset{} && sections == [system];
    } else {
      assert sections == [system, external];
    }
  }

  lemma CoreDivides(batch: seq<Note>, core: Note -> bool)
    ensures multiset(batch) == multiset(Filter(batch, core)) + multiset(Filter(batch, Except(core)))
  {
    hide Filter;
    var system, external := multiset(Filter(batch, core)), multiset(Filter(batch, Except(core)));
    forall n ensures multiset(batch)[n] == (system + external)[n] {
      FilterKeeps(batch, core, n);
      FilterKeeps(batch, Except(core), n);
    }
  }

  /** What putting leaves alone. */
  predicate SameTurn(t: State, u: State) {
    u.stage == t.stage && u.inFlight == t.inFlight && u.hand == t.hand && u.pending == t.pending
  }

  lemma PutOne(t: State, notes: seq<Note>)
    requires Shaped(t)
    ensures var u := Next(t, Put(notes));
      Shaped(u) && SameTurn(t, u) && Held(u) == Held(t) + multiset(notes) && NotesOf(u.put) == NotesOf(t.put) + multiset(notes)
  {
    QueueHolds(t, Put(notes));
    NotesOfSplits(t.put, [Item(|t.put|, true, notes)]);
    NotesOfOne(Item(|t.put|, true, notes));
  }

  /** Queueing a batch adds exactly its notifications, each in one turn. */
  lemma PutBatch(t: State, batch: seq<Note>, core: Note -> bool)
    requires Shaped(t)
    ensures var u := PutAll(t, Sections(batch, core));
      Shaped(u) && SameTurn(t, u) && Held(u) == Held(t) + multiset(batch) && NotesOf(u.put) == NotesOf(t.put) + multiset(batch)
  {
    hide Held, Next, Shaped, Sections, NotesOf;
    var sections := Sections(batch, core);
    SectionsPartition(batch, core);
    if |sections| == 1 {
      assert sections[..0] == [];
      PutOne(t, sections[0]);
    } else if |sections| == 2 {
      var one := sections[..1];
      assert one == [sections[0]] && one[..0] == [];
      assert PutAll(t, one) == Next(t, Put(sections[0]));
      PutOne(t, sections[0]);
      PutOne(Next(t, Put(sections[0])), sections[1]);
    } else {
      assert sections == [];
    }
  }

  // ---------------------------------------------------------------- reading and dividing

  predicate OnDisk(files: Files, n: Note) {
    n.path in files && files[n.path] == Content(n.birth, true)
  }

  lemma {:induction false} ParseReads(files: Files, listing: seq<nat>, n: Note)
    requires Distinct(listing)
    ensures n in Parse(files, listing) ==> n.path in listing && OnDisk(files, n) && multiset(Parse(files, listing))[n] == 1
    ensures n.path in listing && OnDisk(files, n) ==> n in Parse(files, listing)
  {
    if listing != [] {
      var front, last := listing[..|listing| - 1], listing[|listing| - 1];
      assert listing == front + [last] && last !in front;
      ParseReads(files, front, n);
    }
  }

  lemma {:induction false} NothingInBootItems(turns: seq<bool>)
    ensures NotesOf(BootItems(turns)) == multiset{}
  {
    if turns != [] {
      assert BootItems(turns)[..|turns| - 1] == BootItems(turns[..|turns| - 1]);
      NothingInBootItems(turns[..|turns| - 1]);
    }
  }

  lemma BootHoldsNothing(turns: seq<bool>, authenticated: bool)
    ensures var t := Booted(turns, authenticated);
      Shaped(t) && Held(t) == multiset{} && NotesOf(t.put) == multiset{} && t.stage.Idle?
  {
    NothingInBootItems(turns);
  }

  /** The three dispositions divide what is new. */
  lemma ChosenPartition(unseen: seq<Note>, rules: Rules)
    ensures multiset(unseen) ==
      multiset(Chosen(unseen, rules, Interrupt)) + multiset(Chosen(unseen, rules, Snooze)) + multiset(Chosen(unseen, rules, Trash))
  {
    forall n ensures multiset(unseen)[n] ==
      multiset(Chosen(unseen, rules, Interrupt))[n] + multiset(Chosen(unseen, rules, Snooze))[n] + multiset(Chosen(unseen, rules, Trash))[n]
    {
      FilterKeeps(unseen, Judged(rules, Interrupt), n);
      FilterKeeps(unseen, Judged(rules, Snooze), n);
      FilterKeeps(unseen, Judged(rules, Trash), n);
    }
  }

  lemma FreshIsUnseen(loaded: seq<Note>, queuedPaths: set<nat>, n: Note)
    ensures multiset(Fresh(loaded, queuedPaths))[n] == if n.path in queuedPaths then 0 else multiset(loaded)[n]
  {
    FilterKeeps(loaded, Unqueued(queuedPaths), n);
  }

  // ---------------------------------------------------------------- one process is one run of the turn queue

  lemma {:induction false} PutsAreARun(run: Run, sections: seq<seq<Note>>) returns (after: Run)
    requires Possible(run)
    ensures Possible(after) && Reached(after) == PutAll(Reached(run), sections)
    decreases |sections|
  {
    if sections == [] {
      after := run;
    } else {
      var before := PutsAreARun(run, sections[..|sections| - 1]);
      after := Run.After(before, Put(sections[|sections| - 1]));
      assert Reached(after) == Next(Reached(before), Put(sections[|sections| - 1]));
    }
  }

  /** What holds of every run of the turn queue holds of the queue inside every history. */
  lemma {:induction false} EveryProcessIsARun(h: History) returns (run: Run)
    requires Happens(h)
    ensures Possible(run) && Reached(run) == Now(h).turns
    decreases h
  {
    hide Next, Enabled, Sections, Chosen, Fresh, PutAll, Booted;
    if h.Begin? {
      run := Boot(h.turns, h.authenticated);
    } else {
      var before := EveryProcessIsARun(h.past);
      var s := Now(h.past);
      match h.move
      case Decide(rules, flush) =>
        var scanned := Scanned(s, rules);
        run := PutsAreARun(before, Sections(Chosen(Fresh(s.loaded.value, s.queuedPaths), rules, Interrupt), rules.core));
        if flush { run := PutsAreARun(run, Sections(scanned.snoozed, rules.core)); }
      case Turn(e) => run := Run.After(before, e);
      case Crash(turns, authenticated) => run := Boot(turns, authenticated);
      case _ => run := before;
    }
  }
}
