/**
 What each step does to the notification files and to the queue, in terms of the history alone: which
 files go at the end of a turn, and where a tick's notifications and the snoozed batch end up.
 */
module NotificationFlow {
  import opened Options
  import opened TurnQueue
  import opened NotificationIntake
  import NotificationOnce

  // ---------------------------------------------------------------- flags over a history

  /** What sign-in was last set to, or was at boot. */
  ghost predicate SignedInNow(h: History) {
    match h
    case Begin(_, authenticated) => authenticated
    case Then(past, Turn(e)) => if e.Authenticate? then e.authenticated else SignedInNow(past)
    case Then(_, Crash(_, authenticated)) => authenticated
    case Then(past, _) => SignedInNow(past)
  }

  /** Since the running turn started, the restart tool was called. */
  ghost predicate RestartCalled(h: History) {
    match h
    case Begin(_, _) => false
    case Then(past, Turn(e)) => !e.Loop? && (e.RestartTool? || RestartCalled(past))
    case Then(_, Crash(_, _)) => false
    case Then(past, _) => RestartCalled(past)
  }

  lemma {:induction false} PutAllSetsNoFlag(t: State, sections: seq<seq<Note>>)
    ensures var u := PutAll(t, sections); u.authenticated == t.authenticated && SameTurn(t, u)
    decreases |sections|
  {
    if sections != [] { PutAllSetsNoFlag(t, sections[..|sections| - 1]); }
  }

  lemma DecideSetsNoFlag(s: Intake, rules: Rules, flush: bool)
    requires s.loaded.Some?
    ensures var t := Moved(s, Decide(rules, flush)).turns; t.authenticated == s.turns.authenticated && SameTurn(s.turns, t)
  {
    hide PutAll, Sections, Chosen, Fresh;
    PutAllSetsNoFlag(s.turns, Sections(Chosen(Fresh(s.loaded.value, s.queuedPaths), rules, Interrupt), rules.core));
    var scanned := Scanned(s, rules);
    PutAllSetsNoFlag(scanned.turns, Sections(scanned.snoozed, rules.core));
  }

  /** The sign-in flag is what the history set it to, and the running turn's notifications are in flight until a restart is asked for. */
  lemma {:induction false} FlagsFollowTheHistory(h: History)
    requires Happens(h)
    ensures var t := Now(h).turns;
      && (t.authenticated <==> SignedInNow(h))
      && (t.stage.Running? ==> t.inFlight == if RestartCalled(h) then [] else t.stage.item.notes)
    decreases h
  {
    hide Next, Enabled, Scanned, Flushed, Cleared, HandedOver;
    if h.Then? {
      FlagsFollowTheHistory(h.past);
      match h.move
      case Turn(e) => StepSetsFlags(Now(h.past).turns, e);
      case Decide(rules, flush) => DecideSetsNoFlag(Now(h.past), rules, flush);
      case Crash(turns, authenticated) => BootHoldsNothing(turns, authenticated);
      case _ =>
    }
  }

  // ---------------------------------------------------------------- which files a step clears

  predicate Names(notes: seq<Note>, p: nat) {
    exists n :: n in notes && n.path == p
  }

  /** The step finishes with a notification of `p`: its turn ended signed in and delivered, or it was
      delivered as a preempt, or it was in flight when the restart tool was called. */
  ghost predicate Finishes(h: History, e: Event, p: nat)
    requires Happens(h) && Able(Now(h), Turn(e))
  {
    var t := Now(h).turns;
    match e
    case EndTurn(_, flagged) => SignedInNow(h) && !flagged && !RestartCalled(h) && Names(t.stage.item.notes, p)
    case Sent(ok) => ok && Names(t.hand.item.notes, p)
    case RestartTool => Names(t.inFlight, p)
    case _ => false
  }

  /** Over every history, a step of the processor removes exactly the files it finishes with, and changes no other. */
  lemma StepClearsWhatItFinishes(h: History, e: Event, p: nat)
    requires Happens(h) && Able(Now(h), Turn(e))
    ensures var files, after := Now(h).files, Moved(Now(h), Turn(e)).files;
      && (p in after <==> p in files && !Finishes(h, e, p))
      && (p in after ==> after[p] == files[p])
  {
    hide Next, HandedOver;
    FlagsFollowTheHistory(h);
  }

  /** A turn that ends signed out, or whose query never reached the CLI, leaves every file as it was. */
  lemma UndeliveredTurnKeepsEveryFile(h: History, failed: bool, flagged: bool)
    requires Happens(h) && Able(Now(h), Turn(EndTurn(failed, flagged)))
    requires !SignedInNow(h) || flagged
    ensures Moved(Now(h), Turn(EndTurn(failed, flagged))).files == Now(h).files
  {
    hide Moved;
    forall p ensures
      var files, after := Now(h).files, Moved(Now(h), Turn(EndTurn(failed, flagged))).files;
      (p in after <==> p in files) && (p in after ==> after[p] == files[p])
    {
      StepClearsWhatItFinishes(h, EndTurn(failed, flagged), p);
    }
  }

  /** A turn that ends signed in and delivered removes exactly the files it rendered, unless the restart tool already did. */
  lemma DeliveredTurnClearsItsFiles(h: History, failed: bool)
    requires Happens(h) && Able(Now(h), Turn(EndTurn(failed, false))) && SignedInNow(h)
    ensures
      var s := Now(h);
      Moved(s, Turn(EndTurn(failed, false))).files ==
        if RestartCalled(h) then s.files else map p | p in s.files && !Names(s.turns.stage.item.notes, p) :: s.files[p]
  {
    hide Moved;
    forall p ensures
      var files, after := Now(h).files, Moved(Now(h), Turn(EndTurn(failed, false))).files;
      && (p in after <==> p in files && (RestartCalled(h) || !Names(Now(h).turns.stage.item.notes, p)))
      && (p in after ==> after[p] == files[p])
    {
      StepClearsWhatItFinishes(h, EndTurn(failed, false), p);
    }
  }

  /** What such a turn left is queued again after the restart that re-authentication brings. */
  lemma KeptFileRunsAgain(h: History, failed: bool, flagged: bool, turns: seq<bool>, signedIn: bool, listing: seq<nat>, rules: Rules, n: Note)
    requires Happens(h) && Able(Now(h), Turn(EndTurn(failed, flagged))) && (!SignedInNow(h) || flagged)
    requires OnDisk(Now(h).files, n) && n.path in listing && Distinct(listing) && (forall p | p in listing :: p in Now(h).files)
    requires rules.disposition(n) == Interrupt
    ensures
      var restarted := Moved(Moved(Now(h), Turn(EndTurn(failed, flagged))), Crash(turns, signedIn));
      && Able(restarted, Load(listing))
      && n in NotesOf(Scanned(Moved(restarted, Load(listing)), rules).turns.put)
  {
    UndeliveredTurnKeepsEveryFile(h, failed, flagged);
    var restarted := Moved(Moved(Now(h), Turn(EndTurn(failed, flagged))), Crash(turns, signedIn));
    BootHoldsNothing(turns, signedIn);
    hide Scanned, Booted, NotesOf, Next, Cleared, HandedOver;
    assert restarted.files == Now(h).files && restarted.queuedPaths == {} && restarted.loaded == None;
    NotificationOnce.ATickTakesInEveryNewFile(restarted, listing, rules, n.path);
    assert n == Note(n.path, restarted.files[n.path].birth);
  }

  // ---------------------------------------------------------------- order

  /** `part` is some of `whole`, in its order. */
  ghost predicate PicksAt<X>(part: seq<X>, whole: seq<X>, at: seq<nat>) {
    && |at| == |part|
    && (forall k | 0 <= k < |at| :: at[k] < |whole| && whole[at[k]] == part[k])
    && (forall j, k | 0 <= j < k < |at| :: at[j] < at[k])
  }

  ghost predicate InOrderOf<X>(part: seq<X>, whole: seq<X>) {
    exists at: seq<nat> :: PicksAt(part, whole, at)
  }

  lemma PickOneMore<X>(part: seq<X>, whole: seq<X>, last: X, picked: bool)
    requires InOrderOf(part, whole)
    ensures InOrderOf(if picked then part + [last] else part, whole + [last])
  {
    var at: seq<nat> :| PicksAt(part, whole, at);
    if picked {
      assert PicksAt(part + [last], whole + [last], at + [|whole|]);
    } else {
      assert PicksAt(part, whole + [last], at);
    }
  }

  lemma {:induction false} FilterIsInOrder<X>(xs: seq<X>, keep: X -> bool)
    ensures InOrderOf(Filter(xs, keep), xs)
  {
    if xs == [] {
      assert PicksAt<X>([], [], []);
    } else {
      var front, last := xs[..|xs| - 1], xs[|xs| - 1];
      assert xs == front + [last];
      FilterIsInOrder(front, keep);
      PickOneMore(Filter(front, keep), front, last, keep(last));
    }
  }

  lemma PicksCompose<X>(a: seq<X>, b: seq<X>, c: seq<X>)
    requires InOrderOf(a, b) && InOrderOf(b, c)
    ensures InOrderOf(a, c)
  {
    var i: seq<nat> :| PicksAt(a, b, i);
    var j: seq<nat> :| PicksAt(b, c, j);
    var at: seq<nat> := seq(|i|, k requires 0 <= k < |i| => j[i[k]]);
    assert PicksAt(a, c, at);
  }

  // ---------------------------------------------------------------- sections

  /** Queued turns of one batch: each all of the agent's own notifications or all of others', its own
      first, each in the order of the batch, and all can be preempted into a running turn. */
  ghost predicate AreSections(items: seq<Item>, batch: seq<Note>, core: Note -> bool) {
    && |items| <= 2 && NotesOf(items) == multiset(batch)
    && (forall i | 0 <= i < |items| ::
          && items[i].interruptible && items[i].notes != [] && InOrderOf(items[i].notes, batch)
          && (forall n | n in items[i].notes :: core(n) <==> core(items[i].notes[0])))
    && (|items| == 2 ==> core(items[0].notes[0]) && !core(items[1].notes[0]))
  }

  lemma {:induction false} FilterHolds<X>(xs: seq<X>, keep: X -> bool)
    ensures forall x | x in Filter(xs, keep) :: keep(x)
  {
    if xs != [] { FilterHolds(xs[..|xs| - 1], keep); }
  }

  lemma BatchIsQueuedInSections(t: State, batch: seq<Note>, core: Note -> bool) returns (items: seq<Item>)
    ensures var u := PutAll(t, Sections(batch, core));
      u.queue == t.queue + items && u.put == t.put + items && AreSections(items, batch, core)
  {
    var system, external := Filter(batch, core), Filter(batch, Except(core));
    FilterIsInOrder(batch, core);
    FilterIsInOrder(batch, Except(core));
    FilterHolds(batch, core);
    FilterHolds(batch, Except(core));
    CoreDivides(batch, core);
    forall n | n in external ensures !core(n) { assert Except(core)(n); }
    hide Filter, InOrderOf, Except, PutAll;
    items := PutSections(t, system, external);
    AssembleSections(items, batch, core, system, external, |t.put|);
  }

  function SectionItems(system: seq<Note>, external: seq<Note>, id: nat): seq<Item> {
    (if system == [] then [] else [Item(id, true, system)])
    + if external == [] then [] else [Item(if system == [] then id else id + 1, true, external)]
  }

  lemma AssembleSections(items: seq<Item>, batch: seq<Note>, core: Note -> bool, system: seq<Note>, external: seq<Note>, id: nat)
    requires items == SectionItems(system, external, id) && multiset(batch) == multiset(system) + multiset(external)
    requires InOrderOf(system, batch) && forall n | n in system :: core(n)
    requires InOrderOf(external, batch) && forall n | n in external :: !core(n)
    ensures AreSections(items, batch, core)
  {
    hide InOrderOf;
    var one, two := Item(id, true, system), Item(if system == [] then id else id + 1, true, external);
    NotesOfNone();
    NotesOfOne(one);
    NotesOfOne(two);
    NotesOfSplits([one], [two]);
    hide NotesOf;
    assert [one] + [two] == [one, two];
    if system == [] && external == [] {
      assert items == [];
    } else if system == [] {
      assert items == [two] && external[0] in external;
    } else if external == [] {
      assert items == [one] && system[0] in system;
    } else {
      assert items == [one, two] && system[0] in system && external[0] in external;
    }
  }

  lemma PutSections(t: State, system: seq<Note>, external: seq<Note>) returns (items: seq<Item>)
    ensures items == SectionItems(system, external, |t.put|)
    ensures
      var sections :=
        if system == [] && external == [] then [] else if system == [] then [external]
        else if external == [] then [system] else [system, external];
      PutAll(t, sections).queue == t.queue + items && PutAll(t, sections).put == t.put + items
  {
    items := SectionItems(system, external, |t.put|);
    assert [system][..0] == [] && [external][..0] == [] && [system, external][..1] == [system];
    assert PutAll(t, [system]) == Next(t, Put(system));
    assert t.queue + [Item(|t.put|, true, system)] + [Item(|t.put| + 1, true, external)] ==
      t.queue + [Item(|t.put|, true, system), Item(|t.put| + 1, true, external)];
  }

  // ---------------------------------------------------------------- a tick

  /** How often the tick takes `n` in: as often as it was read, when its path is not remembered. */
  function Incoming(s: Intake, n: Note): nat
    requires s.loaded.Some?
  {
    if n.path in s.queuedPaths then 0 else multiset(s.loaded.value)[n]
  }

  /** What the tick takes in under one disposition, in the order it was read. */
  ghost predicate TakesIn(s: Intake, rules: Rules, d: Disposition, taken: seq<Note>)
    requires s.loaded.Some?
  {
    && InOrderOf(taken, s.loaded.value)
    && forall n :: multiset(taken)[n] == if rules.disposition(n) == d then Incoming(s, n) else 0
  }

  lemma ChosenIsTakenIn(s: Intake, rules: Rules, d: Disposition)
    requires s.loaded.Some?
    ensures TakesIn(s, rules, d, Chosen(Fresh(s.loaded.value, s.queuedPaths), rules, d))
  {
    var unseen := Fresh(s.loaded.value, s.queuedPaths);
    var taken := Chosen(unseen, rules, d);
    FilterIsInOrder(s.loaded.value, Unqueued(s.queuedPaths));
    FilterIsInOrder(unseen, Judged(rules, d));
    PicksCompose(taken, unseen, s.loaded.value);
    forall n ensures multiset(taken)[n] == if rules.disposition(n) == d then Incoming(s, n) else 0 {
      FilterKeeps(unseen, Judged(rules, d), n);
      FreshIsUnseen(s.loaded.value, s.queuedPaths, n);
    }
  }

  /**
   A tick queues what interrupts, in sections, behind what was queued. Without a flush the newly
   snoozed wait behind those that waited; with one all of them are queued next, in sections, and none
   waits. The running turn is not touched.
   */
  lemma TickQueuesAndSnoozes(s: Intake, rules: Rules, flush: bool)
    returns (interrupting: seq<Note>, snoozing: seq<Note>, now: seq<Item>, later: seq<Item>)
    requires s.loaded.Some?
    ensures TakesIn(s, rules, Interrupt, interrupting) && TakesIn(s, rules, Snooze, snoozing)
    ensures AreSections(now, interrupting, rules.core)
    ensures if flush then AreSections(later, s.snoozed + snoozing, rules.core) else later == []
    ensures
      var after := Moved(s, Decide(rules, flush));
      && after.turns.queue == s.turns.queue + now + later && after.turns.put == s.turns.put + now + later
      && after.snoozed == (if flush then [] else s.snoozed + snoozing)
      && SameTurn(s.turns, after.turns)
  {
    hide AreSections, TakesIn, Chosen, Fresh, PutAll, Sections;
    var unseen := Fresh(s.loaded.value, s.queuedPaths);
    interrupting, snoozing := Chosen(unseen, rules, Interrupt), Chosen(unseen, rules, Snooze);
    ChosenIsTakenIn(s, rules, Interrupt);
    ChosenIsTakenIn(s, rules, Snooze);
    DecideSetsNoFlag(s, rules, flush);
    now := BatchIsQueuedInSections(s.turns, interrupting, rules.core);
    var scanned := Scanned(s, rules);
    later := [];
    if flush {
      later := BatchIsQueuedInSections(scanned.turns, scanned.snoozed, rules.core);
    }
  }

  /** A tick announces what it takes in, in the order it was read. */
  lemma TickAnnounces(s: Intake, rules: Rules, flush: bool) returns (news: seq<Note>)
    requires s.loaded.Some?
    ensures Moved(s, Decide(rules, flush)).announced == s.announced + news
    ensures InOrderOf(news, s.loaded.value) && forall n :: multiset(news)[n] == Incoming(s, n)
  {
    hide Chosen, PutAll, Sections;
    news := Fresh(s.loaded.value, s.queuedPaths);
    FilterIsInOrder(s.loaded.value, Unqueued(s.queuedPaths));
    forall n ensures multiset(news)[n] == Incoming(s, n) {
      FreshIsUnseen(s.loaded.value, s.queuedPaths, n);
    }
    hide Fresh;
  }

  /** A rule of the tick trashes something read at `p`. */
  ghost predicate TrashesAt(s: Intake, rules: Rules, p: nat)
    requires s.loaded.Some?
  {
    p !in s.queuedPaths && exists n :: n in s.loaded.value && n.path == p && rules.disposition(n) == Trash
  }

  /** A tick moves exactly the files it trashes, over same-named ones in the trash, and touches no other. */
  lemma TickTrashes(s: Intake, rules: Rules, flush: bool, p: nat)
    requires s.loaded.Some?
    ensures
      var after := Moved(s, Decide(rules, flush));
      && (p in after.files <==> p in s.files && !TrashesAt(s, rules, p))
      && (p in after.files ==> after.files[p] == s.files[p])
      && (if p in s.files && TrashesAt(s, rules, p) then p in after.trash && after.trash[p] == s.files[p]
          else (p in after.trash <==> p in s.trash) && (p in after.trash ==> after.trash[p] == s.trash[p]))
  {
    hide Chosen, Fresh, PutAll, Sections;
    var unseen := Fresh(s.loaded.value, s.queuedPaths);
    var trashed := Chosen(unseen, rules, Trash);
    assert p in Paths(trashed) <==> TrashesAt(s, rules, p) by {
      forall n ensures n in trashed <==> n in s.loaded.value && n.path !in s.queuedPaths && rules.disposition(n) == Trash {
        NotificationOnce.ChosenAre(unseen, rules, Trash, n);
        NotificationOnce.FreshAre(s.loaded.value, s.queuedPaths, n);
      }
    }
  }

  lemma {:induction false} HeldWasPut(h: History)
    requires Happens(h)
    ensures var t := Now(h).turns; Shaped(t) && Held(t) <= NotesOf(t.put)
    decreases h
  {
    hide Next, Enabled, Shaped, Held, NotesOf, Scanned, Flushed, Cleared, HandedOver, Booted;
    if h.Begin? {
      BootHoldsNothing(h.turns, h.authenticated);
    } else {
      HeldWasPut(h.past);
      var s := Now(h.past);
      match h.move
      case Turn(e) =>
        StepKeepsShape(s.turns, e);
        StepHolds(s.turns, e);
        PutLog(s.turns, e);
      case Decide(rules, flush) => DecideHoldsWhatItPuts(s, rules, flush);
      case Crash(turns, authenticated) => BootHoldsNothing(turns, authenticated);
      case _ =>
    }
  }

  lemma DecideHoldsWhatItPuts(s: Intake, rules: Rules, flush: bool)
    requires s.loaded.Some? && Shaped(s.turns) && Held(s.turns) <= NotesOf(s.turns.put)
    ensures var t := Moved(s, Decide(rules, flush)).turns; Shaped(t) && Held(t) <= NotesOf(t.put)
  {
    hide Held, NotesOf, PutAll, Sections, Chosen, Fresh, Shaped;
    PutBatch(s.turns, Chosen(Fresh(s.loaded.value, s.queuedPaths), rules, Interrupt), rules.core);
    var scanned := Scanned(s, rules);
    PutBatch(scanned.turns, scanned.snoozed, rules.core);
  }

  /** Over every history, a flushing tick leaves nothing snoozed, and each notification snoozed before
      or by it is in the queue exactly once, and was never put there before. */
  lemma FlushQueuesEachOnce(h: History, rules: Rules, n: Note)
    requires Happens(h) && Able(Now(h), Decide(rules, true))
    requires n in Now(h).snoozed || (rules.disposition(n) == Snooze && Incoming(Now(h), n) > 0)
    ensures
      var after := Moved(Now(h), Decide(rules, true));
      after.snoozed == [] && NotesOf(after.turns.queue)[n] == 1 && NotesOf(after.turns.put)[n] == 1
  {
    hide Moved, NotesOf, Shaped, Held, AreSections, Happens, Now, InOrderOf;
    OneMoveOn(h, Decide(rules, true));
    HeldWasPut(Then(h, Decide(rules, true)));
    NotificationOnce.AnnouncedAndQueuedAtMostOnce(Then(h, Decide(rules, true)), n);
    FlushQueuesAtLeastOnce(Now(h), rules, n);
    QueueIsHeld(Moved(Now(h), Decide(rules, true)).turns);
  }

  lemma OneMoveOn(h: History, m: Move)
    requires Happens(h) && Able(Now(h), m)
    ensures Happens(Then(h, m)) && Now(Then(h, m)) == Moved(Now(h), m)
  {
    hide Moved, Able;
  }

  lemma FlushQueuesAtLeastOnce(s: Intake, rules: Rules, n: Note)
    requires s.loaded.Some? && (n in s.snoozed || (rules.disposition(n) == Snooze && Incoming(s, n) > 0))
    ensures var after := Moved(s, Decide(rules, true)); after.snoozed == [] && NotesOf(after.turns.queue)[n] >= 1
  {
    hide Moved, NotesOf, AreSections, InOrderOf;
    var interrupting, snoozing, now, later := TickQueuesAndSnoozes(s, rules, true);
    NotesOfSplits(s.turns.queue + now, later);
    FlushedAreSections(later, s.snoozed, snoozing, rules.core, n);
  }

  lemma QueueIsHeld(t: State)
    ensures NotesOf(t.queue) <= Held(t)
  {
  }

  lemma FlushedAreSections(later: seq<Item>, snoozed: seq<Note>, snoozing: seq<Note>, core: Note -> bool, n: Note)
    requires AreSections(later, snoozed + snoozing, core)
    ensures NotesOf(later)[n] == multiset(snoozed)[n] + multiset(snoozing)[n]
  {
    hide NotesOf, InOrderOf;
  }

  // ---------------------------------------------------------------- reading the directory

  /** `part` is what was read of some of the listing's paths, in its order. */
  ghost predicate ReadAt(loaded: seq<Note>, listing: seq<nat>, at: seq<nat>) {
    && |at| == |loaded|
    && (forall k | 0 <= k < |at| :: at[k] < |listing| && listing[at[k]] == loaded[k].path)
    && (forall j, k | 0 <= j < k < |at| :: at[j] < at[k])
  }

  lemma {:induction false} ParseIsInOrder(files: Files, listing: seq<nat>) returns (at: seq<nat>)
    ensures ReadAt(Parse(files, listing), listing, at)
  {
    if listing == [] {
      at := [];
    } else {
      var front, last := listing[..|listing| - 1], listing[|listing| - 1];
      at := ParseIsInOrder(files, front);
      var read := last in files && files[last].parses;
      ReadOneMore(Parse(files, front), front, at, last, if last in files then files[last].birth else 0);
      hide ReadAt;
      assert listing == front + [last];
      if read { at := at + [|front|]; }
    }
  }

  lemma ReadOneMore(loaded: seq<Note>, listing: seq<nat>, at: seq<nat>, last: nat, birth: nat)
    requires ReadAt(loaded, listing, at)
    ensures ReadAt(loaded, listing + [last], at) && ReadAt(loaded + [Note(last, birth)], listing + [last], at + [|listing|])
  {
  }

  /** A tick reads exactly the listed files that parse, in their order, removes exactly the listed ones
      that do not, and forgets exactly the queued paths whose files are gone. */
  lemma LoadReadsTheDirectory(s: Intake, listing: seq<nat>) returns (at: seq<nat>)
    requires Able(s, Load(listing))
    ensures
      var after := Moved(s, Load(listing));
      && after.loaded.Some? && ReadAt(after.loaded.value, listing, at)
      && (forall n :: n in after.loaded.value <==> n.path in listing && s.files[n.path] == Content(n.birth, true))
      && (forall p :: p in after.files <==> p in s.files && (p in listing ==> s.files[p].parses))
      && (forall p | p in after.files :: after.files[p] == s.files[p])
      && (forall p :: p in after.queuedPaths <==> p in s.queuedPaths && p in s.files)
  {
    at := ParseIsInOrder(s.files, listing);
    forall n ensures n in Parse(s.files, listing) <==> n.path in listing && s.files[n.path] == Content(n.birth, true) {
      ParseReads(s.files, listing, n);
    }
  }
}
