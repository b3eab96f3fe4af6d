/**
 No notification is announced or queued twice by one process, however long its file stays on disk.
 */
module NotificationOnce {
  import opened Options
  import opened TurnQueue
  import opened NotificationIntake

  // ---------------------------------------------------------------- announced and queued at most once

  predicate HasBirth(files: Files, n: Note) {
    n.path in files && files[n.path].birth == n.birth
  }

  /** An announced notification whose file is still there is remembered as queued. */
  ghost predicate Remembered(s: Intake) {
    forall n | n in s.announced :: n.path in s.queuedPaths || !HasBirth(s.files, n)
  }

  /** What was read is each file once, and anything among it already announced is remembered. */
  ghost predicate ReadOnce(s: Intake) {
    s.loaded.Some? ==> forall n | n in s.loaded.value ::
      multiset(s.loaded.value)[n] == 1 && (n in s.announced ==> n.path in s.queuedPaths)
  }

  /** Every announced notification was trashed, or waits snoozed, or was put in one queued turn. */
  ghost predicate Accounted(s: Intake) {
    multiset(s.announced) == multiset(s.discarded) + multiset(s.snoozed) + NotesOf(s.turns.put)
  }

  ghost predicate Numbered(s: Intake) {
    && (forall p | p in s.files :: s.files[p].birth < s.births)
    && (forall n | n in s.announced :: n.birth < s.births)
    && (s.loaded.Some? ==> forall n | n in s.loaded.value :: n.birth < s.births)
  }

  ghost predicate AnnouncedOnce(s: Intake) {
    && Shaped(s.turns) && Remembered(s) && ReadOnce(s) && Accounted(s) && Numbered(s)
    && forall n | n in s.announced :: multiset(s.announced)[n] == 1
  }

  lemma WriteAnnouncesOnce(s: Intake, p: nat, parses: bool)
    requires AnnouncedOnce(s)
    ensures AnnouncedOnce(Moved(s, Write(p, parses)))
  {
    hide Shaped, NotesOf;
  }

  lemma LoadAnnouncesOnce(s: Intake, listing: seq<nat>)
    requires AnnouncedOnce(s) && Able(s, Load(listing))
    ensures AnnouncedOnce(Moved(s, Load(listing)))
  {
    hide Shaped, NotesOf, Parse, Accounted;
    var after := Moved(s, Load(listing));
    forall n | n in after.loaded.value
      ensures multiset(after.loaded.value)[n] == 1 && n.birth < s.births && (n in s.announced ==> n.path in after.queuedPaths)
    {
      ParseReads(s.files, listing, n);
      assert OnDisk(s.files, n) && HasBirth(s.files, n);
    }
    assert Accounted(after) by { SameAccount(s, after); }
  }

  lemma SameAccount(s: Intake, after: Intake)
    requires Accounted(s)
    requires after.announced == s.announced && after.discarded == s.discarded && after.snoozed == s.snoozed
    requires NotesOf(after.turns.put) == NotesOf(s.turns.put)
    ensures Accounted(after)
  {
  }

  lemma TurnAnnouncesOnce(s: Intake, e: Event)
    requires AnnouncedOnce(s) && Able(s, Turn(e))
    ensures AnnouncedOnce(Moved(s, Turn(e)))
  {
    hide Shaped, NotesOf, Next, Cleared, HandedOver;
    StepKeepsShape(s.turns, e);
    PutLog(s.turns, e);
  }

  lemma ScanAnnouncesOnce(s: Intake, rules: Rules)
    requires AnnouncedOnce(s) && s.loaded.Some?
    ensures AnnouncedOnce(Scanned(s, rules))
  {
    hide Held, Filter, PutAll, Sections, Shaped, Chosen, Fresh, NotesOf;
    var after := Scanned(s, rules);
    var unseen := Fresh(s.loaded.value, s.queuedPaths);
    var interrupting, snoozing, trashed := Chosen(unseen, rules, Interrupt), Chosen(unseen, rules, Snooze), Chosen(unseen, rules, Trash);
    PutBatch(s.turns, interrupting, rules.core);
    ChosenPartition(unseen, rules);
    assert Accounted(after);
    forall n | n in after.announced
      ensures multiset(after.announced)[n] == 1 && n.birth < s.births && (n.path in after.queuedPaths || !HasBirth(after.files, n))
    {
      FreshIsUnseen(s.loaded.value, s.queuedPaths, n);
      assert multiset(after.announced)[n] == multiset(s.announced)[n] + multiset(unseen)[n];
      if n in unseen {
        assert n in s.loaded.value;
        assert n in interrupting || n in snoozing || n in trashed;
      }
    }
  }

  lemma FlushAnnouncesOnce(s: Intake, core: Note -> bool)
    requires AnnouncedOnce(s)
    ensures AnnouncedOnce(Flushed(s, core))
  {
    hide Held, PutAll, Sections, Shaped, NotesOf;
    PutBatch(s.turns, s.snoozed, core);
  }

  lemma MoveAnnouncesOnce(s: Intake, m: Move)
    requires AnnouncedOnce(s) && Able(s, m)
    ensures AnnouncedOnce(Moved(s, m))
  {
    hide AnnouncedOnce, Scanned, Flushed;
    match m
    case Write(p, parses) => WriteAnnouncesOnce(s, p, parses);
    case Load(listing) => LoadAnnouncesOnce(s, listing);
    case Decide(rules, flush) =>
      ScanAnnouncesOnce(s, rules);
      FlushAnnouncesOnce(Scanned(s, rules), rules.core);
    case Turn(e) => TurnAnnouncesOnce(s, e);
    case Crash(turns, authenticated) => CrashAnnouncesOnce(s, turns, authenticated);
  }

  lemma CrashAnnouncesOnce(s: Intake, turns: seq<bool>, authenticated: bool)
    requires AnnouncedOnce(s)
    ensures AnnouncedOnce(Moved(s, Crash(turns, authenticated)))
  {
    hide Shaped, NotesOf, Booted;
    BootHoldsNothing(turns, authenticated);
  }

  lemma {:induction false} EveryHistoryAnnouncesOnce(h: History)
    requires Happens(h)
    ensures AnnouncedOnce(Now(h))
    decreases h
  {
    hide AnnouncedOnce, Moved, Able;
    if h.Begin? {
      StartAnnouncesOnce(h.turns, h.authenticated);
    } else {
      EveryHistoryAnnouncesOnce(h.past);
      MoveAnnouncesOnce(Now(h.past), h.move);
    }
  }

  lemma StartAnnouncesOnce(turns: seq<bool>, authenticated: bool)
    ensures AnnouncedOnce(Intake(Booted(turns, authenticated), map[], map[], None, [], {}, 0, map[], {}, {}, [], []))
  {
    BootHoldsNothing(turns, authenticated);
  }

  /**
   In one process a write of a file is announced at most once, and once announced it was trashed,
   or waits snoozed, or was put in exactly one queued turn, however long its file stays on disk.
   */
  lemma AnnouncedAndQueuedAtMostOnce(h: History, n: Note)
    requires Happens(h)
    ensures var s := Now(h);
      && multiset(s.announced)[n] <= 1
      && multiset(s.discarded)[n] + multiset(s.snoozed)[n] + NotesOf(s.turns.put)[n] == multiset(s.announced)[n]
  {
    hide Moved, Able, NotesOf, Shaped;
    EveryHistoryAnnouncesOnce(h);
    if n !in Now(h).announced { assert multiset(Now(h).announced)[n] == 0; }
  }

  // ---------------------------------------------------------------- every new file is taken in

  lemma ChosenHolds(unseen: seq<Note>, rules: Rules, n: Note)
    requires n in unseen
    ensures n in Chosen(unseen, rules, rules.disposition(n))
  {
    FilterKeeps(unseen, Judged(rules, rules.disposition(n)), n);
    assert multiset(Chosen(unseen, rules, rules.disposition(n)))[n] > 0;
  }

  /**
   A tick takes in every file it lists that parses and is not remembered: it is announced, and
   queued, snoozed or trashed as the rules say. A path whose file is gone is no longer remembered.
   */
  lemma ATickTakesInEveryNewFile(s: Intake, listing: seq<nat>, rules: Rules, p: nat)
    requires Shaped(s.turns) && Able(s, Load(listing)) && p in listing && s.files[p].parses && p !in s.queuedPaths
    ensures
      var n := Note(p, s.files[p].birth);
      var read := Moved(s, Load(listing));
      var after := Scanned(read, rules);
      && n in after.announced
      && match rules.disposition(n)
         case Interrupt => n in NotesOf(after.turns.put) && p in after.queuedPaths
         case Snooze => n in after.snoozed && p in after.queuedPaths
         case Trash => p !in after.files && p in after.trash && after.trash[p] == s.files[p]
  {
    hide Held, Filter, PutAll, Sections, Shaped, Chosen, Fresh, NotesOf, Parse;
    var n := Note(p, s.files[p].birth);
    var read := Moved(s, Load(listing));
    ParseReads(s.files, listing, n);
    var loaded := read.loaded.value;
    var unseen := Fresh(loaded, read.queuedPaths);
    FreshIsUnseen(loaded, read.queuedPaths, n);
    assert multiset(loaded)[n] > 0;
    assert n in unseen;
    ChosenHolds(unseen, rules, n);
    PutBatch(read.turns, Chosen(unseen, rules, Interrupt), rules.core);
    assert n.path in Paths(Chosen(unseen, rules, rules.disposition(n)));
  }

  lemma VanishedPathsAreForgotten(s: Intake, listing: seq<nat>, p: nat)
    requires Able(s, Load(listing)) && p !in s.files
    ensures p !in Moved(s, Load(listing)).queuedPaths
  {
  }

  // ---------------------------------------------------------------- one announcement for each stay of a path

  /** A tick announces `p` and keeps its file. */
  ghost predicate AnnouncesAndKeeps(s: Intake, m: Move, p: nat)
    requires Able(s, m)
  {
    m.Decide? && exists n :: n in Fresh(s.loaded.value, s.queuedPaths) && n.path == p && m.rules.disposition(n) != Trash
  }

  /** `p` was announced and kept in this process, and no reading of the directory has found it absent since. */
  ghost predicate Stands(h: History, p: nat)
    requires Happens(h)
  {
    h.Then? && !h.move.Crash?
    && (h.move.Load? ==> p in Now(h.past).files)
    && (Stands(h.past, p) || AnnouncesAndKeeps(Now(h.past), h.move, p))
  }

  lemma ScanRemembers(s: Intake, rules: Rules, flush: bool, p: nat)
    requires Able(s, Decide(rules, flush))
    ensures p in Moved(s, Decide(rules, flush)).queuedPaths <==>
      p in s.queuedPaths || AnnouncesAndKeeps(s, Decide(rules, flush), p)
  {
    hide Filter, Chosen, Fresh, PutAll, Sections;
    var unseen := Fresh(s.loaded.value, s.queuedPaths);
    var interrupting, snoozing := Chosen(unseen, rules, Interrupt), Chosen(unseen, rules, Snooze);
    forall n ensures n in interrupting || n in snoozing <==> n in unseen && rules.disposition(n) != Trash {
      ChosenAre(unseen, rules, Interrupt, n);
      ChosenAre(unseen, rules, Snooze, n);
    }
    if AnnouncesAndKeeps(s, Decide(rules, flush), p) {
      var n :| n in unseen && n.path == p && rules.disposition(n) != Trash;
      assert n in interrupting || n in snoozing;
    }
  }

  lemma ChosenAre(unseen: seq<Note>, rules: Rules, d: Disposition, n: Note)
    ensures n in Chosen(unseen, rules, d) <==> n in unseen && rules.disposition(n) == d
  {
    hide Filter;
    FilterKeeps(unseen, Judged(rules, d), n);
    assert n in Chosen(unseen, rules, d) <==> multiset(Chosen(unseen, rules, d))[n] > 0;
    assert n in unseen <==> multiset(unseen)[n] > 0;
  }

  /** A path is remembered as queued exactly while its announcement stands, however often its file is rewritten. */
  lemma {:induction false} RememberedWhileItStands(h: History, p: nat)
    requires Happens(h)
    ensures p in Now(h).queuedPaths <==> Stands(h, p)
    decreases h
  {
    hide AnnouncesAndKeeps, Next, Cleared, HandedOver, Scanned, Parse, Malformed, Booted;
    if h.Then? {
      RememberedWhileItStands(h.past, p);
      var s := Now(h.past);
      match h.move
      case Decide(rules, flush) => ScanRemembers(s, rules, flush, p);
      case _ => OnlyDecidingAnnounces(s, h.move, p);
    }
  }

  lemma OnlyDecidingAnnounces(s: Intake, m: Move, p: nat)
    requires Able(s, m) && !m.Decide?
    ensures !AnnouncesAndKeeps(s, m, p)
  {
  }

  predicate DistinctPaths(notes: seq<Note>) {
    forall i, j | 0 <= i < j < |notes| :: notes[i].path != notes[j].path
  }

  lemma {:induction false} ParsedPathsAreDistinct(files: Files, listing: seq<nat>)
    requires Distinct(listing)
    ensures DistinctPaths(Parse(files, listing))
    ensures forall n | n in Parse(files, listing) :: n.path in listing
  {
    if listing != [] {
      var front, last := listing[..|listing| - 1], listing[|listing| - 1];
      assert listing == front + [last] && last !in front;
      ParsedPathsAreDistinct(files, front);
      var rest := Parse(files, front);
      forall i | 0 <= i < |rest| ensures rest[i].path != last { assert rest[i] in rest; }
    }
  }

  lemma {:induction false} LoadedPathsAreDistinct(h: History)
    requires Happens(h)
    ensures Now(h).loaded.Some? ==> DistinctPaths(Now(h).loaded.value)
    decreases h
  {
    hide Next, Cleared, HandedOver, Parse, Malformed, Booted, DistinctPaths, Sections, PutAll, Chosen, Fresh;
    if h.Then? {
      LoadedPathsAreDistinct(h.past);
      if h.move.Load? { ParsedPathsAreDistinct(Now(h.past).files, h.move.listing); }
    }
  }

  lemma FreshAre(loaded: seq<Note>, queuedPaths: set<nat>, n: Note)
    ensures n in Fresh(loaded, queuedPaths) <==> n in loaded && n.path !in queuedPaths
  {
    hide Filter;
    FreshIsUnseen(loaded, queuedPaths, n);
    assert n in Fresh(loaded, queuedPaths) <==> multiset(Fresh(loaded, queuedPaths))[n] > 0;
    assert n in loaded <==> multiset(loaded)[n] > 0;
  }

  /**
   Between two announcements of one path in a process, some reading of the directory found the path
   absent, or the first one was trashed: a tick announces a path it read exactly when no
   announcement of it stands, and reads each path once.
   */
  lemma AnnouncedOncePerStay(h: History, rules: Rules, flush: bool, n: Note)
    requires Happens(h) && Able(Now(h), Decide(rules, flush))
    ensures n in Fresh(Now(h).loaded.value, Now(h).queuedPaths) <==> n in Now(h).loaded.value && !Stands(h, n.path)
    ensures DistinctPaths(Now(h).loaded.value)
  {
    hide Moved, Fresh;
    RememberedWhileItStands(h, n.path);
    LoadedPathsAreDistinct(h);
    FreshAre(Now(h).loaded.value, Now(h).queuedPaths, n);
  }

  /** `h` goes on from `since`. */
  ghost predicate GoesOn(h: History, since: History) {
    h == since || (h.Then? && GoesOn(h.past, since))
  }

  /** Since then the process was restarted, or a reading of the directory found `p` absent. */
  ghost predicate Interrupted(h: History, since: History, p: nat)
    requires Happens(h)
  {
    h != since && h.Then?
    && (Interrupted(h.past, since, p) || h.move.Crash? || (h.move.Load? && p !in Now(h.past).files))
  }

  lemma {:induction false} StandsUntilInterrupted(h: History, since: History, p: nat)
    requires Happens(h) && GoesOn(h, since) && Happens(since) && Stands(since, p) && !Interrupted(h, since, p)
    ensures Stands(h, p)
  {
    hide AnnouncesAndKeeps, Moved;
    if h != since { StandsUntilInterrupted(h.past, since, p); }
  }

  /**
   Two announcements of one path: when a tick announced and kept `p`, and a later tick announces `p`
   again, the process was restarted in between or a reading of the directory found `p` absent.
   */
  lemma AnnouncedAgainOnlyAfterAbsence(first: History, h: History, m: Move, rules: Rules, flush: bool, n: Note)
    requires Happens(h) && GoesOn(h, Then(first, m)) && Able(Now(h), Decide(rules, flush))
    requires Happens(Then(first, m)) && AnnouncesAndKeeps(Now(first), m, n.path)
    requires n in Fresh(Now(h).loaded.value, Now(h).queuedPaths)
    ensures Interrupted(h, Then(first, m), n.path)
  {
    hide Moved, Fresh, AnnouncesAndKeeps;
    var since := Then(first, m);
    assert Stands(since, n.path) by { KeepingStands(first, m, n.path); }
    AnnouncedOncePerStay(h, rules, flush, n);
    if !Interrupted(h, since, n.path) { StandsUntilInterrupted(h, since, n.path); }
  }

  lemma KeepingStands(first: History, m: Move, p: nat)
    requires Happens(Then(first, m)) && AnnouncesAndKeeps(Now(first), m, p)
    ensures Stands(Then(first, m), p)
  {
    hide Moved;
  }
}
