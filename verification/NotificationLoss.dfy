/**
 Which notifications are lost when files may be rewritten and the restart tool called at any time:
 clearing and trashing go by name, so a step can delete a content nobody was shown, or trash one
 that no rule judged.
 */
module NotificationLoss {
  import opened Options
  import opened TurnQueue
  import opened NotificationIntake
  import opened NotificationSafety

  // ---------------------------------------------------------------- who is lost

  /** Some notification of `p` was read and is still on its way to the agent. */
  predicate OnItsWay(s: Intake, n: Note) {
    n in InCare(s) || (s.loaded.Some? && n in s.loaded.value && n.path !in s.queuedPaths)
  }

  ghost predicate IsHeld(s: Intake, p: nat) {
    exists n :: OnItsWay(s, n) && n.path == p
  }

  /** The processor deletes the file at `p`. */
  predicate Deletes(s: Intake, m: Move, p: nat)
    requires Able(s, m)
  {
    m.Turn? && p in s.files && p in Paths(Cleared(s.turns, m.event))
  }

  /** It does so on behalf of a notification read from an earlier write of that file. */
  ghost predicate DeletesForOlder(s: Intake, m: Move, p: nat)
    requires Able(s, m)
  {
    Deletes(s, m, p) && exists n :: n in Cleared(s.turns, m.event) && n.path == p && n.birth < s.files[p].birth
  }

  /** The restart tool does so although the CLI has not received the running prompt. */
  predicate DeletesUnheard(s: Intake, m: Move, p: nat) {
    m == Turn(RestartTool) && p in s.files && Note(p, s.files[p].birth) in s.turns.inFlight && s.files[p].birth !in s.delivered
  }

  /** What a scan sends to the trash. */
  function Trashed(s: Intake, rules: Rules): seq<Note>
    requires s.loaded.Some?
  {
    Chosen(Fresh(s.loaded.value, s.queuedPaths), rules, Trash)
  }

  /** A scan trashes the file at `p` for what was read of it, though it holds something else by now. */
  predicate TrashesUnjudged(s: Intake, m: Move, p: nat)
    requires Able(s, m)
  {
    && m.Decide? && p in s.files && p in Paths(Trashed(s, m.rules))
    && Note(p, s.files[p].birth) !in Trashed(s, m.rules)
  }

  predicate Rewrites(m: Move, p: nat) {
    m.Write? && m.path == p
  }

  /** Since its latest write the file was deleted by the processor. */
  ghost predicate Deleted(h: History, p: nat)
    requires Happens(h)
  {
    h.Then? && !Rewrites(h.move, p) && (Deleted(h.past, p) || Deletes(Now(h.past), h.move, p))
  }

  /** Since its latest write the file was deleted on behalf of an older one. */
  ghost predicate Overtaken(h: History, p: nat)
    requires Happens(h)
  {
    h.Then? && !Rewrites(h.move, p) && (Overtaken(h.past, p) || DeletesForOlder(Now(h.past), h.move, p))
  }

  /** Since its latest write the file was deleted by a restart request that came before delivery. */
  ghost predicate Unheard(h: History, p: nat)
    requires Happens(h)
  {
    h.Then? && !Rewrites(h.move, p) && (Unheard(h.past, p) || DeletesUnheard(Now(h.past), h.move, p))
  }

  /** Since its latest write the file was trashed though no rule had judged that write. */
  ghost predicate Unjudged(h: History, p: nat)
    requires Happens(h)
  {
    h.Then? && !Rewrites(h.move, p) && (Unjudged(h.past, p) || TrashesUnjudged(Now(h.past), h.move, p))
  }

  /** When the file was last written, a notification of it was on its way. */
  ghost predicate WrittenWhileHeld(h: History, p: nat)
    requires Happens(h)
  {
    h.Then? && if Rewrites(h.move, p) then IsHeld(Now(h.past), p) else WrittenWhileHeld(h.past, p)
  }

  // ---------------------------------------------------------------- one path's story

  /** A turn whose prompt was delivered handed over what it renders. */
  ghost predicate Heard(s: Intake) {
    var t := s.turns;
    t.stage.Running? && t.stage.delivered ==> Births(t.stage.item.notes) <= s.delivered
  }

  ghost predicate Numbers(s: Intake, p: nat) {
    && (p in s.latest ==> s.latest[p].birth < s.births)
    && (p in s.trash ==> s.trash[p].birth < s.births)
    && (forall n | n in s.condemned && n.path == p :: n.birth < s.births)
  }

  /** What happened to the latest write of a path. */
  datatype Fate = Fate(deleted: bool, overtaken: bool, unheard: bool, unjudged: bool)

  const UNTOUCHED := Fate(false, false, false, false)

  ghost function FateAfter(f: Fate, s: Intake, m: Move, p: nat): Fate
    requires Able(s, m)
  {
    if Rewrites(m, p) then UNTOUCHED
    else Fate(f.deleted || Deletes(s, m, p), f.overtaken || DeletesForOlder(s, m, p),
              f.unheard || DeletesUnheard(s, m, p), f.unjudged || TrashesUnjudged(s, m, p))
  }

  ghost function FateOf(h: History, p: nat): Fate
    requires Happens(h)
  {
    Fate(Deleted(h, p), Overtaken(h, p), Unheard(h, p), Unjudged(h, p))
  }

  lemma FateUnfolds(h: History, p: nat)
    requires Happens(h)
    ensures FateOf(h, p) == if h.Begin? then UNTOUCHED else FateAfter(FateOf(h.past, p), Now(h.past), h.move, p)
  {
    hide Deletes, DeletesForOlder, DeletesUnheard, TrashesUnjudged, Moved;
  }

  /** Where the latest write of `p` is, by what happened to it. */
  ghost predicate Whereabouts(s: Intake, p: nat, f: Fate) {
    && (p in s.files ==>
          && p in s.latest && s.files[p] == s.latest[p] && !f.deleted && !f.unjudged
          && (p in s.trash ==> s.trash[p].birth != s.latest[p].birth)
          && Note(p, s.latest[p].birth) !in s.condemned)
    && (p in s.latest && s.latest[p].parses && !f.deleted && !f.unjudged && p !in s.files ==> TrashedByRule(s, p))
    && (f.deleted ==> p in s.latest && (p in s.trash ==> s.trash[p].birth != s.latest[p].birth))
    && (f.deleted ==> s.latest[p].birth in s.delivered || f.overtaken || f.unheard)
    && (f.overtaken || f.unheard ==> f.deleted)
    && (f.unjudged ==> p in s.latest && Note(p, s.latest[p].birth) !in s.condemned)
  }

  /** Whatever of `p` is on its way was read from its latest write, or from before a write over a held file. */
  ghost predicate OlderMeansHeld(s: Intake, p: nat, writtenWhileHeld: bool) {
    forall n | OnItsWay(s, n) && n.path == p ::
      p in s.latest && n.birth <= s.latest[p].birth && (n.birth < s.latest[p].birth ==> writtenWhileHeld)
  }

  // ---------------------------------------------------------------- what is on its way

  lemma TurnBringsNothing(s: Intake, e: Event, n: Note)
    requires Shaped(s.turns) && Able(s, Turn(e)) && OnItsWay(Moved(s, Turn(e)), n)
    ensures OnItsWay(s, n)
  {
    hide Held, Next, Cleared, HandedOver, Released, Shaped;
    StepHolds(s.turns, e);
  }

  lemma ScanBringsWhatWasRead(s: Intake, rules: Rules, n: Note)
    requires Shaped(s.turns) && s.loaded.Some? && OnItsWay(Scanned(s, rules), n)
    ensures OnItsWay(s, n)
  {
    hide Held, Filter, PutAll, Sections, Shaped, Chosen, Fresh;
    var unseen := Fresh(s.loaded.value, s.queuedPaths);
    PutBatch(s.turns, Chosen(unseen, rules, Interrupt), rules.core);
    ChosenPartition(unseen, rules);
    FreshIsUnseen(s.loaded.value, s.queuedPaths, n);
    if n !in InCare(s) {
      assert n in multiset(unseen);
      assert multiset(s.loaded.value)[n] > 0;
    }
  }

  lemma FlushBringsNothing(s: Intake, core: Note -> bool, n: Note)
    requires Shaped(s.turns) && OnItsWay(Flushed(s, core), n)
    ensures OnItsWay(s, n)
  {
    hide Held, PutAll, Sections, Shaped;
    PutBatch(s.turns, s.snoozed, core);
  }

  lemma ScanKeepsShape(s: Intake, rules: Rules, flush: bool)
    requires Shaped(s.turns) && s.loaded.Some?
    ensures Shaped(Scanned(s, rules).turns) && SameTurn(s.turns, Scanned(s, rules).turns)
    ensures
      var t := Moved(s, Decide(rules, flush)).turns;
      Shaped(t) && SameTurn(s.turns, t)
  {
    hide Held, Filter, PutAll, Sections, Shaped, Chosen, Fresh;
    PutBatch(s.turns, Chosen(Fresh(s.loaded.value, s.queuedPaths), rules, Interrupt), rules.core);
    var scanned := Scanned(s, rules);
    PutBatch(scanned.turns, scanned.snoozed, rules.core);
  }

  lemma StaysOlderMeansHeld(s: Intake, m: Move, p: nat, writtenWhileHeld: bool)
    requires Shaped(s.turns) && Able(s, m) && Numbers(s, p) && OlderMeansHeld(s, p, writtenWhileHeld)
    requires p in s.files ==> p in s.latest && s.files[p] == s.latest[p]
    ensures OlderMeansHeld(Moved(s, m), p, if Rewrites(m, p) then IsHeld(s, p) else writtenWhileHeld)
  {
    hide Held, Shaped, Parse, Next, Cleared, HandedOver, Scanned, Flushed;
    var after := Moved(s, m);
    forall n | OnItsWay(after, n) && n.path == p
      ensures p in after.latest && n.birth <= after.latest[p].birth
      ensures n.birth < after.latest[p].birth ==> if Rewrites(m, p) then IsHeld(s, p) else writtenWhileHeld
    {
      match m
      case Write(q, _) => assert OnItsWay(s, n);
      case Load(listing) =>
        if n in InCare(s) { assert OnItsWay(s, n); } else { ParseReads(s.files, listing, n); }
      case Decide(rules, flush) =>
        ScanKeepsShape(s, rules, flush);
        ScanKeepsLatest(s, rules, flush);
        if flush { FlushBringsNothing(Scanned(s, rules), rules.core, n); }
        ScanBringsWhatWasRead(s, rules, n);
      case Turn(e) => TurnBringsNothing(s, e, n);
      case Crash(turns, authenticated) => BootHoldsNothing(turns, authenticated);
    }
  }

  lemma ScanKeepsLatest(s: Intake, rules: Rules, flush: bool)
    requires s.loaded.Some?
    ensures var after := Moved(s, Decide(rules, flush));
      after.latest == s.latest && after.births == s.births && after.delivered == s.delivered
  {
  }

  // ---------------------------------------------------------------- steps

  lemma StaysHeard(s: Intake, m: Move)
    requires Shaped(s.turns) && Heard(s) && Able(s, m)
    ensures Shaped(Moved(s, m).turns) && Heard(Moved(s, m))
  {
    hide Held, Parse, Cleared, Scanned, Flushed;
    match m
    case Decide(rules, flush) => ScanKeepsShape(s, rules, flush); ScanKeepsLatest(s, rules, flush);
    case Crash(turns, authenticated) => BootHoldsNothing(turns, authenticated);
    case Turn(e) => StepKeepsShape(s.turns, e); TurnStaysHeard(s, e);
    case _ =>
  }

  lemma TurnStaysHeard(s: Intake, e: Event)
    requires Shaped(s.turns) && Heard(s) && Able(s, Turn(e))
    ensures Heard(Moved(s, Turn(e)))
  {
    hide Cleared;
  }

  /** A file deleted for its own write was delivered, unless the restart tool came too early. */
  lemma DeletedForItself(s: Intake, e: Event, n: Note)
    requires Shaped(s.turns) && Heard(s) && Able(s, Turn(e)) && n in Cleared(s.turns, e) && !e.RestartTool?
    ensures n.birth in Moved(s, Turn(e)).delivered
  {
    assert e.EndTurn? ==> s.turns.inFlight == s.turns.stage.item.notes || s.turns.inFlight == [];
  }

  lemma ClearedIsOnItsWay(s: Intake, e: Event, n: Note)
    requires Shaped(s.turns) && Able(s, Turn(e)) && n in Cleared(s.turns, e)
    ensures OnItsWay(s, n)
  {
    hide Held, Next, Cleared, Released, Shaped;
    ClearedIsReleased(s.turns, e, n);
    StepHolds(s.turns, e);
  }

  lemma TurnKeepsWhereabouts(s: Intake, e: Event, p: nat, f: Fate, writtenWhileHeld: bool)
    requires Shaped(s.turns) && Heard(s) && Able(s, Turn(e))
    requires Whereabouts(s, p, f) && OlderMeansHeld(s, p, writtenWhileHeld)
    ensures Whereabouts(Moved(s, Turn(e)), p, FateAfter(f, s, Turn(e), p))
    ensures DeletesForOlder(s, Turn(e), p) ==> writtenWhileHeld
  {
    hide Held, Next, Cleared, HandedOver, Shaped, Heard, OnItsWay;
    var m := Turn(e);
    if Deletes(s, m, p) {
      forall n | n in Cleared(s.turns, e) && n.path == p
        ensures n.birth <= s.files[p].birth && (n.birth < s.files[p].birth ==> writtenWhileHeld)
      {
        ClearedIsOnItsWay(s, e, n);
      }
      var n :| n in Cleared(s.turns, e) && n.path == p;
      if n.birth == s.files[p].birth {
        if e.RestartTool? {
          assert n == Note(p, s.files[p].birth) && n in s.turns.inFlight by { RestartClearsInFlight(s.turns, n); }
        } else {
          DeletedForItself(s, e, n);
        }
      }
    }
    assert DeletesUnheard(s, m, p) ==> Deletes(s, m, p) by {
      if DeletesUnheard(s, m, p) { UnheardDeletes(s, p); }
    }
  }

  lemma RestartClearsInFlight(t: State, n: Note)
    requires Enabled(t, RestartTool)
    ensures n in Cleared(t, RestartTool) <==> n in t.inFlight
  {
  }

  lemma UnheardDeletes(s: Intake, p: nat)
    requires Able(s, Turn(RestartTool)) && DeletesUnheard(s, Turn(RestartTool), p)
    ensures Deletes(s, Turn(RestartTool), p)
  {
  }

  lemma ScanKeepsWhereabouts(s: Intake, rules: Rules, flush: bool, p: nat, f: Fate)
    requires Able(s, Decide(rules, flush)) && Whereabouts(s, p, f)
    ensures Whereabouts(Moved(s, Decide(rules, flush)), p, FateAfter(f, s, Decide(rules, flush), p))
  {
    hide PutAll, Sections, Filter, Chosen, Fresh;
    var m := Decide(rules, flush);
    OnlyTurnsDelete(s, m, p);
    var after, trashed := Moved(s, m), Trashed(s, rules);
    if p in s.files && p in Paths(trashed) {
      if Note(p, s.files[p].birth) in trashed && s.files[p].parses {
        assert OnDisk(s.files, Note(p, s.files[p].birth));
        assert Note(p, s.files[p].birth) in after.condemned;
      }
    }
  }

  lemma MoveKeepsWhereabouts(s: Intake, m: Move, p: nat, f: Fate)
    requires Able(s, m) && !m.Turn? && Numbers(s, p) && Whereabouts(s, p, f)
    ensures Whereabouts(Moved(s, m), p, FateAfter(f, s, m, p))
  {
    OnlyTurnsDelete(s, m, p);
    match m
    case Decide(rules, flush) => ScanKeepsWhereabouts(s, rules, flush, p, f);
    case Load(listing) => MalformedDoNotParse(s.files, listing);
    case _ =>
  }

  /** A file trashed unjudged is trashed for an older write, so it was written while one was on its way. */
  lemma UnjudgedIsOlder(s: Intake, m: Move, p: nat, f: Fate, writtenWhileHeld: bool)
    requires Able(s, m) && Whereabouts(s, p, f) && OlderMeansHeld(s, p, writtenWhileHeld) && TrashesUnjudged(s, m, p)
    ensures writtenWhileHeld
    ensures exists n :: n in Trashed(s, m.rules) && n.path == p && n.birth < s.files[p].birth
  {
    hide Filter, Chosen, Fresh;
    var trashed := Trashed(s, m.rules);
    var n :| n in trashed && n.path == p;
    var unseen := Fresh(s.loaded.value, s.queuedPaths);
    assert multiset(trashed)[n] > 0;
    ChosenPartition(unseen, m.rules);
    FreshIsUnseen(s.loaded.value, s.queuedPaths, n);
    assert multiset(s.loaded.value)[n] > 0;
    assert OnItsWay(s, n);
  }

  lemma MalformedDoNotParse(files: Files, listing: seq<nat>)
    ensures forall p | p in Malformed(files, listing) :: p in files && !files[p].parses
  {
  }

  lemma StaysNumbered(s: Intake, m: Move, p: nat)
    requires Able(s, m) && Numbers(s, p)
    requires p in s.files ==> p in s.latest && s.files[p] == s.latest[p]
    ensures Numbers(Moved(s, m), p)
  {
    hide PutAll, Sections, Filter, Chosen, Fresh, Paths;
  }

  /** All that is kept over every history, whatever is written when and whenever a restart is asked for. */
  lemma {:induction false} EveryPathHasItsStory(h: History, p: nat)
    requires Happens(h)
    ensures
      var s := Now(h);
      && Shaped(s.turns) && Heard(s) && Numbers(s, p)
      && Whereabouts(s, p, FateOf(h, p))
      && OlderMeansHeld(s, p, WrittenWhileHeld(h, p))
      && (Overtaken(h, p) || Unjudged(h, p) ==> WrittenWhileHeld(h, p))
    decreases h
  {
    hide Moved, Able, Shaped, Heard, Numbers, Whereabouts, OlderMeansHeld, IsHeld;
    hide Deletes, DeletesForOlder, DeletesUnheard, TrashesUnjudged, FateOf, FateAfter;
    FateUnfolds(h, p);
    if h.Begin? {
      BeginHasNoStory(h, p);
    } else {
      EveryPathHasItsStory(h.past, p);
      var s, m, f, held := Now(h.past), h.move, FateOf(h.past, p), WrittenWhileHeld(h.past, p);
      FilesAreWhatWasWritten(s, p, f);
      StaysHeard(s, m);
      StaysNumbered(s, m, p);
      StaysOlderMeansHeld(s, m, p, held);
      if m.Turn? {
        TurnKeepsWhereabouts(s, m.event, p, f, held);
        OnlyScansTrash(s, m, p);
      } else {
        MoveKeepsWhereabouts(s, m, p, f);
        OnlyTurnsDelete(s, m, p);
        if TrashesUnjudged(s, m, p) { UnjudgedIsOlder(s, m, p, f, held); }
      }
    }
  }

  lemma OnlyScansTrash(s: Intake, m: Move, p: nat)
    requires Able(s, m) && !m.Decide?
    ensures !TrashesUnjudged(s, m, p)
  {
  }

  lemma OnlyTurnsDelete(s: Intake, m: Move, p: nat)
    requires Able(s, m) && !m.Turn?
    ensures !Deletes(s, m, p) && !DeletesForOlder(s, m, p) && !DeletesUnheard(s, m, p)
  {
  }

  lemma FilesAreWhatWasWritten(s: Intake, p: nat, f: Fate)
    requires Whereabouts(s, p, f)
    ensures p in s.files ==> p in s.latest && s.files[p] == s.latest[p]
  {
  }

  lemma BeginHasNoStory(h: History, p: nat)
    requires h.Begin?
    ensures
      var s := Now(h);
      && Shaped(s.turns) && Heard(s) && Numbers(s, p)
      && Whereabouts(s, p, UNTOUCHED) && OlderMeansHeld(s, p, false)
  {
    BootHoldsNothing(h.turns, h.authenticated);
  }

  // ---------------------------------------------------------------- the theorems

  /**
   In every history, whatever is written when and whenever a restart is asked for: the latest
   notification written at a path is lost if and only if it was not delivered and its file was
   deleted for a notification read from an older write, or deleted by an early restart request, or
   trashed for an older write.
   */
  lemma LostExactlyWhenOvertakenUnheardOrUnjudged(h: History, p: nat)
    requires Happens(h) && p in Now(h).latest && Now(h).latest[p].parses
    ensures Survives(Now(h), p) <==>
      Now(h).latest[p].birth in Now(h).delivered || !(Overtaken(h, p) || Unheard(h, p) || Unjudged(h, p))
  {
    hide Moved, Able, Shaped, Heard, OlderMeansHeld, Overtaken, Unheard, Unjudged, Deleted, WrittenWhileHeld;
    EveryPathHasItsStory(h, p);
  }

  /** A file overtaken or trashed this way was written while a notification of it was on its way. */
  lemma LostWasWrittenWhileHeld(h: History, p: nat)
    requires Happens(h) && (Overtaken(h, p) || Unjudged(h, p))
    ensures WrittenWhileHeld(h, p)
  {
    hide Moved, Able, Shaped, Heard, Whereabouts, OlderMeansHeld, Overtaken, Unjudged, WrittenWhileHeld;
    EveryPathHasItsStory(h, p);
  }

  /** So a writer is safe who writes only what nothing is on its way from, early restarts aside. */
  lemma WritingOverNothingHeldIsSafe(h: History, p: nat)
    requires Happens(h) && !WrittenWhileHeld(h, p) && !Unheard(h, p)
    ensures Survives(Now(h), p)
  {
    hide Moved, Able, Shaped, Heard, OlderMeansHeld, Overtaken, Unheard, Unjudged, Deleted, WrittenWhileHeld;
    EveryPathHasItsStory(h, p);
  }

  // ---------------------------------------------------------------- a file trashed unjudged

  /** The rules of the run below trash what was read first and interrupt for anything else. */
  const HARSH := Rules((n: Note) => if n.birth == 0 then Trash else Interrupt, (n: Note) => false)
  const READ := Note(7, 0)

  const UNJUDGED: History :=
    Then(Then(Then(Then(Begin([], true), Write(7, true)), Load([7])), Write(7, true)), Decide(HARSH, false))

  /** Between reading and deciding, after both writes. */
  function Undecided(): Intake {
    var content := map[7 := Content(1, true)];
    Intake(Booted([], true), content, map[], Some([READ]), [], {}, 2, content, {}, {}, [], [])
  }

  lemma UndecidedIsReached()
    ensures Happens(UNJUDGED.past) && Now(UNJUDGED.past) == Undecided()
  {
    hide Booted;
    var h1 := Then(Begin([], true), Write(7, true));
    var first := map[7 := Content(0, true)];
    assert Now(h1) == Intake(Booted([], true), first, map[], None, [], {}, 1, first, {}, {}, [], []);
    var h2 := Then(h1, Load([7]));
    assert [7][..0] == [];
    assert Parse(first, [7]) == [READ] && Malformed(first, [7]) == {};
    assert Happens(h2) && Now(h2) == Intake(Booted([], true), first, map[], Some([READ]), [], {}, 1, first, {}, {}, [], []);
  }

  lemma UndecidedIsTrashed()
    ensures Trashed(Undecided(), HARSH) == [READ]
  {
    hide Filter;
    FilterOne(READ, Unqueued({}));
    FilterOne(READ, Judged(HARSH, Trash));
  }

  lemma HarshScan()
    ensures var after := Scanned(Undecided(), HARSH);
      && 7 !in after.files && 7 in after.trash && after.condemned == {} && after.delivered == {}
      && after.latest == map[7 := Content(1, true)]
  {
    UndecidedIsTrashed();
    hide Filter, Chosen, Fresh, PutAll, Sections, Booted;
    var s := Undecided();
    assert Paths([READ]) == {7} && Condemned([READ], s.files) == {};
    assert Scanned(s, HARSH).files == s.files - Paths(Trashed(s, HARSH));
  }

  lemma HarshScanTrashesUnjudged()
    ensures Able(Undecided(), Decide(HARSH, false)) && TrashesUnjudged(Undecided(), Decide(HARSH, false), 7)
  {
    UndecidedIsTrashed();
    hide Filter, Chosen, Fresh, Trashed;
    assert 7 in Paths([READ]) by { assert READ in [READ]; }
  }

  /** A file rewritten between reading and deciding is trashed by the rule that judged the old content. */
  lemma RewrittenFileIsTrashedUnjudged()
    ensures Happens(UNJUDGED) && !Survives(Now(UNJUDGED), 7) && 7 in Now(UNJUDGED).trash
    ensures Unjudged(UNJUDGED, 7) && Now(UNJUDGED).latest[7] == Content(1, true) && Now(UNJUDGED).delivered == {}
  {
    UndecidedIsReached();
    HarshScanTrashesUnjudged();
    HarshScan();
    assert Now(UNJUDGED) == Moved(Undecided(), Decide(HARSH, false)) by { LastMoveOf(UNJUDGED); }
    hide Scanned, Undecided, TrashesUnjudged;
  }

  lemma LastMoveOf(h: History)
    requires h.Then? && Happens(h)
    ensures Now(h) == Moved(Now(h.past), h.move)
  {
    hide Moved;
  }

  // ---------------------------------------------------------------- a file deleted for an older one

  /** The nightly dream, whose file is named after its night, dropped again while the first one runs. */
  const DREAM := Note(7, 0)
  const DREAM_TURN := Item(0, true, [DREAM])
  const DREAM_RULES := Rules((n: Note) => Interrupt, (n: Note) => true)

  const DREAM_MOVES: seq<Move> :=
    [Write(7, true), Load([7]), Decide(DREAM_RULES, false), Turn(Take), Turn(Loop), Turn(Deliver),
     Write(7, true), Turn(EndTurn(false, false))]

  function DreamTurns(queue: seq<Item>, pending: seq<Item>, stage: Stage, inFlight: seq<Note>, put: seq<Item>): State {
    State(queue, pending, stage, Empty, inFlight, 0, true, false, put, [])
  }

  /** The turn queue after `k` moves, up to the end of the turn. */
  function DreamTurnsAt(k: nat): State {
    if k <= 2 then DreamTurns([], [], Idle, [], [])
    else if k == 3 then DreamTurns([DREAM_TURN], [], Idle, [], [DREAM_TURN])
    else if k == 4 then DreamTurns([], [DREAM_TURN], Looping, [], [DREAM_TURN])
    else if k == 5 then DreamTurns([], [], Running(DREAM_TURN, false), [DREAM], [DREAM_TURN])
    else DreamTurns([], [], Running(DREAM_TURN, true), [DREAM], [DREAM_TURN])
  }

  function DreamAt(k: nat): Intake {
    var content := Content(if k < 7 then 0 else 1, true);
    var files := if k == 0 then map[] else map[7 := content];
    Intake(DreamTurnsAt(k), files, map[], if k == 2 then Some([DREAM]) else None, [], if k < 3 then {} else {7},
      if k == 0 then 0 else if k < 7 then 1 else 2, files, if k < 6 then {} else {0}, {},
      if k < 3 then [] else [DREAM], [])
  }

  lemma FilterOne<X>(x: X, keep: X -> bool)
    ensures Filter([x], keep) == if keep(x) then [x] else []
  {
    assert [x][..0] == [];
  }

  lemma DreamIsChosen()
    ensures Fresh([DREAM], {}) == [DREAM]
    ensures Chosen([DREAM], DREAM_RULES, Interrupt) == [DREAM]
    ensures Chosen([DREAM], DREAM_RULES, Snooze) == [] && Chosen([DREAM], DREAM_RULES, Trash) == []
    ensures Sections([DREAM], DREAM_RULES.core) == [[DREAM]]
  {
    hide Filter;
    FilterOne(DREAM, Unqueued({}));
    FilterOne(DREAM, Judged(DREAM_RULES, Interrupt));
    FilterOne(DREAM, Judged(DREAM_RULES, Snooze));
    FilterOne(DREAM, Judged(DREAM_RULES, Trash));
    FilterOne(DREAM, DREAM_RULES.core);
    FilterOne(DREAM, Except(DREAM_RULES.core));
  }

  lemma DreamIsQueued()
    ensures PutAll(DreamTurnsAt(2), [[DREAM]]) == DreamTurnsAt(3)
  {
    var sections := [[DREAM]];
    assert sections[..0] == [];
    assert PutAll(DreamTurnsAt(2), sections) == Next(DreamTurnsAt(2), Put([DREAM]));
  }

  lemma ScanOfDream()
    ensures Moved(DreamAt(2), Decide(DREAM_RULES, false)) == DreamAt(3)
  {
    DreamIsChosen();
    DreamIsQueued();
    hide Filter, Fresh, Chosen, Sections, PutAll, DreamTurnsAt;
    assert Paths([DREAM]) == {7} && Paths([]) == {};
  }

  lemma DreamIsRead()
    ensures Able(DreamAt(1), Load([7])) && Moved(DreamAt(1), Load([7])) == DreamAt(2)
  {
    assert [7][..0] == [];
    assert Parse(map[7 := Content(0, true)], [7]) == [DREAM];
    assert Malformed(map[7 := Content(0, true)], [7]) == {};
  }

  lemma DreamMove(k: nat)
    requires k < 7
    ensures Able(DreamAt(k), DREAM_MOVES[k]) && Moved(DreamAt(k), DREAM_MOVES[k]) == DreamAt(k + 1)
  {
    hide Scanned, Flushed, Parse, Malformed;
    match k
    case 0 => assert DREAM_MOVES[k] == Write(7, true);
    case 1 => DreamIsRead();
    case 2 => ScanOfDream();
    case 6 => assert DREAM_MOVES[k] == Write(7, true);
    case _ => DreamTurnMove(k);
  }

  lemma DreamTurnMove(k: nat)
    requires 3 <= k < 6
    ensures Able(DreamAt(k), DREAM_MOVES[k]) && Moved(DreamAt(k), DREAM_MOVES[k]) == DreamAt(k + 1)
  {
    assert [DREAM_TURN][1..] == [];
    assert Paths([]) == {} && Births([]) == {} && Births([DREAM]) == {0};
  }

  function DreamRun(k: nat): History
    requires k <= |DREAM_MOVES|
  {
    if k == 0 then Begin([], true) else Then(DreamRun(k - 1), DREAM_MOVES[k - 1])
  }

  lemma {:induction false} DreamRunReaches(k: nat)
    requires k <= 7
    ensures Happens(DreamRun(k)) && Now(DreamRun(k)) == DreamAt(k)
  {
    hide DreamAt, Moved, Able;
    if k == 0 {
      assert Now(DreamRun(0)) == DreamAt(0) by { DreamStarts(); }
    } else {
      DreamRunReaches(k - 1);
      DreamMove(k - 1);
    }
  }

  lemma DreamStarts()
    ensures Now(Begin([], true)) == DreamAt(0)
  {
    assert BootItems([]) == [];
  }

  lemma DreamEnds()
    ensures Able(DreamAt(7), Turn(EndTurn(false, false)))
    ensures !Survives(Moved(DreamAt(7), Turn(EndTurn(false, false))), 7)
  {
    var s, e := DreamAt(7), EndTurn(false, false);
    assert Able(s, Turn(e)) && Cleared(s.turns, e) == [DREAM] && HandedOver(s.turns, e) == [];
    hide Cleared, HandedOver, Next;
    assert 7 in Paths([DREAM]) by { assert DREAM in [DREAM]; }
    assert Births([]) == {};
  }

  /** When the first dream's turn ends, the second one's file is deleted unread. */
  lemma SecondDreamIsLost()
    ensures Happens(DreamRun(8)) && !Survives(Now(DreamRun(8)), 7)
  {
    DreamRunReaches(7);
    hide DreamRun, DreamAt, Happens, Now, Moved, Able, Survives;
    DreamEnds();
    DreamRunEnds();
  }

  lemma DreamRunEnds()
    requires Happens(DreamRun(7)) && Now(DreamRun(7)) == DreamAt(7)
    requires Able(DreamAt(7), Turn(EndTurn(false, false)))
    ensures Happens(DreamRun(8)) && Now(DreamRun(8)) == Moved(DreamAt(7), Turn(EndTurn(false, false)))
  {
    hide DreamAt, Moved, Able;
    assert DreamRun(8) == Then(DreamRun(7), DREAM_MOVES[7]);
  }
}
