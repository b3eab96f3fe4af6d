/**
 No notification is lost: its file stays on disk until its prompt has reached the CLI, or a rule
 sends it to the trash, as long as no file is rewritten while its notification is held.
 */
module NotificationSafety {
  import opened Options
  import opened TurnQueue
  import opened NotificationIntake

  // ---------------------------------------------------------------- what is held stays on disk

  /** Everything read and not yet let go of: the snoozed batch and what the turn queue holds. */
  function InCare(s: Intake): multiset<Note> {
    multiset(s.snoozed) + Held(s.turns)
  }

  /** Each held notification is held once, remembered as queued, and still the content of its file. */
  ghost predicate Anchored(held: multiset<Note>, files: Files, queuedPaths: set<nat>) {
    forall n | n in held :: held[n] == 1 && n.path in queuedPaths && OnDisk(files, n)
  }

  /** What a tick has read is each file once, and is still there unless it was read before. */
  ghost predicate FreshlyRead(loaded: Option<seq<Note>>, files: Files, queuedPaths: set<nat>) {
    loaded.Some? ==> forall n | n in loaded.value ::
      multiset(loaded.value)[n] == 1 && (n.path in queuedPaths || OnDisk(files, n))
  }

  ghost predicate FilesAreLatest(s: Intake) {
    forall p | p in s.files :: p in s.latest && s.latest[p] == s.files[p]
  }

  /** The latest content of `p` is in the trash, and a rule that judged that very content sent it there. */
  ghost predicate TrashedByRule(s: Intake, p: nat)
    requires p in s.latest
  {
    p in s.trash && s.trash[p] == s.latest[p] && Note(p, s.latest[p].birth) in s.condemned
  }

  /** The latest content written at a path was delivered, or is on disk, or was trashed by a rule. */
  ghost predicate Survives(s: Intake, p: nat) {
    p in s.latest && s.latest[p].parses ==>
      || s.latest[p].birth in s.delivered
      || (p in s.files && s.files[p] == s.latest[p])
      || TrashedByRule(s, p)
  }

  /** A running turn that reached the CLI, or whose files are cleared, handed over everything it renders. */
  ghost predicate Informed(s: Intake) {
    var t := s.turns;
    t.stage.Running? && (t.stage.delivered || t.inFlight != t.stage.item.notes) ==> Births(t.stage.item.notes) <= s.delivered
  }

  /** Writes are numbered upwards. */
  ghost predicate Dated(s: Intake) {
    && (forall b | b in s.delivered :: b < s.births)
    && (forall p | p in s.files :: s.files[p].birth < s.births)
    && (forall p | p in s.trash :: s.trash[p].birth < s.births)
  }

  ghost predicate Safe(s: Intake) {
    && Shaped(s.turns)
    && Informed(s)
    && Dated(s)
    && Anchored(InCare(s), s.files, s.queuedPaths)
    && FreshlyRead(s.loaded, s.files, s.queuedPaths)
    && FilesAreLatest(s)
    && forall p :: Survives(s, p)
  }

  /** No file is written while its notification is held, and the restart tool comes after delivery. */
  ghost predicate Careful(s: Intake, m: Move) {
    match m
    case Write(p, _) =>
      && (forall n | n in InCare(s) :: n.path != p)
      && (s.loaded.Some? ==> forall n | n in s.loaded.value :: n.path in s.queuedPaths || n.path != p)
    case Turn(e) => e.RestartTool? ==> Births(s.turns.inFlight) <= s.delivered
    case _ => true
  }

  /** Letting go of notifications and clearing at most their files leaves the others anchored. */
  lemma LettingGo(held: multiset<Note>, rest: multiset<Note>, gone: multiset<Note>, files: Files, queuedPaths: set<nat>, paths: set<nat>)
    requires Anchored(held, files, queuedPaths) && held == rest + gone
    requires forall p | p in paths :: exists n :: n in gone && n.path == p
    ensures Anchored(rest, files - paths, queuedPaths)
  {
    forall n | n in rest ensures rest[n] == 1 && n.path in queuedPaths && OnDisk(files - paths, n) {
      assert held[n] == rest[n] + gone[n] && n in held && n !in gone;
      forall m | m in gone ensures m.path != n.path {
        assert m in held;
      }
    }
  }

  lemma ClearedIsReleased(t: State, e: Event, n: Note)
    requires Enabled(t, e) && n in Cleared(t, e)
    ensures n in Released(t, e)
  {
    if e.Sent? { NotesOfOne(t.hand.item); }
  }

  /** Files are cleared only for what was delivered. */
  lemma ClearedIsDelivered(s: Intake, e: Event)
    requires Safe(s) && Able(s, Turn(e)) && Careful(s, Turn(e))
    ensures Births(Cleared(s.turns, e)) <= s.delivered + Births(HandedOver(s.turns, e))
  {
    hide Anchored, FreshlyRead, FilesAreLatest, Survives, Held, Next;
    var t := s.turns;
    if e.EndTurn? && Cleared(t, e) != [] {
      assert t.inFlight == t.stage.item.notes;
    }
  }

  lemma TurnStaysInformed(s: Intake, e: Event)
    requires Informed(s) && Shaped(s.turns) && Able(s, Turn(e)) && Careful(s, Turn(e))
    ensures Informed(Moved(s, Turn(e)))
  {
  }

  lemma TurnStaysDated(s: Intake, e: Event)
    requires Safe(s) && Able(s, Turn(e))
    ensures Dated(Moved(s, Turn(e)))
  {
    hide Held, Next, Cleared, Shaped, Informed, FreshlyRead, Anchored, Survives, FilesAreLatest, HandedOver;
    forall n | n in HandedOver(s.turns, e) ensures n.birth < s.births {
      HandedOverIsDated(s, e, n);
    }
  }

  lemma HandedOverIsDated(s: Intake, e: Event, n: Note)
    requires Safe(s) && Able(s, Turn(e)) && n in HandedOver(s.turns, e)
    ensures n.birth < s.births
  {
    hide Held, Next, Cleared, FreshlyRead, Survives, FilesAreLatest;
    var t := s.turns;
    if e.Sent? {
      NotesOfOne(t.hand.item);
      StepHolds(t, e);
      assert n in InCare(s);
    } else if t.inFlight == t.stage.item.notes {
      assert n in Held(t) by { InFlightIsHeld(t, n); }
      assert n in InCare(s);
    } else {
      assert n.birth in Births(t.stage.item.notes);
    }
  }

  lemma InFlightIsHeld(t: State, n: Note)
    requires n in t.inFlight
    ensures n in Held(t)
  {
  }

  lemma TurnStaysSafe(s: Intake, e: Event)
    requires Safe(s) && Able(s, Turn(e)) && Careful(s, Turn(e))
    ensures Safe(Moved(s, Turn(e)))
  {
    hide Held, Next, Cleared, HandedOver, Released, Shaped, Informed, Births, Careful;
    hide Anchored, FreshlyRead, Survives, FilesAreLatest, Dated;
    var after, cleared := Moved(s, Turn(e)), Cleared(s.turns, e);
    StepKeepsShape(s.turns, e);
    TurnStaysInformed(s, e);
    TurnStaysDated(s, e);
    ClearedWasOnDisk(s, e);
    ClearingSurvives(s, after, cleared);
    ClearingReads(s, after, cleared);
    StepHolds(s.turns, e);
    forall p | p in Paths(cleared) ensures exists n :: n in Released(s.turns, e) && n.path == p {
      var n :| n in cleared && n.path == p;
      ClearedIsReleased(s.turns, e, n);
    }
    LettingGo(InCare(s), InCare(after), Released(s.turns, e), s.files, s.queuedPaths, Paths(cleared));
  }

  lemma ClearedWasOnDisk(s: Intake, e: Event)
    requires Safe(s) && Able(s, Turn(e)) && Careful(s, Turn(e))
    ensures forall n | n in Cleared(s.turns, e) ::
      n in InCare(s) && n.path in s.queuedPaths && OnDisk(s.files, n) && n.birth in Moved(s, Turn(e)).delivered
  {
    hide Held, Next, Cleared, HandedOver, Released, Informed, Careful;
    ClearedIsDelivered(s, e);
    StepHolds(s.turns, e);
    forall n | n in Cleared(s.turns, e)
      ensures n in InCare(s) && n.path in s.queuedPaths && OnDisk(s.files, n) && n.birth in Moved(s, Turn(e)).delivered
    {
      ClearedIsReleased(s.turns, e, n);
      assert n.birth in Births(Cleared(s.turns, e));
    }
  }

  lemma ClearingSurvives(s: Intake, after: Intake, cleared: seq<Note>)
    requires FilesAreLatest(s) && forall p :: Survives(s, p)
    requires after.files == s.files - Paths(cleared) && after.latest == s.latest && after.trash == s.trash
    requires s.delivered <= after.delivered && after.condemned == s.condemned
    requires forall n | n in cleared :: OnDisk(s.files, n) && n.birth in after.delivered
    ensures FilesAreLatest(after) && forall p :: Survives(after, p)
  {
    forall p ensures Survives(after, p) {
      assert Survives(s, p);
      if p in Paths(cleared) { var n :| n in cleared && n.path == p; }
    }
  }

  lemma ClearingReads(s: Intake, after: Intake, cleared: seq<Note>)
    requires FreshlyRead(s.loaded, s.files, s.queuedPaths)
    requires after.files == s.files - Paths(cleared) && after.loaded == s.loaded && after.queuedPaths == s.queuedPaths
    requires forall n | n in cleared :: n.path in s.queuedPaths
    ensures FreshlyRead(after.loaded, after.files, after.queuedPaths)
  {
  }

  lemma WriteStaysSafe(s: Intake, p: nat, parses: bool)
    requires Safe(s) && Careful(s, Write(p, parses))
    ensures Safe(Moved(s, Write(p, parses)))
  {
    hide Held, Shaped;
    var after := Moved(s, Write(p, parses));
    assert InCare(after) == InCare(s);
    forall q ensures Survives(after, q) {
      assert Survives(s, q);
    }
  }

  lemma LoadStaysSafe(s: Intake, listing: seq<nat>)
    requires Safe(s) && Able(s, Load(listing))
    ensures Safe(Moved(s, Load(listing)))
  {
    hide Held, Shaped, Parse;
    var after := Moved(s, Load(listing));
    assert InCare(after) == InCare(s);
    assert FreshlyRead(after.loaded, after.files, after.queuedPaths) by {
      forall n | n in after.loaded.value
        ensures multiset(after.loaded.value)[n] == 1 && (n.path in after.queuedPaths || OnDisk(after.files, n))
      {
        ParseReads(s.files, listing, n);
      }
    }
    forall q ensures Survives(after, q) {
      assert Survives(s, q);
    }
  }

  lemma CrashStaysSafe(s: Intake, turns: seq<bool>, authenticated: bool)
    requires Safe(s)
    ensures Safe(Moved(s, Crash(turns, authenticated)))
  {
    hide Survives, Held, Booted, Shaped;
    var after := Moved(s, Crash(turns, authenticated));
    BootHoldsNothing(turns, authenticated);
    forall p ensures Survives(after, p) {
      assert Survives(s, p) && (Survives(s, p) <==> Survives(after, p)) by { SurvivalReads(s, after, p); }
    }
  }

  lemma SurvivalReads(s: Intake, after: Intake, p: nat)
    requires after.files == s.files && after.latest == s.latest && after.trash == s.trash && after.delivered == s.delivered
    requires after.condemned == s.condemned
    ensures Survives(s, p) <==> Survives(after, p)
  {
  }

  // ---------------------------------------------------------------- deciding

  /** New notifications taken into care beside trashed ones: all anchored, none trashed. */
  lemma TakingIn(held: multiset<Note>, kept: multiset<Note>, trashed: multiset<Note>, files: Files,
                 queuedPaths: set<nat>, after: set<nat>, paths: set<nat>)
    requires Anchored(held, files, queuedPaths)
    requires forall n | n in kept + trashed :: (kept + trashed)[n] == 1 && n.path !in queuedPaths && OnDisk(files, n)
    requires queuedPaths <= after && forall n | n in kept :: n.path in after
    requires forall p | p in paths :: exists n :: n in trashed && n.path == p
    ensures Anchored(held + kept, files - paths, after)
  {
    forall n | n in held + kept ensures (held + kept)[n] == 1 && n.path in after && OnDisk(files - paths, n) {
      assert n in held ==> n !in kept;
      forall m | m in trashed ensures m.path != n.path {
        assert m in kept + trashed;
        if n in kept {
          assert n in kept + trashed && (kept + trashed)[n] == kept[n] + trashed[n];
        }
      }
    }
  }

  lemma TrashingSurvives(s: Intake, after: Intake, trashed: seq<Note>)
    requires FilesAreLatest(s) && forall p :: Survives(s, p)
    requires forall n | n in trashed :: OnDisk(s.files, n)
    requires after.files == s.files - Paths(trashed) && after.latest == s.latest && after.delivered == s.delivered
    requires after.trash == TrashedWith(s.trash, s.files, Paths(trashed))
    requires after.condemned == s.condemned + Condemned(trashed, s.files)
    ensures FilesAreLatest(after) && forall p :: Survives(after, p)
  {
    forall p ensures Survives(after, p) {
      assert Survives(s, p);
      if p in Paths(trashed) {
        var n :| n in trashed && n.path == p;
        assert n == Note(p, s.latest[p].birth) && n in after.condemned;
      }
    }
  }

  /** What a scan keeps and what it trashes: each new, each once, each still on disk. */
  lemma ScanDivides(s: Intake, rules: Rules, unseen: seq<Note>)
    requires s.loaded.Some? && FreshlyRead(s.loaded, s.files, s.queuedPaths) && unseen == Fresh(s.loaded.value, s.queuedPaths)
    ensures
      var kept := multiset(Chosen(unseen, rules, Interrupt)) + multiset(Chosen(unseen, rules, Snooze));
      var trashed := multiset(Chosen(unseen, rules, Trash));
      && kept + trashed == multiset(unseen)
      && forall n | n in kept + trashed :: (kept + trashed)[n] == 1 && n.path !in s.queuedPaths && OnDisk(s.files, n)
  {
    hide Filter, Chosen, Fresh;
    ChosenPartition(unseen, rules);
    forall n | n in multiset(unseen)
      ensures multiset(unseen)[n] == 1 && n.path !in s.queuedPaths && OnDisk(s.files, n)
    {
      FreshIsUnseen(s.loaded.value, s.queuedPaths, n);
      assert n in s.loaded.value;
    }
  }

  lemma ScanTakesIn(s: Intake, rules: Rules)
    requires s.loaded.Some? && FreshlyRead(s.loaded, s.files, s.queuedPaths)
    requires Shaped(s.turns) && Anchored(InCare(s), s.files, s.queuedPaths)
    ensures var after := Scanned(s, rules); Anchored(InCare(after), after.files, after.queuedPaths)
  {
    hide Held, Filter, PutAll, Sections, Shaped, Anchored, Chosen, Fresh, FreshlyRead, OnDisk;
    var after := Scanned(s, rules);
    var unseen := Fresh(s.loaded.value, s.queuedPaths);
    var interrupting, snoozing, trashed := Chosen(unseen, rules, Interrupt), Chosen(unseen, rules, Snooze), Chosen(unseen, rules, Trash);
    var kept := multiset(interrupting) + multiset(snoozing);
    ScanDivides(s, rules, unseen);
    PutBatch(s.turns, interrupting, rules.core);
    assert InCare(after) == InCare(s) + kept;
    TakingIn(InCare(s), kept, multiset(trashed), s.files, s.queuedPaths, after.queuedPaths, Paths(trashed));
  }

  lemma ScanSurvives(s: Intake, rules: Rules)
    requires s.loaded.Some? && FreshlyRead(s.loaded, s.files, s.queuedPaths)
    requires FilesAreLatest(s) && forall p :: Survives(s, p)
    ensures FilesAreLatest(Scanned(s, rules)) && forall p :: Survives(Scanned(s, rules), p)
  {
    hide Filter, PutAll, Sections, Survives, FilesAreLatest, FreshlyRead, Chosen, Fresh, Paths, Condemned, OnDisk;
    var unseen := Fresh(s.loaded.value, s.queuedPaths);
    var trashed := Chosen(unseen, rules, Trash);
    ScanDivides(s, rules, unseen);
    forall n | n in trashed ensures OnDisk(s.files, n) {
      assert n in multiset(trashed);
    }
    TrashingSurvives(s, Scanned(s, rules), trashed);
  }

  lemma ScanStaysSafe(s: Intake, rules: Rules)
    requires Safe(s) && s.loaded.Some?
    ensures Safe(Scanned(s, rules))
  {
    hide Held, Filter, PutAll, Sections, Shaped, Anchored, Survives, FilesAreLatest, Chosen, Fresh, Paths, Condemned;
    var unseen := Fresh(s.loaded.value, s.queuedPaths);
    PutBatch(s.turns, Chosen(unseen, rules, Interrupt), rules.core);
    ScanTakesIn(s, rules);
    ScanSurvives(s, rules);
  }

  lemma FlushStaysSafe(s: Intake, core: Note -> bool)
    requires Safe(s)
    ensures Safe(Flushed(s, core))
  {
    hide Held, PutAll, Sections, Shaped, Anchored, FreshlyRead, Survives;
    var after := Flushed(s, core);
    PutBatch(s.turns, s.snoozed, core);
    assert InCare(after) == InCare(s);
    forall p ensures Survives(after, p) {
      assert Survives(s, p);
      SurvivalReads(s, after, p);
    }
  }

  lemma MoveStaysSafe(s: Intake, m: Move)
    requires Safe(s) && Able(s, m) && Careful(s, m)
    ensures Safe(Moved(s, m))
  {
    hide Safe, Careful, Scanned, Flushed;
    match m
    case Write(p, parses) => WriteStaysSafe(s, p, parses);
    case Load(listing) => LoadStaysSafe(s, listing);
    case Decide(rules, flush) =>
      ScanStaysSafe(s, rules);
      FlushStaysSafe(Scanned(s, rules), rules.core);
    case Turn(e) => TurnStaysSafe(s, e);
    case Crash(turns, authenticated) => CrashStaysSafe(s, turns, authenticated);
  }

  ghost predicate CarefulThroughout(h: History)
    requires Happens(h)
  {
    h.Begin? || (CarefulThroughout(h.past) && Careful(Now(h.past), h.move))
  }

  lemma StartIsSafe(turns: seq<bool>, authenticated: bool)
    ensures Safe(Intake(Booted(turns, authenticated), map[], map[], None, [], {}, 0, map[], {}, {}, [], []))
  {
    BootHoldsNothing(turns, authenticated);
  }

  lemma {:induction false} EveryHistoryIsSafe(h: History)
    requires Happens(h) && CarefulThroughout(h)
    ensures Safe(Now(h))
    decreases h
  {
    hide Safe, Careful, Moved, Able;
    if h.Begin? {
      StartIsSafe(h.turns, h.authenticated);
    } else {
      EveryHistoryIsSafe(h.past);
      MoveStaysSafe(Now(h.past), h.move);
    }
  }

  /**
   In every history, crashes included, the latest notification written at a path has reached the
   CLI, or is on disk, or is in the trash because a rule sent it there.
   */
  lemma NothingUndeliveredIsLost(h: History, p: nat)
    requires Happens(h) && CarefulThroughout(h)
    ensures Survives(Now(h), p)
  {
    hide Careful, Moved, Able, Survives;
    EveryHistoryIsSafe(h);
  }

  /** Whatever was read and still waits to be delivered is the content of its file, and held only once. */
  lemma WaitingStaysOnDisk(h: History, n: Note)
    requires Happens(h) && CarefulThroughout(h) && n in InCare(Now(h))
    ensures InCare(Now(h))[n] == 1 && OnDisk(Now(h).files, n)
  {
    hide Careful, Moved, Able, Survives, Held;
    EveryHistoryIsSafe(h);
  }

  // ---------------------------------------------------------------- what was delivered goes

  /** No two files hold the same write. */
  ghost predicate OneFileEach(files: Files) {
    forall p, q | p in files && q in files && files[p].birth == files[q].birth :: p == q
  }

  /** A delivered file is gone, unless it is in flight or was left behind. */
  ghost predicate Tidy(s: Intake, left: set<nat>) {
    && OneFileEach(s.files)
    && forall p | p in s.files && s.files[p].birth in s.delivered :: s.files[p].birth in left + Births(s.turns.inFlight)
  }

  /** What a move leaves behind: a turn's files after sign-in was lost or its query was not delivered,
      and what is in flight at a crash. */
  function LeftBy(s: Intake, m: Move): set<nat>
    requires Able(s, m)
  {
    match m
    case Turn(e) => if e.EndTurn? && (e.flagged || !s.turns.authenticated) then Births(s.turns.inFlight) else {}
    case Crash(_, _) => Births(s.turns.inFlight)
    case _ => {}
  }

  ghost function Left(h: History): set<nat>
    requires Happens(h)
  {
    if h.Begin? then {} else Left(h.past) + LeftBy(Now(h.past), h.move)
  }

  lemma SentIsTidy(s: Intake, e: Event, left: set<nat>)
    requires Safe(s) && Able(s, Turn(e)) && Tidy(s, left) && e.Sent?
    ensures Tidy(Moved(s, Turn(e)), left)
  {
    hide Held, Released, FreshlyRead, FilesAreLatest, Survives, Informed;
    var after := Moved(s, Turn(e));
    if e.ok {
      NotesOfOne(s.turns.hand.item);
      StepHolds(s.turns, e);
      forall n, p | n in s.turns.hand.item.notes && p in after.files ensures after.files[p].birth != n.birth {
        ClearedIsReleased(s.turns, e, n);
        assert n in InCare(s) && n.path in Paths(Cleared(s.turns, e));
      }
    }
  }

  lemma InFlightIsTidy(s: Intake, e: Event, left: set<nat>)
    requires Safe(s) && Able(s, Turn(e)) && Tidy(s, left) && (e.EndTurn? || e.RestartTool?)
    ensures Tidy(Moved(s, Turn(e)), left + LeftBy(s, Turn(e)))
  {
    hide Held, FreshlyRead, FilesAreLatest, Survives, Informed;
    var after := Moved(s, Turn(e));
    if Cleared(s.turns, e) == s.turns.inFlight {
      forall n, p | n in s.turns.inFlight && p in after.files ensures after.files[p].birth != n.birth {
        InFlightIsHeld(s.turns, n);
        assert n in InCare(s) && n.path in Paths(Cleared(s.turns, e));
      }
    }
  }

  lemma TurnIsTidy(s: Intake, e: Event, left: set<nat>)
    requires Safe(s) && Able(s, Turn(e)) && Tidy(s, left)
    ensures Tidy(Moved(s, Turn(e)), left + LeftBy(s, Turn(e)))
  {
    hide Safe, Able, Moved, Tidy, LeftBy;
    if e.Sent? {
      SentIsTidy(s, e, left);
      SentLeavesNothing(s, e);
      assert left + {} == left;
    } else if e.EndTurn? || e.RestartTool? {
      InFlightIsTidy(s, e, left);
    } else {
      OtherIsTidy(s, e, left);
    }
  }

  lemma SentLeavesNothing(s: Intake, e: Event)
    requires Able(s, Turn(e)) && e.Sent?
    ensures LeftBy(s, Turn(e)) == {}
  {
  }

  lemma OtherIsTidy(s: Intake, e: Event, left: set<nat>)
    requires Safe(s) && Able(s, Turn(e)) && Tidy(s, left) && !e.Sent? && !e.EndTurn? && !e.RestartTool?
    ensures Tidy(Moved(s, Turn(e)), left + LeftBy(s, Turn(e)))
  {
    hide Held, FreshlyRead, FilesAreLatest, Survives, Anchored, OneFileEach;
    var t := s.turns;
    assert Cleared(t, e) == [] && LeftBy(s, Turn(e)) == {};
    assert Moved(s, Turn(e)).files == s.files;
    if e.Deliver? {
      assert t.inFlight == t.stage.item.notes || Births(t.stage.item.notes) <= s.delivered;
    } else if e.Loop? {
      assert t.inFlight == [];
    }
  }

  lemma DecideIsTidy(s: Intake, rules: Rules, flush: bool, left: set<nat>)
    requires Shaped(s.turns) && Able(s, Decide(rules, flush)) && Tidy(s, left)
    ensures Tidy(Moved(s, Decide(rules, flush)), left)
  {
    hide Held, Shaped, NotesOf, PutAll, Sections, Filter, Chosen, Fresh, Births;
    var scanned := Scanned(s, rules);
    PutBatch(s.turns, Chosen(Fresh(s.loaded.value, s.queuedPaths), rules, Interrupt), rules.core);
    PutBatch(scanned.turns, scanned.snoozed, rules.core);
  }

  lemma MoveIsTidy(s: Intake, m: Move, left: set<nat>)
    requires Safe(s) && Able(s, m) && Tidy(s, left)
    ensures Tidy(Moved(s, m), left + LeftBy(s, m))
  {
    match m
    case Turn(e) => TurnIsTidy(s, e, left);
    case Decide(rules, flush) => DecideIsTidy(s, rules, flush, left);
    case Crash(_, _) =>
    case _ =>
  }

  /** Over every careful history, a delivered notification's file is gone once its turn is over, except
      for what sign-in loss, an undelivered query or a crash left behind to be read again. */
  lemma {:induction false} DeliveredFilesGo(h: History)
    requires Happens(h) && CarefulThroughout(h)
    ensures Tidy(Now(h), Left(h))
    decreases h
  {
    hide Safe, Careful, Moved, Able, Tidy, LeftBy;
    if h.Begin? {
      assert Tidy(Now(h), {}) by { NothingToTidy(Now(h)); }
    } else {
      DeliveredFilesGo(h.past);
      EveryHistoryIsSafe(h.past);
      MoveIsTidy(Now(h.past), h.move, Left(h.past));
    }
  }

  lemma NothingToTidy(s: Intake)
    requires s.files == map[]
    ensures Tidy(s, {})
  {
  }
}
