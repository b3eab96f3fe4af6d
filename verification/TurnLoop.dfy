/**
 The turn queue and the monitor as objects: the fields the loops update, and one method for each
 stretch of code between awaits, proved to be the step of the model.
 */
module TurnLoop {
  import opened Options
  import opened TurnQueue
  import opened NotificationIntake

  /** All rounds over `pending` up to a started turn or an empty list. */
  function Rounds(s: State): State
    requires s.stage.Looping?
    decreases |s.pending|
  {
    var t := Next(s, Loop);
    if t.stage.Looping? then Rounds(t) else t
  }

  /** Going through `pending` in one stretch is a run of single rounds. */
  lemma {:induction false} RoundsAreSteps(run: Run) returns (after: Run)
    requires Possible(run) && Reached(run).stage.Looping?
    ensures Possible(after) && Reached(after) == Rounds(Reached(run))
    decreases |Reached(run).pending|
  {
    after := Run.After(run, Loop);
    assert Reached(after) == Next(Reached(run), Loop);
    if Reached(after).stage.Looping? {
      after := RoundsAreSteps(after);
    }
  }

  class Turns {
    var queue: seq<Item>
    var pending: seq<Item>
    var stage: Stage
    var hand: Hand
    var inFlight: seq<Note>
    var bootPending: nat
    var authenticated: bool
    var shutdown: bool
    var put: seq<Item>   // the record of what was enqueued, which numbers the items
    var gone: seq<Exit>  // the record of how items left

    /** Counts the boot turns and enqueues them before anything else runs. */
    constructor (turns: seq<bool>, authenticated: bool)
      ensures View() == Booted(turns, authenticated)
    {
      var items := BootItems(turns);
      this.authenticated := authenticated;
      queue, pending, stage, hand, inFlight, shutdown := items, [], Idle, Empty, [], false;
      put, gone := items, [];
      bootPending := 0;
      new;
      for i := 0 to |items|
        invariant View() == Booted(turns, authenticated).(bootPending := BootCount(items[..i]))
      {
        assert items[..i + 1][..i] == items[..i];
        if !items[i].interruptible {
          bootPending := bootPending + 1;
        }
      }
      assert items[..|items|] == items;
    }

    ghost function View(): State
      reads this
    {
      State(queue, pending, stage, hand, inFlight, bootPending, authenticated, shutdown, put, gone)
    }

    method QueuePut(notes: seq<Note>)
      modifies this`queue, this`put
      ensures View() == Next(old(View()), Put(notes))
    {
      var item := Item(|put|, true, notes);
      queue, put := queue + [item], put + [item];
    }

    method ConsumeBootTurn(item: Item)
      modifies this`bootPending
      ensures View() == old(View()).(bootPending := Consumed(old(View()), item))
    {
      if !item.interruptible {
        bootPending := if bootPending == 0 then 0 else bootPending - 1;
      }
    }

    /** The processor takes an item and starts on it. */
    method TakeTurn()
      requires Enabled(View(), Take)
      modifies this
      ensures View() == Rounds(Next(old(View()), Take))
    {
      pending, queue, stage := [queue[0]], queue[1..], Looping;
      RunPending();
    }

    /** At shutdown what is pending goes to the back of the queue. */
    method PutBack()
      modifies this
      ensures View() == old(View()).(queue := old(queue) + old(pending), pending := [], stage := Idle)
    {
      ghost var before := View();
      for i := 0 to |pending|
        invariant pending == before.pending && View() == before.(queue := before.queue + pending[..i])
      {
        queue := queue + [pending[i]];
      }
      assert pending[..|pending|] == pending;
      pending, stage := [], Idle;
    }

    /** `_run_messages_with_preempts` up to a started turn, or to its end. */
    method RunPending()
      requires stage.Looping?
      modifies this
      ensures View() == Rounds(old(View()))
    {
      while pending != []
        invariant stage.Looping? && Rounds(View()) == Rounds(old(View()))
        decreases |pending|
      {
        ghost var before := View();
        if shutdown {
          PutBack();
          return;
        }
        var current := pending[0];
        pending := pending[1..];
        if !authenticated {
          ConsumeBootTurn(current);
          gone := gone + [Deferred(current)];
          assert View() == Next(before, Loop);
        } else {
          stage, inFlight := Running(current, false), current.notes;
          return;
        }
      }
      stage := Idle;
    }

    /** The watcher takes an item and tries to deliver it: either it is being sent, or it waits. */
    method WatcherTakes(open: bool)
      requires Enabled(View(), Get)
      modifies this
      ensures View() == Next(Next(old(View()), Get), Offer(open))
    {
      var arrived := queue[0];
      queue := queue[1..];
      if open && stage.item.interruptible && authenticated {
        hand := Sending(arrived);
      } else {
        pending := pending + [arrived];
      }
    }

    /** The preempting write returns; a delivered item's files are the caller's to clear. */
    method WatcherSent(ok: bool) returns (cleared: seq<Note>)
      requires Enabled(View(), Sent(ok))
      modifies this
      ensures View() == Next(old(View()), Sent(ok)) && cleared == Cleared(old(View()), Sent(ok))
    {
      var arrived := hand.item;
      hand := Empty;
      cleared := [];
      if ok {
        cleared := arrived.notes;
        ConsumeBootTurn(arrived);
        gone := gone + [Preempted(arrived)];
      } else {
        pending := pending + [arrived];
      }
    }

    /** The turn is over; its files are cleared only when the CLI saw it and sign-in still holds. */
    method FinishTurn(failed: bool, flagged: bool) returns (cleared: seq<Note>)
      requires Enabled(View(), EndTurn(failed, flagged))
      modifies this
      ensures View() == Rounds(Next(old(View()), EndTurn(failed, flagged)))
      ensures cleared == Cleared(old(View()), EndTurn(failed, flagged))
    {
      var current := stage.item;
      shutdown := shutdown || failed;
      ConsumeBootTurn(current);
      cleared := if authenticated && !flagged then inFlight else [];
      inFlight, stage, gone := [], Looping, gone + [Ran(current)];
      RunPending();
    }

    method TakeInFlight() returns (cleared: seq<Note>)
      requires Enabled(View(), RestartTool)
      modifies this`inFlight
      ensures View() == Next(old(View()), RestartTool) && cleared == Cleared(old(View()), RestartTool)
    {
      cleared := inFlight;
      inFlight := [];
    }
  }

  lemma FilterOneMore<X>(xs: seq<X>, i: nat, keep: X -> bool)
    requires i < |xs|
    ensures Filter(xs[..i + 1], keep) == if keep(xs[i]) then Filter(xs[..i], keep) + [xs[i]] else Filter(xs[..i], keep)
  {
    assert xs[..i + 1][..i] == xs[..i];
  }

  lemma NothingTrashed(trash: Files, files: Files)
    ensures TrashedWith(trash, files, Paths([])) == trash && files - Paths([]) == files
  {
  }

  lemma PathsOneMore(notes: seq<Note>, i: nat)
    requires i < |notes|
    ensures Paths(notes[..i + 1]) == Paths(notes[..i]) + {notes[i].path}
  {
    assert notes[..i + 1] == notes[..i] + [notes[i]];
  }

  lemma TrashOneMore(trash: Files, files: Files, notes: seq<Note>, i: nat)
    requires i < |notes|
    ensures
      var p, done := notes[i].path, Paths(notes[..i]);
      var left := files - done;
      && files - Paths(notes[..i + 1]) == left - {p}
      && TrashedWith(trash, files, Paths(notes[..i + 1])) ==
        if p in left then TrashedWith(trash, files, done)[p := left[p]] else TrashedWith(trash, files, done)
  {
    hide Paths;
    PathsOneMore(notes, i);
    TrashOnePath(trash, files, Paths(notes[..i]), notes[i].path);
  }

  lemma TrashOnePath(trash: Files, files: Files, done: set<nat>, p: nat)
    ensures files - (done + {p}) == (files - done) - {p}
    ensures TrashedWith(trash, files, done + {p}) ==
      if p in files && p !in done then TrashedWith(trash, files, done)[p := files[p]] else TrashedWith(trash, files, done)
  {
  }

  /** The monitor's locals and the notification directory. */
  class Monitor {
    const turns: Turns
    var files: Files
    var trash: Files
    var snoozed: seq<Note>
    var queuedPaths: set<nat>

    constructor (turns: Turns, files: Files)
      ensures this.turns == turns && this.files == files && trash == map[] && snoozed == [] && queuedPaths == {}
    {
      this.turns, this.files := turns, files;
      trash, snoozed, queuedPaths := map[], [], {};
    }

    /** The object holds the state `s` of the model. */
    ghost predicate Shows(s: Intake)
      reads this, turns
    {
      turns.View() == s.turns && files == s.files && trash == s.trash && snoozed == s.snoozed && queuedPaths == s.queuedPaths
    }

    method ClearNotifications(notes: seq<Note>)
      modifies this`files
      ensures files == old(files) - Paths(notes)
    {
      assert notes[..0] == [] && files == old(files) - Paths([]);
      for i := 0 to |notes|
        invariant files == old(files) - Paths(notes[..i])
      {
        files := files - {notes[i].path};
        assert notes[..i + 1] == notes[..i] + [notes[i]];
      }
      assert notes[..|notes|] == notes;
    }

    method TrashFiles(notes: seq<Note>)
      modifies this`files, this`trash
      ensures files == old(files) - Paths(notes) && trash == TrashedWith(old(trash), old(files), Paths(notes))
    {
      hide TrashedWith, Paths;
      NothingTrashed(trash, files);
      assert notes[..0] == [];
      for i := 0 to |notes|
        invariant files == old(files) - Paths(notes[..i])
        invariant trash == TrashedWith(old(trash), old(files), Paths(notes[..i]))
      {
        var p := notes[i].path;
        TrashOneMore(old(trash), old(files), notes, i);
        if p in files {
          trash, files := trash[p := files[p]], files - {p};
        }
      }
      assert notes[..|notes|] == notes;
    }

    /** Pruning the queued paths and reading the directory; malformed files are dropped. */
    method LoadNotifications(listing: seq<nat>) returns (loaded: seq<Note>)
      requires Distinct(listing) && forall p | p in listing :: p in files
      modifies this`files, this`queuedPaths
      ensures loaded == Parse(old(files), listing)
      ensures files == old(files) - Malformed(old(files), listing)
      ensures queuedPaths == old(queuedPaths) * old(files).Keys
    {
      queuedPaths := set p | p in queuedPaths && p in files;
      loaded := [];
      for i := 0 to |listing|
        invariant loaded == Parse(old(files), listing[..i])
        invariant files == old(files) - Malformed(old(files), listing[..i])
        invariant queuedPaths == old(queuedPaths) * old(files).Keys
      {
        var p := listing[i];
        assert listing[..i + 1][..i] == listing[..i];
        assert p in old(files) && p !in listing[..i];
        assert Malformed(old(files), listing[..i + 1]) ==
          Malformed(old(files), listing[..i]) + if old(files)[p].parses then {} else {p};
        if files[p].parses {
          loaded := loaded + [Note(p, files[p].birth)];
        } else {
          files := files - {p};
        }
      }
      assert listing[..|listing|] == listing;
    }

    method ProcessBatch(batch: seq<Note>, core: Note -> bool)
      modifies turns`queue, turns`put
      ensures turns.View() == PutAll(old(turns.View()), Sections(batch, core))
    {
      var system, external := [], [];
      for i := 0 to |batch|
        invariant unchanged(turns)
        invariant system == Filter(batch[..i], core) && external == Filter(batch[..i], Except(core))
      {
        FilterOneMore(batch, i, core);
        FilterOneMore(batch, i, Except(core));
        if core(batch[i]) {
          system := system + [batch[i]];
        } else {
          external := external + [batch[i]];
        }
      }
      assert batch[..|batch|] == batch;
      assert system == Filter(batch, core) && external == Filter(batch, Except(core));
      PutAllUnfolded(turns.View(), batch, core);
      if system != [] {
        turns.QueuePut(system);
      }
      if external != [] {
        turns.QueuePut(external);
      }
    }

    /** One tick's intake after the rules are loaded; returns what it announced. */
    method ScanNotifications(loaded: seq<Note>, rules: Rules, ghost s: Intake) returns (announced: seq<Note>)
      requires Shows(s) && s.loaded == Some(loaded)
      modifies this, turns`queue, turns`put
      ensures Shows(Scanned(s, rules)) && Scanned(s, rules).announced == s.announced + announced
    {
      var interrupting, snoozing, trashed := [], [], [];
      announced := [];
      for i := 0 to |loaded|
        invariant unchanged(this) && unchanged(turns)
        invariant announced == Fresh(loaded[..i], queuedPaths)
        invariant interrupting == Chosen(announced, rules, Interrupt)
        invariant snoozing == Chosen(announced, rules, Snooze)
        invariant trashed == Chosen(announced, rules, Trash)
      {
        var n := loaded[i];
        FilterOneMore(loaded, i, Unqueued(queuedPaths));
        if n.path !in queuedPaths {
          ChosenOneMore(announced, n, rules);
          announced := announced + [n];
          match rules.disposition(n)
          case Interrupt => interrupting := interrupting + [n];
          case Snooze => snoozing := snoozing + [n];
          case Trash => trashed := trashed + [n];
        }
      }
      assert loaded[..|loaded|] == loaded;
      TrashFiles(trashed);
      queuedPaths := queuedPaths + Paths(interrupting) + Paths(snoozing);
      ProcessBatch(interrupting, rules.core);
      snoozed := snoozed + snoozing;
    }

    method FlushSnoozed(core: Note -> bool, ghost s: Intake)
      requires Shows(s)
      modifies this`snoozed, turns`queue, turns`put
      ensures Shows(Flushed(s, core))
    {
      ProcessBatch(snoozed, core);
      snoozed := [];
    }

    /** A monitor tick up to the loading of the rules. */
    method TickBegins(listing: seq<nat>, ghost s: Intake) returns (loaded: seq<Note>)
      requires Shows(s) && Able(s, Load(listing))
      modifies this
      ensures Shows(Moved(s, Load(listing))) && Moved(s, Load(listing)).loaded == Some(loaded)
    {
      loaded := LoadNotifications(listing);
    }

    /** The rest of the tick. */
    method TickEnds(loaded: seq<Note>, rules: Rules, flush: bool, ghost s: Intake) returns (announced: seq<Note>)
      requires Shows(s) && s.loaded == Some(loaded)
      modifies this, turns`queue, turns`put
      ensures Shows(Moved(s, Decide(rules, flush))) && Moved(s, Decide(rules, flush)).announced == s.announced + announced
    {
      hide Scanned, PutAll, Sections;
      announced := ScanNotifications(loaded, rules, s);
      if flush {
        FlushSnoozed(rules.core, Scanned(s, rules));
      }
    }

    /** A turn is over: its files go if the CLI saw it, and the next turn is started. */
    method TurnEnds(failed: bool, flagged: bool, ghost s: Intake)
      requires Shows(s) && Able(s, Turn(EndTurn(failed, flagged)))
      modifies this`files, turns
      ensures
        var after := Moved(s, Turn(EndTurn(failed, flagged)));
        Shows(after.(turns := Rounds(after.turns)))
    {
      hide Rounds, Next, Cleared;
      var cleared := turns.FinishTurn(failed, flagged);
      ClearNotifications(cleared);
    }

    /** A preempting write returns: a delivered item's files go on the spot. */
    method PreemptEnds(ok: bool, ghost s: Intake)
      requires Shows(s) && Able(s, Turn(Sent(ok)))
      modifies this`files, turns
      ensures Shows(Moved(s, Turn(Sent(ok))))
    {
      hide Next, Cleared;
      var cleared := turns.WatcherSent(ok);
      ClearNotifications(cleared);
    }

    /** The restart tool drops the in-flight files before asking for the restart. */
    method RestartRequested(ghost s: Intake)
      requires Shows(s) && Able(s, Turn(RestartTool))
      modifies this`files, turns
      ensures Shows(Moved(s, Turn(RestartTool)))
    {
      hide Next, Cleared;
      var cleared := turns.TakeInFlight();
      ClearNotifications(cleared);
    }
  }

  lemma PutAllUnfolded(t: State, batch: seq<Note>, core: Note -> bool)
    ensures
      var system, external := Filter(batch, core), Filter(batch, Except(core));
      var u := if system == [] then t else Next(t, Put(system));
      PutAll(t, Sections(batch, core)) == if external == [] then u else Next(u, Put(external))
  {
    hide Filter;
    var system, external := Filter(batch, core), Filter(batch, Except(core));
    assert [system][..0] == [] && [external][..0] == [] && [system, external][..1] == [system];
    assert PutAll(t, [system]) == Next(t, Put(system));
  }

  lemma ChosenOneMore(unseen: seq<Note>, n: Note, rules: Rules)
    ensures forall d ::
      Chosen(unseen + [n], rules, d) == if rules.disposition(n) == d then Chosen(unseen, rules, d) + [n] else Chosen(unseen, rules, d)
  {
    assert (unseen + [n])[..|unseen|] == unseen;
  }
}
