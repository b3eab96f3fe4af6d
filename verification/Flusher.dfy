/**
 Persisting the device registry: a background flusher woken by a one-permit signal, racing the
 handlers that flush for themselves, all under one flush lock.

 Memory snapshots are numbered in the order they arose; a file holds either one whole snapshot or
 torn bytes. Each step is what happens between two awaits, so every interleaving is a run.
 */
module Flusher {
  import opened Options

  datatype Stored = Torn | Whole(version: nat)

  datatype Stage = Waiting | Locked | Snapped(version: nat) | Writing(version: nat) | Written(version: nat)
  {
    predicate HasSnapshot() {
      Snapped? || Writing? || Written?
    }
  }

  /** One flush: the memory it was asked to make durable, and how far it has come. */
  datatype Flush = Flush(since: nat, stage: Stage)

  type Worker = nat

  /** The background task; every other worker is a handler. It is parked when it has no flush. */
  const BACKGROUND: Worker := 0

  datatype State = State(
    memory: nat,                // the snapshot memory holds
    issued: nat,                // how many snapshots ever arose
    permit: bool,
    lock: Option<Worker>,
    flushes: map<Worker, Flush>,
    tmp: Option<Stored>,
    file: Stored,
    loose: nat,                 // writes that go on although their flush was dropped
    looseRenames: nat)          // and renames

  datatype Event =
    | Mutate                   // memory changes; the permit is stored
    | Notify                   // a mutation that changed nothing still notifies
    | Wake                     // the flusher takes the permit
    | Ask(worker: Worker)      // a handler awaits durability
    | Acquire(worker: Worker)
    | Snapshot(worker: Worker)
    | BeginWrite(worker: Worker)
    | EndWrite(worker: Worker, mixed: bool)  // another write may have gone on in the same file
    | Rename(worker: Worker)
    | Fail(worker: Worker)     // serializing, writing or renaming fails
    | Drop(worker: Worker)     // a handler's request is dropped while it awaits
    | LooseEnd(mixed: bool)    // a write whose flush was dropped comes to its end
    | LooseRename              // a rename whose flush was dropped is done
    | Crash                    // the process dies and starts again from the file

  predicate At(s: State, w: Worker, stage: Stage) {
    w in s.flushes && s.flushes[w].stage == stage
  }

  predicate Snapping(s: State, w: Worker) {
    w in s.flushes && s.flushes[w].stage.HasSnapshot()
  }

  predicate Enabled(s: State, e: Event) {
    match e
    case Mutate => true
    case Notify => true
    case Wake => s.permit && BACKGROUND !in s.flushes
    case Ask(w) => w != BACKGROUND && w !in s.flushes
    case Acquire(w) => At(s, w, Waiting) && s.lock.None?
    case Snapshot(w) => At(s, w, Locked)
    case BeginWrite(w) => w in s.flushes && s.flushes[w].stage.Snapped?
    case EndWrite(w, mixed) => w in s.flushes && s.flushes[w].stage.Writing? && (mixed ==> s.loose > 0)
    case Rename(w) => w in s.flushes && s.flushes[w].stage.Written?
    case Fail(w) => Snapping(s, w)
    case Drop(w) => w != BACKGROUND && w in s.flushes && !s.flushes[w].stage.Locked? && !s.flushes[w].stage.Snapped?
    case LooseEnd(_) => s.loose > 0
    case LooseRename => s.looseRenames > 0
    case Crash => true
  }

  function Reaching(s: State, w: Worker, stage: Stage): State
    requires w in s.flushes
  {
    s.(flushes := s.flushes[w := s.flushes[w].(stage := stage)])
  }

  function Finishing(s: State, w: Worker): State {
    s.(flushes := s.flushes - {w}, lock := None)
  }

  function Next(s: State, e: Event): State
    requires Enabled(s, e)
  {
    match e
    case Mutate => s.(memory := s.issued, issued := s.issued + 1, permit := true)
    case Notify => s.(permit := true)
    case Wake => s.(permit := false, flushes := s.flushes[BACKGROUND := Flush(s.memory, Waiting)])
    case Ask(w) => s.(flushes := s.flushes[w := Flush(s.memory, Waiting)])
    case Acquire(w) => Reaching(s, w, Locked).(lock := Some(w))
    case Snapshot(w) => Reaching(s, w, Snapped(s.memory))
    case BeginWrite(w) => Reaching(s, w, Writing(s.flushes[w].stage.version)).(tmp := Some(Torn))
    case EndWrite(w, mixed) =>
      var v := s.flushes[w].stage.version;
      Reaching(s, w, Written(v)).(tmp := Some(if mixed then Torn else Whole(v)))
    case Rename(w) =>
      Finishing(s, w).(tmp := None, file := if s.tmp.Some? then s.tmp.value else s.file)
    case Fail(w) =>
      // a failed write leaves its torn temporary file; a failed rename removes it
      Finishing(s, w).(tmp := if s.flushes[w].stage.Written? then None else s.tmp)
    case Drop(w) =>
      // the lock goes with the request; a write or rename already handed to its thread does not
      if s.flushes[w].stage.Writing? then Finishing(s, w).(loose := s.loose + 1)
      else if s.flushes[w].stage.Written? then Finishing(s, w).(looseRenames := s.looseRenames + 1)
      else s.(flushes := s.flushes - {w})
    case LooseEnd(mixed) =>
      // it wrote into the temporary file, wherever that is by now
      s.(loose := s.loose - 1,
         tmp := if s.tmp.Some? && mixed then Some(Torn) else s.tmp,
         file := if s.tmp.None? && mixed then Torn else s.file)
    case LooseRename =>
      s.(looseRenames := s.looseRenames - 1, tmp := None, file := if s.tmp.Some? then s.tmp.value else s.file)
    case Crash =>
      // a torn file would be read as an empty registry
      var reloaded := s.(permit := false, lock := None, flushes := map[], loose := 0, looseRenames := 0);
      if s.file.Whole? then reloaded.(memory := s.file.version)
      else reloaded.(memory := s.issued, issued := s.issued + 1)
  }

  // ---------------------------------------------------------------- runs

  datatype Run = Start | After(past: Run, event: Event)

  const LOADED := State(0, 1, false, None, map[], None, Whole(0), 0, 0)

  ghost predicate Possible(run: Run)
    decreases run, 0
  {
    run.Start? || (Possible(run.past) && Enabled(Reached(run.past), run.event))
  }

  ghost function Reached(run: Run): State
    requires Possible(run)
    decreases run, 1
  {
    if run.Start? then LOADED else Next(Reached(run.past), run.event)
  }

  predicate Held(s: State) {
    s.loose == 0 && s.looseRenames == 0
  }

  /** No write or rename of the run was cut loose from its flush. */
  ghost predicate NoneLoose(run: Run)
    requires Possible(run)
  {
    run.Start? || (NoneLoose(run.past) && Held(Reached(run)))
  }

  /** That is, no handler was dropped once its write had begun. */
  lemma {:induction false} NoneLooseWhenNoneDropped(run: Run)
    requires Possible(run)
    ensures NoneLoose(run) <==> NoneDroppedInMidFlush(run)
    decreases run
  {
    hide Next, Held;
    if run.After? {
      NoneLooseWhenNoneDropped(run.past);
      if NoneLoose(run.past) {
        LooseStays(run.past);
        OnlyDropsCutLoose(Reached(run.past), run.event);
      }
    } else {
      assert Held(LOADED) by { LoadedIsHeld(); }
    }
  }

  lemma OnlyDropsCutLoose(s: State, e: Event)
    requires Enabled(s, e) && Held(s)
    ensures Held(Next(s, e)) <==> (e.Drop? ==> s.flushes[e.worker].stage.Waiting?)
  {
  }

  lemma LoadedIsHeld()
    ensures Held(LOADED)
  {
  }

  ghost predicate NoneDroppedInMidFlush(run: Run)
    requires Possible(run)
  {
    run.After? ==>
      && NoneDroppedInMidFlush(run.past)
      && (run.event.Drop? ==> Reached(run.past).flushes[run.event.worker].stage.Waiting?)
  }

  /** Only the lock holder is past waiting, and what it wrote is what it snapshotted. */
  ghost predicate OneHolder(s: State) {
    && (forall w | w in s.flushes :: s.flushes[w].stage != Waiting <==> s.lock == Some(w))
    && (s.lock.Some? ==> s.lock.value in s.flushes)
    && (forall w | w in s.flushes && s.flushes[w].stage.Written? :: s.tmp == Some(Whole(s.flushes[w].stage.version)))
  }

  /** The file is one whole snapshot, no newer than any flush in progress and no flush is newer than memory. */
  ghost predicate Ordered(s: State) {
    && s.file.Whole? && s.file.version <= s.memory < s.issued
    && (forall w | w in s.flushes :: s.flushes[w].since <= s.memory)
    && (forall w | Snapping(s, w) ::
          s.file.version <= s.flushes[w].stage.version <= s.memory && s.flushes[w].since <= s.flushes[w].stage.version)
  }

  lemma NextKeepsOneHolder(s: State, e: Event)
    requires Enabled(s, e) && OneHolder(s) && Held(s)
    ensures OneHolder(Next(s, e))
  {
  }

  predicate Writes(e: Event) {
    e.BeginWrite? || e.EndWrite? || e.Rename? || e.Fail? || e.Drop?
  }

  lemma WritingKeepsOrdered(s: State, e: Event)
    requires Enabled(s, e) && OneHolder(s) && Ordered(s) && Held(s) && Writes(e)
    ensures Ordered(Next(s, e)) && s.file.version <= Next(s, e).file.version
  {
  }

  lemma OthersKeepOrdered(s: State, e: Event)
    requires Enabled(s, e) && OneHolder(s) && Ordered(s) && Held(s) && !Writes(e)
    ensures Ordered(Next(s, e)) && s.file.version <= Next(s, e).file.version
  {
  }

  lemma NextKeepsOrdered(s: State, e: Event)
    requires Enabled(s, e) && OneHolder(s) && Ordered(s) && Held(s)
    ensures Ordered(Next(s, e)) && s.file.version <= Next(s, e).file.version
  {
    hide Enabled, OneHolder, Ordered, Next, Held;
    if Writes(e) { WritingKeepsOrdered(s, e); } else { OthersKeepOrdered(s, e); }
  }

  lemma LooseStays(run: Run)
    requires Possible(run) && NoneLoose(run)
    ensures Held(Reached(run))
  {
  }

  /** Over every interleaving in which no write is cut loose the file is one whole past snapshot. */
  lemma {:induction false} FileIsWhole(run: Run)
    requires Possible(run) && NoneLoose(run)
    ensures OneHolder(Reached(run)) && Ordered(Reached(run))
    decreases run
  {
    hide OneHolder, Ordered, Next, Enabled;
    if run.Start? {
      assert OneHolder(LOADED) && Ordered(LOADED) by { LoadedIsOrdered(); }
    } else {
      FileIsWhole(run.past);
      LooseStays(run.past);
      NextKeepsOneHolder(Reached(run.past), run.event);
      NextKeepsOrdered(Reached(run.past), run.event);
    }
  }

  lemma LoadedIsOrdered()
    ensures OneHolder(LOADED) && Ordered(LOADED)
  {
  }

  ghost predicate Extends(run: Run, past: Run) {
    run == past || (run.After? && Extends(run.past, past))
  }

  /** The file never goes back to an older snapshot, failures and crashes included. */
  lemma {:induction false} FileNeverGoesBack(run: Run, past: Run)
    requires Possible(run) && NoneLoose(run) && Extends(run, past)
    ensures Possible(past) && NoneLoose(past) && Reached(past).file.Whole? && Reached(run).file.Whole?
    ensures Reached(past).file.version <= Reached(run).file.version
    decreases run
  {
    hide Next, Enabled, OneHolder;
    FileIsWhole(run);
    if run != past {
      FileNeverGoesBack(run.past, past);
      FileIsWhole(run.past);
      LooseStays(run.past);
      NextKeepsOrdered(Reached(run.past), run.event);
    }
  }

  /** What memory held when `w` last asked for a flush or, for the background task, last woke. */
  ghost function AskedFor(run: Run, w: Worker): nat
    requires Possible(run)
  {
    if run.Start? then 0
    else if run.event == Ask(w) || (run.event.Wake? && w == BACKGROUND) then Reached(run.past).memory
    else AskedFor(run.past, w)
  }

  lemma {:induction false} FlushesCarryWhatWasAsked(run: Run, w: Worker)
    requires Possible(run) && w in Reached(run).flushes
    ensures Reached(run).flushes[w].since == AskedFor(run, w)
    decreases run
  {
    hide Next, Enabled;
    if run.After? {
      StepCarries(Reached(run.past), run.event, w);
      if w in Reached(run.past).flushes { FlushesCarryWhatWasAsked(run.past, w); }
    }
  }

  lemma StepCarries(s: State, e: Event, w: Worker)
    requires Enabled(s, e) && w in Next(s, e).flushes
    ensures
      if e == Ask(w) || (e.Wake? && w == BACKGROUND) then Next(s, e).flushes[w].since == s.memory
      else w in s.flushes && Next(s, e).flushes[w].since == s.flushes[w].since
  {
  }

  /** When a flush reports success, the memory it was asked to save, or a later one, is in the file. */
  lemma RenamedIsDurable(run: Run, w: Worker)
    requires Possible(run) && NoneLoose(run) && Enabled(Reached(run), Rename(w))
    ensures var file := Next(Reached(run), Rename(w)).file; file.Whole? && file.version >= AskedFor(run, w)
  {
    FileIsWhole(run);
    FlushesCarryWhatWasAsked(run, w);
  }

  // ---------------------------------------------------------------- agreement at rest

  /** Whether the background task's last finished flush failed. */
  ghost function LastFailed(run: Run): bool {
    if run.Start? || run.event.Crash? then false
    else if run.event == Fail(BACKGROUND) then true
    else if run.event == Rename(BACKGROUND) then false
    else LastFailed(run.past)
  }

  /** With no permit stored nothing changed since the flusher woke, so what it carries is current. */
  ghost predicate Settled(s: State, failed: bool) {
    && (!s.permit && BACKGROUND !in s.flushes && !failed ==>
          s.file == Whole(s.memory) && forall w | Snapping(s, w) :: s.flushes[w].stage.version == s.memory)
    && (!s.permit && Snapping(s, BACKGROUND) ==> s.flushes[BACKGROUND].stage.version == s.memory)
  }

  lemma NextKeepsSettled(s: State, e: Event, failed: bool)
    requires Enabled(s, e) && OneHolder(s) && Ordered(s) && Settled(s, failed) && Held(s)
    ensures Settled(Next(s, e),
      if e.Crash? then false else if e == Fail(BACKGROUND) then true else if e == Rename(BACKGROUND) then false else failed)
  {
  }

  lemma {:induction false} EveryRunIsSettled(run: Run)
    requires Possible(run) && NoneLoose(run)
    ensures Settled(Reached(run), LastFailed(run))
    decreases run
  {
    hide OneHolder, Ordered, Next, Enabled, Settled;
    if run.Start? {
      assert Settled(LOADED, false) by { LoadedIsSettled(); }
    } else {
      EveryRunIsSettled(run.past);
      FileIsWhole(run.past);
      LooseStays(run.past);
      NextKeepsSettled(Reached(run.past), run.event, LastFailed(run.past));
    }
  }

  lemma LoadedIsSettled()
    ensures Settled(LOADED, false)
  {
  }

  /**
   Whenever the flusher is parked with no permit, the file holds memory, unless the flusher's own
   last flush failed. Failures of handlers do no harm.
   */
  lemma ParkedMeansSaved(run: Run)
    requires Possible(run) && NoneLoose(run)
    requires !Reached(run).permit && BACKGROUND !in Reached(run).flushes && !LastFailed(run)
    ensures Reached(run).file == Whole(Reached(run).memory)
  {
    EveryRunIsSettled(run);
  }

  /** A failed flush is not retried by itself: with nothing notified since, the file stays behind. */
  lemma FailedFlushIsNotRetried()
    ensures
      var run := After(After(After(After(After(Start, Mutate), Wake), Acquire(BACKGROUND)), Snapshot(BACKGROUND)), Fail(BACKGROUND));
      && Possible(run)
      && !Reached(run).permit && BACKGROUND !in Reached(run).flushes
      && Reached(run).file == Whole(0) && Reached(run).memory == 1
  {
    var r1 := After(Start, Mutate);
    assert Reached(r1) == State(1, 2, true, None, map[], None, Whole(0), 0, 0);
    var r2 := After(r1, Wake);
    assert Reached(r2) == State(1, 2, false, None, map[BACKGROUND := Flush(1, Waiting)], None, Whole(0), 0, 0);
    var r3 := After(r2, Acquire(BACKGROUND));
    assert Reached(r3) == State(1, 2, false, Some(BACKGROUND), map[BACKGROUND := Flush(1, Locked)], None, Whole(0), 0, 0);
    var r4 := After(r3, Snapshot(BACKGROUND));
    assert Reached(r4) == State(1, 2, false, Some(BACKGROUND), map[BACKGROUND := Flush(1, Snapped(1))], None, Whole(0), 0, 0);
    var r5 := After(r4, Fail(BACKGROUND));
    assert Reached(r5).file == Whole(0);
  }

  // ---------------------------------------------------------------- a handler dropped in mid-write

  const CUT_LOOSE: seq<Event> :=
    [Mutate, Ask(1), Acquire(1), Snapshot(1), BeginWrite(1), Drop(1),
     Ask(2), Acquire(2), Snapshot(2), BeginWrite(2), EndWrite(2, false), Rename(2), LooseEnd(true)]

  /** The state after `k` of these events. */
  function CutLooseAt(k: nat): State {
    var one := if k == 2 then map[1 := Flush(1, Waiting)] else if k == 3 then map[1 := Flush(1, Locked)]
               else if k == 4 then map[1 := Flush(1, Snapped(1))] else if k == 5 then map[1 := Flush(1, Writing(1))]
               else if k == 7 then map[2 := Flush(1, Waiting)] else if k == 8 then map[2 := Flush(1, Locked)]
               else if k == 9 then map[2 := Flush(1, Snapped(1))] else if k == 10 then map[2 := Flush(1, Writing(1))]
               else if k == 11 then map[2 := Flush(1, Written(1))] else map[];
    State(if k == 0 then 0 else 1, if k == 0 then 1 else 2, k > 0,
      if 3 <= k <= 5 then Some(1) else if 8 <= k <= 11 then Some(2) else None, one,
      if k < 5 || k >= 12 then None else if k == 11 then Some(Whole(1)) else Some(Torn),
      if k < 12 then Whole(0) else if k == 12 then Whole(1) else Torn, if 6 <= k <= 12 then 1 else 0, 0)
  }

  lemma CutLooseStep(k: nat)
    requires k < |CUT_LOOSE|
    ensures Enabled(CutLooseAt(k), CUT_LOOSE[k]) && Next(CutLooseAt(k), CUT_LOOSE[k]) == CutLooseAt(k + 1)
  {
  }

  function CutLoose(k: nat): Run
    requires k <= |CUT_LOOSE|
  {
    if k == 0 then Start else After(CutLoose(k - 1), CUT_LOOSE[k - 1])
  }

  lemma {:induction false} CutLooseReaches(k: nat)
    requires k <= |CUT_LOOSE|
    ensures Possible(CutLoose(k)) && Reached(CutLoose(k)) == CutLooseAt(k)
  {
    hide CutLooseAt, Next, Enabled;
    if k == 0 {
      assert LOADED == CutLooseAt(0) by { CutLooseStarts(); }
    } else {
      CutLooseReaches(k - 1);
      CutLooseStep(k - 1);
    }
  }

  lemma CutLooseStarts()
    ensures LOADED == CutLooseAt(0)
  {
  }

  /** A handler dropped in mid-write: its write goes on into the file another flush has renamed into place, and tears it. */
  lemma DroppedWriteTearsTheFile()
    ensures Possible(CutLoose(12)) && Reached(CutLoose(12)).file == Whole(1)
    ensures Possible(CutLoose(13)) && Reached(CutLoose(13)).file == Torn
  {
    CutLooseReaches(12);
    CutLooseReaches(13);
  }
}
