/**
 The text index over the event log: triggers that keep it, and the versioned migration that builds
 it, with a crash allowed between any two statements and any number of restarts.

 A script commits statement by statement. The backfill opens a transaction, and the version stamp
 that follows it joins that transaction.
 */
module SearchIndex {
  import opened Options

  datatype Kind = Conversation | Notification | AnotherType

  /** A row's data, as the triggers read it. */
  datatype Doc = Malformed | Doc(kind: Kind, fromCore: bool, hasSummary: bool)
  {
    predicate IsConversation() {
      Doc? && kind == Conversation
    }

    predicate IsMessage() {
      Doc? && kind == Notification && !fromCore && hasSummary
    }
  }

  datatype SchemaItem = EventsTable | TextIndex | ChatInsert | ChatDelete | NoticeInsert | NoticeDelete

  /** `index[id]` counts the postings of a row. */
  datatype Db = Db(version: nat, objects: set<SchemaItem>, rows: map<nat, Doc>, lastId: nat, index: multiset<nat>)

  // ---------------------------------------------------------------- rows and triggers

  function Once(fires: bool, id: nat): multiset<nat> {
    if fires then multiset{id} else multiset{}
  }

  /** Reading malformed JSON aborts the statement that fired the trigger. */
  predicate Aborts(db: Db, doc: Doc, triggers: set<SchemaItem>) {
    doc.Malformed? && db.objects * triggers != {}
  }

  function Inserted(db: Db, doc: Doc): Db {
    var id := db.lastId + 1;
    if Aborts(db, doc, {ChatInsert, NoticeInsert}) then db
    else
      db.(rows := db.rows[id := doc], lastId := id,
          index := db.index + Once(ChatInsert in db.objects && doc.IsConversation(), id)
                            + Once(NoticeInsert in db.objects && doc.IsMessage(), id))
  }

  function Deleted(db: Db, id: nat): Db {
    if id !in db.rows || Aborts(db, db.rows[id], {ChatDelete, NoticeDelete}) then db
    else
      db.(rows := db.rows - {id},
          index := db.index - Once(ChatDelete in db.objects && db.rows[id].IsConversation(), id)
                            - Once(NoticeDelete in db.objects && db.rows[id].IsMessage(), id))
  }

  /** The rows the backfill selects; malformed ones are guarded out. */
  function Messages(db: Db): set<nat> {
    set id | id in db.rows && db.rows[id].IsMessage()
  }

  // ---------------------------------------------------------------- the migration

  datatype Statement = Create(item: SchemaItem) | Backfill | Stamp(version: nat) | Commit

  const TO_ONE: seq<Statement> :=
    [Create(EventsTable), Create(TextIndex), Create(ChatInsert), Create(ChatDelete), Stamp(1), Commit]

  const TO_TWO: seq<Statement> := [Create(NoticeInsert), Create(NoticeDelete), Backfill, Stamp(2), Commit]

  const SCRIPT: seq<Statement> :=
    [Create(EventsTable), Create(TextIndex), Create(ChatInsert), Create(ChatDelete), Stamp(1), Commit,
     Create(NoticeInsert), Create(NoticeDelete), Backfill, Stamp(2), Commit]

  /** A connection: what is committed, and what its open transaction has made of it. */
  datatype Connection = Connection(disk: Db, open: Option<Db>)
  {
    function Current(): Db {
      if open.Some? then open.value else disk
    }

    /** Writing inside the open transaction, or straight to disk. */
    function Writing(db: Db): Connection {
      if open.Some? then this.(open := Some(db)) else this.(disk := db)
    }

    function Committed(): Connection {
      Connection(Current(), None)
    }
  }

  function Exec(c: Connection, s: Statement): Connection {
    match s
    case Create(item) =>
      var done := c.Committed();
      done.(disk := done.disk.(objects := done.disk.objects + {item}))
    case Backfill => c.(open := Some(c.Current().(index := c.Current().index + multiset(Messages(c.Current())))))
    case Stamp(version) => c.Writing(c.Current().(version := version))
    case Commit => c.Committed()
  }

  function ExecAll(c: Connection, statements: seq<Statement>): Connection
    decreases |statements|
  {
    if statements == [] then c else ExecAll(Exec(c, statements[0]), statements[1..])
  }

  /** The statements still to run from a stored version. */
  function Pending(version: nat): seq<Statement> {
    if version == 0 then SCRIPT else if version == 1 then TO_TWO else []
  }

  lemma {:induction false} ExecAllSplits(c: Connection, a: seq<Statement>, b: seq<Statement>)
    ensures ExecAll(c, a + b) == ExecAll(ExecAll(c, a), b)
    decreases |a|
  {
    if a == [] {
      assert a + b == b;
    } else {
      assert (a + b)[1..] == a[1..] + b;
      ExecAllSplits(Exec(c, a[0]), a[1..], b);
    }
  }

  lemma PendingUnfolded(c: Connection)
    ensures ExecAll(c, Pending(c.disk.version)) ==
      match c.disk.version
      case 0 => ExecAll(ExecAll(c, TO_ONE), TO_TWO)
      case 1 => ExecAll(c, TO_TWO)
      case _ => c
  {
    assert SCRIPT == TO_ONE + TO_TWO;
    ExecAllSplits(c, TO_ONE, TO_TWO);
  }

  class EventsDb {
    var connection: Connection

    constructor (db: Db)
      ensures connection == Connection(db, None)
    {
      connection := Connection(db, None);
    }

    method ExecuteAll(statements: seq<Statement>)
      modifies this
      ensures connection == ExecAll(old(connection), statements)
    {
      for i := 0 to |statements|
        invariant ExecAll(old(connection), statements) == ExecAll(connection, statements[i..])
      {
        assert statements[i..][1..] == statements[i + 1..];
        connection := Exec(connection, statements[i]);
      }
    }

    /** Each step above the stored version runs once, in order. */
    method Migrate()
      requires connection.open.None?
      modifies this
      ensures connection == ExecAll(old(connection), Pending(old(connection.disk.version)))
    {
      PendingUnfolded(connection);
      hide ExecAll, Exec, Pending, SCRIPT, TO_ONE, TO_TWO;
      var current := connection.disk.version;
      var steps := [(1, TO_ONE), (2, TO_TWO)];
      for i := 0 to |steps|
        invariant i <= 2 && |steps| == 2
        invariant current == if i == 0 || old(connection.disk.version) > i then old(connection.disk.version) else i
        invariant connection ==
          if old(connection.disk.version) >= i then old(connection)
          else if i == 1 then ExecAll(old(connection), TO_ONE)
          else ExecAll(old(connection), Pending(old(connection.disk.version)))
      {
        if current < steps[i].0 {
          ExecuteAll(steps[i].1);
          current := steps[i].0;
        }
      }
    }
  }

  // ---------------------------------------------------------------- every run

  /** A process: its connection and the migration statements it has yet to run. */
  datatype Process = Process(connection: Connection, todo: seq<Statement>)

  datatype Move = Advance | Restart | Insert(doc: Doc) | Delete(id: nat)

  /** Rows are written only once the migration is through; a restart loses the open transaction. */
  function Moved(p: Process, m: Move): Process {
    match m
    case Advance => if p.todo == [] then p else Process(Exec(p.connection, p.todo[0]), p.todo[1..])
    case Restart => Opened(p.connection.disk)
    case Insert(doc) => if p.todo == [] then p.(connection := Connection(Inserted(p.connection.disk, doc), None)) else p
    case Delete(id) => if p.todo == [] then p.(connection := Connection(Deleted(p.connection.disk, id), None)) else p
  }

  function Opened(disk: Db): Process {
    Process(Connection(disk, None), Pending(disk.version))
  }

  datatype Run = Start(db: Db) | After(past: Run, move: Move)

  function Reached(run: Run): Process {
    match run
    case Start(db) => Opened(db)
    case After(past, move) => Moved(Reached(past), move)
  }

  const ALL_OBJECTS: set<SchemaItem> := {EventsTable, TextIndex, ChatInsert, ChatDelete, NoticeInsert, NoticeDelete}
  const FIRST_OBJECTS: set<SchemaItem> := {EventsTable, TextIndex, ChatInsert, ChatDelete}

  /** One posting for each row the schema of `version` indexes, and none for any other id. */
  ghost predicate Exact(db: Db, withMessages: bool) {
    && (forall id | id in db.rows :: id <= db.lastId)
    && (forall id: nat :: db.index[id] ==
          if id in db.rows && (db.rows[id].IsConversation() || (withMessages && db.rows[id].IsMessage())) then 1 else 0)
  }

  /** A store some released version left behind: empty, or with the tables of its version. */
  ghost predicate Released(db: Db) {
    && db.version <= 2
    && Exact(db, db.version == 2)
    && (db.version == 0 ==> (db.objects == {} && db.rows == map[]) || FIRST_OBJECTS <= db.objects)
    && (db.version == 1 ==> FIRST_OBJECTS <= db.objects)
    && (db.version == 2 ==> ALL_OBJECTS <= db.objects)
  }

  ghost predicate StartsReleased(run: Run) {
    match run
    case Start(db) => Released(db)
    case After(past, _) => StartsReleased(past)
  }

  /** How far a process has come, by the number of statements it has left. */
  ghost predicate OnTrack(p: Process) {
    var disk, open, left := p.connection.disk, p.connection.open, |p.todo|;
    && left <= |SCRIPT| && p.todo == SCRIPT[|SCRIPT| - left..]
    && Exact(disk, left == 0)
    && disk.version == (if left > 6 then 0 else if left > 0 then 1 else 2)
    && (left <= 10 ==> EventsTable in disk.objects)
    && (left <= 9 ==> TextIndex in disk.objects)
    && (left <= 8 ==> ChatInsert in disk.objects)
    && (left <= 7 ==> ChatDelete in disk.objects)
    && (left <= 4 ==> NoticeInsert in disk.objects)
    && (left <= 3 ==> NoticeDelete in disk.objects)
    && (open.Some? <==> 1 <= left <= 2)
    && (open.Some? ==>
          open.value == disk.(index := disk.index + multiset(Messages(disk)), version := if left == 1 then 2 else 1))
  }

  lemma OpenedOnTrack(disk: Db)
    requires disk.version <= 2 && Exact(disk, disk.version == 2)
    requires disk.version == 1 ==> FIRST_OBJECTS <= disk.objects
    requires disk.version == 2 ==> ALL_OBJECTS <= disk.objects
    ensures OnTrack(Opened(disk))
  {
    assert SCRIPT[0..] == SCRIPT && SCRIPT[6..] == TO_TWO && SCRIPT[11..] == [];
  }

  /** Backfilling a store without message postings makes the index exact. */
  lemma BackfillIsExact(db: Db, version: nat)
    requires Exact(db, false)
    ensures Exact(db.(index := db.index + multiset(Messages(db)), version := version), true)
  {
  }

  /** The schema does not bear on exactness. */
  lemma SchemaAside(db: Db, other: Db, withMessages: bool)
    requires Exact(db, withMessages) && other == db.(version := other.version, objects := other.objects)
    ensures Exact(other, withMessages)
  {
  }

  /** The script, by the number of statements left. */
  lemma NextStatement(left: nat)
    requires 0 < left <= |SCRIPT|
    ensures SCRIPT[|SCRIPT| - left] ==
      match left
      case 11 => Create(EventsTable) case 10 => Create(TextIndex) case 9 => Create(ChatInsert)
      case 8 => Create(ChatDelete) case 7 => Stamp(1) case 6 => Commit
      case 5 => Create(NoticeInsert) case 4 => Create(NoticeDelete) case 3 => Backfill
      case 2 => Stamp(2) case _ => Commit
    ensures SCRIPT[|SCRIPT| - left..][1..] == SCRIPT[|SCRIPT| - (left - 1)..]
  {
  }

  lemma AdvanceStaysOnTrack(p: Process)
    requires OnTrack(p)
    ensures OnTrack(Moved(p, Advance))
  {
    hide Exact, Messages;
    var left := |p.todo|;
    if left > 0 { NextStatement(left); }
    hide SCRIPT;
    if left > 1 { SchemaAside(p.connection.disk, Moved(p, Advance).connection.disk, false); }
    if left == 1 { BackfillIsExact(p.connection.disk, 2); }
  }

  lemma InsertStaysExact(db: Db, doc: Doc)
    requires Exact(db, true) && ChatInsert in db.objects && NoticeInsert in db.objects
    ensures Exact(Inserted(db, doc), true)
  {
    assert doc.Malformed? ==> ChatInsert in db.objects * {ChatInsert, NoticeInsert};
  }

  lemma DeleteStaysExact(db: Db, id: nat)
    requires Exact(db, true) && ChatDelete in db.objects && NoticeDelete in db.objects
    ensures Exact(Deleted(db, id), true)
  {
    if id in db.rows {
      assert db.rows[id].Malformed? ==> ChatDelete in db.objects * {ChatDelete, NoticeDelete};
    }
  }

  lemma MoveStaysOnTrack(p: Process, m: Move)
    requires OnTrack(p)
    ensures OnTrack(Moved(p, m))
  {
    hide Exact, Inserted, Deleted;
    match m
    case Advance => AdvanceStaysOnTrack(p);
    case Restart => OpenedOnTrack(p.connection.disk);
    case Insert(doc) => if p.todo == [] {
      InsertStaysExact(p.connection.disk, doc);
      InsertKeepsSchema(p.connection.disk, doc);
    }
    case Delete(id) => if p.todo == [] {
      DeleteStaysExact(p.connection.disk, id);
      DeleteKeepsSchema(p.connection.disk, id);
    }
  }

  lemma InsertKeepsSchema(db: Db, doc: Doc)
    ensures Inserted(db, doc).version == db.version && Inserted(db, doc).objects == db.objects
  {
  }

  lemma DeleteKeepsSchema(db: Db, id: nat)
    ensures Deleted(db, id).version == db.version && Deleted(db, id).objects == db.objects
  {
  }

  lemma {:induction false} EveryRunIsOnTrack(run: Run)
    requires StartsReleased(run)
    ensures OnTrack(Reached(run))
  {
    hide OnTrack, Moved;
    match run
    case Start(db) => OpenedOnTrack(db);
    case After(past, move) =>
      EveryRunIsOnTrack(past);
      MoveStaysOnTrack(Reached(past), move);
  }

  /**
   From any released store, with crashes between any statements and any number of restarts, once
   the migration is through the index holds exactly one posting for each indexable row and none
   for any other, whatever was inserted and deleted since.
   */
  lemma OnePostingPerIndexableRow(run: Run, id: nat)
    requires StartsReleased(run) && Reached(run).todo == []
    ensures var db := Reached(run).connection.disk;
      && Reached(run).connection.open.None? && db.version == 2
      && db.index[id] == if id in db.rows && Indexable(db.rows[id]) then 1 else 0
  {
    EveryRunIsOnTrack(run);
  }

  /** A conversation, or a notification from outside that has a summary; never malformed data. */
  predicate Indexable(doc: Doc) {
    doc.Doc? && (doc.kind == Conversation || (doc.kind == Notification && !doc.fromCore && doc.hasSummary))
  }

  /** Once the migration is through, well-formed rows are stored and deleted, and malformed ones neither. */
  lemma WritesTakeEffect(run: Run, doc: Doc, id: nat)
    requires StartsReleased(run) && Reached(run).todo == []
    ensures
      var db := Reached(run).connection.disk;
      var inserted, deleted := Reached(After(run, Insert(doc))).connection.disk, Reached(After(run, Delete(id))).connection.disk;
      && inserted.rows == (if doc.Doc? then db.rows[db.lastId + 1 := doc] else db.rows) && db.lastId + 1 !in db.rows
      && deleted.rows == (if id in db.rows && db.rows[id].Doc? then db.rows - {id} else db.rows)
  {
    hide Inserted, Deleted, OnTrack;
    EveryRunIsOnTrack(run);
    MigratedWrites(Reached(run), doc, id);
  }

  lemma MigratedWrites(p: Process, doc: Doc, id: nat)
    requires OnTrack(p) && p.todo == []
    ensures
      var db := p.connection.disk;
      && Inserted(db, doc).rows == (if doc.Doc? then db.rows[db.lastId + 1 := doc] else db.rows) && db.lastId + 1 !in db.rows
      && Deleted(db, id).rows == (if id in db.rows && db.rows[id].Doc? then db.rows - {id} else db.rows)
  {
    hide Inserted, Deleted, SCRIPT, Messages;
    InsertStores(p.connection.disk, doc);
    DeleteRemoves(p.connection.disk, id);
  }

  lemma InsertStores(db: Db, doc: Doc)
    requires ChatInsert in db.objects
    ensures Inserted(db, doc).rows == if doc.Doc? then db.rows[db.lastId + 1 := doc] else db.rows
  {
    assert ChatInsert in db.objects * {ChatInsert, NoticeInsert};
  }

  lemma DeleteRemoves(db: Db, id: nat)
    requires ChatDelete in db.objects
    ensures Deleted(db, id).rows == if id in db.rows && db.rows[id].Doc? then db.rows - {id} else db.rows
  {
    assert ChatDelete in db.objects * {ChatDelete, NoticeDelete};
  }

  function Advances(run: Run, n: nat): Run
    decreases n
  {
    if n == 0 then run else Advances(After(run, Advance), n - 1)
  }

  /** Left alone, a process runs its statements one after the other, as the migration method does, and ends. */
  lemma {:induction false} AdvancingIsMigrating(run: Run)
    ensures
      var p := Reached(run);
      Reached(Advances(run, |p.todo|)) == Process(ExecAll(p.connection, p.todo), [])
    decreases |Reached(run).todo|
  {
    var p := Reached(run);
    if p.todo != [] { AdvancingIsMigrating(After(run, Advance)); }
  }

  /** Stamping in a transaction of its own would not do: a crash before the stamp backfills twice. */
  lemma UnstampedBackfillRepeats(db: Db, id: nat)
    requires Exact(db, false) && id in Messages(db)
    ensures
      var once := ExecAll(Connection(db, None), [Backfill, Commit]).disk;
      var twice := ExecAll(Connection(once, None), [Backfill, Commit]).disk;
      once.index[id] == 1 && twice.index[id] == 2 && !Exact(twice, true)
  {
    assert [Backfill, Commit][1..] == [Commit] && [Commit][1..] == [];
    var once := ExecAll(Connection(db, None), [Backfill, Commit]).disk;
    assert once == db.(index := db.index + multiset(Messages(db)));
    var twice := ExecAll(Connection(once, None), [Backfill, Commit]).disk;
    assert twice == once.(index := once.index + multiset(Messages(once)));
  }
}
