/**
 Paging backwards through the append-only event log with a cursor, with or without the
 notifications channel, while events keep being appended.
 */
module History {
  import opened Options

  /** What Python makes of a row's data: nothing, a JSON value that is no object, or an event. */
  datatype Reading<+E> = Malformed | NoObject | Read(event: E)

  /** A stored row: the type SQLite extracts from its data, when there is one, and what Python reads. */
  datatype Row<+E> = Row(id: nat, extracted: Option<Kind>, parsed: Reading<E>)

  datatype Kind = Notification | AnotherType

  datatype Entry<+E> = Entry(id: nat, event: E)

  /** A page in ascending order and the cursor of the next older one. */
  datatype Page<+E> = Page(events: seq<Entry<E>>, next: Option<int>)

  /** Giving an id to a JSON value that is no object raises, and the request fails. */
  datatype Response<+E> = Raised | Answered(page: Page<E>)

  datatype Channel = Everything | Notifications

  predicate Ascending<E>(rows: seq<Row<E>>) {
    forall i, j | 0 <= i < j < |rows| :: rows[i].id < rows[j].id
  }

  predicate Matches<E>(row: Row<E>, channel: Channel, below: Option<int>) {
    && (channel == Notifications ==> row.extracted == Some(Notification))
    && (below.Some? ==> row.id < below.value)
  }

  /** The rows a query's conditions select, in id order. */
  function Select<E>(rows: seq<Row<E>>, channel: Channel, below: Option<int>): seq<Row<E>> {
    if rows == [] then []
    else
      var rest := Select(rows[..|rows| - 1], channel, below);
      var last := rows[|rows| - 1];
      if Matches(last, channel, below) then rest + [last] else rest
  }

  /** The well-formed rows as events. */
  function Parsed<E>(rows: seq<Row<E>>): seq<Entry<E>> {
    if rows == [] then []
    else
      var rest := Parsed(rows[..|rows| - 1]);
      var last := rows[|rows| - 1];
      if last.parsed.Read? then rest + [Entry(last.id, last.parsed.event)] else rest
  }

  /** The newest `limit` selected rows, and a cursor when there are older ones. */
  function PageOf<E>(rows: seq<Row<E>>, channel: Channel, below: Option<int>, limit: int): Page<E> {
    var selected := Select(rows, channel, below);
    if limit <= 0 then Page([], None)
    else if |selected| <= limit then Page(Parsed(selected), None)
    else
      var newest := selected[|selected| - limit..];
      Page(Parsed(newest), Some(newest[0].id))
  }

  predicate AllObjects<E>(rows: seq<Row<E>>) {
    forall i | 0 <= i < |rows| :: !rows[i].parsed.NoObject?
  }

  /** The rows a page is made of. */
  function PageRows<E>(rows: seq<Row<E>>, channel: Channel, below: Option<int>, limit: int): seq<Row<E>> {
    var selected := Select(rows, channel, below);
    if limit <= 0 then [] else if |selected| <= limit then selected else selected[|selected| - limit..]
  }

  /** A page, unless one of its rows is no object. */
  function ResponseOf<E>(rows: seq<Row<E>>, channel: Channel, below: Option<int>, limit: int): Response<E> {
    if AllObjects(PageRows(rows, channel, below, limit)) then Answered(PageOf(rows, channel, below, limit)) else Raised
  }

  /** `ORDER BY id DESC LIMIT n`. */
  function Descending<E>(rows: seq<Row<E>>, n: nat): seq<Row<E>> {
    seq(if |rows| < n then |rows| else n, i requires 0 <= i < |rows| => rows[|rows| - 1 - i])
  }

  /** Reads a page's rows, found newest first, into ascending events. */
  method ReadRows<E>(found: seq<Row<E>>, ghost page: seq<Row<E>>) returns (events: Option<seq<Entry<E>>>)
    requires found == Descending(page, |page|)
    ensures events == if AllObjects(page) then Some(Parsed(page)) else None
  {
    hide Parsed, Descending;
    var read: seq<Entry<E>> := [];
    DescendingAt(page, |page|, 0);
    NothingOnThePage(page[..0]);
    for i := 0 to |found|
      invariant read == Parsed(page[..i])
      invariant AllObjects(page[..i])
    {
      var row := found[|found| - 1 - i];
      DescendingAt(page, |page|, |page| - 1 - i);
      ParsedOneMore(page[..i], row);
      assert page[..i + 1] == page[..i] + [row];
      match row.parsed {
        case Malformed =>
        case NoObject =>
          assert page[i].parsed.NoObject?;
          return None;
        case Read(event) =>
          read := read + [Entry(row.id, event)];
      }
    }
    assert page[..|found|] == page;
    return Some(read);
  }

  class EventLog<E> {
    const stored: bool  // whether the bus has a database
    var rows: seq<Row<E>>
    var lastId: nat

    constructor (stored: bool)
      ensures Valid() && rows == [] && this.stored == stored
    {
      this.stored, rows, lastId := stored, [], 0;
    }

    ghost predicate Valid()
      reads this
    {
      Ascending(rows) && (forall row | row in rows :: 0 < row.id <= lastId) && (!stored ==> rows == [])
    }

    method Insert(extracted: Option<Kind>, parsed: Reading<E>)
      requires Valid() && stored
      modifies this
      ensures Valid() && exists id: nat :: rows == old(rows) + [Row(id, extracted, parsed)]
    {
      lastId := lastId + 1;
      rows := rows + [Row(lastId, extracted, parsed)];
    }

    method ReadPage(channel: Channel, below: Option<int>, limit: int) returns (response: Response<E>)
      requires Valid()
      ensures response == ResponseOf(rows, channel, below, limit)
    {
      hide Select, Parsed, AllObjects, Matches, Descending, PageOf, PageRows, ResponseOf;
      if !stored || limit <= 0 {
        NothingToRead(rows, channel, below, limit);
        return Answered(Page([], None));
      }
      var found := Descending(Select(rows, channel, below), limit + 1);
      FoundIsThePage(Select(rows, channel, below), limit);
      PageAnswers(rows, channel, below, limit);
      ghost var page := PageRows(rows, channel, below, limit);
      DescendingAt(page, |page|, 0);
      if found == [] {
        NothingOnThePage(page);
        return Answered(Page([], None));
      }
      var hasOlder := |found| > limit;
      if hasOlder {
        found := found[..limit];
      }
      DescendingAt(page, |page|, |page| - 1);
      var events := ReadRows(found, page);
      var next := if hasOlder then Some(found[|found| - 1].id) else None;
      response := if events.Some? then Answered(Page(events.value, next)) else Raised;
    }

    method Recent(channel: Channel, limit: int) returns (response: Response<E>)
      requires Valid()
      ensures response == ResponseOf(rows, channel, None, limit)
    {
      response := ReadPage(channel, None, limit);
    }

    method Before(cursor: int, channel: Channel, limit: int) returns (response: Response<E>)
      requires Valid()
      ensures response == ResponseOf(rows, channel, Some(cursor), limit)
    {
      response := ReadPage(channel, Some(cursor), limit);
    }
  }

  lemma NothingOnThePage<E>(none: seq<Row<E>>)
    requires none == []
    ensures Parsed(none) == [] && AllObjects(none)
  {
  }

  lemma NothingToRead<E>(rows: seq<Row<E>>, channel: Channel, below: Option<int>, limit: int)
    requires rows == [] || limit <= 0
    ensures ResponseOf(rows, channel, below, limit) == Answered(Page([], None))
  {
  }

  lemma DescendingAt<E>(rows: seq<Row<E>>, n: nat, k: nat)
    requires n <= |rows|
    ensures |Descending(rows, n)| == n
    ensures k < n ==> Descending(rows, n)[k] == rows[|rows| - 1 - k]
  {
  }

  /** The rows found, newest first, are those of the page. */
  lemma FoundIsThePage<E>(selected: seq<Row<E>>, limit: nat)
    ensures
      var all := Descending(selected, limit + 1);
      && (|all| > limit <==> |selected| > limit)
      && (|all| > limit ==> all[..limit] == Descending(selected[|selected| - limit..], limit))
      && (|all| <= limit ==> all == Descending(selected, |selected|))
  {
  }

  /** The oldest row of a page gives the cursor. */
  lemma PageAnswers<E>(rows: seq<Row<E>>, channel: Channel, below: Option<int>, limit: nat)
    requires limit >= 1
    ensures
      var older := |Select(rows, channel, below)| > limit;
      var page := PageRows(rows, channel, below, limit);
      && page == (if older then Select(rows, channel, below)[|Select(rows, channel, below)| - limit..] else Select(rows, channel, below))
      && ResponseOf(rows, channel, below, limit) ==
         if AllObjects(page) then Answered(Page(Parsed(page), if older then Some(page[0].id) else None)) else Raised
  {
    hide Select, Parsed, AllObjects;
  }

  lemma ParsedOneMore<E>(rows: seq<Row<E>>, row: Row<E>)
    ensures Parsed(rows + [row]) == if row.parsed.Read? then Parsed(rows) + [Entry(row.id, row.parsed.event)] else Parsed(rows)
  {
    assert (rows + [row])[..|rows|] == rows;
  }

  lemma {:induction false} ParsedSplits<E>(a: seq<Row<E>>, b: seq<Row<E>>)
    ensures Parsed(a + b) == Parsed(a) + Parsed(b)
    decreases |b|
  {
    hide Parsed;
    if b == [] {
      assert a + b == a;
      NothingOnThePage(b);
    } else {
      var front, last := b[..|b| - 1], b[|b| - 1];
      ParsedSplits(a, front);
      ParsedOneMore(a + front, last);
      ParsedOneMore(front, last);
      assert a + b == (a + front) + [last] && front + [last] == b;
    }
  }

  lemma SelectOneMore<E>(rows: seq<Row<E>>, row: Row<E>, channel: Channel, below: Option<int>)
    ensures Select(rows + [row], channel, below) ==
      if Matches(row, channel, below) then Select(rows, channel, below) + [row] else Select(rows, channel, below)
  {
    assert (rows + [row])[..|rows|] == rows;
  }

  /** Selecting keeps what matches, and nothing else. */
  lemma {:induction false} SelectKeepsMatches<E>(rows: seq<Row<E>>, channel: Channel, below: Option<int>, row: Row<E>)
    ensures row in Select(rows, channel, below) <==> row in rows && Matches(row, channel, below)
  {
    if rows != [] {
      var front, last := rows[..|rows| - 1], rows[|rows| - 1];
      assert rows == front + [last];
      SelectKeepsMatches(front, channel, below, row);
    }
  }

  /** Selecting keeps the order. */
  lemma {:induction false} SelectKeepsOrder<E>(rows: seq<Row<E>>, channel: Channel, below: Option<int>)
    requires Ascending(rows)
    ensures Ascending(Select(rows, channel, below))
  {
    hide Matches;
    if rows != [] {
      var front, last := rows[..|rows| - 1], rows[|rows| - 1];
      SelectKeepsOrder(front, channel, below);
      var kept := Select(front, channel, below);
      forall i | 0 <= i < |kept| ensures kept[i].id < last.id {
        SelectKeepsMatches(front, channel, below, kept[i]);
        var j :| 0 <= j < |front| && front[j] == kept[i];
        assert rows[j] == kept[i];
      }
    }
  }

  /** Rows appended after the cursor was given out are never selected below it. */
  lemma {:induction false} AppendedAreAbove<E>(rows: seq<Row<E>>, more: seq<Row<E>>, channel: Channel, cursor: int)
    requires forall row | row in more :: cursor <= row.id
    ensures Select(rows + more, channel, Some(cursor)) == Select(rows, channel, Some(cursor))
    decreases |more|
  {
    hide Select, Matches;
    if more == [] {
      assert rows + more == rows;
    } else {
      var front, last := more[..|more| - 1], more[|more| - 1];
      AppendedAreAbove(rows, front, channel, cursor);
      SelectOneMore(rows + front, last, channel, Some(cursor));
      NotBelowItself(last, channel, cursor);
      assert rows + more == (rows + front) + [last];
    }
  }

  /** What lies below the oldest row of a page is what the page left out. */
  lemma {:induction false} SelectBelow<E>(rows: seq<Row<E>>, channel: Channel, below: Option<int>, k: nat)
    requires Ascending(rows) && k < |Select(rows, channel, below)|
    ensures
      var selected := Select(rows, channel, below);
      Select(rows, channel, Some(selected[k].id)) == selected[..k]
  {
    hide Select, Matches;
    var at := IndexOf(rows, channel, below, k);
    var front, last := rows[..|rows| - 1], rows[|rows| - 1];
    assert rows == front + [last];
    var kept := Select(front, channel, below);
    var cursor := rows[at].id;
    SelectOneMore(front, last, channel, below);
    SelectOneMore(front, last, channel, Some(cursor));
    NotBelowItself(last, channel, cursor);
    if k < |kept| {
      SelectBelow(front, channel, below, k);
    } else {
      forall row | row in front ensures row.id < last.id {
        var i :| 0 <= i < |front| && front[i] == row;
        assert rows[i] == row;
      }
      AllBelow(front, channel, below, last.id);
    }
  }

  lemma NotBelowItself<E>(row: Row<E>, channel: Channel, cursor: int)
    requires cursor <= row.id
    ensures !Matches(row, channel, Some(cursor))
  {
  }

  lemma {:induction false} AllBelow<E>(rows: seq<Row<E>>, channel: Channel, below: Option<int>, cursor: int)
    requires forall row | row in rows :: row.id < cursor
    requires below.Some? ==> cursor < below.value
    ensures Select(rows, channel, Some(cursor)) == Select(rows, channel, below)
  {
    if rows != [] {
      var front, last := rows[..|rows| - 1], rows[|rows| - 1];
      assert rows == front + [last];
      AllBelow(front, channel, below, cursor);
      SelectOneMore(front, last, channel, below);
      SelectOneMore(front, last, channel, Some(cursor));
    }
  }

  // ---------------------------------------------------------------- walking the cursors

  /** The log at the `i`-th request: `emits(j)` is appended between requests `j` and `j + 1`. */
  function LogAt<E>(rows: seq<Row<E>>, emits: nat -> seq<Row<E>>, i: nat): seq<Row<E>> {
    if i == 0 then rows else LogAt(rows, emits, i - 1) + emits(i - 1)
  }

  ghost predicate Grows<E>(rows: seq<Row<E>>, emits: nat -> seq<Row<E>>) {
    forall i: nat :: Ascending(LogAt(rows, emits, i))
  }

  /** A page's cursor is the id of a row of the log, below the cursor asked for. */
  lemma CursorFalls<E>(rows: seq<Row<E>>, channel: Channel, below: Option<int>, limit: nat)
    requires Ascending(rows) && limit >= 1
    ensures var page := PageOf(rows, channel, below, limit);
      page.next.Some? ==> page.next.value >= 0 && (below.Some? ==> page.next.value < below.value)
  {
    var selected := Select(rows, channel, below);
    if |selected| > limit { var j := IndexOf(rows, channel, below, |selected| - limit); }
  }

  /** The pages from request `i` on, following the cursors, unless a request fails. */
  ghost function PagesBelow<E>(
    rows: seq<Row<E>>, emits: nat -> seq<Row<E>>, channel: Channel, limit: nat, i: nat, cursor: nat): Option<seq<seq<Entry<E>>>>
    requires limit >= 1 && Grows(rows, emits)
    decreases cursor
  {
    CursorFalls(LogAt(rows, emits, i), channel, Some(cursor), limit);
    match ResponseOf(LogAt(rows, emits, i), channel, Some(cursor), limit)
    case Raised => None
    case Answered(page) =>
      if page.next.None? then Some([page.events])
      else InFront(page.events, PagesBelow(rows, emits, channel, limit, i + 1, page.next.value))
  }

  ghost function Walk<E>(rows: seq<Row<E>>, emits: nat -> seq<Row<E>>, channel: Channel, limit: nat): Option<seq<seq<Entry<E>>>>
    requires limit >= 1 && Grows(rows, emits)
  {
    assert Ascending(LogAt(rows, emits, 0));
    CursorFalls(rows, channel, None, limit);
    match ResponseOf(rows, channel, None, limit)
    case Raised => None
    case Answered(page) =>
      if page.next.None? then Some([page.events])
      else InFront(page.events, PagesBelow(rows, emits, channel, limit, 1, page.next.value))
  }

  function InFront<E>(events: seq<Entry<E>>, pages: Option<seq<seq<Entry<E>>>>): Option<seq<seq<Entry<E>>>> {
    if pages.Some? then Some([events] + pages.value) else None
  }

  /** The pages from the oldest to the newest, joined. */
  function Joined<E>(pages: seq<seq<Entry<E>>>): seq<Entry<E>> {
    if pages == [] then [] else Joined(pages[1..]) + pages[0]
  }

  lemma {:induction false} LogOnlyGrows<E>(rows: seq<Row<E>>, emits: nat -> seq<Row<E>>, i: nat) returns (more: seq<Row<E>>)
    ensures LogAt(rows, emits, i) == rows + more
  {
    if i == 0 {
      more := [];
    } else {
      var less := LogOnlyGrows(rows, emits, i - 1);
      more := less + emits(i - 1);
    }
  }

  /** A request below a cursor the first log knew reads the first log. */
  lemma LaterLogsReadTheSame<E>(rows: seq<Row<E>>, emits: nat -> seq<Row<E>>, channel: Channel, i: nat, k: nat)
    requires Grows(rows, emits) && k < |rows|
    ensures Select(LogAt(rows, emits, i), channel, Some(rows[k].id)) == Select(rows, channel, Some(rows[k].id))
  {
    var more := LogOnlyGrows(rows, emits, i);
    var all := LogAt(rows, emits, i);
    assert Ascending(all);
    forall row | row in more ensures rows[k].id <= row.id {
      var j :| 0 <= j < |more| && more[j] == row;
      assert all[k] == rows[k] && all[|rows| + j] == row;
    }
    AppendedAreAbove(rows, more, channel, rows[k].id);
  }

  /** A walk is answered exactly when its rows are all readable, and then its pages join to their history. */
  ghost predicate Joins<E>(pages: Option<seq<seq<Entry<E>>>>, selected: seq<Row<E>>) {
    && (pages.Some? <==> AllObjects(selected))
    && (pages.Some? ==> Joined(pages.value) == Parsed(selected))
  }

  lemma {:induction false} PagesBelowJoin<E>(rows: seq<Row<E>>, emits: nat -> seq<Row<E>>, channel: Channel, limit: nat, i: nat, k: nat)
    requires limit >= 1 && Grows(rows, emits) && k < |rows|
    ensures Joins(PagesBelow(rows, emits, channel, limit, i, rows[k].id), Select(rows, channel, Some(rows[k].id)))
    decreases rows[k].id
  {
    hide Select, Parsed, Matches, Joined, Grows, LogAt, AllObjects, Joins;
    var cursor := rows[k].id;
    LaterLogsReadTheSame(rows, emits, channel, i, k);
    FirstLog(rows, emits);
    var selected := Select(rows, channel, Some(cursor));
    if |selected| > limit {
      var cut := |selected| - limit;
      var j := IndexOf(rows, channel, Some(cursor), cut);
      SelectBelow(rows, channel, Some(cursor), cut);
      PagesBelowJoin(rows, emits, channel, limit, i + 1, j);
      JoinNewest(selected, cut, PagesBelow(rows, emits, channel, limit, i + 1, rows[j].id));
    } else {
      JoinOnly(selected);
    }
  }

  lemma FirstLog<E>(rows: seq<Row<E>>, emits: nat -> seq<Row<E>>)
    requires Grows(rows, emits)
    ensures Ascending(rows)
  {
    assert Ascending(LogAt(rows, emits, 0));
  }

  lemma JoinOnly<E>(selected: seq<Row<E>>)
    ensures Joins(if AllObjects(selected) then Some([Parsed(selected)]) else None, selected)
  {
    assert [Parsed(selected)][1..] == [];
  }

  /** A newest page in front of pages that join to the rest. */
  lemma JoinNewest<E>(selected: seq<Row<E>>, cut: nat, rest: Option<seq<seq<Entry<E>>>>)
    requires cut <= |selected| && Joins(rest, selected[..cut])
    ensures Joins(if AllObjects(selected[cut..]) then InFront(Parsed(selected[cut..]), rest) else None, selected)
  {
    assert selected == selected[..cut] + selected[cut..];
    AllObjectsSplits(selected[..cut], selected[cut..]);
    if rest.Some? {
      var pages := [Parsed(selected[cut..])] + rest.value;
      assert pages[1..] == rest.value;
      ParsedSplits(selected[..cut], selected[cut..]);
    }
  }

  lemma AllObjectsSplits<E>(a: seq<Row<E>>, b: seq<Row<E>>)
    ensures AllObjects(a + b) <==> AllObjects(a) && AllObjects(b)
  {
    if AllObjects(a + b) {
      forall i | 0 <= i < |a| ensures !a[i].parsed.NoObject? { assert (a + b)[i] == a[i]; }
      forall i | 0 <= i < |b| ensures !b[i].parsed.NoObject? { assert (a + b)[|a| + i] == b[i]; }
    }
  }

  /** The `k`-th selected row is a row of the log, below the cursor. */
  lemma IndexOf<E>(rows: seq<Row<E>>, channel: Channel, below: Option<int>, k: nat) returns (j: nat)
    requires Ascending(rows) && k < |Select(rows, channel, below)|
    ensures j < |rows| && rows[j] == Select(rows, channel, below)[k]
    ensures below.Some? ==> rows[j].id < below.value
  {
    var row := Select(rows, channel, below)[k];
    SelectKeepsMatches(rows, channel, below, row);
    j :| 0 <= j < |rows| && rows[j] == row;
  }

  /**
   Following the cursors visits each well-formed matching row present at the first request exactly
   once: the pages, oldest first, are the history in ascending order, whatever is appended
   meanwhile. The walk fails exactly when one of those rows holds a JSON value that is no object.
   */
  lemma WalkVisitsEachRowOnce<E>(rows: seq<Row<E>>, emits: nat -> seq<Row<E>>, channel: Channel, limit: nat)
    requires limit >= 1 && Grows(rows, emits)
    ensures
      var walk, selected := Walk(rows, emits, channel, limit), Select(rows, channel, None);
      && (walk.Some? <==> AllObjects(selected))
      && (walk.Some? ==> Joined(walk.value) == Parsed(selected))
  {
    hide Select, Parsed, Matches, Joined, Grows, LogAt, AllObjects;
    FirstLog(rows, emits);
    var selected := Select(rows, channel, None);
    if |selected| > limit {
      var cut := |selected| - limit;
      var j := IndexOf(rows, channel, None, cut);
      SelectBelow(rows, channel, None, cut);
      PagesBelowJoin(rows, emits, channel, limit, 1, j);
      JoinNewest(selected, cut, PagesBelow(rows, emits, channel, limit, 1, rows[j].id));
    } else {
      JoinOnly(selected);
    }
  }

  /** SQLite extracts a type from objects only, so the notifications channel never fails. */
  lemma NotificationsNeverFail<E>(rows: seq<Row<E>>, below: Option<int>, limit: int)
    requires forall row | row in rows :: row.parsed.NoObject? ==> row.extracted.None?
    ensures ResponseOf(rows, Notifications, below, limit).Answered?
  {
    hide Select;
    var selected := Select(rows, Notifications, below);
    forall i | 0 <= i < |selected| ensures !selected[i].parsed.NoObject? {
      assert selected[i] in selected;
      SelectKeepsMatches(rows, Notifications, below, selected[i]);
    }
  }

  predicate ReadsAs<E(==)>(row: Row<E>, entry: Entry<E>) {
    row.id == entry.id && row.parsed == Read(entry.event)
  }

  /** The history holds an entry exactly when some row reads as it. */
  lemma {:induction false} ParsedKeepsWellFormed<E>(rows: seq<Row<E>>, entry: Entry<E>)
    ensures entry in Parsed(rows) <==> exists i :: 0 <= i < |rows| && ReadsAs(rows[i], entry)
  {
    if rows != [] {
      var front, last := rows[..|rows| - 1], rows[|rows| - 1];
      ParsedKeepsWellFormed(front, entry);
      var before := Parsed(front);
      assert entry in Parsed(rows) <==> entry in before || ReadsAs(last, entry) by {
        if last.parsed.Read? {
          var all := before + [Entry(last.id, last.parsed.event)];
          assert all[|before|] == Entry(last.id, last.parsed.event);
          assert entry in all <==> entry in before || entry == all[|before|];
        }
      }
      if entry in before {
        var i :| 0 <= i < |front| && ReadsAs(front[i], entry);
        assert ReadsAs(rows[i], entry);
      } else if ReadsAs(last, entry) {
        assert ReadsAs(rows[|rows| - 1], entry);
      } else {
        forall i | 0 <= i < |rows| ensures !ReadsAs(rows[i], entry) {
          assert i < |front| ==> rows[i] == front[i];
        }
      }
    }
  }

  ghost predicate AscendingEntries<E>(entries: seq<Entry<E>>) {
    forall i, j | 0 <= i < j < |entries| :: entries[i].id < entries[j].id
  }

  lemma AscendingOneMore<E>(entries: seq<Entry<E>>, last: Entry<E>)
    requires AscendingEntries(entries) && forall i | 0 <= i < |entries| :: entries[i].id < last.id
    ensures AscendingEntries(entries + [last])
  {
  }

  /** Entries read from rows below `bound` have ids below it. */
  lemma ParsedStaysBelow<E>(rows: seq<Row<E>>, bound: nat)
    requires forall i | 0 <= i < |rows| :: rows[i].id < bound
    ensures forall i | 0 <= i < |Parsed(rows)| :: Parsed(rows)[i].id < bound
  {
    hide Parsed;
    var entries := Parsed(rows);
    forall i | 0 <= i < |entries| ensures entries[i].id < bound {
      ParsedKeepsWellFormed(rows, entries[i]);
      assert entries[i] in entries;
      var k :| 0 <= k < |rows| && ReadsAs(rows[k], entries[i]);
    }
  }

  /** That history has ascending ids. */
  lemma {:induction false} HistoryIsAscending<E>(rows: seq<Row<E>>)
    requires Ascending(rows)
    ensures AscendingEntries(Parsed(rows))
  {
    hide AscendingEntries;
    if rows == [] {
      assert AscendingEntries<E>([]) by { NoEntriesAscend<E>(); }
    } else {
      var front, last := rows[..|rows| - 1], rows[|rows| - 1];
      assert rows == front + [last];
      HistoryIsAscending(front);
      ParsedStaysBelow(front, last.id);
      ParsedOneMore(front, last);
      hide Parsed;
      if last.parsed.Read? { AscendingOneMore(Parsed(front), Entry(last.id, last.parsed.event)); }
    }
  }

  lemma NoEntriesAscend<E>()
    ensures AscendingEntries<E>([])
  {
  }

  // ---------------------------------------------------------------- what a page holds

  /** The row is on the channel asked for, below the cursor. */
  predicate OnChannel<E>(row: Row<E>, channel: Channel, below: Option<int>) {
    && (channel == Notifications ==> row.extracted == Some(Notification))
    && (below.Some? ==> row.id < below.value)
  }

  /** How many of the rows are. */
  function CountOn<E>(rows: seq<Row<E>>, channel: Channel, below: Option<int>): nat {
    if rows == [] then 0
    else CountOn(rows[..|rows| - 1], channel, below) + if OnChannel(rows[|rows| - 1], channel, below) then 1 else 0
  }

  /** Row `i` is one of the newest `limit` rows of the channel. */
  predicate Shown<E>(rows: seq<Row<E>>, i: nat, channel: Channel, below: Option<int>, limit: int)
    requires i < |rows|
  {
    OnChannel(rows[i], channel, below) && CountOn(rows[i + 1..], channel, below) < limit
  }

  /** The last of them. */
  predicate OldestShown<E>(rows: seq<Row<E>>, i: nat, channel: Channel, below: Option<int>, limit: int)
    requires i < |rows|
  {
    OnChannel(rows[i], channel, below) && CountOn(rows[i + 1..], channel, below) == limit - 1
  }

  lemma {:induction false} SelectSplits<E>(a: seq<Row<E>>, b: seq<Row<E>>, channel: Channel, below: Option<int>)
    ensures Select(a + b, channel, below) == Select(a, channel, below) + Select(b, channel, below)
    decreases |b|
  {
    hide Matches;
    if b == [] {
      assert a + b == a;
    } else {
      var front, last := b[..|b| - 1], b[|b| - 1];
      SelectSplits(a, front, channel, below);
      SelectOneMore(a + front, last, channel, below);
      assert a + b == (a + front) + [last];
    }
  }

  lemma {:induction false} SelectCounts<E>(rows: seq<Row<E>>, channel: Channel, below: Option<int>)
    ensures |Select(rows, channel, below)| == CountOn(rows, channel, below)
  {
    if rows != [] { SelectCounts(rows[..|rows| - 1], channel, below); }
  }

  /** A row's place among the selected ones. */
  lemma PlaceOf<E>(rows: seq<Row<E>>, i: nat, channel: Channel, below: Option<int>) returns (k: nat)
    requires i < |rows| && OnChannel(rows[i], channel, below)
    ensures var selected := Select(rows, channel, below);
      k < |selected| && selected[k] == rows[i] && |selected| - 1 - k == CountOn(rows[i + 1..], channel, below)
  {
    var front, back := rows[..i], rows[i + 1..];
    assert rows == (front + [rows[i]]) + back;
    SelectSplits(front + [rows[i]], back, channel, below);
    SelectOneMore(front, rows[i], channel, below);
    SelectCounts(back, channel, below);
    hide Select, CountOn;
    k := |Select(front, channel, below)|;
  }

  /** Every selected row is a row of the log with that place. */
  lemma {:induction false} RowAtPlace<E>(rows: seq<Row<E>>, k: nat, channel: Channel, below: Option<int>) returns (i: nat)
    requires k < |Select(rows, channel, below)|
    ensures i < |rows| && OnChannel(rows[i], channel, below) && rows[i] == Select(rows, channel, below)[k]
    ensures CountOn(rows[i + 1..], channel, below) == |Select(rows, channel, below)| - 1 - k
  {
    var front, last := rows[..|rows| - 1], rows[|rows| - 1];
    if k < |Select(front, channel, below)| {
      i := RowAtPlace(front, k, channel, below);
      assert rows[i + 1..] == front[i + 1..] + [last];
      CountOneMore(front[i + 1..], last, channel, below);
    } else {
      i := |front|;
      assert rows[i + 1..] == [];
    }
  }

  lemma CountOneMore<E>(rows: seq<Row<E>>, last: Row<E>, channel: Channel, below: Option<int>)
    ensures CountOn(rows + [last], channel, below) == CountOn(rows, channel, below) + if OnChannel(last, channel, below) then 1 else 0
  {
    assert (rows + [last])[..|rows|] == rows;
  }

  lemma PageRowsAreShown<E>(rows: seq<Row<E>>, channel: Channel, below: Option<int>, limit: int, row: Row<E>)
    ensures row in PageRows(rows, channel, below, limit) <==> exists i :: 0 <= i < |rows| && rows[i] == row && Shown(rows, i, channel, below, limit)
  {
    hide Select, CountOn, OnChannel;
    var selected, page := Select(rows, channel, below), PageRows(rows, channel, below, limit);
    if row in page {
      var p :| 0 <= p < |page| && page[p] == row;
      var i := RowAtPlace(rows, |selected| - |page| + p, channel, below);
      assert Shown(rows, i, channel, below, limit);
    }
    if i :| 0 <= i < |rows| && rows[i] == row && Shown(rows, i, channel, below, limit) {
      var k := PlaceOf(rows, i, channel, below);
      assert page[k - (|selected| - |page|)] == row;
    }
  }

  /**
   A page holds exactly the readable rows among the newest `limit` of its channel below its cursor, in
   ascending order. It has a cursor exactly when the channel holds more, and the cursor is the id of
   the oldest row the page stands for. It fails exactly when one of those rows is no object.
   */
  lemma PageIsTheNewestOfItsChannel<E>(rows: seq<Row<E>>, channel: Channel, below: Option<int>, limit: int)
    requires Ascending(rows)
    ensures
      var response := ResponseOf(rows, channel, below, limit);
      && (response.Raised? <==> exists i :: 0 <= i < |rows| && Shown(rows, i, channel, below, limit) && rows[i].parsed.NoObject?)
      && (response.Answered? ==>
            && AscendingEntries(response.page.events)
            && (forall entry :: entry in response.page.events <==>
                  exists i :: 0 <= i < |rows| && Shown(rows, i, channel, below, limit) && ReadsAs(rows[i], entry))
            && (response.page.next.Some? <==> 1 <= limit < CountOn(rows, channel, below))
            && (response.page.next.Some? ==>
                  exists i :: 0 <= i < |rows| && OldestShown(rows, i, channel, below, limit) && rows[i].id == response.page.next.value))
  {
    var response, page := ResponseOf(rows, channel, below, limit), PageRows(rows, channel, below, limit);
    PageRowsAscend(rows, channel, below, limit);
    HistoryIsAscending(page);
    SelectCounts(rows, channel, below);
    PageFails(rows, channel, below, limit);
    PageEntries(rows, channel, below, limit);
    PageCursor(rows, channel, below, limit);
    hide Select, CountOn, Shown, AllObjects, Ascending, PageRows, PageOf, AscendingEntries, OldestShown;
  }

  lemma PageRowsAscend<E>(rows: seq<Row<E>>, channel: Channel, below: Option<int>, limit: int)
    requires Ascending(rows)
    ensures Ascending(PageRows(rows, channel, below, limit))
    ensures PageOf(rows, channel, below, limit).events == Parsed(PageRows(rows, channel, below, limit))
  {
    SelectKeepsOrder(rows, channel, below);
    hide Select;
    NothingOnThePage<E>([]);
  }

  lemma PageFails<E>(rows: seq<Row<E>>, channel: Channel, below: Option<int>, limit: int)
    ensures !AllObjects(PageRows(rows, channel, below, limit)) <==>
      exists i :: 0 <= i < |rows| && Shown(rows, i, channel, below, limit) && rows[i].parsed.NoObject?
  {
    var page := PageRows(rows, channel, below, limit);
    hide PageRows, Shown;
    if !AllObjects(page) {
      var p :| 0 <= p < |page| && page[p].parsed.NoObject?;
      PageRowsAreShown(rows, channel, below, limit, page[p]);
    }
    if i :| 0 <= i < |rows| && Shown(rows, i, channel, below, limit) && rows[i].parsed.NoObject? {
      PageRowsAreShown(rows, channel, below, limit, rows[i]);
      var p :| 0 <= p < |page| && page[p] == rows[i];
    }
  }

  lemma PageEntries<E>(rows: seq<Row<E>>, channel: Channel, below: Option<int>, limit: int)
    ensures forall entry :: entry in Parsed(PageRows(rows, channel, below, limit)) <==>
      exists i :: 0 <= i < |rows| && Shown(rows, i, channel, below, limit) && ReadsAs(rows[i], entry)
  {
    var page := PageRows(rows, channel, below, limit);
    hide PageRows, Shown, Parsed, ReadsAs;
    forall entry ensures entry in Parsed(page) <==>
      exists i :: 0 <= i < |rows| && Shown(rows, i, channel, below, limit) && ReadsAs(rows[i], entry)
    {
      ParsedKeepsWellFormed(page, entry);
      if p :| 0 <= p < |page| && ReadsAs(page[p], entry) {
        PageRowsAreShown(rows, channel, below, limit, page[p]);
      }
      if i :| 0 <= i < |rows| && Shown(rows, i, channel, below, limit) && ReadsAs(rows[i], entry) {
        PageRowsAreShown(rows, channel, below, limit, rows[i]);
        var p :| 0 <= p < |page| && page[p] == rows[i];
      }
    }
  }

  lemma PageCursor<E>(rows: seq<Row<E>>, channel: Channel, below: Option<int>, limit: int)
    ensures
      var next := PageOf(rows, channel, below, limit).next;
      && (next.Some? <==> 1 <= limit < CountOn(rows, channel, below))
      && (next.Some? ==> exists i :: 0 <= i < |rows| && OldestShown(rows, i, channel, below, limit) && rows[i].id == next.value)
  {
    SelectCounts(rows, channel, below);
    hide Select, CountOn, OnChannel, Parsed;
    var selected := Select(rows, channel, below);
    if 1 <= limit < |selected| {
      var i := RowAtPlace(rows, |selected| - limit, channel, below);
      assert OldestShown(rows, i, channel, below, limit);
    }
  }
}
