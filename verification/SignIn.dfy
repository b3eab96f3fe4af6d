/**
 Signing in and out as a file transaction: write the credentials, update the config store, drop
 the tokens of inactive providers, and on any failure put every file back.

 Every file operation consults a fault schedule. A failing operation may already have taken
 effect, as an atomic write has when only the final directory sync fails.
 */
module SignIn {
  import opened Options

  datatype Path = Store | ClaudeToken | ChatGptToken | ClaudeJson

  const PATHS: seq<Path> := [Store, ClaudeToken, ChatGptToken, ClaudeJson]
  const SIGN_OUT_PATHS: seq<Path> := [Store, ClaudeToken, ChatGptToken]

  /** A file's text and permission bits. */
  datatype File = File(text: string, mode: nat)

  type Files = map<Path, File>

  /** `st_mode & 0o777`: the permission bits without setuid, setgid and sticky. */
  const PERMISSIONS: nat := 0x200

  /** `mkstemp` creates the file that an atomic write renames into place. */
  const PRIVATE_MODE: nat := 0x180

  datatype Fault = Fine | FailsBefore | FailsAfter

  type Schedule = nat -> Fault

  /** The files and the number of operations performed so far. */
  datatype Disk = Disk(files: Files, ops: nat)

  // ---------------------------------------------------------------- text mode

  /** Text-mode reading: every line end becomes a newline. */
  function UniversalNewlines(t: string): string {
    if t == [] then []
    else if t[0] == '\r' then
      ['\n'] + UniversalNewlines(if |t| > 1 && t[1] == '\n' then t[2..] else t[1..])
    else [t[0]] + UniversalNewlines(t[1..])
  }

  lemma {:induction false} NewlinesDropReturns(t: string)
    ensures '\r' !in UniversalNewlines(t)
    decreases |t|
  {
    if t != [] {
      NewlinesDropReturns(if t[0] == '\r' && |t| > 1 && t[1] == '\n' then t[2..] else t[1..]);
    }
  }

  lemma {:induction false} NewlinesKeepOnlyReturnFree(t: string)
    ensures UniversalNewlines(t) == t <==> '\r' !in t
    decreases |t|
  {
    NewlinesDropReturns(t);
    if t != [] && '\r' !in t {
      assert t == [t[0]] + t[1..];
      NewlinesKeepOnlyReturnFree(t[1..]);
    }
  }

  // ---------------------------------------------------------------- operations

  function Effect(d: Disk, fault: Schedule, done: Files): (Disk, bool) {
    match fault(d.ops)
    case Fine => (Disk(done, d.ops + 1), true)
    case FailsBefore => (Disk(d.files, d.ops + 1), false)
    case FailsAfter => (Disk(done, d.ops + 1), false)
  }

  function Read(d: Disk, fault: Schedule): (Disk, bool) {
    Effect(d, fault, d.files)
  }

  function Write(d: Disk, fault: Schedule, p: Path, text: string): (Disk, bool) {
    Effect(d, fault, d.files[p := File(text, PRIVATE_MODE)])
  }

  function Unlink(d: Disk, fault: Schedule, p: Path): (Disk, bool) {
    Effect(d, fault, d.files - {p})
  }

  function Chmod(d: Disk, fault: Schedule, p: Path, mode: nat): (Disk, bool) {
    Effect(d, fault, if p in d.files then d.files[p := d.files[p].(mode := mode)] else d.files)
  }

  /** What one path held, as read in text mode; nothing when it was missing. */
  type Snapshots = map<Path, File>

  /** What a snapshot keeps of a file. */
  function AsRead(file: File): File {
    File(UniversalNewlines(file.text), file.mode % PERMISSIONS)
  }

  predicate Restorable(file: File) {
    '\r' !in file.text && file.mode < PERMISSIONS
  }

  function SnapshotOf(files: Files, paths: seq<Path>): Snapshots {
    map p | p in paths && p in files :: AsRead(files[p])
  }

  /** Reading the snapshots: one read a path, stopping at the first failure. */
  function ReadAll(d: Disk, fault: Schedule, paths: seq<Path>): (Disk, bool)
    decreases |paths|
  {
    if paths == [] then (d, true)
    else
      var (d', ok) := Read(d, fault);
      if ok then ReadAll(d', fault, paths[1..]) else (d', false)
  }

  function WriteAll(d: Disk, fault: Schedule, writes: seq<(Path, string)>): (Disk, bool)
    decreases |writes|
  {
    if writes == [] then (d, true)
    else
      var (d', ok) := Write(d, fault, writes[0].0, writes[0].1);
      if ok then WriteAll(d', fault, writes[1..]) else (d', false)
  }

  function UnlinkAll(d: Disk, fault: Schedule, paths: seq<Path>): (Disk, bool)
    decreases |paths|
  {
    if paths == [] then (d, true)
    else
      var (d', ok) := Unlink(d, fault, paths[0]);
      if ok then UnlinkAll(d', fault, paths[1..]) else (d', false)
  }

  /** Rolling back one path; a failure is logged and the next path is tried. */
  function RestoreOne(d: Disk, fault: Schedule, p: Path, snapshots: Snapshots): Disk {
    if p !in snapshots then Unlink(d, fault, p).0
    else
      var (d', ok) := Write(d, fault, p, snapshots[p].text);
      if ok then Chmod(d', fault, p, snapshots[p].mode).0 else d'
  }

  function RestoreAll(d: Disk, fault: Schedule, paths: seq<Path>, snapshots: Snapshots): Disk
    decreases |paths|
  {
    if paths == [] then d
    else RestoreAll(RestoreOne(d, fault, paths[0], snapshots), fault, paths[1..], snapshots)
  }

  // ---------------------------------------------------------------- the config store

  datatype Kind = NoProvider | Claude | OpenAI | Keyed(name: string)

  /** How the JSON of the store is read and rewritten. */
  datatype Json = Json(kindOf: string -> Kind, withKind: (Option<string>, Kind) -> string)

  ghost predicate Lawful(json: Json) {
    && (forall t, k :: json.kindOf(json.withKind(t, k)) == k)
    && (forall t :: json.kindOf(UniversalNewlines(t)) == json.kindOf(t))
  }

  function StoredKind(files: Files, json: Json): Kind {
    if Store in files then json.kindOf(files[Store].text) else NoProvider
  }

  function StoreText(files: Files): Option<string> {
    if Store in files then Some(UniversalNewlines(files[Store].text)) else None
  }

  /** `update_config_store`: read, merge, write. */
  function UpdateStore(d: Disk, fault: Schedule, kind: Kind, json: Json): (Disk, bool) {
    var (d1, ok1) := Read(d, fault);
    if !ok1 then (d1, false) else Write(d1, fault, Store, json.withKind(StoreText(d1.files), kind))
  }

  // ---------------------------------------------------------------- the transactions

  datatype Request =
    | ToClaude(credentials: string)
    | ToOpenAI(credentials: string)
    | ToKeyed(name: string)
    | SignOut

  function KindOf(r: Request): Kind {
    match r
    case ToClaude(_) => Claude
    case ToOpenAI(_) => OpenAI
    case ToKeyed(name) => Keyed(name)
    case SignOut => NoProvider
  }

  const ONBOARDED := "{\"hasCompletedOnboarding\":true}"

  function CredentialWrites(r: Request): seq<(Path, string)> {
    match r
    case ToClaude(c) => [(ClaudeToken, c), (ClaudeJson, ONBOARDED)]
    case ToOpenAI(c) => [(ChatGptToken, c)]
    case _ => []
  }

  function InactiveTokens(kind: Kind): seq<Path> {
    (if kind == Claude then [] else [ClaudeToken]) + (if kind == OpenAI then [] else [ChatGptToken])
  }

  function Snapshotted(r: Request): seq<Path> {
    if r.SignOut? then SIGN_OUT_PATHS else PATHS
  }

  /** The body of the `try`: a sign-in writes, updates the store, then drops inactive tokens; a
      sign-out drops both tokens first. */
  function Attempt(d: Disk, fault: Schedule, r: Request, json: Json): (Disk, bool) {
    if r.SignOut? then
      var (d1, ok1) := UnlinkAll(d, fault, InactiveTokens(NoProvider));
      if !ok1 then (d1, false) else UpdateStore(d1, fault, NoProvider, json)
    else
      var (d1, ok1) := WriteAll(d, fault, CredentialWrites(r));
      if !ok1 then (d1, false)
      else
        var (d2, ok2) := UpdateStore(d1, fault, KindOf(r), json);
        if !ok2 then (d2, false) else UnlinkAll(d2, fault, InactiveTokens(KindOf(r)))
  }

  datatype Outcome = Done | Unread | RolledBack

  function Transaction(d: Disk, fault: Schedule, r: Request, json: Json): (Disk, Outcome) {
    var (d1, read) := ReadAll(d, fault, Snapshotted(r));
    if !read then (d1, Unread)
    else
      var snapshots := SnapshotOf(d.files, Snapshotted(r));
      var (d2, ok) := Attempt(d1, fault, r, json);
      if ok then (d2, Done) else (RestoreAll(d2, fault, Snapshotted(r), snapshots), RolledBack)
  }

  /** When the rollback starts, if it does. */
  function RollbackStart(d: Disk, fault: Schedule, r: Request, json: Json): nat {
    Attempt(ReadAll(d, fault, Snapshotted(r)).0, fault, r, json).0.ops
  }

  lemma InactiveUnfolded(d: Disk, fault: Schedule, kind: Kind)
    ensures
      var (d1, ok1) := if kind == Claude then (d, true) else Unlink(d, fault, ClaudeToken);
      UnlinkAll(d, fault, InactiveTokens(kind)) ==
        if ok1 && kind != OpenAI then Unlink(d1, fault, ChatGptToken) else (d1, ok1)
  {
    assert [ClaudeToken, ChatGptToken][1..] == [ChatGptToken] && [ChatGptToken][1..] == [] && [ClaudeToken][1..] == [];
    assert [] + [ChatGptToken] == [ChatGptToken] && [ClaudeToken] + [] == [ClaudeToken];
    assert [ClaudeToken] + [ChatGptToken] == [ClaudeToken, ChatGptToken];
  }

  // ---------------------------------------------------------------- the files as an object

  class ProviderFiles {
    const fault: Schedule
    const json: Json
    var files: Files
    var ops: nat

    constructor (files: Files, fault: Schedule, json: Json)
      ensures this.files == files && ops == 0 && this.fault == fault && this.json == json
    {
      this.files, this.fault, this.json, ops := files, fault, json, 0;
    }

    ghost function State(): Disk
      reads this
    {
      Disk(files, ops)
    }

    method WriteText(p: Path, text: string) returns (ok: bool)
      modifies this
      ensures (State(), ok) == Write(old(State()), fault, p, text)
    {
      if fault(ops) != FailsBefore {
        files := files[p := File(text, PRIVATE_MODE)];
      }
      ok := fault(ops).Fine?;
      ops := ops + 1;
    }

    method UnlinkFile(p: Path) returns (ok: bool)
      modifies this
      ensures (State(), ok) == Unlink(old(State()), fault, p)
    {
      if fault(ops) != FailsBefore {
        files := files - {p};
      }
      ok := fault(ops).Fine?;
      ops := ops + 1;
    }

    method SetMode(p: Path, mode: nat)
      modifies this
      ensures State() == Chmod(old(State()), fault, p, mode).0
    {
      if fault(ops) != FailsBefore && p in files {
        files := files[p := files[p].(mode := mode)];
      }
      ops := ops + 1;
    }

    method SnapshotFiles(paths: seq<Path>) returns (ok: bool, snapshots: Snapshots)
      modifies this`ops
      ensures (State(), ok) == ReadAll(old(State()), fault, paths)
      ensures ok ==> snapshots == SnapshotOf(files, paths)
    {
      snapshots := map[];
      for i := 0 to |paths|
        invariant ReadAll(old(State()), fault, paths) == ReadAll(State(), fault, paths[i..])
        invariant snapshots == SnapshotOf(files, paths[..i])
      {
        assert paths[i..][1..] == paths[i + 1..];
        ok := fault(ops).Fine?;
        ops := ops + 1;
        if !ok {
          return;
        }
        if paths[i] in files {
          snapshots := snapshots[paths[i] := File(UniversalNewlines(files[paths[i]].text), files[paths[i]].mode % PERMISSIONS)];
        }
        assert paths[..i + 1] == paths[..i] + [paths[i]];
      }
      ok := true;
      assert paths[..|paths|] == paths;
    }

    method RestoreFiles(paths: seq<Path>, snapshots: Snapshots)
      modifies this
      ensures State() == RestoreAll(old(State()), fault, paths, snapshots)
    {
      for i := 0 to |paths|
        invariant RestoreAll(old(State()), fault, paths, snapshots) == RestoreAll(State(), fault, paths[i..], snapshots)
      {
        assert paths[i..][1..] == paths[i + 1..];
        var p := paths[i];
        var ok;
        if p !in snapshots {
          ok := UnlinkFile(p);
        } else {
          ok := WriteText(p, snapshots[p].text);
          if ok {
            SetMode(p, snapshots[p].mode);
          }
        }
      }
    }

    method WriteCredentials(writes: seq<(Path, string)>) returns (ok: bool)
      modifies this
      ensures (State(), ok) == WriteAll(old(State()), fault, writes)
    {
      for i := 0 to |writes|
        invariant WriteAll(old(State()), fault, writes) == WriteAll(State(), fault, writes[i..])
      {
        assert writes[i..][1..] == writes[i + 1..];
        ok := WriteText(writes[i].0, writes[i].1);
        if !ok {
          return;
        }
      }
      ok := true;
    }

    method UpdateConfigStore(kind: Kind) returns (ok: bool)
      modifies this
      ensures (State(), ok) == UpdateStore(old(State()), fault, kind, json)
    {
      ok := fault(ops).Fine?;
      ops := ops + 1;
      if ok {
        var current := if Store in files then Some(UniversalNewlines(files[Store].text)) else None;
        ok := WriteText(Store, json.withKind(current, kind));
      }
    }

    method ClearInactiveCredentials(kind: Kind) returns (ok: bool)
      modifies this
      ensures (State(), ok) == UnlinkAll(old(State()), fault, InactiveTokens(kind))
    {
      InactiveUnfolded(State(), fault, kind);
      ok := true;
      if kind != Claude {
        ok := UnlinkFile(ClaudeToken);
      }
      if ok && kind != OpenAI {
        ok := UnlinkFile(ChatGptToken);
      }
    }

    /** `_apply_sign_in` and `clear_provider`. */
    method Apply(r: Request) returns (outcome: Outcome)
      modifies this
      ensures (State(), outcome) == Transaction(old(State()), fault, r, json)
    {
      var read, snapshots := SnapshotFiles(Snapshotted(r));
      if !read {
        return Unread;
      }
      var ok;
      if r.SignOut? {
        ok := ClearInactiveCredentials(NoProvider);
        if ok {
          ok := UpdateConfigStore(NoProvider);
        }
      } else {
        ok := WriteCredentials(CredentialWrites(r));
        if ok {
          ok := UpdateConfigStore(KindOf(r));
        }
        if ok {
          ok := ClearInactiveCredentials(KindOf(r));
        }
      }
      if ok {
        return Done;
      }
      RestoreFiles(Snapshotted(r), snapshots);
      outcome := RolledBack;
    }
  }

  // ---------------------------------------------------------------- all or nothing

  /** The files a request asks for. */
  function Requested(files: Files, r: Request, json: Json): Files {
    var written := match r
      case ToClaude(c) => files[ClaudeToken := File(c, PRIVATE_MODE)][ClaudeJson := File(ONBOARDED, PRIVATE_MODE)]
      case ToOpenAI(c) => files[ChatGptToken := File(c, PRIVATE_MODE)]
      case _ => files;
    var stored := written[Store := File(json.withKind(StoreText(files), KindOf(r)), PRIVATE_MODE)];
    stored - (if KindOf(r) == Claude then {} else {ClaudeToken}) - (if KindOf(r) == OpenAI then {} else {ChatGptToken})
  }

  /** What a clean rollback gives: the snapshotted files as text mode read them, the others untouched. */
  function PutBack(files: Files, r: Request): Files {
    map p | p in files :: if p in Snapshotted(r) then AsRead(files[p]) else files[p]
  }

  lemma {:induction false} ReadAllReads(d: Disk, fault: Schedule, paths: seq<Path>)
    ensures ReadAll(d, fault, paths).0.files == d.files
    decreases |paths|
  {
    if paths != [] { ReadAllReads(Read(d, fault).0, fault, paths[1..]); }
  }

  lemma WritesUnfolded(d: Disk, fault: Schedule, r: Request)
    requires WriteAll(d, fault, CredentialWrites(r)).1
    ensures WriteAll(d, fault, CredentialWrites(r)).0.files ==
      match r
      case ToClaude(c) => d.files[ClaudeToken := File(c, PRIVATE_MODE)][ClaudeJson := File(ONBOARDED, PRIVATE_MODE)]
      case ToOpenAI(c) => d.files[ChatGptToken := File(c, PRIVATE_MODE)]
      case _ => d.files
  {
    var ws := CredentialWrites(r);
    match r
    case ToClaude(c) =>
      var (d1, ok) := Write(d, fault, ClaudeToken, c);
      assert ws[1..] == [(ClaudeJson, ONBOARDED)];
      assert ws[1..][1..] == [];
      assert ok && WriteAll(d, fault, ws) == WriteAll(d1, fault, ws[1..]);
    case ToOpenAI(c) =>
      assert ws[1..] == [];
    case _ =>
  }

  /** An attempt that reports success did all it was asked to. */
  lemma SuccessIsComplete(d: Disk, fault: Schedule, r: Request, json: Json)
    requires Attempt(d, fault, r, json).1
    ensures Attempt(d, fault, r, json).0.files == Requested(d.files, r, json)
  {
    if r.SignOut? {
      InactiveUnfolded(d, fault, NoProvider);
    } else {
      WritesUnfolded(d, fault, r);
      var d1 := WriteAll(d, fault, CredentialWrites(r)).0;
      var d2 := UpdateStore(d1, fault, KindOf(r), json).0;
      assert StoreText(d1.files) == StoreText(d.files);
      InactiveUnfolded(d2, fault, KindOf(r));
    }
    hide WriteAll, UnlinkAll;
    assert Attempt(d, fault, r, json).0.files == Requested(d.files, r, json);
  }

  lemma {:induction false} WriteAllTouches(d: Disk, fault: Schedule, writes: seq<(Path, string)>, p: Path)
    requires forall i | 0 <= i < |writes| :: writes[i].0 != p
    ensures var files := WriteAll(d, fault, writes).0.files; p in files <==> p in d.files
    ensures var files := WriteAll(d, fault, writes).0.files; p in files ==> files[p] == d.files[p]
    decreases |writes|
  {
    if writes != [] { WriteAllTouches(Write(d, fault, writes[0].0, writes[0].1).0, fault, writes[1..], p); }
  }

  lemma {:induction false} UnlinkAllTouches(d: Disk, fault: Schedule, paths: seq<Path>, p: Path)
    requires p !in paths
    ensures var files := UnlinkAll(d, fault, paths).0.files; p in files <==> p in d.files
    ensures var files := UnlinkAll(d, fault, paths).0.files; p in files ==> files[p] == d.files[p]
    decreases |paths|
  {
    if paths != [] { UnlinkAllTouches(Unlink(d, fault, paths[0]).0, fault, paths[1..], p); }
  }

  /** Whatever an attempt changed is covered by the snapshots. */
  lemma AttemptStaysWithin(d: Disk, fault: Schedule, r: Request, json: Json, p: Path)
    requires p !in Snapshotted(r)
    ensures var files := Attempt(d, fault, r, json).0.files; p in files <==> p in d.files
    ensures var files := Attempt(d, fault, r, json).0.files; p in files ==> files[p] == d.files[p]
  {
    assert p == ClaudeJson && r.SignOut?;
    UnlinkAllTouches(d, fault, InactiveTokens(NoProvider), p);
  }

  ghost predicate CleanFrom(fault: Schedule, start: nat) {
    forall k | k >= start :: fault(k).Fine?
  }

  lemma {:induction false} RestoreAllRestores(d: Disk, fault: Schedule, paths: seq<Path>, snapshots: Snapshots, p: Path)
    requires CleanFrom(fault, d.ops)
    ensures var files := RestoreAll(d, fault, paths, snapshots).files;
      if p in paths then (p in files <==> p in snapshots) && (p in files ==> files[p] == snapshots[p])
      else (p in files <==> p in d.files) && (p in files ==> files[p] == d.files[p])
    decreases |paths|
  {
    if paths != [] {
      var d' := RestoreOne(d, fault, paths[0], snapshots);
      RestoreAllRestores(d', fault, paths[1..], snapshots, p);
      assert p in paths <==> p == paths[0] || p in paths[1..];
    }
  }

  lemma {:induction false} RestoringSplits(d: Disk, fault: Schedule, a: seq<Path>, b: seq<Path>, snapshots: Snapshots)
    ensures RestoreAll(d, fault, a + b, snapshots) == RestoreAll(RestoreAll(d, fault, a, snapshots), fault, b, snapshots)
    decreases |a|
  {
    if a == [] {
      assert a + b == b;
    } else {
      assert (a + b)[1..] == a[1..] + b;
      RestoringSplits(RestoreOne(d, fault, a[0], snapshots), fault, a[1..], b, snapshots);
    }
  }

  lemma {:induction false} RestoringTouches(d: Disk, fault: Schedule, paths: seq<Path>, snapshots: Snapshots, p: Path)
    requires p !in paths
    ensures SameAt(d.files, RestoreAll(d, fault, paths, snapshots).files, p)
    decreases |paths|
  {
    if paths != [] { RestoringTouches(RestoreOne(d, fault, paths[0], snapshots), fault, paths[1..], snapshots, p); }
  }

  /** Whatever fails for the paths before it, a path whose own two operations succeed is put back. */
  lemma EachPathIsRestoredOnItsOwn(
    d: Disk, fault: Schedule, before: seq<Path>, p: Path, after: seq<Path>, snapshots: Snapshots)
    requires p !in after
    requires var k := RestoreAll(d, fault, before, snapshots).ops; fault(k).Fine? && fault(k + 1).Fine?
    ensures var files := RestoreAll(d, fault, before + [p] + after, snapshots).files;
      (p in files <==> p in snapshots) && (p in files ==> files[p] == snapshots[p])
  {
    var reached := RestoreAll(d, fault, before, snapshots);
    RestoringSplits(d, fault, before + [p], after, snapshots);
    RestoringSplits(d, fault, before, [p], snapshots);
    assert [p][1..] == [];
    var restored := RestoreOne(reached, fault, p, snapshots);
    assert RestoreAll(reached, fault, [p], snapshots) == restored;
    RestoringTouches(restored, fault, after, snapshots, p);
  }

  /** A clean rollback puts every snapshotted file back, and an attempt touches no other. */
  lemma RollbackPutsBack(d: Disk, d1: Disk, fault: Schedule, r: Request, json: Json)
    requires d1.files == d.files
    requires CleanFrom(fault, Attempt(d1, fault, r, json).0.ops)
    ensures
      var d2 := Attempt(d1, fault, r, json).0;
      RestoreAll(d2, fault, Snapshotted(r), SnapshotOf(d.files, Snapshotted(r))).files == PutBack(d.files, r)
  {
    hide Attempt, RestoreAll, CleanFrom, Snapshotted;
    var paths := Snapshotted(r);
    var d2 := Attempt(d1, fault, r, json).0;
    var snapshots := SnapshotOf(d.files, paths);
    var back := RestoreAll(d2, fault, paths, snapshots).files;
    forall p ensures p in back <==> p in d.files
      ensures p in back ==> back[p] == PutBack(d.files, r)[p]
    {
      RestoreAllRestores(d2, fault, paths, snapshots, p);
      if p !in paths { AttemptStaysWithin(d1, fault, r, json, p); }
    }
    assert back == PutBack(d.files, r);
  }

  /**
   A transaction applies in full, or stops before the first change, or is rolled back; when no
   rollback operation fails the snapshotted files are back as text mode read them.
   */
  lemma AllOrNothing(d: Disk, fault: Schedule, r: Request, json: Json)
    ensures var (d', outcome) := Transaction(d, fault, r, json);
      && (outcome.Done? ==> d'.files == Requested(d.files, r, json))
      && (outcome.Unread? ==> d'.files == d.files)
      && (outcome.RolledBack? && CleanFrom(fault, RollbackStart(d, fault, r, json)) ==> d'.files == PutBack(d.files, r))
  {
    hide Attempt, RestoreAll, ReadAll, CleanFrom, Snapshotted, Requested, PutBack, SnapshotOf;
    ReadAllReads(d, fault, Snapshotted(r));
    var (d1, read) := ReadAll(d, fault, Snapshotted(r));
    var (d2, ok) := Attempt(d1, fault, r, json);
    if ok {
      SuccessIsComplete(d1, fault, r, json);
    } else if CleanFrom(fault, d2.ops) {
      RollbackPutsBack(d, d1, fault, r, json);
    }
  }

  // ---------------------------------------------------------------- what a request comes to

  /**
   A request that is done leaves the provider asked for, the credentials given under mode 0600, and
   no token of any other provider. The store is the old one with the provider replaced.
   */
  lemma DoneIsWhatWasAsked(d: Disk, fault: Schedule, r: Request, json: Json)
    requires Lawful(json) && Transaction(d, fault, r, json).1.Done?
    ensures
      var before, after := d.files, Transaction(d, fault, r, json).0.files;
      var stored := if Store in before then Some(UniversalNewlines(before[Store].text)) else None;
      && Store in after
      && match r
         case ToClaude(c) =>
           && after[Store] == File(json.withKind(stored, Claude), 0x180) && json.kindOf(after[Store].text) == Claude
           && ClaudeToken in after && after[ClaudeToken] == File(c, 0x180) && ChatGptToken !in after
           && ClaudeJson in after && after[ClaudeJson] == File("{\"hasCompletedOnboarding\":true}", 0x180)
         case ToOpenAI(c) =>
           && after[Store] == File(json.withKind(stored, OpenAI), 0x180) && json.kindOf(after[Store].text) == OpenAI
           && ChatGptToken in after && after[ChatGptToken] == File(c, 0x180) && ClaudeToken !in after
           && SameAt(before, after, ClaudeJson)
         case ToKeyed(name) =>
           && after[Store] == File(json.withKind(stored, Keyed(name)), 0x180) && json.kindOf(after[Store].text) == Keyed(name)
           && ClaudeToken !in after && ChatGptToken !in after && SameAt(before, after, ClaudeJson)
         case SignOut =>
           && after[Store] == File(json.withKind(stored, NoProvider), 0x180) && json.kindOf(after[Store].text) == NoProvider
           && ClaudeToken !in after && ChatGptToken !in after && SameAt(before, after, ClaudeJson)
  {
    AllOrNothing(d, fault, r, json);
    hide Transaction, CleanFrom;
  }

  predicate SameAt(before: Files, after: Files, p: Path) {
    (p in before <==> p in after) && (p in before ==> before[p] == after[p])
  }

  ghost predicate FineBetween(fault: Schedule, start: nat, end: nat) {
    forall k | start <= k < end :: fault(k).Fine?
  }

  lemma {:induction false} ReadsConsult(d: Disk, fault: Schedule, paths: seq<Path>)
    ensures var (after, ok) := ReadAll(d, fault, paths);
      && d.ops <= after.ops <= d.ops + |paths| && (ok ==> after.ops == d.ops + |paths|)
      && (ok <==> FineBetween(fault, d.ops, after.ops))
    decreases |paths|
  {
    if paths != [] {
      var (next, ok) := Read(d, fault);
      if ok { ReadsConsult(next, fault, paths[1..]); } else { assert !fault(d.ops).Fine?; }
    }
  }

  lemma {:induction false} WritesConsult(d: Disk, fault: Schedule, writes: seq<(Path, string)>)
    ensures var (after, ok) := WriteAll(d, fault, writes);
      d.ops <= after.ops && (ok <==> FineBetween(fault, d.ops, after.ops))
    decreases |writes|
  {
    if writes != [] {
      var (next, ok) := Write(d, fault, writes[0].0, writes[0].1);
      if ok { WritesConsult(next, fault, writes[1..]); } else { assert !fault(d.ops).Fine?; }
    }
  }

  lemma {:induction false} UnlinksConsult(d: Disk, fault: Schedule, paths: seq<Path>)
    ensures var (after, ok) := UnlinkAll(d, fault, paths);
      d.ops <= after.ops && (ok <==> FineBetween(fault, d.ops, after.ops))
    decreases |paths|
  {
    if paths != [] {
      var (next, ok) := Unlink(d, fault, paths[0]);
      if ok { UnlinksConsult(next, fault, paths[1..]); } else { assert !fault(d.ops).Fine?; }
    }
  }

  lemma UpdateConsults(d: Disk, fault: Schedule, kind: Kind, json: Json)
    ensures var (after, ok) := UpdateStore(d, fault, kind, json);
      d.ops <= after.ops && (ok <==> FineBetween(fault, d.ops, after.ops))
  {
  }

  lemma AttemptConsults(d: Disk, fault: Schedule, r: Request, json: Json)
    ensures var (after, ok) := Attempt(d, fault, r, json);
      d.ops <= after.ops && (ok <==> FineBetween(fault, d.ops, after.ops))
  {
    hide WriteAll, UnlinkAll, UpdateStore;
    if r.SignOut? {
      UnlinksConsult(d, fault, InactiveTokens(NoProvider));
      UpdateConsults(UnlinkAll(d, fault, InactiveTokens(NoProvider)).0, fault, NoProvider, json);
    } else {
      WritesConsult(d, fault, CredentialWrites(r));
      var d1 := WriteAll(d, fault, CredentialWrites(r)).0;
      UpdateConsults(d1, fault, KindOf(r), json);
      UnlinksConsult(UpdateStore(d1, fault, KindOf(r), json).0, fault, InactiveTokens(KindOf(r)));
    }
  }

  lemma {:induction false} RestoringConsults(d: Disk, fault: Schedule, paths: seq<Path>, snapshots: Snapshots)
    ensures d.ops <= RestoreAll(d, fault, paths, snapshots).ops
    decreases |paths|
  {
    if paths != [] { RestoringConsults(RestoreOne(d, fault, paths[0], snapshots), fault, paths[1..], snapshots); }
  }

  /** A request is done exactly when no operation it came to failed, and stops unread exactly when reading a file does. */
  lemma DoneExactlyWhenNothingFails(d: Disk, fault: Schedule, r: Request, json: Json)
    ensures var (after, outcome) := Transaction(d, fault, r, json);
      && (outcome.Done? <==> FineBetween(fault, d.ops, after.ops))
      && (outcome.Unread? <==> !FineBetween(fault, d.ops, d.ops + if r.SignOut? then 3 else 4))
  {
    hide ReadAll, Attempt, RestoreAll, SnapshotOf;
    var paths := Snapshotted(r);
    assert |paths| == if r.SignOut? then 3 else 4;
    ReadsConsult(d, fault, paths);
    var (d1, read) := ReadAll(d, fault, paths);
    AttemptConsults(d1, fault, r, json);
    var (d2, ok) := Attempt(d1, fault, r, json);
    RestoringConsults(d2, fault, paths, SnapshotOf(d.files, paths));
  }

  /** Text-mode reading: a text without returns is kept, and CRLF and a lone CR each become one newline. */
  lemma {:induction false} LineEndsBecomeNewlines(a: string, b: string)
    requires '\r' !in a
    ensures UniversalNewlines(a) == a
    ensures UniversalNewlines(a + "\r\n" + b) == a + "\n" + UniversalNewlines(b)
    ensures b == [] || b[0] != '\n' ==> UniversalNewlines(a + "\r" + b) == a + "\n" + UniversalNewlines(b)
  {
    NewlinesKeepOnlyReturnFree(a);
    if a == [] {
      assert a + "\r\n" + b == "\r\n" + b && ("\r\n" + b)[2..] == b;
      assert a + "\r" + b == "\r" + b && ("\r" + b)[1..] == b;
      assert a + "\n" == "\n";
    } else {
      var c, rest := a[0], a[1..];
      assert a == [c] + rest && c != '\r' && '\r' !in rest;
      LineEndsBecomeNewlines(rest, b);
      OtherCharacter(c, rest + "\r\n" + b);
      OtherCharacter(c, rest + "\r" + b);
      assert a + "\r\n" + b == [c] + (rest + "\r\n" + b) && a + "\r" + b == [c] + (rest + "\r" + b);
      assert a + "\n" + UniversalNewlines(b) == [c] + (rest + "\n" + UniversalNewlines(b));
    }
  }

  lemma OtherCharacter(c: char, rest: string)
    requires c != '\r'
    ensures UniversalNewlines([c] + rest) == [c] + UniversalNewlines(rest)
  {
    assert ([c] + rest)[1..] == rest;
  }

  lemma ReadsTheSame(file: File)
    ensures AsRead(file) == file <==> Restorable(file)
  {
    NewlinesKeepOnlyReturnFree(file.text);
  }

  /** A rollback leaves the files as they were exactly when none of the snapshotted ones held a
      carriage return or a setuid, setgid or sticky bit. */
  lemma PutBackIsExact(files: Files, r: Request)
    ensures PutBack(files, r) == files <==> forall p | p in files && p in Snapshotted(r) :: Restorable(files[p])
  {
    hide AsRead, Restorable, Snapshotted;
    forall p | p in files && p in Snapshotted(r)
      ensures PutBack(files, r)[p] == files[p] <==> Restorable(files[p])
    {
      ReadsTheSame(files[p]);
    }
    if forall p | p in files && p in Snapshotted(r) :: Restorable(files[p]) {
      assert PutBack(files, r) == files;
    }
  }

  /** So a failed transaction that rolls back cleanly changes nothing if and only if every snapshotted file is restorable. */
  lemma RollbackIsExactWhenRestorable(d: Disk, fault: Schedule, r: Request, json: Json)
    requires Transaction(d, fault, r, json).1.RolledBack? && CleanFrom(fault, RollbackStart(d, fault, r, json))
    ensures Transaction(d, fault, r, json).0.files == d.files <==>
      forall p | p in d.files && p in Snapshotted(r) :: Restorable(d.files[p])
  {
    hide Transaction, RollbackStart, PutBack, Snapshotted, Restorable;
    AllOrNothing(d, fault, r, json);
    PutBackIsExact(d.files, r);
  }

  /** A store write that fails, after four clean reads and one of the store. */
  const STORE_WRITE_FAILS: Schedule := (k: nat) => if k == 5 then FailsBefore else Fine

  /** Signing in with a key while a Claude token is there, with that failure. */
  lemma StoreWriteFails(token: File, json: Json)
    ensures
      var d, r := Disk(map[ClaudeToken := token], 0), ToKeyed("key");
      var (after, outcome) := Transaction(d, STORE_WRITE_FAILS, r, json);
      && outcome.RolledBack? && CleanFrom(STORE_WRITE_FAILS, RollbackStart(d, STORE_WRITE_FAILS, r, json))
      && (after.files == d.files <==> Restorable(token))
  {
    var d, fault, r := Disk(map[ClaudeToken := token], 0), STORE_WRITE_FAILS, ToKeyed("key");
    FourReads(d, fault);
    var read := Disk(d.files, 4);
    assert WriteAll(read, fault, CredentialWrites(r)) == (read, true);
    assert UpdateStore(read, fault, KindOf(r), json) == (Disk(d.files, 6), false);
    assert Attempt(read, fault, r, json) == (Disk(d.files, 6), false);
    assert ClaudeToken in Snapshotted(r) by { assert PATHS[1] == ClaudeToken; }
    hide RestoreAll, Snapshotted, Restorable;
    RollbackIsExactWhenRestorable(d, fault, r, json);
  }

  /** A failing store write: the Claude token comes back with another line end, or without its setgid bit. */
  lemma RollbackRewritesFiles(json: Json)
    ensures forall token | token in [File("\r\n", PRIVATE_MODE), File("{}", 0x400 + PRIVATE_MODE)] ::
      var d := Disk(map[ClaudeToken := token], 0);
      var (after, outcome) := Transaction(d, STORE_WRITE_FAILS, ToKeyed("key"), json);
      && outcome.RolledBack? && CleanFrom(STORE_WRITE_FAILS, RollbackStart(d, STORE_WRITE_FAILS, ToKeyed("key"), json))
      && after.files != d.files
  {
    var tokens := [File("\r\n", PRIVATE_MODE), File("{}", 0x400 + PRIVATE_MODE)];
    hide Transaction, RollbackStart, CleanFrom;
    forall token | token in tokens ensures !Restorable(token) {
      assert "\r\n"[0] == '\r';
    }
    forall token | token in tokens
      ensures
        var d := Disk(map[ClaudeToken := token], 0);
        var (after, outcome) := Transaction(d, STORE_WRITE_FAILS, ToKeyed("key"), json);
        && outcome.RolledBack? && CleanFrom(STORE_WRITE_FAILS, RollbackStart(d, STORE_WRITE_FAILS, ToKeyed("key"), json))
        && after.files != d.files
    {
      StoreWriteFails(token, json);
    }
  }

  lemma FourReads(d: Disk, fault: Schedule)
    requires d.ops == 0 && forall k | k < 4 :: fault(k).Fine?
    ensures ReadAll(d, fault, PATHS) == (Disk(d.files, 4), true)
  {
    ReadAllUnfolds(d, fault, PATHS);
    ReadAllUnfolds(Disk(d.files, 1), fault, PATHS[1..]);
    ReadAllUnfolds(Disk(d.files, 2), fault, PATHS[1..][1..]);
    ReadAllUnfolds(Disk(d.files, 3), fault, PATHS[1..][1..][1..]);
    assert PATHS[1..][1..][1..][1..] == [];
  }

  lemma ReadAllUnfolds(d: Disk, fault: Schedule, paths: seq<Path>)
    requires paths != [] && fault(d.ops).Fine?
    ensures ReadAll(d, fault, paths) == ReadAll(Disk(d.files, d.ops + 1), fault, paths[1..])
  {
  }

  // ---------------------------------------------------------------- sequences

  /** A token file exists only for the stored provider. */
  ghost predicate Consistent(files: Files, json: Json) {
    && (ClaudeToken in files ==> StoredKind(files, json) == Claude)
    && (ChatGptToken in files ==> StoredKind(files, json) == OpenAI)
  }

  datatype Run = Start(files: Files) | After(past: Run, request: Request, fault: Schedule)

  function FilesAfter(run: Run, json: Json): Files {
    match run
    case Start(files) => files
    case After(past, request, fault) => Transaction(Disk(FilesAfter(past, json), 0), fault, request, json).0.files
  }

  ghost predicate RollbacksSucceed(run: Run, json: Json) {
    match run
    case Start(_) => true
    case After(past, request, fault) =>
      && RollbacksSucceed(past, json)
      && CleanFrom(fault, RollbackStart(Disk(FilesAfter(past, json), 0), fault, request, json))
  }

  lemma RequestedIsConsistent(files: Files, r: Request, json: Json)
    requires Lawful(json)
    ensures Consistent(Requested(files, r, json), json)
  {
    assert StoredKind(Requested(files, r, json), json) == KindOf(r);
  }

  lemma PutBackKeepsConsistency(files: Files, r: Request, json: Json)
    requires Lawful(json) && Consistent(files, json)
    ensures Consistent(PutBack(files, r), json)
  {
    assert Store in Snapshotted(r) by { assert PATHS[0] == SIGN_OUT_PATHS[0] == Store; }
    assert StoredKind(PutBack(files, r), json) == StoredKind(files, json);
  }

  ghost predicate StartsConsistent(run: Run, json: Json) {
    match run
    case Start(files) => Consistent(files, json)
    case After(past, _, _) => StartsConsistent(past, json)
  }

  /** Over every sequence of sign-ins and sign-outs whose rollbacks succeed, no inactive token is left behind. */
  lemma {:induction false} TokensFollowTheProvider(run: Run, json: Json)
    requires Lawful(json) && RollbacksSucceed(run, json) && StartsConsistent(run, json)
    ensures Consistent(FilesAfter(run, json), json)
  {
    match run
    case Start(_) =>
    case After(past, request, fault) =>
      TokensFollowTheProvider(past, json);
      var files := FilesAfter(past, json);
      AllOrNothing(Disk(files, 0), fault, request, json);
      RequestedIsConsistent(files, request, json);
      PutBackKeepsConsistency(files, request, json);
  }
}
