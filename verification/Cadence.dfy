/**
 The nightly snapshot pass. A snapshot counts as fresh when it is younger than the cadence less
 a two-hour slack; the theorem is that this slack absorbs a pass and a capture that each stay
 within an hour of the nightly instant, so the cadence never slips, on any night.
 */
module Cadence {
  import opened Options
  import opened Retention

  const DAY: nat := 86_400
  const HOUR: nat := 3_600
  const PRE_UPDATE_REUSE_SECS: nat := 24 * 3_600
  const SNAPSHOT_FRESHNESS_SLACK_SECS: nat := 2 * 3_600

  datatype PassKind = Routine | BeforeUpdate(fromVersion: string)

  function SaturatingSub(a: nat, b: nat): nat {
    if a < b then 0 else a - b
  }

  function StaleBefore(now: nat, everyNDays: nat): nat {
    SaturatingSub(now, everyNDays * DAY) + SNAPSHOT_FRESHNESS_SLACK_SECS
  }

  predicate Satisfies(kind: PassKind, b: Backup, now: nat, everyNDays: nat) {
    match kind
    case Routine => (b.kind.Periodic? || b.kind.PreUpdate?) && b.created >= StaleBefore(now, everyNDays)
    case BeforeUpdate(v) =>
      b.kind.PreUpdate? && b.fromVersion == Some(v) && b.created >= SaturatingSub(now, PRE_UPDATE_REUSE_SECS)
  }

  predicate NeedsSnapshot(kind: PassKind, bs: seq<Backup>, now: nat, everyNDays: nat) {
    forall b | b in bs :: !Satisfies(kind, b, now, everyNDays)
  }

  function Without(bs: seq<Backup>, ids: seq<string>): (rest: seq<Backup>)
    ensures forall b :: b in rest <==> b in bs && b.id !in ids
  {
    if bs == [] then []
    else if bs[0].id in ids then Without(bs[1..], ids)
    else [bs[0]] + Without(bs[1..], ids)
  }

  function WithoutPeriodic(bs: seq<Backup>): (rest: seq<Backup>)
    ensures forall b :: b in rest <==> b in bs && !b.kind.Periodic?
  {
    if bs == [] then []
    else if bs[0].kind.Periodic? then WithoutPeriodic(bs[1..])
    else [bs[0]] + WithoutPeriodic(bs[1..])
  }

  function Cleaned(bs: seq<Backup>, policy: Policy): seq<Backup> {
    DeletedWithin(bs, policy);
    Without(bs, Ids(bs, DeletedRefs(bs, policy)))
  }

  /** What taking a snapshot comes to. A failed capture still lets retention run. */
  datatype Capture = Captured(info: Backup) | Failed

  datatype Outcome = Took(info: Backup) | Skipped | Error

  /** The backups after a pass over one agent and what the pass reports. */
  function AfterPass(bs: seq<Backup>, kind: PassKind, now: nat, everyNDays: nat, policy: Policy, capture: Capture): (seq<Backup>, Outcome) {
    if !NeedsSnapshot(kind, bs, now, everyNDays) then (Cleaned(bs, policy), Skipped)
    else
      match capture
      case Failed => (Cleaned(bs, policy), Error)
      case Captured(info) =>
        var kept := if info.kind.PreUpdate? then WithoutPeriodic(bs) else bs;
        (Cleaned([info] + kept, policy), Took(info))
  }

  /** What may keep a pass from its work. Both `forget` calls succeed or fail as a whole. */
  datatype Circumstances = Circumstances(
    enabled: bool, oldEnough: bool, listed: bool, locked: bool, supersedes: bool, forgets: bool)

  const SMOOTH := Circumstances(true, true, true, true, true, true)

  function CleanedIn(bs: seq<Backup>, policy: Policy, at: Circumstances): seq<Backup> {
    if at.forgets then Cleaned(bs, policy) else bs
  }

  function AfterPassIn(
    bs: seq<Backup>, kind: PassKind, now: nat, everyNDays: nat, policy: Policy, capture: Capture, at: Circumstances)
    : (seq<Backup>, Outcome)
  {
    if !at.enabled || !at.oldEnough then (bs, Skipped)
    else if !at.listed then (bs, Error)
    else if !NeedsSnapshot(kind, bs, now, everyNDays) then (CleanedIn(bs, policy, at), Skipped)
    else if !at.locked then (bs, Error)
    else
      match capture
      case Failed => (CleanedIn(bs, policy, at), Error)
      case Captured(info) =>
        var kept := if info.kind.PreUpdate? && at.supersedes then WithoutPeriodic(bs) else bs;
        (CleanedIn([info] + kept, policy, at), Took(info))
  }

  class AgentBackups {
    var backups: seq<Backup>

    constructor (backups: seq<Backup>)
      ensures this.backups == backups
    {
      this.backups := backups;
    }

    /** Deleting by id, as the repository's `forget` does. */
    method Forget(ids: seq<string>, works: bool)
      modifies this
      ensures backups == if works then Without(old(backups), ids) else old(backups)
    {
      if works {
        backups := Without(backups, ids);
      }
    }

    method CleanupBackups(policy: Policy, at: Circumstances)
      modifies this
      ensures backups == CleanedIn(old(backups), policy, at)
    {
      var toDelete := ComputeBackupsToDelete(backups, policy);
      if toDelete == [] {
        KeepsAll(backups);
        return;
      }
      Forget(toDelete, at.forgets);
    }

    /** `snapshot_agent`: retention runs whether or not a snapshot was due or could be taken. */
    method SnapshotAgent(
      kind: PassKind, now: nat, everyNDays: nat, policy: Policy, capture: Capture, at: Circumstances)
      returns (outcome: Outcome)
      modifies this
      ensures (backups, outcome) == AfterPassIn(old(backups), kind, now, everyNDays, policy, capture, at)
      ensures at == SMOOTH ==> (backups, outcome) == AfterPass(old(backups), kind, now, everyNDays, policy, capture)
    {
      hide Cleaned, NeedsSnapshot;
      if !at.enabled || !at.oldEnough {
        return Skipped;
      }
      if !at.listed {
        return Error;
      }
      if NeedsSnapshot(kind, backups, now, everyNDays) {
        if !at.locked {
          return Error;
        }
        match capture {
          case Captured(info) =>
            if info.kind.PreUpdate? && at.supersedes {
              backups := WithoutPeriodic(backups);
            }
            backups := [info] + backups;
            outcome := Took(info);
          case Failed =>
            outcome := Error;
        }
      } else {
        outcome := Skipped;
      }
      CleanupBackups(policy, at);
    }
  }

  lemma {:induction false} KeepsAll(bs: seq<Backup>)
    ensures Without(bs, []) == bs
  {
    if bs != [] {
      KeepsAll(bs[1..]);
      assert bs == [bs[0]] + bs[1..];
    }
  }

  // ---------------------------------------------------------------- one cadence step

  predicate WithinTheHour(t: nat, instant: nat) {
    instant < t + HOUR && t < instant + HOUR
  }

  /** A capture `d` nights old is stale exactly from the `n`-th night on. */
  lemma StaleFromNthNight(base: nat, j: nat, d: nat, n: nat, now: nat, captured: nat)
    requires 1 <= d <= n && base >= 3 * HOUR
    requires WithinTheHour(now, base + (j + d) * DAY) && WithinTheHour(captured, base + j * DAY)
    ensures captured < StaleBefore(now, n) <==> d == n
  {
    assert (j + d) * DAY == j * DAY + d * DAY;
  }

  // ---------------------------------------------------------------- forever

  /** One agent's nights: when each pass runs and what it would capture. */
  datatype Nights = Nights(
    base: nat,
    n: nat,
    policy: Policy,
    initial: seq<Backup>,
    now: nat -> nat,
    info: nat -> Backup)

  /** The backups before night `k`. */
  function Before(w: Nights, k: nat): seq<Backup> {
    if k == 0 then w.initial
    else AfterPass(Before(w, k - 1), Routine, w.now(k - 1), w.n, w.policy, Captured(w.info(k - 1))).0
  }

  predicate Takes(w: Nights, k: nat) {
    NeedsSnapshot(Routine, Before(w, k), w.now(k), w.n)
  }

  ghost predicate Regular(w: Nights) {
    && w.n >= 1 && w.base >= 3 * HOUR && w.policy.periodic >= 1
    && (forall k: nat :: WithinTheHour(w.now(k), w.base + k * DAY))
    && (forall k: nat :: w.info(k).kind.Periodic? && WithinTheHour(w.info(k).created, w.base + k * DAY))
    && (forall k: nat, l: nat | k < l :: w.info(k).id != w.info(l).id)
    && DistinctIds(w.initial)
    && (forall b, k: nat | b in w.initial :: b.id != w.info(k).id)
    && (forall b | b in w.initial :: b.created <= w.info(0).created)
  }

  /** The first pass finds nothing fresh. */
  ghost predicate StartsDue(w: Nights) {
    Regular(w) && Takes(w, 0)
  }

  /** The night of the last snapshot before night `k`. */
  function LastTaken(w: Nights, k: nat): (j: nat)
    requires w.n >= 1 && k >= 1
    ensures j < k <= j + w.n
  {
    k - 1 - (k - 1) % w.n
  }

  /** Before any night but the first: the last snapshot is there, nothing is newer, nothing is due to go. */
  ghost predicate Settled(w: Nights, k: nat)
    requires w.n >= 1 && k >= 1
  {
    var bs, j := Before(w, k), LastTaken(w, k);
    && DistinctIds(bs)
    && DeletedRefs(bs, w.policy) == []
    && w.info(j) in bs
    && (forall b | b in bs :: b.created <= w.info(j).created)
    && (forall b, l: nat | b in bs && l > j :: b.id != w.info(l).id)
  }

  lemma {:induction false} WithoutKeepsDistinct(bs: seq<Backup>, ids: seq<string>)
    requires DistinctIds(bs)
    ensures DistinctIds(Without(bs, ids))
  {
    if bs != [] {
      WithoutKeepsDistinct(bs[1..], ids);
      var rest := Without(bs[1..], ids);
      forall k | 0 <= k < |rest| ensures rest[k].id != bs[0].id {
        assert rest[k] in bs[1..];
      }
    }
  }

  /** A cleanup leaves survivors, so a second one would delete nothing. */
  lemma CleanedSurvives(bs: seq<Backup>, policy: Policy)
    requires DistinctIds(bs)
    ensures DistinctIds(Cleaned(bs, policy)) && DeletedRefs(Cleaned(bs, policy), policy) == []
    ensures forall b :: b in Cleaned(bs, policy) <==> Survivor(bs, policy, b)
  {
    ListsEachDeletedIdOnce(bs, policy);
    var ids := Ids(bs, DeletedRefs(bs, policy));
    WithoutKeepsDistinct(bs, ids);
    hide ShouldDelete, DeletedRefs, Ids;
    forall b ensures b in Cleaned(bs, policy) <==> Survivor(bs, policy, b) {
      if b in Cleaned(bs, policy) {
        var i :| 0 <= i < |bs| && bs[i] == b;
      }
      if Survivor(bs, policy, b) {
        var i :| 0 <= i < |bs| && bs[i] == b && !ShouldDelete(bs, policy, i);
        assert bs[i].id !in ids;
      }
    }
    RerunDeletesNothing(bs, policy, Cleaned(bs, policy));
  }

  /** The newest of the rolling family is kept by every policy that keeps any. */
  lemma NewestIsKept(info: Backup, bs: seq<Backup>, policy: Policy)
    requires policy.periodic >= 1 && info.kind.Periodic?
    requires forall b | b in bs :: b.created <= info.created
    ensures Survivor([info] + bs, policy, info)
  {
    var all := [info] + bs;
    forall j | j in Family(all) ensures !Newer(all, j, 0) {
      if j > 0 { assert all[j] in bs; }
    }
    assert (set j | j in Family(all) && Newer(all, j, 0)) == {};
    assert FamilyRank(all, 0) == 0;
    assert all[0] == info && !ShouldDelete(all, policy, 0);
  }

  /** A new capture at the head survives the cleanup, which leaves nothing more to delete. */
  lemma PrependAndClean(info: Backup, bs: seq<Backup>, policy: Policy)
    requires policy.periodic >= 1 && info.kind.Periodic?
    requires DistinctIds(bs) && forall b | b in bs :: b.created <= info.created && b.id != info.id
    ensures var after := Cleaned([info] + bs, policy);
      && DistinctIds(after) && DeletedRefs(after, policy) == [] && info in after
      && forall b | b in after :: b == info || b in bs
  {
    var all := [info] + bs;
    forall i, j | 0 <= i < j < |all| ensures all[i].id != all[j].id {
      if i == 0 { assert all[j] in bs; }
    }
    CleanedSurvives(all, policy);
    NewestIsKept(info, bs, policy);
    hide Cleaned, DeletedRefs, ShouldDelete;
    forall b | b in Cleaned(all, policy) ensures b == info || b in bs {
      assert Survivor(all, policy, b);
    }
  }

  lemma TakenNight(w: Nights, k: nat)
    requires Takes(w, k) && w.info(k).kind.Periodic?
    ensures Before(w, k + 1) == Cleaned([w.info(k)] + Before(w, k), w.policy)
  {
    hide Cleaned, NeedsSnapshot;
    assert w.now(k + 1 - 1) == w.now(k) && w.info(k + 1 - 1) == w.info(k);
  }

  lemma SkippedNight(w: Nights, k: nat)
    requires !Takes(w, k)
    ensures Before(w, k + 1) == Cleaned(Before(w, k), w.policy)
  {
    hide Cleaned, NeedsSnapshot;
  }

  lemma NothingToClean(bs: seq<Backup>, policy: Policy)
    requires DeletedRefs(bs, policy) == []
    ensures Cleaned(bs, policy) == bs
  {
    hide DeletedRefs;
    KeepsAll(bs);
    DeletedWithin(bs, policy);
    assert Ids(bs, DeletedRefs(bs, policy)) == [];
  }

  lemma SnapshotTaken(w: Nights, k: nat)
    requires Regular(w) && Takes(w, k)
    requires DistinctIds(Before(w, k))
    requires forall b | b in Before(w, k) :: b.created <= w.info(k).created
    requires forall b, l: nat | b in Before(w, k) && l >= k :: b.id != w.info(l).id
    requires LastTaken(w, k + 1) == k
    ensures Settled(w, k + 1)
  {
    hide Cleaned, DeletedRefs, Before, Takes, LastTaken, DistinctIds;
    PrependAndClean(w.info(k), Before(w, k), w.policy);
    TakenNight(w, k);
    var after := Before(w, k + 1);
    forall b | b in after ensures b.created <= w.info(k).created {}
    forall b, l: nat | b in after && l > k ensures b.id != w.info(l).id {}
  }

  lemma NightSkipped(w: Nights, k: nat)
    requires Regular(w) && k >= 1 && !Takes(w, k) && Settled(w, k)
    requires LastTaken(w, k + 1) == LastTaken(w, k)
    ensures Settled(w, k + 1)
  {
    hide Cleaned, DeletedRefs, Before, Takes, LastTaken, DistinctIds, Regular;
    SkippedNight(w, k);
    NothingToClean(Before(w, k), w.policy);
  }

  lemma NextTaken(w: Nights, k: nat)
    requires w.n >= 1 && k >= 1
    ensures k % w.n == 0 ==> LastTaken(w, k) + w.n == k && LastTaken(w, k + 1) == k
    ensures k % w.n != 0 ==> LastTaken(w, k) + w.n > k && LastTaken(w, k + 1) == LastTaken(w, k)
  {
    var r := (k - 1) % w.n;
    var q := (k - 1) / w.n;
    assert k - 1 == q * w.n + r;
    if r + 1 < w.n {
      DivModUnique(k, w.n, q, r + 1);
    } else {
      assert k == (q + 1) * w.n;
      DivModUnique(k, w.n, q + 1, 0);
    }
  }

  lemma {:induction false} AtLeastOneMore(a: nat, b: nat, n: nat)
    requires a < b
    ensures b * n >= a * n + n
  {
    if a + 1 < b { AtLeastOneMore(a, b - 1, n); }
    assert b * n == (b - 1) * n + n;
  }

  lemma DivModUnique(k: nat, n: nat, q: nat, r: nat)
    requires n >= 1 && r < n && k == q * n + r
    ensures k % n == r
  {
    var q', r' := k / n, k % n;
    assert k == q' * n + r';
    if q < q' { AtLeastOneMore(q, q', n); }
    if q' < q { AtLeastOneMore(q', q, n); }
  }

  /** A snapshot taken at night `j` is due again exactly `n` nights later. */
  lemma CaptureDue(w: Nights, j: nat, k: nat)
    requires Regular(w) && j < k <= j + w.n
    ensures w.info(j).created < StaleBefore(w.now(k), w.n) <==> k == j + w.n
  {
    hide StaleBefore, NeedsSnapshot, DistinctIds;
    assert w.base + (j + (k - j)) * DAY == w.base + k * DAY;
    StaleFromNthNight(w.base, j, k - j, w.n, w.now(k), w.info(j).created);
  }

  /** The newest capture decides whether a pass is due. */
  lemma NewestDecides(bs: seq<Backup>, newest: Backup, now: nat, n: nat)
    requires newest in bs && newest.kind.Periodic? && forall b | b in bs :: b.created <= newest.created
    ensures NeedsSnapshot(Routine, bs, now, n) <==> newest.created < StaleBefore(now, n)
  {
    hide StaleBefore;
    if newest.created >= StaleBefore(now, n) { assert Satisfies(Routine, newest, now, n); }
  }

  lemma DueExactly(w: Nights, k: nat)
    requires Regular(w) && k >= 1 && Settled(w, k)
    ensures Takes(w, k) <==> k % w.n == 0
  {
    hide LastTaken, DeletedRefs, Before, StaleBefore, NeedsSnapshot, DistinctIds;
    var j := LastTaken(w, k);
    NextTaken(w, k);
    CaptureDue(w, j, k);
    NewestDecides(Before(w, k), w.info(j), w.now(k), w.n);
  }

  lemma CapturesAdvance(w: Nights, j: nat, k: nat)
    requires Regular(w) && j < k
    ensures w.info(j).created <= w.info(k).created
  {
    assert k * DAY >= j * DAY + DAY;
  }

  lemma FirstNight(w: Nights)
    requires StartsDue(w)
    ensures Settled(w, 1)
  {
    assert LastTaken(w, 1) == 0 by { DivModUnique(0, w.n, 0, 0); }
    hide Takes, LastTaken, Settled, DistinctIds;
    SnapshotTaken(w, 0);
  }

  lemma NextNight(w: Nights, k: nat)
    requires Regular(w) && k >= 1 && Settled(w, k)
    ensures Settled(w, k + 1)
  {
    hide Before, DeletedRefs, LastTaken, Takes, DistinctIds;
    DueExactly(w, k);
    NextTaken(w, k);
    var j := LastTaken(w, k);
    if Takes(w, k) {
      CapturesAdvance(w, j, k);
      SnapshotTaken(w, k);
    } else {
      NightSkipped(w, k);
    }
  }

  lemma {:induction false} AlwaysSettled(w: Nights, k: nat)
    requires StartsDue(w) && k >= 1
    ensures Settled(w, k)
  {
    hide Settled, Takes;
    if k == 1 {
      FirstNight(w);
    } else {
      AlwaysSettled(w, k - 1);
      NextNight(w, k - 1);
    }
  }

  lemma FromADueStart(w: Nights, k: nat)
    requires StartsDue(w)
    ensures Takes(w, k) <==> k % w.n == 0
  {
    hide Settled, Takes;
    if k >= 1 {
      AlwaysSettled(w, k);
      DueExactly(w, k);
    } else {
      DivModUnique(0, w.n, 0, 0);
    }
  }

  // ---------------------------------------------------------------- any start

  /** The store until the first snapshot: as it was found, then as the first retention leaves it. */
  function Found(w: Nights, k: nat): seq<Backup> {
    if k == 0 then w.initial else Cleaned(w.initial, w.policy)
  }

  ghost predicate NoneTakenBefore(w: Nights, f: nat) {
    forall k: nat | k < f :: !Takes(w, k)
  }

  lemma CleanedTwice(bs: seq<Backup>, policy: Policy)
    requires DistinctIds(bs)
    ensures Cleaned(Cleaned(bs, policy), policy) == Cleaned(bs, policy)
  {
    hide Cleaned, DeletedRefs, DistinctIds;
    CleanedSurvives(bs, policy);
    NothingToClean(Cleaned(bs, policy), policy);
  }

  lemma {:induction false} UntilTheFirst(w: Nights, f: nat)
    requires Regular(w) && NoneTakenBefore(w, f)
    ensures Before(w, f) == Found(w, f)
  {
    hide Takes, Cleaned, Regular, AfterPass, DistinctIds;
    if f > 0 {
      UntilTheFirst(w, f - 1);
      SkippedNight(w, f - 1);
      hide Before;
      RegularStore(w);
      CleanedTwice(w.initial, w.policy);
    }
  }

  lemma RegularStore(w: Nights)
    requires Regular(w)
    ensures DistinctIds(w.initial)
  {
  }

  lemma FoundIsInitial(w: Nights, k: nat, b: Backup)
    requires Regular(w) && b in Found(w, k)
    ensures b in w.initial
  {
    DeletedWithin(w.initial, w.policy);
    hide DeletedRefs, Ids;
  }

  /** Whatever the store holds at first, it is stale by the `n`-th night. */
  lemma StaleByTheNthNight(w: Nights)
    requires Regular(w)
    ensures NeedsSnapshot(Routine, Found(w, w.n), w.now(w.n), w.n)
  {
    hide Found, DistinctIds;
    forall b | b in Found(w, w.n) ensures b.created < StaleBefore(w.now(w.n), w.n) {
      FoundIsInitial(w, w.n, b);
      OldEnough(w.base, w.n, w.now(w.n), b.created);
    }
  }

  lemma OldEnough(base: nat, n: nat, now: nat, created: nat)
    requires base >= 3 * HOUR && WithinTheHour(now, base + n * DAY) && created < base + HOUR
    ensures created < StaleBefore(now, n)
  {
  }

  lemma {:induction false} FirstTaken(w: Nights, upto: nat) returns (f: nat)
    ensures f <= upto && NoneTakenBefore(w, f) && (f < upto ==> Takes(w, f))
  {
    hide Takes;
    f := 0;
    if upto > 0 {
      f := FirstTaken(w, upto - 1);
      if f == upto - 1 && !Takes(w, f) { f := upto; }
    }
  }

  /** The nights from night `f` on, as nights of their own. */
  function Later(w: Nights, f: nat): Nights {
    Nights(w.base + f * DAY, w.n, w.policy, Before(w, f), (k: nat) => w.now(k + f), (k: nat) => w.info(k + f))
  }

  lemma {:induction false} LaterIsTheSame(w: Nights, f: nat, k: nat)
    ensures Before(Later(w, f), k) == Before(w, k + f)
    ensures Takes(Later(w, f), k) <==> Takes(w, k + f)
  {
    hide AfterPass, NeedsSnapshot;
    if k > 0 { LaterIsTheSame(w, f, k - 1); }
  }

  lemma LaterIsRegular(w: Nights, f: nat)
    requires Regular(w) && NoneTakenBefore(w, f)
    ensures Regular(Later(w, f))
  {
    hide Later, WithinTheHour, DistinctIds, NoneTakenBefore;
    LaterStarts(w, f);
    LaterIsTimely(w, f);
    LaterIsNewer(w, f);
  }

  lemma LaterStarts(w: Nights, f: nat)
    requires Regular(w) && NoneTakenBefore(w, f)
    ensures var v := Later(w, f);
      v.n == w.n && v.policy == w.policy && v.base >= w.base && DistinctIds(v.initial)
  {
    hide Takes, Before, Cleaned, NoneTakenBefore, WithinTheHour, DistinctIds, Survivor;
    UntilTheFirst(w, f);
    RegularStore(w);
    CleanedSurvives(w.initial, w.policy);
  }

  lemma LaterIsTimely(w: Nights, f: nat)
    requires Regular(w)
    ensures var v := Later(w, f);
      && (forall k: nat :: WithinTheHour(v.now(k), v.base + k * DAY))
      && (forall k: nat :: v.info(k).kind.Periodic? && WithinTheHour(v.info(k).created, v.base + k * DAY))
      && (forall k: nat, l: nat | k < l :: v.info(k).id != v.info(l).id)
  {
    hide Before, DistinctIds, WithinTheHour;
    var v := Later(w, f);
    forall k: nat ensures WithinTheHour(v.now(k), v.base + k * DAY) && WithinTheHour(v.info(k).created, v.base + k * DAY) {
      assert w.base + (k + f) * DAY == v.base + k * DAY;
      assert WithinTheHour(w.now(k + f), w.base + (k + f) * DAY) && WithinTheHour(w.info(k + f).created, w.base + (k + f) * DAY);
    }
  }

  lemma LaterIsNewer(w: Nights, f: nat)
    requires Regular(w) && NoneTakenBefore(w, f)
    ensures var v := Later(w, f);
      forall b | b in v.initial :: b.created <= v.info(0).created && forall k: nat :: b.id != v.info(k).id
  {
    UntilTheFirst(w, f);
    hide Takes, Before, Cleaned, NoneTakenBefore, WithinTheHour, DistinctIds;
    var v := Later(w, f);
    forall b | b in v.initial ensures b.created <= v.info(0).created && forall k: nat :: b.id != v.info(k).id {
      FoundIsInitial(w, f, b);
      if f > 0 { CapturesAdvance(w, 0, f); }
    }
  }

  /**
   From any start there is a first night, no later than the `n`-th, on which the store as found is
   stale; from there the routine pass takes a snapshot on exactly every `n`-th night, forever.
   */
  lemma EveryNthNight(w: Nights) returns (f: nat)
    requires Regular(w)
    ensures f <= w.n
    ensures forall k: nat | k <= f :: NeedsSnapshot(Routine, Found(w, k), w.now(k), w.n) <==> k == f
    ensures forall k: nat :: Takes(w, k) <==> k >= f && (k - f) % w.n == 0
  {
    f := FirstTaken(w, w.n);
    hide NoneTakenBefore, Found, AfterPass, NeedsSnapshot, DistinctIds;
    DueAtTheFirst(w, f);
    forall k: nat ensures Takes(w, k) <==> k >= f && (k - f) % w.n == 0 {
      if k >= f { AfterTheFirst(w, f, k); } else { NotBeforeTheFirst(w, f, k); }
    }
    forall k: nat | k <= f ensures NeedsSnapshot(Routine, Found(w, k), w.now(k), w.n) <==> k == f {
      if k < f { NotBeforeTheFirst(w, f, k); }
      FoundUntilTheFirst(w, f, k);
    }
  }

  lemma DueAtTheFirst(w: Nights, f: nat)
    requires Regular(w) && NoneTakenBefore(w, f) && f <= w.n && (f < w.n ==> Takes(w, f))
    ensures Takes(w, f)
  {
    hide NoneTakenBefore, Found, AfterPass, NeedsSnapshot, DistinctIds;
    if f == w.n {
      UntilTheFirst(w, f);
      StaleByTheNthNight(w);
    }
  }

  lemma NotBeforeTheFirst(w: Nights, f: nat, k: nat)
    requires NoneTakenBefore(w, f) && k < f
    ensures !Takes(w, k)
  {
  }

  lemma FoundUntilTheFirst(w: Nights, f: nat, k: nat)
    requires Regular(w) && NoneTakenBefore(w, f) && k <= f
    ensures Before(w, k) == Found(w, k)
  {
    hide Takes, Regular;
    assert NoneTakenBefore(w, k);
    UntilTheFirst(w, k);
  }

  lemma AfterTheFirst(w: Nights, f: nat, k: nat)
    requires Regular(w) && NoneTakenBefore(w, f) && Takes(w, f) && k >= f
    ensures Takes(w, k) <==> (k - f) % w.n == 0
  {
    hide Regular, NoneTakenBefore, Takes, Before;
    LaterIsRegular(w, f);
    LaterIsTheSame(w, f, 0);
    LaterIsTheSame(w, f, k - f);
    LaterKeepsCadence(w, f);
    FromADueStart(Later(w, f), k - f);
  }

  lemma LaterKeepsCadence(w: Nights, f: nat)
    ensures Later(w, f).n == w.n
  {
  }

  /** The store found at first is fresh until its newest capture is `n` nights old. */
  lemma FoundGoesStale(w: Nights, newest: Backup, d: nat, k: nat)
    requires Regular(w) && d < w.n && w.base >= d * DAY + 3 * HOUR
    requires newest in w.initial && newest in Cleaned(w.initial, w.policy) && newest.kind.Periodic?
    requires WithinTheHour(newest.created, w.base - d * DAY) && forall b | b in w.initial :: b.created <= newest.created
    ensures NeedsSnapshot(Routine, Found(w, k), w.now(k), w.n) <==> k + d >= w.n
  {
    hide NeedsSnapshot, DistinctIds, Cleaned, StaleBefore;
    forall b | b in Found(w, k) ensures b.created <= newest.created { FoundIsInitial(w, k, b); }
    NewestDecides(Found(w, k), newest, w.now(k), w.n);
    FreshUntil(w.base, d, k, w.n, w.now(k), newest.created);
  }

  /** With a capture of `d` nights ago newest in the store, the first snapshot comes `n - d` nights on. */
  lemma FreshStartPhase(w: Nights, newest: Backup, d: nat) returns (f: nat)
    requires Regular(w) && 1 <= d < w.n && w.base >= d * DAY + 3 * HOUR
    requires newest in w.initial && newest in Cleaned(w.initial, w.policy) && newest.kind.Periodic?
    requires WithinTheHour(newest.created, w.base - d * DAY) && forall b | b in w.initial :: b.created <= newest.created
    ensures f == w.n - d
    ensures forall k: nat :: Takes(w, k) <==> k >= f && (k - f) % w.n == 0
  {
    hide Takes, NeedsSnapshot, Regular, Cleaned, Found, WithinTheHour;
    f := EveryNthNight(w);
    FoundGoesStale(w, newest, d, f);
    FoundGoesStale(w, newest, d, w.n - d);
  }

  lemma FreshUntil(base: nat, d: nat, k: nat, n: nat, now: nat, created: nat)
    requires d < n && base >= d * DAY + 3 * HOUR
    requires WithinTheHour(now, base + k * DAY) && WithinTheHour(created, base - d * DAY)
    ensures created < StaleBefore(now, n) <==> k + d >= n
  {
    assert (k + d) * DAY == k * DAY + d * DAY;
    if k + d >= n { NightsApart(n, k + d); } else { NightsApart(k + d + 1, n); }
  }

  lemma NightsApart(a: nat, b: nat)
    requires a <= b
    ensures a * DAY <= b * DAY
  {
  }

  // ---------------------------------------------------------------- a full hour on both sides

  /** Night 0 captures an hour late and the `n`-th pass runs an hour early; all else is punctual. */
  function Slipping(base: nat, n: nat, policy: Policy): Nights
    requires base >= HOUR && n >= 1
  {
    Nights(base, n, policy, [],
      (k: nat) => if k == n then base + k * DAY - HOUR else base + k * DAY,
      (k: nat) => Backup("", Periodic, if k == 0 then base + HOUR else base + k * DAY, None))
  }

  lemma SlippingStart(base: nat, n: nat, policy: Policy)
    requires base >= 3 * HOUR && n >= 1 && policy.periodic >= 1
    ensures var w := Slipping(base, n, policy);
      && Takes(w, 0) && w.info(0) in Before(w, 1) && DeletedRefs(Before(w, 1), policy) == []
  {
    var w := Slipping(base, n, policy);
    assert Takes(w, 0);
    hide Takes, Cleaned, DeletedRefs;
    TakenNight(w, 0);
    assert Before(w, 0) == [];
    PrependAndClean(w.info(0), [], policy);
  }

  /** While its first capture counts as fresh a store is left alone. */
  lemma {:induction false} LeftAlone(w: Nights, k: nat)
    requires k >= 1 && w.info(0) in Before(w, 1) && DeletedRefs(Before(w, 1), w.policy) == []
    requires forall j: nat | 1 <= j <= k :: Satisfies(Routine, w.info(0), w.now(j), w.n)
    ensures w.info(0) in Before(w, k) && DeletedRefs(Before(w, k), w.policy) == [] && !Takes(w, k)
  {
    hide Before, Cleaned, DeletedRefs, Satisfies, StaleBefore;
    if k > 1 {
      LeftAlone(w, k - 1);
      SkippedNight(w, k - 1);
      NothingToClean(Before(w, k - 1), w.policy);
    }
    assert Satisfies(Routine, w.info(0), w.now(k), w.n);
  }

  lemma SlippingIsFresh(base: nat, n: nat, policy: Policy, k: nat)
    requires base >= 3 * HOUR && 1 <= k <= n
    ensures var w := Slipping(base, n, policy); w.info(0).created >= StaleBefore(w.now(k), n)
  {
    if k < n { NightsApart(k + 1, n); }
  }

  /** With a full hour on both sides the `n`-th night's snapshot is skipped, whatever the cadence. */
  lemma AFullHourSlips(base: nat, n: nat, policy: Policy)
    requires base >= 3 * HOUR && n >= 1 && policy.periodic >= 1
    ensures var w := Slipping(base, n, policy);
      && Takes(w, 0) && !Takes(w, n)
      && (forall k: nat :: w.now(k) <= base + k * DAY <= w.now(k) + HOUR)
      && (forall k: nat :: base + k * DAY <= w.info(k).created <= base + k * DAY + HOUR)
  {
    hide Takes, Before, DeletedRefs;
    SlippingStart(base, n, policy);
    var w := Slipping(base, n, policy);
    forall j: nat | 1 <= j <= n ensures Satisfies(Routine, w.info(0), w.now(j), w.n) {
      SlippingIsFresh(base, n, policy, j);
    }
    LeftAlone(w, n);
  }

  // ---------------------------------------------------------------- when a pass takes a snapshot

  /** What one backup must be for a pass to reuse it: for a routine pass a periodic or pre-update one
      younger than `n` days less two hours, before an update one of that very version no older than a day. */
  ghost predicate Reusable(kind: PassKind, b: Backup, now: nat, n: nat) {
    match kind
    case Routine =>
      (b.kind == Periodic || b.kind == PreUpdate) && b.created + n * 86_400 >= now + 7_200 && b.created >= 7_200
    case BeforeUpdate(v) =>
      b.kind == PreUpdate && b.fromVersion == Some(v) && b.created + 86_400 >= now
  }

  /** A pass takes a snapshot exactly when nothing keeps it from working, its capture works and it can reuse nothing. */
  lemma PassTakesExactlyWhenNothingIsReusable(
    bs: seq<Backup>, kind: PassKind, now: nat, n: nat, policy: Policy, capture: Capture, at: Circumstances)
    ensures
      var works := at.enabled && at.oldEnough && at.listed;
      var due := forall b | b in bs :: !Reusable(kind, b, now, n);
      var outcome := AfterPassIn(bs, kind, now, n, policy, capture, at).1;
      && (outcome.Took? <==> works && due && at.locked && capture.Captured?)
      && (outcome.Took? ==> outcome.info == capture.info)
      && (outcome.Skipped? <==> !at.enabled || !at.oldEnough || (at.listed && !due))
  {
    hide Cleaned;
    forall b ensures Satisfies(kind, b, now, n) <==> Reusable(kind, b, now, n) {
    }
  }

  /** What the pass lists for retention: its own capture, and no periodic one when an update's supersedes them. */
  ghost predicate ListedAfter(bs: seq<Backup>, outcome: Outcome, supersedes: bool, listed: seq<Backup>) {
    if !outcome.Took? then listed == bs
    else
      && listed != [] && listed[0] == outcome.info
      && forall b :: b in listed[1..] <==> b in bs && !(outcome.info.kind == PreUpdate && supersedes && b.kind == Periodic)
  }

  /** Whether a pass comes to its retention. */
  ghost predicate Cleans(bs: seq<Backup>, kind: PassKind, now: nat, n: nat, at: Circumstances) {
    && at.enabled && at.oldEnough && at.listed && at.forgets
    && (at.locked || exists b :: b in bs && Reusable(kind, b, now, n))
  }

  /** Retention leaves the survivors of what is listed, whether a snapshot was taken, skipped or failed. */
  lemma PassLeavesTheSurvivors(
    bs: seq<Backup>, kind: PassKind, now: nat, n: nat, policy: Policy, capture: Capture, at: Circumstances)
    returns (listed: seq<Backup>)
    requires DistinctIds(bs) && (capture.Captured? ==> forall b | b in bs :: b.id != capture.info.id)
    ensures var (after, outcome) := AfterPassIn(bs, kind, now, n, policy, capture, at);
      && ListedAfter(bs, outcome, at.supersedes, listed)
      && forall b :: b in after <==> if Cleans(bs, kind, now, n, at) then Survivor(listed, policy, b) else b in listed
  {
    PassTakesExactlyWhenNothingIsReusable(bs, kind, now, n, policy, capture, at);
    hide Cleaned, NeedsSnapshot, Survivor, DistinctIds, Reusable, WithoutPeriodic;
    var outcome := AfterPassIn(bs, kind, now, n, policy, capture, at).1;
    listed := bs;
    if outcome.Took? {
      listed := ListingOf(bs, outcome.info, at.supersedes);
    }
    CleanedSurvives(listed, policy);
  }

  lemma ListingOf(bs: seq<Backup>, info: Backup, supersedes: bool) returns (listed: seq<Backup>)
    requires DistinctIds(bs) && forall b | b in bs :: b.id != info.id
    ensures listed == [info] + (if info.kind.PreUpdate? && supersedes then WithoutPeriodic(bs) else bs)
    ensures DistinctIds(listed) && ListedAfter(bs, Took(info), supersedes, listed)
  {
    hide DistinctIds, WithoutPeriodic;
    var kept := if info.kind.PreUpdate? && supersedes then WithoutPeriodic(bs) else bs;
    WithoutPeriodicKeepsDistinct(bs);
    InFrontIsDistinct(info, kept);
    listed := [info] + kept;
    assert listed[1..] == kept;
  }

  /** A new capture before an update is of the newest version, and kept by every policy that keeps any. */
  lemma NewestVersionIsKept(info: Backup, bs: seq<Backup>, policy: Policy)
    requires policy.preUpdateVersions >= 1 && info.kind.PreUpdate?
    requires forall b | b in bs :: b.created <= info.created
    ensures Survivor([info] + bs, policy, info)
  {
    var all := [info] + bs;
    forall v ensures !Outranks(all, v, Version(info)) {
      assert CapturedOf(all, 0, Version(info));
      forall k: nat | CapturedOf(all, k, v) ensures !Newer(all, k, 0) {
        if k > 0 { assert all[k] in bs; }
      }
    }
    assert (set v | v in Versions(all) && Outranks(all, v, Version(info))) == {};
    assert VersionRank(all, Version(info)) == 0;
    assert all[0] == info && !ShouldDelete(all, policy, 0);
  }

  /** Trying an update again within a day reuses the snapshot of the first try, and only for that version. */
  lemma RetriedUpdateReusesItsSnapshot(
    bs: seq<Backup>, v: string, w: string, now: nat, later: nat, n: nat, policy: Policy, info: Backup, second: Capture)
    requires DistinctIds(bs) && forall b | b in bs :: b.id != info.id && b.created <= info.created
    requires info.kind == PreUpdate && info.fromVersion == Some(v) && policy.preUpdateVersions >= 1
    requires forall b | b in bs :: b.fromVersion != Some(v) && b.fromVersion != Some(w)
    requires later <= info.created + 86_400
    ensures
      var (once, outcome) := AfterPassIn(bs, BeforeUpdate(v), now, n, policy, Captured(info), SMOOTH);
      && outcome == Took(info)
      && AfterPassIn(once, BeforeUpdate(v), later, n, policy, second, SMOOTH).1 == Skipped
      && (w != v && second.Captured? ==> AfterPassIn(once, BeforeUpdate(w), later, n, policy, second, SMOOTH).1.Took?)
  {
    var (once, outcome) := AfterPassIn(bs, BeforeUpdate(v), now, n, policy, Captured(info), SMOOTH);
    PassTakesExactlyWhenNothingIsReusable(bs, BeforeUpdate(v), now, n, policy, Captured(info), SMOOTH);
    PassTakesExactlyWhenNothingIsReusable(once, BeforeUpdate(v), later, n, policy, second, SMOOTH);
    PassTakesExactlyWhenNothingIsReusable(once, BeforeUpdate(w), later, n, policy, second, SMOOTH);
    hide Cleaned, NeedsSnapshot, Survivor, DistinctIds, WithoutPeriodic;
    var kept := WithoutPeriodic(bs);
    WithoutPeriodicKeepsDistinct(bs);
    InFrontIsDistinct(info, kept);
    CleanedSurvives([info] + kept, policy);
    NewestVersionIsKept(info, kept, policy);
    assert info in once && Reusable(BeforeUpdate(v), info, later, n);
    forall b | b in once ensures b == info || b in bs {
      SurvivorIsListed([info] + kept, policy, b);
    }
  }

  lemma SurvivorIsListed(bs: seq<Backup>, policy: Policy, b: Backup)
    requires Survivor(bs, policy, b)
    ensures b in bs
  {
  }

  lemma InFrontIsDistinct(info: Backup, bs: seq<Backup>)
    requires DistinctIds(bs) && forall b | b in bs :: b.id != info.id
    ensures DistinctIds([info] + bs)
  {
    var all := [info] + bs;
    forall i, j | 0 <= i < j < |all| ensures all[i].id != all[j].id {
      assert all[j] in bs;
    }
  }

  // ---------------------------------------------------------------- whatever goes wrong

  lemma ManualIsNeverDue(bs: seq<Backup>, policy: Policy, i: nat)
    requires i < |bs| && bs[i].kind.Manual?
    ensures !ShouldDelete(bs, policy, i)
  {
  }

  lemma CleaningKeepsManual(bs: seq<Backup>, policy: Policy, b: Backup)
    requires DistinctIds(bs) && b in bs && b.kind.Manual?
    ensures b in Cleaned(bs, policy)
  {
    hide Cleaned, DeletedRefs, ShouldDelete, DistinctIds;
    CleanedSurvives(bs, policy);
    var i :| 0 <= i < |bs| && bs[i] == b;
    ManualIsNeverDue(bs, policy, i);
    assert Survivor(bs, policy, b);
  }

  /** Whatever is switched off, locked or fails, no pass loses a manual backup. */
  lemma NoPassLosesAManualBackup(
    bs: seq<Backup>, kind: PassKind, now: nat, everyNDays: nat, policy: Policy, capture: Capture, at: Circumstances, b: Backup)
    requires DistinctIds(bs) && b in bs && b.kind.Manual?
    requires capture.Captured? ==> forall c | c in bs :: c.id != capture.info.id
    ensures b in AfterPassIn(bs, kind, now, everyNDays, policy, capture, at).0
  {
    hide Cleaned, NeedsSnapshot;
    CleaningKeepsManual(bs, policy, b);
    if capture.Captured? {
      var info := capture.info;
      var kept := if info.kind.PreUpdate? && at.supersedes then WithoutPeriodic(bs) else bs;
      WithoutPeriodicKeepsDistinct(bs);
      InFrontIsDistinct(info, kept);
      CleaningKeepsManual([info] + kept, policy, b);
    }
  }

  lemma {:induction false} WithoutPeriodicKeepsDistinct(bs: seq<Backup>)
    requires DistinctIds(bs)
    ensures DistinctIds(WithoutPeriodic(bs))
  {
    if bs != [] {
      WithoutPeriodicKeepsDistinct(bs[1..]);
      var rest := WithoutPeriodic(bs[1..]);
      forall k | 0 <= k < |rest| ensures rest[k].id != bs[0].id {
        assert rest[k] in bs[1..];
      }
    }
  }
}
