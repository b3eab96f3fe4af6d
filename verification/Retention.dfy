/**
 Backup retention. The code walks sorted lists of references; the theorems rank each backup
 against the others, without any list, and say which ranks survive.

 A reference is a position in the backup list, and `created` is the compact timestamp, which
 orders like the instant it spells.
 */
module Retention {
  import opened Options

  datatype BackupType = Manual | Periodic | PreUpdate | PreRestore

  datatype Backup = Backup(id: string, kind: BackupType, created: nat, fromVersion: Option<string>)

  datatype Policy = Policy(periodic: nat, preUpdateVersions: nat)

  function Version(b: Backup): string {
    if b.fromVersion.Some? then b.fromVersion.value else ""
  }

  predicate NoRepeats<T(==)>(s: seq<T>) {
    forall i, j | 0 <= i < j < |s| :: s[i] != s[j]
  }

  // ---------------------------------------------------------------- newest first

  /** The order of a stable descending sort by timestamp. */
  predicate Newer(bs: seq<Backup>, i: nat, j: nat)
    requires i < |bs| && j < |bs|
  {
    bs[i].created > bs[j].created || (bs[i].created == bs[j].created && i < j)
  }

  predicate Within(bs: seq<Backup>, refs: set<nat>) {
    forall i | i in refs :: i < |bs|
  }

  predicate IsNewest(bs: seq<Backup>, refs: set<nat>, m: nat)
    requires Within(bs, refs)
  {
    m in refs && forall i | i in refs && i != m :: Newer(bs, m, i)
  }

  lemma {:induction false} NewestExists(bs: seq<Backup>, refs: set<nat>)
    requires Within(bs, refs) && refs != {}
    ensures exists m :: IsNewest(bs, refs, m)
    decreases |refs|
  {
    var x :| x in refs;
    var rest := refs - {x};
    if rest == {} {
      assert refs == {x};
      assert IsNewest(bs, refs, x);
    } else {
      NewestExists(bs, rest);
      var y :| IsNewest(bs, rest, y);
      if Newer(bs, x, y) {
        forall i | i in refs && i != x ensures Newer(bs, x, i) {
          assert i == y || Newer(bs, y, i);
        }
        assert IsNewest(bs, refs, x);
      } else {
        assert IsNewest(bs, refs, y);
      }
    }
  }

  function Newest(bs: seq<Backup>, refs: set<nat>): (m: nat)
    requires Within(bs, refs) && refs != {}
    ensures IsNewest(bs, refs, m)
  {
    NewestExists(bs, refs);
    var m :| IsNewest(bs, refs, m);
    m
  }

  lemma ConsDescending(bs: seq<Backup>, refs: set<nat>, m: nat, rest: seq<nat>)
    requires Within(bs, refs) && IsNewest(bs, refs, m)
    requires Descending(bs, rest) && forall i :: i in rest <==> i in refs - {m}
    ensures Descending(bs, [m] + rest) && forall i :: i in [m] + rest <==> i in refs
  {
    forall p | 0 <= p < |rest| ensures rest[p] in refs && rest[p] != m {
      assert rest[p] in rest;
    }
  }

  predicate Descending(bs: seq<Backup>, order: seq<nat>) {
    && (forall p | 0 <= p < |order| :: order[p] < |bs|)
    && (forall p, q | 0 <= p < q < |order| :: Newer(bs, order[p], order[q]))
  }

  /** `sort_by(|a, b| b.created_at.cmp(&a.created_at))` over references taken in list order. */
  function NewestFirst(bs: seq<Backup>, refs: set<nat>): (order: seq<nat>)
    requires Within(bs, refs)
    ensures Descending(bs, order)
    ensures forall p | 0 <= p < |order| :: order[p] < |bs|
    ensures forall i :: i in order <==> i in refs
    ensures |order| == |refs|
    decreases |refs|
  {
    if refs == {} then []
    else
      var m := Newest(bs, refs);
      var rest := NewestFirst(bs, refs - {m});
      ConsDescending(bs, refs, m, rest);
      [m] + rest
  }

  function Family(bs: seq<Backup>): (refs: set<nat>)
    ensures Within(bs, refs)
  {
    set i: nat | i < |bs| && (bs[i].kind.Periodic? || bs[i].kind.PreRestore?)
  }

  function PreUpdates(bs: seq<Backup>): (refs: set<nat>)
    ensures Within(bs, refs)
  {
    set i: nat | i < |bs| && bs[i].kind.PreUpdate?
  }

  // ---------------------------------------------------------------- what must go

  /** How many of the rolling family are newer than backup `i`. */
  function FamilyRank(bs: seq<Backup>, i: nat): nat
    requires i < |bs|
  {
    |set j | j in Family(bs) && Newer(bs, j, i)|
  }

  ghost predicate CapturedOf(bs: seq<Backup>, i: nat, v: string) {
    i in PreUpdates(bs) && Version(bs[i]) == v
  }

  /** Some capture of `v` is newer than every capture of `w`. */
  ghost predicate Outranks(bs: seq<Backup>, v: string, w: string) {
    exists k :: CapturedOf(bs, k, v) && forall l | CapturedOf(bs, l, w) :: Newer(bs, k, l)
  }

  function Versions(bs: seq<Backup>): set<string> {
    set i | i in PreUpdates(bs) :: Version(bs[i])
  }

  /** How many versions were last captured after `w` was. */
  ghost function VersionRank(bs: seq<Backup>, w: string): nat {
    |set v | v in Versions(bs) && Outranks(bs, v, w)|
  }

  ghost predicate ShouldDelete(bs: seq<Backup>, policy: Policy, i: nat)
    requires i < |bs|
  {
    || (i in Family(bs) && FamilyRank(bs, i) >= policy.periodic)
    || (i in PreUpdates(bs) && VersionRank(bs, Version(bs[i])) >= policy.preUpdateVersions)
  }

  // ---------------------------------------------------------------- the loops

  function Skip<T>(s: seq<T>, n: nat): seq<T> {
    if n <= |s| then s[n..] else []
  }

  function VersionsOf(bs: seq<Backup>, order: seq<nat>): (vs: seq<string>)
    requires forall p | 0 <= p < |order| :: order[p] < |bs|
    ensures |vs| == |order|
  {
    seq(|order|, p requires 0 <= p < |order| => Version(bs[order[p]]))
  }

  /** `kept_versions` after meeting the versions `vs`. */
  function KeptVersions<V(==)>(vs: seq<V>, limit: nat): seq<V> {
    if vs == [] then []
    else
      var n := |vs| - 1;
      var kept := KeptVersions(vs[..n], limit);
      if vs[n] !in kept && |kept| < limit then kept + [vs[n]] else kept
  }

  predicate DropsAt<V(==)>(vs: seq<V>, limit: nat, p: nat)
    requires p < |vs|
  {
    var kept := KeptVersions(vs[..p], limit);
    vs[p] !in kept && |kept| >= limit
  }

  /** The references of `order` pushed to `to_delete` by the pre-update loop. */
  function Dropped<V(==)>(order: seq<nat>, vs: seq<V>, limit: nat): seq<nat>
    requires |order| == |vs|
  {
    if order == [] then []
    else
      var n := |order| - 1;
      var before := Dropped(order[..n], vs[..n], limit);
      if DropsAt(vs, limit, n) then before + [order[n]] else before
  }

  function DeletedRefs(bs: seq<Backup>, policy: Policy): seq<nat> {
    Skip(NewestFirst(bs, Family(bs)), policy.periodic)
    + var order := NewestFirst(bs, PreUpdates(bs)); Dropped(order, VersionsOf(bs, order), policy.preUpdateVersions)
  }

  function Ids(bs: seq<Backup>, refs: seq<nat>): seq<string>
    requires forall p | 0 <= p < |refs| :: refs[p] < |bs|
  {
    seq(|refs|, p requires 0 <= p < |refs| => bs[refs[p]].id)
  }

  lemma {:induction false} DroppedWithin<V>(order: seq<nat>, vs: seq<V>, limit: nat)
    requires |order| == |vs|
    ensures forall i | i in Dropped(order, vs, limit) :: i in order
  {
    if order != [] { DroppedWithin(order[..|order| - 1], vs[..|order| - 1], limit); }
  }

  lemma DeletedWithin(bs: seq<Backup>, policy: Policy)
    ensures forall i | i in DeletedRefs(bs, policy) :: i in Family(bs) || i in PreUpdates(bs)
    ensures forall p | 0 <= p < |DeletedRefs(bs, policy)| :: DeletedRefs(bs, policy)[p] < |bs|
  {
    var order := NewestFirst(bs, PreUpdates(bs));
    DroppedWithin(order, VersionsOf(bs, order), policy.preUpdateVersions);
    forall p | 0 <= p < |DeletedRefs(bs, policy)| ensures DeletedRefs(bs, policy)[p] < |bs| {
      assert DeletedRefs(bs, policy)[p] in DeletedRefs(bs, policy);
    }
  }

  lemma IdsSnoc(bs: seq<Backup>, aged: seq<nat>, dropped: seq<nat>, i: nat)
    requires i < |bs| && forall p | 0 <= p < |aged + dropped| :: (aged + dropped)[p] < |bs|
    ensures forall p | 0 <= p < |aged + (dropped + [i])| :: (aged + (dropped + [i]))[p] < |bs|
    ensures Ids(bs, aged + (dropped + [i])) == Ids(bs, aged + dropped) + [bs[i].id]
  {
    assert aged + (dropped + [i]) == aged + dropped + [i];
  }

  lemma LoopStart<V>(limit: nat)
    ensures KeptVersions<V>([], limit) == [] && Dropped<V>([], [], limit) == []
  {
  }

  lemma LoopStep<V>(order: seq<nat>, vs: seq<V>, n: nat, limit: nat)
    requires n < |order| == |vs|
    ensures
      var kept, v := KeptVersions(vs[..n], limit), vs[n];
      && KeptVersions(vs[..n + 1], limit) == (if v !in kept && |kept| < limit then kept + [v] else kept)
      && Dropped(order[..n + 1], vs[..n + 1], limit) ==
        if v !in kept && |kept| >= limit then Dropped(order[..n], vs[..n], limit) + [order[n]] else Dropped(order[..n], vs[..n], limit)
  {
    assert order[..n + 1][..n] == order[..n] && vs[..n + 1][..n] == vs[..n];
  }

  method ComputeBackupsToDelete(backups: seq<Backup>, policy: Policy) returns (toDelete: seq<string>)
    ensures forall p | 0 <= p < |DeletedRefs(backups, policy)| :: DeletedRefs(backups, policy)[p] < |backups|
    ensures toDelete == Ids(backups, DeletedRefs(backups, policy))
  {
    hide NewestFirst, Descending, Family, PreUpdates, KeptVersions, Dropped, Ids;
    DeletedWithin(backups, policy);
    var family := NewestFirst(backups, Family(backups));
    var aged := Skip(family, policy.periodic);
    toDelete := Ids(backups, aged);
    var preUpdate := NewestFirst(backups, PreUpdates(backups));
    ghost var vs := VersionsOf(backups, preUpdate);
    LoopStart<string>(policy.preUpdateVersions);
    assert aged + [] == aged && preUpdate[..0] == [] && vs[..0] == [];
    var keptVersions: seq<string> := [];
    ghost var dropped: seq<nat> := [];
    for n := 0 to |preUpdate|
      invariant keptVersions == KeptVersions(vs[..n], policy.preUpdateVersions)
      invariant dropped == Dropped(preUpdate[..n], vs[..n], policy.preUpdateVersions)
      invariant forall p | 0 <= p < |aged + dropped| :: (aged + dropped)[p] < |backups|
      invariant toDelete == Ids(backups, aged + dropped)
    {
      LoopStep(preUpdate, vs, n, policy.preUpdateVersions);
      var info := backups[preUpdate[n]];
      var version := if info.fromVersion.Some? then info.fromVersion.value else "";
      assert version == vs[n];
      if version in keptVersions {
        continue;
      }
      if |keptVersions| < policy.preUpdateVersions {
        keptVersions := keptVersions + [version];
      } else {
        IdsSnoc(backups, aged, dropped, preUpdate[n]);
        toDelete := toDelete + [info.id];
        dropped := dropped + [preUpdate[n]];
      }
    }
    assert preUpdate[..|preUpdate|] == preUpdate && vs[..|preUpdate|] == vs;
  }

  // ---------------------------------------------------------------- the rolling family

  ghost predicate Sorts(bs: seq<Backup>, refs: set<nat>, order: seq<nat>) {
    && Descending(bs, order)
    && (forall p | 0 <= p < |order| :: order[p] in refs)
    && (forall i | i in refs :: exists p :: 0 <= p < |order| && order[p] == i)
  }

  lemma NewestFirstSorts(bs: seq<Backup>, refs: set<nat>)
    requires Within(bs, refs)
    ensures Sorts(bs, refs, NewestFirst(bs, refs))
  {
    var order := NewestFirst(bs, refs);
    hide NewestFirst, Descending;
    forall p | 0 <= p < |order| ensures order[p] in refs { assert order[p] in order; }
    forall i | i in refs ensures exists p :: 0 <= p < |order| && order[p] == i { assert i in order; }
  }

  /** In the sorted list, a backup's position is the number of members newer than it. */
  lemma PositionIsRank(bs: seq<Backup>, refs: set<nat>, order: seq<nat>, p: nat)
    requires Within(bs, refs) && Sorts(bs, refs, order) && p < |order|
    ensures |set j | j in refs && Newer(bs, j, order[p])| == p
  {
    var newer := set j | j in refs && Newer(bs, j, order[p]);
    var front := order[..p];
    forall j | j in newer ensures j in front {
      var q :| 0 <= q < |order| && order[q] == j;
      assert q < p;
      assert front[q] == j;
    }
    forall j | j in front ensures j in newer {
      var q :| 0 <= q < |front| && front[q] == j;
      assert order[q] == j;
    }
    CardinalityOfSeq(front, newer);
  }

  lemma {:induction false} CardinalityOfSeq<T>(s: seq<T>, elements: set<T>)
    requires forall x :: x in elements <==> x in s
    requires forall i, j | 0 <= i < j < |s| :: s[i] != s[j]
    ensures |elements| == |s|
  {
    if s == [] {
      assert elements == {};
    } else {
      var n := |s| - 1;
      forall x ensures x in elements - {s[n]} <==> x in s[..n] {
        if x in s[..n] {
          var i :| 0 <= i < n && s[i] == x;
          assert s[i] in s;
        }
        if x in elements - {s[n]} {
          var i :| 0 <= i < |s| && s[i] == x;
          assert s[..n][i] == x;
        }
      }
      CardinalityOfSeq(s[..n], elements - {s[n]});
      assert s[n] in s;
    }
  }

  /** Skipping the newest `limit` members leaves exactly those with at least `limit` newer ones. */
  lemma AgedOutByRank(bs: seq<Backup>, limit: nat, i: nat)
    requires i < |bs|
    ensures i in Skip(NewestFirst(bs, Family(bs)), limit) <==> i in Family(bs) && FamilyRank(bs, i) >= limit
  {
    var order := NewestFirst(bs, Family(bs));
    NewestFirstSorts(bs, Family(bs));
    hide NewestFirst, FamilyRank, Family;
    if i in order {
      var p :| 0 <= p < |order| && order[p] == i;
      FamilyRankIsPosition(bs, order, p);
      SkippedFrom(order, limit, p);
    }
  }

  lemma FamilyRankIsPosition(bs: seq<Backup>, order: seq<nat>, p: nat)
    requires Sorts(bs, Family(bs), order) && p < |order|
    ensures order[p] in Family(bs) && FamilyRank(bs, order[p]) == p
  {
    hide Family, Newer, Descending;
    PositionIsRank(bs, Family(bs), order, p);
  }

  /** In a list without repeats, skipping keeps exactly the positions from `limit` on. */
  lemma SkippedFrom(order: seq<nat>, limit: nat, p: nat)
    requires p < |order| && forall i, j | 0 <= i < j < |order| :: order[i] != order[j]
    ensures order[p] in Skip(order, limit) <==> p >= limit
  {
    var aged := Skip(order, limit);
    if p >= limit { assert aged[p - limit] == order[p]; }
    if order[p] in aged {
      var k :| 0 <= k < |aged| && aged[k] == order[p];
      assert order[k + limit] == order[p];
    }
  }

  // ---------------------------------------------------------------- the version sets

  /** The versions of `vs` in the order they are first met. */
  function FirstMet<V(==)>(vs: seq<V>): seq<V> {
    if vs == [] then []
    else
      var n := |vs| - 1;
      var met := FirstMet(vs[..n]);
      if vs[n] in met then met else met + [vs[n]]
  }

  /** The loop keeps the first `limit` versions it meets. */
  lemma {:induction false} KeptAreFirstMet<V>(vs: seq<V>, limit: nat)
    ensures
      var met, kept := FirstMet(vs), KeptVersions(vs, limit);
      kept == if |met| <= limit then met else met[..limit]
  {
    if vs != [] {
      KeptAreFirstMet(vs[..|vs| - 1], limit);
    }
  }

  /** `at[a]` is the position at which the `a`-th version is first met. */
  ghost predicate MetAt<V>(vs: seq<V>, met: seq<V>, at: seq<nat>) {
    && |at| == |met|
    && (forall a | 0 <= a < |met| :: at[a] < |vs| && vs[at[a]] == met[a])
    && (forall a, b | 0 <= a < b < |met| :: at[a] < at[b] && met[a] != met[b])
    && (forall p {:trigger IsMetBy(met, at, vs[p], p)} | 0 <= p < |vs| :: IsMetBy(met, at, vs[p], p))
  }

  ghost predicate IsMetBy<V>(met: seq<V>, at: seq<nat>, v: V, p: nat)
    requires |at| == |met|
  {
    exists a :: 0 <= a < |met| && met[a] == v && at[a] <= p
  }

  lemma {:induction false} FirstMetPositions<V>(vs: seq<V>) returns (at: seq<nat>)
    ensures MetAt(vs, FirstMet(vs), at)
  {
    if vs == [] {
      at := [];
    } else {
      var n := |vs| - 1;
      var met := FirstMet(vs[..n]);
      at := FirstMetPositions(vs[..n]);
      if vs[n] in met {
        MetAgain(vs, met, at);
      } else {
        MetNew(vs, met, at);
        at := at + [n];
      }
    }
  }

  lemma MetAgain<V>(vs: seq<V>, met: seq<V>, at: seq<nat>)
    requires vs != [] && MetAt(vs[..|vs| - 1], met, at) && vs[|vs| - 1] in met
    ensures MetAt(vs, met, at)
  {
    var n := |vs| - 1;
    var front := vs[..n];
    forall p | 0 <= p < |vs| ensures IsMetBy(met, at, vs[p], p) {
      if p < n { assert IsMetBy(met, at, front[p], p); }
    }
  }

  lemma MetNew<V>(vs: seq<V>, met: seq<V>, at: seq<nat>)
    requires vs != [] && MetAt(vs[..|vs| - 1], met, at) && vs[|vs| - 1] !in met
    ensures MetAt(vs, met + [vs[|vs| - 1]], at + [|vs| - 1])
  {
    var n := |vs| - 1;
    var front, met', at' := vs[..n], met + [vs[n]], at + [n];
    forall p | 0 <= p < |vs| ensures IsMetBy(met', at', vs[p], p) {
      if p < n {
        assert IsMetBy(met, at, front[p], p);
        var a :| 0 <= a < |met| && met[a] == front[p] && at[a] <= p;
        assert met'[a] == vs[p] && at'[a] <= p;
      } else {
        assert met'[|met|] == vs[p] && at'[|met|] == n;
      }
    }
  }

  lemma {:induction false} DroppedPositions<V>(order: seq<nat>, vs: seq<V>, limit: nat, i: nat)
    requires |order| == |vs|
    ensures i in Dropped(order, vs, limit) <==> exists p :: 0 <= p < |order| && order[p] == i && DropsAt(vs, limit, p)
  {
    if order != [] {
      var n := |order| - 1;
      DroppedPositions(order[..n], vs[..n], limit, i);
      forall p | 0 <= p < n ensures vs[..n][..p] == vs[..p] {}
    }
  }

  lemma {:induction false} FirstMetElements<V>(vs: seq<V>, v: V)
    ensures v in FirstMet(vs) <==> v in vs
  {
    if vs != [] {
      var n := |vs| - 1;
      assert vs == vs[..n] + [vs[n]];
      FirstMetElements(vs[..n], v);
    }
  }

  lemma {:induction false} FirstMetPrefix<V>(vs: seq<V>, p: nat)
    requires p <= |vs|
    ensures FirstMet(vs[..p]) <= FirstMet(vs)
  {
    if p < |vs| {
      var n := |vs| - 1;
      assert vs[..n][..p] == vs[..p];
      FirstMetPrefix(vs[..n], p);
    } else {
      assert vs[..p] == vs;
    }
  }

  /** Meeting the `b`-th version takes having met all `b` before it. */
  lemma MetBefore<V>(vs: seq<V>, p: nat, b: nat)
    requires p < |vs| && b < |FirstMet(vs)| && FirstMet(vs)[b] == vs[p]
    ensures FirstMet(vs[..p]) <= FirstMet(vs) && |FirstMet(vs[..p])| >= b && NoRepeats(FirstMet(vs))
  {
    var met := FirstMet(vs);
    var at := FirstMetPositions(vs);
    var sofar := FirstMet(vs[..p]);
    FirstMetPrefix(vs, p);
    assert IsMetBy(met, at, vs[p], p);
    hide FirstMet;
    if |sofar| < b {
      var a := |sofar|;
      assert at[a] < at[b] <= p;
      assert vs[..p][at[a]] == met[a];
      FirstMetElements(vs[..p], met[a]);
    }
  }

  /** A version is dropped wherever it is met if `limit` others are met first. */
  lemma DropsByMeetingOrder<V>(vs: seq<V>, limit: nat, p: nat, b: nat)
    requires p < |vs| && b < |FirstMet(vs)| && FirstMet(vs)[b] == vs[p]
    ensures DropsAt(vs, limit, p) <==> b >= limit
  {
    MetBefore(vs, p, b);
    KeptAreFirstMet(vs[..p], limit);
    var met, sofar, kept := FirstMet(vs), FirstMet(vs[..p]), KeptVersions(vs[..p], limit);
    hide KeptVersions, FirstMet;
    assert kept <= met;
    if b < |kept| { assert kept[b] == met[b]; }
    if vs[p] in kept {
      var c :| 0 <= c < |kept| && kept[c] == met[b];
      assert met[c] == met[b];
    }
  }

  ghost predicate PreUpdateOrder(bs: seq<Backup>, order: seq<nat>, vs: seq<string>, at: seq<nat>) {
    && Sorts(bs, PreUpdates(bs), order)
    && |vs| == |order| && (forall p | 0 <= p < |vs| :: vs[p] == Version(bs[order[p]]))
    && MetAt(vs, FirstMet(vs), at)
  }

  lemma CapturePosition(bs: seq<Backup>, order: seq<nat>, vs: seq<string>, at: seq<nat>, i: nat, b: nat) returns (p: nat)
    requires PreUpdateOrder(bs, order, vs, at) && b < |FirstMet(vs)| && CapturedOf(bs, i, FirstMet(vs)[b])
    ensures p < |order| && order[p] == i && vs[p] == FirstMet(vs)[b] && at[b] <= p
  {
    hide FirstMet, Descending;
    p :| 0 <= p < |order| && order[p] == i;
    var met := FirstMet(vs);
    assert IsMetBy(met, at, vs[p], p);
    var c :| 0 <= c < |met| && met[c] == vs[p] && at[c] <= p;
    assert c == b;
  }

  lemma OutranksByMeetingOrder(bs: seq<Backup>, order: seq<nat>, vs: seq<string>, at: seq<nat>, a: nat, b: nat)
    requires PreUpdateOrder(bs, order, vs, at) && a < |FirstMet(vs)| && b < |FirstMet(vs)|
    ensures Outranks(bs, FirstMet(vs)[a], FirstMet(vs)[b]) <==> a < b
  {
    var met := FirstMet(vs);
    assert CapturedOf(bs, order[at[b]], met[b]) && CapturedOf(bs, order[at[a]], met[a]);
    if a < b {
      forall l | CapturedOf(bs, l, met[b]) ensures Newer(bs, order[at[a]], l) {
        var q := CapturePosition(bs, order, vs, at, l, b);
      }
    }
    if Outranks(bs, met[a], met[b]) {
      var k :| CapturedOf(bs, k, met[a]) && forall l | CapturedOf(bs, l, met[b]) :: Newer(bs, k, l);
      var q := CapturePosition(bs, order, vs, at, k, a);
      assert Newer(bs, order[q], order[at[b]]);
    }
  }

  lemma VersionRankIsMeetingOrder(bs: seq<Backup>, order: seq<nat>, vs: seq<string>, at: seq<nat>, b: nat)
    requires PreUpdateOrder(bs, order, vs, at) && b < |FirstMet(vs)|
    ensures VersionRank(bs, FirstMet(vs)[b]) == b
  {
    var met := FirstMet(vs);
    var above := set v | v in Versions(bs) && Outranks(bs, v, met[b]);
    forall v | v in above ensures v in met[..b] {
      var i :| i in PreUpdates(bs) && Version(bs[i]) == v;
      var p :| 0 <= p < |order| && order[p] == i;
      assert IsMetBy(met, at, vs[p], p);
      var a :| 0 <= a < |met| && met[a] == v;
      OutranksByMeetingOrder(bs, order, vs, at, a, b);
      assert met[..b][a] == v;
    }
    forall v | v in met[..b] ensures v in above {
      var a :| 0 <= a < b && met[a] == v;
      OutranksByMeetingOrder(bs, order, vs, at, a, b);
      assert order[at[a]] in PreUpdates(bs);
    }
    CardinalityOfSeq(met[..b], above);
  }

  lemma MeetPreUpdates(bs: seq<Backup>) returns (order: seq<nat>, vs: seq<string>, at: seq<nat>)
    ensures order == NewestFirst(bs, PreUpdates(bs)) && vs == VersionsOf(bs, order)
    ensures PreUpdateOrder(bs, order, vs, at)
  {
    order := NewestFirst(bs, PreUpdates(bs));
    NewestFirstSorts(bs, PreUpdates(bs));
    vs := VersionsOf(bs, order);
    at := FirstMetPositions(vs);
  }

  lemma DroppedByRank(bs: seq<Backup>, limit: nat, i: nat)
    requires i < |bs|
    ensures
      var order := NewestFirst(bs, PreUpdates(bs));
      i in Dropped(order, VersionsOf(bs, order), limit) <==>
        i in PreUpdates(bs) && VersionRank(bs, Version(bs[i])) >= limit
  {
    var order, vs, at := MeetPreUpdates(bs);
    hide NewestFirst, VersionsOf;
    DroppedPositions(order, vs, limit, i);
    forall p | 0 <= p < |order| ensures DropsAt(vs, limit, p) <==> VersionRank(bs, vs[p]) >= limit {
      assert IsMetBy(FirstMet(vs), at, vs[p], p);
      var b :| 0 <= b < |FirstMet(vs)| && FirstMet(vs)[b] == vs[p];
      DropsByMeetingOrder(vs, limit, p, b);
      VersionRankIsMeetingOrder(bs, order, vs, at, b);
    }
  }

  // ---------------------------------------------------------------- the theorems

  /** Exactly the backups ranked out go; manual ones are never ranked. */
  lemma DeletesExactlyTheRankedOut(bs: seq<Backup>, policy: Policy, i: nat)
    requires i < |bs|
    ensures i in DeletedRefs(bs, policy) <==> ShouldDelete(bs, policy, i)
    ensures bs[i].kind.Manual? ==> i !in DeletedRefs(bs, policy)
  {
    AgedOutByRank(bs, policy.periodic, i);
    DroppedByRank(bs, policy.preUpdateVersions, i);
    hide NewestFirst, Dropped, FamilyRank, VersionRank;
  }

  /** Capture `j` is newer than capture `i`; of two of the same second, the one listed first. */
  ghost predicate After(bs: seq<Backup>, j: nat, i: nat)
    requires i < |bs| && j < |bs|
  {
    bs[j].created > bs[i].created || (bs[j].created == bs[i].created && j < i)
  }

  /** Position `i` holds a pre-update backup of the version `v`; an untagged one is of the empty version. */
  ghost predicate UpdateOf(bs: seq<Backup>, i: nat, v: string) {
    i < |bs| && bs[i].kind == PreUpdate && (bs[i].fromVersion == Some(v) || (bs[i].fromVersion == None && v == ""))
  }

  /** The latest capture of `v` is newer than the latest of `w`. */
  ghost predicate LatestIsNewer(bs: seq<Backup>, v: string, w: string) {
    exists k: nat :: UpdateOf(bs, k, v) && forall l: nat | UpdateOf(bs, l, w) :: After(bs, k, l)
  }

  /** The periodic and pre-restore backups newer than backup `i`. */
  ghost function RollingAhead(bs: seq<Backup>, i: nat): set<nat>
    requires i < |bs|
  {
    set j: nat | j < |bs| && (bs[j].kind == Periodic || bs[j].kind == PreRestore) && After(bs, j, i)
  }

  /** The versions captured after `w` last was. */
  ghost function VersionsAhead(bs: seq<Backup>, w: string): set<string> {
    set i: nat, v | i < |bs| && v == Version(bs[i]) && UpdateOf(bs, i, v) && LatestIsNewer(bs, v, w) :: v
  }

  /**
   Manual backups stay. A periodic or pre-restore one goes exactly when `periodic` of the two kinds
   together are newer, a pre-update one exactly when `preUpdateVersions` versions were captured since.
   */
  lemma WhatGoes(bs: seq<Backup>, policy: Policy, i: nat)
    requires i < |bs|
    ensures i in DeletedRefs(bs, policy) <==>
      match bs[i].kind
      case Manual => false
      case PreUpdate => |VersionsAhead(bs, Version(bs[i]))| >= policy.preUpdateVersions
      case _ =>
        |RollingAhead(bs, i)| >= policy.periodic
  {
    DeletesExactlyTheRankedOut(bs, policy, i);
    SameRollingAhead(bs, i);
    SameVersionsAhead(bs, Version(bs[i]));
    hide DeletedRefs, Outranks, Versions, VersionsAhead, RollingAhead, Newer, After;
  }

  lemma SameRollingAhead(bs: seq<Backup>, i: nat)
    requires i < |bs|
    ensures (set j | j in Family(bs) && Newer(bs, j, i)) == RollingAhead(bs, i)
  {
  }

  lemma SameVersionsAhead(bs: seq<Backup>, w: string)
    ensures (set v | v in Versions(bs) && Outranks(bs, v, w)) == VersionsAhead(bs, w)
  {
    forall k: nat, v ensures UpdateOf(bs, k, v) <==> CapturedOf(bs, k, v) {
    }
    forall v ensures LatestIsNewer(bs, v, w) <==> Outranks(bs, v, w) {
      if LatestIsNewer(bs, v, w) {
        var k: nat :| UpdateOf(bs, k, v) && forall l: nat | UpdateOf(bs, l, w) :: After(bs, k, l);
        assert CapturedOf(bs, k, v) && forall l: nat | CapturedOf(bs, l, w) :: UpdateOf(bs, l, w) && Newer(bs, k, l);
      }
      if Outranks(bs, v, w) {
        var k: nat :| CapturedOf(bs, k, v) && forall l | CapturedOf(bs, l, w) :: Newer(bs, k, l);
        assert UpdateOf(bs, k, v) && forall l: nat | UpdateOf(bs, l, w) :: CapturedOf(bs, l, w) && After(bs, k, l);
      }
    }
    hide LatestIsNewer, Outranks, UpdateOf, CapturedOf;
    var mine := set v | v in Versions(bs) && Outranks(bs, v, w);
    var theirs := VersionsAhead(bs, w);
    forall v ensures v in mine <==> v in theirs {
      if v in mine {
        var i: nat :| i in PreUpdates(bs) && Version(bs[i]) == v;
        assert UpdateOf(bs, i, v);
      }
    }
  }

  lemma {:induction false} DroppedNoRepeats<V>(order: seq<nat>, vs: seq<V>, limit: nat)
    requires |order| == |vs| && NoRepeats(order)
    ensures NoRepeats(Dropped(order, vs, limit))
  {
    if order != [] {
      var n := |order| - 1;
      DroppedNoRepeats(order[..n], vs[..n], limit);
      DroppedWithin(order[..n], vs[..n], limit);
      var before := Dropped(order[..n], vs[..n], limit);
      forall j | 0 <= j < |before| ensures before[j] != order[n] { assert before[j] in order[..n]; }
    }
  }

  lemma SortedNoRepeats(bs: seq<Backup>, order: seq<nat>)
    requires Descending(bs, order)
    ensures NoRepeats(order)
  {
  }

  ghost predicate DistinctIds(bs: seq<Backup>) {
    forall i, j | 0 <= i < j < |bs| :: bs[i].id != bs[j].id
  }

  lemma ConcatNoRepeats<T>(a: seq<T>, b: seq<T>)
    requires NoRepeats(a) && NoRepeats(b) && forall x | x in a :: x !in b
    ensures NoRepeats(a + b)
  {
    forall p, q | 0 <= p < |a| && 0 <= q < |b| ensures a[p] != b[q] {
      assert a[p] in a && b[q] in b;
    }
  }

  lemma RefsNoRepeats(bs: seq<Backup>, policy: Policy)
    ensures NoRepeats(DeletedRefs(bs, policy))
  {
    var family, order := NewestFirst(bs, Family(bs)), NewestFirst(bs, PreUpdates(bs));
    SortedNoRepeats(bs, family);
    SortedNoRepeats(bs, order);
    var vs := VersionsOf(bs, order);
    hide NewestFirst, Descending, VersionsOf, Dropped;
    var aged, dropped := Skip(family, policy.periodic), Dropped(order, vs, policy.preUpdateVersions);
    DroppedNoRepeats(order, vs, policy.preUpdateVersions);
    DroppedWithin(order, vs, policy.preUpdateVersions);
    SkippingKeepsNoRepeats(family, policy.periodic);
    hide NoRepeats, Skip;
    ConcatNoRepeats(aged, dropped);
  }

  lemma SkippingKeepsNoRepeats<T>(s: seq<T>, n: nat)
    requires NoRepeats(s)
    ensures NoRepeats(Skip(s, n)) && forall x | x in Skip(s, n) :: x in s
  {
  }

  /** With distinct ids, no id is listed twice, and an id is listed exactly when its backup must go. */
  lemma ListsEachDeletedIdOnce(bs: seq<Backup>, policy: Policy)
    requires DistinctIds(bs)
    ensures forall p | 0 <= p < |DeletedRefs(bs, policy)| :: DeletedRefs(bs, policy)[p] < |bs|
    ensures NoRepeats(Ids(bs, DeletedRefs(bs, policy)))
    ensures forall i | 0 <= i < |bs| :: bs[i].id in Ids(bs, DeletedRefs(bs, policy)) <==> ShouldDelete(bs, policy, i)
  {
    DeletedWithin(bs, policy);
    RefsNoRepeats(bs, policy);
    var refs := DeletedRefs(bs, policy);
    hide DeletedRefs;
    var ids := Ids(bs, refs);
    forall i | 0 <= i < |bs| ensures bs[i].id in ids <==> ShouldDelete(bs, policy, i) {
      DeletesExactlyTheRankedOut(bs, policy, i);
      if bs[i].id in ids {
        var p :| 0 <= p < |ids| && ids[p] == bs[i].id;
        assert refs[p] == i;
      }
      if i in refs {
        var p :| 0 <= p < |refs| && refs[p] == i;
        assert ids[p] == bs[i].id;
      }
    }
  }

  lemma DistinctSeqAtMost<T>(few: seq<T>, many: seq<T>)
    requires NoRepeats(few) && forall x | x in few :: x in many
    ensures |few| <= |many|
  {
    var f, m := set x | x in few, set x | x in many;
    CardinalityOfSeq(few, f);
    SetOfSeqAtMost(many, m);
    assert m == f + (m - f);
  }

  lemma {:induction false} SetOfSeqAtMost<T>(s: seq<T>, elements: set<T>)
    requires forall x :: x in elements <==> x in s
    ensures |elements| <= |s|
  {
    if s == [] {
      assert elements == {};
    } else {
      var n := |s| - 1;
      assert s == s[..n] + [s[n]];
      var fewer := set x | x in s[..n];
      SetOfSeqAtMost(s[..n], fewer);
      assert elements == fewer + {s[n]};
    }
  }

  ghost predicate Survivor(bs: seq<Backup>, policy: Policy, b: Backup) {
    exists i :: 0 <= i < |bs| && bs[i] == b && !ShouldDelete(bs, policy, i)
  }

  /** What is listed after a cleanup: surviving backups, in whatever order. */
  ghost predicate Survives(bs: seq<Backup>, policy: Policy, again: seq<Backup>) {
    DistinctIds(again) && forall b | b in again :: Survivor(bs, policy, b)
  }

  function Pick(bs: seq<Backup>, refs: seq<nat>): (picked: seq<Backup>)
    requires forall p | 0 <= p < |refs| :: refs[p] < |bs|
    ensures |picked| == |refs| && forall p | 0 <= p < |refs| :: picked[p] == bs[refs[p]]
  {
    seq(|refs|, p requires 0 <= p < |refs| => bs[refs[p]])
  }

  lemma PickNoRepeats(bs: seq<Backup>, refs: seq<nat>)
    requires DistinctIds(bs) && NoRepeats(refs) && forall p | 0 <= p < |refs| :: refs[p] < |bs|
    ensures NoRepeats(Pick(bs, refs))
  {
    var picked := Pick(bs, refs);
    forall k, l | 0 <= k < l < |picked| ensures picked[k] != picked[l] {
      assert refs[k] != refs[l];
      assert bs[refs[k]].id != bs[refs[l]].id;
    }
  }

  function Take<T>(s: seq<T>, n: nat): (front: seq<T>)
    ensures |front| <= n && front <= s
  {
    if |s| <= n then s else s[..n]
  }

  lemma FamilySurvivor(bs: seq<Backup>, policy: Policy, order: seq<nat>, b: Backup)
    requires Sorts(bs, Family(bs), order) && Survivor(bs, policy, b)
    requires b.kind.Periodic? || b.kind.PreRestore?
    ensures b in Pick(bs, Take(order, policy.periodic))
  {
    var i :| 0 <= i < |bs| && bs[i] == b && !ShouldDelete(bs, policy, i);
    assert i in Family(bs);
    var p :| 0 <= p < |order| && order[p] == i;
    PositionIsRank(bs, Family(bs), order, p);
    assert FamilyRank(bs, i) == p;
    hide FamilyRank, Family, Descending;
    assert Take(order, policy.periodic)[p] == i;
    assert Pick(bs, Take(order, policy.periodic))[p] == b;
  }

  lemma FamilyFits(bs: seq<Backup>, policy: Policy, again: seq<Backup>)
    requires Survives(bs, policy, again)
    ensures |Family(again)| <= policy.periodic
  {
    var order, order' := NewestFirst(bs, Family(bs)), NewestFirst(again, Family(again));
    NewestFirstSorts(bs, Family(bs));
    NewestFirstSorts(again, Family(again));
    SortedNoRepeats(again, order');
    hide NewestFirst, Descending, Survivor, Family, NoRepeats, DistinctIds, Take;
    PickNoRepeats(again, order');
    var few, many := Pick(again, order'), Pick(bs, Take(order, policy.periodic));
    forall x | x in few ensures x in many {
      var k :| 0 <= k < |few| && few[k] == x;
      assert order'[k] in Family(again) && again[order'[k]] in again;
      FamilySurvivor(bs, policy, order, x);
    }
    DistinctSeqAtMost(few, many);
  }

  lemma VersionSurvivor(bs: seq<Backup>, policy: Policy, order: seq<nat>, vs: seq<string>, at: seq<nat>, b: Backup)
    requires PreUpdateOrder(bs, order, vs, at) && Survivor(bs, policy, b) && b.kind.PreUpdate?
    ensures Version(b) in Take(FirstMet(vs), policy.preUpdateVersions)
  {
    hide FirstMet, VersionRank, FamilyRank, Descending, Outranks;
    var met := FirstMet(vs);
    var i :| 0 <= i < |bs| && bs[i] == b && !ShouldDelete(bs, policy, i);
    assert i in PreUpdates(bs);
    var p :| 0 <= p < |order| && order[p] == i;
    assert IsMetBy(met, at, vs[p], p);
    var m :| 0 <= m < |met| && met[m] == Version(b);
    VersionRankIsMeetingOrder(bs, order, vs, at, m);
    assert m < policy.preUpdateVersions;
    assert Take(met, policy.preUpdateVersions)[m] == met[m];
  }

  lemma VersionsFit(bs: seq<Backup>, policy: Policy, again: seq<Backup>, order': seq<nat>, vs': seq<string>, at': seq<nat>)
    requires Survives(bs, policy, again) && PreUpdateOrder(again, order', vs', at')
    ensures |FirstMet(vs')| <= policy.preUpdateVersions
  {
    var order, vs, at := MeetPreUpdates(bs);
    var kept := Take(FirstMet(vs), policy.preUpdateVersions);
    hide NewestFirst, VersionsOf, FirstMet, Survivor, Descending;
    forall v | v in FirstMet(vs') ensures v in kept {
      var a :| 0 <= a < |FirstMet(vs')| && FirstMet(vs')[a] == v;
      var b := again[order'[at'[a]]];
      assert order'[at'[a]] in PreUpdates(again) && b in again;
      VersionSurvivor(bs, policy, order, vs, at, b);
    }
    assert NoRepeats(FirstMet(vs'));
    hide PreUpdateOrder;
    DistinctSeqAtMost(FirstMet(vs'), kept);
  }

  lemma NothingDropped(order: seq<nat>, vs: seq<string>, at: seq<nat>, limit: nat)
    requires |order| == |vs| && MetAt(vs, FirstMet(vs), at) && |FirstMet(vs)| <= limit
    ensures Dropped(order, vs, limit) == []
  {
    var dropped := Dropped(order, vs, limit);
    if dropped != [] {
      assert dropped[0] in dropped;
      DroppedPositions(order, vs, limit, dropped[0]);
      var p :| 0 <= p < |order| && order[p] == dropped[0] && DropsAt(vs, limit, p);
      assert IsMetBy(FirstMet(vs), at, vs[p], p);
      var b :| 0 <= b < |FirstMet(vs)| && FirstMet(vs)[b] == vs[p];
      DropsByMeetingOrder(vs, limit, p, b);
    }
  }

  /** Running retention again on what it left deletes nothing, in whatever order the list comes back. */
  lemma RerunDeletesNothing(bs: seq<Backup>, policy: Policy, again: seq<Backup>)
    requires Survives(bs, policy, again)
    ensures DeletedRefs(again, policy) == []
  {
    FamilyFits(bs, policy, again);
    var order, vs, at := MeetPreUpdates(again);
    hide NewestFirst, VersionsOf, Descending, FirstMet, Survivor;
    VersionsFit(bs, policy, again, order, vs, at);
    NothingDropped(order, vs, at, policy.preUpdateVersions);
  }
}
