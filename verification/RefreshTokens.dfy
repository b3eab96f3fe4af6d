/**
 Refresh-token rotation in the sense of sections 2.2.2 and 4.14 of RFC 9700: one family per
 login, its newest id advances, the id before it re-issues the newest, anything else revokes.

 The registry keeps three fields per family. The theorems speak about the log of requests and
 replies instead: which ids a login was ever given, when, and what was ever answered.
 */
module RefreshTokens {
  import opened Options

  /** Sixteen random bytes: a token id or a family id. Only equality matters. */
  type Id = nat

  const REFRESH_TOKEN_TTL: nat := 30 * 86_400

  datatype Family = Family(live: Id, prev: Option<Id>, exp: nat)
  type Families = map<Id, Family>

  /** The part of a validated refresh token that rotation reads; legacy tokens lack both ids. */
  datatype Claims = Claims(jti: Option<Id>, fam: Option<Id>)

  datatype Reply = Minted(jti: Id, fam: Id) | Rejected

  // ---------------------------------------------------------------- the registry

  function Pruned(families: Families, now: nat): Families {
    map f | f in families && families[f].exp > now :: families[f]
  }

  function Registered(families: Families, now: nat, jti: Id, fam: Id): Families {
    Pruned(families, now)[fam := Family(jti, None, now + REFRESH_TOKEN_TTL)]
  }

  function Rotated(families: Families, claims: Claims, now: nat, newJti: Id): (Families, Reply) {
    var kept := Pruned(families, now);
    match claims
    case Claims(Some(jti), Some(fam)) =>
      if fam !in kept then (kept, Rejected)
      else if kept[fam].live == jti then
        (kept[fam := Family(newJti, Some(jti), now + REFRESH_TOKEN_TTL)], Minted(newJti, fam))
      else if kept[fam].prev == Some(jti) then
        (kept[fam := kept[fam].(exp := now + REFRESH_TOKEN_TTL)], Minted(kept[fam].live, fam))
      else (kept - {fam}, Rejected)
    case _ => (kept, Rejected)
  }

  class RefreshRegistry {
    var families: Families

    constructor ()
      ensures families == map[]
    {
      families := map[];
    }

    method PruneExpired(now: nat)
      modifies this
      ensures families == Pruned(old(families), now)
    {
      families := map f | f in families && families[f].exp > now :: families[f];
    }

    /** The two random ids of the source are arguments. */
    method RegisterFamily(now: nat, jti: Id, fam: Id) returns (reply: Reply)
      modifies this
      ensures families == Registered(old(families), now, jti, fam) && reply == Minted(jti, fam)
    {
      PruneExpired(now);
      families := families[fam := Family(jti, None, now + REFRESH_TOKEN_TTL)];
      reply := Minted(jti, fam);
    }

    method Rotate(claims: Claims, now: nat, newJti: Id) returns (reply: Reply)
      modifies this
      ensures (families, reply) == Rotated(old(families), claims, now, newJti)
    {
      PruneExpired(now);
      if claims.jti == None || claims.fam == None || claims.fam.value !in families {
        return Rejected;
      }
      var jti, fam := claims.jti.value, claims.fam.value;
      var live, prev := families[fam].live, families[fam].prev;
      if live == jti {
        var f := families[fam].(prev := Some(live), live := newJti);
        f := f.(exp := now + REFRESH_TOKEN_TTL);
        families := families[fam := f];
        reply := Minted(newJti, fam);
      } else if prev == Some(jti) {
        families := families[fam := families[fam].(exp := now + REFRESH_TOKEN_TTL)];
        reply := Minted(live, fam);
      } else {
        families := families - {fam};
        reply := Rejected;
      }
    }
  }

  /** One rotation concerns one family: every other unexpired one is as before. */
  lemma OtherFamiliesUntouched(families: Families, claims: Claims, now: nat, newJti: Id, other: Id)
    requires claims.fam != Some(other) && other in families && families[other].exp > now
    ensures other in Rotated(families, claims, now, newJti).0
    ensures Rotated(families, claims, now, newJti).0[other] == families[other]
  {
  }

  // ---------------------------------------------------------------- runs

  datatype Event =
    | SignIn(now: nat, newJti: Id, newFam: Id)
    | Refresh(now: nat, claims: Claims, newJti: Id)
    | Reload(now: nat, saved: Run)  // a restart, from the map that was last saved

  /** A run from the empty registry, newest event last. */
  datatype Run = Start | After(past: Run, event: Event)

  /** The registry after a run. A restart reads the file back and prunes it; a save may have failed, so
      the file holds the map of the run so far or of some earlier part of it. */
  function Final(run: Run): Families {
    match run
    case Start => map[]
    case After(past, SignIn(now, jti, fam)) => Registered(Final(past), now, jti, fam)
    case After(past, Refresh(now, claims, jti)) => Rotated(Final(past), claims, now, jti).0
    case After(past, Reload(now, saved)) => Pruned(Final(saved), now)
  }

  /** What `event` is answered after `past`; a restart answers nobody. */
  function Answer(past: Run, event: Event): Reply {
    match event
    case SignIn(now, jti, fam) => Minted(jti, fam)
    case Refresh(now, claims, jti) => Rotated(Final(past), claims, now, jti).1
    case Reload(_, _) => Rejected
  }

  function Clock(run: Run): nat {
    match run
    case Start => 0
    case After(_, event) => event.now
  }

  function GeneratedIds(run: Run): set<Id> {
    match run
    case Start => {}
    case After(past, event) => GeneratedIds(past) + if event.Reload? then {} else {event.newJti}
  }

  function GeneratedFams(run: Run): set<Id> {
    match run
    case Start => {}
    case After(past, event) => GeneratedFams(past) + if event.SignIn? then {event.newFam} else {}
  }

  /** `run` is how `more` began. */
  predicate Extends(more: Run, run: Run) {
    more == run || (more.After? && Extends(more.past, run))
  }

  /** The clock never runs backwards, restarts find an earlier map, and generated ids never repeat. */
  predicate ValidRun(run: Run) {
    match run
    case Start => true
    case After(past, event) => ValidRun(past) && MayFollow(past, event)
  }

  predicate MayFollow(past: Run, event: Event) {
    && Clock(past) <= event.now
    && (event.Reload? ==> Extends(past, event.saved))
    && (!event.Reload? ==> event.newJti !in GeneratedIds(past))
    && (event.SignIn? ==> event.newFam !in GeneratedFams(past))
  }

  // ---------------------------------------------------------------- reading the log

  /** Every id handed out for `fam` that no failed save has lost, in order, a re-issued one again. */
  function Issued(run: Run, fam: Id): seq<Id> {
    match run
    case Start => []
    case After(_, Reload(_, saved)) => Issued(saved, fam)
    case After(past, event) =>
      match Answer(past, event)
      case Minted(jti, f) => if f == fam then Issued(past, fam) + [jti] else Issued(past, fam)
      case Rejected => Issued(past, fam)
  }

  /** The ids of a family with each re-issue folded into the id it repeats. */
  function Chain(ids: seq<Id>): (chain: seq<Id>)
    ensures ids != [] ==> chain != [] && chain[|chain| - 1] == ids[|ids| - 1]
  {
    if |ids| < 2 then ids
    else Chain(ids[..|ids| - 1]) + if ids[|ids| - 1] == ids[|ids| - 2] then [] else [ids[|ids| - 1]]
  }

  /** When `fam` was last handed a token. */
  function LastMint(run: Run, fam: Id): nat {
    match run
    case Start => 0
    case After(_, Reload(_, saved)) => LastMint(saved, fam)
    case After(past, event) =>
      match Answer(past, event)
      case Minted(_, f) => if f == fam then event.now else LastMint(past, fam)
      case Rejected => LastMint(past, fam)
  }

  predicate Expired(run: Run, fam: Id, now: nat) {
    LastMint(run, fam) + REFRESH_TOKEN_TTL <= now
  }

  /** Some refresh of the known, unexpired `fam` was turned down. */
  predicate Revoked(run: Run, fam: Id) {
    match run
    case Start => false
    case After(_, Reload(_, saved)) => Revoked(saved, fam)
    case After(past, event) =>
      || Revoked(past, fam)
      || (&& !Elsewhere(event, fam) && event.Refresh?
          && Issued(past, fam) != [] && !Expired(past, fam, event.now)
          && Answer(past, event) == Rejected)
  }

  predicate Usable(run: Run, fam: Id, now: nat) {
    Issued(run, fam) != [] && !Revoked(run, fam) && !Expired(run, fam, now)
  }

  /** The event is no sign-in of `fam` and no refresh naming it. */
  predicate Elsewhere(event: Event, fam: Id) {
    && (event.SignIn? ==> event.newFam != fam)
    && (event.Refresh? ==> event.claims.jti == None || event.claims.fam != Some(fam))
  }

  // ---------------------------------------------------------------- the log decides

  /** The three fields a family must have, given the ids its login was handed. */
  function FamilyOf(ids: seq<Id>, lastMint: nat): Family
    requires ids != []
  {
    var chain := Chain(ids);
    var n := |chain|;
    Family(chain[n - 1], if n >= 2 then Some(chain[n - 2]) else None, lastMint + REFRESH_TOKEN_TTL)
  }

  ghost predicate AgreesOn(run: Run, f: Id) {
    && (f in Final(run) <==> Usable(run, f, Clock(run)))
    && (f in Final(run) ==> Final(run)[f] == FamilyOf(Issued(run, f), LastMint(run, f)))
    && (forall id | id in Issued(run, f) :: id in GeneratedIds(run))
    && (Issued(run, f) != [] ==> f in GeneratedFams(run))
    && (Revoked(run, f) ==> Issued(run, f) != [])
  }

  lemma ChainSnoc(ids: seq<Id>, id: Id)
    ensures Chain(ids + [id]) == if ids != [] && id == ids[|ids| - 1] then Chain(ids) else Chain(ids) + [id]
  {
    assert (ids + [id])[..|ids|] == ids;
  }

  lemma StepElsewhere(past: Run, event: Event, f: Id)
    requires MayFollow(past, event) && AgreesOn(past, f) && Elsewhere(event, f) && !event.Reload?
    ensures AgreesOn(After(past, event), f)
  {
    hide Chain;
    var run, now := After(past, event), event.now;
    assert f in Final(run) <==> f in Final(past) && Final(past)[f].exp > now;
    assert f in Final(run) ==> Final(run)[f] == Final(past)[f];
    assert Issued(run, f) == Issued(past, f) && LastMint(run, f) == LastMint(past, f);
    assert Revoked(run, f) == Revoked(past, f);
  }

  lemma StepSignIn(past: Run, event: Event, f: Id)
    requires MayFollow(past, event) && AgreesOn(past, f) && event.SignIn? && event.newFam == f
    ensures AgreesOn(After(past, event), f)
  {
    assert Issued(past, f) == [];
    assert Issued(After(past, event), f) == [event.newJti];
    assert Chain([event.newJti]) == [event.newJti];
  }

  /** The part of the log about `f` after an event answered by `Minted(jti, f)`. */
  lemma AfterMint(past: Run, event: Event, jti: Id, f: Id)
    requires !event.Reload? && Answer(past, event) == Minted(jti, f)
    ensures var run := After(past, event);
      && Issued(run, f) == Issued(past, f) + [jti] && LastMint(run, f) == event.now
      && Revoked(run, f) == Revoked(past, f)
  {
  }

  lemma StepMint(past: Run, event: Event, f: Id)
    requires MayFollow(past, event) && AgreesOn(past, f) && event.Refresh? && !Elsewhere(event, f)
    requires Answer(past, event).Minted?
    ensures AgreesOn(After(past, event), f)
  {
    var run, ids := After(past, event), Issued(past, f);
    assert f in Final(past) && Usable(past, f, event.now);
    var jti := Answer(past, event).jti;
    AfterMint(past, event, jti, f);
    ChainSnoc(ids, jti);
    assert jti == event.newJti || jti == ids[|ids| - 1];
    assert Usable(run, f, event.now) && f in GeneratedFams(run);
    assert f in Final(run) && Final(run)[f] == FamilyOf(ids + [jti], event.now);
  }

  lemma StepReject(past: Run, event: Event, f: Id)
    requires MayFollow(past, event) && AgreesOn(past, f) && event.Refresh? && !Elsewhere(event, f)
    requires Answer(past, event) == Rejected
    ensures AgreesOn(After(past, event), f)
  {
    hide Chain;
    var run := After(past, event);
    assert Issued(run, f) == Issued(past, f) && LastMint(run, f) == LastMint(past, f);
    assert f !in Final(run);
  }

  lemma {:induction false} WhatWasSaved(past: Run, saved: Run)
    requires ValidRun(past) && Extends(past, saved)
    ensures ValidRun(saved) && Clock(saved) <= Clock(past)
    ensures GeneratedIds(saved) <= GeneratedIds(past) && GeneratedFams(saved) <= GeneratedFams(past)
  {
    if past != saved { WhatWasSaved(past.past, saved); }
  }

  lemma StepReload(past: Run, event: Event, f: Id)
    requires ValidRun(After(past, event)) && event.Reload? && AgreesOn(event.saved, f)
    ensures AgreesOn(After(past, event), f)
  {
    hide Chain;
    WhatWasSaved(past, event.saved);
    var run, saved := After(past, event), event.saved;
    assert f in Final(run) <==> f in Final(saved) && Final(saved)[f].exp > event.now;
    assert f in Final(run) ==> Final(run)[f] == Final(saved)[f];
  }

  /** In every valid run the registry's fields are exactly what the log says. */
  lemma {:induction false} RegistryAgreesWithLog(run: Run, f: Id)
    requires ValidRun(run)
    ensures AgreesOn(run, f)
  {
    match run
    case Start =>
    case After(past, Reload(_, saved)) =>
      WhatWasSaved(past, saved);
      RegistryAgreesWithLog(saved, f);
      StepReload(past, run.event, f);
    case After(past, event) =>
      RegistryAgreesWithLog(past, f);
      if Elsewhere(event, f) { StepElsewhere(past, event, f); }
      else if event.SignIn? { StepSignIn(past, event, f); }
      else if Answer(past, event).Minted? { StepMint(past, event, f); }
      else { StepReject(past, event, f); }
  }

  // ---------------------------------------------------------------- what a client observes

  lemma KeptAgrees(run: Run, now: nat, fam: Id)
    requires ValidRun(run) && Clock(run) <= now
    ensures fam in Pruned(Final(run), now) <==> Usable(run, fam, now)
    ensures Usable(run, fam, now) ==> Pruned(Final(run), now)[fam] == FamilyOf(Issued(run, fam), LastMint(run, fam))
  {
    RegistryAgreesWithLog(run, fam);
    hide FamilyOf, ValidRun;
  }

  /** The reply the protocol owes to `jti`, given the ids its login was handed. */
  function Owed(ids: seq<Id>, usable: bool, jti: Id, fam: Id, newJti: Id): Reply {
    var chain := Chain(ids);
    var n := |chain|;
    if n == 0 || !usable then Rejected
    else if jti == chain[n - 1] then Minted(newJti, fam)
    else if n >= 2 && jti == chain[n - 2] then Minted(chain[n - 1], fam)
    else Rejected
  }

  lemma FamilyAnswers(kept: Families, ids: seq<Id>, lastMint: nat, now: nat, jti: Id, fam: Id, newJti: Id)
    requires fam in kept && ids != [] && kept[fam] == FamilyOf(ids, lastMint)
    ensures
      Owed(ids, true, jti, fam, newJti) ==
        if kept[fam].live == jti then Minted(newJti, fam)
        else if kept[fam].prev == Some(jti) then Minted(kept[fam].live, fam)
        else Rejected
  {
    hide Chain;
  }

  /** A refresh of `fam` is answered by the log alone. */
  lemma AnsweredByTheLog(run: Run, now: nat, jti: Id, fam: Id, newJti: Id)
    requires ValidRun(run) && Clock(run) <= now
    ensures Answer(run, Refresh(now, Claims(Some(jti), Some(fam)), newJti))
      == Owed(Issued(run, fam), Usable(run, fam, now), jti, fam, newJti)
  {
    KeptAgrees(run, now, fam);
    var ids, kept := Issued(run, fam), Pruned(Final(run), now);
    if fam in kept {
      FamilyAnswers(kept, ids, LastMint(run, fam), now, jti, fam, newJti);
    }
    hide Chain, Usable, Final, ValidRun, Pruned, Issued;
  }

  predicate NoRepeats(ids: seq<Id>) {
    forall i, j | 0 <= i < j < |ids| :: ids[i] != ids[j]
  }

  /** An id is minted for a family either for the first time or as its newest one again. */
  lemma MintedIsNewOrNewest(past: Run, event: Event, jti: Id, fam: Id)
    requires ValidRun(After(past, event)) && !event.Reload? && Answer(past, event) == Minted(jti, fam)
    ensures
      var ids := Issued(past, fam);
      jti !in ids || (ids != [] && jti == ids[|ids| - 1])
  {
    RegistryAgreesWithLog(past, fam);
  }

  ghost predicate Folds(ids: seq<Id>) {
    NoRepeats(Chain(ids)) && forall id :: id in Chain(ids) <==> id in ids
  }

  lemma FoldsSnoc(ids: seq<Id>, id: Id)
    requires Folds(ids) && (id !in ids || (ids != [] && id == ids[|ids| - 1]))
    ensures Folds(ids + [id])
  {
    ChainSnoc(ids, id);
    hide Chain;
  }

  /** The ids in a chain are all different, so "older" is a matter of position. */
  lemma {:induction false} ChainHasNoRepeats(run: Run, fam: Id)
    requires ValidRun(run)
    ensures Folds(Issued(run, fam))
  {
    match run
    case Start =>
    case After(past, Reload(_, saved)) =>
      WhatWasSaved(past, saved);
      ChainHasNoRepeats(saved, fam);
    case After(past, event) =>
      ChainHasNoRepeats(past, fam);
      match Answer(past, event)
      case Minted(jti, f) =>
        if f == fam {
          MintedIsNewOrNewest(past, event, jti, fam);
          FoldsSnoc(Issued(past, fam), jti);
        }
      case Rejected =>
  }

  /** A known family that is revoked, or idle for the whole lifetime of its last token. */
  predicate Dead(run: Run, fam: Id) {
    Issued(run, fam) != [] && (Revoked(run, fam) || Expired(run, fam, Clock(run)))
  }

  /** `more` goes on from `run` and nothing of `run` was lost to a failed save. */
  predicate Continues(more: Run, run: Run) {
    more == run || (more.After? && Continues(if more.event.Reload? then more.event.saved else more.past, run))
  }

  /** With every save successful, going on from a run is the same as beginning with it. */
  predicate AllSaved(run: Run) {
    run.After? ==> AllSaved(run.past) && (run.event.Reload? ==> run.event.saved == run.past)
  }

  lemma {:induction false} SavedRunsContinue(more: Run, run: Run)
    requires AllSaved(more)
    ensures Continues(more, run) <==> Extends(more, run)
  {
    if more != run && more.After? { SavedRunsContinue(more.past, run); }
  }

  /** Death is final: as long as no failed save loses it, nothing is ever minted again for a dead family. */
  lemma {:induction false} DeadStaysDead(run: Run, more: Run, fam: Id)
    requires ValidRun(more) && Continues(more, run) && Dead(run, fam)
    ensures Dead(more, fam) && Issued(more, fam) == Issued(run, fam)
  {
    if more != run {
      if more.event.Reload? {
        WhatWasSaved(more.past, more.event.saved);
        DeadStaysDead(run, more.event.saved, fam);
      } else {
        DeadStaysDead(run, more.past, fam);
        RegistryAgreesWithLog(more.past, fam);
      }
    }
  }

  const LOGIN := After(Start, SignIn(1, 10, 1))
  const REVOKED := After(LOGIN, Refresh(2, Claims(Some(99), Some(1)), 11))
  const RESTARTED := After(REVOKED, Reload(3, LOGIN))

  /** A revoke whose save failed is undone by a restart: the family's id is accepted again. */
  lemma UnsavedRevokeComesBack()
    ensures ValidRun(After(RESTARTED, Refresh(4, Claims(Some(10), Some(1)), 12)))
    ensures Dead(REVOKED, 1) && Extends(RESTARTED, REVOKED) && !Continues(RESTARTED, REVOKED)
    ensures Answer(RESTARTED, Refresh(4, Claims(Some(10), Some(1)), 12)) == Minted(12, 1)
  {
    var family := Family(10, None, 1 + REFRESH_TOKEN_TTL);
    assert Final(LOGIN) == map[1 := family];
    assert Final(REVOKED) == map[];
    assert Issued(LOGIN, 1) == [10] && Answer(LOGIN, REVOKED.event) == Rejected;
    assert Revoked(REVOKED, 1);
    assert Final(RESTARTED) == map[1 := family];
    assert ValidRun(LOGIN) && ValidRun(REVOKED) && ValidRun(RESTARTED);
  }

  /** Presenting any id but the newest two, and in particular any older issued id, ends the family. */
  lemma ReuseRevokes(run: Run, now: nat, jti: Id, fam: Id, newJti: Id)
    requires Usable(run, fam, now)
    requires ValidRun(After(run, Refresh(now, Claims(Some(jti), Some(fam)), newJti)))
    requires var chain := Chain(Issued(run, fam));
      jti != chain[|chain| - 1] && (|chain| >= 2 ==> jti != chain[|chain| - 2])
    ensures Dead(After(run, Refresh(now, Claims(Some(jti), Some(fam)), newJti)), fam)
    ensures fam !in Final(After(run, Refresh(now, Claims(Some(jti), Some(fam)), newJti)))
  {
    var after := After(run, Refresh(now, Claims(Some(jti), Some(fam)), newJti));
    assert ValidRun(run) && Clock(run) <= now;
    hide Rotated, Registered, Pruned, ValidRun, Final, FamilyOf, Answer, Chain;
    AnsweredByTheLog(run, now, jti, fam, newJti);
    RegistryAgreesWithLog(after, fam);
  }

  /** A mint sets the family's expiry to that of the token minted. */
  lemma FamilyCoversItsTokens(past: Run, event: Event, fam: Id)
    requires ValidRun(After(past, event)) && Answer(past, event).Minted? && Answer(past, event).fam == fam
    ensures fam in Final(After(past, event))
    ensures Final(After(past, event))[fam].exp == event.now + REFRESH_TOKEN_TTL
  {
    RegistryAgreesWithLog(After(past, event), fam);
  }

  lemma {:induction false} LastMintIsPast(run: Run, fam: Id)
    requires ValidRun(run)
    ensures LastMint(run, fam) <= Clock(run)
  {
    match run
    case Start =>
    case After(past, Reload(_, saved)) =>
      WhatWasSaved(past, saved);
      LastMintIsPast(saved, fam);
    case After(past, _) => LastMintIsPast(past, fam);
  }

  lemma {:induction false} LastMintOnlyAdvances(run: Run, more: Run, fam: Id)
    requires ValidRun(more) && Continues(more, run)
    ensures LastMint(run, fam) <= LastMint(more, fam)
  {
    if more != run {
      if more.event.Reload? {
        WhatWasSaved(more.past, more.event.saved);
        LastMintOnlyAdvances(run, more.event.saved, fam);
      } else {
        LastMintOnlyAdvances(run, more.past, fam);
        LastMintIsPast(more.past, fam);
      }
    }
  }

  /** While a family lives it outlives every token ever minted for it. */
  lemma LivingFamilyCoversEveryToken(past: Run, event: Event, more: Run, fam: Id)
    requires ValidRun(more) && Continues(more, After(past, event)) && fam in Final(more)
    requires Answer(past, event).Minted? && Answer(past, event).fam == fam
    ensures Final(more)[fam].exp >= event.now + REFRESH_TOKEN_TTL
  {
    hide Final, Issued, Revoked, ValidRun, Chain;
    RegistryAgreesWithLog(more, fam);
    LastMintOnlyAdvances(After(past, event), more, fam);
    assert LastMint(After(past, event), fam) == event.now;
  }

  lemma NotYetExpired(run: Run, fam: Id, minted: nat, now: nat)
    requires LastMint(run, fam) == minted && now < minted + REFRESH_TOKEN_TTL
    ensures !Expired(run, fam, now)
  {
  }

  /** The id before the newest is honoured every time until the next advance, not only once. */
  lemma RetryIsHonouredAgain(run: Run, now: nat, later: nat, fam: Id, id: Id, id': Id)
    requires Usable(run, fam, now) && |Chain(Issued(run, fam))| >= 2
    requires now <= later < now + REFRESH_TOKEN_TTL
    requires var chain := Chain(Issued(run, fam));
      ValidRun(After(run, Refresh(now, Claims(Some(chain[|chain| - 2]), Some(fam)), id)))
    ensures
      var chain := Chain(Issued(run, fam));
      var n := |chain|;
      var claims := Claims(Some(chain[n - 2]), Some(fam));
      var after := After(run, Refresh(now, claims, id));
      && Answer(run, Refresh(now, claims, id)) == Minted(chain[n - 1], fam)
      && Answer(after, Refresh(later, claims, id')) == Minted(chain[n - 1], fam)
      && Chain(Issued(after, fam)) == chain
  {
    var ids := Issued(run, fam);
    var chain := Chain(ids);
    var n := |chain|;
    var event := Refresh(now, Claims(Some(chain[n - 2]), Some(fam)), id);
    var after := After(run, event);
    assert ValidRun(run) && Clock(run) <= now;
    hide Rotated, Registered, Pruned, Final, FamilyOf, Answer, Chain, ValidRun, Expired, Issued, Revoked, LastMint;
    ChainHasNoRepeats(run, fam);
    assert chain[n - 2] != chain[n - 1];
    AnsweredByTheLog(run, now, chain[n - 2], fam, id);
    AfterMint(run, event, chain[n - 1], fam);
    ChainSnoc(ids, chain[n - 1]);
    assert Usable(after, fam, later) by { NotYetExpired(after, fam, now, later); }
    AnsweredByTheLog(after, later, chain[n - 2], fam, id');
  }
}
