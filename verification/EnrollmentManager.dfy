/**
 * EnrollInvite as the service runs it: reads and conditional writes on a shared store, with other
 * callers allowed in between every two of them.
 */
module EnrollmentManager {
  import opened Wrappers
  import opened Enrollment
  import opened EnrollmentHistory
  import opened EnrollmentOwnership
  import opened EnrollmentRecovery
  import opened EnrollmentTermination

  // What any number of other calls, releases aside, may have done to the store meanwhile.
  ghost predicate Drifts(s: Store, t: Store) {
    Advances(s, t) && Climbs(s, t) && ReservationsKept(s, t, {}) && KeyedById(t)
  }

  /** Every step of every call of the state machine other than a release is such a drift. */
  lemma StepsDrift(organization: string, s: Store, process: Process, c: Choice)
    requires Admitted(process.request) && Typed(process) && !process.request.ReleaseInvite?
    requires Sound(organization, process) && SpentIfPast(s, process) && Fresh(s, process) && KeyedById(s)
    requires OwnsOrIsBarred(organization, s, process) && HoldsRecord(s, process)
    ensures Drifts(s, StepProcess(organization, s, process, c).store)
  {
    hide StepProcess;
    StepKeeps(organization, s, process, c);
    ProcessClimbs(organization, s, process, c);
    StepOwnsItsClaim(organization, s, process, c);
  }

  lemma DriftsTransitive(a: Store, b: Store, c: Store)
    requires Drifts(a, b) && Drifts(b, c)
    ensures Drifts(a, c)
  {
  }

  // Starting a call or minting a token is one too.
  lemma EventDrifts(organization: string, w: World, e: Event)
    requires Climbing(organization, w) && Owned(organization, w) && NoRelease(e)
    ensures var v := Next(organization, w, e); Climbing(organization, v) && Owned(organization, v) && Drifts(w.store, v.store)
  {
    hide StepProcess;
    NextClimbs(organization, w, e, 0);
    NextOwned(organization, w, e);
    if e.Step? && e.process in w.processes {
      StepsDrift(organization, w.store, w.processes[e.process], e.choice);
    }
  }

  /**
   * A drift is what any events without a release do to the store, from any world such events reach:
   * calls of every kind starting, stepping and dying, and tokens minted, in any order.
   */
  lemma {:induction false} RunsDrift(organization: string, w: World, events: seq<Event>)
    requires Climbing(organization, w) && Owned(organization, w) && forall e <- events :: NoRelease(e)
    ensures Drifts(w.store, Run(organization, w, events).store)
    decreases |events|
  {
    hide Drifts, Climbing, Owned;
    if events == [] {
      EmptyDrift(organization, w);
    } else {
      var v := Next(organization, w, events[0]);
      EventDrifts(organization, w, events[0]);
      RunsDrift(organization, v, events[1..]);
      DriftsTransitive(w.store, v.store, Run(organization, v, events[1..]).store);
    }
  }

  lemma EmptyDrift(organization: string, w: World)
    requires Climbing(organization, w)
    ensures Drifts(w.store, w.store)
  {
  }

  predicate Reserved(s: Store, token: Token, install: InstallRecord) {
    token.id in s.invites && ReservedFor(s.invites[token.id].record, install)
  }

  function RankAt(s: Store, id: string, key: string): (rank: nat)
    ensures rank <= MAX_RANK
  {
    InviteRankAt(s, id) + InstallRankAt(s, key)
  }

  // The token is one this organization minted: nothing a drift can take back.
  predicate InviteKnown(organization: string, s: Store, token: Token) {
    && token.organization == organization && token.id in s.invites && s.invites[token.id].record.schema == SCHEMA_VERSION
    && TokenVerifies(token, s.invites[token.id].record.id, s.invites[token.id].record.secretDigest)
  }

  predicate GrantKnown(organization: string, s: Store, token: Token) {
    && token.organization == organization && token.id in s.grants && s.grants[token.id].record.schema == SCHEMA_VERSION
    && TokenVerifies(token, s.grants[token.id].record.id, s.grants[token.id].record.secretDigest)
  }

  lemma TokensStayKnown(organization: string, s: Store, t: Store, token: Token)
    requires Drifts(s, t)
    ensures InviteKnown(organization, s, token) ==> InviteKnown(organization, t, token)
    ensures GrantKnown(organization, s, token) ==> GrantKnown(organization, t, token)
  {
  }

  // What a success leaves behind: the install this very request asked for, active under its token.
  predicate InviteStands(organization: string, s: Store, token: Token, requested: InstallRecord) {
    var install := Normalized(organization, requested);
    InviteKnown(organization, s, token) && InstallActive(s, install) && Reserved(s, token, install)
  }

  predicate GrantStands(organization: string, s: Store, token: Token, requested: InstallRecord) {
    GrantKnown(organization, s, token) && IdentityActive(s, Normalized(organization, requested))
  }

  // What a caller may rely on after a drift.
  lemma DriftFacts(s: Store, t: Store, id: string, key: string)
    requires Drifts(s, t)
    ensures KeyedById(t)
    ensures id in s.invites ==> id in t.invites && (t.invites[id] == s.invites[id] || InviteRankAt(t, id) > InviteRankAt(s, id))
    ensures key in s.installs ==> key in t.installs && (t.installs[key] == s.installs[key] || InstallRankAt(t, key) > InstallRankAt(s, key))
    ensures InviteRankAt(s, id) <= InviteRankAt(t, id) && InstallRankAt(s, key) <= InstallRankAt(t, key)
    ensures id in s.invites && s.invites[id].record.reservedInstall != "" ==>
              && t.invites[id].record.reservedInstall == s.invites[id].record.reservedInstall
              && t.invites[id].record.reservedDigest == s.invites[id].record.reservedDigest
  {
  }

  lemma ReserveDrifts(s: Store, id: string, record: InviteRecord)
    requires KeyedById(s) && id in s.invites && record.reservedInstall != ""
    requires s.invites[id].record.reservedInstall == ""
    requires record == s.invites[id].record.(reservedInstall := record.reservedInstall, reservedDigest := record.reservedDigest, reservedAt := record.reservedAt)
    ensures Drifts(s, Apply(s, PutInvite(id, record)))
    ensures id in Apply(s, PutInvite(id, record)).invites && Apply(s, PutInvite(id, record)).invites[id].record == record
  {
    InviteWriteDrifts(s, id, record);
  }

  lemma InviteWriteDrifts(s: Store, id: string, record: InviteRecord)
    requires KeyedById(s) && id in s.invites && InviteAdvances(s.invites[id].record, record)
    requires InviteRank(record) > InviteRankAt(s, id)
    requires s.invites[id].record.reservedInstall != "" ==>
               record.reservedInstall == s.invites[id].record.reservedInstall && record.reservedDigest == s.invites[id].record.reservedDigest
    ensures Drifts(s, Apply(s, PutInvite(id, record)))
    ensures Apply(s, PutInvite(id, record)).invites[id].record == record
    ensures Apply(s, PutInvite(id, record)).installs == s.installs
  {
  }

  lemma InstallWriteDrifts(s: Store, key: string, record: InstallRecord)
    requires KeyedById(s) && record.installId == key
    requires key in s.installs ==> InstallAdvances(s.installs[key].record, record) && Order(record.status) > InstallRankAt(s, key)
    ensures Drifts(s, Apply(s, PutInstall(key, record)))
    ensures key in Apply(s, PutInstall(key, record)).installs
    ensures Apply(s, PutInstall(key, record)).installs[key].record == record
    ensures Apply(s, PutInstall(key, record)).invites == s.invites
  {
  }

  lemma StaysPut(s: Store)
    requires KeyedById(s)
    ensures Drifts(s, s)
  {
  }

  // --- the undisturbed call, stage by stage ------------------------------------------------------

  datatype Answer = Answer(store: Store, verdict: Verdict)

  function FromActivate(s: Store, install: InstallRecord, now: int, survivals: nat): Answer
    requires install.installId in s.installs
  {
    var current := s.installs[install.installId].record;
    Answer(Apply(s, PutInstall(install.installId, current.(status := Active, updatedAt := now))),
           if survivals > 0 then Enrolled else Failed)
  }

  function FromSpend(s: Store, id: string, install: InstallRecord, now: int, survivals: nat): Answer
    requires id in s.invites && install.installId in s.installs
  {
    var inv := s.invites[id].record;
    if inv.spentAt.Some? then FromActivate(s, install, now, survivals)
    else
      var t := Apply(s, PutInvite(id, inv.(spentAt := Some(now))));
      if survivals == 0 then Answer(t, Failed) else FromActivate(t, install, now, survivals - 1)
  }

  function FromEnsure(s: Store, id: string, install: InstallRecord, now: int, survivals: nat): Answer
    requires id in s.invites
  {
    if install.installId !in s.installs then
      var t := Apply(s, PutInstall(install.installId, PendingInstall(install, now)));
      if survivals == 0 then Answer(t, Failed) else FromSpend(t, id, install, now, survivals - 1)
    else if InstallRefused(s, install) then Answer(s, EnrollmentConflict)
    else if InstallActive(s, install) then Answer(s, Enrolled)
    else FromSpend(s, id, install, now, survivals)
  }

  function FromReserve(s: Store, id: string, install: InstallRecord, now: int, survivals: nat): Answer
    requires id in s.invites
  {
    var t := Apply(s, PutInvite(id, ReservedInvite(s.invites[id].record, install, now)));
    if survivals == 0 then Answer(t, Failed) else FromEnsure(t, id, install, now, survivals - 1)
  }

  function Undisturbed(organization: string, s: Store, token: Token, requested: InstallRecord, now: int, survivals: nat): Answer {
    var install := Normalized(organization, requested);
    if !Passes(organization, s, token, install, now) then Answer(s, Forbidden)
    else if s.invites[token.id].record.reservedInstall == "" then FromReserve(s, token.id, install, now, survivals)
    else FromEnsure(s, token.id, install, now, survivals)
  }

  lemma UndisturbedMakesTheWrites(organization: string, s: Store, token: Token, requested: InstallRecord, now: int, survivals: nat)
    ensures var writes := EnrollWrites(organization, s, token, requested, now);
      Undisturbed(organization, s, token, requested, now, survivals)
      == if |writes| <= survivals then Answer(ApplyAll(s, writes), EnrollVerdict(organization, s, token, requested, now))
         else Answer(ApplyAll(s, writes[..survivals + 1]), Failed)
  {
    var writes := EnrollWrites(organization, s, token, requested, now);
    assert writes[..|writes|] == writes;
    ApplyAllPrefixes(s, writes, if |writes| <= survivals then |writes| else survivals + 1);
  }

  // A stage of the call goes on, answers, or lost a conditional write and starts over.
  datatype Turn = Go | Stop(verdict: Verdict) | Retry

  class Manager {
    const organization: string
    var store: Store
    // The call dies right after this many more writes were survived.
    var survivals: nat

    constructor (organization: string, store: Store, survivals: nat)
      ensures this.organization == organization && this.store == store && this.survivals == survivals
    {
      this.organization, this.store, this.survivals := organization, store, survivals;
    }

    // Other callers run here; a quiet store has none.
    method Interfere(quiet: bool)
      requires KeyedById(store)
      modifies this`store
      ensures Drifts(old(store), store)
      ensures quiet ==> store == old(store)
    {
    }

    method Time(quiet: bool, now: int) returns (t: int)
      ensures quiet ==> t == now
    {
      t := now;
    }

    method After() returns (alive: bool)
      modifies this`survivals
      ensures alive == (old(survivals) > 0)
      ensures survivals == if alive then old(survivals) - 1 else 0
    {
      alive := survivals > 0;
      if alive { survivals := survivals - 1; }
    }

    method ReplaceInvite(id: string, read: Versioned<InviteRecord>, record: InviteRecord) returns (ok: bool)
      modifies this`store
      ensures ok ==> id in old(store).invites && old(store).invites[id].record == read.record
                     && store == Apply(old(store), PutInvite(id, record))
      ensures !ok ==> store == old(store) && !(id in store.invites && store.invites[id] == read)
    {
      var lenient: bool := *;
      ok := Accepts(store.invites, id, read, lenient);
      if ok { store := store.(invites := Replaced(store.invites, id, read, record, lenient).value); }
    }

    method ReplaceInstall(key: string, read: Versioned<InstallRecord>, record: InstallRecord) returns (ok: bool)
      modifies this`store
      ensures ok ==> key in old(store).installs && old(store).installs[key].record == read.record
                     && store == Apply(old(store), PutInstall(key, record))
      ensures !ok ==> store == old(store) && !(key in store.installs && store.installs[key] == read)
    {
      var lenient: bool := *;
      ok := Accepts(store.installs, key, read, lenient);
      if ok { store := store.(installs := Replaced(store.installs, key, read, record, lenient).value); }
    }

    method CreateInstall(key: string, record: InstallRecord) returns (ok: bool)
      modifies this`store
      ensures ok == (key !in old(store).installs)
      ensures store == if ok then Apply(old(store), PutInstall(key, record)) else old(store)
    {
      match Created(store.installs, key, record)
      case Some(installs) => store := store.(installs := installs); ok := true;
      case None => ok := false;
    }

    // First write: reserve a free invite for this request.
    method Reserve(token: Token, install: InstallRecord, inv: Versioned<InviteRecord>, t: int, quiet: bool) returns (next: Turn)
      requires KeyedById(store) && token.id in store.invites && install.installId != ""
      requires store.invites[token.id] == inv && inv.record.reservedInstall == ""
      modifies this
      ensures Drifts(old(store), store)
      ensures next.Stop? ==> next.verdict == Failed
      ensures next.Retry? ==> !quiet && RankAt(store, token.id, install.installId) > RankAt(old(store), token.id, install.installId)
      ensures next.Go? ==> token.id in store.invites && ReservedFor(store.invites[token.id].record, install)
      ensures quiet && next.Go? ==>
        FromReserve(old(store), token.id, install, t, old(survivals)) == FromEnsure(store, token.id, install, t, survivals)
      ensures quiet && next.Stop? ==>
        FromReserve(old(store), token.id, install, t, old(survivals)) == Answer(store, next.verdict)
    {
      hide Advances, Climbs, Apply, InviteRank;
      Interfere(quiet);
      ghost var seen := store;
      DriftFacts(old(store), seen, token.id, install.installId);
      var reserved := inv.record.(reservedInstall := install.installId, reservedDigest := Some(install.digest), reservedAt := Some(t));
      var ok := ReplaceInvite(token.id, inv, reserved);
      if !ok { return Retry; }
      ReserveDrifts(seen, token.id, reserved);
      DriftsTransitive(old(store), seen, store);
      DriftFacts(old(store), store, token.id, install.installId);
      var alive := After();
      next := if alive then Go else Stop(Failed);
    }

    // Second write: the pending install, unless one is stored already.
    method EnsureInstall(token: Token, install: InstallRecord, t: int, quiet: bool) returns (next: Turn)
      requires KeyedById(store) && token.id in store.invites && install.schema == SCHEMA_VERSION
      modifies this
      ensures Drifts(old(store), store)
      ensures token.id in store.invites && (next.Go? ==> install.installId in store.installs)
      ensures next.Go? ==>
        SameEnrollment(store.installs[install.installId].record, install) && store.installs[install.installId].record.status == Pending
      ensures quiet && next.Go? ==> !InstallRefused(store, install) && !InstallActive(store, install)
      ensures next.Stop? ==>
        match next.verdict
        case EnrollmentConflict => InstallRefused(store, install)
        case Enrolled => InstallActive(store, install)
        case verdict => verdict == Failed
      ensures next.Retry? ==> !quiet && RankAt(store, token.id, install.installId) > RankAt(old(store), token.id, install.installId)
      ensures quiet && next.Go? ==>
        FromEnsure(old(store), token.id, install, t, old(survivals)) == FromSpend(store, token.id, install, t, survivals)
      ensures quiet && next.Stop? ==>
        FromEnsure(old(store), token.id, install, t, old(survivals)) == Answer(store, next.verdict)
    {
      hide Advances, Climbs, Apply;
      Interfere(quiet);
      var key := install.installId;
      DriftFacts(old(store), store, token.id, key);
      if key !in store.installs {
        ghost var absent := store;
        Interfere(quiet);
        ghost var seen := store;
        DriftFacts(absent, seen, token.id, key);
        DriftsTransitive(old(store), absent, seen);
        var pending := install.(status := Pending, createdAt := t, updatedAt := t);
        var ok := CreateInstall(key, pending);
        if !ok { return Retry; }
        InstallWriteDrifts(seen, key, pending);
        DriftsTransitive(old(store), seen, store);
        DriftFacts(old(store), store, token.id, key);
        var alive := After();
        return if alive then Go else Stop(Failed);
      }
      var current := store.installs[key].record;
      if !SameEnrollment(current, install) || current.status == Revoked { return Stop(EnrollmentConflict); }
      next := if current.status == Active then Stop(Enrolled) else Go;
    }

    // Third write: mark the invite spent, whatever else its record says by now.
    method SpendInvite(token: Token, install: InstallRecord, now: int, quiet: bool) returns (next: Turn)
      requires KeyedById(store) && token.id in store.invites && install.installId in store.installs
      modifies this
      ensures Drifts(old(store), store)
      ensures next.Stop? ==> next.verdict == Failed
      ensures next.Retry? ==> !quiet && RankAt(store, token.id, install.installId) > RankAt(old(store), token.id, install.installId)
      ensures token.id in store.invites && install.installId in store.installs
      ensures next.Go? ==> store.invites[token.id].record.spentAt.Some?
      ensures quiet ==> InstallRefused(store, install) == InstallRefused(old(store), install)
      ensures quiet ==> InstallActive(store, install) == InstallActive(old(store), install)
      ensures quiet && next.Go? ==>
        FromSpend(old(store), token.id, install, now, old(survivals)) == FromActivate(store, install, now, survivals)
      ensures quiet && next.Stop? ==>
        FromSpend(old(store), token.id, install, now, old(survivals)) == Answer(store, next.verdict)
    {
      hide Advances, Climbs, Apply;
      Interfere(quiet);
      DriftFacts(old(store), store, token.id, install.installId);
      var inv := store.invites[token.id];
      if inv.record.spentAt.Some? { return Go; }
      var spent := Time(quiet, now);
      ghost var before := store;
      Interfere(quiet);
      ghost var seen := store;
      DriftFacts(before, seen, token.id, install.installId);
      DriftsTransitive(old(store), before, seen);
      var record := inv.record.(spentAt := Some(spent));
      var ok := ReplaceInvite(token.id, inv, record);
      if !ok { return Retry; }
      InviteWriteDrifts(seen, token.id, record);
      DriftsTransitive(old(store), seen, store);
      var alive := After();
      next := if alive then Go else Stop(Failed);
    }

    // Fourth write: the pending install becomes active.
    method ActivateInstall(token: Token, install: InstallRecord, now: int, quiet: bool) returns (next: Turn)
      requires KeyedById(store) && install.installId in store.installs
      modifies this
      ensures Drifts(old(store), store)
      ensures !next.Go?
      ensures next.Stop? ==>
        match next.verdict
        case EnrollmentConflict => InstallRefused(store, install)
        case Enrolled => InstallActive(store, install)
        case verdict => verdict == Failed
      ensures next.Retry? ==> !quiet && RankAt(store, token.id, install.installId) > RankAt(old(store), token.id, install.installId)
      ensures quiet && !InstallRefused(old(store), install) && !InstallActive(old(store), install) ==>
        FromActivate(old(store), install, now, old(survivals)) == Answer(store, next.verdict)
    {
      hide Advances, Climbs, Apply;
      Interfere(quiet);
      var key := install.installId;
      DriftFacts(old(store), store, token.id, key);
      var current := store.installs[key];
      if current.record.status == Active {
        return Stop(if SameEnrollment(current.record, install) then Enrolled else EnrollmentConflict);
      }
      if current.record.status != Pending || !SameEnrollment(current.record, install) { return Stop(EnrollmentConflict); }
      var activated := Time(quiet, now);
      ghost var before := store;
      Interfere(quiet);
      ghost var seen := store;
      DriftFacts(before, seen, token.id, key);
      DriftsTransitive(old(store), before, seen);
      var record := current.record.(status := Active, updatedAt := activated);
      var ok := ReplaceInstall(key, current, record);
      if !ok { return Retry; }
      InstallWriteDrifts(seen, key, record);
      DriftsTransitive(old(store), seen, store);
      var alive := After();
      next := Stop(if alive then Enrolled else Failed);
    }

    // One pass over the four writes, until it answers or loses a conditional write.
    method Attempt(token: Token, requested: InstallRecord, now: int, quiet: bool) returns (next: Turn)
      requires KeyedById(store) && requested.installId != ""
      modifies this
      ensures Drifts(old(store), store)
      ensures !next.Go?
      ensures next.Retry? ==> !quiet && RankAt(store, token.id, requested.installId) > RankAt(old(store), token.id, requested.installId)
      ensures next == Stop(Enrolled) ==> InviteStands(organization, store, token, requested)
      ensures next == Stop(EnrollmentConflict) ==> InstallRefused(store, Normalized(organization, requested))
      ensures next == Stop(Forbidden) ==> store == old(store) && survivals == old(survivals)
      ensures quiet ==>
        Undisturbed(organization, old(store), token, requested, now, old(survivals)) == Answer(store, next.verdict)
    {
      hide Drifts, InviteRankAt, InstallRankAt, Apply, FromReserve, FromEnsure, FromSpend, FromActivate,
        InstallActive, InstallRefused, KeyedById;
      StaysPut(store);
      ghost var s0 := store;
      ghost var expected := Undisturbed(organization, store, token, requested, now, survivals);
      if token.organization != organization || token.id !in store.invites { return Stop(Forbidden); }
      var inv := store.invites[token.id];
      var t := Time(quiet, now);
      var install := Normalized(organization, requested);
      if !InviteUsable(inv.record, token, install, t) { return Stop(Forbidden); }
      assert InviteKnown(organization, s0, token);

      next := Go;
      if inv.record.reservedInstall == "" {
        next := Reserve(token, install, inv, t, quiet);
        DriftFacts(s0, store, token.id, install.installId);
      }
      if next.Go? {
        assert quiet ==> expected == FromEnsure(store, token.id, install, now, survivals);
        ghost var s1 := store;
        next := EnsureInstall(token, install, t, quiet);
        DriftsTransitive(s0, s1, store);
        DriftFacts(s1, store, token.id, install.installId);
        DriftFacts(s0, store, token.id, install.installId);
      }
      if next.Go? {
        assert quiet ==> expected == FromSpend(store, token.id, install, now, survivals);
        ghost var s2 := store;
        next := SpendInvite(token, install, now, quiet);
        DriftsTransitive(s0, s2, store);
        DriftFacts(s2, store, token.id, install.installId);
      }
      if next.Go? {
        assert quiet ==> expected == FromActivate(store, install, now, survivals);
        ghost var s3 := store;
        next := ActivateInstall(token, install, now, quiet);
        DriftsTransitive(s0, s3, store);
        DriftFacts(s0, s3, token.id, install.installId);
        DriftFacts(s3, store, token.id, install.installId);
      }
      TokensStayKnown(organization, s0, store, token);
    }

    /**
     * Interference or not, the call terminates, only advances records, and tells the truth about the
     * install when it answers. Undisturbed, it performs the closed-form writes in order, up to the one
     * it dies after, and gives the closed-form verdict.
     */
    method EnrollInvite(token: Token, requested: InstallRecord, now: int, quiet: bool) returns (verdict: Verdict)
      requires KeyedById(store) && requested.installId != ""
      modifies this
      ensures Drifts(old(store), store)
      ensures verdict == Enrolled ==> InviteStands(organization, store, token, requested)
      ensures verdict == Enrolled ==>
        token.organization == organization && token.id in store.invites && store.invites[token.id].record.secretDigest == Sha256(token.secret)
      ensures verdict == EnrollmentConflict ==> InstallRefused(store, Normalized(organization, requested))
      ensures quiet && verdict == Forbidden ==> survivals == old(survivals)
      ensures quiet ==>
        var writes := EnrollWrites(organization, old(store), token, requested, now);
        if |writes| <= old(survivals)
        then store == ApplyAll(old(store), writes) && verdict == EnrollVerdict(organization, old(store), token, requested, now)
        else store == ApplyAll(old(store), writes[..old(survivals) + 1]) && verdict == Failed
      decreases MAX_RANK - RankAt(store, token.id, requested.installId)
    {
      hide Drifts, RankAt, EnrollWrites, ApplyAll, InstallActive, InstallRefused, Undisturbed;
      UndisturbedMakesTheWrites(organization, store, token, requested, now, survivals);
      var next := Attempt(token, requested, now, quiet);
      if next.Stop? { return next.verdict; }
      ghost var lost := store;
      DriftFacts(old(store), lost, token.id, requested.installId);
      verdict := EnrollInvite(token, requested, now, false);
      DriftsTransitive(old(store), lost, store);
    }

    /**
     * A grant enrolls active at once, or confirms the same identity enrolled before, however often its
     * request changed since.
     */
    method EnrollGrant(token: Token, requested: InstallRecord, now: int, quiet: bool) returns (verdict: Verdict)
      requires KeyedById(store) && requested.installId != ""
      modifies this`store
      ensures Drifts(old(store), store)
      ensures verdict == Enrolled ==> GrantStands(organization, store, token, requested)
      ensures verdict == Enrolled ==>
        token.organization == organization && token.id in store.grants && store.grants[token.id].record.secretDigest == Sha256(token.secret)
      ensures verdict == EnrollmentConflict ==>
        requested.installId in store.installs && !IdentityActive(store, Normalized(organization, requested))
      ensures verdict == Forbidden ==> store == old(store)
      ensures verdict == Enrolled || verdict == EnrollmentConflict || verdict == Forbidden
      ensures quiet ==>
        && verdict == GrantVerdict(organization, old(store), token, requested, now)
        && store == ApplyAll(old(store), GrantWrites(organization, old(store), token, requested, now))
    {
      hide Drifts;
      StaysPut(store);
      ghost var s0 := store;
      if token.organization != organization || token.id !in store.grants { return Forbidden; }
      var grant := store.grants[token.id].record;
      var t := Time(quiet, now);
      if !GrantUsable(grant, token, t) { return Forbidden; }
      assert GrantKnown(organization, s0, token);
      var install := Normalized(organization, requested);
      Interfere(quiet);
      ghost var s1 := store;
      DriftFacts(s0, s1, "", install.installId);
      var ok := CreateInstall(install.installId, ActiveInstall(install, t));
      if ok {
        InstallWriteDrifts(s1, install.installId, ActiveInstall(install, t));
        DriftsTransitive(s0, s1, store);
        TokensStayKnown(organization, s0, store, token);
        return Enrolled;
      }
      Interfere(quiet);
      DriftFacts(s1, store, "", install.installId);
      DriftsTransitive(s0, s1, store);
      TokensStayKnown(organization, s0, store, token);
      var current := store.installs[install.installId].record;
      verdict := if current.status == Active && SameIdentity(current, install) then Enrolled else EnrollmentConflict;
    }
  }

  /**
   * A success whose answer was lost is not lost: after any further drift the identical request is
   * answered with success exactly when nobody revoked the invite or the install; and it writes nothing.
   */
  lemma LostSuccessIsRecovered(organization: string, s: Store, t: Store, token: Token, requested: InstallRecord, now: int)
    requires InviteStands(organization, s, token, requested) && requested.installId != "" && Drifts(s, t)
    ensures token.id in t.invites && requested.installId in t.installs
    ensures EnrollVerdict(organization, t, token, requested, now) == Enrolled
       <==> t.invites[token.id].record.revokedAt.None? && t.installs[requested.installId].record.status != Revoked
    ensures EnrollWrites(organization, t, token, requested, now) == []
  {
  }

  /**
   * Nor is a grant's: the grant, or a later request for the same identity with it, is answered with
   * success exactly when the grant is neither revoked nor expired by then and the install not revoked.
   */
  lemma LostGrantIsRecovered(
      organization: string, s: Store, t: Store, token: Token, requested: InstallRecord, again: InstallRecord, now: int)
    requires GrantStands(organization, s, token, requested) && Drifts(s, t)
    requires again.installId == requested.installId && again.devicePublicKey == requested.devicePublicKey
    requires again.ageRecipient == requested.ageRecipient
    ensures token.id in t.grants && again.installId in t.installs
    ensures GrantVerdict(organization, t, token, again, now) == Enrolled
       <==> && t.grants[token.id].record.revokedAt.None? && now < t.grants[token.id].record.expiresAt
            && t.installs[again.installId].record.status != Revoked
    ensures GrantWrites(organization, t, token, again, now) == []
  {
  }
}
