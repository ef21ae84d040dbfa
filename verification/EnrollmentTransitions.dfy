/**
 * What each call may write, and the status transitions that leaves: an install is created pending by
 * an invite or active by a grant, a pending one is activated by its invite call or revoked, and a
 * revoked one stays revoked.
 */
module EnrollmentTransitions {
  import opened Wrappers
  import opened Enrollment
  import opened EnrollmentHistory
  import opened EnrollmentRecovery
  import opened EnrollmentRace

  // --- the writes of each kind of call ----------------------------------------------------------

  // Not more than the record of one invite, stored already, was rewritten.
  predicate RewritesInvite(s: Store, t: Store, id: string) {
    id in s.invites && id in t.invites && t == Apply(s, PutInvite(id, t.invites[id].record))
  }

  // Not more than the record of one install was created or rewritten.
  predicate WritesInstall(s: Store, t: Store, key: string) {
    key in t.installs && t == Apply(s, PutInstall(key, t.installs[key].record))
  }

  predicate Reserves(s: Store, t: Store, id: string, install: InstallRecord) {
    && RewritesInvite(s, t, id)
    && s.invites[id].record.reservedInstall == "" && s.invites[id].record.spentAt.None?
    && t.invites[id].record.reservedAt.Some?
    && t.invites[id].record == ReservedInvite(s.invites[id].record, install, t.invites[id].record.reservedAt.value)
  }

  predicate Spends(s: Store, t: Store, id: string) {
    && RewritesInvite(s, t, id) && s.invites[id].record.spentAt.None? && t.invites[id].record.spentAt.Some?
    && t.invites[id].record == s.invites[id].record.(spentAt := t.invites[id].record.spentAt)
  }

  predicate Registers(s: Store, t: Store, install: InstallRecord) {
    && WritesInstall(s, t, install.installId) && install.installId !in s.installs
    && t.installs[install.installId].record == PendingInstall(install, t.installs[install.installId].record.createdAt)
  }

  predicate Activates(s: Store, t: Store, install: InstallRecord) {
    var key := install.installId;
    && WritesInstall(s, t, key) && key in s.installs
    && s.installs[key].record.status == Pending && SameEnrollment(s.installs[key].record, install)
    && t.installs[key].record == s.installs[key].record.(status := Active, updatedAt := t.installs[key].record.updatedAt)
  }

  predicate RegistersActive(s: Store, t: Store, install: InstallRecord) {
    && WritesInstall(s, t, install.installId) && install.installId !in s.installs
    && t.installs[install.installId].record == ActiveInstall(install, t.installs[install.installId].record.createdAt)
  }

  predicate RevokesInvite(s: Store, t: Store, id: string) {
    && RewritesInvite(s, t, id) && s.invites[id].record.revokedAt.None? && t.invites[id].record.revokedAt.Some?
    && t.invites[id].record == s.invites[id].record.(revokedAt := t.invites[id].record.revokedAt)
  }

  predicate RevokesGrant(s: Store, t: Store, id: string) {
    && id in s.grants && id in t.grants && t == s.(grants := Put(s.grants, id, t.grants[id].record))
    && s.grants[id].record.revokedAt.None? && t.grants[id].record.revokedAt.Some?
    && t.grants[id].record == s.grants[id].record.(revokedAt := t.grants[id].record.revokedAt)
  }

  predicate RevokesInstall(s: Store, t: Store, key: string) {
    && WritesInstall(s, t, key) && key in s.installs && s.installs[key].record.status != Revoked
    && var a, b := s.installs[key].record, t.installs[key].record;
       b.revokedAt == Some(b.updatedAt) && b == a.(status := Revoked, revokedAt := b.revokedAt, updatedAt := b.updatedAt)
  }

  predicate ReleasesInvite(s: Store, t: Store, id: string) {
    && RewritesInvite(s, t, id) && s.invites[id].record.spentAt.None? && s.invites[id].record.reservedInstall != ""
    && t.invites[id].record == Unreserved(s.invites[id].record)
  }

  // What a call with this request may do to the store in one step, if anything.
  predicate MayWrite(organization: string, s: Store, t: Store, request: Request) {
    match request
    case EnrollInvite(Some(token), requested) =>
      var install := Normalized(organization, requested);
      Reserves(s, t, token.id, install) || Registers(s, t, install) || Spends(s, t, token.id) || Activates(s, t, install)
    case EnrollGrant(Some(_), requested) => RegistersActive(s, t, Normalized(organization, requested))
    case RevokeInvite(id) => RevokesInvite(s, t, id)
    case RevokeGrant(id) => RevokesGrant(s, t, id)
    case RevokeInstall(id) => RevokesInstall(s, t, id)
    case ReleaseInvite(id) => ReleasesInvite(s, t, id)
    case _ => false
  }

  /**
   * Whatever a call read and however long ago, the write it makes is still right for the record it
   * lands on: only a free, unspent invite is reserved, only an unspent one spent or released, only a
   * pending install of the same enrollment activated, only an absent one created, only an unrevoked
   * record revoked; and nothing else changes.
   */
  lemma EnrollInviteWrites(organization: string, s: Store, process: Process, c: Choice)
    requires EnrollsWith(process) && Sound(organization, process)
    ensures var e := StepEnrollInvite(organization, s, process.request.token.value, process.request.install, process.pc, c);
      && (e.store == s || MayWrite(organization, s, e.store, process.request))
      && (e.activated <==> Activates(s, e.store, Normalized(organization, process.request.install)))
  {
    var token := process.request.token.value;
    var install := Normalized(organization, process.request.install);
    var e := StepEnrollInvite(organization, s, token, process.request.install, process.pc, c);
    if e.store != s {
      if process.pc.Reserve? {
        assert Reserves(s, e.store, token.id, install);
      } else if process.pc.CreateInstall? {
        assert Registers(s, e.store, install);
      } else if process.pc.Spend? {
        assert Spends(s, e.store, token.id);
      } else {
        assert Activates(s, e.store, install);
      }
    }
  }

  /** A grant call creates its own install, active, where none is stored; that is all it ever writes. */
  lemma EnrollGrantWrites(organization: string, s: Store, process: Process, c: Choice)
    requires process.request.EnrollGrant? && process.request.token.Some?
    ensures var e := StepEnrollGrant(organization, s, process.request.token.value, process.request.install, process.pc, c);
      && (e.store != s ==> process.pc.CreateActive? && MayWrite(organization, s, e.store, process.request))
      && (e.pc == Done(Enrolled) && !process.pc.Done? ==>
            IdentityActive(e.store, Normalized(organization, process.request.install)))
  {
  }

  predicate IsRevoked(s: Store, request: Request)
    requires request.RevokeGrant? || request.RevokeInvite? || request.RevokeInstall?
  {
    match request
    case RevokeGrant(id) => id in s.grants && s.grants[id].record.revokedAt.Some?
    case RevokeInvite(id) => id in s.invites && s.invites[id].record.revokedAt.Some?
    case RevokeInstall(id) => id in s.installs && s.installs[id].record.status == Revoked
  }

  /**
   * A revocation writes its one record, and only when it was not revoked yet. When it reports success
   * the record is revoked; when it reports a conflict or a missing record it wrote nothing.
   */
  lemma RevokeWrites(organization: string, s: Store, process: Process, c: Choice)
    requires process.request.RevokeGrant? || process.request.RevokeInvite? || process.request.RevokeInstall?
    requires Sound(organization, process) && Revoking(process)
    ensures var e := StepRevoke(s, process.request, process.pc, c);
      && (e.store != s ==> MayWrite(organization, s, e.store, process.request) && !IsRevoked(s, process.request) && e.pc == Done(Applied))
      && (e.pc == Done(Applied) && !process.pc.Done? ==> IsRevoked(e.store, process.request))
      && (IsRevoked(s, process.request) ==> e.store == s)
  {
    var e := StepRevoke(s, process.request, process.pc, c);
    match process.request
    case RevokeGrant(id) => if e.store != s { assert RevokesGrant(s, e.store, id); }
    case RevokeInvite(id) => if e.store != s { assert RevokesInvite(s, e.store, id); }
    case RevokeInstall(id) => if e.store != s { assert RevokesInstall(s, e.store, id); }
  }

  // A revocation writes the kind of record it names.
  predicate Revoking(process: Process) {
    (process.pc.WriteGrant? ==> process.request.RevokeGrant?) && (process.pc.WriteInvite? ==> process.request.RevokeInvite?)
    && (process.pc.WriteInstall? ==> process.request.RevokeInstall?)
  }

  /**
   * A release clears the reservation of its one invite, never of a spent one, and touches no install.
   * It is refused exactly when the invite is spent, or its reserved install stored and not revoked.
   */
  lemma ReleaseWrites(organization: string, s: Store, process: Process, c: Choice)
    requires process.request.ReleaseInvite? && Sound(organization, process)
    ensures var id, e := process.request.id, StepRelease(s, process.request.id, process.pc, c);
      && (e.store != s ==> ReleasesInvite(s, e.store, id) && e.pc == Done(Applied) && e.store.installs == s.installs)
      && (e.pc == Done(Applied) && !process.pc.Done? ==> id in e.store.invites && e.store.invites[id].record.reservedInstall == "")
      && (process.pc.ReadTarget? ==> (e.pc == Done(Refused) <==> Spent(s, id)))
      && (process.pc.ReadReserved? ==>
            (e.pc == Done(Refused) <==>
              var key := process.pc.invite.record.reservedInstall;
              key in s.installs && s.installs[key].record.status != Revoked))
  {
    var id, e := process.request.id, StepRelease(s, process.request.id, process.pc, c);
    if e.store != s { assert ReleasesInvite(s, e.store, id); }
  }

  lemma StepWrites(organization: string, s: Store, process: Process, c: Choice)
    requires Sound(organization, process) && Revoking(process)
    ensures var e := StepProcess(organization, s, process, c);
      && (e.store == s || MayWrite(organization, s, e.store, process.request))
      && (EnrollsWith(process) ==> (e.activated <==> Activates(s, e.store, Normalized(organization, process.request.install))))
      && Revoking(process.(pc := e.pc))
  {
    hide StepEnrollInvite, StepEnrollGrant, StepRelease, StepRevoke, MayWrite, Activates;
    StepKeepsKind(organization, s, process, c);
    if EnrollsWith(process) { NoWriteActivatesNothing(s, Normalized(organization, process.request.install)); }
    match process.request
    case EnrollInvite(Some(_), _) => EnrollInviteWrites(organization, s, process, c);
    case EnrollGrant(Some(_), _) => EnrollGrantWrites(organization, s, process, c);
    case ReleaseInvite(_) =>
      ReleaseWrites(organization, s, process, c);
      MayRelease(organization, s, process, c);
    case EnrollInvite(None, _) =>
    case EnrollGrant(None, _) =>
    case _ => RevokeWrites(organization, s, process, c);
  }

  lemma NoWriteActivatesNothing(s: Store, install: InstallRecord)
    ensures !Activates(s, s, install)
  {
  }

  lemma MayRelease(organization: string, s: Store, process: Process, c: Choice)
    requires process.request.ReleaseInvite?
    ensures var e := StepRelease(s, process.request.id, process.pc, c);
      ReleasesInvite(s, e.store, process.request.id) ==> MayWrite(organization, s, e.store, process.request)
  {
  }

  lemma StepKeepsKind(organization: string, s: Store, process: Process, c: Choice)
    requires Revoking(process)
    ensures Revoking(process.(pc := StepProcess(organization, s, process, c).pc))
  {
  }

  // --- installs over runs -----------------------------------------------------------------------

  function StatusAt(s: Store, key: string): Option<InstallStatus> {
    if key in s.installs then Some(s.installs[key].record.status) else None
  }

  // The transitions a step of a call with this request may make of the install under `key`.
  predicate Moves(request: Request, key: string, before: Option<InstallStatus>, after: Option<InstallStatus>) {
    match request
    case EnrollInvite(_, install) =>
      key == install.installId && ((before == None && after == Some(Pending)) || (before == Some(Pending) && after == Some(Active)))
    case EnrollGrant(_, install) => key == install.installId && before == None && after == Some(Active)
    case RevokeInstall(id) => key == id && (before == Some(Pending) || before == Some(Active)) && after == Some(Revoked)
    case _ => false
  }

  lemma WritesMove(organization: string, s: Store, t: Store, request: Request, key: string)
    requires MayWrite(organization, s, t, request)
    ensures StatusAt(s, key) == StatusAt(t, key) || Moves(request, key, StatusAt(s, key), StatusAt(t, key))
  {
  }

  ghost predicate Settled(organization: string, w: World) {
    Consistent(organization, w) && forall p <- w.processes :: Revoking(w.processes[p])
  }

  /**
   * In every reachable world an event moves the status of an install only by a step of a call on that
   * install: an invite call from absent to pending or from pending to active, which it then records as
   * its activation; a grant call from absent to active; a revocation from pending or active to revoked.
   */
  lemma EveryMoveIsACalls(organization: string, w: World, e: Event, key: string)
    requires Settled(organization, w)
    ensures var v := Next(organization, w, e);
      && Settled(organization, v)
      && (StatusAt(w.store, key) != StatusAt(v.store, key) ==>
            && e.Step? && e.process in w.processes
            && var request := w.processes[e.process].request;
               && Moves(request, key, StatusAt(w.store, key), StatusAt(v.store, key))
               && (request.EnrollInvite? && StatusAt(v.store, key) == Some(Active) ==>
                     request.token.Some? && (request.token.value.id, key) in v.activations))
  {
    hide StepProcess;
    NextAdvances(organization, w, e);
    if e.Step? && e.process in w.processes {
      var process := w.processes[e.process];
      var effect := StepProcess(organization, w.store, process, e.choice);
      StepWrites(organization, w.store, process, e.choice);
      if effect.store != w.store {
        WritesMove(organization, w.store, effect.store, process.request, key);
      }
    }
  }

  // Some call asked for just this.
  ghost predicate CalledFor(w: World, key: string, status: InstallStatus) {
    exists p <- w.processes :: Brings(w.processes[p].request, key, status)
  }

  predicate Brings(request: Request, key: string, status: InstallStatus) {
    match status
    case Pending => request.EnrollInvite? && request.install.installId == key
    case Active => request.EnrollGrant? && request.install.installId == key
    case Revoked => request.RevokeInstall? && request.id == key
  }

  ghost predicate Activated(w: World, key: string) { exists a <- w.activations :: a.1 == key }

  // Every install's status is accounted for by a call.
  ghost predicate Explained(w: World) {
    forall k <- w.store.installs :: ExplainedAt(w, k)
  }

  ghost predicate ExplainedAt(w: World, key: string)
    requires key in w.store.installs
  {
    var status := w.store.installs[key].record.status;
    CalledFor(w, key, status) || (status == Active && Activated(w, key))
  }

  lemma NextExplained(organization: string, w: World, e: Event)
    requires Settled(organization, w) && Explained(w)
    ensures Settled(organization, Next(organization, w, e)) && Explained(Next(organization, w, e))
  {
    hide StepProcess, Moves, Settled;
    var v := Next(organization, w, e);
    EveryMoveIsACalls(organization, w, e, "");
    CallsRemain(organization, w, e);
    forall key <- v.store.installs ensures ExplainedAt(v, key) {
      EveryMoveIsACalls(organization, w, e, key);
      if StatusAt(w.store, key) == StatusAt(v.store, key) {
        assert ExplainedAt(w, key);
      } else {
        MoveIsExplained(w, v, e.process, key);
      }
    }
  }

  lemma CallsRemain(organization: string, w: World, e: Event)
    requires Settled(organization, w)
    ensures var v := Next(organization, w, e);
      && w.activations <= v.activations
      && forall p <- w.processes :: p in v.processes && v.processes[p].request == w.processes[p].request
  {
    hide StepProcess;
  }

  lemma MoveIsExplained(w: World, v: World, p: nat, key: string)
    requires p in w.processes && p in v.processes && v.processes[p].request == w.processes[p].request
    requires key in v.store.installs
    requires var request := w.processes[p].request;
      && Moves(request, key, StatusAt(w.store, key), StatusAt(v.store, key))
      && (request.EnrollInvite? && StatusAt(v.store, key) == Some(Active) ==>
            request.token.Some? && (request.token.value.id, key) in v.activations)
    ensures ExplainedAt(v, key)
  {
    var request, status := v.processes[p].request, v.store.installs[key].record.status;
    if !Brings(request, key, status) {
      assert (request.token.value.id, key) in v.activations;
    }
  }

  lemma {:induction false} RunExplained(organization: string, w: World, events: seq<Event>)
    requires Settled(organization, w) && Explained(w)
    ensures Settled(organization, Run(organization, w, events)) && Explained(Run(organization, w, events))
    decreases |events|
  {
    if events != [] {
      NextExplained(organization, w, events[0]);
      RunExplained(organization, Next(organization, w, events[0]), events[1..]);
    }
  }

  /**
   * However calls interleave and die: a pending install has an invite call, an active one a grant call
   * or an invite that activated it and is spent, and a revoked one a revocation, each naming it.
   */
  lemma NoStatusFromNowhere(organization: string, events: seq<Event>, key: string)
    ensures var w := Run(organization, EMPTY, events);
      key in w.store.installs ==>
        match w.store.installs[key].record.status
        case Pending => exists p <- w.processes :: w.processes[p].request.EnrollInvite? && w.processes[p].request.install.installId == key
        case Active =>
          || (exists p <- w.processes :: w.processes[p].request.EnrollGrant? && w.processes[p].request.install.installId == key)
          || (exists a <- w.activations :: a.1 == key && Spent(w.store, a.0))
        case Revoked => exists p <- w.processes :: w.processes[p].request == RevokeInstall(key)
  {
    RunExplained(organization, EMPTY, events);
    var w := Run(organization, EMPTY, events);
    if key in w.store.installs {
      assert ExplainedAt(w, key);
    }
  }

  // --- active may be skipped --------------------------------------------------------------------

  // The call that had reserved its invite goes on to register its install; then it is revoked.
  const REGISTERING: seq<Event> := [Step(0, CALM), Step(0, CALM)]
  const REVOKING: seq<Event> := [Start(1, RevokeInstall("a")), Step(1, CALM), Step(1, CALM)]

  /** An administrator may revoke an install that never was active: its invite is not even spent. */
  lemma PendingMayBeRevoked()
    ensures StatusAt(Run("o", EMPTY, RESERVING + REGISTERING).store, "a") == Some(Pending)
    ensures var w := Run("o", EMPTY, RESERVING + REGISTERING + REVOKING);
      StatusAt(w.store, "a") == Some(Revoked) && w.activations == {} && !Spent(w.store, "i")
  {
    hide Run;
    var w := ReservedWorld();
    var v := RegisteredWorld(w);
    var _ := RevokedWorld(v);
    RunAppend("o", EMPTY, RESERVING, REGISTERING);
    RunAppend("o", EMPTY, RESERVING + REGISTERING, REVOKING);
  }

  const PENDING := Machine("a").(createdAt := 1, updatedAt := 1)

  lemma RegisteredWorld(w: World) returns (v: World)
    requires w == World(
      Store(map["i" := Versioned(RESERVED, 1)], map[], map[]),
      map[0 := Process(EnrollInvite(Some(TOKEN), Machine("a")), ReadInstall(1))], {})
    ensures v == Run("o", w, REGISTERING)
    ensures v == World(
      Store(map["i" := Versioned(RESERVED, 1)], map[], map["a" := Versioned(PENDING, 0)]),
      map[0 := Process(EnrollInvite(Some(TOKEN), Machine("a")), RereadInvite)], {})
  {
    hide Run;
    var w1 := Next("o", w, REGISTERING[0]);
    assert w1.processes[0].pc == CreateInstall(1);
    v := Next("o", w1, REGISTERING[1]);
    RunOfTwo(w, REGISTERING);
  }

  lemma RunOfTwo(w: World, events: seq<Event>)
    requires |events| == 2
    ensures Run("o", w, events) == Next("o", Next("o", w, events[0]), events[1])
  {
    assert events[1..] == [events[1]];
    var v := Next("o", w, events[0]);
    assert Run("o", v, [events[1]]) == Run("o", Next("o", v, events[1]), [events[1]][1..]);
  }

  lemma RevokedWorld(w: World) returns (v: World)
    requires w == World(
      Store(map["i" := Versioned(RESERVED, 1)], map[], map["a" := Versioned(PENDING, 0)]),
      map[0 := Process(EnrollInvite(Some(TOKEN), Machine("a")), RereadInvite)], {})
    ensures v == Run("o", w, REVOKING)
    ensures StatusAt(v.store, "a") == Some(Revoked) && v.activations == {} && !Spent(v.store, "i")
  {
    hide Run;
    var w1 := Next("o", w, REVOKING[0]);
    var w2 := Next("o", w1, REVOKING[1]);
    assert w2.processes[1].pc == WriteInstall(Versioned(PENDING, 0));
    v := Next("o", w2, REVOKING[2]);
    assert REVOKING[1..] == [REVOKING[1], REVOKING[2]];
    RunOfTwo(w1, REVOKING[1..]);
    FirstEvent(w, REVOKING);
  }

  lemma FirstEvent(w: World, events: seq<Event>)
    requires events != []
    ensures Run("o", w, events) == Run("o", Next("o", w, events[0]), events[1..])
  {
  }
}
