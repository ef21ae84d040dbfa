/**
 * What every interleaving keeps, racing releases included: records only advance, and an install
 * activated by an invite implies that invite is spent.
 */
module EnrollmentHistory {
  import opened Wrappers
  import opened Enrollment

  // What a call's held reads guarantee by the checks that led there.
  predicate Sound(organization: string, process: Process) {
    match process.pc
    case Reserve(read, _) => read.record.reservedInstall == "" && read.record.spentAt.None?
    case Spend(read) => read.record.spentAt.None?
    case Activate(read) =>
      && process.request.EnrollInvite?
      && read.record.status == Pending
      && SameEnrollment(read.record, Normalized(organization, process.request.install))
    case WriteGrant(read) => read.record.revokedAt.None?
    case WriteInvite(read) => read.record.revokedAt.None?
    case WriteInstall(read) => read.record.status != Revoked
    case ReadReserved(read) => read.record.spentAt.None? && read.record.reservedInstall != ""
    case WriteRelease(read) => read.record.spentAt.None? && read.record.reservedInstall != ""
    case _ => true
  }

  // Calls that run only once the invite is spent.
  predicate PastSpend(pc: Pc) { pc.RereadInstall? || pc.Activate? }

  function Order(status: InstallStatus): nat {
    match status
    case Pending => 1
    case Active => 2
    case Revoked => 3
  }

  predicate InstallAdvances(a: InstallRecord, b: InstallRecord) {
    && Order(a.status) <= Order(b.status)
    && b == a.(status := b.status, updatedAt := b.updatedAt, revokedAt := b.revokedAt)
  }

  predicate InviteAdvances(a: InviteRecord, b: InviteRecord) {
    && b.id == a.id && b.schema == a.schema && b.secretDigest == a.secretDigest && b.expiresAt == a.expiresAt
    && (a.spentAt.Some? ==> b.spentAt == a.spentAt)
    && (a.revokedAt.Some? ==> b.revokedAt == a.revokedAt)
  }

  predicate GrantAdvances(a: GrantRecord, b: GrantRecord) {
    b == a.(revokedAt := b.revokedAt) && (a.revokedAt.Some? ==> b.revokedAt == a.revokedAt)
  }

  ghost predicate Advances(s: Store, t: Store) {
    && (forall k <- s.installs :: k in t.installs && InstallAdvances(s.installs[k].record, t.installs[k].record))
    && (forall i <- s.invites :: i in t.invites && InviteAdvances(s.invites[i].record, t.invites[i].record))
    && (forall g <- s.grants :: g in t.grants && GrantAdvances(s.grants[g].record, t.grants[g].record))
  }

  ghost predicate Consistent(organization: string, w: World) {
    && (forall p <- w.processes :: Sound(organization, w.processes[p]))
    && (forall p <- w.processes :: SpentIfPast(w.store, w.processes[p]))
    && (forall a <- w.activations :: Spent(w.store, a.0) && a.1 in w.store.installs && w.store.installs[a.1].record.status != Pending)
    && KeyedById(w.store)
  }

  predicate Spent(s: Store, invite: string) {
    invite in s.invites && s.invites[invite].record.spentAt.Some?
  }

  predicate SpentIfPast(s: Store, process: Process) {
    PastSpend(process.pc) && EnrollsWith(process) ==> Spent(s, process.request.token.value.id)
  }

  ghost predicate KeyedById(s: Store) {
    forall k <- s.installs :: s.installs[k].record.installId == k
  }

  // What one step of a call owes the invariant.
  ghost predicate Keeps(organization: string, s: Store, process: Process, e: Effect) {
    && Advances(s, e.store) && KeyedById(e.store)
    && Sound(organization, process.(pc := e.pc))
    && SpentIfPast(e.store, process.(pc := e.pc))
    && (e.activated && EnrollsWith(process) ==>
          && Spent(e.store, process.request.token.value.id)
          && process.request.install.installId in e.store.installs
          && e.store.installs[process.request.install.installId].record.status == Active)
  }

  lemma InviteWriteAdvances(s: Store, id: string, read: Versioned<InviteRecord>, record: InviteRecord, lenient: bool)
    requires KeyedById(s) && Accepts(s.invites, id, read, lenient) && InviteAdvances(read.record, record)
    ensures var t := s.(invites := Replaced(s.invites, id, read, record, lenient).value);
      Advances(s, t) && KeyedById(t) && t.installs == s.installs && t.invites[id].record == record
  {
  }

  lemma InstallWriteAdvances(s: Store, key: string, read: Versioned<InstallRecord>, record: InstallRecord, lenient: bool)
    requires KeyedById(s) && Accepts(s.installs, key, read, lenient) && InstallAdvances(read.record, record)
    ensures var t := s.(installs := Replaced(s.installs, key, read, record, lenient).value);
      Advances(s, t) && KeyedById(t) && t.invites == s.invites && t.installs[key].record == record
  {
  }

  lemma EnrollInviteKeeps(organization: string, s: Store, process: Process, c: Choice)
    requires EnrollsWith(process)
    requires Sound(organization, process) && SpentIfPast(s, process) && KeyedById(s)
    ensures Keeps(organization, s, process,
                  StepEnrollInvite(organization, s, process.request.token.value, process.request.install, process.pc, c))
  {
    var token := process.request.token.value;
    var install := Normalized(organization, process.request.install);
    match process.pc {
      case Reserve(read, now) =>
        if Accepts(s.invites, token.id, read, c.lenient) {
          var reserved := read.record.(reservedInstall := install.installId, reservedDigest := Some(install.digest), reservedAt := Some(now));
          InviteWriteAdvances(s, token.id, read, reserved, c.lenient);
        }
      case Spend(read) =>
        if Accepts(s.invites, token.id, read, c.lenient) {
          InviteWriteAdvances(s, token.id, read, read.record.(spentAt := Some(c.now)), c.lenient);
        }
      case Activate(read) =>
        if Accepts(s.installs, install.installId, read, c.lenient) {
          InstallWriteAdvances(s, install.installId, read, read.record.(status := Active, updatedAt := c.now), c.lenient);
        }
      case CreateInstall(now) => CreateKeeps(organization, s, process, c);
      case _ => ReadKeeps(organization, s, process, c);
    }
  }

  lemma CreateKeeps(organization: string, s: Store, process: Process, c: Choice)
    requires EnrollsWith(process) && process.pc.CreateInstall?
    requires KeyedById(s)
    ensures Keeps(organization, s, process,
                  StepEnrollInvite(organization, s, process.request.token.value, process.request.install, process.pc, c))
  {
  }

  lemma ReadKeeps(organization: string, s: Store, process: Process, c: Choice)
    requires EnrollsWith(process)
    requires !process.pc.Reserve? && !process.pc.Spend? && !process.pc.Activate? && !process.pc.CreateInstall?
    requires Sound(organization, process) && SpentIfPast(s, process) && KeyedById(s)
    ensures Keeps(organization, s, process,
                  StepEnrollInvite(organization, s, process.request.token.value, process.request.install, process.pc, c))
  {
    var e := StepEnrollInvite(organization, s, process.request.token.value, process.request.install, process.pc, c);
    assert e.store == s && !e.activated;
  }

  lemma EnrollGrantKeeps(organization: string, s: Store, process: Process, c: Choice)
    requires process.request.EnrollGrant? && process.request.token.Some?
    requires Sound(organization, process) && KeyedById(s)
    ensures Keeps(organization, s, process,
                  StepEnrollGrant(organization, s, process.request.token.value, process.request.install, process.pc, c))
  {
    var e := StepEnrollGrant(organization, s, process.request.token.value, process.request.install, process.pc, c);
    if process.pc.CreateActive? {
      assert Advances(s, e.store) && KeyedById(e.store);
    } else {
      assert e.store == s;
    }
  }

  lemma RevokeKeeps(organization: string, s: Store, process: Process, c: Choice)
    requires process.request.RevokeGrant? || process.request.RevokeInvite? || process.request.RevokeInstall?
    requires Sound(organization, process) && KeyedById(s)
    ensures Keeps(organization, s, process, StepRevoke(s, process.request, process.pc, c))
  {
    var id := process.request.id;
    if process.pc.WriteInvite? {
      var read := process.pc.invite;
      if Accepts(s.invites, id, read, c.lenient) {
        InviteWriteAdvances(s, id, read, read.record.(revokedAt := Some(c.now)), c.lenient);
      }
    } else if process.pc.WriteInstall? {
      var read := process.pc.install;
      if Accepts(s.installs, id, read, c.lenient) {
        var revoked := read.record.(status := Revoked, revokedAt := Some(c.now), updatedAt := c.now);
        InstallWriteAdvances(s, id, read, revoked, c.lenient);
      }
    } else if process.pc.WriteGrant? {
      RevokeGrantKeeps(organization, s, process, c);
    } else {
      RevokeReadKeeps(organization, s, process, c);
    }
  }

  lemma RevokeReadKeeps(organization: string, s: Store, process: Process, c: Choice)
    requires process.request.RevokeGrant? || process.request.RevokeInvite? || process.request.RevokeInstall?
    requires Sound(organization, process) && KeyedById(s)
    requires !process.pc.WriteInvite? && !process.pc.WriteInstall? && !process.pc.WriteGrant?
    ensures Keeps(organization, s, process, StepRevoke(s, process.request, process.pc, c))
  {
    var e := StepRevoke(s, process.request, process.pc, c);
    assert e.store == s && !e.activated;
  }

  lemma RevokeGrantKeeps(organization: string, s: Store, process: Process, c: Choice)
    requires process.request.RevokeGrant? || process.request.RevokeInvite? || process.request.RevokeInstall?
    requires Sound(organization, process) && KeyedById(s) && process.pc.WriteGrant?
    ensures Keeps(organization, s, process, StepRevoke(s, process.request, process.pc, c))
  {
    var e := StepRevoke(s, process.request, process.pc, c);
    assert e.store.invites == s.invites && e.store.installs == s.installs && !e.activated && e.pc.Done?;
    if Accepts(s.grants, process.request.id, process.pc.grant, c.lenient) {
      assert GrantAdvances(process.pc.grant.record, e.store.grants[process.request.id].record);
    }
  }

  lemma ReleaseKeeps(organization: string, s: Store, process: Process, c: Choice)
    requires process.request.ReleaseInvite?
    requires Sound(organization, process) && KeyedById(s)
    ensures Keeps(organization, s, process, StepRelease(s, process.request.id, process.pc, c))
  {
    if process.pc.WriteRelease? {
      var read := process.pc.invite;
      if Accepts(s.invites, process.request.id, read, c.lenient) {
        InviteWriteAdvances(s, process.request.id, read, Unreserved(read.record), c.lenient);
      }
    } else {
      assert StepRelease(s, process.request.id, process.pc, c).store == s;
    }
  }

  lemma StepKeeps(organization: string, s: Store, process: Process, c: Choice)
    requires Sound(organization, process) && SpentIfPast(s, process) && KeyedById(s)
    ensures Keeps(organization, s, process, StepProcess(organization, s, process, c))
  {
    hide StepEnrollInvite, StepEnrollGrant, StepRelease, StepRevoke;
    match process.request
    case EnrollInvite(Some(_), _) => EnrollInviteKeeps(organization, s, process, c);
    case EnrollGrant(Some(_), _) => EnrollGrantKeeps(organization, s, process, c);
    case ReleaseInvite(_) => ReleaseKeeps(organization, s, process, c);
    case EnrollInvite(None, _) =>
    case EnrollGrant(None, _) =>
    case _ => RevokeKeeps(organization, s, process, c);
  }

  lemma LandedAdvances(organization: string, w: World, p: nat, e: Effect)
    requires Consistent(organization, w) && p in w.processes
    requires Keeps(organization, w.store, w.processes[p], e)
    ensures Consistent(organization, Landed(w, p, e))
    ensures Advances(w.store, Landed(w, p, e).store)
    ensures w.activations <= Landed(w, p, e).activations
  {
    var v := Landed(w, p, e);
    forall q <- v.processes
      ensures Sound(organization, v.processes[q]) && SpentIfPast(v.store, v.processes[q])
    {
      if q != p { assert SpentIfPast(w.store, w.processes[q]); }
    }
  }

  lemma NextAdvances(organization: string, w: World, e: Event)
    requires Consistent(organization, w)
    ensures Consistent(organization, Next(organization, w, e))
    ensures Advances(w.store, Next(organization, w, e).store)
    ensures w.activations <= Next(organization, w, e).activations
  {
    hide StepProcess;
    if e.Step? && e.process in w.processes {
      var process := w.processes[e.process];
      StepKeeps(organization, w.store, process, e.choice);
      LandedAdvances(organization, w, e.process, StepProcess(organization, w.store, process, e.choice));
    }
  }

  lemma AdvancesTransitive(a: Store, b: Store, c: Store)
    requires Advances(a, b) && Advances(b, c)
    ensures Advances(a, c)
  {
  }

  /**
   * From any consistent world, any further events keep it consistent: an install's identity and
   * digest never change, its status only moves forward and revoked is terminal; a spent invite stays
   * spent; an install an invite activated implies that invite is spent.
   */
  lemma {:induction false} RecordsOnlyAdvance(organization: string, w: World, events: seq<Event>)
    requires Consistent(organization, w)
    ensures Consistent(organization, Run(organization, w, events))
    ensures Advances(w.store, Run(organization, w, events).store)
    ensures w.activations <= Run(organization, w, events).activations
    decreases |events|
  {
    if events != [] {
      var next := Next(organization, w, events[0]);
      NextAdvances(organization, w, events[0]);
      RecordsOnlyAdvance(organization, next, events[1..]);
      AdvancesTransitive(w.store, next.store, Run(organization, next, events[1..]).store);
    }
  }
}
