/**
 * At most one install is activated by an invite, as long as no reservation is released under a call
 * that can still bring its install to active; and that condition is exact.
 */
module EnrollmentOwnership {
  import opened Wrappers
  import opened Enrollment
  import opened EnrollmentHistory

  // Calls that act on a reservation they saw or made.
  predicate Holds(pc: Pc) {
    pc.ReadInstall? || pc.CreateInstall? || pc.RereadInvite? || pc.Spend? || pc.RereadInstall? || pc.Activate?
  }

  // The install this call works on can still go from here to active by this call.
  predicate Activatable(organization: string, s: Store, process: Process)
    requires EnrollsWith(process)
  {
    var install := Normalized(organization, process.request.install);
    var key := install.installId;
    if key !in s.installs then (
      process.pc.ReadInstall? || process.pc.CreateInstall?
    ) else (
      && !process.pc.CreateInstall? && s.installs[key].record.status == Pending
      && SameEnrollment(s.installs[key].record, install)
    )
  }

  // The reservation the call relies on: what it read when it is about to spend, else what is stored.
  predicate Owns(organization: string, s: Store, process: Process)
    requires EnrollsWith(process)
  {
    var install := Normalized(organization, process.request.install);
    var id := process.request.token.value.id;
    if process.pc.Spend? then ReservedFor(process.pc.invite.record, install)
    else id in s.invites && ReservedFor(s.invites[id].record, install)
  }

  predicate OwnsOrIsBarred(organization: string, s: Store, process: Process) {
    EnrollsWith(process) && Holds(process.pc)
    ==> Owns(organization, s, process) || !Activatable(organization, s, process)
  }

  // Some call on `invite` stands between its reservation and its second read of the invite, and its
  // install can still become active: releasing the reservation now lets two installs through.
  predicate Endangers(organization: string, s: Store, process: Process, invite: string) {
    && EnrollsWith(process) && process.request.token.value.id == invite
    && (process.pc.ReadInstall? || process.pc.CreateInstall? || process.pc.RereadInvite?)
    && Activatable(organization, s, process)
  }

  ghost predicate Endangered(organization: string, w: World, invite: string) {
    exists q <- w.processes :: Endangers(organization, w.store, w.processes[q], invite)
  }

  // This step's write clears a reservation.
  predicate Releases(s: Store, process: Process, c: Choice) {
    && c.fault != Before && process.request.ReleaseInvite? && process.pc.WriteRelease?
    && Accepts(s.invites, process.request.id, process.pc.invite, c.lenient)
  }

  function Released(s: Store, process: Process, c: Choice): set<string> {
    if Releases(s, process, c) then {process.request.id} else {}
  }

  ghost predicate SafeRelease(organization: string, w: World, e: Event) {
    e.Step? && e.process in w.processes && Releases(w.store, w.processes[e.process], e.choice)
    ==> !Endangered(organization, w, w.processes[e.process].request.id)
  }

  ghost predicate SafeReleases(organization: string, w: World, events: seq<Event>)
    decreases |events|
  {
    events == [] || (SafeRelease(organization, w, events[0]) && SafeReleases(organization, Next(organization, w, events[0]), events[1..]))
  }

  ghost predicate Owned(organization: string, w: World) {
    && Consistent(organization, w)
    && (forall p <- w.processes :: Admitted(w.processes[p].request) && OwnsOrIsBarred(organization, w.store, w.processes[p]))
    && (forall p <- w.processes :: HoldsRecord(w.store, w.processes[p]))
    && (forall a <- w.activations ::
          a.1 != "" && a.0 in w.store.invites && w.store.invites[a.0].record.reservedInstall == a.1)
  }

  // A call past the install read has an install record to read again; records are never deleted.
  predicate HoldsRecord(s: Store, process: Process) {
    process.pc.RereadInvite? || process.pc.Spend? || process.pc.RereadInstall? || process.pc.Activate? ==>
      process.request.EnrollInvite? ==> process.request.install.installId in s.installs
  }

  ghost predicate AtMostOneEach(w: World) {
    forall a <- w.activations, b <- w.activations :: a.0 == b.0 ==> a.1 == b.1
  }

  // How one step may move a reservation: taken when free, or cleared when unspent.
  ghost predicate ReservationsKept(s: Store, t: Store, released: set<string>) {
    forall i <- s.invites :: i in t.invites &&
      (s.invites[i].record.reservedInstall != "" && i !in released ==>
        && t.invites[i].record.reservedInstall == s.invites[i].record.reservedInstall
        && t.invites[i].record.reservedDigest == s.invites[i].record.reservedDigest)
  }

  // Nothing another call does makes a barred call activatable, or takes away what a call owns.
  lemma OthersKeepOwnership(organization: string, s: Store, t: Store, process: Process, released: set<string>)
    requires Advances(s, t) && KeyedById(s) && ReservationsKept(s, t, released)
    requires Admitted(process.request) && OwnsOrIsBarred(organization, s, process) && HoldsRecord(s, process)
    requires EnrollsWith(process) && process.request.token.value.id in released ==>
               && !PastSpend(process.pc)
               && !Endangers(organization, s, process, process.request.token.value.id)
    ensures OwnsOrIsBarred(organization, t, process) && HoldsRecord(t, process)
  {
    if EnrollsWith(process) && Holds(process.pc) && !Activatable(organization, s, process) {
      assert !Activatable(organization, t, process);
    }
  }

  // What one step of a call owes ownership: its own claim, and everyone else's reservation.
  ghost predicate StepOwns(organization: string, s: Store, process: Process, e: Effect, released: set<string>) {
    && ReservationsKept(s, e.store, released)
    && OwnsOrIsBarred(organization, e.store, process.(pc := e.pc))
    && HoldsRecord(e.store, process.(pc := e.pc))
    && (e.activated && EnrollsWith(process) ==>
          && process.request.token.value.id in e.store.invites
          && e.store.invites[process.request.token.value.id].record.reservedInstall == process.request.install.installId)
  }

  lemma EnrollInviteOwns(organization: string, s: Store, process: Process, c: Choice)
    requires EnrollsWith(process) && Admitted(process.request)
    requires Sound(organization, process) && OwnsOrIsBarred(organization, s, process) && HoldsRecord(s, process)
    ensures StepOwns(organization, s, process,
                     StepEnrollInvite(organization, s, process.request.token.value, process.request.install, process.pc, c), {})
  {
    match process.pc {
      case Reserve(_, _) => WriteInviteOwns(organization, s, process, c);
      case Spend(_) => WriteInviteOwns(organization, s, process, c);
      case CreateInstall(_) => WriteInstallOwns(organization, s, process, c);
      case Activate(_) => WriteInstallOwns(organization, s, process, c);
      case _ => ReadOwns(organization, s, process, c);
    }
  }

  lemma ReadOwns(organization: string, s: Store, process: Process, c: Choice)
    requires EnrollsWith(process) && Admitted(process.request)
    requires !process.pc.Reserve? && !process.pc.Spend? && !process.pc.CreateInstall? && !process.pc.Activate?
    requires OwnsOrIsBarred(organization, s, process) && HoldsRecord(s, process)
    ensures StepOwns(organization, s, process,
                     StepEnrollInvite(organization, s, process.request.token.value, process.request.install, process.pc, c), {})
  {
    var e := StepEnrollInvite(organization, s, process.request.token.value, process.request.install, process.pc, c);
    assert e.store == s;
  }

  lemma WriteInviteOwns(organization: string, s: Store, process: Process, c: Choice)
    requires EnrollsWith(process) && Admitted(process.request) && (process.pc.Reserve? || process.pc.Spend?)
    requires Sound(organization, process) && OwnsOrIsBarred(organization, s, process) && HoldsRecord(s, process)
    ensures StepOwns(organization, s, process,
                     StepEnrollInvite(organization, s, process.request.token.value, process.request.install, process.pc, c), {})
  {
    var e := StepEnrollInvite(organization, s, process.request.token.value, process.request.install, process.pc, c);
    assert e.store.installs == s.installs;
  }

  lemma WriteInstallOwns(organization: string, s: Store, process: Process, c: Choice)
    requires EnrollsWith(process) && Admitted(process.request) && (process.pc.CreateInstall? || process.pc.Activate?)
    requires Sound(organization, process) && OwnsOrIsBarred(organization, s, process) && HoldsRecord(s, process)
    ensures StepOwns(organization, s, process,
                     StepEnrollInvite(organization, s, process.request.token.value, process.request.install, process.pc, c), {})
  {
    var e := StepEnrollInvite(organization, s, process.request.token.value, process.request.install, process.pc, c);
    assert e.store.invites == s.invites;
  }

  lemma StepOwnsItsClaim(organization: string, s: Store, process: Process, c: Choice)
    requires Admitted(process.request)
    requires Sound(organization, process) && OwnsOrIsBarred(organization, s, process) && HoldsRecord(s, process)
    ensures StepOwns(organization, s, process, StepProcess(organization, s, process, c), Released(s, process, c))
  {
    if EnrollsWith(process) {
      EnrollInviteOwns(organization, s, process, c);
    } else {
      OtherRequestOwns(organization, s, process, c);
    }
  }

  lemma OtherRequestOwns(organization: string, s: Store, process: Process, c: Choice)
    requires !EnrollsWith(process)
    ensures StepOwns(organization, s, process, StepProcess(organization, s, process, c), Released(s, process, c))
  {
    match process.request {
      case ReleaseInvite(id) =>
        if !process.pc.WriteRelease? {
          assert StepRelease(s, id, process.pc, c).store == s;
        }
      case EnrollGrant(Some(token), install) =>
        assert StepEnrollGrant(organization, s, token, install, process.pc, c).store.invites == s.invites;
      case EnrollGrant(None, _) =>
      case EnrollInvite(_, _) =>
      case _ => RevokeOwns(s, process, c);
    }
  }

  lemma RevokeOwns(s: Store, process: Process, c: Choice)
    requires process.request.RevokeGrant? || process.request.RevokeInvite? || process.request.RevokeInstall?
    ensures ReservationsKept(s, StepRevoke(s, process.request, process.pc, c).store, {})
  {
  }

  lemma OthersOwned(organization: string, w: World, v: World, released: set<string>, except: set<nat>)
    requires Owned(organization, w) && Advances(w.store, v.store) && ReservationsKept(w.store, v.store, released)
    requires forall i <- released, p <- w.processes :: !Endangers(organization, w.store, w.processes[p], i)
    requires forall i <- released :: !Spent(w.store, i)
    ensures forall p <- w.processes - except ::
      OwnsOrIsBarred(organization, v.store, w.processes[p]) && HoldsRecord(v.store, w.processes[p])
  {
    forall p <- w.processes - except
      ensures OwnsOrIsBarred(organization, v.store, w.processes[p]) && HoldsRecord(v.store, w.processes[p])
    {
      OthersKeepOwnership(organization, w.store, v.store, w.processes[p], released);
    }
  }

  lemma LandedOwned(organization: string, w: World, p: nat, e: Effect, released: set<string>)
    requires Owned(organization, w) && p in w.processes
    requires Keeps(organization, w.store, w.processes[p], e)
    requires StepOwns(organization, w.store, w.processes[p], e, released)
    requires forall i <- released, q <- w.processes :: !Endangers(organization, w.store, w.processes[q], i)
    requires forall i <- released :: !Spent(w.store, i)
    ensures Owned(organization, Landed(w, p, e))
  {
    var v := Landed(w, p, e);
    LandedAdvances(organization, w, p, e);
    OthersOwned(organization, w, v, released, {p});
  }

  lemma NextOwned(organization: string, w: World, e: Event)
    requires Owned(organization, w) && SafeRelease(organization, w, e)
    ensures Owned(organization, Next(organization, w, e))
  {
    hide StepProcess;
    if e.Step? && e.process in w.processes {
      var process := w.processes[e.process];
      var effect := StepProcess(organization, w.store, process, e.choice);
      StepKeeps(organization, w.store, process, e.choice);
      StepOwnsItsClaim(organization, w.store, process, e.choice);
      LandedOwned(organization, w, e.process, effect, Released(w.store, process, e.choice));
    } else {
      NextAdvances(organization, w, e);
      OthersOwned(organization, w, Next(organization, w, e), {}, {});
    }
  }

  lemma {:induction false} RunOwned(organization: string, w: World, events: seq<Event>)
    requires Owned(organization, w) && SafeReleases(organization, w, events)
    ensures Owned(organization, Run(organization, w, events))
    decreases |events|
  {
    if events != [] {
      NextOwned(organization, w, events[0]);
      RunOwned(organization, Next(organization, w, events[0]), events[1..]);
    }
  }

  /**
   * Over every interleaving of enrollments, grants, revocations and releases, with calls dying
   * anywhere: if no release clears a reservation while a call on that invite stands between its
   * reservation and its second read, each invite activates at most one install.
   */
  lemma AtMostOneActivation(organization: string, events: seq<Event>)
    requires SafeReleases(organization, EMPTY, events)
    ensures AtMostOneEach(Run(organization, EMPTY, events))
  {
    RunOwned(organization, EMPTY, events);
  }
}
