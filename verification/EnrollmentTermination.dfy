/**
 * Conflict retries end: without releases every stored write climbs a bounded rank, and a call only
 * starts over after somebody else climbed.
 */
module EnrollmentTermination {
  import opened Wrappers
  import opened Enrollment
  import opened EnrollmentHistory

  function InviteRank(invite: InviteRecord): nat {
    (if invite.reservedInstall != "" then 1 else 0) + (if invite.spentAt.Some? then 1 else 0)
    + (if invite.revokedAt.Some? then 1 else 0)
  }

  function InviteRankAt(s: Store, id: string): nat {
    if id in s.invites then InviteRank(s.invites[id].record) else 0
  }

  function InstallRankAt(s: Store, key: string): nat {
    if key in s.installs then Order(s.installs[key].record.status) else 0
  }

  // Stored value is the one read, or it has climbed since.
  predicate InviteFresh(s: Store, id: string, read: Versioned<InviteRecord>) {
    id in s.invites && (s.invites[id] == read || InviteRankAt(s, id) > InviteRank(read.record))
  }

  predicate InstallFresh(s: Store, key: string, read: Versioned<InstallRecord>) {
    key in s.installs && (s.installs[key] == read || InstallRankAt(s, key) > Order(read.record.status))
  }

  predicate Fresh(s: Store, process: Process) {
    EnrollsWith(process) ==>
      match process.pc
      case Reserve(read, _) => InviteFresh(s, process.request.token.value.id, read)
      case Spend(read) => InviteFresh(s, process.request.token.value.id, read)
      case Activate(read) => InstallFresh(s, process.request.install.installId, read)
      case _ => true
  }

  ghost predicate Climbs(s: Store, t: Store) {
    && (forall i <- s.invites :: i in t.invites && (t.invites[i] == s.invites[i] || InviteRankAt(t, i) > InviteRankAt(s, i)))
    && (forall k <- s.installs :: k in t.installs && (t.installs[k] == s.installs[k] || InstallRankAt(t, k) > InstallRankAt(s, k)))
  }

  const MAX_RANK := 6

  // Own steps a call has left if nobody interferes.
  function Left(pc: Pc): nat {
    match pc
    case ReadInvite => 8
    case Reserve(_, _) => 7
    case ReadInstall(_) => 6
    case CreateInstall(_) => 5
    case RereadInvite => 4
    case Spend(_) => 3
    case RereadInstall => 2
    case Activate(_) => 1
    case ReadGrant => 3
    case CreateActive(_) => 2
    case ReadExisting => 1
    case ReadTarget => 3
    case ReadReserved(_) => 2
    case WriteGrant(_) => 1
    case WriteInvite(_) => 1
    case WriteInstall(_) => 1
    case WriteRelease(_) => 1
    case Done(_) => 0
  }

  // How far the two records had climbed as far as this call can tell.
  function Known(s: Store, process: Process): (rank: nat)
    requires EnrollsWith(process)
    ensures rank <= MAX_RANK
  {
    var id := process.request.token.value.id;
    var key := process.request.install.installId;
    match process.pc
    case Reserve(read, _) => InviteRank(read.record) + InstallRankAt(s, key)
    case Spend(read) => InviteRank(read.record) + InstallRankAt(s, key)
    case CreateInstall(_) => InviteRankAt(s, id)
    case Activate(read) => InviteRankAt(s, id) + Order(read.record.status)
    case _ => InviteRankAt(s, id) + InstallRankAt(s, key)
  }

  function Potential(s: Store, process: Process): (p: nat)
    ensures p <= 8 * MAX_RANK + 8
  {
    if EnrollsWith(process) && !process.pc.Done?
    then 8 * (MAX_RANK - Known(s, process)) + Left(process.pc)
    else Left(process.pc)
  }

  // A call's pc belongs to its request.
  predicate Typed(process: Process) {
    var pc := process.pc;
    pc.Done? ||
    match process.request
    case EnrollInvite(_, _) =>
      pc.ReadInvite? || pc.Reserve? || pc.ReadInstall? || pc.CreateInstall? || pc.RereadInvite? || pc.Spend?
      || pc.RereadInstall? || pc.Activate?
    case EnrollGrant(_, _) => pc.ReadGrant? || pc.CreateActive? || pc.ReadExisting?
    case ReleaseInvite(_) => pc.ReadTarget? || pc.ReadReserved? || pc.WriteRelease?
    case _ => pc.ReadTarget? || pc.WriteGrant? || pc.WriteInvite? || pc.WriteInstall?
  }

  lemma OthersKeepPotential(s: Store, t: Store, process: Process)
    requires Climbs(s, t) && Fresh(s, process)
    ensures Fresh(t, process) && Potential(t, process) <= Potential(s, process)
  {
  }

  // What a call's own step owes: the store climbed, and the call came closer to its end.
  ghost predicate StepClimbs(s: Store, process: Process, e: Effect) {
    && Climbs(s, e.store) && Typed(process.(pc := e.pc)) && Fresh(e.store, process.(pc := e.pc))
    && (if process.pc.Done? then e.pc == process.pc else Potential(e.store, process.(pc := e.pc)) < Potential(s, process))
  }

  lemma EnrollInviteClimbs(organization: string, s: Store, process: Process, c: Choice)
    requires EnrollsWith(process) && Admitted(process.request) && Typed(process)
    requires Sound(organization, process) && Fresh(s, process)
    ensures StepClimbs(s, process, StepEnrollInvite(organization, s, process.request.token.value, process.request.install, process.pc, c))
  {
    if process.pc.Reserve? || process.pc.Spend? {
      InviteWriteClimbs(organization, s, process, c);
    } else if process.pc.CreateInstall? || process.pc.Activate? {
      InstallWriteClimbs(organization, s, process, c);
    } else {
      assert StepEnrollInvite(organization, s, process.request.token.value, process.request.install, process.pc, c).store == s;
    }
  }

  lemma InviteWriteClimbs(organization: string, s: Store, process: Process, c: Choice)
    requires EnrollsWith(process) && Admitted(process.request) && (process.pc.Reserve? || process.pc.Spend?)
    requires Sound(organization, process) && Fresh(s, process)
    ensures StepClimbs(s, process, StepEnrollInvite(organization, s, process.request.token.value, process.request.install, process.pc, c))
  {
    var e := StepEnrollInvite(organization, s, process.request.token.value, process.request.install, process.pc, c);
    assert e.store.installs == s.installs;
  }

  lemma InstallWriteClimbs(organization: string, s: Store, process: Process, c: Choice)
    requires EnrollsWith(process) && Admitted(process.request) && (process.pc.CreateInstall? || process.pc.Activate?)
    requires Sound(organization, process) && Fresh(s, process)
    ensures StepClimbs(s, process, StepEnrollInvite(organization, s, process.request.token.value, process.request.install, process.pc, c))
  {
    var e := StepEnrollInvite(organization, s, process.request.token.value, process.request.install, process.pc, c);
    assert e.store.invites == s.invites;
  }

  lemma RevokeClimbs(organization: string, s: Store, process: Process, c: Choice)
    requires process.request.RevokeGrant? || process.request.RevokeInvite? || process.request.RevokeInstall?
    requires Sound(organization, process) && Typed(process)
    ensures StepClimbs(s, process, StepRevoke(s, process.request, process.pc, c))
  {
    var e := StepRevoke(s, process.request, process.pc, c);
    RevokeStoreClimbs(organization, s, process, c);
    assert e.pc.Done? || process.pc.ReadTarget?;
  }

  lemma RevokeStoreClimbs(organization: string, s: Store, process: Process, c: Choice)
    requires process.request.RevokeGrant? || process.request.RevokeInvite? || process.request.RevokeInstall?
    requires Sound(organization, process)
    ensures Climbs(s, StepRevoke(s, process.request, process.pc, c).store)
  {
    var e := StepRevoke(s, process.request, process.pc, c);
    if process.pc.WriteInvite? {
      assert e.store.installs == s.installs;
    } else if process.pc.WriteInstall? {
      assert e.store.invites == s.invites;
    } else {
      assert e.store.invites == s.invites && e.store.installs == s.installs;
    }
  }

  lemma GrantClimbs(organization: string, s: Store, process: Process, c: Choice)
    requires process.request.EnrollGrant? && process.request.token.Some? && Typed(process)
    ensures StepClimbs(s, process, StepEnrollGrant(organization, s, process.request.token.value, process.request.install, process.pc, c))
  {
  }

  lemma ProcessClimbs(organization: string, s: Store, process: Process, c: Choice)
    requires Admitted(process.request) && Typed(process) && !process.request.ReleaseInvite?
    requires Sound(organization, process) && Fresh(s, process)
    ensures StepClimbs(s, process, StepProcess(organization, s, process, c))
  {
    hide StepEnrollInvite, StepEnrollGrant, StepRevoke, StepRelease;
    match process.request
    case EnrollInvite(Some(_), _) => EnrollInviteClimbs(organization, s, process, c);
    case EnrollGrant(Some(_), _) => GrantClimbs(organization, s, process, c);
    case EnrollInvite(None, _) =>
    case EnrollGrant(None, _) =>
    case _ => RevokeClimbs(organization, s, process, c);
  }

  // --- over runs -------------------------------------------------------------------------------

  predicate NoRelease(e: Event) { e.Start? ==> !e.request.ReleaseInvite? }

  ghost predicate Climbing(organization: string, w: World) {
    && Consistent(organization, w)
    && forall p <- w.processes ::
         && Admitted(w.processes[p].request) && Typed(w.processes[p]) && !w.processes[p].request.ReleaseInvite?
         && Fresh(w.store, w.processes[p])
  }

  function PotentialAt(w: World, p: nat): (bound: nat)
    ensures bound <= 8 * MAX_RANK + 8
  {
    if p in w.processes then Potential(w.store, w.processes[p]) else 8 * MAX_RANK + 8
  }

  // Steps call `p` takes in a run, the ones after it is done not counted.
  function OwnSteps(organization: string, w: World, p: nat, events: seq<Event>): nat
    decreases |events|
  {
    if events == [] then 0
    else
      (if events[0].Step? && events[0].process == p && p in w.processes && !w.processes[p].pc.Done? then 1 else 0)
      + OwnSteps(organization, Next(organization, w, events[0]), p, events[1..])
  }

  lemma LandedClimbs(organization: string, w: World, p: nat, e: Effect, q: nat)
    requires Climbing(organization, w) && p in w.processes
    requires StepClimbs(w.store, w.processes[p], e) && Consistent(organization, Landed(w, p, e))
    ensures Climbing(organization, Landed(w, p, e))
    ensures PotentialAt(Landed(w, p, e), q) <= PotentialAt(w, q)
    ensures !w.processes[p].pc.Done? ==> PotentialAt(Landed(w, p, e), p) < PotentialAt(w, p)
  {
    hide Potential, Fresh;
    var v := Landed(w, p, e);
    forall r <- w.processes | r != p
      ensures Fresh(v.store, v.processes[r]) && Potential(v.store, v.processes[r]) <= Potential(w.store, w.processes[r])
    {
      OthersKeepPotential(w.store, v.store, w.processes[r]);
    }
    if w.processes[p].pc.Done? { DoneHasNoPotential(v.store, v.processes[p]); }
  }

  lemma DoneHasNoPotential(s: Store, process: Process)
    ensures process.pc.Done? ==> Potential(s, process) == 0
  {
  }

  lemma NextClimbs(organization: string, w: World, e: Event, p: nat)
    requires Climbing(organization, w) && NoRelease(e)
    ensures Climbing(organization, Next(organization, w, e))
    ensures PotentialAt(Next(organization, w, e), p) <= PotentialAt(w, p)
    ensures e.Step? && e.process == p && p in w.processes && !w.processes[p].pc.Done? ==>
              PotentialAt(Next(organization, w, e), p) < PotentialAt(w, p)
  {
    hide StepProcess;
    NextAdvances(organization, w, e);
    if e.Step? && e.process in w.processes {
      ProcessClimbs(organization, w.store, w.processes[e.process], e.choice);
      LandedClimbs(organization, w, e.process, StepProcess(organization, w.store, w.processes[e.process], e.choice), p);
    } else {
      var v := Next(organization, w, e);
      forall r <- w.processes
        ensures Fresh(v.store, w.processes[r]) && Potential(v.store, w.processes[r]) <= Potential(w.store, w.processes[r])
      {
        OthersKeepPotential(w.store, v.store, w.processes[r]);
      }
    }
  }

  lemma {:induction false} OwnStepsBounded(organization: string, w: World, p: nat, events: seq<Event>)
    requires Climbing(organization, w) && forall e <- events :: NoRelease(e)
    ensures OwnSteps(organization, w, p, events) <= PotentialAt(w, p)
    decreases |events|
  {
    if events != [] {
      NextClimbs(organization, w, events[0], p);
      OwnStepsBounded(organization, Next(organization, w, events[0]), p, events[1..]);
    }
  }

  /**
   * In every run without releases, however many calls interleave, no call takes more than 56 steps:
   * each conflict that sends it back to the start is paid for by somebody else's climb.
   */
  lemma EveryCallTerminates(organization: string, p: nat, events: seq<Event>)
    requires forall e <- events :: NoRelease(e)
    ensures OwnSteps(organization, EMPTY, p, events) <= 56
  {
    OwnStepsBounded(organization, EMPTY, p, events);
  }
}
