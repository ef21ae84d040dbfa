/**
 * One call of the state machine running alone: it performs exactly the closed-form writes and gives
 * the closed-form verdict.
 */
module EnrollmentAlone {
  import opened Wrappers
  import opened Enrollment
  import opened EnrollmentHistory
  import opened EnrollmentOwnership
  import opened EnrollmentRecovery

  datatype Alone = Alone(store: Store, process: Process, activated: bool)

  // `n` steps of one call with nothing in between.
  function Solo(organization: string, s: Store, process: Process, c: Choice, n: nat): Alone
    decreases n
  {
    if n == 0 then Alone(s, process, false)
    else
      var e := StepProcess(organization, s, process, c);
      var rest := Solo(organization, e.store, process.(pc := e.pc), c, n - 1);
      rest.(activated := e.activated || rest.activated)
  }

  function Steps(p: nat, c: Choice, n: nat): seq<Event> {
    if n == 0 then [] else [Step(p, c)] + Steps(p, c, n - 1)
  }

  // The run of those steps in a world changes that call and the store only.
  lemma {:induction false} SoloRun(organization: string, w: World, p: nat, c: Choice, n: nat)
    requires p in w.processes
    ensures var r := Solo(organization, w.store, w.processes[p], c, n);
      var v := Run(organization, w, Steps(p, c, n));
      && v.store == r.store && v.processes == w.processes[p := r.process]
      && w.activations <= v.activations
      && (r.activated && EnrollsWith(w.processes[p]) ==>
            (w.processes[p].request.token.value.id, w.processes[p].request.install.installId) in v.activations)
    decreases n
  {
    hide StepProcess;
    if n == 0 {
      assert w.processes[p := w.processes[p]] == w.processes;
    } else {
      var next := Next(organization, w, Step(p, c));
      assert Steps(p, c, n)[1..] == Steps(p, c, n - 1);
      SoloRun(organization, next, p, c, n - 1);
      assert next.processes[p := Solo(organization, next.store, next.processes[p], c, n - 1).process]
          == w.processes[p := Solo(organization, next.store, next.processes[p], c, n - 1).process];
    }
  }

  lemma {:induction false} NoReleaseInSteps(organization: string, w: World, p: nat, c: Choice, n: nat)
    requires p in w.processes && !w.processes[p].request.ReleaseInvite?
    ensures SafeReleases(organization, w, Steps(p, c, n))
    decreases n
  {
    hide StepProcess;
    if n > 0 {
      assert Steps(p, c, n)[1..] == Steps(p, c, n - 1);
      NoReleaseInSteps(organization, Next(organization, w, Step(p, c)), p, c, n - 1);
    }
  }

  lemma {:induction false} DoneStays(organization: string, s: Store, process: Process, c: Choice, n: nat)
    requires process.pc.Done? && process.request.EnrollInvite? && process.request.token.Some?
    ensures Solo(organization, s, process, c, n) == Alone(s, process, false)
  {
    if n > 0 { DoneStays(organization, s, process, c, n - 1); }
  }

  // --- the stages, last first ------------------------------------------------------------------

  predicate Calm(c: Choice) { c.fault == NoFault }

  lemma AloneFromActivate(organization: string, s: Store, process: Process, c: Choice, n: nat)
    requires EnrollsWith(process) && Calm(c) && n >= 2
    requires var install := Normalized(organization, process.request.install);
      && process.pc == RereadInstall && install.installId in s.installs
      && s.installs[install.installId].record.status == Pending
      && SameEnrollment(s.installs[install.installId].record, install)
    ensures var install := Normalized(organization, process.request.install);
      var active := s.installs[install.installId].record.(status := Active, updatedAt := c.now);
      Solo(organization, s, process, c, n)
      == Alone(Apply(s, PutInstall(install.installId, active)), process.(pc := Done(Enrolled)), true)
  {
    var install := Normalized(organization, process.request.install);
    var e1 := StepProcess(organization, s, process, c);
    assert e1 == Quiet(s, Activate(s.installs[install.installId]));
    var p1 := process.(pc := e1.pc);
    var e2 := StepProcess(organization, s, p1, c);
    assert e2.pc == Done(Enrolled) && e2.activated;
    DoneStays(organization, e2.store, p1.(pc := e2.pc), c, n - 2);
    assert Solo(organization, s, process, c, n).process == Solo(organization, s, p1, c, n - 1).process;
  }

  function SpentInvite(invite: InviteRecord, now: int): InviteRecord {
    if invite.spentAt.None? then invite.(spentAt := Some(now)) else invite
  }

  function SpendWrites(s: Store, id: string, now: int): seq<Write>
    requires id in s.invites
  {
    if s.invites[id].record.spentAt.None? then [PutInvite(id, SpentInvite(s.invites[id].record, now))] else []
  }

  lemma AloneFromReread(organization: string, s: Store, process: Process, c: Choice, n: nat)
    requires EnrollsWith(process) && Calm(c) && n >= 4
    requires var install := Normalized(organization, process.request.install);
      && process.pc == RereadInvite && process.request.token.value.id in s.invites
      && install.installId in s.installs && s.installs[install.installId].record.status == Pending
      && SameEnrollment(s.installs[install.installId].record, install)
    ensures var install := Normalized(organization, process.request.install);
      var active := s.installs[install.installId].record.(status := Active, updatedAt := c.now);
      var spent := ApplyAll(s, SpendWrites(s, process.request.token.value.id, c.now));
      Solo(organization, s, process, c, n)
      == Alone(Apply(spent, PutInstall(install.installId, active)), process.(pc := Done(Enrolled)), true)
  {
    var id := process.request.token.value.id;
    var e1 := StepProcess(organization, s, process, c);
    var p1 := process.(pc := e1.pc);
    if s.invites[id].record.spentAt.None? {
      assert e1 == Quiet(s, Spend(s.invites[id]));
      var e2 := StepProcess(organization, s, p1, c);
      assert e2.pc == RereadInstall && e2.store == Apply(s, PutInvite(id, SpentInvite(s.invites[id].record, c.now)));
      var p2 := p1.(pc := e2.pc);
      AloneFromActivate(organization, e2.store, p2, c, n - 2);
      assert Solo(organization, s, p1, c, n - 1).process == Solo(organization, e2.store, p2, c, n - 2).process;
    } else {
      assert e1 == Quiet(s, RereadInstall);
      AloneFromActivate(organization, s, p1, c, n - 1);
    }
  }

  lemma AloneFromReadInstall(organization: string, s: Store, process: Process, c: Choice, n: nat)
    requires EnrollsWith(process) && Calm(c) && n >= 6 && process.request.token.value.id in s.invites
    requires process.pc.ReadInstall?
    ensures var install := Normalized(organization, process.request.install);
      var r := Solo(organization, s, process, c, n);
      if InstallRefused(s, install) then r == Alone(s, process.(pc := Done(EnrollmentConflict)), false)
      else if InstallActive(s, install) then r == Alone(s, process.(pc := Done(Enrolled)), false)
      else
        var pending := if install.installId in s.installs then s.installs[install.installId].record else PendingInstall(install, process.pc.now);
        var created := if install.installId in s.installs then s else Apply(s, PutInstall(install.installId, pending));
        var spent := ApplyAll(created, SpendWrites(s, process.request.token.value.id, c.now));
        r == Alone(Apply(spent, PutInstall(install.installId, pending.(status := Active, updatedAt := c.now))),
                   process.(pc := Done(Enrolled)), true)
  {
    var install := Normalized(organization, process.request.install);
    var e1 := StepProcess(organization, s, process, c);
    var p1 := process.(pc := e1.pc);
    if install.installId !in s.installs {
      assert e1 == Quiet(s, CreateInstall(process.pc.now));
      var e2 := StepProcess(organization, s, p1, c);
      assert e2 == Quiet(Apply(s, PutInstall(install.installId, PendingInstall(install, process.pc.now))), RereadInvite);
      AloneFromReread(organization, e2.store, p1.(pc := e2.pc), c, n - 2);
      assert Solo(organization, s, p1, c, n - 1).process == Solo(organization, e2.store, p1.(pc := e2.pc), c, n - 2).process;
    } else if e1.pc.Done? {
      DoneStays(organization, s, p1, c, n - 1);
    } else {
      assert e1 == Quiet(s, RereadInvite);
      AloneFromReread(organization, s, p1, c, n - 1);
    }
  }

  // From the start to the install read: the checks, and the reservation when the invite is free.
  lemma AloneReserves(organization: string, s: Store, process: Process, c: Choice)
    requires EnrollsWith(process) && Calm(c) && process.pc == ReadInvite
    requires Passes(organization, s, process.request.token.value, Normalized(organization, process.request.install), c.now)
    ensures var id := process.request.token.value.id;
      var install := Normalized(organization, process.request.install);
      if s.invites[id].record.reservedInstall == ""
      then Solo(organization, s, process, c, 2)
           == Alone(Apply(s, PutInvite(id, ReservedInvite(s.invites[id].record, install, c.now))),
                    process.(pc := ReadInstall(c.now)), false)
      else Solo(organization, s, process, c, 1) == Alone(s, process.(pc := ReadInstall(c.now)), false)
  {
    var e1 := StepProcess(organization, s, process, c);
    var p1 := process.(pc := e1.pc);
    assert Solo(organization, s, process, c, 1) == Alone(e1.store, p1, e1.activated || Solo(organization, e1.store, p1, c, 0).activated);
    if s.invites[process.request.token.value.id].record.reservedInstall == "" {
      var e2 := StepProcess(organization, s, p1, c);
      assert Solo(organization, s, p1, c, 1) == Alone(e2.store, p1.(pc := e2.pc), e2.activated || false);
      assert Solo(organization, s, process, c, 2).process == Solo(organization, s, p1, c, 1).process;
    }
  }

  lemma {:induction false} SoloSplits(organization: string, s: Store, process: Process, c: Choice, a: nat, b: nat)
    ensures var first := Solo(organization, s, process, c, a);
      var second := Solo(organization, first.store, first.process, c, b);
      Solo(organization, s, process, c, a + b) == second.(activated := first.activated || second.activated)
    decreases a
  {
    hide StepProcess;
    if a > 0 {
      var e := StepProcess(organization, s, process, c);
      SoloSplits(organization, e.store, process.(pc := e.pc), c, a - 1, b);
    }
  }

  lemma AloneWrites(organization: string, s: Store, reserved: Store, token: Token, requested: InstallRecord, now: int)
    requires Passes(organization, s, token, Normalized(organization, requested), now)
    requires reserved == if s.invites[token.id].record.reservedInstall == ""
      then Apply(s, PutInvite(token.id, ReservedInvite(s.invites[token.id].record, Normalized(organization, requested), now)))
      else s
    ensures var install := Normalized(organization, requested);
      ApplyAll(s, EnrollWrites(organization, s, token, requested, now))
      == if InstallRefused(s, install) || InstallActive(s, install) then reserved
         else
           var pending := if install.installId in s.installs then s.installs[install.installId].record else PendingInstall(install, now);
           var created := if install.installId in s.installs then reserved else Apply(reserved, PutInstall(install.installId, pending));
           var spent := ApplyAll(created, SpendWrites(reserved, token.id, now));
           Apply(spent, PutInstall(install.installId, pending.(status := Active, updatedAt := now)))
  {
    hide InviteUsable, InstallRefused, InstallActive;
    var writes := EnrollWrites(organization, s, token, requested, now);
    ApplyAllPrefixes(s, writes, |writes|);
    assert writes[..|writes|] == writes;
  }

  lemma AloneRefused(organization: string, s: Store, token: Token, requested: InstallRecord, c: Choice)
    requires Calm(c) && !Passes(organization, s, token, Normalized(organization, requested), c.now)
    ensures var process := Process(EnrollInvite(Some(token), requested), ReadInvite);
      Solo(organization, s, process, c, 8) == Alone(s, process.(pc := Done(Forbidden)), false)
  {
    var process := Process(EnrollInvite(Some(token), requested), ReadInvite);
    var e1 := StepProcess(organization, s, process, c);
    assert e1 == Quiet(s, Done(Forbidden));
    DoneStays(organization, s, process.(pc := e1.pc), c, 7);
  }

  /**
   * The closed form is the state machine: an undisturbed call makes exactly these writes and gives
   * this verdict, whatever the versions look like.
   */
  lemma AloneMakesTheWrites(organization: string, s: Store, token: Token, requested: InstallRecord, now: int, lenient: bool)
    ensures var r := Solo(organization, s, Process(EnrollInvite(Some(token), requested), ReadInvite), Choice(now, NoFault, lenient), 8);
      && r.store == ApplyAll(s, EnrollWrites(organization, s, token, requested, now))
      && r.process.pc == Done(EnrollVerdict(organization, s, token, requested, now))
  {
    hide StepProcess, Solo, Apply, ApplyAll, InviteUsable;
    var c := Choice(now, NoFault, lenient);
    var process := Process(EnrollInvite(Some(token), requested), ReadInvite);
    if !Passes(organization, s, token, Normalized(organization, requested), now) {
      AloneRefused(organization, s, token, requested, c);
      ApplyNothing(s);
    } else {
      AloneReserves(organization, s, process, c);
      var steps := if s.invites[token.id].record.reservedInstall == "" then 2 else 1;
      var first := Solo(organization, s, process, c, steps);
      ReserveTouchesInviteOnly(s, token.id, ReservedInvite(s.invites[token.id].record, Normalized(organization, requested), now));
      AloneFromReadInstall(organization, first.store, first.process, c, 8 - steps);
      SoloSplits(organization, s, process, c, steps, 8 - steps);
      AloneWrites(organization, s, first.store, token, requested, now);
    }
  }

  lemma ApplyNothing(s: Store)
    ensures ApplyAll(s, []) == s
  {
  }

  lemma ReserveTouchesInviteOnly(s: Store, id: string, invite: InviteRecord)
    ensures Apply(s, PutInvite(id, invite)).installs == s.installs
    ensures id in Apply(s, PutInvite(id, invite)).invites
  {
  }

  /** The same of a grant: undisturbed, its three accesses make the one write of the closed form and give its verdict. */
  lemma AloneMakesTheGrant(organization: string, s: Store, token: Token, requested: InstallRecord, now: int, lenient: bool)
    ensures var r := Solo(organization, s, Process(EnrollGrant(Some(token), requested), ReadGrant), Choice(now, NoFault, lenient), 3);
      && r.store == ApplyAll(s, GrantWrites(organization, s, token, requested, now))
      && r.process.pc == Done(GrantVerdict(organization, s, token, requested, now))
  {
    var c := Choice(now, NoFault, lenient);
    var p0 := Process(EnrollGrant(Some(token), requested), ReadGrant);
    var writes := GrantWrites(organization, s, token, requested, now);
    assert writes[..|writes|] == writes;
    ApplyAllPrefixes(s, writes, |writes|);
    var e1 := StepProcess(organization, s, p0, c);
    var p1 := p0.(pc := e1.pc);
    var e2 := StepProcess(organization, e1.store, p1, c);
    var p2 := p1.(pc := e2.pc);
    var e3 := StepProcess(organization, e2.store, p2, c);
    hide StepProcess;
    ThreeSteps(organization, s, p0, c);
  }

  lemma ThreeSteps(organization: string, s: Store, p0: Process, c: Choice)
    ensures var e1 := StepProcess(organization, s, p0, c);
      var e2 := StepProcess(organization, e1.store, p0.(pc := e1.pc), c);
      var e3 := StepProcess(organization, e2.store, p0.(pc := e2.pc), c);
      var r := Solo(organization, s, p0, c, 3);
      r.store == e3.store && r.process == p0.(pc := e3.pc)
  {
    hide StepProcess;
    var e1 := StepProcess(organization, s, p0, c);
    var p1 := p0.(pc := e1.pc);
    var e2 := StepProcess(organization, e1.store, p1, c);
    var p2 := p1.(pc := e2.pc);
    var e3 := StepProcess(organization, e2.store, p2, c);
    assert Solo(organization, e2.store, p2, c, 1).store == e3.store;
  }
}
