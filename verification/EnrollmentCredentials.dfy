/**
 * Who is let in: the answer to a lone call field by field, and that over every run nothing is registered
 * or activated but by a call that knew the secret its token was minted with.
 */
module EnrollmentCredentials {
  import opened Wrappers
  import opened Enrollment
  import opened EnrollmentHistory
  import opened EnrollmentRecovery

  // --- one call, field by field ------------------------------------------------------------------

  // The stored install names the same machine as the request: all that may differ is its progress.
  ghost predicate SameMachine(organization: string, current: InstallRecord, requested: InstallRecord) {
    && current.schema == 1 && current.organization == organization && current.installId == requested.installId
    && current.devicePublicKey == requested.devicePublicKey && current.ageRecipient == requested.ageRecipient
  }

  /**
   * An invite is refused exactly when it is another organization's or unknown, its record does not fit the
   * token's id and secret, it is revoked, it is free but expired or spent, or it is reserved for another
   * install or another request. One not refused enrolls, unless a different or a revoked install is stored.
   */
  lemma WhoEnrollsByInvite(organization: string, s: Store, token: Token, requested: InstallRecord, now: int)
    ensures var verdict := EnrollVerdict(organization, s, token, requested, now);
      var known := token.organization == organization && token.id in s.invites;
      var refused := !known || (
        var invite := s.invites[token.id].record;
        || invite.schema != 1 || invite.id != token.id || invite.secretDigest != Sha256(token.secret)
        || invite.revokedAt.Some?
        || (invite.reservedInstall == "" && (invite.expiresAt <= now || invite.spentAt.Some?))
        || (invite.reservedInstall != ""
            && (invite.reservedInstall != requested.installId || invite.reservedDigest != Some(requested.digest))));
      var clashes := requested.installId in s.installs && (
        var current := s.installs[requested.installId].record;
        !SameMachine(organization, current, requested) || current.digest != requested.digest || current.status == Revoked);
      && (verdict == Forbidden <==> refused)
      && (verdict == EnrollmentConflict <==> !refused && clashes)
      && (verdict == Enrolled <==> !refused && !clashes)
  {
  }

  /**
   * A grant is refused exactly when it is another organization's or unknown, its record does not fit the
   * token's id and secret, it is revoked, or it is expired. One not refused enrolls an install not stored,
   * and confirms one stored active for the same machine, by whatever request.
   */
  lemma WhoEnrollsByGrant(organization: string, s: Store, token: Token, requested: InstallRecord, now: int)
    ensures var verdict := GrantVerdict(organization, s, token, requested, now);
      var known := token.organization == organization && token.id in s.grants;
      var refused := !known || (
        var grant := s.grants[token.id].record;
        || grant.schema != 1 || grant.id != token.id || grant.secretDigest != Sha256(token.secret)
        || grant.revokedAt.Some? || grant.expiresAt <= now);
      var clashes := requested.installId in s.installs && (
        var current := s.installs[requested.installId].record;
        !SameMachine(organization, current, requested) || current.status != Active);
      && (verdict == Forbidden <==> refused)
      && (verdict == EnrollmentConflict <==> !refused && clashes)
      && (verdict == Enrolled <==> !refused && !clashes)
  {
  }

  /** What a success leaves stored: the install as it was asked for, active, and the invite spent on it. */
  lemma WhatEnrollingStores(organization: string, s: Store, token: Token, requested: InstallRecord, now: int)
    requires EnrollVerdict(organization, s, token, requested, now) == Enrolled
    ensures var t := ApplyAll(s, EnrollWrites(organization, s, token, requested, now));
      var key := requested.installId;
      var again := key in s.installs && s.installs[key].record.status == Active;
      && t.grants == s.grants && key in t.installs && token.id in t.invites
      && (forall k :: k != key ==> (k in t.installs <==> k in s.installs) && (k in s.installs ==> t.installs[k] == s.installs[k]))
      && (forall i :: i != token.id ==> (i in t.invites <==> i in s.invites) && (i in s.invites ==> t.invites[i] == s.invites[i]))
      && var install, invite := t.installs[key].record, t.invites[token.id].record;
         && install.status == Active && SameMachine(organization, install, requested) && install.digest == requested.digest
         && (key !in s.installs ==> install == InstallRecord(
               1, organization, key, requested.devicePublicKey, requested.ageRecipient, requested.digest, Active, now, now, requested.revokedAt))
         && invite.reservedInstall == key && invite.reservedDigest == Some(requested.digest)
         && (!again ==> invite.spentAt == s.invites[token.id].record.spentAt || invite.spentAt == Some(now))
         && (!again ==> invite.spentAt.Some?)
         && (s.invites[token.id].record.reservedInstall == "" ==> invite.reservedAt == Some(now))
  {
    var writes := EnrollWrites(organization, s, token, requested, now);
    assert writes[..|writes|] == writes;
    ApplyAllPrefixes(s, writes, |writes|);
  }

  /** A grant's success stores the install it was asked for, active, and touches nothing else. */
  lemma WhatAGrantStores(organization: string, s: Store, token: Token, requested: InstallRecord, now: int)
    requires GrantVerdict(organization, s, token, requested, now) == Enrolled
    ensures var t := ApplyAll(s, GrantWrites(organization, s, token, requested, now));
      var key := requested.installId;
      && t.grants == s.grants && t.invites == s.invites && key in t.installs
      && (forall k :: k != key ==> (k in t.installs <==> k in s.installs) && (k in s.installs ==> t.installs[k] == s.installs[k]))
      && (key in s.installs ==> t == s)
      && (key !in s.installs ==> t.installs[key].record == InstallRecord(
            1, organization, key, requested.devicePublicKey, requested.ageRecipient, requested.digest, Active, now, now, requested.revokedAt))
  {
    var writes := GrantWrites(organization, s, token, requested, now);
    assert writes[..|writes|] == writes;
    ApplyAllPrefixes(s, writes, |writes|);
  }

  // --- one step, field by field ------------------------------------------------------------------

  /** A conditional write lands exactly over the value read, or at the provider's choice over the same content. */
  lemma WhenAWriteLands<T>(records: Records<T>, key: string, read: Versioned<T>, record: T, lenient: bool, k: string)
    ensures var after := Replaced(records, key, read, record, lenient);
      && (after.Some? <==> key in records && (records[key] == read || (lenient && records[key].record == read.record)))
      && (after.Some? ==>
            && after.value.Keys == records.Keys && after.value[key].record == record && after.value[key].generation > records[key].generation
            && (k in records && k != key ==> after.value[k] == records[k]))
    ensures var after := Created(records, key, record);
      && (after.Some? <==> key !in records)
      && (after.Some? ==>
            after.value.Keys == records.Keys + {key} && after.value[key].record == record && (k in records ==> after.value[k] == records[k]))
  {
  }

  /**
   * Whatever others did meanwhile, an invite call answers truly of the store it last saw: success only with
   * the install it asked for active, a conflict only with another or a revoked one stored, and refusal exactly
   * when its first read finds the invite unfit.
   */
  lemma WhatAnInviteCallAnswers(organization: string, s: Store, process: Process, c: Choice)
    requires EnrollsWith(process) && Sound(organization, process) && !process.pc.Done?
    ensures var token, requested := process.request.token.value, process.request.install;
      var e := StepEnrollInvite(organization, s, token, requested, process.pc, c);
      var stored := if requested.installId in s.installs then Some(s.installs[requested.installId].record) else None;
      && (e.pc == Done(Enrolled) ==>
            && requested.installId in e.store.installs
            && var install := e.store.installs[requested.installId].record;
               install.status == Active && SameMachine(organization, install, requested) && install.digest == requested.digest)
      && (e.pc == Done(EnrollmentConflict) ==>
            && e.store == s && stored.Some?
            && (!SameMachine(organization, stored.value, requested) || stored.value.digest != requested.digest || stored.value.status == Revoked))
      && (e.pc == Done(Forbidden) ==> e.store == s && process.pc.ReadInvite?)
      && (process.pc.ReadInvite? ==>
            (e.pc != Done(Forbidden) <==>
              && token.organization == organization && token.id in s.invites
              && var invite := s.invites[token.id].record;
                 && invite.schema == 1 && invite.id == token.id && invite.secretDigest == Sha256(token.secret) && invite.revokedAt == None
                 && (if invite.reservedInstall == "" then c.now < invite.expiresAt && invite.spentAt == None
                     else invite.reservedInstall == requested.installId && invite.reservedDigest == Some(requested.digest))))
  {
  }

  /** A grant call likewise, whatever others did between its three accesses. */
  lemma WhatAGrantCallAnswers(organization: string, s: Store, process: Process, c: Choice)
    requires process.request.EnrollGrant? && process.request.token.Some? && !process.pc.Done?
    ensures var token, requested := process.request.token.value, process.request.install;
      var e := StepEnrollGrant(organization, s, token, requested, process.pc, c);
      var stored := if requested.installId in s.installs then Some(s.installs[requested.installId].record) else None;
      && (e.pc == Done(Enrolled) ==>
            && requested.installId in e.store.installs
            && var install := e.store.installs[requested.installId].record;
               install.status == Active && SameMachine(organization, install, requested))
      && (e.pc == Done(EnrollmentConflict) ==>
            e.store == s && stored.Some? && (!SameMachine(organization, stored.value, requested) || stored.value.status != Active))
      && (process.pc.ReadGrant? ==> e.store == s && (e.pc == Done(Forbidden) || e.pc == CreateActive(c.now)))
      && (process.pc.CreateActive? && stored.None? ==>
            && e.pc == Done(Enrolled)
            && e.store == s.(installs := s.installs[requested.installId := Versioned(InstallRecord(
                 1, organization, requested.installId, requested.devicePublicKey, requested.ageRecipient, requested.digest, Active,
                 process.pc.now, process.pc.now, requested.revokedAt), 0)]))
      && (process.pc.CreateActive? && stored.Some? ==> e.store == s && e.pc == ReadExisting)
      && (process.pc.ReadExisting? && stored.Some? ==> e.store == s && (e.pc == Done(Enrolled) || e.pc == Done(EnrollmentConflict)))
      && (process.pc.ReadGrant? ==>
            (e.pc == Done(Forbidden) <==>
              !(token.organization == organization && token.id in s.grants
                && var grant := s.grants[token.id].record;
                   && grant.schema == 1 && grant.id == token.id && grant.secretDigest == Sha256(token.secret)
                   && grant.revokedAt == None && c.now < grant.expiresAt)))
  {
  }

  /**
   * A revocation of something unknown fails, of something revoked is done already; any other is written over
   * what was read, dated by the clock of the write, or answers that it changed meanwhile.
   */
  lemma WhatARevocationAnswers(s: Store, process: Process, c: Choice)
    requires process.request.RevokeGrant? || process.request.RevokeInvite? || process.request.RevokeInstall?
    ensures var e, id := StepRevoke(s, process.request, process.pc, c), process.request.id;
      && (process.pc.ReadTarget? ==> e.store == s)
      && (process.pc.ReadTarget? && process.request.RevokeGrant? ==>
            if id !in s.grants then e.pc == Done(Failed)
            else e.pc == if s.grants[id].record.revokedAt == None then WriteGrant(s.grants[id]) else Done(Applied))
      && (process.pc.ReadTarget? && process.request.RevokeInvite? ==>
            if id !in s.invites then e.pc == Done(Failed)
            else e.pc == if s.invites[id].record.revokedAt == None then WriteInvite(s.invites[id]) else Done(Applied))
      && (process.pc.ReadTarget? && process.request.RevokeInstall? ==>
            if id !in s.installs then e.pc == Done(Failed)
            else e.pc == if s.installs[id].record.status != Revoked then WriteInstall(s.installs[id]) else Done(Applied))
      && (process.pc.WriteGrant? ==>
            if id in s.grants && (s.grants[id] == process.pc.grant || (c.lenient && s.grants[id].record == process.pc.grant.record))
            then e.pc == Done(Applied) && id in e.store.grants
                 && e.store.grants[id].record == process.pc.grant.record.(revokedAt := Some(c.now))
            else e.pc == Done(Conflict) && e.store == s)
      && (process.pc.WriteInvite? ==>
            if id in s.invites && (s.invites[id] == process.pc.invite || (c.lenient && s.invites[id].record == process.pc.invite.record))
            then e.pc == Done(Applied) && id in e.store.invites
                 && e.store.invites[id].record == process.pc.invite.record.(revokedAt := Some(c.now))
            else e.pc == Done(Conflict) && e.store == s)
      && (process.pc.WriteInstall? ==>
            if id in s.installs && (s.installs[id] == process.pc.install || (c.lenient && s.installs[id].record == process.pc.install.record))
            then e.pc == Done(Applied) && id in e.store.installs
                 && e.store.installs[id].record == process.pc.install.record.(status := Revoked, revokedAt := Some(c.now), updatedAt := c.now)
            else e.pc == Done(Conflict) && e.store == s)
  {
  }

  /**
   * A release of something unknown fails, of a spent invite is refused, of a free one is done already; one
   * reserved is refused while its install is stored and not revoked, and otherwise freed if nothing changed.
   */
  lemma WhatAReleaseAnswers(s: Store, id: string, pc: Pc, c: Choice)
    ensures var e := StepRelease(s, id, pc, c);
      && (pc.ReadTarget? ==> e.store == s)
      && (pc.ReadTarget? && id !in s.invites ==> e.pc == Done(Failed))
      && (pc.ReadTarget? && id in s.invites ==>
            var invite := s.invites[id].record;
            e.pc == if invite.spentAt != None then Done(Refused) else if invite.reservedInstall == "" then Done(Applied) else ReadReserved(s.invites[id]))
      && (pc.ReadReserved? ==>
            var key := pc.invite.record.reservedInstall;
            && e.store == s
            && e.pc == if key in s.installs && s.installs[key].record.status != Revoked then Done(Refused) else WriteRelease(pc.invite))
      && (pc.WriteRelease? ==>
            if id in s.invites && (s.invites[id] == pc.invite || (c.lenient && s.invites[id].record == pc.invite.record))
            then e.pc == Done(Applied) && e.store.installs == s.installs && e.store.grants == s.grants && id in e.store.invites
                 && e.store.invites[id].record == pc.invite.record.(reservedInstall := "", reservedDigest := None, reservedAt := None)
            else e.pc == Done(Conflict) && e.store == s)
  {
  }

  /**
   * A call that dies before an operation did nothing of it, one that dies after did all of it, and neither
   * goes on; a call whose token does not parse is refused.
   */
  lemma WhatDyingDoes(organization: string, s: Store, process: Process, c: Choice)
    requires !process.pc.Done?
    ensures var e, well := StepProcess(organization, s, process, c), StepProcess(organization, s, process, c.(fault := NoFault));
      && (c.fault == Before ==> e == Effect(s, Done(Failed), false))
      && (c.fault == After ==> e == Effect(well.store, Done(Failed), well.activated))
      && ((process.request.EnrollInvite? || process.request.EnrollGrant?) && process.request.token.None? ==>
            well == Effect(s, Done(Forbidden), false))
  {
  }

  /** A call starts at its first read, under a number not taken; its step writes the store, its place and, activating, the history. */
  lemma WhatEventsDo(organization: string, w: World, p: nat, request: Request, c: Choice)
    ensures var v := Next(organization, w, Start(p, request));
      if p in w.processes || ((request.EnrollInvite? || request.EnrollGrant?) && request.install.installId == "") then v == w
      else v == World(w.store, w.processes[p := Process(request,
             if request.EnrollInvite? then ReadInvite else if request.EnrollGrant? then ReadGrant else ReadTarget)], w.activations)
    ensures var v := Next(organization, w, Step(p, c));
      if p !in w.processes then v == w
      else
        var process := w.processes[p];
        var e := StepProcess(organization, w.store, process, c);
        && v.store == e.store && v.processes == w.processes[p := Process(process.request, e.pc)]
        && v.activations == w.activations + (
             if e.activated && process.request.EnrollInvite? && process.request.token.Some?
             then {(process.request.token.value.id, process.request.install.installId)} else {})
  {
    hide StepProcess;
  }

  /** A token minted is stored free, unspent and unrevoked under the digest of its secret; an id is minted once. */
  lemma WhatMintingStores(organization: string, w: World, id: string, secret: string, expiresAt: int)
    ensures var v := Next(organization, w, MintInvite(id, secret, expiresAt));
      if id in w.store.invites then v == w
      else v.store == w.store.(invites := v.store.invites) && v.store.invites == w.store.invites[id := Versioned(
             InviteRecord(1, id, Sha256(secret), expiresAt, None, "", None, None, None), 0)]
    ensures var v := Next(organization, w, MintGrant(id, secret, expiresAt));
      if id in w.store.grants then v == w
      else v.store == w.store.(grants := v.store.grants) && v.store.grants == w.store.grants[id := Versioned(
             GrantRecord(1, id, Sha256(secret), expiresAt, None), 0)]
  {
  }

  // --- secrets over runs -------------------------------------------------------------------------

  // The secret an id was minted with: only the first mint of an id takes.
  function InviteSecret(events: seq<Event>, id: string): Option<string> {
    if events == [] then None
    else if events[0].MintInvite? && events[0].id == id then Some(events[0].secret)
    else InviteSecret(events[1..], id)
  }

  function GrantSecret(events: seq<Event>, id: string): Option<string> {
    if events == [] then None
    else if events[0].MintGrant? && events[0].id == id then Some(events[0].secret)
    else GrantSecret(events[1..], id)
  }

  lemma {:induction false} OneMoreEvent(past: seq<Event>, e: Event, id: string)
    ensures InviteSecret(past + [e], id) ==
            if InviteSecret(past, id).Some? then InviteSecret(past, id)
            else if e.MintInvite? && e.id == id then Some(e.secret) else None
    ensures GrantSecret(past + [e], id) ==
            if GrantSecret(past, id).Some? then GrantSecret(past, id)
            else if e.MintGrant? && e.id == id then Some(e.secret) else None
    decreases |past|
  {
    if past == [] {
      assert [e][1..] == [];
    } else {
      assert (past + [e])[1..] == past[1..] + [e];
      OneMoreEvent(past[1..], e, id);
    }
  }

  // The call's token is one this organization minted, secret and all.
  ghost predicate Authentic(organization: string, past: seq<Event>, request: Request) {
    match request
    case EnrollInvite(Some(token), _) => token.organization == organization && InviteSecret(past, token.id) == Some(token.secret)
    case EnrollGrant(Some(token), _) => token.organization == organization && GrantSecret(past, token.id) == Some(token.secret)
    case _ => false
  }

  // A call past its checks.
  predicate Admits(pc: Pc) {
    pc.Reserve? || pc.ReadInstall? || pc.CreateInstall? || pc.RereadInvite? || pc.Spend? || pc.RereadInstall? || pc.Activate?
    || pc.CreateActive? || pc.ReadExisting?
  }

  predicate Names(request: Request, key: string) {
    (request.EnrollInvite? || request.EnrollGrant?) && request.install.installId == key
  }

  ghost predicate MintedRecords(past: seq<Event>, s: Store) {
    && (forall i :: i in s.invites ==> InviteSecret(past, i).Some? && s.invites[i].record.secretDigest == Sha256(InviteSecret(past, i).value))
    && (forall i :: i in s.grants ==> GrantSecret(past, i).Some? && s.grants[i].record.secretDigest == Sha256(GrantSecret(past, i).value))
    && (forall i :: InviteSecret(past, i).Some? ==> i in s.invites)
    && (forall i :: GrantSecret(past, i).Some? ==> i in s.grants)
  }

  // Some authentic call asked for this install.
  ghost predicate Vouched(organization: string, past: seq<Event>, w: World, key: string) {
    exists p <- w.processes :: Names(w.processes[p].request, key) && Authentic(organization, past, w.processes[p].request)
  }

  ghost predicate VouchedBy(organization: string, past: seq<Event>, w: World, invite: string, key: string) {
    exists p <- w.processes ::
      && EnrollsWith(w.processes[p]) && w.processes[p].request.token.value.id == invite && w.processes[p].request.install.installId == key
      && Authentic(organization, past, w.processes[p].request)
  }

  ghost predicate Credentialed(organization: string, past: seq<Event>, w: World) {
    && MintedRecords(past, w.store)
    && (forall p <- w.processes :: Admits(w.processes[p].pc) ==> Authentic(organization, past, w.processes[p].request))
    && (forall k <- w.store.installs :: Vouched(organization, past, w, k))
    && (forall a <- w.activations :: VouchedBy(organization, past, w, a.0, a.1))
  }

  // What a step owes: a call gets past its checks only with the secret, and only such a call writes installs.
  ghost predicate StepAuthentic(organization: string, past: seq<Event>, s: Store, process: Process, e: Effect) {
    && (Admits(e.pc) ==> Authentic(organization, past, process.request))
    && (forall k :: k in e.store.installs && k !in s.installs ==>
          Names(process.request, k) && Authentic(organization, past, process.request))
    && (e.activated ==> Authentic(organization, past, process.request))
    && e.store.invites.Keys == s.invites.Keys && e.store.grants.Keys == s.grants.Keys
  }

  lemma InviteStepIsAuthentic(organization: string, past: seq<Event>, s: Store, process: Process, c: Choice)
    requires EnrollsWith(process) && MintedRecords(past, s)
    requires Admits(process.pc) ==> Authentic(organization, past, process.request)
    ensures StepAuthentic(organization, past, s, process,
                          StepEnrollInvite(organization, s, process.request.token.value, process.request.install, process.pc, c))
  {
    hide SameEnrollment;
  }

  lemma GrantStepIsAuthentic(organization: string, past: seq<Event>, s: Store, process: Process, c: Choice)
    requires process.request.EnrollGrant? && process.request.token.Some? && MintedRecords(past, s)
    requires Admits(process.pc) ==> Authentic(organization, past, process.request)
    ensures StepAuthentic(organization, past, s, process,
                          StepEnrollGrant(organization, s, process.request.token.value, process.request.install, process.pc, c))
  {
    hide SameIdentity;
  }

  lemma OtherStepsAdmitNobody(organization: string, past: seq<Event>, s: Store, process: Process, c: Choice)
    requires Admits(process.pc) ==> Authentic(organization, past, process.request)
    ensures process.request.ReleaseInvite? ==> StepAuthentic(organization, past, s, process, StepRelease(s, process.request.id, process.pc, c))
    ensures process.request.RevokeGrant? || process.request.RevokeInvite? || process.request.RevokeInstall? ==>
              StepAuthentic(organization, past, s, process, StepRevoke(s, process.request, process.pc, c))
  {
  }

  lemma StepIsAuthentic(organization: string, past: seq<Event>, s: Store, process: Process, c: Choice)
    requires MintedRecords(past, s) && (Admits(process.pc) ==> Authentic(organization, past, process.request))
    ensures StepAuthentic(organization, past, s, process, StepProcess(organization, s, process, c))
  {
    hide StepEnrollInvite, StepEnrollGrant, StepRelease, StepRevoke, MintedRecords;
    match process.request
    case EnrollInvite(Some(_), _) => InviteStepIsAuthentic(organization, past, s, process, c);
    case EnrollGrant(Some(_), _) => GrantStepIsAuthentic(organization, past, s, process, c);
    case EnrollInvite(None, _) =>
    case EnrollGrant(None, _) =>
    case _ => OtherStepsAdmitNobody(organization, past, s, process, c);
  }

  // One more event forgets no secret.
  lemma AuthenticStays(organization: string, past: seq<Event>, e: Event, request: Request)
    requires Authentic(organization, past, request)
    ensures Authentic(organization, past + [e], request)
  {
    match request
    case EnrollInvite(Some(token), _) => OneMoreEvent(past, e, token.id);
    case EnrollGrant(Some(token), _) => OneMoreEvent(past, e, token.id);
  }

  lemma RecordsStayMinted(organization: string, past: seq<Event>, w: World, e: Event)
    requires MintedRecords(past, w.store) && Consistent(organization, w)
    requires e.Step? && e.process in w.processes ==>
      var t := StepProcess(organization, w.store, w.processes[e.process], e.choice).store;
      t.invites.Keys == w.store.invites.Keys && t.grants.Keys == w.store.grants.Keys
    ensures MintedRecords(past + [e], Next(organization, w, e).store)
  {
    hide StepProcess;
    NextAdvances(organization, w, e);
    var t := Next(organization, w, e).store;
    forall i ensures InviteSecret(past + [e], i).Some? <==> i in t.invites {
      OneMoreEvent(past, e, i);
    }
    forall i ensures GrantSecret(past + [e], i).Some? <==> i in t.grants {
      OneMoreEvent(past, e, i);
    }
    forall i | i in t.invites ensures t.invites[i].record.secretDigest == Sha256(InviteSecret(past + [e], i).value) {
      OneMoreEvent(past, e, i);
    }
    forall i | i in t.grants ensures t.grants[i].record.secretDigest == Sha256(GrantSecret(past + [e], i).value) {
      OneMoreEvent(past, e, i);
    }
  }

  lemma NextCredentialed(organization: string, past: seq<Event>, w: World, e: Event)
    requires Credentialed(organization, past, w) && Consistent(organization, w)
    ensures Credentialed(organization, past + [e], Next(organization, w, e))
  {
    hide StepProcess, MintedRecords, Consistent, Authentic;
    var v := Next(organization, w, e);
    if e.Step? && e.process in w.processes {
      StepIsAuthentic(organization, past, w.store, w.processes[e.process], e.choice);
    }
    RecordsStayMinted(organization, past, w, e);
    forall p | p in v.processes && Admits(v.processes[p].pc) ensures Authentic(organization, past + [e], v.processes[p].request) {
      AuthenticStays(organization, past, e, v.processes[p].request);
    }
    assert forall p <- w.processes :: p in v.processes && v.processes[p].request == w.processes[p].request;
    forall k | k in v.store.installs ensures Vouched(organization, past + [e], v, k) {
      var p: nat;
      if k in w.store.installs {
        assert Vouched(organization, past, w, k);
        p :| p in w.processes && Names(w.processes[p].request, k) && Authentic(organization, past, w.processes[p].request);
      } else {
        p := e.process;
      }
      AuthenticStays(organization, past, e, v.processes[p].request);
    }
    forall a | a in v.activations ensures VouchedBy(organization, past + [e], v, a.0, a.1) {
      var p: nat;
      if a in w.activations {
        assert VouchedBy(organization, past, w, a.0, a.1);
        p :| && p in w.processes && EnrollsWith(w.processes[p]) && w.processes[p].request.token.value.id == a.0
             && w.processes[p].request.install.installId == a.1 && Authentic(organization, past, w.processes[p].request);
      } else {
        p := e.process;
      }
      AuthenticStays(organization, past, e, v.processes[p].request);
    }
  }

  lemma {:induction false} RunCredentialed(organization: string, past: seq<Event>, w: World, events: seq<Event>)
    requires Credentialed(organization, past, w) && Consistent(organization, w)
    ensures Credentialed(organization, past + events, Run(organization, w, events))
    decreases |events|
  {
    hide Credentialed, Consistent;
    if events == [] {
      assert past + events == past;
    } else {
      NextCredentialed(organization, past, w, events[0]);
      NextAdvances(organization, w, events[0]);
      RunCredentialed(organization, past + [events[0]], Next(organization, w, events[0]), events[1..]);
      assert past + [events[0]] + events[1..] == past + events;
    }
  }

  /**
   * However calls interleave and die: every install ever registered was asked for by a call of this
   * organization that presented the very secret its invite or grant was minted with; and an install
   * activated by an invite, by a call that presented that invite's.
   */
  lemma OnlyTheSecretLetsIn(organization: string, events: seq<Event>)
    ensures var w := Run(organization, EMPTY, events);
      && (forall k <- w.store.installs :: exists p <- w.processes ::
            var request := w.processes[p].request;
            && (request.EnrollInvite? || request.EnrollGrant?) && request.install.installId == k && request.token.Some?
            && request.token.value.organization == organization
            && Some(request.token.value.secret) ==
               if request.EnrollInvite? then InviteSecret(events, request.token.value.id) else GrantSecret(events, request.token.value.id))
      && (forall a <- w.activations :: exists p <- w.processes ::
            var request := w.processes[p].request;
            && request.EnrollInvite? && request.install.installId == a.1 && request.token.Some? && request.token.value.id == a.0
            && request.token.value.organization == organization && InviteSecret(events, a.0) == Some(request.token.value.secret))
  {
    RunCredentialed(organization, [], EMPTY, events);
    assert [] + events == events;
    var w := Run(organization, EMPTY, events);
    forall k <- w.store.installs
      ensures exists p <- w.processes ::
        var request := w.processes[p].request;
        && (request.EnrollInvite? || request.EnrollGrant?) && request.install.installId == k && request.token.Some?
        && request.token.value.organization == organization
        && Some(request.token.value.secret) ==
           if request.EnrollInvite? then InviteSecret(events, request.token.value.id) else GrantSecret(events, request.token.value.id)
    {
      assert Vouched(organization, events, w, k);
    }
    forall a <- w.activations
      ensures exists p <- w.processes ::
        var request := w.processes[p].request;
        && request.EnrollInvite? && request.install.installId == a.1 && request.token.Some? && request.token.value.id == a.0
        && request.token.value.organization == organization && InviteSecret(events, a.0) == Some(request.token.value.secret)
    {
      assert VouchedBy(organization, events, w, a.0, a.1);
    }
  }
}
