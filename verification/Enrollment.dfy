/**
 * Enrollment against a conditional-write object store, as a state machine.
 *
 * Every Get, Create and Replace is one atomic step of one of arbitrarily many calls; any call may
 * stop at any step, before or after the store applied its write. One organization is modelled.
 */
module Enrollment {
  import opened Wrappers

  const SCHEMA_VERSION := 1

  // Digests are symbolic, so they are injective.
  datatype Digest = Sha256(text: string)

  // A token already split into its three parts; the server parses it from the right.
  datatype Token = Token(organization: string, id: string, secret: string)

  datatype InstallStatus = Pending | Active | Revoked

  datatype InviteRecord = InviteRecord(
    schema: int, id: string, secretDigest: Digest, expiresAt: int, revokedAt: Option<int>,
    reservedInstall: string, reservedDigest: Option<Digest>, reservedAt: Option<int>, spentAt: Option<int>)

  datatype GrantRecord = GrantRecord(
    schema: int, id: string, secretDigest: Digest, expiresAt: int, revokedAt: Option<int>)

  datatype InstallRecord = InstallRecord(
    schema: int, organization: string, installId: string, devicePublicKey: string, ageRecipient: string,
    digest: Digest, status: InstallStatus, createdAt: int, updatedAt: int, revokedAt: Option<int>)

  // --- the object store ------------------------------------------------------------------------

  // `generation` counts the writes to one key. A provider whose versions are generations accepts a
  // Replace iff the whole value is the one read; one whose versions are content tags may also accept
  // when only the content is the same. Callers never look inside.
  datatype Versioned<T> = Versioned(record: T, generation: nat)

  type Records<T> = map<string, Versioned<T>>

  function Created<T>(records: Records<T>, key: string, record: T): Option<Records<T>> {
    if key in records then None else Some(records[key := Versioned(record, 0)])
  }

  predicate Accepts<T(==)>(records: Records<T>, key: string, read: Versioned<T>, lenient: bool) {
    key in records && (records[key] == read || (lenient && records[key].record == read.record))
  }

  function Replaced<T(==)>(records: Records<T>, key: string, read: Versioned<T>, record: T, lenient: bool)
    : Option<Records<T>>
  {
    if Accepts(records, key, read, lenient)
    then Some(records[key := Versioned(record, records[key].generation + 1)])
    else None
  }

  datatype Store = Store(
    invites: Records<InviteRecord>, grants: Records<GrantRecord>, installs: Records<InstallRecord>)

  // --- calls -----------------------------------------------------------------------------------

  datatype Request =
    | EnrollInvite(token: Option<Token>, install: InstallRecord)
    | EnrollGrant(token: Option<Token>, install: InstallRecord)
    | RevokeGrant(id: string)
    | RevokeInvite(id: string)
    | RevokeInstall(id: string)
    | ReleaseInvite(id: string)

  datatype Verdict = Enrolled | Forbidden | EnrollmentConflict | Applied | Refused | Conflict | Failed

  // Where a call stands: the operation it performs next, with what it read so far.
  datatype Pc =
    | ReadInvite
    | Reserve(invite: Versioned<InviteRecord>, now: int)
    | ReadInstall(now: int)
    | CreateInstall(now: int)
    | RereadInvite
    | Spend(invite: Versioned<InviteRecord>)
    | RereadInstall
    | Activate(install: Versioned<InstallRecord>)
    | ReadGrant
    | CreateActive(now: int)
    | ReadExisting
    | ReadTarget
    | WriteGrant(grant: Versioned<GrantRecord>)
    | WriteInvite(invite: Versioned<InviteRecord>)
    | WriteInstall(install: Versioned<InstallRecord>)
    | ReadReserved(invite: Versioned<InviteRecord>)
    | WriteRelease(invite: Versioned<InviteRecord>)
    | Done(verdict: Verdict)

  datatype Process = Process(request: Request, pc: Pc)

  predicate EnrollsWith(process: Process) {
    process.request.EnrollInvite? && process.request.token.Some?
  }

  // The record a call stores: the server fills in the schema and its own organization.
  function Normalized(organization: string, install: InstallRecord): InstallRecord {
    install.(schema := SCHEMA_VERSION, organization := organization)
  }

  // The HTTP handler only passes on requests whose install id is a UUID.
  predicate Admitted(request: Request) {
    (request.EnrollInvite? || request.EnrollGrant?) ==> request.install.installId != ""
  }

  function Initial(request: Request): Pc {
    match request
    case EnrollInvite(_, _) => ReadInvite
    case EnrollGrant(_, _) => ReadGrant
    case _ => ReadTarget
  }

  // --- the checks ------------------------------------------------------------------------------

  predicate SameIdentity(current: InstallRecord, requested: InstallRecord) {
    && current.schema == SCHEMA_VERSION && current.organization == requested.organization
    && current.installId == requested.installId
    && current.devicePublicKey == requested.devicePublicKey && current.ageRecipient == requested.ageRecipient
  }

  predicate SameEnrollment(current: InstallRecord, requested: InstallRecord) {
    current.digest == requested.digest && SameIdentity(current, requested)
  }

  predicate ReservedFor(invite: InviteRecord, install: InstallRecord) {
    invite.reservedInstall == install.installId && invite.reservedDigest == Some(install.digest)
  }

  predicate TokenVerifies(token: Token, id: string, digest: Digest) {
    token.id == id && Sha256(token.secret) == digest
  }

  // Every check EnrollInvite makes before it writes anything.
  predicate InviteUsable(invite: InviteRecord, token: Token, install: InstallRecord, now: int) {
    && invite.schema == SCHEMA_VERSION && TokenVerifies(token, invite.id, invite.secretDigest)
    && invite.revokedAt.None?
    && (invite.reservedInstall == "" ==> now < invite.expiresAt && invite.spentAt.None?)
    && (invite.reservedInstall != "" ==> ReservedFor(invite, install))
  }

  predicate GrantUsable(grant: GrantRecord, token: Token, now: int) {
    && grant.schema == SCHEMA_VERSION && TokenVerifies(token, grant.id, grant.secretDigest)
    && grant.revokedAt.None? && now < grant.expiresAt
  }

  // --- one atomic step of one call -------------------------------------------------------------

  // What the environment decides about a step: the clock, whether the call dies before or after the
  // store applied the operation, and whether the store accepts an unchanged content as unchanged.
  datatype Fault = NoFault | Before | After
  datatype Choice = Choice(now: int, fault: Fault, lenient: bool)

  // `activated` reports that this step turned a pending install into an active one.
  datatype Effect = Effect(store: Store, pc: Pc, activated: bool)

  function Quiet(store: Store, pc: Pc): Effect { Effect(store, pc, false) }

  function StepEnrollInvite(organization: string, store: Store, token: Token, requested: InstallRecord, pc: Pc, c: Choice)
    : Effect
  {
    var install := Normalized(organization, requested);
    var key := install.installId;
    match pc
    case ReadInvite =>
      if token.organization != organization || token.id !in store.invites then Quiet(store, Done(Forbidden))
      else
        var read := store.invites[token.id];
        if !InviteUsable(read.record, token, install, c.now) then Quiet(store, Done(Forbidden))
        else if read.record.reservedInstall == "" then Quiet(store, Reserve(read, c.now))
        else Quiet(store, ReadInstall(c.now))
    case Reserve(read, now) =>
      var reserved := read.record.(reservedInstall := key, reservedDigest := Some(install.digest), reservedAt := Some(now));
      (match Replaced(store.invites, token.id, read, reserved, c.lenient)
       case Some(invites) => Quiet(store.(invites := invites), ReadInstall(now))
       case None => Quiet(store, ReadInvite))
    case ReadInstall(now) =>
      if key !in store.installs then Quiet(store, CreateInstall(now))
      else
        var current := store.installs[key].record;
        if !SameEnrollment(current, install) || current.status == Revoked then Quiet(store, Done(EnrollmentConflict))
        else if current.status == Active then Quiet(store, Done(Enrolled))
        else Quiet(store, RereadInvite)
    case CreateInstall(now) =>
      var pending := install.(status := Pending, createdAt := now, updatedAt := now);
      (match Created(store.installs, key, pending)
       case Some(installs) => Quiet(store.(installs := installs), RereadInvite)
       case None => Quiet(store, ReadInvite))
    case RereadInvite =>
      if token.id !in store.invites then Quiet(store, Done(Failed))
      else if store.invites[token.id].record.spentAt.None? then Quiet(store, Spend(store.invites[token.id]))
      else Quiet(store, RereadInstall)
    case Spend(read) =>
      (match Replaced(store.invites, token.id, read, read.record.(spentAt := Some(c.now)), c.lenient)
       case Some(invites) => Quiet(store.(invites := invites), RereadInstall)
       case None => Quiet(store, ReadInvite))
    case RereadInstall =>
      if key !in store.installs then Quiet(store, Done(Failed))
      else
        var current := store.installs[key];
        if current.record.status == Active && SameEnrollment(current.record, install) then Quiet(store, Done(Enrolled))
        else if current.record.status != Pending || !SameEnrollment(current.record, install)
        then Quiet(store, Done(EnrollmentConflict))
        else Quiet(store, Activate(current))
    case Activate(read) =>
      (match Replaced(store.installs, key, read, read.record.(status := Active, updatedAt := c.now), c.lenient)
       case Some(installs) => Effect(store.(installs := installs), Done(Enrolled), true)
       case None => Quiet(store, ReadInvite))
    case _ => Quiet(store, pc)
  }

  function StepEnrollGrant(organization: string, store: Store, token: Token, requested: InstallRecord, pc: Pc, c: Choice)
    : Effect
  {
    var install := Normalized(organization, requested);
    var key := install.installId;
    match pc
    case ReadGrant =>
      if token.organization != organization || token.id !in store.grants
        || !GrantUsable(store.grants[token.id].record, token, c.now)
      then Quiet(store, Done(Forbidden))
      else Quiet(store, CreateActive(c.now))
    case CreateActive(now) =>
      (match Created(store.installs, key, install.(status := Active, createdAt := now, updatedAt := now))
       case Some(installs) => Quiet(store.(installs := installs), Done(Enrolled))
       case None => Quiet(store, ReadExisting))
    case ReadExisting =>
      if key !in store.installs then Quiet(store, Done(Failed))
      else
        var current := store.installs[key].record;
        Quiet(store, Done(if current.status == Active && SameIdentity(current, install) then Enrolled else EnrollmentConflict))
    case _ => Quiet(store, pc)
  }

  function StepRevoke(store: Store, request: Request, pc: Pc, c: Choice): Effect
    requires request.RevokeGrant? || request.RevokeInvite? || request.RevokeInstall?
  {
    match pc
    case ReadTarget =>
      (match request
       case RevokeGrant(id) =>
         if id !in store.grants then Quiet(store, Done(Failed))
         else if store.grants[id].record.revokedAt.Some? then Quiet(store, Done(Applied))
         else Quiet(store, WriteGrant(store.grants[id]))
       case RevokeInvite(id) =>
         if id !in store.invites then Quiet(store, Done(Failed))
         else if store.invites[id].record.revokedAt.Some? then Quiet(store, Done(Applied))
         else Quiet(store, WriteInvite(store.invites[id]))
       case RevokeInstall(id) =>
         if id !in store.installs then Quiet(store, Done(Failed))
         else if store.installs[id].record.status == Revoked then Quiet(store, Done(Applied))
         else Quiet(store, WriteInstall(store.installs[id])))
    case WriteGrant(read) =>
      (match Replaced(store.grants, request.id, read, read.record.(revokedAt := Some(c.now)), c.lenient)
       case Some(grants) => Quiet(store.(grants := grants), Done(Applied))
       case None => Quiet(store, Done(Conflict)))
    case WriteInvite(read) =>
      (match Replaced(store.invites, request.id, read, read.record.(revokedAt := Some(c.now)), c.lenient)
       case Some(invites) => Quiet(store.(invites := invites), Done(Applied))
       case None => Quiet(store, Done(Conflict)))
    case WriteInstall(read) =>
      var revoked := read.record.(status := Revoked, revokedAt := Some(c.now), updatedAt := c.now);
      (match Replaced(store.installs, request.id, read, revoked, c.lenient)
       case Some(installs) => Quiet(store.(installs := installs), Done(Applied))
       case None => Quiet(store, Done(Conflict)))
    case _ => Quiet(store, pc)
  }

  function Unreserved(invite: InviteRecord): InviteRecord {
    invite.(reservedInstall := "", reservedDigest := None, reservedAt := None)
  }

  function StepRelease(store: Store, id: string, pc: Pc, c: Choice): Effect {
    match pc
    case ReadTarget =>
      if id !in store.invites then Quiet(store, Done(Failed))
      else
        var read := store.invites[id];
        if read.record.spentAt.Some? then Quiet(store, Done(Refused))
        else if read.record.reservedInstall == "" then Quiet(store, Done(Applied))
        else Quiet(store, ReadReserved(read))
    case ReadReserved(read) =>
      var key := read.record.reservedInstall;
      if key in store.installs && store.installs[key].record.status != Revoked then Quiet(store, Done(Refused))
      else Quiet(store, WriteRelease(read))
    case WriteRelease(read) =>
      (match Replaced(store.invites, id, read, Unreserved(read.record), c.lenient)
       case Some(invites) => Quiet(store.(invites := invites), Done(Applied))
       case None => Quiet(store, Done(Conflict)))
    case _ => Quiet(store, pc)
  }

  function StepProcess(organization: string, store: Store, process: Process, c: Choice): Effect {
    if c.fault == Before && !process.pc.Done? then Quiet(store, Done(Failed))
    else
      var effect :=
        match process.request
        case EnrollInvite(None, _) => Quiet(store, if process.pc.Done? then process.pc else Done(Forbidden))
        case EnrollInvite(Some(token), install) => StepEnrollInvite(organization, store, token, install, process.pc, c)
        case EnrollGrant(None, _) => Quiet(store, if process.pc.Done? then process.pc else Done(Forbidden))
        case EnrollGrant(Some(token), install) => StepEnrollGrant(organization, store, token, install, process.pc, c)
        case ReleaseInvite(id) => StepRelease(store, id, process.pc, c)
        case _ => StepRevoke(store, process.request, process.pc, c);
      if c.fault == After && !process.pc.Done? then effect.(pc := Done(Failed)) else effect
  }

  // --- runs ------------------------------------------------------------------------------------

  // `activations` is history: which invite activated which install.
  datatype World = World(store: Store, processes: map<nat, Process>, activations: set<(string, string)>)

  datatype Event =
    | Start(process: nat, request: Request)
    | Step(process: nat, choice: Choice)
    | MintInvite(id: string, secret: string, expiresAt: int)
    | MintGrant(id: string, secret: string, expiresAt: int)

  const EMPTY := World(Store(map[], map[], map[]), map[], {})

  // The world once one step of call `p` took effect.
  function Landed(w: World, p: nat, effect: Effect): World
    requires p in w.processes
  {
    var process := w.processes[p];
    World(
      effect.store,
      w.processes[p := process.(pc := effect.pc)],
      if effect.activated && EnrollsWith(process)
      then w.activations + {(process.request.token.value.id, process.request.install.installId)}
      else w.activations)
  }

  function Next(organization: string, w: World, e: Event): World {
    match e
    case Start(p, request) =>
      if p in w.processes || !Admitted(request) then w
      else w.(processes := w.processes[p := Process(request, Initial(request))])
    case Step(p, c) =>
      if p !in w.processes then w else Landed(w, p, StepProcess(organization, w.store, w.processes[p], c))
    case MintInvite(id, secret, expiresAt) =>
      var record := InviteRecord(SCHEMA_VERSION, id, Sha256(secret), expiresAt, None, "", None, None, None);
      (match Created(w.store.invites, id, record)
       case Some(invites) => w.(store := w.store.(invites := invites))
       case None => w)
    case MintGrant(id, secret, expiresAt) =>
      var record := GrantRecord(SCHEMA_VERSION, id, Sha256(secret), expiresAt, None);
      (match Created(w.store.grants, id, record)
       case Some(grants) => w.(store := w.store.(grants := grants))
       case None => w)
  }

  function Run(organization: string, w: World, events: seq<Event>): World
    decreases |events|
  {
    if events == [] then w else Run(organization, Next(organization, w, events[0]), events[1..])
  }

  lemma {:induction false} RunAppend(organization: string, w: World, first: seq<Event>, second: seq<Event>)
    ensures Run(organization, w, first + second) == Run(organization, Run(organization, w, first), second)
    decreases |first|
  {
    if first == [] {
      assert first + second == second;
    } else {
      assert (first + second)[1..] == first[1..] + second;
      RunAppend(organization, Next(organization, w, first[0]), first[1..], second);
    }
  }
}
