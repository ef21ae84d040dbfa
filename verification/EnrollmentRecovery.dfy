/**
 * What an enrollment call does when nothing interferes, in closed form; and that every durable state
 * a dead call can leave is brought to active by replaying the same request.
 */
module EnrollmentRecovery {
  import opened Wrappers
  import opened Enrollment

  // --- the writes of one undisturbed call -------------------------------------------------------

  datatype Write = PutInvite(id: string, invite: InviteRecord) | PutInstall(key: string, install: InstallRecord)

  function Put<T>(records: Records<T>, key: string, record: T): Records<T> {
    records[key := Versioned(record, if key in records then records[key].generation + 1 else 0)]
  }

  function Apply(s: Store, write: Write): Store {
    match write
    case PutInvite(id, invite) => s.(invites := Put(s.invites, id, invite))
    case PutInstall(key, install) => s.(installs := Put(s.installs, key, install))
  }

  function ApplyAll(s: Store, writes: seq<Write>): Store
    decreases |writes|
  {
    if writes == [] then s else ApplyAll(Apply(s, writes[0]), writes[1..])
  }

  function PendingInstall(install: InstallRecord, now: int): InstallRecord {
    install.(status := Pending, createdAt := now, updatedAt := now)
  }

  function ReservedInvite(invite: InviteRecord, install: InstallRecord, now: int): InviteRecord {
    invite.(reservedInstall := install.installId, reservedDigest := Some(install.digest), reservedAt := Some(now))
  }

  // May this request enroll against this store, as far as the invite goes.
  predicate Passes(organization: string, s: Store, token: Token, install: InstallRecord, now: int) {
    && token.organization == organization && token.id in s.invites
    && InviteUsable(s.invites[token.id].record, token, install, now)
  }

  predicate InstallRefused(s: Store, install: InstallRecord) {
    && install.installId in s.installs
    && (!SameEnrollment(s.installs[install.installId].record, install) || s.installs[install.installId].record.status == Revoked)
  }

  predicate InstallActive(s: Store, install: InstallRecord) {
    && install.installId in s.installs && s.installs[install.installId].record.status == Active
    && SameEnrollment(s.installs[install.installId].record, install)
  }

  function EnrollVerdict(organization: string, s: Store, token: Token, requested: InstallRecord, now: int): Verdict {
    var install := Normalized(organization, requested);
    if !Passes(organization, s, token, install, now) then Forbidden
    else if InstallRefused(s, install) then EnrollmentConflict
    else Enrolled
  }

  // At most four writes: reserve, create, spend, activate, each left out when already done.
  function EnrollWrites(organization: string, s: Store, token: Token, requested: InstallRecord, now: int): (writes: seq<Write>)
    ensures |writes| <= 4
  {
    var install := Normalized(organization, requested);
    if !Passes(organization, s, token, install, now) then []
    else
      var invite := s.invites[token.id].record;
      var reserved := if invite.reservedInstall == "" then ReservedInvite(invite, install, now) else invite;
      var reserve := if invite.reservedInstall == "" then [PutInvite(token.id, reserved)] else [];
      if InstallRefused(s, install) || InstallActive(s, install) then reserve
      else
        var created := install.installId !in s.installs;
        var pending := if created then PendingInstall(install, now) else s.installs[install.installId].record;
        reserve
        + (if created then [PutInstall(install.installId, pending)] else [])
        + (if reserved.spentAt.None? then [PutInvite(token.id, reserved.(spentAt := Some(now)))] else [])
        + [PutInstall(install.installId, pending.(status := Active, updatedAt := now))]
  }

  // --- the one write of an undisturbed grant ------------------------------------------------------

  predicate GrantPasses(organization: string, s: Store, token: Token, now: int) {
    token.organization == organization && token.id in s.grants && GrantUsable(s.grants[token.id].record, token, now)
  }

  // The digest is not compared: another request for the same identity is as good.
  predicate IdentityActive(s: Store, install: InstallRecord) {
    && install.installId in s.installs && s.installs[install.installId].record.status == Active
    && SameIdentity(s.installs[install.installId].record, install)
  }

  function ActiveInstall(install: InstallRecord, now: int): InstallRecord {
    install.(status := Active, createdAt := now, updatedAt := now)
  }

  function GrantVerdict(organization: string, s: Store, token: Token, requested: InstallRecord, now: int): Verdict {
    var install := Normalized(organization, requested);
    if !GrantPasses(organization, s, token, now) then Forbidden
    else if install.installId !in s.installs || IdentityActive(s, install) then Enrolled
    else EnrollmentConflict
  }

  function GrantWrites(organization: string, s: Store, token: Token, requested: InstallRecord, now: int): seq<Write> {
    var install := Normalized(organization, requested);
    if GrantPasses(organization, s, token, now) && install.installId !in s.installs
    then [PutInstall(install.installId, ActiveInstall(install, now))]
    else []
  }

  // --- recovery --------------------------------------------------------------------------------

  // The invite is this request's own and the install, if stored, is the one it asked for.
  predicate Recoverable(organization: string, s: Store, token: Token, requested: InstallRecord) {
    var install := Normalized(organization, requested);
    && token.organization == organization && token.id in s.invites && install.installId != ""
    && var invite := s.invites[token.id].record;
       && invite.schema == SCHEMA_VERSION && TokenVerifies(token, invite.id, invite.secretDigest)
       && invite.revokedAt.None? && ReservedFor(invite, install)
       && !InstallRefused(s, install)
  }

  /** However many of its writes a call on a recoverable store completes, the store stays recoverable. */
  lemma CrashKeepsRecoverable(organization: string, s: Store, token: Token, requested: InstallRecord, now: int, done: nat)
    requires Recoverable(organization, s, token, requested)
    requires done <= |EnrollWrites(organization, s, token, requested, now)|
    ensures Recoverable(organization, ApplyAll(s, EnrollWrites(organization, s, token, requested, now)[..done]), token, requested)
  {
    var writes := EnrollWrites(organization, s, token, requested, now);
    ApplyAllPrefixes(s, writes, done);
  }

  /** A first call that passes leaves a recoverable store as soon as its reservation is written. */
  lemma ReservationIsRecoverable(organization: string, s: Store, token: Token, requested: InstallRecord, now: int, done: nat)
    requires EnrollVerdict(organization, s, token, requested, now) == Enrolled && requested.installId != ""
    requires s.invites[token.id].record.reservedInstall == ""
    requires 1 <= done <= |EnrollWrites(organization, s, token, requested, now)|
    ensures Recoverable(organization, ApplyAll(s, EnrollWrites(organization, s, token, requested, now)[..done]), token, requested)
  {
    ApplyAllPrefixes(s, EnrollWrites(organization, s, token, requested, now), done);
  }

  // ApplyAll of a prefix, unrolled.
  lemma ApplyAllPrefixes(s: Store, writes: seq<Write>, done: nat)
    requires done <= |writes| <= 4
    ensures done == 0 ==> ApplyAll(s, writes[..done]) == s
    ensures done == 1 ==> ApplyAll(s, writes[..done]) == Apply(s, writes[0])
    ensures done == 2 ==> ApplyAll(s, writes[..done]) == Apply(Apply(s, writes[0]), writes[1])
    ensures done == 3 ==> ApplyAll(s, writes[..done]) == Apply(Apply(Apply(s, writes[0]), writes[1]), writes[2])
    ensures done == 4 ==> ApplyAll(s, writes[..done]) == Apply(Apply(Apply(Apply(s, writes[0]), writes[1]), writes[2]), writes[3])
  {
    var w := writes[..done];
    if done > 0 {
      var s1 := Apply(s, w[0]);
      assert ApplyAll(s, w) == ApplyAll(s1, w[1..]);
      if done > 1 {
        var s2 := Apply(s1, w[1]);
        assert ApplyAll(s1, w[1..]) == ApplyAll(s2, w[1..][1..]);
        assert w[1..][1..] == w[2..];
        if done > 2 {
          var s3 := Apply(s2, w[2]);
          assert ApplyAll(s2, w[2..]) == ApplyAll(s3, w[2..][1..]);
          assert w[2..][1..] == w[3..];
          if done > 3 {
            assert ApplyAll(s3, w[3..]) == ApplyAll(Apply(s3, w[3]), w[3..][1..]);
            assert w[3..][1..] == [];
          }
        }
      }
    }
  }

  /**
   * Replaying the request on a recoverable store, at any time (the expiry no longer matters), is
   * answered with success and leaves the install active and the invite spent; and a replay after
   * that writes nothing.
   */
  lemma ReplayReachesActive(organization: string, s: Store, token: Token, requested: InstallRecord, now: int, later: int)
    requires Recoverable(organization, s, token, requested)
    ensures EnrollVerdict(organization, s, token, requested, now) == Enrolled
    ensures var t := ApplyAll(s, EnrollWrites(organization, s, token, requested, now));
      && Recoverable(organization, t, token, requested)
      && InstallActive(t, Normalized(organization, requested))
      && (InstallActive(s, Normalized(organization, requested)) || t.invites[token.id].record.spentAt.Some?)
      && EnrollWrites(organization, t, token, requested, later) == []
      && EnrollVerdict(organization, t, token, requested, later) == Enrolled
  {
    var writes := EnrollWrites(organization, s, token, requested, now);
    assert writes == writes[..|writes|];
    ApplyAllPrefixes(s, writes, |writes|);
    CrashKeepsRecoverable(organization, s, token, requested, now, |writes|);
  }

  // Any number of attempts, each dying after some of its writes.
  datatype Attempt = Attempt(now: int, writesDone: nat)

  function Attempts(organization: string, s: Store, token: Token, requested: InstallRecord, attempts: seq<Attempt>): Store
    decreases |attempts|
  {
    if attempts == [] then s
    else
      var writes := EnrollWrites(organization, s, token, requested, attempts[0].now);
      var done := if attempts[0].writesDone <= |writes| then attempts[0].writesDone else |writes|;
      Attempts(organization, ApplyAll(s, writes[..done]), token, requested, attempts[1..])
  }

  /** However many attempts died anywhere, one undisturbed attempt reaches active. */
  lemma {:induction false} CrashesAreRecovered(
      organization: string, s: Store, token: Token, requested: InstallRecord, attempts: seq<Attempt>, now: int)
    requires Recoverable(organization, s, token, requested)
    ensures var t := Attempts(organization, s, token, requested, attempts);
      && Recoverable(organization, t, token, requested)
      && EnrollVerdict(organization, t, token, requested, now) == Enrolled
      && InstallActive(ApplyAll(t, EnrollWrites(organization, t, token, requested, now)), Normalized(organization, requested))
    decreases |attempts|
  {
    if attempts == [] {
      ReplayReachesActive(organization, s, token, requested, now, now);
    } else {
      var writes := EnrollWrites(organization, s, token, requested, attempts[0].now);
      var done := if attempts[0].writesDone <= |writes| then attempts[0].writesDone else |writes|;
      CrashKeepsRecoverable(organization, s, token, requested, attempts[0].now, done);
      CrashesAreRecovered(organization, ApplyAll(s, writes[..done]), token, requested, attempts[1..], now);
    }
  }
}
