/**
 * Replacing a revoked install's identity by a sequence of atomic file writes whose last one is the
 * commit, killed at any write and started again any number of times.
 */
module Reenrollment {
  import opened Wrappers

  datatype Enrollment = Enrollment(installId: string, organization: string, endpoint: string, deviceKey: string)
  datatype Revocation = Revocation(installId: string, organization: string, endpoint: string, detectedAt: int)

  // What a file of the state directory holds. `Other` does not parse as any of the first three.
  datatype Content =
    | IdentityUnit(installId: string, secrets: string)
    | EnrollmentRecord(enrollment: Enrollment)
    | RevocationRecord(revocation: Revocation)
    | Other(text: string)
    | NotRegular

  type Files = map<string, Content>

  const IDENTITY := "identity.json"
  const ENROLLMENT := "enrollment.json"
  const REVOCATION := "revocation.json"
  const CACHE := "remote-config.json"

  // The files re-enrollment itself rewrites.
  const REWRITTEN := {IDENTITY, ENROLLMENT, REVOCATION}
  // Those, and the one it removes.
  const CHANGED := REWRITTEN + {CACHE}

  function TrimSlash(s: string): string {
    if s != "" && s[|s| - 1] == '/' then s[..|s| - 1] else s
  }

  datatype Stop = NoStop | Recorded(revocation: Revocation) | Invalid

  predicate Filled(r: Revocation) {
    r.installId != "" && r.organization != "" && r.endpoint != "" && r.detectedAt != 0
  }

  predicate Names(r: Revocation, e: Enrollment) {
    r.installId == e.installId && r.organization == e.organization && TrimSlash(r.endpoint) == TrimSlash(e.endpoint)
  }

  // Collection runs only when there is no stop.
  function LoadRevocation(files: Files, e: Enrollment): Stop {
    if REVOCATION !in files then NoStop
    else
      match files[REVOCATION]
      case RevocationRecord(r) => if !Filled(r) then Invalid else if Names(r, e) then Recorded(r) else NoStop
      case _ => Invalid
  }

  // No file but these was written or removed.
  ghost predicate SameBut(names: set<string>, before: Files, after: Files) {
    forall name | name !in names :: (name in after <==> name in before) && (name in after ==> after[name] == before[name])
  }

  lemma SameButBoth(names: set<string>, first: Files, second: Files, third: Files)
    requires SameBut(names, first, second) && SameBut(names, second, third)
    ensures SameBut(names, first, third)
  {
  }

  predicate IsLock(name: string) { |name| >= 5 && name[|name| - 5..] == ".lock" }

  // What archiving would still have to copy.
  function Missing(archive: Files, files: Files): set<string> {
    set name | name in files && !IsLock(name) && name !in archive
  }

  // Nothing left to archive is anything but a plain file.
  predicate Archivable(archive: Files, files: Files) {
    forall name <- Missing(archive, files) :: files[name] != NotRegular
  }

  // A name that is its own last path element.
  predicate PlainName(id: string) { id == "/" || (id != "" && id != "." && id != ".." && '/' !in id) }

  /**
   * What stops collection: a marker that cannot be read or lacks a field, or one that names this enrollment,
   * its endpoint up to one slash at the end. No marker, or another install's, does not.
   */
  lemma WhatStopsCollection(files: Files, e: Enrollment)
    ensures var stop := LoadRevocation(files, e);
      var marker := if "revocation.json" in files && files["revocation.json"].RevocationRecord? then Some(files["revocation.json"].revocation) else None;
      var complete := marker.Some? && marker.value.installId != "" && marker.value.organization != ""
                      && marker.value.endpoint != "" && marker.value.detectedAt != 0;
      var same := marker.Some? && marker.value.installId == e.installId && marker.value.organization == e.organization
                  && exists base, m, n :: OneSlash(base, m, marker.value.endpoint) && OneSlash(base, n, e.endpoint);
      && (stop == Invalid <==> "revocation.json" in files && !complete)
      && (stop.Recorded? <==> complete && same) && (stop.Recorded? ==> stop.revocation == marker.value)
      && (stop == NoStop <==> "revocation.json" !in files || (complete && !same))
  {
    hide TrimSlash;
    if "revocation.json" in files && files["revocation.json"].RevocationRecord? {
      SameEndpoint(files["revocation.json"].revocation.endpoint, e.endpoint);
    }
  }

  // The endpoint is the base with a slash taken off if it has one.
  ghost predicate OneSlash(base: string, slash: bool, endpoint: string) {
    if slash then endpoint == base + "/" else endpoint == base && (base == "" || base[|base| - 1] != '/')
  }

  lemma SameEndpoint(a: string, b: string)
    ensures TrimSlash(a) == TrimSlash(b) <==> exists base, m, n :: OneSlash(base, m, a) && OneSlash(base, n, b)
  {
    var m, n := a != "" && a[|a| - 1] == '/', b != "" && b[|b| - 1] == '/';
    assert OneSlash(TrimSlash(a), m, a) && OneSlash(TrimSlash(b), n, b);
    forall base, slash, endpoint | OneSlash(base, slash, endpoint) ensures TrimSlash(endpoint) == base {
      if slash { assert endpoint[..|endpoint| - 1] == base; }
    }
  }

  /** What is archived: every file but locks and those archived already; and none of it may be irregular. */
  lemma WhatIsArchived(archive: Files, files: Files)
    ensures forall name :: name in Missing(archive, files) <==> name in files && name !in archive && !Lock(name)
    ensures Archivable(archive, files) <==> forall name <- files :: name in archive || Lock(name) || files[name] != NotRegular
  {
    forall name ensures IsLock(name) <==> Lock(name) {
      if IsLock(name) { assert name == name[..|name| - 5] + ".lock"; }
    }
  }

  ghost predicate Lock(name: string) { exists stem: string :: name == stem + ".lock" }

  // The last element of a path, as filepath.Base gives it on a system whose separator is the slash.
  function Base(path: string): string {
    if path == "" then "." else
    var bare := WithoutSlashes(path);
    if bare == "" then "/" else LastElement(bare)
  }

  function WithoutSlashes(path: string): string {
    if path != "" && path[|path| - 1] == '/' then WithoutSlashes(path[..|path| - 1]) else path
  }

  function LastElement(path: string): string {
    if path == "" || path[|path| - 1] == '/' then "" else LastElement(path[..|path| - 1]) + [path[|path| - 1]]
  }

  /** A revoked install's archive is its own directory: its id must be its own last path element. */
  lemma PlainNamesAreTheirOwnBase(id: string)
    ensures PlainName(id) <==> Base(id) == id && id != "." && id != ".."
  {
    LastElementHasNoSlash(WithoutSlashes(id));
    if id != "" && id[|id| - 1] == '/' {
      TrimmedIsShorter(id);
    } else {
      WholeElement(id);
    }
  }

  lemma {:induction false} LastElementHasNoSlash(path: string)
    ensures '/' !in LastElement(path) && |LastElement(path)| <= |path|
    decreases |path|
  {
    if path != "" && path[|path| - 1] != '/' { LastElementHasNoSlash(path[..|path| - 1]); }
  }

  lemma {:induction false} WholeElement(path: string)
    ensures LastElement(path) == path <==> '/' !in path
    decreases |path|
  {
    LastElementHasNoSlash(path);
    if path != "" && path[|path| - 1] != '/' {
      var init := path[..|path| - 1];
      assert path == init + [path[|path| - 1]];
      WholeElement(init);
      assert LastElement(path)[..|LastElement(path)| - 1] == LastElement(init);
    }
  }

  lemma {:induction false} TrimmedIsShorter(path: string)
    requires path != "" && path[|path| - 1] == '/'
    ensures |WithoutSlashes(path)| < |path|
    ensures WithoutSlashes(path) == "" && |path| == 1 ==> path == "/"
    decreases |path|
  {
    var init := path[..|path| - 1];
    if init != "" && init[|init| - 1] == '/' { TrimmedIsShorter(init); }
  }

  // The staged replacement: its identity unit and the saved enrollment request.
  datatype Pending = Pending(identity: Option<Content>, attempt: Option<string>)

  const NOTHING_PENDING := Pending(None, None)

  datatype Reply = Accepted(organization: string, endpoint: string, deviceKey: string) | Conflicted | Unanswered
  datatype Outcome = Replaced | AlreadyLoggedIn | Rejected | Killed

  class Machine {
    var files: Files
    var archive: Files
    var pending: Pending
    // The process is killed when it runs out of writes.
    var writesLeft: nat

    // The revoked enrollment, and the directory as it was when its recovery began.
    ghost const revoked: Enrollment
    ghost const original: Files
    // Each file as it was at the start of the first re-enrollment that found it, and those of them
    // something else changed before they were archived.
    ghost var seen: Files
    ghost var touched: set<string>

    constructor (files: Files, revoked: Enrollment)
      requires ENROLLMENT in files && files[ENROLLMENT] == EnrollmentRecord(revoked)
      requires LoadRevocation(files, revoked) != NoStop && Filled(Revocation(revoked.installId, revoked.organization, revoked.endpoint, 1))
      ensures this.files == files && this.revoked == revoked && original == files && archive == map[]
      ensures pending == NOTHING_PENDING && seen == map[] && touched == {}
      ensures Safe() && Kept() && !Committed()
    {
      this.files, this.original, this.revoked := files, files, revoked;
      archive, pending, writesLeft, seen, touched := map[], NOTHING_PENDING, 0, map[], {};
    }

    ghost predicate Committed()
      reads this`files
    {
      ENROLLMENT in files && files[ENROLLMENT] != EnrollmentRecord(revoked)
    }

    // Every rewritten file that existed when recovery began is archived.
    ghost predicate Archived()
      reads this`archive
    {
      forall name <- REWRITTEN :: name in original ==> name in archive
    }

    /**
     * What holds at every write and every crash: before the commit the revocation still stops
     * collection; after it, identity and enrollment name one install and nothing stops it; and the
     * archive holds first versions, all of them before anything is overwritten.
     */
    ghost predicate Safe()
      reads this`files, this`archive, this`pending
    {
      SafeFiles() && Staged()
    }

    ghost predicate SafeFiles()
      reads this`files, this`archive
    {
      && ENROLLMENT in files && files[ENROLLMENT].EnrollmentRecord?
      && Filled(Revocation(revoked.installId, revoked.organization, revoked.endpoint, 1))
      && (forall name <- REWRITTEN :: name in archive && name in original ==> archive[name] == original[name])
      && (forall name <- REWRITTEN :: !Archived() ==>
            (name in files <==> name in original) && (name in original ==> files[name] == original[name]))
      && (if Committed() then
            && Archived() && IDENTITY in files && files[IDENTITY].IdentityUnit?
            && files[IDENTITY].installId == files[ENROLLMENT].enrollment.installId
            && LoadRevocation(files, files[ENROLLMENT].enrollment) == NoStop
          else LoadRevocation(files, revoked) != NoStop)
    }

    // A staged identity is a new one.
    ghost predicate Staged()
      reads this`pending
    {
      pending.identity.Some? ==> pending.identity.value.IdentityUnit? && pending.identity.value.installId != revoked.installId
    }

    /**
     * No file is lost, whatever its name: each one ever found is archived as first found, or, before the
     * commit, still in place as first found, unless something else changed it before it was archived.
     */
    ghost predicate Kept()
      reads this`files, this`archive, this`seen, this`touched
    {
      && archive.Keys <= seen.Keys
      && forall name <- seen :: IsLock(name) || name in touched ||
           if name in archive then archive[name] == seen[name]
           else !Committed() && name in files && files[name] == seen[name]
    }

    // Everything found is archived as first found, so the files themselves may be rewritten.
    ghost predicate Secured()
      reads this`archive, this`seen, this`touched
    {
      && archive.Keys <= seen.Keys
      && forall name <- seen :: IsLock(name) || name in touched || (name in archive && archive[name] == seen[name])
    }

    // Every one of these files has a copy in the archive.
    ghost predicate Copied(found: Files)
      reads this`archive
    {
      forall name <- found :: IsLock(name) || name in archive
    }

    ghost predicate Extends(before: Files, source: Files)
      reads this`archive
    {
      && (forall name <- before :: name in archive && archive[name] == before[name])
      && (forall name <- archive :: name !in before ==> name in source && archive[name] == source[name])
    }

    // --- one atomic write each -------------------------------------------------------------------

    method Survives() returns (alive: bool)
      modifies this`writesLeft
      ensures alive == (old(writesLeft) > 0)
      ensures writesLeft == if alive then old(writesLeft) - 1 else 0
    {
      alive := writesLeft > 0;
      if alive { writesLeft := writesLeft - 1; }
    }

    method WriteFile(name: string, content: Content) returns (alive: bool)
      modifies this`files, this`writesLeft
      ensures alive == (old(writesLeft) > 0)
      ensures writesLeft == if alive then old(writesLeft) - 1 else 0
      ensures files == if alive then old(files)[name := content] else old(files)
    {
      alive := Survives();
      if alive { files := files[name := content]; }
    }

    method RemoveFile(name: string) returns (alive: bool)
      modifies this`files, this`writesLeft
      ensures alive == (old(writesLeft) > 0)
      ensures writesLeft == if alive then old(writesLeft) - 1 else 0
      ensures files == if alive then old(files) - {name} else old(files)
    {
      alive := Survives();
      if alive { files := files - {name}; }
    }

    /** Copies every file the archive does not hold yet, in whatever order the directory lists them. */
    method ArchiveRevokedState(id: string) returns (ok: bool, alive: bool)
      modifies this`archive, this`writesLeft
      ensures Extends(old(archive), files)
      ensures ok && alive ==> PlainName(id) && Copied(files)
      ensures ok && alive ==> writesLeft == old(writesLeft) - |Missing(old(archive), files)|
      ensures !ok && alive ==> !PlainName(id) || !Archivable(old(archive), files)
      ensures old(writesLeft) >= |Missing(old(archive), files)| ==> alive
      ensures PlainName(id) && Archivable(old(archive), files) && alive ==> old(writesLeft) >= |Missing(old(archive), files)|
      ensures ok && alive ==> Archivable(old(archive), files)
      ensures writesLeft <= old(writesLeft) && (old(writesLeft) == 0 ==> archive == old(archive))
    {
      if !PlainName(id) { return false, true; }
      var entries := files.Keys;
      ghost var missing := Missing(archive, files);
      while entries != {}
        invariant entries <= files.Keys
        invariant Extends(old(archive), files)
        invariant forall name <- files :: name in entries || IsLock(name) || name in archive
        invariant missing == Missing(archive, files) <= Missing(old(archive), files)
        invariant missing <= entries
        invariant forall name :: name in Missing(old(archive), files) && name !in missing ==> files[name] != NotRegular
        invariant writesLeft <= old(writesLeft) && (old(writesLeft) == 0 ==> archive == old(archive))
        invariant writesLeft == old(writesLeft) - (|Missing(old(archive), files)| - |missing|)
        decreases |entries|
      {
        var name :| name in entries;
        entries := entries - {name};
        if IsLock(name) || name in archive { continue; }
        assert name in missing;
        if files[name] == NotRegular { return false, true; }
        assert |missing| >= 1;
        alive := Survives();
        if !alive { return false, false; }
        archive := archive[name := files[name]];
        assert Missing(archive, files) == missing - {name};
        missing := missing - {name};
      }
      ok, alive := true, true;
    }

    // The identity unit to enroll: the staged one, else a new one with an id never used before.
    method LoadOrMintIdentity(minted: string) returns (id: string, alive: bool)
      requires pending.identity.Some? ==> pending.identity.value.IdentityUnit?
      modifies this`pending, this`writesLeft
      ensures id == if old(pending).identity.Some? then old(pending).identity.value.installId else minted
      ensures alive == (old(pending).identity.Some? || old(writesLeft) > 0)
      ensures writesLeft == if old(pending).identity.Some? then old(writesLeft) else if alive then old(writesLeft) - 1 else 0
      ensures pending == if old(pending).identity.Some? || !alive then old(pending)
                         else Pending(Some(IdentityUnit(minted, "")), old(pending).attempt)
    {
      if pending.identity.Some? { return pending.identity.value.installId, true; }
      alive := Survives();
      if alive { pending := pending.(identity := Some(IdentityUnit(minted, ""))); }
      id := minted;
    }

    // Removing the staging directory is not atomic: its two files go one after the other, in the order
    // the directory lists them, and the kill may come between.
    method ClearPending(identityFirst: bool) returns (alive: bool)
      modifies this`pending, this`writesLeft
      ensures alive == (old(writesLeft) >= 2) && writesLeft <= old(writesLeft)
      ensures alive ==> writesLeft == old(writesLeft) - 2
      ensures pending ==
        if old(writesLeft) == 0 then old(pending)
        else if old(writesLeft) >= 2 then NOTHING_PENDING
        else if identityFirst then old(pending).(identity := None) else old(pending).(attempt := None)
    {
      alive := Survives();
      if !alive { return; }
      if identityFirst { pending := pending.(identity := None); } else { pending := pending.(attempt := None); }
      alive := Survives();
      if alive { pending := NOTHING_PENDING; }
    }

    // EnrollInteractive for the staged identity: the request is on disk before it is sent, and a
    // request left by another identity is refused.
    method Enroll(id: string, reply: Reply) returns (answer: Reply, alive: bool)
      modifies this`pending, this`writesLeft
      ensures pending.identity == old(pending).identity
      ensures if old(pending).attempt.Some? && old(pending).attempt.value != id
        then answer == Unanswered && alive && pending == old(pending)
        else if alive then answer == reply && pending.attempt == Some(id)
        else answer == Unanswered && pending == old(pending)
      ensures alive == (old(pending).attempt.Some? || old(writesLeft) > 0) && writesLeft <= old(writesLeft)
      ensures alive ==> writesLeft == old(writesLeft) - (if old(pending).attempt.Some? then 0 else 1)
    {
      if pending.attempt.Some? && pending.attempt.value != id { return Unanswered, true; }
      if pending.attempt.None? {
        alive := Survives();
        if !alive { return Unanswered, false; }
        pending := pending.(attempt := Some(id));
      }
      answer, alive := reply, true;
    }

    // A corrupt stop marker is replaced by a valid one; the archive keeps the corrupt original.
    method RepairRevocation(detectedAt: int) returns (alive: bool)
      requires Safe() && !Committed() && detectedAt != 0
      requires Archived()
      modifies this`files, this`writesLeft
      ensures Safe() && !Committed()
      ensures SameBut(CHANGED, old(files), files)
      ensures alive ==> LoadRevocation(files, files[ENROLLMENT].enrollment).Recorded?
      ensures writesLeft <= old(writesLeft) && (!alive ==> files == old(files))
      ensures alive == (old(Repairs() <= writesLeft)) && (alive ==> writesLeft == old(writesLeft - Repairs()))
      ensures old(Repairs() == 0) ==> files == old(files)
    {
      var e := files[ENROLLMENT].enrollment;
      alive := true;
      if LoadRevocation(files, e).Invalid? {
        alive := WriteFile(REVOCATION, RevocationRecord(Revocation(e.installId, e.organization, e.endpoint, detectedAt)));
      }
    }

    // The writes a corrupt stop marker costs.
    ghost function Repairs(): (n: nat)
      reads this`files
      ensures n <= 1
    {
      if LoadRevocation(files, revoked).Invalid? then 1 else 0
    }

    // The kill came between the two removals of the staging directory: the saved request is another
    // identity's, or nobody's.
    predicate HalfCleared()
      reads this`pending
    {
      pending.attempt.Some? && (pending.identity == None || pending.identity.value.IdentityUnit?)
      && (pending.identity.Some? ==> pending.identity.value.installId != pending.attempt.value)
    }

    // The saved request is not for the identity the next attempt would enroll.
    predicate Stale(minted: string)
      reads this`pending
    {
      HalfCleared() && (pending.identity.Some? || minted != pending.attempt.value)
    }

    // An accepted enrollment of a staged identity, with one fresh identity after a conflict.
    method EnrollStaged(first: Reply, second: Reply, minted: string, again: string, identityFirst: bool)
      returns (id: string, answer: Reply, alive: bool)
      requires Staged()
      requires minted != revoked.installId && again != revoked.installId
      modifies this`pending, this`writesLeft
      ensures Staged()
      ensures alive && answer.Accepted? ==> pending.identity.Some? && pending.identity.value.installId == id
      ensures alive && answer.Accepted? ==> id == if first.Conflicted? then again
        else if old(pending).identity.Some? then old(pending).identity.value.installId else minted
      ensures alive && answer.Accepted? ==> answer == if first.Conflicted? then second else first
      ensures old(Stale(minted)) ==> HalfCleared() && pending.attempt == old(pending).attempt && !answer.Accepted?
      ensures old(writesLeft) >= 6 ==> alive && writesLeft >= old(writesLeft) - 6
      ensures old(writesLeft) >= 6 ==>
        (answer.Accepted? <==> !old(Stale(minted)) && (first.Accepted? || (first.Conflicted? && second.Accepted?)))
      ensures writesLeft <= old(writesLeft) && (old(writesLeft) == 0 ==> pending == old(pending))
      // The conflict that ends half-cleared: identity staged, request saved, one file of the two removed.
      ensures old(pending) == NOTHING_PENDING && first.Conflicted? && identityFirst && old(writesLeft) == 3 ==>
        !alive && pending == Pending(None, Some(minted))
    {
      answer := Unanswered;
      id, alive := LoadOrMintIdentity(minted);
      if !alive { return; }
      answer, alive := Enroll(id, first);
      if !alive { return; }
      if answer.Conflicted? {
        // A definitive conflict cannot be recovered by replaying this identity again.
        alive := ClearPending(identityFirst);
        if !alive { return; }
        id, alive := LoadOrMintIdentity(again);
        if !alive { return; }
        answer, alive := Enroll(id, second);
      }
    }

    // The three writes that replace the install, the enrollment record last.
    method Commit(id: string, answer: Reply, identityFirst: bool) returns (outcome: Outcome)
      requires Safe() && !Committed() && Archived() && answer.Accepted?
      requires LoadRevocation(files, files[ENROLLMENT].enrollment).Recorded?
      requires pending.identity.Some? && pending.identity.value.installId == id
      modifies this`files, this`pending, this`writesLeft
      ensures Safe()
      ensures outcome == Replaced ==> Committed() && pending == NOTHING_PENDING
      ensures Committed() ==> outcome == Replaced || outcome == Killed
      ensures Committed() ==> files[ENROLLMENT] == EnrollmentRecord(Enrollment(id, answer.organization, answer.endpoint, answer.deviceKey))
      ensures outcome == if old(writesLeft) >= 5 then Replaced else Killed
      ensures SameBut(CHANGED, old(files), files)
      ensures outcome == Replaced ==>
        files == (old(files)[IDENTITY := old(pending).identity.value]
                            [ENROLLMENT := EnrollmentRecord(Enrollment(id, answer.organization, answer.endpoint, answer.deviceKey))] - {CACHE})
      ensures old(writesLeft) == 0 ==> files == old(files) && pending == old(pending)
    {
      var alive := WriteFile(IDENTITY, pending.identity.value);
      if !alive { return Killed; }
      alive := RemoveFile(CACHE);
      if !alive { return Killed; }
      alive := WriteFile(ENROLLMENT, EnrollmentRecord(Enrollment(id, answer.organization, answer.endpoint, answer.deviceKey)));
      if !alive { return Killed; }
      alive := ClearPending(identityFirst);
      outcome := if alive then Replaced else Killed;
    }

    lemma SecuredIsKept()
      requires Secured()
      ensures Kept()
    {
    }

    // As first found, in the archive or still in place.
    ghost predicate KeptIn(archived: Files, found: Files, name: string)
      requires name in found
      reads this`files
    {
      if name in archived then archived[name] == found[name] else name in files && files[name] == found[name]
    }

    lemma UnsecuredIsKept(before: Files, earlier: Files)
      requires !Committed() && Extends(before, files) && seen == files + earlier
      requires before.Keys <= earlier.Keys
      requires forall name <- earlier :: IsLock(name) || name in touched || KeptIn(before, earlier, name)
      ensures Kept()
      ensures Copied(files) ==> Secured()
    {
    }

    // Every file found is noted, then archived.
    method ArchiveFound() returns (ok: bool, alive: bool)
      requires Safe() && Kept() && !Committed()
      modifies this`archive, this`writesLeft, this`seen
      ensures Safe() && Kept() && seen == files + old(seen)
      ensures Extends(old(archive), files)
      ensures ok && alive ==> Secured() && Archived() && Copied(files)
      ensures alive ==> (ok <==> PlainName(revoked.installId) && Archivable(old(archive), files))
      ensures ok && alive ==> writesLeft == old(writesLeft) - |Missing(old(archive), files)|
      ensures old(writesLeft) >= |Missing(old(archive), files)| ==> alive
      ensures PlainName(revoked.installId) && Archivable(old(archive), files) && alive ==> old(writesLeft) >= |Missing(old(archive), files)|
      ensures writesLeft <= old(writesLeft) && (old(writesLeft) == 0 ==> archive == old(archive))
    {
      hide Missing, Archivable, PlainName, LoadRevocation;
      seen := files + seen;
      ok, alive := ArchiveRevokedState(files[ENROLLMENT].enrollment.installId);
      UnsecuredIsKept(old(archive), old(seen));
    }

    // The half before anything is sent: the archive, then a stop marker that parses.
    method Secure(detectedAt: int) returns (ok: bool, alive: bool)
      requires Safe() && Kept() && !Committed() && detectedAt != 0
      modifies this`files, this`archive, this`writesLeft, this`seen
      ensures Safe() && Kept() && !Committed() && seen == old(files + seen)
      ensures Extends(old(archive), old(files))
      ensures files != old(files) || (ok && alive) ==> Copied(old(files))
      ensures ok && alive ==> Secured() && Archived() && LoadRevocation(files, files[ENROLLMENT].enrollment).Recorded?
      ensures SameBut(CHANGED, old(files), files)
      ensures alive ==> (ok <==> PlainName(revoked.installId) && old(Archivable(archive, files)))
      ensures ok && alive ==> writesLeft == old(writesLeft - |Missing(archive, files)| - Repairs())
      ensures old(writesLeft >= |Missing(archive, files)| + Repairs()) ==> alive
      ensures writesLeft <= old(writesLeft) && (old(writesLeft) == 0 ==> archive == old(archive) && files == old(files))
    {
      hide Missing, Archivable, IsLock, PlainName, LoadRevocation, SafeFiles, Kept, Secured, Archived, Extends;
      ok, alive := ArchiveFound();
      if !alive || !ok { return; }
      alive := RepairRevocation(detectedAt);
      SecuredIsKept();
    }

    // The directory runs this install: the one the server accepted for the staged identity or the new one.
    ghost predicate RunsAs(id: string, answer: Reply)
      reads this`files
    {
      && IDENTITY in files && files[IDENTITY].IdentityUnit? && files[IDENTITY].installId == id
      && answer.Accepted? && ENROLLMENT in files && CACHE !in files
      && files[ENROLLMENT] == EnrollmentRecord(Enrollment(id, answer.organization, answer.endpoint, answer.deviceKey))
    }

    // The identity a re-enrollment ends with.
    ghost function Identity(first: Reply, minted: string, again: string): string
      reads this`pending
    {
      if first.Conflicted? then again
      else if pending.identity.Some? && pending.identity.value.IdentityUnit? then pending.identity.value.installId else minted
    }

    // The half after: one accepted enrollment, and the commit.
    method Replace(first: Reply, second: Reply, minted: string, again: string, identityFirst: bool) returns (outcome: Outcome)
      requires Safe() && Secured() && Archived() && !Committed() && LoadRevocation(files, files[ENROLLMENT].enrollment).Recorded?
      requires minted != revoked.installId && again != revoked.installId
      modifies this`files, this`pending, this`writesLeft
      ensures Safe() && Kept()
      ensures outcome == Replaced ==> Committed() && pending == NOTHING_PENDING
      ensures outcome == Replaced ==> RunsAs(old(Identity(first, minted, again)), if first.Conflicted? then second else first)
      ensures SameBut(CHANGED, old(files), files)
      ensures Committed() ==> outcome == Replaced || outcome == Killed
      ensures outcome == Replaced || outcome == Rejected || outcome == Killed
      ensures old(writesLeft) >= 11 ==>
        outcome == if !old(Stale(minted)) && (first.Accepted? || (first.Conflicted? && second.Accepted?)) then Replaced else Rejected
      ensures old(Stale(minted)) ==> HalfCleared() && pending.attempt == old(pending).attempt && !Committed()
      ensures old(writesLeft) == 0 ==> files == old(files) && pending == old(pending)
      ensures old(pending) == NOTHING_PENDING && first.Conflicted? && identityFirst && old(writesLeft) == 3 ==>
        outcome == Killed && pending == Pending(None, Some(minted)) && HalfCleared() && !Committed()
    {
      hide SafeFiles, Secured, Kept, Archived, LoadRevocation, Stale;
      SecuredIsKept();
      var id, answer, alive := EnrollStaged(first, second, minted, again, identityFirst);
      if !alive { return Killed; }
      if !answer.Accepted? { return Rejected; }
      outcome := Commit(id, answer, identityFirst);
      SecuredIsKept();
    }

    // What the caller can see before it starts decides whether an unkilled re-enrollment succeeds.
    ghost predicate WillReplace(first: Reply, second: Reply, minted: string)
      reads this`files, this`archive, this`pending
    {
      && WillArchive() && !Stale(minted)
      && (first.Accepted? || (first.Conflicted? && second.Accepted?))
    }

    ghost predicate WillArchive()
      reads this`files, this`archive
    {
      PlainName(revoked.installId) && Archivable(archive, files)
    }

    // Enough writes for every archive copy, the repair, both enrollments and the commit.
    ghost predicate Unkilled()
      reads this`files, this`writesLeft
    {
      writesLeft >= |files| + 12
    }

    // Nothing staged, and writes for all that comes before the staging directory's second removal.
    ghost predicate OneRemovalShort()
      reads this`files, this`archive, this`pending, this`writesLeft
    {
      && pending == NOTHING_PENDING && WillArchive()
      && writesLeft == |Missing(archive, files)| + Repairs() + 3
    }

    lemma StaleIsHalfCleared(minted: string)
      ensures Stale(minted) ==> HalfCleared()
    {
    }

    /**
     * Re-enrollment: however it ends, the directory is safe and no file is lost. Left to run, it replaces
     * the install exactly when the server accepts, everything can be archived and the staging directory
     * is not half-cleared; a half-cleared one is never repaired by trying again.
     */
    method Reenroll(first: Reply, second: Reply, minted: string, again: string, detectedAt: int, identityFirst: bool)
      returns (outcome: Outcome)
      requires Safe() && Kept() && !Committed() && detectedAt != 0
      requires minted != revoked.installId && again != revoked.installId
      modifies this
      ensures Safe() && Kept() && seen == old(files + seen) && touched == old(touched)
      ensures Extends(old(archive), old(files))
      ensures files != old(files) || old(Unkilled() && WillArchive()) ==> Copied(old(files))
      ensures outcome == Replaced ==> Committed() && pending == NOTHING_PENDING
      ensures outcome == Replaced ==> RunsAs(old(Identity(first, minted, again)), if first.Conflicted? then second else first)
      ensures SameBut(CHANGED, old(files), files)
      ensures outcome != AlreadyLoggedIn && (Committed() ==> outcome != Rejected)
      ensures old(Unkilled()) ==> outcome == if old(WillReplace(first, second, minted)) then Replaced else Rejected
      ensures old(Stale(minted)) ==> HalfCleared() && pending.attempt == old(pending).attempt && !Committed()
      ensures old(writesLeft) == 0 ==> files == old(files) && archive == old(archive) && pending == old(pending)
      // How a staging directory comes to be half-cleared: a conflict, and a kill between two removals.
      ensures first.Conflicted? && identityFirst && old(OneRemovalShort()) ==>
        outcome == Killed && pending == Pending(None, Some(minted)) && HalfCleared() && !Committed()
    {
      hide Missing, Archivable, Extends, PlainName, IsLock, Secured, Kept, Archived, SafeFiles, Staged, LoadRevocation, Repairs, HalfCleared,
        Stale, Copied, Committed, RunsAs, Identity, SameBut;
      StaleIsHalfCleared(minted);
      MissingIsBounded(archive, files);
      ghost var archivable, unkilled, short := WillArchive(), Unkilled(), OneRemovalShort();
      var ok, alive := Secure(detectedAt);
      ghost var secured := files;
      assert unkilled ==> alive && (ok <==> archivable) && (ok ==> writesLeft >= 11);
      assert short ==> alive && ok && writesLeft == 3;
      assert old(WillReplace(first, second, minted)) <==>
        archivable && !old(Stale(minted)) && (first.Accepted? || (first.Conflicted? && second.Accepted?));
      hide WillArchive, WillReplace, Unkilled;
      if !alive { return Killed; }
      if !ok { return Rejected; }
      outcome := Replace(first, second, minted, again, identityFirst);
      SameButBoth(CHANGED, old(files), secured, files);
    }

    method Login(first: Reply, second: Reply, minted: string, again: string, detectedAt: int, identityFirst: bool)
      returns (outcome: Outcome)
      requires Safe() && Kept() && detectedAt != 0
      requires minted != revoked.installId && again != revoked.installId
      modifies this
      ensures Safe() && Kept() && touched == old(touched)
      ensures seen == if old(Committed()) then old(seen) else old(files + seen)
      ensures Extends(old(archive), old(files))
      ensures files != old(files) || old(!Committed() && Unkilled() && WillArchive()) ==> Copied(old(files))
      ensures old(Committed()) ==> outcome == AlreadyLoggedIn && files == old(files) && pending == old(pending)
      ensures outcome == Replaced || outcome == AlreadyLoggedIn ==> Committed()
      ensures outcome == Replaced ==> RunsAs(old(Identity(first, minted, again)), if first.Conflicted? then second else first)
      ensures old(!Committed() && Unkilled()) ==> outcome == if old(WillReplace(first, second, minted)) then Replaced else Rejected
      ensures old(!Committed() && Stale(minted)) ==> HalfCleared() && pending.attempt == old(pending).attempt && !Committed()
      ensures old(writesLeft) == 0 ==> files == old(files) && archive == old(archive) && pending == old(pending)
      // A file is archived as first found exactly when it still is as first found.
      ensures forall name <- archive :: name !in old(archive) && name in seen ==>
        name in old(files) && (archive[name] == seen[name] <==> old(files)[name] == seen[name])
    {
      var existing := files[ENROLLMENT].enrollment;
      var stop := LoadRevocation(files, existing);
      if stop == NoStop { return AlreadyLoggedIn; }
      outcome := Reenroll(first, second, minted, again, detectedAt, identityFirst);
    }

    // Between two logins anything else may happen to the files re-enrollment does not rewrite.
    method Elsewhere(written: Files, removed: set<string>)
      requires Safe() && Kept() && written.Keys !! REWRITTEN && removed !! REWRITTEN
      modifies this`files, this`touched
      ensures Safe() && Kept() && Committed() == old(Committed())
      ensures files == old(files) + written - removed
      ensures touched == old(touched) + ((written.Keys + removed) * seen.Keys - archive.Keys)
      ensures forall name <- REWRITTEN :: name in files <==> name in old(files)
      ensures forall name <- REWRITTEN :: name in files ==> files[name] == old(files)[name]
    {
      files := files + written - removed;
      touched := touched + ((written.Keys + removed) * seen.Keys - archive.Keys);
    }

    // What happens elsewhere, then one more login that may be killed at any write.
    method Attempt(l: LoginAttempt)
      requires Safe() && Kept() && Admissible(l)
      modifies this
      ensures Safe() && Kept()
      ensures forall name <- old(archive) :: name in archive && archive[name] == old(archive)[name]
      ensures forall name <- old(seen) :: name in seen && seen[name] == old(seen)[name]
      ensures old(Committed()) ==> Committed() && files[IDENTITY] == old(files[IDENTITY]) && files[ENROLLMENT] == old(files[ENROLLMENT])
      ensures old(HalfCleared() && !Committed()) && l.minted != old(pending).attempt.value ==>
        HalfCleared() && !Committed() && pending.attempt == old(pending).attempt
    {
      hide Missing, Archivable, LoadRevocation, Kept;
      Elsewhere(l.written, l.removed);
      writesLeft := l.writes;
      var _ := Login(l.first, l.second, l.minted, l.again, l.detectedAt, l.identityFirst);
    }

    ghost predicate Admissible(l: LoginAttempt) {
      && l.detectedAt != 0 && l.minted != revoked.installId && l.again != revoked.installId
      && l.written.Keys !! REWRITTEN && l.removed !! REWRITTEN
    }

    /**
     * Killed at any write and started again any number of times: the machine is safe throughout, no file
     * is lost, an archived file is never overwritten, a committed replacement is never undone, and no
     * number of attempts gets past a half-cleared staging directory.
     */
    method Recover(logins: seq<LoginAttempt>)
      requires Safe() && Kept() && forall l <- logins :: Admissible(l)
      modifies this
      ensures Safe() && Kept()
      ensures Committed() ==> forall name <- seen :: IsLock(name) || name in touched || (name in archive && archive[name] == seen[name])
      ensures forall name <- old(archive) :: name in archive && archive[name] == old(archive)[name]
      ensures forall name <- old(seen) :: name in seen && seen[name] == old(seen)[name]
      ensures old(Committed()) ==> Committed() && files[IDENTITY] == old(files[IDENTITY]) && files[ENROLLMENT] == old(files[ENROLLMENT])
      ensures old(HalfCleared() && !Committed()) && (forall l <- logins :: l.minted != old(pending).attempt.value) ==>
        HalfCleared() && !Committed()
    {
      for i := 0 to |logins|
        invariant Safe() && Kept()
        invariant forall name <- old(archive) :: name in archive && archive[name] == old(archive)[name]
        invariant forall name <- old(seen) :: name in seen && seen[name] == old(seen)[name]
        invariant old(Committed()) ==> Committed() && files[IDENTITY] == old(files[IDENTITY]) && files[ENROLLMENT] == old(files[ENROLLMENT])
        invariant old(HalfCleared() && !Committed()) && (forall l <- logins :: l.minted != old(pending).attempt.value) ==>
          HalfCleared() && !Committed() && pending.attempt == old(pending).attempt
      {
        assert logins[i] in logins;
        Attempt(logins[i]);
      }
      KeptWhenCommitted();
    }

    lemma KeptWhenCommitted()
      requires Kept()
      ensures Committed() ==> forall name <- seen :: IsLock(name) || name in touched || (name in archive && archive[name] == seen[name])
    {
    }

    /**
     * One kill at the wrong write strands the machine: from any uncommitted state with nothing staged, a
     * conflict killed between the two removals, and then no number of logins with fresh ids replaces the
     * install, whatever the server answers.
     */
    method Strand(second: Reply, minted: string, again: string, detectedAt: int, logins: seq<LoginAttempt>)
      requires Safe() && Kept() && !Committed() && pending == NOTHING_PENDING && WillArchive() && detectedAt != 0
      requires minted != revoked.installId && again != revoked.installId
      requires forall l <- logins :: Admissible(l) && l.minted != minted
      modifies this
      ensures HalfCleared() && !Committed()
    {
      assert ENROLLMENT in files && files[ENROLLMENT].EnrollmentRecord?;
      hide Missing, Archivable, PlainName, SafeFiles, Kept, Extends;
      writesLeft := |Missing(archive, files)| + (if LoadRevocation(files, files[ENROLLMENT].enrollment).Invalid? then 1 else 0) + 3;
      assert OneRemovalShort() by { assert files[ENROLLMENT].enrollment == revoked; }
      var outcome := Reenroll(Conflicted, second, minted, again, detectedAt, true);
      assert outcome == Killed;
      Recover(logins);
    }

    /**
     * The one way a first version is not kept: a login finds a file and dies before it archives it,
     * something else rewrites the file, and a later login archives what it then finds.
     */
    method Overtake(name: string, later: Content, minted: string)
      requires Safe() && Kept() && !Committed() && minted != revoked.installId && PlainName(revoked.installId)
      requires name in files && name !in seen && name !in REWRITTEN && !IsLock(name)
      requires files[name] != later && Archivable(archive, files[name := later])
      modifies this
      ensures name in seen && name in archive && seen[name] == old(files[name])
      ensures archive[name] == later != seen[name]
    {
      hide LoadRevocation, PlainName, IsLock, Missing, Archivable, SafeFiles, Kept;
      assert name !in archive by { NewIsNotArchived(name); }
      writesLeft := 0;
      ghost var found := files;
      var _ := Login(Unanswered, Unanswered, minted, minted, 1, true);
      assert files == found && archive == old(archive) && seen[name] == found[name];
      OneChange(found, name, later);
      Elsewhere(map[name := later], {});
      assert WillArchive();
      ArchiveAsFound(name, minted);
    }

    // A login left to run archives what it finds, whatever the server answers.
    method ArchiveAsFound(name: string, minted: string)
      requires Safe() && Kept() && !Committed() && minted != revoked.installId && WillArchive()
      requires name in files && name in seen && name !in archive && !IsLock(name)
      modifies this
      ensures name in seen && name in archive && seen[name] == old(seen[name]) && archive[name] == old(files[name])
    {
      hide LoadRevocation, PlainName, IsLock, Missing, Archivable, SafeFiles, Kept;
      writesLeft := |files| + 12;
      var outcome := Login(Unanswered, Unanswered, minted, minted, 1, true);
    }

    lemma NewIsNotArchived(name: string)
      requires Kept() && name !in seen
      ensures name !in archive
    {
    }
  }

  lemma OneChange(files: Files, name: string, content: Content)
    requires name !in REWRITTEN
    ensures files + map[name := content] - {} == files[name := content]
    ensures map[name := content].Keys !! REWRITTEN && {} !! REWRITTEN
  {
  }

  lemma MissingIsBounded(archive: Files, files: Files)
    ensures |Missing(archive, files)| <= |files|
  {
    Subset(Missing(archive, files), files.Keys);
  }

  lemma Subset(a: set<string>, b: set<string>)
    requires a <= b
    ensures |a| <= |b|
  {
    assert b == a + (b - a);
  }

  datatype LoginAttempt = LoginAttempt(
    written: Files, removed: set<string>, writes: nat, first: Reply, second: Reply, minted: string, again: string, detectedAt: int,
    identityFirst: bool)
}
