/** What one candidate comes to: change detection, read, scrub and seal, and the write each asks for. */
module FileDecision {
  import opened Wrappers
  import opened Fingerprints
  import opened FilePass

  datatype Candidate = Candidate(
    identity: string, series: string, path: string, size: int, mtime: int, alwaysLoad: bool)

  function KeyOf(sourceId: string, c: Candidate): Key {
    Key(sourceId, FirstNonEmpty(c.identity, FirstNonEmpty(c.series, c.path)))
  }

  // A read may name a view of the bytes to compare instead of the bytes themselves.
  datatype Payload = Payload(bytes: string, compare: Option<string>)

  function Compared(p: Payload): string { p.compare.GetOr(p.bytes) }

  // How reading, scrubbing, naming and sealing this candidate go.
  datatype Attempt = Attempt(
    load: Option<Payload>, loadError: string, scrubError: Option<string>, nameable: bool, sealedSize: Option<nat>)

  // Digests and the spread of a key are functions of their input and nothing else.
  datatype Options = Options(
    now: int, dryRun: bool, staging: bool, hash: string -> string, spread: Key -> nat)

  const RECOMPUTE_WINDOW := 86_400_000_000_000

  const MINUTE := 60_000_000_000
  const BACKOFF_CAP := 60 * MINUTE

  // A minute, doubling, capped at an hour, less up to an eighth so that failures do not wake together.
  function BackoffFor(attempt: int, spread: nat): (d: nat)
    ensures d <= BACKOFF_CAP && (attempt >= 1 ==> 105_000_000_000 <= d)
  {
    var doubled := if attempt <= 0 then MINUTE else if attempt >= 6 then BACKOFF_CAP else [1, 2, 4, 8, 16, 32][attempt] * MINUTE;
    doubled - spread % 9 * doubled / 64
  }

  // A committed ship of this very path, size and mtime, not wanted again by an enricher.
  predicate UnchangedByStat(o: Options, key: Key, seen: Option<Fingerprint>, c: Candidate) {
    && seen.Some?
    && seen.value.sourceSize == c.size && seen.value.sourceMTime == c.mtime && seen.value.sourceHash != ""
    && c.path == ObservedPath(key, seen.value)
    && !(o.staging && o.now - c.mtime < RECOMPUTE_WINDOW)
  }

  function FailAndBackOff(o: Options, key: Key, fp: Fingerprint, path: string, reason: string): Prepared {
    if o.dryRun then Decided(FilePass.Parked, None)
    else
      Decided(FilePass.Parked, Some(Intent(Backoff,
        fp.(nativePath := path, attempts := fp.attempts + 1, parked := true, lastError := reason,
            backoffUntil := o.now + BackoffFor(fp.attempts + 1, o.spread(key))))))
  }

  predicate Waiting(o: Options, key: Key, fp: Fingerprint, c: Candidate) {
    fp.parked && o.now < fp.backoffUntil && !(c.series != "" && c.path != ObservedPath(key, fp))
  }

  function Refreshed(fp: Fingerprint, c: Candidate): Fingerprint {
    fp.(nativePath := c.path, sourceSize := c.size, sourceMTime := c.mtime,
        parked := false, lastError := "", backoffUntil := 0, attempts := 0)
  }

  function Shippable(c: Candidate, hash: string): Fingerprint {
    BLANK.(nativePath := c.path, sourceSize := c.size, sourceMTime := c.mtime, sourceHash := hash)
  }

  function PrepareFile(o: Options, sourceId: string, c: Candidate, a: Attempt, seen: Option<Fingerprint>): Prepared {
    var key := KeyOf(sourceId, c);
    var fp := seen.GetOr(BLANK);
    if Waiting(o, key, fp, c) then Decided(Skipped, None)
    else if !c.alwaysLoad && UnchangedByStat(o, key, seen, c) then Decided(Unchanged, None)
    else if a.load.None? then FailAndBackOff(o, key, fp, c.path, a.loadError)
    else
      var changeHash := o.hash(Compared(a.load.value));
      if seen.Some? && changeHash == fp.sourceHash then
        Decided(Unchanged, if o.dryRun then None else Some(Intent(Refresh, Refreshed(fp, c))))
      else if a.scrubError.Some? then FailAndBackOff(o, key, fp, c.path, a.scrubError.value)
      else if !a.nameable || a.sealedSize.None? then Decided(Failed, None)
      else if o.dryRun then Decided(Shipped, None)
      else Sealed(a.sealedSize.value, Shippable(c, changeHash))
  }

  // What an enricher derived from already collected units, and how preparing it goes.
  datatype Derived = Derived(path: string, outputHash: string, payload: string, enricher: Enricher)

  function PrepareDerived(o: Options, d: Derived, a: Attempt, seen: Option<Fingerprint>): Prepared {
    if seen.Some? && seen.value.outputHash == d.outputHash && seen.value.sourceHash != "" then Decided(Unchanged, None)
    else if a.scrubError.Some? || !a.nameable || a.sealedSize.None? then Decided(Failed, None)
    else if o.dryRun then Decided(Shipped, None)
    else Sealed(a.sealedSize.value,
                BLANK.(sourceHash := o.hash(d.payload), outputHash := d.outputHash, enricher := Some(d.enricher)))
  }

  // --- what becomes of a file, field by field ------------------------------------------------------

  /**
   * When a file is not read. Skipped, exactly: a parked entry before its time, unless the file is a new
   * snapshot of a series. Unchanged and unread, exactly: a committed ship of this path, size and mtime,
   * except for a candidate that is always read and a file an enricher wants again within a day.
   */
  lemma WhenAFileIsLeftAlone(o: Options, sourceId: string, c: Candidate, a: Attempt, seen: Option<Fingerprint>)
    ensures var r := PrepareFile(o, sourceId, c, a, seen);
      var id := if c.identity != "" then c.identity else if c.series != "" then c.series else c.path;
      var observed := if seen.Some? && seen.value.nativePath != "" then seen.value.nativePath else id;
      var waits := seen.Some? && seen.value.parked && o.now < seen.value.backoffUntil && (c.series == "" || c.path == observed);
      var same := seen.Some? && (seen.value.sourceSize, seen.value.sourceMTime) == (c.size, c.mtime) && seen.value.sourceHash != ""
                  && c.path == observed && !(o.staging && o.now - c.mtime < 86_400_000_000_000) && !c.alwaysLoad;
      && (r == Decided(Skipped, None) <==> waits) && (r.Decided? && r.decision.Skipped? ==> waits)
      && (!waits && same ==> r == Decided(Unchanged, None))
      && (a.load.None? ==> (r.Decided? && r.decision.Unchanged? <==> !waits && same))
      && (a.load.None? ==> (r.Decided? && r.decision.Parked? <==> !waits && !same))
  {
  }

  /**
   * What a file that is read comes to: unchanged exactly on the remembered hash, backed off exactly when it
   * differs and scrubbing fails, failed exactly when it then has no name or seal, and otherwise sealed, or
   * reported as it would ship by a dry run. `other` is the same file that could not be read.
   */
  lemma WhatAReadFileComesTo(o: Options, sourceId: string, c: Candidate, a: Attempt, other: Attempt, seen: Option<Fingerprint>)
    requires a.load.Some? && other.load.None?
    requires var unread := PrepareFile(o, sourceId, c, other, seen); unread.Decided? && unread.decision.Parked?
    ensures var r := PrepareFile(o, sourceId, c, a, seen);
      var hash := o.hash(if a.load.value.compare.Some? then a.load.value.compare.value else a.load.value.bytes);
      var differs := seen.None? || seen.value.sourceHash != hash;
      var shippable := differs && a.scrubError.None? && a.nameable && a.sealedSize.Some?;
      && (r.Decided? && r.decision.Unchanged? <==> !differs)
      && (r.Decided? && r.decision.Parked? <==> differs && a.scrubError.Some?)
      && (r == Decided(Failed, None) <==> differs && a.scrubError.None? && (!a.nameable || a.sealedSize.None?))
      && (r == Decided(Shipped, None) <==> shippable && o.dryRun)
      && (r.Sealed? <==> shippable && !o.dryRun)
      && (r.Sealed? ==> r == Sealed(a.sealedSize.value, Fingerprint(c.path, c.size, c.mtime, hash, None, "", false, "", 0, 0)))
  {
  }

  /** What is written: nothing by a dry run or for a file not read; else a refresh, or one more failure with its reason. */
  lemma WhatADecisionWrites(o: Options, sourceId: string, c: Candidate, a: Attempt, seen: Option<Fingerprint>)
    requires PrepareFile(o, sourceId, c, a, seen).Decided?
    ensures var r := PrepareFile(o, sourceId, c, a, seen);
      var id := if c.identity != "" then c.identity else if c.series != "" then c.series else c.path;
      var fp := if seen.Some? then seen.value else Fingerprint("", 0, 0, "", None, "", false, "", 0, 0);
      && (r.intent.Some? ==> !o.dryRun && (r.decision.Parked? || (r.decision.Unchanged? && a.load.Some?)))
      && (r.intent.Some? && r.decision.Unchanged? ==>
           r.intent.value == Intent(Refresh, Fingerprint(c.path, c.size, c.mtime, fp.sourceHash, fp.enricher, fp.outputHash, false, "", 0, 0)))
      && (r.decision.Parked? && !o.dryRun ==>
           r.intent == Some(Intent(Backoff, Fingerprint(
             c.path, fp.sourceSize, fp.sourceMTime, fp.sourceHash, fp.enricher, fp.outputHash, true,
             if a.load.None? then a.loadError else a.scrubError.GetOr(""),
             o.now + BackoffFor(fp.attempts + 1, o.spread(Key(sourceId, id))), fp.attempts + 1))))
      && (r.decision.Unchanged? && !o.dryRun && r.intent.None? ==>
           forall b: Attempt :: PrepareFile(o, sourceId, c, b, seen) == Decided(Unchanged, None))
  {
  }

  /** A derived object: unchanged exactly on the remembered output of a committed ship, else scrubbed, named and sealed. */
  lemma WhatADerivedObjectComesTo(o: Options, d: Derived, a: Attempt, seen: Option<Fingerprint>)
    ensures var r := PrepareDerived(o, d, a, seen);
      var same := seen.Some? && seen.value.outputHash == d.outputHash && seen.value.sourceHash != "";
      var works := a.scrubError.None? && a.nameable && a.sealedSize.Some?;
      && (r == Decided(Unchanged, None) <==> same)
      && (r == Decided(Failed, None) <==> !same && !works)
      && (r == Decided(Shipped, None) <==> !same && works && o.dryRun)
      && (r.Sealed? <==> !same && works && !o.dryRun)
      && (r.Sealed? ==> r == Sealed(a.sealedSize.value,
            Fingerprint("", 0, 0, o.hash(d.payload), Some(d.enricher), d.outputHash, false, "", 0, 0)))
  {
  }

  function Doublings(n: nat): nat { if n == 0 then 1 else 2 * Doublings(n - 1) }

  /** The wait before the next try: a minute doubled per failure, an hour at most, less up to eight sixty-fourths. */
  lemma BackoffDoubles(attempt: nat, spread: nat)
    ensures var full := if Doublings(attempt) <= 60 then Doublings(attempt) * 60_000_000_000 else 3_600_000_000_000;
      BackoffFor(attempt, spread) == full - spread % 9 * full / 64
  {
    assert Doublings(0) == 1 && Doublings(1) == 2 && Doublings(2) == 4 && Doublings(3) == 8;
    assert Doublings(4) == 16 && Doublings(5) == 32 && Doublings(6) == 64;
    if attempt > 6 { DoublingsGrow(6, attempt); }
  }

  lemma {:induction false} DoublingsGrow(a: nat, b: nat)
    requires a <= b
    ensures Doublings(a) <= Doublings(b)
    decreases b
  {
    if a < b { DoublingsGrow(a, b - 1); }
  }

  /** Refreshing and backing off keep the hash they were given; only a sealed object carries a new one. */
  lemma OnlyASealCarriesANewHash(o: Options, sourceId: string, c: Candidate, a: Attempt, seen: Option<Fingerprint>)
    ensures var r := PrepareFile(o, sourceId, c, a, seen);
      && (r.Decided? && r.intent.Some? ==>
           r.intent.value.fp.sourceHash == seen.GetOr(BLANK).sourceHash && !r.intent.value.kind.ShippedIntent? && !o.dryRun)
      && (r.Sealed? ==> a.load.Some? && r.next.sourceHash == o.hash(Compared(a.load.value)) && !o.dryRun)
  {
  }

  /** Handling a file forgets its failures; failing adds one, keeps what shipped, and waits between a minute and an hour. */
  lemma FailuresAddUpUntilHandled(o: Options, sourceId: string, c: Candidate, a: Attempt, seen: Option<Fingerprint>)
    ensures var r := PrepareFile(o, sourceId, c, a, seen);
      var before := seen.GetOr(BLANK);
      && (r.Sealed? || (r.Decided? && r.intent.Some? && r.intent.value.kind.Refresh?) ==>
           var fp := if r.Sealed? then r.next else r.intent.value.fp;
           !fp.parked && fp.attempts == 0 && fp.lastError == "" && fp.backoffUntil == 0
           && (fp.nativePath, fp.sourceSize, fp.sourceMTime) == (c.path, c.size, c.mtime))
      && (r.Decided? && r.decision.Parked? && !o.dryRun ==>
           r.intent.Some? && r.intent.value.kind.Backoff?
           && var fp := r.intent.value.fp;
              fp.parked && fp.attempts == before.attempts + 1 && fp.sourceHash == before.sourceHash
              && fp.backoffUntil <= o.now + BACKOFF_CAP && (before.attempts >= 0 ==> o.now + MINUTE < fp.backoffUntil))
  {
  }

  /** A file read and found different is never reported unchanged, and one found the same never ships. */
  lemma ContentDecides(o: Options, sourceId: string, c: Candidate, a: Attempt, seen: Option<Fingerprint>)
    requires a.load.Some? && !Waiting(o, KeyOf(sourceId, c), seen.GetOr(BLANK), c)
    requires c.alwaysLoad || !UnchangedByStat(o, KeyOf(sourceId, c), seen, c)
    ensures var r := PrepareFile(o, sourceId, c, a, seen);
      (r.Decided? && r.decision.Unchanged?) <==> (seen.Some? && seen.value.sourceHash == o.hash(Compared(a.load.value)))
  {
  }

  // The fingerprint a result leaves behind once it is committed.
  function Left(p: Prepared, seen: Option<Fingerprint>): Option<Fingerprint> {
    match p
    case Sealed(_, next) => Some(next)
    case Decided(_, Some(intent)) => Some(intent.fp)
    case Decided(_, None) => seen
  }

  /**
   * The next scan agrees: a file shipped or refreshed is unchanged without being opened, and a file
   * backed off is left alone exactly until its time, whatever reading it would now yield.
   */
  lemma NextScanAgrees(o: Options, later: Options, sourceId: string, c: Candidate, a: Attempt, again: Attempt, seen: Option<Fingerprint>)
    requires !o.dryRun && !c.alwaysLoad && c.path != "" && !later.staging
    requires forall bytes :: o.hash(bytes) != ""
    ensures var first := PrepareFile(o, sourceId, c, a, seen);
      var second := PrepareFile(later, sourceId, c, again, Left(first, seen));
      && (first.Sealed? || (first.Decided? && first.intent.Some? && first.intent.value.kind.Refresh?) ==>
           second == Decided(Unchanged, None))
      && (first.Decided? && first.intent.Some? && first.intent.value.kind.Backoff? ==>
           (second == Decided(Skipped, None) <==> later.now < first.intent.value.fp.backoffUntil))
  {
  }
}
