/** The concurrent pass over real per-file decisions: what it reports done, the next pass leaves alone. */
module FileCollection {
  import opened Wrappers
  import opened Fingerprints
  import opened FilePass
  import opened FilePassInvariants
  import opened FilePassRefinement
  import opened FileDecision

  // One candidate as a scan sees it: how reading it would go, and what it weighs if it must be opened.
  datatype Seen = Seen(candidate: Candidate, attempt: Attempt, zstd: bool, loadBytes: nat)

  // A compressed file decodes to far more than it stats, unless it will not be opened at all.
  function Weight(o: Options, sourceId: string, s: Seen, fp: Option<Fingerprint>): nat {
    var size := if s.candidate.size < 0 then 0 else s.candidate.size;
    if s.zstd && !UnchangedByStat(o, KeyOf(sourceId, s.candidate), fp, s.candidate) then s.loadBytes else size
  }

  /** A file weighs what it stats, or what it decodes to when it is compressed and must be read. */
  lemma WhatAFileWeighs(o: Options, sourceId: string, s: Seen, fp: Option<Fingerprint>)
    ensures var c := s.candidate;
      var id := if c.identity != "" then c.identity else if c.series != "" then c.series else c.path;
      var observed := if fp.Some? && fp.value.nativePath != "" then fp.value.nativePath else id;
      var same := fp.Some? && (fp.value.sourceSize, fp.value.sourceMTime) == (c.size, c.mtime) && fp.value.sourceHash != ""
                  && c.path == observed && !(o.staging && o.now - c.mtime < 86_400_000_000_000);
      Weight(o, sourceId, s, fp) == if s.zstd && !same then s.loadBytes else if c.size >= 0 then c.size else 0
  {
  }

  function KeysOf(sourceId: string, scan: seq<Seen>): seq<Key> {
    seq(|scan|, i requires 0 <= i < |scan| => KeyOf(sourceId, scan[i].candidate))
  }

  function PassOver(o: Options, sourceId: string, scan: seq<Seen>, limit: nat, gate: nat, maxObjects: nat): Source {
    Source(KeysOf(sourceId, scan),
           (i: nat, fp) => if i < |scan| then Weight(o, sourceId, scan[i], fp) else 0,
           (i: nat, fp) => if i < |scan| then PrepareFile(o, sourceId, scan[i].candidate, scan[i].attempt, fp) else Decided(Skipped, None),
           limit, gate, maxObjects)
  }

  /** The pass decides each file by what the store said of it when it was admitted, and only files of the scan. */
  lemma WhatThePassDecides(o: Options, sourceId: string, scan: seq<Seen>, limit: nat, gate: nat, maxObjects: nat, i: nat, fp: Option<Fingerprint>)
    requires i < |scan|
    ensures var src, c := PassOver(o, sourceId, scan, limit, gate, maxObjects), scan[i].candidate;
      && |src.keys| == |scan| && src.keys[i] == Key(sourceId, if c.identity != "" then c.identity else if c.series != "" then c.series else c.path)
      && src.prepare(i, fp) == PrepareFile(o, sourceId, c, scan[i].attempt, fp)
      && src.weigh(i, fp) == Weight(o, sourceId, scan[i], fp)
      && (src.limit, src.gate, src.maxObjects) == (limit, gate, maxObjects)
  {
  }

  // A scan of plain files by a run that ships.
  ghost predicate Ordinary(o: Options, scan: seq<Seen>) {
    && !o.dryRun && (forall bytes :: o.hash(bytes) != "")
    && forall s :: s in scan ==> s.candidate.path != "" && !s.candidate.alwaysLoad
  }

  predicate Done(outcome: Outcome) { outcome.decision.Shipped? || outcome.decision.Unchanged? }

  // A file one pass counts as done is unchanged by stat to the next, whatever it now reads like.
  lemma DoneStaysDone(o: Options, later: Options, sourceId: string, s: Seen, again: Attempt, verdict: Staged -> Verdict, i: nat, src: Source, fp: Option<Fingerprint>)
    requires Ordinary(o, [s]) && !later.staging && later.now >= o.now
    requires src.prepare(i, fp) == PrepareFile(o, sourceId, s.candidate, s.attempt, fp)
    requires Done(Alone(src, verdict, i, fp).outcome)
    ensures var r := Alone(src, verdict, i, fp);
      var left := if r.intent.Some? then Some(r.intent.value.fp) else fp;
      PrepareFile(later, sourceId, s.candidate, again, left) == Decided(Unchanged, None)
  {
    assert s in [s];
    NextScanAgrees(o, later, sourceId, s.candidate, s.attempt, again, fp);
  }

  /**
   * Two passes over the same files: whatever a calm first pass reports shipped or unchanged, in whatever
   * order it finished, the second finds unchanged without opening it and asks to write nothing.
   */
  lemma NextPassOpensNothingDone(
      o: Options, later: Options, sourceId: string, scan: seq<Seen>, limit: nat, gate: nat, maxObjects: nat,
      store: map<Key, Fingerprint>, budget: nat, verdict: Staged -> Verdict, events: seq<Event>, q: Pass, i: nat, again: Attempt)
    requires Ordinary(o, scan) && !later.staging && later.now >= o.now
    requires Distinct(KeysOf(sourceId, scan)) && Harmless(verdict) && limit >= 1 && maxObjects >= 1
    requires CalmRun(PassOver(o, sourceId, scan, limit, gate, maxObjects), verdict, Start(store, budget), events, q)
    requires i < |scan| && i in q.ledger.slots && (q.ledger.slots[i].decision == Shipped || q.ledger.slots[i].decision == Unchanged)
    ensures PrepareFile(later, sourceId, scan[i].candidate, again, Lookup(q.ledger.store, KeyOf(sourceId, scan[i].candidate)))
         == Decided(Unchanged, None)
  {
    hide CalmRun, Faithful, Tracks, Fair, Workable, PrepareFile, Alone;
    var c := Setting(PassOver(o, sourceId, scan, limit, gate, maxObjects), verdict, store, budget);
    assert Fair(c) && Workable(c.src) by { AssumptionsHold(c); }
    StartTracks(c);
    CalmRunTracks(c, Start(store, budget), events, q);
    SettledFile(c, q, i);
    assert c.src.keys[i] == KeyOf(sourceId, scan[i].candidate);
    assert scan[i] in scan && Ordinary(o, [scan[i]]);
    DoneStaysDone(o, later, sourceId, scan[i], again, verdict, i, c.src, Lookup(store, c.src.keys[i]));
  }

  lemma AssumptionsHold(c: Setting)
    requires Distinct(c.src.keys) && Harmless(c.verdict) && c.src.limit >= 1 && c.src.maxObjects >= 1
    ensures Fair(c) && Workable(c.src)
  {
  }

  // A settled file's outcome and stored fingerprint are its own result's.
  lemma SettledFile(c: Setting, q: Pass, i: nat)
    requires Faithful(c, q) && i in q.ledger.slots && i < |c.src.keys|
    ensures var r := Alone(c.src, c.verdict, i, Lookup(c.store, c.src.keys[i]));
      && q.ledger.slots[i] == r.outcome
      && Lookup(q.ledger.store, c.src.keys[i]) == if r.intent.Some? then Some(r.intent.value.fp) else Lookup(c.store, c.src.keys[i])
  {
    hide Alone, Lookup, Sound, QueueTracks, Affordable, Tally;
  }
}
