/**
 * Collection with crashes anywhere: files prepared from what the store said, objects answered by the
 * archive, fingerprints buffered, the document replaced whole, the process restarted.
 */
module Durability {
  import opened Wrappers
  import opened Fingerprints
  import opened FilePass
  import opened FileDecision
  import opened StateStore

  // A sealed object on its way: the bytes its fingerprint would record having shipped.
  datatype Upload = Upload(key: Key, content: string, next: Fingerprint)
  datatype Write = Write(key: Key, fp: Fingerprint)

  // `confirmed` is the history the process cannot see: each upload the archive answered for.
  datatype Engine = Engine(
    buffer: Buffer, admitted: seq<(Key, Option<Fingerprint>)>, uploads: seq<Upload>, writes: seq<Write>,
    confirmed: set<(Key, string)>)

  const FRESH := Engine(Buffer(EMPTY, EMPTY, map[], {}, DEFAULT_COMMIT_BATCH), [], [], [], {})

  datatype Event =
    | Restart(loadable: bool, limit: nat)
    | Admit(key: Key)
    | Prepare(k: nat, o: Options, sourceId: string, candidate: Candidate, attempt: Attempt)
    | Derive(o: Options, sourceId: string, derived: Derived, attempt: Attempt)
    | Answer(k: nat, verdict: Verdict)
    | Record(k: nat, ok: bool)
    | FlushBuffer(ok: bool)
    | Respecify(source: string, spec: string, flushed: bool, ok: bool)
    | Vanish(source: string, live: set<string>, flushed: bool, ok: bool)
    | Forget(keys: set<Key>)

  ghost predicate Enabled(e: Engine, ev: Event, hash: string -> string) {
    match ev
    case Restart(_, limit) => limit > 0
    case Prepare(k, o, sourceId, c, _) =>
      k < |e.admitted| && e.admitted[k].0 == KeyOf(sourceId, c) && o.hash == hash
    case Derive(o, _, _, _) => o.hash == hash
    case Answer(k, _) => k < |e.uploads|
    case Record(k, _) => k < |e.writes|
    case _ => true
  }

  predicate Stocked(verdict: Verdict) { verdict.Confirmed? || verdict.AlreadyPresent? }

  // What a prepared object leaves to do.
  function Prepared(e: Engine, key: Key, content: string, p: FilePass.Prepared): Engine {
    match p
    case Sealed(_, next) => e.(uploads := e.uploads + [Upload(key, content, next)])
    case Decided(_, Some(intent)) => e.(writes := e.writes + [Write(key, intent.fp)])
    case Decided(_, None) => e
  }

  function Answered(e: Engine, k: nat, verdict: Verdict): Engine
    requires k < |e.uploads|
  {
    var u := e.uploads[k];
    var rest := e.(uploads := Without(e.uploads, k));
    if Stocked(verdict) then rest.(writes := rest.writes + [Write(u.key, u.next)], confirmed := rest.confirmed + {(u.key, u.content)})
    else rest
  }

  function Step(e: Engine, ev: Event, hash: string -> string): Engine
    requires Enabled(e, ev, hash)
  {
    match ev
    case Restart(loadable, limit) =>
      Engine(Buffer(e.buffer.disk, if loadable then e.buffer.disk else EMPTY, map[], {}, limit), [], [], [], e.confirmed)
    case Admit(key) => e.(admitted := e.admitted + [(key, Read(e.buffer, key))])
    case Prepare(k, o, sourceId, c, a) =>
      Prepared(e.(admitted := Without(e.admitted, k)), e.admitted[k].0,
               if a.load.Some? then Compared(a.load.value) else "", PrepareFile(o, sourceId, c, a, e.admitted[k].1))
    case Derive(o, sourceId, d, a) =>
      var key := Key(sourceId, d.path);
      Prepared(e, key, d.payload, PrepareDerived(o, d, a, Read(e.buffer, key)))
    case Answer(k, verdict) => Answered(e, k, verdict)
    case Record(k, ok) =>
      e.(buffer := StateStore.Committed(e.buffer, e.writes[k].key, e.writes[k].fp, ok), writes := Without(e.writes, k))
    case FlushBuffer(ok) => e.(buffer := Flushed(e.buffer, ok))
    case Respecify(source, spec, flushed, ok) => e.(buffer := EnsuredSpec(e.buffer, source, spec, flushed, ok))
    case Vanish(source, live, flushed, ok) => e.(buffer := DroppedVanished(e.buffer, source, live, flushed, ok))
    case Forget(keys) =>
      // An operator's edit, made on the document while no flush holds the lock.
      var disk := e.buffer.disk.(entries := e.buffer.disk.entries - keys);
      Engine(Buffer(disk, disk, map[], {}, e.buffer.limit), [], [], [], e.confirmed)
  }

  // --- what every state keeps ------------------------------------------------------------------

  // A remembered ship is one the archive answered for, of content with the remembered digest.
  ghost predicate Backed(confirmed: set<(Key, string)>, hash: string -> string, k: Key, fp: Fingerprint) {
    fp.sourceHash != "" ==> exists content :: (k, content) in confirmed && hash(content) == fp.sourceHash
  }

  ghost predicate AllBacked(confirmed: set<(Key, string)>, hash: string -> string, entries: map<Key, Fingerprint>) {
    forall k :: k in entries ==> Backed(confirmed, hash, k, entries[k])
  }

  ghost predicate BufferBacked(confirmed: set<(Key, string)>, hash: string -> string, b: Buffer) {
    && AllBacked(confirmed, hash, b.disk.entries)
    && AllBacked(confirmed, hash, b.memory.entries)
    && AllBacked(confirmed, hash, b.pending)
  }

  ghost predicate Honest(e: Engine, hash: string -> string) {
    && BufferBacked(e.confirmed, hash, e.buffer)
    && (forall r :: r in e.admitted && r.1.Some? ==> Backed(e.confirmed, hash, r.0, r.1.value))
    && (forall u :: u in e.uploads ==> u.next.sourceHash == hash(u.content))
    && (forall w :: w in e.writes ==> Backed(e.confirmed, hash, w.key, w.fp))
  }

  lemma MergeKeepsBacked(
      confirmed: set<(Key, string)>, hash: string -> string, a: map<Key, Fingerprint>, b: map<Key, Fingerprint>)
    requires AllBacked(confirmed, hash, a) && AllBacked(confirmed, hash, b)
    ensures AllBacked(confirmed, hash, a + b)
  {
    hide Backed;
  }

  lemma FlushKeepsBacked(confirmed: set<(Key, string)>, hash: string -> string, b: Buffer, ok: bool)
    requires BufferBacked(confirmed, hash, b)
    ensures BufferBacked(confirmed, hash, Flushed(b, ok))
  {
    MergeKeepsBacked(confirmed, hash, b.memory.entries, b.pending);
    assert AllBacked(confirmed, hash, map[]);
    hide AllBacked;
  }

  lemma CommitKeepsBacked(confirmed: set<(Key, string)>, hash: string -> string, b: Buffer, k: Key, fp: Fingerprint, ok: bool)
    requires BufferBacked(confirmed, hash, b) && Backed(confirmed, hash, k, fp)
    ensures BufferBacked(confirmed, hash, StateStore.Committed(b, k, fp, ok))
  {
    hide Backed, Flushed;
    var added := b.(pending := b.pending[k := fp]);
    assert AllBacked(confirmed, hash, added.pending);
    hide AllBacked;
    FlushKeepsBacked(confirmed, hash, added, ok);
  }

  lemma DropsKeepBacked(
      confirmed: set<(Key, string)>, hash: string -> string, b: Buffer, source: string, spec: string, live: set<string>,
      flushed: bool, ok: bool)
    requires BufferBacked(confirmed, hash, b)
    ensures BufferBacked(confirmed, hash, EnsuredSpec(b, source, spec, flushed, ok))
    ensures BufferBacked(confirmed, hash, DroppedVanished(b, source, live, flushed, ok))
  {
    hide Backed, Flushed;
    FlushKeepsBacked(confirmed, hash, b, flushed);
  }

  lemma ConfirmingKeepsHonest(e: Engine, hash: string -> string, key: Key, content: string)
    requires Honest(e, hash)
    ensures Honest(e.(confirmed := e.confirmed + {(key, content)}), hash)
  {
    var more := e.confirmed + {(key, content)};
    forall k, fp | Backed(e.confirmed, hash, k, fp) ensures Backed(more, hash, k, fp) {
      if fp.sourceHash != "" {
        var c :| (k, c) in e.confirmed && hash(c) == fp.sourceHash;
        assert (k, c) in more;
      }
    }
    hide Backed;
  }

  lemma PreparedKeepsHonest(e: Engine, hash: string -> string, key: Key, content: string, p: FilePass.Prepared)
    requires Honest(e, hash)
    requires p.Sealed? ==> p.next.sourceHash == hash(content)
    requires p.Decided? && p.intent.Some? ==> Backed(e.confirmed, hash, key, p.intent.value.fp)
    ensures Honest(Prepared(e, key, content, p), hash)
  {
    hide Backed, BufferBacked;
  }

  lemma AnsweredKeepsHonest(e: Engine, hash: string -> string, k: nat, verdict: Verdict)
    requires Honest(e, hash) && k < |e.uploads|
    ensures Honest(Answered(e, k, verdict), hash)
  {
    var u := e.uploads[k];
    var rest := e.(uploads := Without(e.uploads, k));
    assert u in e.uploads;
    assert Honest(rest, hash) by { hide Backed, BufferBacked; }
    if Stocked(verdict) {
      ConfirmingKeepsHonest(rest, hash, u.key, u.content);
      var more := rest.confirmed + {(u.key, u.content)};
      assert (u.key, u.content) in more;
      assert Backed(more, hash, u.key, u.next);
      hide Backed, BufferBacked;
    }
  }

  lemma StepKeepsHonest(e: Engine, ev: Event, hash: string -> string)
    requires Honest(e, hash) && Enabled(e, ev, hash)
    ensures Honest(Step(e, ev, hash), hash) && e.confirmed <= Step(e, ev, hash).confirmed
  {
    hide Backed, StateStore.Committed, Flushed, EnsuredSpec, DroppedVanished, Answered, PrepareFile, PrepareDerived;
    if ev.Prepare? {
      PreparationKeepsHonest(e, hash, ev.k, ev.o, ev.sourceId, ev.candidate, ev.attempt);
    } else if ev.Derive? {
      DerivationKeepsHonest(e, hash, ev.o, ev.sourceId, ev.derived, ev.attempt);
    } else if ev.Answer? {
      AnsweredKeepsHonest(e, hash, ev.k, ev.verdict);
      ConfirmedGrows(e, ev.k, ev.verdict);
    } else if ev.Record? {
      assert e.writes[ev.k] in e.writes;
      CommitKeepsBacked(e.confirmed, hash, e.buffer, e.writes[ev.k].key, e.writes[ev.k].fp, ev.ok);
    } else if ev.FlushBuffer? {
      FlushKeepsBacked(e.confirmed, hash, e.buffer, ev.ok);
    } else if ev.Respecify? {
      DropsKeepBacked(e.confirmed, hash, e.buffer, ev.source, ev.spec, {}, ev.flushed, ev.ok);
    } else if ev.Vanish? {
      DropsKeepBacked(e.confirmed, hash, e.buffer, ev.source, "", ev.live, ev.flushed, ev.ok);
    }
  }

  lemma ConfirmedGrows(e: Engine, k: nat, verdict: Verdict)
    requires k < |e.uploads|
    ensures e.confirmed <= Answered(e, k, verdict).confirmed
  {
  }

  lemma PreparationKeepsHonest(
      e: Engine, hash: string -> string, k: nat, o: Options, sourceId: string, c: Candidate, a: Attempt)
    requires Honest(e, hash) && Enabled(e, Prepare(k, o, sourceId, c, a), hash)
    ensures Honest(Step(e, Prepare(k, o, sourceId, c, a), hash), hash)
  {
    var (key, seen) := e.admitted[k];
    assert e.admitted[k] in e.admitted;
    OnlyASealCarriesANewHash(o, sourceId, c, a, seen);
    var p := PrepareFile(o, sourceId, c, a, seen);
    assert p.Decided? && p.intent.Some? ==> Backed(e.confirmed, hash, key, p.intent.value.fp);
    hide Backed, PrepareFile;
    PreparedKeepsHonest(e.(admitted := Without(e.admitted, k)), hash, key, if a.load.Some? then Compared(a.load.value) else "", p);
  }

  lemma DerivationKeepsHonest(e: Engine, hash: string -> string, o: Options, sourceId: string, d: Derived, a: Attempt)
    requires Honest(e, hash) && o.hash == hash
    ensures Honest(Step(e, Derive(o, sourceId, d, a), hash), hash)
  {
    var key := Key(sourceId, d.path);
    hide Backed, Read;
    PreparedKeepsHonest(e, hash, key, d.payload, PrepareDerived(o, d, a, Read(e.buffer, key)));
  }

  /**
   * The history grows only by an upload the archive answered for, with the bytes prepared for it; nothing in
   * the process is taken as confirmed before, and a restart forgets everything but the document.
   */
  lemma OnlyTheArchiveConfirms(e: Engine, ev: Event, hash: string -> string)
    requires Enabled(e, ev, hash)
    ensures var f := Step(e, ev, hash);
      f.confirmed == e.confirmed + (
        if ev.Answer? && (ev.verdict == Confirmed || ev.verdict == AlreadyPresent) then {(e.uploads[ev.k].key, e.uploads[ev.k].content)} else {})
    ensures ev.Restart? ==> var f := Step(e, ev, hash);
      && f.admitted == [] && f.uploads == [] && f.writes == [] && f.buffer.pending == map[] && f.buffer.stale == {}
      && f.buffer.disk == e.buffer.disk && f.buffer.memory == if ev.loadable then e.buffer.disk else Doc(map[], map[])
    ensures ev.Admit? ==> Step(e, ev, hash).admitted == e.admitted + [(ev.key, Read(e.buffer, ev.key))]
    ensures ev.Prepare? && PrepareFile(ev.o, ev.sourceId, ev.candidate, ev.attempt, e.admitted[ev.k].1).Sealed? ==>
      var next := PrepareFile(ev.o, ev.sourceId, ev.candidate, ev.attempt, e.admitted[ev.k].1).next;
      && ev.attempt.load.Some?
      && Step(e, ev, hash).uploads == e.uploads + [Upload(e.admitted[ev.k].0,
           if ev.attempt.load.value.compare.Some? then ev.attempt.load.value.compare.value else ev.attempt.load.value.bytes, next)]
  {
    hide StateStore.Committed, Flushed, EnsuredSpec, DroppedVanished, PrepareDerived;
    if ev.Prepare? { OnlyASealCarriesANewHash(ev.o, ev.sourceId, ev.candidate, ev.attempt, e.admitted[ev.k].1); }
    hide PrepareFile;
  }

  /**
   * What the process owes after each event: an upload answered for and a decision with something to write
   * leave one write, a write is made once, and the document's own operations reach the buffer.
   */
  lemma WhatEachEventLeaves(e: Engine, ev: Event, hash: string -> string)
    requires Enabled(e, ev, hash)
    ensures var f := Step(e, ev, hash);
      && (ev.Answer? ==>
            var stocked := ev.verdict == Confirmed || ev.verdict == AlreadyPresent;
            && f.uploads == e.uploads[..ev.k] + e.uploads[ev.k + 1..]
            && f.writes == e.writes + (if stocked then [Write(e.uploads[ev.k].key, e.uploads[ev.k].next)] else []))
      && (ev.Prepare? ==>
            var p := PrepareFile(ev.o, ev.sourceId, ev.candidate, ev.attempt, e.admitted[ev.k].1);
            && f.admitted == e.admitted[..ev.k] + e.admitted[ev.k + 1..]
            && f.writes == e.writes + (if p.Decided? && p.intent.Some? then [Write(e.admitted[ev.k].0, p.intent.value.fp)] else []))
      && (ev.Record? ==>
            && f.writes == e.writes[..ev.k] + e.writes[ev.k + 1..]
            && f.buffer == StateStore.Committed(e.buffer, e.writes[ev.k].key, e.writes[ev.k].fp, ev.ok))
      && (ev.FlushBuffer? ==> f == e.(buffer := Flushed(e.buffer, ev.ok)))
      && (ev.Respecify? ==> f == e.(buffer := EnsuredSpec(e.buffer, ev.source, ev.spec, ev.flushed, ev.ok)))
      && (ev.Vanish? ==> f == e.(buffer := DroppedVanished(e.buffer, ev.source, ev.live, ev.flushed, ev.ok)))
      && (ev.Forget? ==> f.buffer.disk.specs == e.buffer.disk.specs && f.buffer.disk.entries == e.buffer.disk.entries - ev.keys)
  {
    hide PrepareFile, StateStore.Committed, Flushed, EnsuredSpec, DroppedVanished;
  }

  /** A ship that is answered for, recorded and flushed is on disk, whatever the limit of the buffer. */
  lemma ShippedBecomesDurable(e: Engine, hash: string -> string, k: nat, verdict: Verdict)
    requires k < |e.uploads| && (verdict == Confirmed || verdict == AlreadyPresent)
    ensures var answered := Step(e, Answer(k, verdict), hash);
      var recorded := Step(answered, Record(|e.writes|, true), hash);
      var flushed := Step(recorded, FlushBuffer(true), hash);
      Lookup(flushed.buffer.disk.entries, e.uploads[k].key) == Some(e.uploads[k].next)
  {
    var answered := Step(e, Answer(k, verdict), hash);
    WhatEachEventLeaves(e, Answer(k, verdict), hash);
    WhatEachEventLeaves(answered, Record(|e.writes|, true), hash);
    assert answered.writes[|e.writes|] == Write(e.uploads[k].key, e.uploads[k].next);
  }

  // --- whole histories -------------------------------------------------------------------------

  ghost predicate Runs(e: Engine, events: seq<Event>, hash: string -> string, f: Engine)
    decreases |events|
  {
    if events == [] then e == f
    else Enabled(e, events[0], hash) && Runs(Step(e, events[0], hash), events[1..], hash, f)
  }

  lemma {:induction false} RunKeepsHonest(e: Engine, events: seq<Event>, hash: string -> string, f: Engine)
    requires Honest(e, hash) && Runs(e, events, hash, f)
    ensures Honest(f, hash) && e.confirmed <= f.confirmed
    decreases |events|
  {
    if events != [] {
      hide Honest, Step, Enabled;
      StepKeepsHonest(e, events[0], hash);
      RunKeepsHonest(Step(e, events[0], hash), events[1..], hash, f);
    }
  }

  /**
   * Whatever crashes, failed writes, spec resets and vanished files a history holds, each non-empty hash
   * in the document on disk is that of content the archive had confirmed for that key by then.
   */
  lemma DurableHashesWereConfirmed(events: seq<Event>, hash: string -> string, e: Engine, k: Key)
    requires Runs(FRESH, events, hash, e) && k in e.buffer.disk.entries && e.buffer.disk.entries[k].sourceHash != ""
    ensures exists content :: (k, content) in e.confirmed && hash(content) == e.buffer.disk.entries[k].sourceHash
  {
    RunKeepsHonest(FRESH, events, hash, e);
  }

  ghost predicate Injective(hash: string -> string) { forall a, b :: hash(a) == hash(b) ==> a == b }

  /**
   * No silent loss: a file read and reported unchanged holds exactly what the archive confirmed for its
   * key, in any reachable state of any history.
   */
  lemma UnchangedContentIsInTheArchive(
      events: seq<Event>, hash: string -> string, e: Engine, k: nat, o: Options, sourceId: string, c: Candidate, a: Attempt)
    requires Runs(FRESH, events, hash, e) && Enabled(e, Prepare(k, o, sourceId, c, a), hash)
    requires Injective(hash) && forall bytes :: hash(bytes) != ""
    requires var p := PrepareFile(o, sourceId, c, a, e.admitted[k].1); p.Decided? && p.decision.Unchanged?
    requires a.load.Some? && !Waiting(o, KeyOf(sourceId, c), e.admitted[k].1.GetOr(BLANK), c)
    requires c.alwaysLoad || !UnchangedByStat(o, KeyOf(sourceId, c), e.admitted[k].1, c)
    ensures (KeyOf(sourceId, c), Compared(a.load.value)) in e.confirmed
  {
    RunKeepsHonest(FRESH, events, hash, e);
    ContentDecides(o, sourceId, c, a, e.admitted[k].1);
    assert e.admitted[k] in e.admitted;
    var content :| (KeyOf(sourceId, c), content) in e.confirmed && hash(content) == e.admitted[k].1.value.sourceHash;
  }
}
