/** The fingerprint document, the store that replaces it whole, and the buffer that batches commits. */
module StateStore {
  import opened Wrappers
  import opened Fingerprints

  datatype Doc = Doc(entries: map<Key, Fingerprint>, specs: map<string, string>)
  const EMPTY := Doc(map[], map[])
  const DEFAULT_COMMIT_BATCH := 200

  function OfSource(entries: map<Key, Fingerprint>, source: string): set<Key> {
    set k | k in entries && k.sourceId == source
  }

  function Unseen(entries: map<Key, Fingerprint>, source: string, live: set<string>): set<Key> {
    set k | k in entries && k.sourceId == source && k.id !in live
  }

  // A source read under a new specification has no history; one never recorded adopts what it has.
  function Ensured(doc: Doc, source: string, spec: string): Doc {
    if source !in doc.specs then doc.(specs := doc.specs[source := spec])
    else if doc.specs[source] == spec then doc
    else Doc(doc.entries - OfSource(doc.entries, source), doc.specs[source := spec])
  }

  function SpecDrops(doc: Doc, source: string, spec: string): set<Key> {
    if source in doc.specs && doc.specs[source] != spec then OfSource(doc.entries, source) else {}
  }

  function Forgotten(doc: Doc, source: string, live: set<string>): Doc {
    doc.(entries := doc.entries - Unseen(doc.entries, source, live))
  }

  /** Key by key: a spec reset empties exactly its own source, a vanish pass exactly its unseen files. */
  lemma DropsExactly(doc: Doc, source: string, spec: string, live: set<string>, k: Key)
    ensures Lookup(Ensured(doc, source, spec).entries, k)
         == if k.sourceId == source && source in doc.specs && doc.specs[source] != spec then None else Lookup(doc.entries, k)
    ensures Ensured(doc, source, spec).specs == doc.specs[source := spec]
    ensures Lookup(Forgotten(doc, source, live).entries, k)
         == if k.sourceId == source && k.id !in live then None else Lookup(doc.entries, k)
    ensures Forgotten(doc, source, live).specs == doc.specs
    ensures SpecDrops(doc, source, spec) == doc.entries.Keys - Ensured(doc, source, spec).entries.Keys
    ensures Unseen(doc.entries, source, live) == doc.entries.Keys - Forgotten(doc, source, live).entries.Keys
  {
    if source in doc.specs { assert doc.specs[source := doc.specs[source]] == doc.specs; }
  }

  // --- the buffer over the store, as values ----------------------------------------------------

  // `disk` is the document a restart would load; `memory` the store's maps over it.
  datatype Buffer = Buffer(
    disk: Doc, memory: Doc, pending: map<Key, Fingerprint>, stale: set<string>, limit: nat)

  function Read(b: Buffer, k: Key): Option<Fingerprint> {
    if k.sourceId in b.stale then None
    else if k in b.pending then Some(b.pending[k])
    else Lookup(b.memory.entries, k)
  }

  // A failed replacement leaves the old document and keeps what is pending.
  function Written(b: Buffer, memory: Doc, ok: bool): Buffer {
    b.(memory := memory, disk := if ok then memory else b.disk)
  }

  function Flushed(b: Buffer, ok: bool): Buffer {
    if b.pending == map[] then b
    else
      var merged := b.memory.(entries := b.memory.entries + b.pending);
      Written(b, merged, ok).(pending := if ok then map[] else b.pending)
  }

  predicate FlushFails(b: Buffer, ok: bool) { b.pending != map[] && !ok }

  function Committed(b: Buffer, k: Key, fp: Fingerprint, ok: bool): Buffer {
    var added := b.(pending := b.pending[k := fp]);
    if |added.pending| >= b.limit then Flushed(added, ok) else added
  }

  function EnsuredSpec(b: Buffer, source: string, spec: string, flushOk: bool, ok: bool): Buffer {
    var f := Flushed(b, flushOk);
    if FlushFails(b, flushOk) || Ensured(f.memory, source, spec) == f.memory then f
    else Written(f, Ensured(f.memory, source, spec), ok)
  }

  function DroppedVanished(b: Buffer, source: string, live: set<string>, flushOk: bool, ok: bool): Buffer {
    var f := Flushed(b, flushOk);
    if FlushFails(b, flushOk) || Unseen(f.memory.entries, source, live) == {} then f
    else Written(f, Forgotten(f.memory, source, live), ok)
  }

  function Previewed(b: Buffer, source: string, spec: string): Buffer {
    if source in b.memory.specs && b.memory.specs[source] != spec then b.(stale := b.stale + {source}) else b
  }

  // --- a store that commits immediately --------------------------------------------------------

  datatype Op =
    | Get(key: Key)
    | Commit(key: Key, fp: Fingerprint)
    | Flush
    | EnsureSpec(source: string, spec: string)
    | DropVanished(source: string, live: set<string>)

  datatype Answer = Found(fp: Option<Fingerprint>) | Done | Dropped(count: nat)

  function Immediate(doc: Doc, op: Op): (Doc, Answer) {
    match op
    case Get(k) => (doc, Found(Lookup(doc.entries, k)))
    case Commit(k, fp) => (doc.(entries := doc.entries[k := fp]), Done)
    case Flush => (doc, Done)
    case EnsureSpec(source, spec) => (Ensured(doc, source, spec), Dropped(|SpecDrops(doc, source, spec)|))
    case DropVanished(source, live) =>
      (Forgotten(doc, source, live), Dropped(|Unseen(doc.entries, source, live)|))
  }

  // The same operation through the buffer, every write succeeding.
  function Buffered(b: Buffer, op: Op): (Buffer, Answer) {
    match op
    case Get(k) => (b, Found(Read(b, k)))
    case Commit(k, fp) => (Committed(b, k, fp, true), Done)
    case Flush => (Flushed(b, true), Done)
    case EnsureSpec(source, spec) =>
      (EnsuredSpec(b, source, spec, true, true), Dropped(|SpecDrops(Flushed(b, true).memory, source, spec)|))
    case DropVanished(source, live) =>
      (DroppedVanished(b, source, live, true, true), Dropped(|Unseen(Flushed(b, true).memory.entries, source, live)|))
  }

  function View(b: Buffer): Doc { b.memory.(entries := b.memory.entries + b.pending) }

  ghost predicate Settled(b: Buffer) { b.disk == b.memory && b.stale == {} && |b.pending| < b.limit }

  lemma FlushKeepsView(b: Buffer)
    requires b.disk == b.memory && b.stale == {} && b.limit > 0
    ensures Settled(Flushed(b, true)) && Flushed(b, true).pending == map[] && Flushed(b, true).limit == b.limit
    ensures View(Flushed(b, true)) == View(b) == Flushed(b, true).memory
  {
    MergeNothing(Flushed(b, true).memory.entries);
    if b.pending == map[] { MergeNothing(b.memory.entries); }
  }

  lemma CommitIsImmediate(b: Buffer, k: Key, fp: Fingerprint)
    requires Settled(b)
    ensures var after := Committed(b, k, fp, true);
      Settled(after) && after.limit == b.limit && View(after) == View(b).(entries := View(b).entries[k := fp])
  {
    MergeUpdate(b.memory.entries, b.pending, k, fp);
    hide Flushed, Lookup;
    FlushKeepsView(b.(pending := b.pending[k := fp]));
  }

  lemma MergeUpdate<K, V>(m: map<K, V>, updates: map<K, V>, k: K, v: V)
    ensures m + updates[k := v] == (m + updates)[k := v]
  {
  }

  lemma MergeNothing<K, V>(m: map<K, V>)
    ensures m + map[] == m && m - {} == m
  {
  }

  lemma EnsureIsImmediate(b: Buffer, source: string, spec: string)
    requires Settled(b)
    ensures var after := EnsuredSpec(b, source, spec, true, true);
      Settled(after) && after.limit == b.limit && View(after) == Ensured(View(b), source, spec)
  {
    hide Flushed, OfSource, Lookup;
    FlushKeepsView(b);
    MergeNothing(Ensured(Flushed(b, true).memory, source, spec).entries);
  }

  lemma DropIsImmediate(b: Buffer, source: string, live: set<string>)
    requires Settled(b)
    ensures var after := DroppedVanished(b, source, live, true, true);
      Settled(after) && after.limit == b.limit && View(after) == Forgotten(View(b), source, live)
  {
    hide Flushed, Unseen, Lookup;
    FlushKeepsView(b);
    var f := Flushed(b, true);
    MergeNothing(Forgotten(f.memory, source, live).entries);
    MergeNothing(f.memory.entries);
  }

  lemma StepIsImmediate(b: Buffer, op: Op)
    requires Settled(b)
    ensures var (after, answer) := Buffered(b, op);
      Settled(after) && after.limit == b.limit && (View(after), answer) == Immediate(View(b), op)
  {
    FlushKeepsView(b);
    hide Committed, EnsuredSpec, DroppedVanished, Flushed, Unseen, SpecDrops, Forgotten, Ensured;
    if op.Commit? {
      CommitIsImmediate(b, op.key, op.fp);
    } else if op.EnsureSpec? {
      EnsureIsImmediate(b, op.source, op.spec);
    } else if op.DropVanished? {
      DropIsImmediate(b, op.source, op.live);
    }
  }

  ghost function ImmediateRun(doc: Doc, ops: seq<Op>): (Doc, seq<Answer>)
    decreases |ops|
  {
    if ops == [] then (doc, [])
    else
      var (next, answer) := Immediate(doc, ops[0]);
      var (last, rest) := ImmediateRun(next, ops[1..]);
      (last, [answer] + rest)
  }

  ghost function BufferedRun(b: Buffer, ops: seq<Op>): (Buffer, seq<Answer>)
    decreases |ops|
  {
    if ops == [] then (b, [])
    else
      var (next, answer) := Buffered(b, ops[0]);
      var (last, rest) := BufferedRun(next, ops[1..]);
      (last, [answer] + rest)
  }

  // Which keys a restart would see differently from the running process.
  ghost predicate LagsWithin(b: Buffer, keys: set<Key>) {
    && b.disk.specs == View(b).specs
    && forall k :: k !in keys ==> Lookup(b.disk.entries, k) == Lookup(View(b).entries, k)
  }

  /**
   * While writes succeed the buffer cannot be told from a store that commits immediately: every answer
   * agrees, and the document on disk lags behind on fewer than `limit` keys.
   */
  lemma {:induction false} BufferIsTransparent(b: Buffer, ops: seq<Op>)
    requires Settled(b)
    ensures var (after, answers) := BufferedRun(b, ops);
      && (View(after), answers) == ImmediateRun(View(b), ops)
      && Settled(after) && after.limit == b.limit
      && |after.pending.Keys| < after.limit && LagsWithin(after, after.pending.Keys)
    decreases |ops|
  {
    hide Buffered, Immediate, View;
    if ops != [] {
      StepIsImmediate(b, ops[0]);
      BufferIsTransparent(Buffered(b, ops[0]).0, ops[1..]);
    } else {
      PendingIsTheLag(b);
    }
  }

  lemma PendingIsTheLag(b: Buffer)
    requires Settled(b)
    ensures LagsWithin(b, b.pending.Keys) && |b.pending.Keys| < b.limit
  {
    assert |b.pending.Keys| == |b.pending|;
  }

  // --- when writes fail ------------------------------------------------------------------------

  // Whether the flush of this operation, and then its own replacement, succeeds.
  datatype Faults = Faults(flushed: bool, ok: bool)

  function Attempted(b: Buffer, op: Op, f: Faults): Buffer {
    match op
    case Get(_) => b
    case Commit(k, fp) => Committed(b, k, fp, f.flushed)
    case Flush => Flushed(b, f.flushed)
    case EnsureSpec(source, spec) => EnsuredSpec(b, source, spec, f.flushed, f.ok)
    case DropVanished(source, live) => DroppedVanished(b, source, live, f.flushed, f.ok)
  }

  // A spec reset or a vanish pass is not forwarded over a flush that failed.
  predicate GivenUp(b: Buffer, op: Op, f: Faults) { (op.EnsureSpec? || op.DropVanished?) && b.pending != map[] && !f.flushed }

  lemma FlushKeepsTheView(b: Buffer, ok: bool)
    ensures var after := Flushed(b, ok);
      && View(after) == View(b) && after.stale == b.stale && after.limit == b.limit
      && (b.pending == map[] || ok ==> after.pending == map[] && after.memory == View(after))
      && (b.pending != map[] && !ok ==> after.pending == b.pending && after.disk == b.disk)
      && (b.pending != map[] && ok ==> after.disk == View(after))
      && (b.pending == map[] ==> after == b)
  {
    MergeNothing(b.memory.entries);
    MergeNothing((b.memory.entries + b.pending));
    assert b.memory.entries + b.pending + b.pending == b.memory.entries + b.pending;
  }

  // The document is the old one, or what the process read before the operation, or what it reads after.
  ghost predicate HalfWritesNothing(b: Buffer, after: Buffer) {
    && (after.disk == b.disk || after.disk == View(b) || after.disk == View(after))
    && after.stale == b.stale && after.limit == b.limit
  }

  lemma CommitFails(b: Buffer, k: Key, fp: Fingerprint, ok: bool)
    ensures var after := Committed(b, k, fp, ok);
      && HalfWritesNothing(b, after) && View(after) == View(b).(entries := View(b).entries[k := fp])
      && (!ok || |b.pending.Keys + {k}| < b.limit ==> after.disk == b.disk)
  {
    MergeUpdate(b.memory.entries, b.pending, k, fp);
    FlushKeepsTheView(b.(pending := b.pending[k := fp]), ok);
    assert |b.pending[k := fp]| == |b.pending[k := fp].Keys| && b.pending[k := fp].Keys == b.pending.Keys + {k};
    hide Flushed, Lookup;
  }

  lemma EnsureFails(b: Buffer, source: string, spec: string, flushed: bool, ok: bool)
    ensures var after := EnsuredSpec(b, source, spec, flushed, ok);
      && HalfWritesNothing(b, after) && (!flushed && !ok ==> after.disk == b.disk)
      && View(after) == (if b.pending != map[] && !flushed then View(b) else Ensured(View(b), source, spec))
      && (source in b.memory.specs && b.memory.specs[source] == spec ==> after == Flushed(b, flushed))
  {
    FlushKeepsTheView(b, flushed);
    hide Flushed, OfSource, Lookup;
    MergeNothing(Ensured(Flushed(b, flushed).memory, source, spec).entries);
  }

  lemma DropFails(b: Buffer, source: string, live: set<string>, flushed: bool, ok: bool)
    ensures var after := DroppedVanished(b, source, live, flushed, ok);
      && HalfWritesNothing(b, after) && (!flushed && !ok ==> after.disk == b.disk)
      && View(after) == (if b.pending != map[] && !flushed then View(b) else Forgotten(View(b), source, live))
      && ((forall k <- View(b).entries :: k.sourceId == source ==> k.id in live) ==> after == Flushed(b, flushed))
  {
    FlushKeepsTheView(b, flushed);
    assert (forall k <- View(b).entries :: k.sourceId == source ==> k.id in live) ==> Unseen(View(b).entries, source, live) == {};
    hide Flushed, Unseen, Lookup;
    MergeNothing(Forgotten(Flushed(b, flushed).memory, source, live).entries);
    MergeNothing(Flushed(b, flushed).memory.entries);
  }

  /**
   * A failed write loses nothing in the process and half-writes nothing on disk: what is read next is what
   * an immediate store would answer, but for the operation given up over a failed flush.
   */
  lemma FailuresLoseNothing(b: Buffer, op: Op, f: Faults)
    ensures var after := Attempted(b, op, f);
      && HalfWritesNothing(b, after) && View(after) == (if GivenUp(b, op, f) then View(b) else Immediate(View(b), op).0)
      && (!f.flushed && !f.ok ==> after.disk == b.disk)
      && (op.Commit? && |b.pending.Keys + {op.key}| < b.limit ==> after.disk == b.disk)
  {
    hide Flushed, Committed, EnsuredSpec, DroppedVanished, Ensured, Forgotten, View;
    match op
    case Get(_) =>
    case Commit(k, fp) => CommitFails(b, k, fp, f.flushed);
    case Flush => FlushKeepsTheView(b, f.flushed);
    case EnsureSpec(source, spec) => EnsureFails(b, source, spec, f.flushed, f.ok);
    case DropVanished(source, live) => DropFails(b, source, live, f.flushed, f.ok);
  }

  // What a restart would miss is still to be written.
  ghost predicate Owed(b: Buffer) { LagsWithin(b, b.pending.Keys) }

  /**
   * However many flushes fail, what the document lacks stays pending, so the next one that succeeds writes
   * it: only a spec reset or a vanish pass whose own write fails leaves more behind.
   */
  lemma FailedFlushesAreOwed(b: Buffer, op: Op, f: Faults)
    requires Owed(b) && b.limit > 0 && f.ok
    ensures Owed(Attempted(b, op, f))
    ensures op.Flush? && f.flushed ==> Attempted(b, op, f).disk == View(b) || (b.pending == map[] && Attempted(b, op, f) == b)
    ensures op.Commit? ==> op.key in Attempted(b, op, f).pending || Attempted(b, op, f).disk == View(Attempted(b, op, f))
  {
    FlushOwes(b, f.flushed);
    FlushKeepsTheView(b, f.flushed);
    if op.Commit? {
      CommitOwes(b, op.key, op.fp, f.flushed);
    } else if op.EnsureSpec? {
      hide Flushed, OfSource, Lookup;
      MergeNothing(Ensured(Flushed(b, f.flushed).memory, op.source, op.spec).entries);
    } else if op.DropVanished? {
      hide Flushed, Unseen, Lookup;
      MergeNothing(Forgotten(Flushed(b, f.flushed).memory, op.source, op.live).entries);
    }
  }

  lemma FlushOwes(b: Buffer, ok: bool)
    requires Owed(b)
    ensures Owed(Flushed(b, ok))
  {
    FlushKeepsTheView(b, ok);
  }

  lemma CommitOwes(b: Buffer, k: Key, fp: Fingerprint, ok: bool)
    requires Owed(b) && b.limit > 0
    ensures var after := Committed(b, k, fp, ok); Owed(after) && (k in after.pending || after.disk == View(after))
  {
    var added := b.(pending := b.pending[k := fp]);
    assert Owed(added);
    FlushOwes(added, ok);
    FlushKeepsTheView(added, ok);
    hide Flushed, Owed;
  }

  // --- preview ---------------------------------------------------------------------------------

  datatype Declared = Declared(source: string, spec: string)

  ghost function PreviewedAll(b: Buffer, calls: seq<Declared>): Buffer
    decreases |calls|
  {
    if calls == [] then b
    else
      var last := calls[|calls| - 1];
      Previewed(PreviewedAll(b, calls[..|calls| - 1]), last.source, last.spec)
  }

  ghost function EnsuredAll(b: Buffer, calls: seq<Declared>): Buffer
    decreases |calls|
  {
    if calls == [] then b
    else
      var last := calls[|calls| - 1];
      EnsuredSpec(EnsuredAll(b, calls[..|calls| - 1]), last.source, last.spec, true, true)
  }

  // Some call declares a source under another generation than this one.
  ghost predicate Clashes(calls: seq<Declared>, source: string, spec: string) {
    exists c :: c in calls && c.source == source && c.spec != spec
  }

  // Two calls declare one source under different generations.
  ghost predicate Divided(calls: seq<Declared>, source: string) {
    exists c :: c in calls && c.source == source && Clashes(calls, source, c.spec)
  }

  // Whether the calls make the store drop the source's entries.
  ghost predicate Discards(specs: map<string, string>, calls: seq<Declared>, source: string) {
    if source in specs then Clashes(calls, source, specs[source]) else Divided(calls, source)
  }

  lemma {:induction false} PreviewMasks(b: Buffer, calls: seq<Declared>, source: string)
    requires b.stale == {}
    ensures var p := PreviewedAll(b, calls);
      && p.memory == b.memory && p.pending == b.pending && p.disk == b.disk
      && (source in p.stale <==> source in b.memory.specs && Clashes(calls, source, b.memory.specs[source]))
    decreases |calls|
  {
    if calls != [] {
      PreviewMasks(b, calls[..|calls| - 1], source);
      assert calls == calls[..|calls| - 1] + [calls[|calls| - 1]];
    }
  }

  ghost function SpecOf(b: Buffer, source: string): Option<string> {
    if source in b.memory.specs then Some(b.memory.specs[source]) else None
  }

  // What EnsureSpec calls leave of one source: its entries or none of them, and the generation they are held to.
  ghost predicate Holds(b: Buffer, e: Buffer, calls: seq<Declared>, source: string) {
    && Settled(e)
    && (forall k: Key :: k.sourceId == source ==>
         Read(e, k) == if Discards(b.memory.specs, calls, source) then None else Read(b, k))
    && (!Discards(b.memory.specs, calls, source) ==>
         if source in b.memory.specs then SpecOf(e, source) == SpecOf(b, source)
         else (forall c :: c in calls && c.source == source ==> SpecOf(e, source) == Some(c.spec))
              && (SpecOf(e, source).Some? ==> exists c :: c in calls && c.source == source))
  }

  lemma EnsureReads(b: Buffer, source: string, spec: string, k: Key)
    requires Settled(b)
    ensures var e := EnsuredSpec(b, source, spec, true, true);
      && Settled(e)
      && (forall other :: SpecOf(e, other) == if other == source then Some(spec) else SpecOf(b, other))
      && Read(e, k) == if k.sourceId == source && SpecOf(b, source).Some? && SpecOf(b, source) != Some(spec) then None else Read(b, k)
  {
    hide EnsuredSpec, Read, Lookup;
    EnsureIsImmediate(b, source, spec);
    ReadIsView(b, k);
    ReadIsView(EnsuredSpec(b, source, spec, true, true), k);
    LookupWithout(View(b).entries, source, k);
  }

  lemma ReadIsView(b: Buffer, k: Key)
    requires Settled(b)
    ensures Read(b, k) == Lookup(View(b).entries, k)
  {
  }

  lemma LookupWithout(entries: map<Key, Fingerprint>, source: string, k: Key)
    ensures Lookup(entries - OfSource(entries, source), k) == if k.sourceId == source then None else Lookup(entries, k)
  {
  }

  lemma DiscardsMore(specs: map<string, string>, calls: seq<Declared>, source: string)
    requires calls != []
    ensures var before, last := calls[..|calls| - 1], calls[|calls| - 1];
      && (Discards(specs, before, source) ==> Discards(specs, calls, source))
      && (last.source != source ==> (Discards(specs, calls, source) <==> Discards(specs, before, source)))
      && (last.source == source && source in specs ==>
           (Discards(specs, calls, source) <==> Discards(specs, before, source) || last.spec != specs[source]))
      && (last.source == source && source !in specs ==>
           (Discards(specs, calls, source) <==> Discards(specs, before, source) || Clashes(before, source, last.spec)))
  {
    var before, last := calls[..|calls| - 1], calls[|calls| - 1];
    assert calls == before + [last];
    forall c | c in before ensures c in calls {}
  }

  // One more declaration: whether it drops the source's entries, and the generation they are held to.
  lemma StepHolds(b: Buffer, e: Buffer, calls: seq<Declared>, source: string)
    requires calls != [] && Holds(b, e, calls[..|calls| - 1], source)
    ensures Holds(b, EnsuredSpec(e, calls[|calls| - 1].source, calls[|calls| - 1].spec, true, true), calls, source)
  {
    hide EnsuredSpec, Read, Discards, Divided, Settled;
    var before, last := calls[..|calls| - 1], calls[|calls| - 1];
    DiscardsMore(b.memory.specs, calls, source);
    assert calls == before + [last];
    var after := EnsuredSpec(e, last.source, last.spec, true, true);
    EnsureReads(e, last.source, last.spec, Key(source, ""));
    if source !in b.memory.specs && !Discards(b.memory.specs, before, source) && last.source == source {
      assert (SpecOf(e, source).Some? && SpecOf(e, source) != Some(last.spec)) <==> Clashes(before, source, last.spec);
    }
    forall k: Key | k.sourceId == source
      ensures Read(after, k) == if Discards(b.memory.specs, calls, source) then None else Read(b, k)
    {
      EnsureReads(e, last.source, last.spec, k);
    }
  }

  lemma {:induction false} EnsuredAllHolds(b: Buffer, calls: seq<Declared>, source: string)
    requires Settled(b)
    ensures Holds(b, EnsuredAll(b, calls), calls, source)
    decreases |calls|
  {
    if calls != [] {
      hide Holds, EnsuredSpec;
      EnsuredAllHolds(b, calls[..|calls| - 1], source);
      StepHolds(b, EnsuredAll(b, calls[..|calls| - 1]), calls, source);
    }
  }

  ghost predicate Visible(b: Buffer, source: string) { exists k: Key :: k.sourceId == source && Read(b, k).Some? }

  // Preview and sync agree on a source unless it was never recorded, is declared twice under different
  // generations, and has entries to disagree about.
  ghost predicate Comparable(b: Buffer, calls: seq<Declared>, source: string) {
    source in b.memory.specs || !Divided(calls, source) || !Visible(b, source)
  }

  ghost predicate ReadsAlike(a: Buffer, b: Buffer) { forall k :: Read(a, k) == Read(b, k) }

  /** Exactly when a preview reads what a sync would read after the same declarations. */
  lemma PreviewReadsAsSync(b: Buffer, calls: seq<Declared>)
    requires Settled(b)
    ensures ReadsAlike(PreviewedAll(b, calls), EnsuredAll(b, calls)) <==> forall source :: Comparable(b, calls, source)
  {
    var p, e := PreviewedAll(b, calls), EnsuredAll(b, calls);
    forall source ensures SourceReadsAlike(p, e, source) <==> Comparable(b, calls, source) {
      PreviewSource(b, calls, source);
    }
    hide Comparable, Read;
    if forall source :: Comparable(b, calls, source) {
      forall k ensures Read(p, k) == Read(e, k) { assert SourceReadsAlike(p, e, k.sourceId); }
    }
  }

  ghost predicate SourceReadsAlike(a: Buffer, b: Buffer, source: string) {
    forall k: Key :: k.sourceId == source ==> Read(a, k) == Read(b, k)
  }

  lemma PreviewSource(b: Buffer, calls: seq<Declared>, source: string)
    requires Settled(b)
    ensures SourceReadsAlike(PreviewedAll(b, calls), EnsuredAll(b, calls), source) <==> Comparable(b, calls, source)
  {
    PreviewMasks(b, calls, source);
    EnsuredAllHolds(b, calls, source);
    hide Clashes, Divided, Settled;
    var p, e := PreviewedAll(b, calls), EnsuredAll(b, calls);
    if source !in b.memory.specs && Divided(calls, source) && Visible(b, source) {
      var k: Key :| k.sourceId == source && Read(b, k).Some?;
      assert Read(p, k) == Read(b, k) && Read(e, k) == None;
    }
  }

  // The case that breaks it: entries kept from before generations were recorded, declared twice.
  lemma PreviewMissesASecondGeneration()
    ensures exists b, calls :: Settled(b) && !ReadsAlike(PreviewedAll(b, calls), EnsuredAll(b, calls))
  {
    var k := Key("s", "f");
    var doc := Doc(map[k := BLANK], map[]);
    var b := Buffer(doc, doc, map[], {}, 1);
    var calls := [Declared("s", "a"), Declared("s", "b")];
    assert calls[0] in calls && calls[1] in calls;
    assert Clashes(calls, "s", "a") && Divided(calls, "s");
    assert Read(b, k).Some? && Visible(b, "s");
    assert !Comparable(b, calls, "s");
    PreviewReadsAsSync(b, calls);
  }

  // --- the objects -----------------------------------------------------------------------------

  // The document under the process lock: maps in memory, replaced whole on disk by every write.
  class Store {
    var entries: map<Key, Fingerprint>
    var specs: map<string, string>
    var disk: Doc

    function Memory(): Doc
      reads this
    {
      Doc(entries, specs)
    }

    constructor (doc: Doc)
      ensures Memory() == disk == doc
    {
      entries, specs, disk := doc.entries, doc.specs, doc;
    }

    // One atomic replacement: the old document or the new, nothing between.
    method Replace() returns (ok: bool)
      modifies `disk
      ensures disk == if ok then Memory() else old(disk)
    {
      ok := *;
      if ok { disk := Doc(entries, specs); }
    }

    method CommitAll(updates: map<Key, Fingerprint>) returns (ok: bool)
      modifies this
      ensures Memory() == old(Memory()).(entries := old(entries) + updates)
      ensures disk == if ok then Memory() else old(disk)
    {
      var left := updates.Keys;
      while left != {}
        invariant left <= updates.Keys && specs == old(specs) && disk == old(disk)
        invariant entries == old(entries) + map k | k in updates && k !in left :: updates[k]
        decreases left
      {
        var k :| k in left;
        left := left - {k};
        entries := entries[k := updates[k]];
      }
      assert (map k | k in updates && k !in left :: updates[k]) == updates;
      ok := Replace();
    }

    // Deletes the doomed entries one by one, as the range loops do.
    method Delete(doomed: set<Key>) returns (dropped: nat)
      requires doomed <= entries.Keys
      modifies `entries
      ensures entries == old(entries) - doomed && dropped == |doomed|
    {
      var left := doomed;
      dropped := 0;
      while left != {}
        invariant left <= doomed && entries == old(entries) - (doomed - left) && dropped == |doomed| - |left|
        decreases left
      {
        var k :| k in left;
        left := left - {k};
        entries := entries - {k};
        dropped := dropped + 1;
      }
      assert doomed - left == doomed;
    }

    method EnsureSpec(source: string, spec: string) returns (dropped: nat, ok: bool)
      modifies this
      ensures Memory() == Ensured(old(Memory()), source, spec) && dropped == |SpecDrops(old(Memory()), source, spec)|
      ensures disk == if ok && Memory() != old(Memory()) then Memory() else old(disk)
      ensures Memory() == old(Memory()) ==> ok
    {
      if source in specs && specs[source] == spec { return 0, true; }
      dropped := 0;
      if source in specs { dropped := Delete(OfSource(entries, source)); }
      specs := specs[source := spec];
      assert source !in old(specs) || old(specs)[source] != spec;
      ok := Replace();
    }

    method DropVanished(source: string, live: set<string>) returns (dropped: nat, ok: bool)
      modifies this
      ensures Memory() == Forgotten(old(Memory()), source, live)
      ensures dropped == |Unseen(old(entries), source, live)|
      ensures disk == if ok && dropped > 0 then Memory() else old(disk)
      ensures dropped == 0 ==> ok
    {
      dropped := Delete(Unseen(entries, source, live));
      if dropped == 0 {
        MergeNothing(old(entries));
        return 0, true;
      }
      ok := Replace();
    }
  }

  class CommitBuffer {
    const store: Store
    const limit: nat
    var pending: map<Key, Fingerprint>
    var staleSpecs: set<string>

    function State(): Buffer
      reads this, store
    {
      Buffer(store.disk, store.Memory(), pending, staleSpecs, limit)
    }

    constructor (store: Store, limit: int)
      ensures this.store == store && this.limit == if limit <= 0 then DEFAULT_COMMIT_BATCH else limit
      ensures pending == map[] && staleSpecs == {}
      ensures store.disk == store.Memory() ==> Settled(State())
    {
      this.store, this.limit := store, if limit <= 0 then DEFAULT_COMMIT_BATCH else limit;
      pending, staleSpecs := map[], {};
    }

    // Reads through the buffer: what shipped earlier in this run is still the truth.
    method Get(k: Key) returns (fp: Option<Fingerprint>)
      ensures fp == Read(State(), k)
    {
      if k.sourceId in staleSpecs { return None; }
      if k in pending { return Some(pending[k]); }
      fp := Lookup(store.entries, k);
    }

    method Flush() returns (ok: bool)
      modifies this, store
      ensures State() == Flushed(old(State()), ok) && (!ok ==> FlushFails(old(State()), ok))
    {
      if |pending| == 0 { return true; }
      assert pending != map[];
      ok := store.CommitAll(pending);
      if ok { pending := map[]; }
    }

    method Commit(k: Key, fp: Fingerprint) returns (ok: bool)
      modifies this, store
      ensures State() == Committed(old(State()), k, fp, ok)
    {
      pending := pending[k := fp];
      ok := true;
      if |pending| >= limit { ok := Flush(); }
    }

    method EnsureSpec(source: string, spec: string) returns (dropped: nat, flushed: bool, ok: bool)
      modifies this, store
      ensures State() == EnsuredSpec(old(State()), source, spec, flushed, ok)
      ensures !flushed ==> dropped == 0 && !ok
      ensures flushed ==> dropped == |SpecDrops(Flushed(old(State()), true).memory, source, spec)|
    {
      flushed := Flush();
      if !flushed { return 0, false, false; }
      dropped, ok := store.EnsureSpec(source, spec);
    }

    // The dry run's counterpart: it hides a source read under a new generation and writes nothing.
    method PreviewSpec(source: string, spec: string)
      modifies `staleSpecs
      ensures State() == Previewed(old(State()), source, spec)
    {
      if source in store.specs && store.specs[source] != spec { staleSpecs := staleSpecs + {source}; }
    }

    // Flushes first: a pending commit for a file the walk did not see would be written back.
    method DropVanished(source: string, live: set<string>) returns (dropped: nat, flushed: bool, ok: bool)
      modifies this, store
      ensures State() == DroppedVanished(old(State()), source, live, flushed, ok)
      ensures !flushed ==> dropped == 0 && !ok
      ensures flushed ==> dropped == |Unseen(Flushed(old(State()), true).memory.entries, source, live)|
    {
      flushed := Flush();
      if !flushed { return 0, false, false; }
      dropped, ok := store.DropVanished(source, live);
    }
  }
}
