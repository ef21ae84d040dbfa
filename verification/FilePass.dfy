/**
 * One source's file pass: a loop thread that admits files in order, hands them to compute
 * goroutines, gathers sealed objects into authorization groups and folds every result.
 *
 * The goroutines are nondeterminism: an event says which computation or which group finishes next.
 */
module FilePass {
  import opened Wrappers
  import opened Fingerprints

  datatype Decision = Shipped | Unchanged | Skipped | Parked | Failed
  datatype Outcome = Outcome(decision: Decision, fatal: bool)

  // The durable write a result asks for, under its own candidate's key.
  datatype IntentKind = Refresh | ShippedIntent | Backoff
  datatype Intent = Intent(kind: IntentKind, fp: Fingerprint)

  // What the compute leg hands back: a decision, or a sealed object that wants the network.
  datatype Prepared =
    | Decided(decision: Decision, intent: Option<Intent>)
    | Sealed(size: nat, next: Fingerprint)

  datatype Verdict = Confirmed | AlreadyPresent | Refused | Unavailable | Offline | OtherError

  predicate StopsRun(v: Verdict) { v.Refused? || v.Unavailable? || v.Offline? }

  // A pass over candidates 0..|keys|. `weigh` is a candidate's share of the byte gate, `prepare` the
  // compute leg; both see the fingerprint the loop read for the candidate's key.
  datatype Source = Source(
    keys: seq<Key>,
    weigh: (nat, Option<Fingerprint>) -> nat,
    prepare: (nat, Option<Fingerprint>) -> Prepared,
    limit: nat, gate: nat, maxObjects: nat)

  const MAX_BATCH_OBJECTS := 32
  const MAX_BATCH_BYTES := 0x400_0000

  function Min(a: nat, b: nat): nat { if a < b then a else b }
  function Max(a: nat, b: nat): nat { if a < b then b else a }

  function Concurrency(workers: nat, candidates: nat): nat { Max(1, Min(workers, candidates)) }
  function UploadConcurrency(pinned: nat, compute: nat): nat { if pinned > 0 then pinned else 8 * compute }

  // The limits `run` derives from the worker pins.
  predicate Configured(src: Source, workers: nat, uploadWorkers: nat) {
    var compute := Concurrency(workers, |src.keys|);
    var upload := UploadConcurrency(uploadWorkers, compute);
    src.limit == compute + upload && src.maxObjects == Max(1, Min(MAX_BATCH_OBJECTS, upload / 2))
  }

  datatype Job = Job(idx: nat, fp: Option<Fingerprint>)
  datatype Staged = Staged(idx: nat, size: nat, next: Fingerprint)
  datatype Result = Result(idx: nat, outcome: Outcome, intent: Option<Intent>, unavailable: bool, offline: bool)

  // How many of each decision were folded, and how many failures were stop verdicts.
  datatype Report = Report(shipped: nat, same: nat, skipped: nat, parked: nat, failed: nat, refusals: nat, halts: nat)
  const NO_REPORT := Report(0, 0, 0, 0, 0, 0, 0)

  // Everything a folded result may touch.
  datatype Ledger = Ledger(
    budget: int, store: map<Key, Fingerprint>, slots: map<nat, Outcome>, report: Report,
    fatal: bool, uploadHalted: bool, offline: bool)

  // Where the files in flight are: being computed, staged for the next group, or in a sent group.
  datatype Queue = Queue(
    computing: seq<Job>, staged: seq<Staged>, stagedBytes: nat, groups: seq<seq<Staged>>, sent: nat)

  datatype Pass = Pass(
    next: nat, stopped: bool, inFlightBytes: int, charges: map<nat, nat>, queue: Queue, ledger: Ledger)

  function Start(store: map<Key, Fingerprint>, budget: nat): Pass {
    Pass(0, false, 0, map[], Queue([], [], 0, [], 0), Ledger(budget, store, map[], NO_REPORT, false, false, false))
  }

  function Members(groups: seq<seq<Staged>>): nat
    decreases |groups|
  {
    if groups == [] then 0 else |groups[0]| + Members(groups[1..])
  }

  function InFlight(q: Queue): nat { |q.computing| + |q.staged| + Members(q.groups) }

  predicate Latched(l: Ledger) { l.fatal || l.uploadHalted }

  // --- admission -------------------------------------------------------------------------------

  // The share of the gate is read once and remembered until the candidate is settled.
  function Charge(src: Source, p: Pass, i: nat): nat
    requires i < |src.keys|
  {
    if i in p.charges then p.charges[i] else src.weigh(i, Lookup(p.ledger.store, src.keys[i]))
  }

  predicate CanAdmit(src: Source, p: Pass) {
    && !p.stopped && !Latched(p.ledger) && p.next < |src.keys|
    && p.ledger.budget > 0
    && (InFlight(p.queue) == 0 || p.inFlightBytes + Charge(src, p, p.next) <= src.gate)
  }

  function Admit(src: Source, p: Pass): Pass
    requires CanAdmit(src, p)
  {
    var charge := Charge(src, p, p.next);
    Pass(p.next + 1, p.stopped, p.inFlightBytes + charge, p.charges[p.next := charge],
         p.queue.(computing := p.queue.computing + [Job(p.next, Lookup(p.ledger.store, src.keys[p.next]))]),
         p.ledger.(budget := p.ledger.budget - 1))
  }

  // --- folding ---------------------------------------------------------------------------------

  function Stored(src: Source, l: Ledger, r: Result): map<Key, Fingerprint>
    requires r.idx < |src.keys|
  {
    match r.intent
    case None => l.store
    case Some(intent) => l.store[src.keys[r.idx] := intent.fp]
  }

  // A failed commit rewrites the decision before it is counted; a failed backoff only its reason.
  function Committed(r: Result, commitOk: bool): Outcome {
    if r.intent.None? || commitOk || r.intent.value.kind.Backoff? then r.outcome else r.outcome.(decision := Failed)
  }

  function Count(report: Report, outcome: Outcome, unavailable: bool): Report {
    match outcome.decision
    case Shipped => report.(shipped := report.shipped + 1)
    case Unchanged => report.(same := report.same + 1)
    case Skipped => report.(skipped := report.skipped + 1)
    case Parked => report.(parked := report.parked + 1)
    case Failed =>
      report.(failed := report.failed + 1,
              refusals := report.refusals + (if outcome.fatal then 1 else 0),
              halts := report.halts + (if !outcome.fatal && unavailable then 1 else 0))
  }

  predicate Refunded(d: Decision) { d.Unchanged? || d.Skipped? }

  // The first refusal and the first unavailable verdict count; their duplicates only apply intents.
  predicate Duplicate(l: Ledger, r: Result) { (r.outcome.fatal && l.fatal) || (r.unavailable && l.uploadHalted) }

  function Fold(src: Source, l: Ledger, r: Result, commitOk: bool): Ledger
    requires r.idx < |src.keys|
  {
    var outcome := Committed(r, commitOk);
    if Duplicate(l, r) then l.(store := Stored(src, l, r))
    else
      Ledger(
        if Refunded(outcome.decision) then l.budget + 1 else l.budget,
        Stored(src, l, r),
        l.slots[r.idx := outcome],
        Count(l.report, outcome, r.unavailable),
        l.fatal || outcome.fatal,
        l.uploadHalted || (!outcome.fatal && r.unavailable),
        if !outcome.fatal && r.unavailable then r.offline else l.offline)
  }

  // A decided file gives back its share of the gate, then is folded.
  function Settle(src: Source, p: Pass, r: Result, commitOk: bool): Pass
    requires r.idx < |src.keys|
  {
    p.(inFlightBytes := p.inFlightBytes - Charge(src, p, r.idx), charges := p.charges - {r.idx},
       ledger := Fold(src, p.ledger, r, commitOk))
  }

  // --- the upload leg --------------------------------------------------------------------------

  function Uploaded(it: Staged, v: Verdict): Result {
    match v
    case Confirmed => Result(it.idx, Outcome(Shipped, false), Some(Intent(ShippedIntent, it.next)), false, false)
    case AlreadyPresent => Result(it.idx, Outcome(Shipped, false), Some(Intent(ShippedIntent, it.next)), false, false)
    case Refused => Result(it.idx, Outcome(Failed, true), None, false, false)
    case Unavailable => Result(it.idx, Outcome(Failed, false), None, true, false)
    case Offline => Result(it.idx, Outcome(Failed, false), None, true, true)
    case OtherError => Result(it.idx, Outcome(Failed, false), None, false, false)
  }

  // A sealed object the pass will not send, once a latch is set.
  function Abandoned(l: Ledger, it: Staged): Result {
    Result(it.idx, Outcome(Failed, l.fatal), None, !l.fatal, false)
  }

  function Send(q: Queue): Queue {
    if q.staged == [] then q
    else q.(groups := q.groups + [q.staged], sent := q.sent + 1, staged := [], stagedBytes := 0)
  }

  // A group goes out before one more object would breach the byte bound, and once it is full.
  function MakeRoom(q: Queue, it: Staged): Queue {
    if q.staged != [] && q.stagedBytes + it.size > MAX_BATCH_BYTES then Send(q) else q
  }

  function Join(q: Queue, it: Staged): Queue {
    q.(staged := q.staged + [it], stagedBytes := q.stagedBytes + it.size)
  }

  function SendFull(maxObjects: nat, q: Queue): Queue {
    if |q.staged| >= maxObjects || q.stagedBytes >= MAX_BATCH_BYTES then Send(q) else q
  }

  function AddStaged(maxObjects: nat, q: Queue, it: Staged): Queue { SendFull(maxObjects, Join(MakeRoom(q, it), it)) }

  function StageUpload(src: Source, p: Pass, it: Staged): Pass
    requires it.idx < |src.keys|
  {
    if Latched(p.ledger) then Settle(src, p, Abandoned(p.ledger, it), true)
    else p.(queue := AddStaged(src.maxObjects, p.queue, it))
  }

  ghost predicate InRange(src: Source, items: seq<Staged>) { forall it <- items :: it.idx < |src.keys| }

  function SettleGroup(src: Source, p: Pass, items: seq<Staged>, verdicts: seq<Verdict>, commitOk: seq<bool>): (q: Pass)
    requires |items| == |verdicts| == |commitOk| && InRange(src, items)
    ensures q.queue == p.queue && q.next == p.next && q.stopped == p.stopped
    decreases |items|
  {
    if items == [] then p
    else SettleGroup(src, Settle(src, p, Uploaded(items[0], verdicts[0]), commitOk[0]), items[1..], verdicts[1..], commitOk[1..])
  }

  function SettleAbandoned(src: Source, p: Pass, items: seq<Staged>): (q: Pass)
    requires InRange(src, items)
    ensures q.queue == p.queue && q.next == p.next && q.stopped == p.stopped
    decreases |items|
  {
    if items == [] then p
    else SettleAbandoned(src, Settle(src, p, Abandoned(p.ledger, items[0]), true), items[1..])
  }

  // Sending what is already accumulated would repeat one verdict per sealed sibling.
  function DrainStaged(src: Source, p: Pass): Pass
    requires InRange(src, p.queue.staged)
  {
    if p.queue.staged == [] || !Latched(p.ledger) then p
    else SettleAbandoned(src, p.(queue := p.queue.(staged := [], stagedBytes := 0)), p.queue.staged)
  }

  function Without<T>(s: seq<T>, k: nat): seq<T>
    requires k < |s|
  {
    s[..k] + s[k + 1..]
  }

  // --- events ---------------------------------------------------------------------------------

  // An admission the byte gate refuses has still read the file and kept its share (Weighed).
  datatype Event =
    | Admission
    | Weighed
    | Cancel
    | Flush
    | Computed(position: nat, ok: bool)
    | BatchDone(group: nat, verdicts: seq<Verdict>, commitOk: seq<bool>)

  ghost predicate Enabled(src: Source, p: Pass, e: Event) {
    match e
    case Admission => InFlight(p.queue) < src.limit && CanAdmit(src, p)
    case Weighed =>
      && !p.stopped && !Latched(p.ledger) && p.next < |src.keys|
      && p.ledger.budget > 0 && p.next !in p.charges
    case Cancel => true
    case Flush => p.queue.computing == []
    case Computed(k, _) => k < |p.queue.computing| && p.queue.computing[k].idx < |src.keys|
    case BatchDone(g, verdicts, commitOk) =>
      && g < |p.queue.groups| && |verdicts| == |commitOk| == |p.queue.groups[g]|
      && InRange(src, p.queue.groups[g]) && InRange(src, p.queue.staged)
  }

  function Compute(src: Source, p: Pass, k: nat, ok: bool): Pass
    requires k < |p.queue.computing| && p.queue.computing[k].idx < |src.keys|
  {
    var job := p.queue.computing[k];
    var q := p.(queue := p.queue.(computing := Without(p.queue.computing, k)));
    match src.prepare(job.idx, job.fp)
    case Decided(decision, intent) => Settle(src, q, Result(job.idx, Outcome(decision, false), intent, false, false), ok)
    case Sealed(size, next) => StageUpload(src, q, Staged(job.idx, size, next))
  }

  function Batch(src: Source, p: Pass, g: nat, verdicts: seq<Verdict>, commitOk: seq<bool>): Pass
    requires g < |p.queue.groups| && |verdicts| == |commitOk| == |p.queue.groups[g]|
    requires InRange(src, p.queue.groups[g]) && InRange(src, p.queue.staged)
  {
    var q := p.(queue := p.queue.(groups := Without(p.queue.groups, g)));
    DrainStaged(src, SettleGroup(src, q, p.queue.groups[g], verdicts, commitOk))
  }

  function Next(src: Source, p: Pass, e: Event): Pass
    requires Enabled(src, p, e)
  {
    match e
    case Admission => Admit(src, p)
    case Weighed => p.(charges := p.charges[p.next := Charge(src, p, p.next)])
    case Cancel => p.(stopped := true)
    case Flush => p.(queue := Send(p.queue))
    case Computed(k, ok) => Compute(src, p, k, ok)
    case BatchDone(g, verdicts, commitOk) => Batch(src, p, g, verdicts, commitOk)
  }

  // The loop ends with nothing in flight and nothing admissible.
  predicate Finished(src: Source, p: Pass) { InFlight(p.queue) == 0 && !CanAdmit(src, p) }
}
