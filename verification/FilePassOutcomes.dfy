/**
 * What each file's outcome says, read off the events of the run: which verdict it had, and whether its
 * fingerprint could be written.
 */
module FilePassOutcomes {
  import opened Wrappers
  import opened Fingerprints
  import opened FilePass
  import opened FilePassInvariants

  // --- one event -------------------------------------------------------------------------------

  /**
   * What this event decides about file i. A computation that needs no upload keeps its own decision,
   * unless the refresh it asked for could not be written; a failed backoff stays parked. An uploaded file
   * is shipped only if the archive has it and its fingerprint was written.
   */
  ghost predicate Decides(src: Source, p: Pass, e: Event, i: nat, outcome: Outcome)
    requires Enabled(src, p, e)
  {
    match e
    case Computed(k, ok) =>
      p.queue.computing[k].idx == i &&
      (match src.prepare(i, p.queue.computing[k].fp)
       case Decided(decision, None) => outcome == Outcome(decision, false)
       case Decided(decision, Some(intent)) =>
         outcome == Outcome(if ok || intent.kind.Backoff? then decision else FilePass.Failed, false)
       case Sealed(_, _) => false)
    case BatchDone(g, verdicts, ok) =>
      exists j: nat :: j < |verdicts| && p.queue.groups[g][j].idx == i && outcome == OfVerdict(verdicts[j], ok[j])
    case _ => false
  }

  ghost function OfVerdict(v: Verdict, ok: bool): Outcome {
    Outcome(if (v == Confirmed || v == AlreadyPresent) && ok then Shipped else FilePass.Failed, v == Refused)
  }

  // A stop verdict that repeats an earlier one leaves no outcome.
  ghost predicate Stop(v: Verdict) { v == Refused || v == Unavailable || v == Offline }

  // The files this event decides for certain.
  ghost predicate Concludes(src: Source, p: Pass, e: Event, i: nat)
    requires Enabled(src, p, e)
  {
    match e
    case Computed(k, _) => p.queue.computing[k].idx == i && src.prepare(i, p.queue.computing[k].fp).Decided?
    case BatchDone(g, verdicts, _) => exists j: nat :: j < |verdicts| && p.queue.groups[g][j].idx == i && !Stop(verdicts[j])
    case _ => false
  }

  // Nothing decided is decided again.
  ghost predicate KeepsOutcomes(a: Ledger, b: Ledger) {
    forall i :: i in a.slots ==> i in b.slots && b.slots[i] == a.slots[i]
  }

  lemma SettledOnce(src: Source, budget: nat, p: Pass, hand: multiset<nat>, i: nat)
    requires Kept(src, budget, p, hand)
    ensures hand[i] <= 1 && (i in hand ==> i !in p.ledger.slots && i < |src.keys|)
  {
    hide Grouping, Balanced, Telling, NoneDropped, WithinGate;
    assert hand[i] <= multiset(p.charges.Keys - {p.next})[i];
    if i in hand { AccountedInRange(src, p, hand, i); }
  }

  lemma UploadOutcome(src: Source, l: Ledger, it: Staged, v: Verdict, ok: bool)
    requires it.idx < |src.keys|
    ensures var after := Fold(src, l, Uploaded(it, v), ok);
      after.slots == l.slots || after.slots == l.slots[it.idx := OfVerdict(v, ok)]
    ensures !Stop(v) ==> it.idx in Fold(src, l, Uploaded(it, v), ok).slots
  {
    hide Count, Stored;
  }

  // Member by member: what a group's verdicts leave between two ledgers.
  ghost predicate DecidesEach(a: Ledger, b: Ledger, items: seq<Staged>, verdicts: seq<Verdict>, ok: seq<bool>)
    requires |items| == |verdicts| == |ok|
  {
    && KeepsOutcomes(a, b)
    && (forall j: nat :: j < |items| && !Stop(verdicts[j]) ==> items[j].idx in b.slots)
    && (forall i :: i in b.slots && i !in a.slots ==>
          exists j: nat :: j < |items| && items[j].idx == i && b.slots[i] == OfVerdict(verdicts[j], ok[j]))
  }

  lemma DecidesOneMore(a: Ledger, m: Ledger, b: Ledger, items: seq<Staged>, verdicts: seq<Verdict>, ok: seq<bool>)
    requires |items| == |verdicts| == |ok| > 0 && items[0].idx !in a.slots
    requires m.slots == a.slots || m.slots == a.slots[items[0].idx := OfVerdict(verdicts[0], ok[0])]
    requires !Stop(verdicts[0]) ==> items[0].idx in m.slots
    requires DecidesEach(m, b, items[1..], verdicts[1..], ok[1..])
    ensures DecidesEach(a, b, items, verdicts, ok)
  {
    hide OfVerdict, Stop;
    forall i | i in b.slots && i !in a.slots
      ensures exists j: nat :: j < |items| && items[j].idx == i && b.slots[i] == OfVerdict(verdicts[j], ok[j])
    {
      if i !in m.slots {
        var j: nat :| j < |items[1..]| && items[1..][j].idx == i && b.slots[i] == OfVerdict(verdicts[1..][j], ok[1..][j]);
        assert items[j + 1].idx == i && b.slots[i] == OfVerdict(verdicts[j + 1], ok[j + 1]);
      } else {
        assert items[0].idx == i && b.slots[i] == OfVerdict(verdicts[0], ok[0]);
      }
    }
    forall j: nat | j < |items| && !Stop(verdicts[j]) ensures items[j].idx in b.slots {
      if j > 0 { assert items[1..][j - 1] == items[j] && verdicts[1..][j - 1] == verdicts[j]; }
    }
  }

  lemma {:induction false} GroupOutcomes(
      src: Source, budget: nat, p: Pass, items: seq<Staged>, verdicts: seq<Verdict>, ok: seq<bool>)
    requires |items| == |verdicts| == |ok| && Kept(src, budget, p, Items(items)) && InRange(src, items)
    ensures DecidesEach(p.ledger, SettleGroup(src, p, items, verdicts, ok).ledger, items, verdicts, ok)
    decreases |items|
  {
    if items != [] {
      hide Kept, Uploaded, Fold, DecidesEach, OfVerdict, Stop;
      var it, r := items[0], Uploaded(items[0], verdicts[0]);
      var next := Settle(src, p, r, ok[0]);
      UploadedIsGenuine(it, verdicts[0]);
      UploadOutcome(src, p.ledger, it, verdicts[0], ok[0]);
      SettledOnce(src, budget, p, Items(items), it.idx);
      SettleKeeps(src, budget, p, r, ok[0], Items(items));
      assert Items(items) - multiset{it.idx} == Items(items[1..]);
      assert next.ledger == Fold(src, p.ledger, r, ok[0]);
      hide Settle, Items;
      GroupOutcomes(src, budget, next, items[1..], verdicts[1..], ok[1..]);
      DecidesOneMore(p.ledger, next.ledger, SettleGroup(src, p, items, verdicts, ok).ledger, items, verdicts, ok);
    } else {
      assert DecidesEach(p.ledger, p.ledger, items, verdicts, ok);
    }
  }

  /** Outcomes are given by computations and answered groups alone, as these say, once and for all. */
  lemma EventDecides(src: Source, budget: nat, p: Pass, e: Event)
    requires Sound(src, budget, p) && Workable(src) && Enabled(src, p, e)
    ensures var q := Next(src, p, e);
      && KeepsOutcomes(p.ledger, q.ledger)
      && (forall i: nat :: i in q.ledger.slots && i !in p.ledger.slots ==> Decides(src, p, e, i, q.ledger.slots[i]))
      && (forall i: nat :: Concludes(src, p, e, i) ==> i in q.ledger.slots)
  {
    if e.Computed? {
      ComputationDecides(src, budget, p, e.position, e.ok);
    } else if e.BatchDone? {
      GroupDecides(src, budget, p, e.group, e.verdicts, e.commitOk);
    }
  }

  lemma ComputationDecides(src: Source, budget: nat, p: Pass, k: nat, ok: bool)
    requires Sound(src, budget, p) && Workable(src) && Enabled(src, p, Computed(k, ok))
    ensures var q := Next(src, p, Computed(k, ok));
      && KeepsOutcomes(p.ledger, q.ledger)
      && (forall i: nat :: i in q.ledger.slots && i !in p.ledger.slots ==> Decides(src, p, Computed(k, ok), i, q.ledger.slots[i]))
      && (forall i: nat :: Concludes(src, p, Computed(k, ok), i) ==> i in q.ledger.slots)
  {
    hide Kept, StageUpload, Count, Stored, Charge;
    TakeComputed(src, budget, p, k);
    var job := p.queue.computing[k];
    var q := p.(queue := p.queue.(computing := Without(p.queue.computing, k)));
    SettledOnce(src, budget, q, multiset{job.idx}, job.idx);
    if src.prepare(job.idx, job.fp).Sealed? {
      StageUploadKeeps(src, budget, q, Staged(job.idx, src.prepare(job.idx, job.fp).size, src.prepare(job.idx, job.fp).next));
    }
  }

  lemma GroupDecides(src: Source, budget: nat, p: Pass, g: nat, verdicts: seq<Verdict>, ok: seq<bool>)
    requires Sound(src, budget, p) && Workable(src) && Enabled(src, p, BatchDone(g, verdicts, ok))
    ensures var q := Next(src, p, BatchDone(g, verdicts, ok));
      && KeepsOutcomes(p.ledger, q.ledger)
      && (forall i: nat :: i in q.ledger.slots && i !in p.ledger.slots ==> Decides(src, p, BatchDone(g, verdicts, ok), i, q.ledger.slots[i]))
      && (forall i: nat :: Concludes(src, p, BatchDone(g, verdicts, ok), i) ==> i in q.ledger.slots)
  {
    hide Kept, SettleGroup, DrainStaged, Items, OfVerdict, Stop;
    TakeGroup(src, budget, p, g);
    var items := p.queue.groups[g];
    var q := p.(queue := p.queue.(groups := Without(p.queue.groups, g)));
    SettleGroupKeeps(src, budget, q, items, verdicts, ok);
    GroupOutcomes(src, budget, q, items, verdicts, ok);
    DrainKeeps(src, budget, SettleGroup(src, q, items, verdicts, ok));
  }

  // --- whole runs ------------------------------------------------------------------------------

  // Some event of the run decided this about file i.
  ghost predicate DecidedDuring(src: Source, p: Pass, events: seq<Event>, q: Pass, i: nat, outcome: Outcome)
    requires Runs(src, p, events, q)
    decreases |events|
  {
    events != [] &&
    (Decides(src, p, events[0], i, outcome) || DecidedDuring(src, Next(src, p, events[0]), events[1..], q, i, outcome))
  }

  ghost predicate ConcludedDuring(src: Source, p: Pass, events: seq<Event>, q: Pass, i: nat)
    requires Runs(src, p, events, q)
    decreases |events|
  {
    events != [] &&
    (Concludes(src, p, events[0], i) || ConcludedDuring(src, Next(src, p, events[0]), events[1..], q, i))
  }

  lemma {:induction false} RunDecides(src: Source, budget: nat, p: Pass, events: seq<Event>, q: Pass, i: nat)
    requires Sound(src, budget, p) && Workable(src) && Runs(src, p, events, q)
    ensures KeepsOutcomes(p.ledger, q.ledger)
    ensures i in q.ledger.slots && i !in p.ledger.slots ==> DecidedDuring(src, p, events, q, i, q.ledger.slots[i])
    ensures ConcludedDuring(src, p, events, q, i) ==> i in q.ledger.slots
    decreases |events|
  {
    if events != [] {
      hide Sound, Next, Enabled, Decides, Concludes, Workable;
      EventDecides(src, budget, p, events[0]);
      NextKeeps(src, budget, p, events[0]);
      RunDecides(src, budget, Next(src, p, events[0]), events[1..], q, i);
    }
  }

  /**
   * In every schedule, whatever the verdicts, deadlines and failed writes: every outcome reported is what
   * one event of the run decided, and every file an event concludes has one.
   */
  lemma EveryOutcomeWasDecided(src: Source, budget: nat, store: map<Key, Fingerprint>, events: seq<Event>, q: Pass, i: nat)
    requires Workable(src) && Runs(src, Start(store, budget), events, q)
    ensures i in q.ledger.slots ==> DecidedDuring(src, Start(store, budget), events, q, i, q.ledger.slots[i])
    ensures ConcludedDuring(src, Start(store, budget), events, q, i) ==> i in q.ledger.slots
  {
    hide Sound, Next, Enabled, Decides, Concludes, DecidedDuring, ConcludedDuring, Runs;
    StartIsSound(src, budget, store);
    RunDecides(src, budget, Start(store, budget), events, q, i);
  }

  // The archive has file i and its fingerprint was written, or a dry run only reports that it would ship.
  ghost predicate ShipsAndRecords(src: Source, p: Pass, e: Event, i: nat)
    requires Enabled(src, p, e)
  {
    match e
    case Computed(k, ok) =>
      && p.queue.computing[k].idx == i && src.prepare(i, p.queue.computing[k].fp).Decided?
      && var r := src.prepare(i, p.queue.computing[k].fp);
         r.decision == Shipped && (r.intent.None? || ok || r.intent.value.kind.Backoff?)
    case BatchDone(g, verdicts, ok) =>
      exists j: nat :: j < |verdicts| && p.queue.groups[g][j].idx == i && ok[j] && (verdicts[j] == Confirmed || verdicts[j] == AlreadyPresent)
    case _ => false
  }

  ghost predicate ShippedDuring(src: Source, p: Pass, events: seq<Event>, q: Pass, i: nat)
    requires Runs(src, p, events, q)
    decreases |events|
  {
    events != [] &&
    (ShipsAndRecords(src, p, events[0], i) || ShippedDuring(src, Next(src, p, events[0]), events[1..], q, i))
  }

  lemma {:induction false} ShippedWasRecorded(src: Source, p: Pass, events: seq<Event>, q: Pass, i: nat, outcome: Outcome)
    requires Runs(src, p, events, q) && DecidedDuring(src, p, events, q, i, outcome) && outcome.decision == Shipped
    ensures ShippedDuring(src, p, events, q, i)
    decreases |events|
  {
    if !Decides(src, p, events[0], i, outcome) {
      ShippedWasRecorded(src, Next(src, p, events[0]), events[1..], q, i, outcome);
    }
  }

  /** A file reported shipped is one whose fingerprint was written: "shipped but the record was lost" reads as failed. */
  lemma ShippedMeansRecorded(src: Source, budget: nat, store: map<Key, Fingerprint>, events: seq<Event>, q: Pass, i: nat)
    requires Workable(src) && Runs(src, Start(store, budget), events, q)
    requires i in q.ledger.slots && q.ledger.slots[i].decision == Shipped
    ensures ShippedDuring(src, Start(store, budget), events, q, i)
  {
    EveryOutcomeWasDecided(src, budget, store, events, q, i);
    ShippedWasRecorded(src, Start(store, budget), events, q, i, q.ledger.slots[i]);
  }

  // --- what an event leaves beside the outcomes ----------------------------------------------------

  // The uploads the archive has, recorded in order.
  ghost function Recorded(src: Source, store: map<Key, Fingerprint>, items: seq<Staged>, verdicts: seq<Verdict>): map<Key, Fingerprint>
    requires |items| == |verdicts| && InRange(src, items)
    decreases |items|
  {
    if items == [] then store
    else
      Recorded(src, if verdicts[0] == Confirmed || verdicts[0] == AlreadyPresent then store[src.keys[items[0].idx] := items[0].next] else store,
               items[1..], verdicts[1..])
  }

  lemma UploadSettles(src: Source, l: Ledger, it: Staged, v: Verdict, ok: bool)
    requires it.idx < |src.keys|
    ensures var after := Fold(src, l, Uploaded(it, v), ok);
      && after.store == (if v == Confirmed || v == AlreadyPresent then l.store[src.keys[it.idx] := it.next] else l.store)
      && (after.fatal <==> l.fatal || v == Refused)
      && (after.uploadHalted <==> l.uploadHalted || v == Unavailable || v == Offline)
      && (after.offline <==> if !l.uploadHalted && (v == Unavailable || v == Offline) then v == Offline else l.offline)
  {
    hide Count;
  }

  /**
   * A group answered: the store records the uploads the archive has, whether or not the document could be
   * written, and the pass latches exactly when some verdict was a refusal, or an outage.
   */
  lemma {:induction false} GroupSettles(src: Source, p: Pass, items: seq<Staged>, verdicts: seq<Verdict>, ok: seq<bool>)
    requires |items| == |verdicts| == |ok| && InRange(src, items)
    ensures var q := SettleGroup(src, p, items, verdicts, ok);
      && q.ledger.store == Recorded(src, p.ledger.store, items, verdicts)
      && (q.ledger.fatal <==> p.ledger.fatal || Refused in verdicts)
      && (q.ledger.uploadHalted <==> p.ledger.uploadHalted || Unavailable in verdicts || Offline in verdicts)
    decreases |items|
  {
    if items != [] {
      UploadSettles(src, p.ledger, items[0], verdicts[0], ok[0]);
      hide Uploaded, Fold;
      var next := Settle(src, p, Uploaded(items[0], verdicts[0]), ok[0]);
      assert next.ledger == Fold(src, p.ledger, Uploaded(items[0], verdicts[0]), ok[0]);
      hide Settle;
      GroupSettles(src, next, items[1..], verdicts[1..], ok[1..]);
      assert verdicts == [verdicts[0]] + verdicts[1..];
    }
  }

  /** A computation that needs no upload: its intent is recorded, and nothing latches. */
  lemma ComputationSettles(src: Source, p: Pass, k: nat, ok: bool)
    requires Enabled(src, p, Computed(k, ok))
    ensures var job, q := p.queue.computing[k], Next(src, p, Computed(k, ok));
      && q.ledger.fatal == p.ledger.fatal && q.ledger.uploadHalted == p.ledger.uploadHalted
      && (match src.prepare(job.idx, job.fp)
          case Decided(_, Some(intent)) => q.ledger.store == p.ledger.store[src.keys[job.idx] := intent.fp]
          case _ => q.ledger.store == p.ledger.store)
      && (src.prepare(job.idx, job.fp).Sealed? && !p.ledger.fatal && !p.ledger.uploadHalted ==>
            && q.ledger == p.ledger
            && q.queue == AddStaged(src.maxObjects, p.queue.(computing := p.queue.computing[..k] + p.queue.computing[k + 1..]),
                                    Staged(job.idx, src.prepare(job.idx, job.fp).size, src.prepare(job.idx, job.fp).next)))
  {
    hide Count, Charge, AddStaged, Refunded;
    var job := p.queue.computing[k];
    var q := p.(queue := p.queue.(computing := Without(p.queue.computing, k)));
    if src.prepare(job.idx, job.fp).Sealed? {
      hide Fold;
      var it := Staged(job.idx, src.prepare(job.idx, job.fp).size, src.prepare(job.idx, job.fp).next);
      if Latched(p.ledger) { AbandonedChangesNothing(src, q, it); }
    }
  }

  /**
   * A file is admitted exactly when there is one left, no deadline passed and no stop came, the budget
   * covers it, and it fits the byte gate beside what is in flight, or nothing is in flight. It then costs
   * one of the budget, and its share of the gate is the one first read for it.
   */
  lemma WhenAFileIsAdmitted(src: Source, p: Pass)
    ensures CanAdmit(src, p) <==>
      && p.next < |src.keys| && !p.stopped && !p.ledger.fatal && !p.ledger.uploadHalted && p.ledger.budget >= 1
      && var q := p.queue;
         var share := if p.next in p.charges then p.charges[p.next] else src.weigh(p.next, Lookup(p.ledger.store, src.keys[p.next]));
         (q.computing == [] && q.staged == [] && Members(q.groups) == 0) || p.inFlightBytes + share <= src.gate
    ensures CanAdmit(src, p) ==>
      var q := Admit(src, p);
      && q.next == p.next + 1 && q.ledger == p.ledger.(budget := p.ledger.budget - 1)
      && q.queue.computing == p.queue.computing + [Job(p.next, Lookup(p.ledger.store, src.keys[p.next]))]
      && (p.next in p.charges ==> q.inFlightBytes == p.inFlightBytes + p.charges[p.next])
  {
  }

  /** Once the deadline passed nothing more is admitted. */
  lemma {:induction false} AfterTheDeadline(src: Source, budget: nat, p: Pass, events: seq<Event>, q: Pass)
    requires p.stopped && Runs(src, p, events, q)
    ensures q.stopped && q.next == p.next
    decreases |events|
  {
    if events != [] {
      hide SettleGroup, DrainStaged, Send, StageUpload;
      StopStays(src, p, events[0]);
      AfterTheDeadline(src, budget, Next(src, p, events[0]), events[1..], q);
    }
  }

  lemma StopStays(src: Source, p: Pass, e: Event)
    requires p.stopped && Enabled(src, p, e)
    ensures Next(src, p, e).stopped && Next(src, p, e).next == p.next
  {
    hide Fold, Charge, AddStaged;
  }

  /**
   * One more object joins the group being gathered, after that group was sent if the two together weigh
   * more than 64 MiB; and the group it joined is sent at once when it is full. Nothing else is sent.
   */
  lemma WhenGroupsGo(maxObjects: nat, q: Queue, it: Staged)
    ensures var after := AddStaged(maxObjects, q, it);
      var displaced := q.staged != [] && q.stagedBytes + it.size > 67_108_864;
      var group := (if displaced then [] else q.staged) + [it];
      var bytes := (if displaced then 0 else q.stagedBytes) + it.size;
      var full := |group| >= maxObjects || bytes >= 67_108_864;
      && after.groups == q.groups + (if displaced then [q.staged] else []) + (if full then [group] else [])
      && after.staged == (if full then [] else group) && after.stagedBytes == (if full then 0 else bytes)
      && after.computing == q.computing && after.sent - q.sent == |after.groups| - |q.groups|
  {
  }

  /** A flush, with nothing being computed, sends what was gathered, if anything; the deadline only stops admission. */
  lemma FlushesAndDeadlines(src: Source, p: Pass)
    ensures p.queue.computing == [] ==> Enabled(src, p, Flush)
    ensures var q := Next(src, p, Cancel); q == p.(stopped := true)
    ensures p.queue.computing == [] && p.queue.staged == [] ==> Next(src, p, Flush) == p
    ensures p.queue.computing == [] && p.queue.staged != [] ==>
      Next(src, p, Flush) == p.(queue := Queue([], [], 0, p.queue.groups + [p.queue.staged], p.queue.sent + 1))
  {
  }

  /** The limits of a pass: as many computations as there are workers and files, eight uploads each unless pinned. */
  lemma TheLimitsAre(src: Source, workers: nat, uploadWorkers: nat)
    requires Configured(src, workers, uploadWorkers)
    ensures var n := |src.keys|;
      var compute := if n == 0 || workers == 0 then 1 else if workers < n then workers else n;
      var upload := if uploadWorkers == 0 then 8 * compute else uploadWorkers;
      && src.limit == compute + upload
      && src.maxObjects == if upload < 2 then 1 else if upload >= 64 then 32 else upload / 2
  {
  }
}
