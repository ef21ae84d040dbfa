/**
 * The concurrent pass refines a loop that takes one file at a time: same files admitted, same store,
 * same counters, same outcomes in candidate order, whatever finishes first.
 */
module FilePassRefinement {
  import opened Wrappers
  import opened Fingerprints
  import opened FilePass
  import opened FilePassInvariants

  // --- the reference ---------------------------------------------------------------------------

  // What one file comes to on its own: prepared, and if sealed, uploaded.
  ghost function Alone(src: Source, verdict: Staged -> Verdict, i: nat, fp: Option<Fingerprint>): Result {
    match src.prepare(i, fp)
    case Decided(decision, intent) => Result(i, Outcome(decision, false), intent, false, false)
    case Sealed(size, next) => Uploaded(Staged(i, size, next), verdict(Staged(i, size, next)))
  }

  // One file at a time under the same budget: take a unit, decide the file, get the unit back if it
  // cost nothing, and stop when the budget is spent.
  ghost function OneAtATime(src: Source, verdict: Staged -> Verdict, i: nat, l: Ledger): (nat, Ledger)
    requires i <= |src.keys|
    decreases |src.keys| - i
  {
    if i == |src.keys| || l.budget <= 0 then (i, l)
    else OneAtATime(src, verdict, i + 1, Taken(src, verdict, i, l))
  }

  ghost function Taken(src: Source, verdict: Staged -> Verdict, i: nat, l: Ledger): Ledger
    requires i < |src.keys|
  {
    Fold(src, l.(budget := l.budget - 1), Alone(src, verdict, i, Lookup(l.store, src.keys[i])), true)
  }

  // --- the schedules compared ------------------------------------------------------------------

  ghost predicate Distinct(keys: seq<Key>) { forall i, j :: 0 <= i < j < |keys| ==> keys[i] != keys[j] }

  // A verdict that depends only on the object, and that never stops the run.
  ghost predicate Harmless(verdict: Staged -> Verdict) { forall it :: !StopsRun(verdict(it)) }

  // No deadline, no failed commit, and every object answered with its verdict.
  ghost predicate Calm(p: Pass, e: Event, verdict: Staged -> Verdict) {
    match e
    case Cancel => false
    case Computed(_, ok) => ok
    case BatchDone(g, verdicts, commitOk) =>
      && AllCommitted(commitOk)
      && g < |p.queue.groups| && Answered(p.queue.groups[g], verdicts, verdict)
    case _ => true
  }

  ghost predicate AllCommitted(commitOk: seq<bool>) { forall k :: 0 <= k < |commitOk| ==> commitOk[k] }

  ghost predicate Answered(items: seq<Staged>, verdicts: seq<Verdict>, verdict: Staged -> Verdict) {
    |verdicts| == |items| && forall k :: 0 <= k < |items| ==> verdicts[k] == verdict(items[k])
  }

  ghost predicate CalmRun(src: Source, verdict: Staged -> Verdict, p: Pass, events: seq<Event>, q: Pass)
    decreases |events|
  {
    if events == [] then p == q
    else Enabled(src, p, events[0]) && Calm(p, events[0], verdict)
         && CalmRun(src, verdict, Next(src, p, events[0]), events[1..], q)
  }

  // --- what a ledger holds once some set of files is settled -----------------------------------

  // Everything fixed before the pass starts.
  datatype Setting = Setting(src: Source, verdict: Staged -> Verdict, store: map<Key, Fingerprint>, budget: nat)

  ghost predicate Fair(c: Setting) { Distinct(c.src.keys) && Harmless(c.verdict) }

  // File i's result, from the store the pass started with: no other file can change it.
  ghost function Settled(c: Setting, i: nat): Result
    requires i < |c.src.keys|
  {
    Alone(c.src, c.verdict, i, Lookup(c.store, c.src.keys[i]))
  }

  ghost function Tally(slots: map<nat, Outcome>, n: nat): Report {
    if n == 0 then NO_REPORT
    else if n - 1 in slots then Count(Tally(slots, n - 1), slots[n - 1], false)
    else Tally(slots, n - 1)
  }

  ghost predicate StoreTracks(c: Setting, store: map<Key, Fingerprint>, slots: map<nat, Outcome>) {
    && (forall i: nat :: i < |c.src.keys| ==>
         Lookup(store, c.src.keys[i]) ==
         (if i in slots && Settled(c, i).intent.Some? then Some(Settled(c, i).intent.value.fp) else Lookup(c.store, c.src.keys[i])))
    && (forall k :: k !in c.src.keys ==> Lookup(store, k) == Lookup(c.store, k))
  }

  ghost predicate SlotsTrack(c: Setting, slots: map<nat, Outcome>, admitted: nat) {
    forall i :: i in slots ==> i < admitted && i < |c.src.keys| && slots[i] == Settled(c, i).outcome
  }

  ghost predicate Tracks(c: Setting, l: Ledger, admitted: nat) {
    && !l.fatal && !l.uploadHalted && !l.offline
    && SlotsTrack(c, l.slots, admitted)
    && StoreTracks(c, l.store, l.slots)
    && l.report == Tally(l.slots, |c.src.keys|)
    && l.budget == c.budget - admitted + l.report.same + l.report.skipped
  }

  lemma SettledIsQuiet(c: Setting, i: nat)
    requires Fair(c) && i < |c.src.keys|
    ensures var r := Settled(c, i);
      r.idx == i && !r.outcome.fatal && !r.unavailable && !r.offline && Committed(r, true) == r.outcome
  {
    if c.src.prepare(i, Lookup(c.store, c.src.keys[i])).Sealed? {
      var s := c.src.prepare(i, Lookup(c.store, c.src.keys[i]));
      assert !StopsRun(c.verdict(Staged(i, s.size, s.next)));
    }
  }

  lemma CountsCommute(r: Report, a: Outcome, b: Outcome)
    ensures Count(Count(r, a, false), b, false) == Count(Count(r, b, false), a, false)
  {
  }

  lemma {:induction false} TallyInserts(slots: map<nat, Outcome>, i: nat, o: Outcome, n: nat)
    requires i !in slots && i < n
    ensures Tally(slots[i := o], n) == Count(Tally(slots, n), o, false)
  {
    hide Count;
    if i == n - 1 {
      TallyLocal(slots, slots[i := o], n - 1);
    } else {
      TallyInserts(slots, i, o, n - 1);
      if n - 1 in slots { CountsCommute(Tally(slots, n - 1), o, slots[n - 1]); }
    }
  }

  lemma {:induction false} TallyLocal(a: map<nat, Outcome>, b: map<nat, Outcome>, n: nat)
    requires forall i: nat :: i < n ==> ((i in a <==> i in b) && (i in a ==> a[i] == b[i]))
    ensures Tally(a, n) == Tally(b, n)
  {
    if n > 0 { TallyLocal(a, b, n - 1); }
  }

  // Settling one more file keeps the account, in whatever order files settle.
  lemma FoldTracks(c: Setting, l: Ledger, i: nat, admitted: nat)
    requires Fair(c) && Tracks(c, l, admitted) && i < admitted <= |c.src.keys| && i !in l.slots
    ensures Tracks(c, Fold(c.src, l, Settled(c, i), true), admitted)
    ensures Fold(c.src, l, Settled(c, i), true).slots == l.slots[i := Settled(c, i).outcome]
  {
    var r := Settled(c, i);
    SettledIsQuiet(c, i);
    TallyInserts(l.slots, i, r.outcome, |c.src.keys|);
    StoreFollows(c, l, i);
    CountAdds(l.report, r.outcome, false);
    hide Settled, Count, Tally, Lookup, Stored, StoreTracks, Refunded, Committed, Harmless, Distinct;
  }

  lemma StoreFollows(c: Setting, l: Ledger, i: nat)
    requires Fair(c) && StoreTracks(c, l.store, l.slots) && i < |c.src.keys| && i !in l.slots
    requires Settled(c, i).idx == i
    ensures StoreTracks(c, Stored(c.src, l, Settled(c, i)), l.slots[i := Settled(c, i).outcome])
  {
    hide Settled, Harmless;
  }

  // An account is determined by which files are settled.
  lemma TracksAgree(c: Setting, a: Ledger, b: Ledger, admitted: nat)
    requires Tracks(c, a, admitted) && Tracks(c, b, admitted)
    requires a.slots.Keys == b.slots.Keys
    ensures a == b
  {
    assert a.slots == b.slots;
    StoresAgree(c, a.store, b.store, a.slots);
    hide StoreTracks, Tally, Settled;
  }

  lemma StoresAgree(c: Setting, a: map<Key, Fingerprint>, b: map<Key, Fingerprint>, slots: map<nat, Outcome>)
    requires StoreTracks(c, a, slots) && StoreTracks(c, b, slots)
    ensures a == b
  {
    forall k ensures Lookup(a, k) == Lookup(b, k) {
      if k in c.src.keys { var i: nat :| i < |c.src.keys| && c.src.keys[i] == k; }
    }
    hide StoreTracks, Settled;
    assert forall k :: k in a ==> Lookup(a, k) == Lookup(b, k);
    assert forall k :: k in b ==> Lookup(a, k) == Lookup(b, k);
  }

  // --- the budget rule -------------------------------------------------------------------------

  // How many of the first n files cost nothing in the end.
  ghost function Free(c: Setting, n: nat): nat
    requires n <= |c.src.keys|
  {
    if n == 0 then 0 else Free(c, n - 1) + (if Refunded(Settled(c, n - 1).outcome.decision) then 1 else 0)
  }

  // File j is taken exactly when the budget left by the files before it, decided, is positive.
  ghost predicate Affordable(c: Setting, n: nat)
    requires n <= |c.src.keys|
  {
    forall j: nat :: j < n ==> c.budget - j + Free(c, j) > 0
  }

  lemma {:induction false} RefundsSoFar(c: Setting, slots: map<nat, Outcome>, admitted: nat, n: nat)
    requires SlotsTrack(c, slots, admitted) && admitted <= |c.src.keys|
    ensures Tally(slots, n).same + Tally(slots, n).skipped <= Free(c, Min(n, admitted))
    ensures (forall i: nat :: i < admitted ==> i in slots) ==>
      Tally(slots, n).same + Tally(slots, n).skipped == Free(c, Min(n, admitted))
  {
    hide Settled;
    if n > 0 {
      RefundsSoFar(c, slots, admitted, n - 1);
      if n - 1 in slots { CountAdds(Tally(slots, n - 1), slots[n - 1], false); }
      hide Count;
    }
  }

  // --- the sequential loop ---------------------------------------------------------------------

  ghost predicate AllSettled(l: Ledger, n: nat) { forall i: nat :: i < n <==> i in l.slots }

  // A file not yet settled still has the input the pass started with.
  lemma SameInput(c: Setting, l: Ledger, i: nat, admitted: nat)
    requires Tracks(c, l, admitted) && i < |c.src.keys| && i !in l.slots
    ensures Lookup(l.store, c.src.keys[i]) == Lookup(c.store, c.src.keys[i])
  {
    hide Lookup, Settled, Tally;
  }

  lemma PaidTracks(c: Setting, l: Ledger, admitted: nat)
    requires Tracks(c, l, admitted)
    ensures Tracks(c, l.(budget := l.budget - 1), admitted + 1)
  {
    hide StoreTracks, Tally, Settled;
  }

  lemma BudgetTracks(c: Setting, l: Ledger, admitted: nat)
    requires Tracks(c, l, admitted) && admitted <= |c.src.keys|
    ensures l.budget <= c.budget - admitted + Free(c, admitted)
    ensures AllSettled(l, admitted) ==> l.budget == c.budget - admitted + Free(c, admitted)
  {
    RefundsSoFar(c, l.slots, admitted, |c.src.keys|);
    hide StoreTracks, SlotsTrack, Tally, Settled, Free;
  }

  lemma TakenTracks(c: Setting, j: nat, l: Ledger)
    requires Fair(c) && Tracks(c, l, j) && AllSettled(l, j) && j < |c.src.keys|
    ensures Tracks(c, Taken(c.src, c.verdict, j, l), j + 1) && AllSettled(Taken(c.src, c.verdict, j, l), j + 1)
  {
    SameInput(c, l, j, j);
    PaidTracks(c, l, j);
    hide Tracks, Settled, Alone, Fold;
    FoldTracks(c, l.(budget := l.budget - 1), j, j + 1);
  }

  lemma {:induction false} SequentialStopsAt(c: Setting, j: nat, l: Ledger, m: nat)
    requires Fair(c) && j <= m <= |c.src.keys| && Tracks(c, l, j) && AllSettled(l, j)
    requires Affordable(c, m) && (m == |c.src.keys| || c.budget - m + Free(c, m) <= 0)
    ensures var (stop, r) := OneAtATime(c.src, c.verdict, j, l); stop == m && Tracks(c, r, m) && AllSettled(r, m)
    decreases m - j
  {
    hide Tracks, AllSettled, Taken, Tally, Fair, Free;
    BudgetTracks(c, l, j);
    if j < m {
      TakenTracks(c, j, l);
      SequentialStopsAt(c, j + 1, Taken(c.src, c.verdict, j, l), m);
    }
  }

  // --- the concurrent pass ---------------------------------------------------------------------

  ghost predicate Genuine(c: Setting, it: Staged) {
    it.idx < |c.src.keys| && c.src.prepare(it.idx, Lookup(c.store, c.src.keys[it.idx])) == Sealed(it.size, it.next)
  }

  ghost predicate GenuineAll(c: Setting, items: seq<Staged>) { forall it :: it in items ==> Genuine(c, it) }

  // What is in flight was computed from the store the pass started with.
  ghost predicate QueueTracks(c: Setting, q: Queue) {
    && (forall job :: job in q.computing ==>
         job.idx < |c.src.keys| && job.fp == Lookup(c.store, c.src.keys[job.idx]))
    && GenuineAll(c, q.staged)
    && (forall g :: g in q.groups ==> GenuineAll(c, g))
  }

  ghost predicate Faithful(c: Setting, p: Pass) {
    && !p.stopped && Sound(c.src, c.budget, p)
    && Tracks(c, p.ledger, p.next) && Affordable(c, p.next) && QueueTracks(c, p.queue)
  }

  lemma NextUnsettled(c: Setting, p: Pass)
    requires Faithful(c, p)
    ensures p.next !in p.ledger.slots
  {
    hide StoreTracks, Settled, Sound, Affordable, QueueTracks, Tally;
  }

  lemma AdmitTracks(c: Setting, p: Pass)
    requires Fair(c) && Faithful(c, p) && CanAdmit(c.src, p) && InFlight(p.queue) < c.src.limit
    ensures Faithful(c, Admit(c.src, p))
  {
    hide Sound, Tracks, Affordable, QueueTracks, Charge, InFlight, Fair;
    AdmissionKeeps(c.src, c.budget, p);
    NextUnsettled(c, p);
    SameInput(c, p.ledger, p.next, p.next);
    PaidTracks(c, p.ledger, p.next);
    NextAffordable(c, p.ledger, p.next);
    JobTracks(c, p.queue, Job(p.next, Lookup(p.ledger.store, c.src.keys[p.next])));
  }

  lemma NextAffordable(c: Setting, l: Ledger, admitted: nat)
    requires Tracks(c, l, admitted) && admitted < |c.src.keys| && Affordable(c, admitted) && l.budget > 0
    ensures Affordable(c, admitted + 1)
  {
    hide Tracks, Free;
    BudgetTracks(c, l, admitted);
  }

  lemma JobTracks(c: Setting, q: Queue, job: Job)
    requires QueueTracks(c, q) && job.idx < |c.src.keys| && job.fp == Lookup(c.store, c.src.keys[job.idx])
    ensures QueueTracks(c, q.(computing := q.computing + [job]))
  {
    hide GenuineAll, Lookup;
  }

  lemma SealedSettles(c: Setting, it: Staged)
    requires Genuine(c, it)
    ensures Uploaded(it, c.verdict(it)) == Settled(c, it.idx)
  {
  }

  // One held file settled by its own result.
  lemma SettleTracks(c: Setting, p: Pass, i: nat, hand: multiset<nat>)
    requires Fair(c) && Kept(c.src, c.budget, p, hand) && i in hand && i < |c.src.keys|
    requires Tracks(c, p.ledger, p.next)
    ensures Settled(c, i).idx == i
    ensures var q := Settle(c.src, p, Settled(c, i), true);
      Kept(c.src, c.budget, q, hand - multiset{i}) && Tracks(c, q.ledger, q.next)
  {
    hide Tracks, Settled, Fold;
    SettledIsQuiet(c, i);
    HeldInRange(c.src, c.budget, p, hand, i);
    UnsettledInHand(c.src, c.budget, p, hand, i);
    FoldTracks(c, p.ledger, i, p.next);
    hide Kept;
    SettleKeeps(c.src, c.budget, p, Settled(c, i), true, hand);
  }

  lemma UnsettledInHand(src: Source, budget: nat, p: Pass, hand: multiset<nat>, i: nat)
    requires Kept(src, budget, p, hand) && i in hand
    ensures i !in p.ledger.slots && p.next <= |src.keys|
  {
    AccountedInRange(src, p, hand, i);
  }

  lemma ComputeTracks(c: Setting, p: Pass, k: nat)
    requires Fair(c) && Faithful(c, p) && c.src.maxObjects >= 1 && k < |p.queue.computing|
    ensures p.queue.computing[k].idx < |c.src.keys| && Faithful(c, Compute(c.src, p, k, true))
  {
    var job := p.queue.computing[k];
    var q := p.(queue := p.queue.(computing := Without(p.queue.computing, k)));
    assert job.fp == Lookup(c.store, c.src.keys[job.idx]);
    assert QueueTracks(c, q.queue);
    assert !Latched(p.ledger);
    ComputeKeeps(c.src, c.budget, p, k, true);
    TakeComputed(c.src, c.budget, p, k);
    hide Sound, Kept, Tracks, Affordable, Without, Settle, AddStaged;
    if c.src.prepare(job.idx, job.fp).Decided? {
      SettleTracks(c, q, job.idx, multiset{job.idx});
      SettleLeavesQueue(c.src, q, Settled(c, job.idx), true);
    } else {
      var it := Staged(job.idx, c.src.prepare(job.idx, job.fp).size, c.src.prepare(job.idx, job.fp).next);
      AddStagedTracks(c, q.queue, it);
    }
  }

  lemma AddStagedTracks(c: Setting, q: Queue, it: Staged)
    requires QueueTracks(c, q) && Genuine(c, it)
    ensures QueueTracks(c, AddStaged(c.src.maxObjects, q, it))
  {
    hide Genuine;
  }

  lemma {:induction false} SettleGroupTracks(
      c: Setting, p: Pass, items: seq<Staged>, verdicts: seq<Verdict>, ok: seq<bool>)
    requires Fair(c) && Kept(c.src, c.budget, p, Items(items)) && Tracks(c, p.ledger, p.next)
    requires GenuineAll(c, items) && Answered(items, verdicts, c.verdict)
    requires |ok| == |items| && AllCommitted(ok)
    ensures InRange(c.src, items)
    ensures var q := SettleGroup(c.src, p, items, verdicts, ok);
      Kept(c.src, c.budget, q, multiset{}) && Tracks(c, q.ledger, q.next)
    decreases |items|
  {
    if items != [] {
      hide Kept, Tracks, Settle, Settled, Uploaded, Fair, GenuineAll, Answered, AllCommitted, Items;
      GroupHead(c, items, verdicts, ok);
      SettleTracks(c, p, items[0].idx, Items(items));
      SettleGroupTracks(c, Settle(c.src, p, Settled(c, items[0].idx), true), items[1..], verdicts[1..], ok[1..]);
    }
  }

  lemma GroupHead(c: Setting, items: seq<Staged>, verdicts: seq<Verdict>, ok: seq<bool>)
    requires GenuineAll(c, items) && Answered(items, verdicts, c.verdict)
    requires |ok| == |items| > 0 && AllCommitted(ok)
    ensures items[0].idx < |c.src.keys| && Uploaded(items[0], verdicts[0]) == Settled(c, items[0].idx) && ok[0]
    ensures items[0].idx in Items(items) && Items(items) - multiset{items[0].idx} == Items(items[1..])
    ensures GenuineAll(c, items[1..]) && Answered(items[1..], verdicts[1..], c.verdict) && AllCommitted(ok[1..])
  {
    hide Settled, Uploaded;
    assert items[0] in items;
    SealedSettles(c, items[0]);
  }

  lemma BatchTracks(c: Setting, p: Pass, g: nat, verdicts: seq<Verdict>, ok: seq<bool>)
    requires Fair(c) && Faithful(c, p) && Workable(c.src)
    requires Enabled(c.src, p, BatchDone(g, verdicts, ok)) && Calm(p, BatchDone(g, verdicts, ok), c.verdict)
    ensures Faithful(c, Batch(c.src, p, g, verdicts, ok))
  {
    var q := p.(queue := p.queue.(groups := Without(p.queue.groups, g)));
    assert GenuineAll(c, p.queue.groups[g]);
    assert QueueTracks(c, q.queue);
    BatchKeeps(c.src, c.budget, p, g, verdicts, ok);
    TakeGroup(c.src, c.budget, p, g);
    hide Sound, Kept, QueueTracks, GenuineAll, Affordable, Without, Harmless, Distinct;
    SettleGroupTracks(c, q, p.queue.groups[g], verdicts, ok);
    assert !Latched(SettleGroup(c.src, q, p.queue.groups[g], verdicts, ok).ledger);
  }

  lemma NextTracks(c: Setting, p: Pass, e: Event)
    requires Fair(c) && Faithful(c, p) && Workable(c.src) && Enabled(c.src, p, e) && Calm(p, e, c.verdict)
    ensures Faithful(c, Next(c.src, p, e))
  {
    hide Faithful, Fair, Admit, Compute, Batch, CanAdmit;
    if e.Admission? {
      AdmitTracks(c, p);
    } else if e.Computed? {
      ComputeTracks(c, p, e.position);
    } else if e.BatchDone? {
      BatchTracks(c, p, e.group, e.verdicts, e.commitOk);
    } else {
      QuietTracks(c, p, e);
    }
  }

  lemma QuietTracks(c: Setting, p: Pass, e: Event)
    requires Faithful(c, p) && Workable(c.src) && (e.Weighed? || e.Flush?) && Enabled(c.src, p, e)
    ensures Faithful(c, Next(c.src, p, e))
  {
    hide Sound, Tracks, Affordable, Genuine, Charge;
    NextKeeps(c.src, c.budget, p, e);
  }

  lemma {:induction false} CalmRunTracks(c: Setting, p: Pass, events: seq<Event>, q: Pass)
    requires Fair(c) && Faithful(c, p) && Workable(c.src) && CalmRun(c.src, c.verdict, p, events, q)
    ensures Faithful(c, q)
    decreases |events|
  {
    if events != [] {
      hide Faithful, Fair, Next, Enabled, Calm;
      NextTracks(c, p, events[0]);
      CalmRunTracks(c, Next(c.src, p, events[0]), events[1..], q);
    }
  }

  lemma StartTracks(c: Setting)
    requires Workable(c.src)
    ensures Faithful(c, Start(c.store, c.budget)) && AllSettled(Start(c.store, c.budget).ledger, 0)
  {
    hide Sound, Tracks, Workable;
    StartIsSound(c.src, c.budget, c.store);
    NothingSettled(c);
  }

  lemma NothingSettled(c: Setting)
    ensures Tracks(c, Start(c.store, c.budget).ledger, 0)
  {
    NothingTallied(|c.src.keys|);
    hide Lookup, Settled, Tally;
  }

  lemma {:induction false} NothingTallied(n: nat)
    ensures Tally(map[], n) == NO_REPORT
  {
    if n > 0 { NothingTallied(n - 1); }
  }

  // At rest every admitted file is settled and the budget, or the list, is spent.
  lemma FinishedTracks(c: Setting, q: Pass)
    requires Faithful(c, q) && Finished(c.src, q)
    ensures q.next <= |c.src.keys| && AllSettled(q.ledger, q.next)
    ensures q.next == |c.src.keys| || c.budget - q.next + Free(c, q.next) <= 0
  {
    IdleHoldsNothing(c.src, c.budget, q);
    assert q.next <= |c.src.keys|;
    RefundsSoFar(c, q.ledger.slots, q.next, |c.src.keys|);
    hide Sound, Free, Tally, Settled, QueueTracks, StoreTracks, SlotsTrack;
  }

  /**
   * Whatever order computations and groups finish in, the pass ends exactly where the one-file-at-a-time
   * loop ends: the same number of files admitted, the same store, outcomes, counters and budget.
   */
  lemma PassRefinesOneAtATime(c: Setting, events: seq<Event>, q: Pass)
    requires Fair(c) && Workable(c.src)
    requires CalmRun(c.src, c.verdict, Start(c.store, c.budget), events, q) && Finished(c.src, q)
    ensures OneAtATime(c.src, c.verdict, 0, Start(c.store, c.budget).ledger) == (q.next, q.ledger)
  {
    hide Finished, CalmRun, Workable, Fair, Sound, Tracks, AllSettled, Free;
    StartTracks(c);
    CalmRunTracks(c, Start(c.store, c.budget), events, q);
    FinishedTracks(c, q);
    assert Start(c.store, c.budget).next == 0;
    SequentialStopsAt(c, 0, Start(c.store, c.budget).ledger, q.next);
    var (stop, r) := OneAtATime(c.src, c.verdict, 0, Start(c.store, c.budget).ledger);
    SameSlots(r, q.ledger, q.next);
    TracksAgree(c, r, q.ledger, q.next);
  }

  lemma SameSlots(a: Ledger, b: Ledger, n: nat)
    requires AllSettled(a, n) && AllSettled(b, n)
    ensures a.slots.Keys == b.slots.Keys
  {
  }
}
