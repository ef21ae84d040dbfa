/** What every schedule of one source's pass keeps: nothing in flight is lost, doubled or overcharged. */
module FilePassInvariants {
  import opened Wrappers
  import opened Fingerprints
  import opened FilePass

  // --- the files in flight, by index -----------------------------------------------------------

  ghost function Jobs(s: seq<Job>): multiset<nat>
    decreases |s|
  {
    if s == [] then multiset{} else multiset{s[0].idx} + Jobs(s[1..])
  }

  ghost function Items(s: seq<Staged>): multiset<nat>
    decreases |s|
  {
    if s == [] then multiset{} else multiset{s[0].idx} + Items(s[1..])
  }

  ghost function Grouped(s: seq<seq<Staged>>): multiset<nat>
    decreases |s|
  {
    if s == [] then multiset{} else Items(s[0]) + Grouped(s[1..])
  }

  ghost function Carried(q: Queue): multiset<nat> { Jobs(q.computing) + Items(q.staged) + Grouped(q.groups) }

  lemma {:induction false} JobsConcat(a: seq<Job>, b: seq<Job>)
    ensures Jobs(a + b) == Jobs(a) + Jobs(b)
    decreases |a|
  {
    if a == [] { assert a + b == b; } else { assert (a + b)[1..] == a[1..] + b; JobsConcat(a[1..], b); }
  }

  lemma {:induction false} ItemsConcat(a: seq<Staged>, b: seq<Staged>)
    ensures Items(a + b) == Items(a) + Items(b)
    decreases |a|
  {
    if a == [] { assert a + b == b; } else { assert (a + b)[1..] == a[1..] + b; ItemsConcat(a[1..], b); }
  }

  lemma {:induction false} GroupedConcat(a: seq<seq<Staged>>, b: seq<seq<Staged>>)
    ensures Grouped(a + b) == Grouped(a) + Grouped(b) && Members(a + b) == Members(a) + Members(b)
    decreases |a|
  {
    if a == [] { assert a + b == b; } else { assert (a + b)[1..] == a[1..] + b; GroupedConcat(a[1..], b); }
  }

  lemma WithoutRest<T>(s: seq<T>, k: nat)
    requires k < |s|
    ensures k == 0 ==> Without(s, k) == s[1..]
    ensures k > 0 ==> Without(s, k) != [] && Without(s, k)[0] == s[0] && Without(s, k)[1..] == Without(s[1..], k - 1)
  {
  }

  lemma {:induction false} JobsWithout(s: seq<Job>, k: nat)
    requires k < |s|
    ensures Jobs(s) == Jobs(Without(s, k)) + multiset{s[k].idx}
    decreases |s|
  {
    WithoutRest(s, k);
    if k > 0 { JobsWithout(s[1..], k - 1); }
  }

  lemma {:induction false} GroupedWithout(s: seq<seq<Staged>>, k: nat)
    requires k < |s|
    ensures Grouped(s) == Grouped(Without(s, k)) + Items(s[k])
    ensures Members(s) == Members(Without(s, k)) + |s[k]|
    decreases |s|
  {
    hide Items;
    WithoutRest(s, k);
    if k > 0 { GroupedWithout(s[1..], k - 1); }
  }

  lemma {:induction false} JobsSize(s: seq<Job>)
    ensures |Jobs(s)| == |s|
    decreases |s|
  {
    if s != [] { JobsSize(s[1..]); }
  }

  lemma {:induction false} ItemsSize(s: seq<Staged>)
    ensures |Items(s)| == |s|
    decreases |s|
  {
    if s != [] { ItemsSize(s[1..]); }
  }

  lemma {:induction false} GroupedSize(s: seq<seq<Staged>>)
    ensures |Grouped(s)| == Members(s)
    decreases |s|
  {
    if s != [] { ItemsSize(s[0]); GroupedSize(s[1..]); }
  }

  lemma CarriedSize(q: Queue)
    ensures |Carried(q)| == InFlight(q)
  {
    JobsSize(q.computing); ItemsSize(q.staged); GroupedSize(q.groups);
  }

  // --- bytes -----------------------------------------------------------------------------------

  ghost function Total(charges: map<nat, nat>, n: nat): nat {
    if n == 0 then 0 else Total(charges, n - 1) + (if n - 1 in charges then charges[n - 1] else 0)
  }

  lemma {:induction false} TotalBelow(a: map<nat, nat>, b: map<nat, nat>, n: nat)
    requires forall i: nat :: i < n ==> ((i in a <==> i in b) && (i in a ==> a[i] == b[i]))
    ensures Total(a, n) == Total(b, n)
  {
    if n > 0 { TotalBelow(a, b, n - 1); }
  }

  lemma {:induction false} TotalWithout(charges: map<nat, nat>, i: nat, n: nat)
    requires i in charges && i < n
    ensures Total(charges - {i}, n) == Total(charges, n) - charges[i]
  {
    if i == n - 1 { TotalBelow(charges - {i}, charges, n - 1); } else { TotalWithout(charges, i, n - 1); }
  }

  // --- conservation ----------------------------------------------------------------------------

  // Every admitted file is settled or carried, never both and carried only once; `hand` is what the
  // loop thread holds in the middle of a turn.
  ghost predicate Accounted(src: Source, p: Pass, hand: multiset<nat>) {
    && p.next <= |src.keys|
    && (forall i :: i in p.charges ==> i <= p.next && i < |src.keys|)
    && Carried(p.queue) + hand == multiset(p.charges.Keys - {p.next})
    && p.inFlightBytes == Total(p.charges, p.next)
    && (forall i :: i in p.ledger.slots ==> i < p.next && i !in p.charges)
  }

  // Until a latch is set no file is dropped without an outcome.
  ghost predicate NoneDropped(p: Pass) {
    !Latched(p.ledger) ==> forall i: nat :: i < p.next ==> i in p.ledger.slots || i in p.charges
  }

  ghost predicate WithinGate(src: Source, p: Pass, hand: nat) {
    p.inFlightBytes <= src.gate || InFlight(p.queue) + hand <= 1
  }

  lemma AccountedInRange(src: Source, p: Pass, hand: multiset<nat>, i: nat)
    requires Accounted(src, p, hand) && (i in Carried(p.queue) || i in hand)
    ensures i < p.next && i in p.charges
  {
    assert i in multiset(p.charges.Keys - {p.next});
  }

  ghost function Bytes(items: seq<Staged>): nat
    decreases |items|
  {
    if items == [] then 0 else items[0].size + Bytes(items[1..])
  }

  lemma {:induction false} BytesAppend(items: seq<Staged>, it: Staged)
    ensures Bytes(items + [it]) == Bytes(items) + it.size
    decreases |items|
  {
    if items == [] {
      assert [it][1..] == [];
    } else {
      assert (items + [it])[1..] == items[1..] + [it];
      BytesAppend(items[1..], it);
    }
  }

  // The declared bounds of one authorization request; one object alone may exceed the byte bound.
  ghost predicate Sendable(maxObjects: nat, group: seq<Staged>) {
    1 <= |group| <= maxObjects && (Bytes(group) <= MAX_BATCH_BYTES || |group| == 1)
  }

  ghost predicate Grouping(maxObjects: nat, q: Queue) {
    && q.stagedBytes == Bytes(q.staged)
    && |q.staged| < maxObjects && q.stagedBytes < MAX_BATCH_BYTES
    && (forall g :: g in q.groups ==> Sendable(maxObjects, g))
  }

  // A unit of the run-wide budget stands for each file that cost something, and the two stop
  // verdicts are counted once each however many objects they refused.
  ghost predicate Balanced(budget: nat, next: nat, l: Ledger) {
    && l.budget == budget - next + l.report.same + l.report.skipped
    && l.budget >= 0
    && l.report.refusals == (if l.fatal then 1 else 0)
    && l.report.halts == (if l.uploadHalted then 1 else 0)
    && Counted(l.report) == |l.slots|
  }

  // The report's figure for one decision, and how many of the first n files were given it.
  function Figure(report: Report, d: Decision): nat {
    match d
    case Shipped => report.shipped
    case Unchanged => report.same
    case Skipped => report.skipped
    case Parked => report.parked
    case Failed => report.failed
  }

  ghost function HowMany(slots: map<nat, Outcome>, d: Decision, n: nat): nat {
    if n == 0 then 0 else HowMany(slots, d, n - 1) + (if n - 1 in slots && slots[n - 1].decision == d then 1 else 0)
  }

  ghost predicate Telling(src: Source, l: Ledger) {
    forall d :: Figure(l.report, d) == HowMany(l.slots, d, |src.keys|)
  }

  // A stop verdict is a failure that commits nothing.
  ghost predicate Genuine(r: Result) {
    && (r.outcome.fatal ==> r.outcome.decision.Failed? && !r.unavailable)
    && (r.unavailable ==> r.outcome.decision.Failed?)
  }

  ghost predicate Kept(src: Source, budget: nat, p: Pass, hand: multiset<nat>) {
    && Accounted(src, p, hand) && NoneDropped(p) && WithinGate(src, p, |hand|)
    && InFlight(p.queue) + |hand| <= src.limit
    && Grouping(src.maxObjects, p.queue) && Balanced(budget, p.next, p.ledger) && Telling(src, p.ledger)
  }

  // The invariant of the loop between turns: a latched pass holds nothing back to send.
  ghost predicate Sound(src: Source, budget: nat, p: Pass) {
    Kept(src, budget, p, multiset{}) && (Latched(p.ledger) ==> p.queue.staged == [])
  }

  // Giving a held file its decision moves it, and only it, from the flight to the outcomes.
  lemma SettleAccounts(src: Source, p: Pass, r: Result, ok: bool, hand: multiset<nat>)
    requires Accounted(src, p, hand) && NoneDropped(p) && r.idx in hand
    requires WithinGate(src, p, |hand|)
    ensures r.idx < p.next && r.idx !in p.ledger.slots
    ensures var q := Settle(src, p, r, ok);
      Accounted(src, q, hand - multiset{r.idx}) && NoneDropped(q) && WithinGate(src, q, |hand| - 1)
  {
    AccountedInRange(src, p, hand, r.idx);
    var q := Settle(src, p, r, ok);
    var i := r.idx;
    TotalWithout(p.charges, i, p.next);
    assert q.charges.Keys - {q.next} == (p.charges.Keys - {p.next}) - {i};
    var keys := p.charges.Keys - {p.next};
    assert multiset(keys - {i}) == multiset(keys) - multiset{i};
    assert Carried(q.queue) + (hand - multiset{i}) == Carried(p.queue) + hand - multiset{i};
  }

  ghost function Counted(report: Report): nat {
    report.shipped + report.same + report.skipped + report.parked + report.failed
  }

  lemma CountAdds(report: Report, o: Outcome, unavailable: bool)
    ensures var after := Count(report, o, unavailable);
      && Counted(after) == Counted(report) + 1
      && after.same + after.skipped == report.same + report.skipped + (if Refunded(o.decision) then 1 else 0)
      && after.refusals == report.refusals + (if o.decision.Failed? && o.fatal then 1 else 0)
      && after.halts == report.halts + (if o.decision.Failed? && !o.fatal && unavailable then 1 else 0)
  {
  }

  lemma FoldBalances(src: Source, budget: nat, next: nat, l: Ledger, r: Result, ok: bool)
    requires r.idx < |src.keys| && r.idx !in l.slots && Genuine(r) && Balanced(budget, next, l)
    ensures Balanced(budget, next, Fold(src, l, r, ok))
  {
    CountAdds(l.report, Committed(r, ok), r.unavailable);
    hide Count, Stored, Refunded;
  }

  lemma {:induction false} HowManyBelow(a: map<nat, Outcome>, b: map<nat, Outcome>, d: Decision, n: nat)
    requires forall i: nat :: i < n ==> ((i in a <==> i in b) && (i in a ==> a[i] == b[i]))
    ensures HowMany(a, d, n) == HowMany(b, d, n)
  {
    if n > 0 { HowManyBelow(a, b, d, n - 1); }
  }

  lemma {:induction false} HowManyInserts(slots: map<nat, Outcome>, i: nat, o: Outcome, d: Decision, n: nat)
    requires i !in slots && i < n
    ensures HowMany(slots[i := o], d, n) == HowMany(slots, d, n) + (if o.decision == d then 1 else 0)
  {
    if i == n - 1 { HowManyBelow(slots, slots[i := o], d, n - 1); } else { HowManyInserts(slots, i, o, d, n - 1); }
  }

  lemma CountsItsDecision(report: Report, o: Outcome, unavailable: bool, d: Decision)
    ensures Figure(Count(report, o, unavailable), d) == Figure(report, d) + (if o.decision == d then 1 else 0)
  {
  }

  lemma FoldTells(src: Source, l: Ledger, r: Result, ok: bool)
    requires r.idx < |src.keys| && r.idx !in l.slots && Telling(src, l)
    ensures Telling(src, Fold(src, l, r, ok))
  {
    var o, after := Committed(r, ok), Fold(src, l, r, ok);
    hide Count, Stored, Refunded, Committed, Figure, HowMany;
    forall d ensures Figure(after.report, d) == HowMany(after.slots, d, |src.keys|) {
      CountsItsDecision(l.report, o, r.unavailable, d);
      HowManyInserts(l.slots, r.idx, o, d, |src.keys|);
    }
  }

  lemma SettleKeeps(src: Source, budget: nat, p: Pass, r: Result, ok: bool, hand: multiset<nat>)
    requires Kept(src, budget, p, hand) && r.idx in hand && Genuine(r)
    ensures r.idx < |src.keys| && Kept(src, budget, Settle(src, p, r, ok), hand - multiset{r.idx})
    ensures Latched(p.ledger) ==> Latched(Settle(src, p, r, ok).ledger)
    ensures !r.outcome.fatal && !r.unavailable ==> (Latched(Settle(src, p, r, ok).ledger) <==> Latched(p.ledger))
  {
    SettleAccounts(src, p, r, ok, hand);
    FoldBalances(src, budget, p.next, p.ledger, r, ok);
    FoldTells(src, p.ledger, r, ok);
    hide Accounted, NoneDropped, WithinGate, Grouping, Balanced, Telling;
    assert |hand - multiset{r.idx}| == |hand| - 1;
  }

  lemma UploadedIsGenuine(it: Staged, v: Verdict)
    ensures Genuine(Uploaded(it, v)) && Uploaded(it, v).idx == it.idx
  {
  }

  lemma {:induction false} SettleGroupKeeps(
      src: Source, budget: nat, p: Pass, items: seq<Staged>, verdicts: seq<Verdict>, ok: seq<bool>)
    requires |items| == |verdicts| == |ok| && Kept(src, budget, p, Items(items))
    ensures InRange(src, items)
    ensures Kept(src, budget, SettleGroup(src, p, items, verdicts, ok), multiset{})
    ensures Latched(p.ledger) ==> Latched(SettleGroup(src, p, items, verdicts, ok).ledger)
    decreases |items|
  {
    if items != [] {
      hide Kept, Settle, Uploaded;
      var r := Uploaded(items[0], verdicts[0]);
      UploadedIsGenuine(items[0], verdicts[0]);
      SettleKeeps(src, budget, p, r, ok[0], Items(items));
      assert Items(items) - multiset{r.idx} == Items(items[1..]);
      SettleGroupKeeps(src, budget, Settle(src, p, r, ok[0]), items[1..], verdicts[1..], ok[1..]);
    }
  }

  lemma {:induction false} SettleAbandonedKeeps(src: Source, budget: nat, p: Pass, items: seq<Staged>)
    requires Latched(p.ledger) && Kept(src, budget, p, Items(items))
    ensures InRange(src, items)
    ensures Kept(src, budget, SettleAbandoned(src, p, items), multiset{})
    ensures SettleAbandoned(src, p, items).ledger == p.ledger
    decreases |items|
  {
    if items != [] {
      var r := Abandoned(p.ledger, items[0]);
      SettleKeeps(src, budget, p, r, true, Items(items));
      assert Settle(src, p, r, true).ledger == p.ledger;
      hide Kept, Settle;
      assert Items(items) - multiset{r.idx} == Items(items[1..]);
      SettleAbandonedKeeps(src, budget, Settle(src, p, r, true), items[1..]);
    }
  }

  /** Folding an upload's verdict sets a latch exactly when the verdict stops the run, and only then is it a stop. */
  lemma VerdictLatchesExactlyWhenItStops(src: Source, l: Ledger, it: Staged, v: Verdict, ok: bool)
    requires it.idx < |src.keys| && !Latched(l)
    ensures Latched(Fold(src, l, Uploaded(it, v), ok)) <==> StopsRun(v)
    ensures Fold(src, l, Uploaded(it, v), ok).fatal <==> v.Refused?
    ensures Fold(src, l, Uploaded(it, v), ok).offline <==> if v.Unavailable? || v.Offline? then v.Offline? else l.offline
    ensures StopsRun(v) ==> Fold(src, l, Uploaded(it, v), ok).store == l.store
    ensures v.Confirmed? || v.AlreadyPresent? ==> Lookup(Fold(src, l, Uploaded(it, v), ok).store, src.keys[it.idx]) == Some(it.next)
  {
    hide Count;
  }

  // --- the accumulator -------------------------------------------------------------------------

  lemma SendKeeps(maxObjects: nat, q: Queue)
    requires Grouping(maxObjects, q)
    ensures Grouping(maxObjects, Send(q)) && Send(q).staged == []
    ensures Carried(Send(q)) == Carried(q) && InFlight(Send(q)) == InFlight(q)
  {
    if q.staged != [] {
      GroupedConcat(q.groups, [q.staged]);
      assert [q.staged][1..] == [];
    }
  }

  ghost predicate Roomy(maxObjects: nat, q: Queue, it: Staged) {
    Grouping(maxObjects, q) && (q.staged == [] || q.stagedBytes + it.size <= MAX_BATCH_BYTES)
  }

  lemma MakeRoomKeeps(maxObjects: nat, q: Queue, it: Staged)
    requires Grouping(maxObjects, q)
    ensures Roomy(maxObjects, MakeRoom(q, it), it)
    ensures Carried(MakeRoom(q, it)) == Carried(q) && InFlight(MakeRoom(q, it)) == InFlight(q)
  {
    SendKeeps(maxObjects, q);
    hide Carried, InFlight, Bytes, Sendable;
  }

  lemma JoinKeeps(maxObjects: nat, q: Queue, it: Staged)
    requires maxObjects >= 1 && Roomy(maxObjects, q, it)
    ensures Carried(Join(q, it)) == Carried(q) + multiset{it.idx} && InFlight(Join(q, it)) == InFlight(q) + 1
    ensures Join(q, it).stagedBytes == Bytes(Join(q, it).staged) && Sendable(maxObjects, Join(q, it).staged)
    ensures forall g :: g in Join(q, it).groups ==> Sendable(maxObjects, g)
  {
    ItemsConcat(q.staged, [it]);
    assert [it][1..] == [];
    BytesAppend(q.staged, it);
  }

  lemma SendFullKeeps(maxObjects: nat, q: Queue)
    requires q.stagedBytes == Bytes(q.staged) && Sendable(maxObjects, q.staged)
    requires forall g :: g in q.groups ==> Sendable(maxObjects, g)
    ensures Grouping(maxObjects, SendFull(maxObjects, q))
    ensures Carried(SendFull(maxObjects, q)) == Carried(q) && InFlight(SendFull(maxObjects, q)) == InFlight(q)
  {
    GroupedConcat(q.groups, [q.staged]);
    assert [q.staged][1..] == [];
  }

  lemma AddStagedKeeps(maxObjects: nat, q: Queue, it: Staged)
    requires maxObjects >= 1 && Grouping(maxObjects, q)
    ensures Grouping(maxObjects, AddStaged(maxObjects, q, it))
    ensures Carried(AddStaged(maxObjects, q, it)) == Carried(q) + multiset{it.idx}
    ensures InFlight(AddStaged(maxObjects, q, it)) == InFlight(q) + 1
  {
    hide Grouping, Carried, InFlight, MakeRoom, Join, SendFull;
    MakeRoomKeeps(maxObjects, q, it);
    JoinKeeps(maxObjects, MakeRoom(q, it), it);
    SendFullKeeps(maxObjects, Join(MakeRoom(q, it), it));
  }

  // --- one turn --------------------------------------------------------------------------------

  // Files may move between the hand and the queue as long as none is added or lost.
  lemma RequeueKeeps(src: Source, budget: nat, p: Pass, hand: multiset<nat>, q: Queue, held: multiset<nat>)
    requires Kept(src, budget, p, hand) && Grouping(src.maxObjects, q)
    requires Carried(q) + held == Carried(p.queue) + hand && InFlight(q) + |held| == InFlight(p.queue) + |hand|
    ensures Kept(src, budget, p.(queue := q), held)
  {
    hide Carried, InFlight, Grouping, Balanced, Telling, Total;
  }

  lemma JobJoins(q: Queue, job: Job)
    ensures var after := q.(computing := q.computing + [job]);
      Carried(after) == Carried(q) + multiset{job.idx} && InFlight(after) == InFlight(q) + 1
  {
    JobsConcat(q.computing, [job]);
    assert [job][1..] == [];
  }

  lemma GroupLeaves(q: Queue, g: nat)
    requires g < |q.groups|
    ensures var after := q.(groups := Without(q.groups, g));
      && Carried(after) + Items(q.groups[g]) == Carried(q)
      && InFlight(after) + |q.groups[g]| == InFlight(q)
      && (forall other :: other in after.groups ==> other in q.groups)
  {
    GroupedWithout(q.groups, g);
    hide Jobs, Items, Grouped, Members;
  }

  lemma AdmitAccounts(src: Source, p: Pass)
    requires Accounted(src, p, multiset{}) && NoneDropped(p) && CanAdmit(src, p)
    ensures Accounted(src, Admit(src, p), multiset{}) && NoneDropped(Admit(src, p))
    ensures InFlight(Admit(src, p).queue) == InFlight(p.queue) + 1
  {
    hide Jobs, Items, Grouped, Members, Carried, InFlight, Lookup, Charge;
    var q := Admit(src, p);
    JobJoins(p.queue, Job(p.next, Lookup(p.ledger.store, src.keys[p.next])));
    assert q.charges.Keys - {q.next} == (p.charges.Keys - {p.next}) + {p.next};
    var keys := p.charges.Keys - {p.next};
    assert multiset(keys + {p.next}) == multiset(keys) + multiset{p.next};
    assert Carried(q.queue) == Carried(p.queue) + multiset{p.next};
    TotalBelow(p.charges, q.charges, p.next);
  }

  lemma AdmitKeeps(src: Source, budget: nat, p: Pass)
    requires Sound(src, budget, p) && CanAdmit(src, p) && InFlight(p.queue) < src.limit
    ensures Sound(src, budget, Admit(src, p)) && InFlight(Admit(src, p).queue) == InFlight(p.queue) + 1
  {
    AdmitAccounts(src, p);
    hide Accounted, NoneDropped, Carried, InFlight, Lookup, Figure, HowMany;
  }

  lemma WeighedKeeps(src: Source, budget: nat, p: Pass)
    requires Sound(src, budget, p) && Enabled(src, p, Weighed)
    ensures Sound(src, budget, Next(src, p, Weighed))
  {
    var q := Next(src, p, Weighed);
    assert q.charges.Keys - {q.next} == p.charges.Keys - {p.next};
    TotalBelow(p.charges, q.charges, p.next);
    assert Accounted(src, q, multiset{}) && NoneDropped(q);
    hide Accounted, NoneDropped, Grouping, Balanced, Telling, Carried;
  }

  lemma CancelKeeps(src: Source, budget: nat, p: Pass)
    requires Sound(src, budget, p)
    ensures Sound(src, budget, Next(src, p, Cancel))
  {
    hide Carried, InFlight, Grouping, Balanced, Total;
  }

  lemma FlushKeeps(src: Source, budget: nat, p: Pass)
    requires Sound(src, budget, p) && p.queue.computing == []
    ensures Sound(src, budget, Next(src, p, Flush)) && Next(src, p, Flush).queue.staged == []
  {
    SendKeeps(src.maxObjects, p.queue);
    RequeueKeeps(src, budget, p, multiset{}, Send(p.queue), multiset{});
    hide Grouping, Carried, InFlight, Kept, Send;
  }

  lemma HeldInRange(src: Source, budget: nat, p: Pass, hand: multiset<nat>, i: nat)
    requires Kept(src, budget, p, hand) && (i in Carried(p.queue) || i in hand)
    ensures i < |src.keys| && i < p.next
  {
    AccountedInRange(src, p, hand, i);
  }

  lemma AbandonedChangesNothing(src: Source, p: Pass, it: Staged)
    requires Latched(p.ledger) && it.idx < |src.keys|
    ensures Settle(src, p, Abandoned(p.ledger, it), true).ledger == p.ledger
    ensures Genuine(Abandoned(p.ledger, it)) && Abandoned(p.ledger, it).idx == it.idx
  {
  }

  lemma StageUploadKeeps(src: Source, budget: nat, p: Pass, it: Staged)
    requires Kept(src, budget, p, multiset{it.idx}) && src.maxObjects >= 1
    requires Latched(p.ledger) ==> p.queue.staged == []
    ensures it.idx < |src.keys| && Sound(src, budget, StageUpload(src, p, it))
    ensures StageUpload(src, p, it).ledger == p.ledger && StageUpload(src, p, it).next == p.next
    ensures Latched(p.ledger) ==> StageUpload(src, p, it).queue == p.queue
  {
    HeldInRange(src, budget, p, multiset{it.idx}, it.idx);
    assert Grouping(src.maxObjects, p.queue);
    hide Grouping, Carried, InFlight, Kept, AddStaged;
    if Latched(p.ledger) {
      AbandonedChangesNothing(src, p, it);
      SettleKeeps(src, budget, p, Abandoned(p.ledger, it), true, multiset{it.idx});
      assert multiset{it.idx} - multiset{it.idx} == multiset{};
    } else {
      AddStagedKeeps(src.maxObjects, p.queue, it);
      RequeueKeeps(src, budget, p, multiset{it.idx}, AddStaged(src.maxObjects, p.queue, it), multiset{});
    }
  }

  // Taking the k-th computation off the queue puts its file in the loop's hand.
  lemma TakeComputed(src: Source, budget: nat, p: Pass, k: nat)
    requires Kept(src, budget, p, multiset{}) && k < |p.queue.computing|
    ensures p.queue.computing[k].idx < |src.keys|
    ensures var q := p.queue.(computing := Without(p.queue.computing, k));
      Kept(src, budget, p.(queue := q), multiset{p.queue.computing[k].idx})
  {
    var job := p.queue.computing[k];
    JobsWithout(p.queue.computing, k);
    var q := p.queue.(computing := Without(p.queue.computing, k));
    assert Carried(q) + multiset{job.idx} == Carried(p.queue);
    HeldInRange(src, budget, p, multiset{}, job.idx);
    assert Grouping(src.maxObjects, q);
    assert InFlight(q) + 1 == InFlight(p.queue);
    hide Carried, InFlight, Grouping, Kept;
    RequeueKeeps(src, budget, p, multiset{}, q, multiset{job.idx});
  }

  lemma ComputeKeeps(src: Source, budget: nat, p: Pass, k: nat, ok: bool)
    requires Sound(src, budget, p) && src.maxObjects >= 1 && k < |p.queue.computing|
    ensures p.queue.computing[k].idx < |src.keys| && Sound(src, budget, Compute(src, p, k, ok))
    ensures Latched(Compute(src, p, k, ok).ledger) <==> Latched(p.ledger)
    ensures Compute(src, p, k, ok).next == p.next
    ensures Latched(p.ledger) ==> Compute(src, p, k, ok).queue.sent == p.queue.sent
  {
    hide Kept, StageUpload, Settle, Without;
    TakeComputed(src, budget, p, k);
    var job := p.queue.computing[k];
    var q := p.(queue := p.queue.(computing := Without(p.queue.computing, k)));
    if src.prepare(job.idx, job.fp).Decided? {
      var r := Result(job.idx, Outcome(src.prepare(job.idx, job.fp).decision, false), src.prepare(job.idx, job.fp).intent, false, false);
      SettleKeeps(src, budget, q, r, ok, multiset{job.idx});
      assert multiset{job.idx} - multiset{job.idx} == multiset{};
      SettleLeavesQueue(src, q, r, ok);
    } else {
      StageUploadKeeps(src, budget, q, Staged(job.idx, src.prepare(job.idx, job.fp).size, src.prepare(job.idx, job.fp).next));
    }
  }

  lemma SettleLeavesQueue(src: Source, p: Pass, r: Result, ok: bool)
    requires r.idx < |src.keys|
    ensures Settle(src, p, r, ok).queue == p.queue && Settle(src, p, r, ok).next == p.next
  {
  }

  lemma {:induction false} ItemsHold(items: seq<Staged>, it: Staged)
    requires it in items
    ensures it.idx in Items(items)
    decreases |items|
  {
    if it != items[0] { ItemsHold(items[1..], it); }
  }

  lemma StagedInRange(src: Source, budget: nat, p: Pass, hand: multiset<nat>)
    requires Kept(src, budget, p, hand)
    ensures InRange(src, p.queue.staged)
  {
    forall it | it in p.queue.staged ensures it.idx < |src.keys| {
      ItemsHold(p.queue.staged, it);
      HeldInRange(src, budget, p, hand, it.idx);
    }
  }

  lemma DrainHolds(src: Source, budget: nat, p: Pass)
    requires Kept(src, budget, p, multiset{})
    ensures Kept(src, budget, p.(queue := p.queue.(staged := [], stagedBytes := 0)), Items(p.queue.staged))
  {
    var q := p.queue.(staged := [], stagedBytes := 0);
    ItemsSize(p.queue.staged);
    assert Carried(q) + Items(p.queue.staged) == Carried(p.queue);
    assert InFlight(q) + |Items(p.queue.staged)| == InFlight(p.queue);
    assert Grouping(src.maxObjects, q);
    hide Carried, InFlight, Grouping, Kept, Items;
    RequeueKeeps(src, budget, p, multiset{}, q, Items(p.queue.staged));
  }

  lemma DrainKeeps(src: Source, budget: nat, p: Pass)
    requires Kept(src, budget, p, multiset{})
    ensures InRange(src, p.queue.staged) && Sound(src, budget, DrainStaged(src, p))
    ensures DrainStaged(src, p).ledger == p.ledger && DrainStaged(src, p).next == p.next
    ensures DrainStaged(src, p).queue ==
            if Latched(p.ledger) && p.queue.staged != [] then p.queue.(staged := [], stagedBytes := 0) else p.queue
  {
    hide Kept, SettleAbandoned, Items;
    StagedInRange(src, budget, p, multiset{});
    if p.queue.staged != [] && Latched(p.ledger) {
      DrainHolds(src, budget, p);
      SettleAbandonedKeeps(src, budget, p.(queue := p.queue.(staged := [], stagedBytes := 0)), p.queue.staged);
    }
  }

  lemma TakeGroup(src: Source, budget: nat, p: Pass, g: nat)
    requires Kept(src, budget, p, multiset{}) && g < |p.queue.groups|
    ensures var q := p.queue.(groups := Without(p.queue.groups, g));
      Kept(src, budget, p.(queue := q), Items(p.queue.groups[g]))
  {
    var q := p.queue.(groups := Without(p.queue.groups, g));
    GroupLeaves(p.queue, g);
    ItemsSize(p.queue.groups[g]);
    hide Carried, InFlight, Items, Without, Bytes, Sendable;
    assert Grouping(src.maxObjects, q);
    hide Grouping, Kept;
    RequeueKeeps(src, budget, p, multiset{}, q, Items(p.queue.groups[g]));
  }

  lemma BatchKeeps(src: Source, budget: nat, p: Pass, g: nat, verdicts: seq<Verdict>, ok: seq<bool>)
    requires Sound(src, budget, p) && g < |p.queue.groups| && |verdicts| == |ok| == |p.queue.groups[g]|
    ensures InRange(src, p.queue.groups[g]) && InRange(src, p.queue.staged)
    ensures Sound(src, budget, Batch(src, p, g, verdicts, ok))
    ensures Latched(p.ledger) ==> Latched(Batch(src, p, g, verdicts, ok).ledger)
    ensures Batch(src, p, g, verdicts, ok).queue.sent == p.queue.sent && Batch(src, p, g, verdicts, ok).next == p.next
  {
    hide Kept, SettleGroup, DrainStaged, Items, Without, InRange;
    StagedInRange(src, budget, p, multiset{});
    TakeGroup(src, budget, p, g);
    var items := p.queue.groups[g];
    var q := p.(queue := p.queue.(groups := Without(p.queue.groups, g)));
    SettleGroupKeeps(src, budget, q, items, verdicts, ok);
    DrainKeeps(src, budget, SettleGroup(src, q, items, verdicts, ok));
  }

  // --- whole runs ------------------------------------------------------------------------------

  // The limits `run` derives always leave room for one file and one object per group.
  ghost predicate Workable(src: Source) { src.limit >= 1 && src.maxObjects >= 1 }

  lemma ConfiguredIsWorkable(src: Source, workers: nat, uploadWorkers: nat)
    requires Configured(src, workers, uploadWorkers)
    ensures Workable(src) && src.maxObjects <= MAX_BATCH_OBJECTS && src.maxObjects < src.limit
  {
  }

  ghost predicate Runs(src: Source, p: Pass, events: seq<Event>, q: Pass)
    decreases |events|
  {
    if events == [] then p == q
    else Enabled(src, p, events[0]) && Runs(src, Next(src, p, events[0]), events[1..], q)
  }

  lemma NextKeeps(src: Source, budget: nat, p: Pass, e: Event)
    requires Sound(src, budget, p) && Workable(src) && Enabled(src, p, e)
    ensures Sound(src, budget, Next(src, p, e))
    ensures Latched(p.ledger) ==>
      Latched(Next(src, p, e).ledger) && Next(src, p, e).next == p.next && Next(src, p, e).queue.sent == p.queue.sent
  {
    hide Sound, Kept, Compute, Batch, Send, CanAdmit, InFlight;
    if e.Admission? {
      AdmissionKeeps(src, budget, p);
    } else if e.Weighed? {
      WeighedKeeps(src, budget, p);
    } else if e.Cancel? {
      CancelKeeps(src, budget, p);
    } else if e.Flush? {
      FlushKeeps(src, budget, p);
      if Latched(p.ledger) { LatchedFlushSendsNothing(src, budget, p); }
    } else if e.Computed? {
      ComputeKeeps(src, budget, p, e.position, e.ok);
    } else {
      BatchKeeps(src, budget, p, e.group, e.verdicts, e.commitOk);
    }
  }

  lemma AdmissionKeeps(src: Source, budget: nat, p: Pass)
    requires Sound(src, budget, p) && CanAdmit(src, p) && InFlight(p.queue) < src.limit
    ensures !Latched(p.ledger) && Sound(src, budget, Admit(src, p))
  {
    AdmitKeeps(src, budget, p);
  }

  lemma LatchedFlushSendsNothing(src: Source, budget: nat, p: Pass)
    requires Sound(src, budget, p) && Latched(p.ledger)
    ensures Send(p.queue) == p.queue
  {
    hide Kept;
  }

  lemma {:induction false} NoneDecided(d: Decision, n: nat)
    ensures HowMany(map[], d, n) == 0
  {
    if n > 0 { NoneDecided(d, n - 1); }
  }

  lemma StartTells(src: Source, store: map<Key, Fingerprint>, budget: nat)
    ensures Telling(src, Start(store, budget).ledger)
  {
    hide HowMany;
    forall d ensures Figure(NO_REPORT, d) == HowMany(map[], d, |src.keys|) { NoneDecided(d, |src.keys|); }
  }

  lemma StartIsSound(src: Source, budget: nat, store: map<Key, Fingerprint>)
    requires Workable(src)
    ensures Sound(src, budget, Start(store, budget))
  {
    hide Telling;
    StartTells(src, store, budget);
    assert Start(store, budget).charges.Keys - {0} == {};
  }

  lemma {:induction false} RunKeeps(src: Source, budget: nat, p: Pass, events: seq<Event>, q: Pass)
    requires Sound(src, budget, p) && Workable(src) && Runs(src, p, events, q)
    ensures Sound(src, budget, q)
    ensures Latched(p.ledger) ==> Latched(q.ledger) && q.next == p.next && q.queue.sent == p.queue.sent
    decreases |events|
  {
    if events != [] {
      hide Sound, Next, Enabled;
      NextKeeps(src, budget, p, events[0]);
      RunKeeps(src, budget, Next(src, p, events[0]), events[1..], q);
    }
  }

  lemma SoundIsBounded(src: Source, budget: nat, p: Pass)
    requires Sound(src, budget, p)
    ensures p.ledger.budget >= 0 && p.ledger.report.refusals <= 1 && p.ledger.report.halts <= 1
    ensures p.inFlightBytes <= src.gate || InFlight(p.queue) == 1
    ensures Telling(src, p.ledger)
  {
    if InFlight(p.queue) == 0 { IdleHoldsNothing(src, budget, p); }
    hide InFlight, Grouping, Accounted, NoneDropped, Figure, HowMany;
  }

  /** Every reachable state of every schedule, whatever the verdicts, commit failures and cancellations. */
  lemma EveryScheduleIsSound(src: Source, budget: nat, store: map<Key, Fingerprint>, events: seq<Event>, q: Pass)
    requires Workable(src) && Runs(src, Start(store, budget), events, q)
    ensures Sound(src, budget, q)
    ensures q.ledger.budget >= 0 && q.ledger.report.refusals <= 1 && q.ledger.report.halts <= 1
    ensures q.inFlightBytes <= src.gate || InFlight(q.queue) == 1
    ensures forall d :: Figure(q.ledger.report, d) == HowMany(q.ledger.slots, d, |src.keys|)
  {
    hide Sound, Start, Runs, Figure, HowMany;
    StartIsSound(src, budget, store);
    RunKeeps(src, budget, Start(store, budget), events, q);
    SoundIsBounded(src, budget, q);
  }

  /** Once a refusal or an unavailable verdict is folded, nothing more is admitted and no further group is sent. */
  lemma LatchedPassSendsNothing(
      src: Source, budget: nat, store: map<Key, Fingerprint>, before: seq<Event>, p: Pass, after: seq<Event>, q: Pass)
    requires Workable(src) && Runs(src, Start(store, budget), before, p) && Latched(p.ledger)
    requires Runs(src, p, after, q)
    ensures q.queue.sent == p.queue.sent && q.next == p.next && Latched(q.ledger)
  {
    EveryScheduleIsSound(src, budget, store, before, p);
    RunKeeps(src, budget, p, after, q);
  }

  lemma {:induction false} NothingCharged(charges: map<nat, nat>, n: nat)
    requires forall i: nat :: i < n ==> i !in charges
    ensures Total(charges, n) == 0
  {
    if n > 0 { NothingCharged(charges, n - 1); }
  }

  // Conservation at rest: the gate is handed back in full, and every admitted file has its outcome.
  lemma IdleHoldsNothing(src: Source, budget: nat, p: Pass)
    requires Sound(src, budget, p) && InFlight(p.queue) == 0
    ensures p.inFlightBytes == 0 && p.charges.Keys <= {p.next}
    ensures !Latched(p.ledger) ==> (forall i: nat :: i < p.next <==> i in p.ledger.slots)
  {
    CarriedSize(p.queue);
    var charged := p.charges.Keys - {p.next};
    assert forall i :: i in charged <==> i in multiset(charged);
    assert charged == {};
    NothingCharged(p.charges, p.next);
  }

  // --- the loop never blocks and ends ----------------------------------------------------------

  lemma {:induction false} GroupsAreMembers(maxObjects: nat, groups: seq<seq<Staged>>)
    requires forall g :: g in groups ==> Sendable(maxObjects, g)
    ensures |groups| <= Members(groups)
    decreases |groups|
  {
    if groups != [] {
      assert Sendable(maxObjects, groups[0]);
      GroupsAreMembers(maxObjects, groups[1..]);
    }
  }

  // Both channels are buffered to the limit, so no goroutine waits to hand a result back.
  lemma HandingBackNeverBlocks(src: Source, budget: nat, p: Pass)
    requires Sound(src, budget, p)
    ensures |p.queue.computing| <= src.limit && |p.queue.groups| <= src.limit
    ensures InFlight(p.queue) <= src.limit
  {
    GroupsAreMembers(src.maxObjects, p.queue.groups);
  }

  // The select is entered after the flush and with something in flight: some goroutine will answer it.
  lemma SelectNeverStarves(src: Source, budget: nat, p: Pass)
    requires Sound(src, budget, p) && InFlight(p.queue) != 0
    requires p.queue.computing == [] ==> p.queue.staged == []
    ensures exists e: Event :: (e.Computed? || e.BatchDone?) && Enabled(src, p, e)
  {
    if p.queue.computing != [] {
      TakeComputed(src, budget, p, 0);
      assert Enabled(src, p, Computed(0, true));
    } else {
      var size := |p.queue.groups[0]|;
      var verdicts := seq(size, _ => Confirmed);
      var commits := seq(size, _ => true);
      assert Kept(src, budget, p, multiset{});
      BatchKeeps(src, budget, p, 0, verdicts, commits);
      assert Enabled(src, p, BatchDone(0, verdicts, commits));
    }
  }

  // Work left: each file passes from waiting to computing to staged to sent to settled.
  ghost function Work(src: Source, p: Pass): nat {
    9 * (if p.next <= |src.keys| then |src.keys| - p.next else 0) + (if p.next in p.charges then 0 else 1)
    + 6 * |p.queue.computing| + 4 * |p.queue.staged| + 2 * Members(p.queue.groups)
  }

  // A turn of the loop that is not the arrival of the deadline or a flush of nothing.
  predicate Productive(p: Pass, e: Event) { !e.Cancel? && (e.Flush? ==> p.queue.staged != []) }

  lemma SendWorks(q: Queue)
    requires q.staged != []
    ensures Members(Send(q).groups) == Members(q.groups) + |q.staged|
  {
    GroupedConcat(q.groups, [q.staged]);
    assert [q.staged][1..] == [];
  }

  // Staging one more object leaves at most its own weight behind.
  lemma AddStagedWorks(maxObjects: nat, q: Queue, it: Staged)
    ensures var after := AddStaged(maxObjects, q, it);
      4 * |after.staged| + 2 * Members(after.groups) <= 4 * |q.staged| + 2 * Members(q.groups) + 4
    ensures AddStaged(maxObjects, q, it).computing == q.computing
  {
    if q.staged != [] { SendWorks(q); }
    var joined := Join(MakeRoom(q, it), it);
    SendWorks(joined);
  }

  lemma EveryTurnWorks(src: Source, budget: nat, p: Pass, e: Event)
    requires Sound(src, budget, p) && Enabled(src, p, e) && Productive(p, e)
    ensures Work(src, Next(src, p, e)) < Work(src, p)
  {
    if e.Flush? {
      SendWorks(p.queue);
    } else if e.Computed? {
      ComputedWorks(src, p, e.position, e.ok);
    } else if e.BatchDone? {
      BatchWorks(src, budget, p, e.group, e.verdicts, e.commitOk);
    }
  }

  lemma ComputedWorks(src: Source, p: Pass, k: nat, ok: bool)
    requires k < |p.queue.computing| && p.queue.computing[k].idx < |src.keys|
    ensures Work(src, Compute(src, p, k, ok)) < Work(src, p)
  {
    var job := p.queue.computing[k];
    var q := p.queue.(computing := Without(p.queue.computing, k));
    if src.prepare(job.idx, job.fp).Sealed? {
      AddStagedWorks(src.maxObjects, q, Staged(job.idx, src.prepare(job.idx, job.fp).size, src.prepare(job.idx, job.fp).next));
      hide AddStaged;
    }
  }

  lemma BatchWorks(src: Source, budget: nat, p: Pass, g: nat, verdicts: seq<Verdict>, ok: seq<bool>)
    requires Sound(src, budget, p) && Enabled(src, p, BatchDone(g, verdicts, ok))
    ensures Work(src, Batch(src, p, g, verdicts, ok)) < Work(src, p)
  {
    GroupedWithout(p.queue.groups, g);
    assert Sendable(src.maxObjects, p.queue.groups[g]);
    assert Kept(src, budget, p, multiset{});
    hide Kept, SettleGroup, Sound;
    TakeGroup(src, budget, p, g);
    var q := p.(queue := p.queue.(groups := Without(p.queue.groups, g)));
    SettleGroupKeeps(src, budget, q, p.queue.groups[g], verdicts, ok);
    DrainKeeps(src, budget, SettleGroup(src, q, p.queue.groups[g], verdicts, ok));
    hide DrainStaged;
  }

  ghost function Turns(src: Source, p: Pass, events: seq<Event>, q: Pass): nat
    requires Runs(src, p, events, q)
    decreases |events|
  {
    if events == [] then 0
    else (if Productive(p, events[0]) then 1 else 0) + Turns(src, Next(src, p, events[0]), events[1..], q)
  }

  lemma {:induction false} TurnsAreBounded(src: Source, budget: nat, p: Pass, events: seq<Event>, q: Pass)
    requires Sound(src, budget, p) && Workable(src) && Runs(src, p, events, q)
    ensures Turns(src, p, events, q) <= Work(src, p) - Work(src, q)
    decreases |events|
  {
    if events != [] {
      NextKeeps(src, budget, p, events[0]);
      if Productive(p, events[0]) { EveryTurnWorks(src, budget, p, events[0]); } else { IdleTurn(src, budget, p, events[0]); }
      hide Sound, Next, Enabled, Work, Productive;
      TurnsAreBounded(src, budget, Next(src, p, events[0]), events[1..], q);
    }
  }

  lemma IdleTurn(src: Source, budget: nat, p: Pass, e: Event)
    requires Enabled(src, p, e) && !Productive(p, e)
    ensures Work(src, Next(src, p, e)) == Work(src, p)
  {
  }

  /** No schedule takes more than nine turns a file, so the loop ends. */
  lemma EveryScheduleEnds(src: Source, budget: nat, store: map<Key, Fingerprint>, events: seq<Event>, q: Pass)
    requires Workable(src) && Runs(src, Start(store, budget), events, q)
    ensures Turns(src, Start(store, budget), events, q) <= 9 * |src.keys| + 1
  {
    hide Sound, Runs, Work;
    StartIsSound(src, budget, store);
    TurnsAreBounded(src, budget, Start(store, budget), events, q);
    RunKeeps(src, budget, Start(store, budget), events, q);
    WorkIsBounded(src, budget, store, q);
  }

  lemma WorkIsBounded(src: Source, budget: nat, store: map<Key, Fingerprint>, q: Pass)
    requires Sound(src, budget, q)
    ensures Work(src, Start(store, budget)) == 9 * |src.keys| + 1
  {
  }
}
