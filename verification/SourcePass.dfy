/** The pass as the loop goroutine runs it: fields updated in place, results arriving in any order. */
module SourcePass {
  import opened Wrappers
  import opened Fingerprints
  import opened FilePass
  import opened FilePassInvariants
  import opened FilePassRefinement

  lemma {:induction false} RunsExtend(src: Source, p: Pass, events: seq<Event>, q: Pass, e: Event)
    requires Runs(src, p, events, q) && Enabled(src, q, e)
    ensures Runs(src, p, events + [e], Next(src, q, e))
    decreases |events|
  {
    hide Enabled, Next;
    if events == [] {
      assert [e][1..] == [];
    } else {
      RunsExtend(src, Next(src, p, events[0]), events[1..], q, e);
      assert (events + [e])[1..] == events[1..] + [e];
    }
  }

  lemma {:induction false} CalmRunExtends(
      src: Source, verdict: Staged -> Verdict, p: Pass, events: seq<Event>, q: Pass, e: Event)
    requires CalmRun(src, verdict, p, events, q) && Enabled(src, q, e) && Calm(q, e, verdict)
    ensures CalmRun(src, verdict, p, events + [e], Next(src, q, e))
    decreases |events|
  {
    hide Enabled, Next, Calm;
    if events == [] {
      assert [e][1..] == [];
    } else {
      CalmRunExtends(src, verdict, Next(src, p, events[0]), events[1..], q, e);
      assert (events + [e])[1..] == events[1..] + [e];
    }
  }

  // What an admission reserves before the file is handed to a goroutine.
  ghost function Reserved(src: Source, p: Pass): Pass
    requires p.next < |src.keys|
  {
    p.(charges := p.charges[p.next := Charge(src, p, p.next)], ledger := p.ledger.(budget := p.ledger.budget - 1))
  }

  lemma ComputingIsKept(src: Source, budget: nat, p: Pass, k: nat)
    requires Sound(src, budget, p) && k < |p.queue.computing|
    ensures p.queue.computing[k].idx < |src.keys| && (p.queue.staged == [] ==> p.queue.stagedBytes == 0)
  {
    TakeComputed(src, budget, p, k);
  }

  lemma FlushOpensNoGate(src: Source, budget: nat, p: Pass)
    requires Sound(src, budget, p) && p.queue.computing == []
    ensures p.queue.staged == [] ==> p.queue.stagedBytes == 0
    ensures InFlight(Send(p.queue)) == InFlight(p.queue) && Send(p.queue).staged == []
    ensures Enabled(src, p, Flush) && Next(src, p, Flush) == p.(queue := Send(p.queue))
    ensures FilePass.CanAdmit(src, Next(src, p, Flush)) == FilePass.CanAdmit(src, p)
  {
    SendKeeps(src.maxObjects, p.queue);
  }

  lemma TurnNeverAdds(src: Source, budget: nat, p: Pass, e: Event)
    requires Sound(src, budget, p) && Enabled(src, p, e)
    ensures Work(src, Next(src, p, e)) <= Work(src, p)
    ensures e.Admission? ==> Work(src, Next(src, p, e)) < Work(src, p)
  {
    hide Work, Next, Enabled, Sound;
    if Productive(p, e) { EveryTurnWorks(src, budget, p, e); } else { IdleTurn(src, budget, p, e); }
  }

  // A state of this pass, and the events that led to it.
  ghost predicate Reached(c: Setting, calm: bool, events: seq<Event>, p: Pass) {
    && Sound(c.src, c.budget, p)
    && Runs(c.src, Start(c.store, c.budget), events, p)
    && (calm ==> CalmRun(c.src, c.verdict, Start(c.store, c.budget), events, p))
  }

  lemma StartIsReached(c: Setting, calm: bool)
    requires Workable(c.src)
    ensures Reached(c, calm, [], Start(c.store, c.budget))
  {
    hide Sound, Start, Workable;
    StartIsSound(c.src, c.budget, c.store);
  }

  lemma Advance(c: Setting, calm: bool, events: seq<Event>, p: Pass, e: Option<Event>, q: Pass)
    requires Reached(c, calm, events, p) && Workable(c.src)
    requires if e.None? then q == p else Enabled(c.src, p, e.value) && q == Next(c.src, p, e.value)
    requires e.Some? && calm ==> Calm(p, e.value, c.verdict)
    ensures Reached(c, calm, Continued(events, e), q) && Work(c.src, q) <= Work(c.src, p)
    ensures e == Some(Admission) ==> Work(c.src, q) < Work(c.src, p)
  {
    hide Sound, Runs, CalmRun, Enabled, Next, Calm, Workable, Work, Start;
    if e.Some? {
      RunsExtend(c.src, Start(c.store, c.budget), events, p, e.value);
      NextKeeps(c.src, c.budget, p, e.value);
      TurnNeverAdds(c.src, c.budget, p, e.value);
      if calm { CalmRunExtends(c.src, c.verdict, Start(c.store, c.budget), events, p, e.value); }
    }
  }

  // The outcomes of the first n candidates, in candidate order however the work finished.
  ghost function Files(slots: map<nat, Outcome>, n: nat): seq<(nat, Outcome)> {
    if n == 0 then [] else Files(slots, n - 1) + (if n - 1 in slots then [(n - 1, slots[n - 1])] else [])
  }

  lemma {:induction false} FilesKeepCandidateOrder(slots: map<nat, Outcome>, n: nat)
    ensures forall i, o :: (i, o) in Files(slots, n) <==> i < n && i in slots && slots[i] == o
    ensures forall a, b :: 0 <= a < b < |Files(slots, n)| ==> Files(slots, n)[a].0 < Files(slots, n)[b].0
  {
    if n > 0 {
      FilesKeepCandidateOrder(slots, n - 1);
      var before := Files(slots, n - 1);
      forall a | 0 <= a < |before| ensures before[a].0 < n - 1 {
        assert (before[a].0, before[a].1) in before;
      }
    }
  }

  ghost function Continued(events: seq<Event>, e: Option<Event>): seq<Event> {
    if e.None? then events else events + [e.value]
  }

  lemma CalmEndsAlike(c: Setting, events: seq<Event>, q: Pass)
    requires Workable(c.src) && Distinct(c.src.keys) && Harmless(c.verdict)
    requires CalmRun(c.src, c.verdict, Start(c.store, c.budget), events, q) && Finished(c.src, q)
    ensures OneAtATime(c.src, c.verdict, 0, Start(c.store, c.budget).ledger) == (q.next, q.ledger)
  {
    PassRefinesOneAtATime(c, events, q);
  }

  class SourcePass {
    const src: Source
    // Whether this schedule has no deadline, no failed commit and only the port's own verdicts.
    const calm: bool
    const port: Staged -> Verdict
    // The budget and the store the pass started with.
    ghost const allowance: nat
    ghost const origin: map<Key, Fingerprint>

    var budget: int
    var store: map<Key, Fingerprint>
    var slots: array<Option<Outcome>>
    var report: Report
    var inFlightBytes: int
    var charges: map<nat, nat>
    var fatal: bool
    var uploadHalted: bool
    var offline: bool
    var staged: seq<Staged>
    var stagedBytes: nat
    var next: nat
    var stopped: bool

    // The goroutines: computations under way, groups sent and not yet answered.
    var computing: seq<Job>
    var groups: seq<seq<Staged>>
    var sent: nat

    ghost predicate Valid()
      reads this
    {
      slots.Length == |src.keys|
    }

    ghost function Filled(): map<nat, Outcome>
      reads this`slots, slots
    {
      map i: nat | i < slots.Length && slots[i].Some? :: slots[i].value
    }

    ghost function Ledger(): Ledger
      reads this, slots
    {
      FilePass.Ledger(budget, store, Filled(), report, fatal, uploadHalted, offline)
    }

    function Queue(): Queue
      reads `computing, `staged, `stagedBytes, `groups, `sent
    {
      FilePass.Queue(computing, staged, stagedBytes, groups, sent)
    }

    ghost function State(): Pass
      reads this, slots
    {
      Pass(next, stopped, inFlightBytes, charges, Queue(), Ledger())
    }

    constructor (src: Source, calm: bool, port: Staged -> Verdict, store: map<Key, Fingerprint>, budget: nat)
      ensures Valid() && fresh(slots)
      ensures this.src == src && this.calm == calm && this.port == port
      ensures allowance == budget && origin == store && State() == Start(store, budget)
    {
      this.src, this.calm, this.port := src, calm, port;
      allowance, origin := budget, store;
      this.store, this.budget := store, budget;
      slots := new Option<Outcome>[|src.keys|](_ => None);
      report, inFlightBytes, charges := NO_REPORT, 0, map[];
      fatal, uploadHalted, offline, stopped := false, false, false, false;
      staged, stagedBytes, computing, groups, sent, next := [], 0, [], [], 0, 0;
      new;
      assert Filled() == map[];
    }

    method ChargeOf(i: nat) returns (charge: nat)
      requires Valid() && i < |src.keys|
      modifies `charges
      ensures charge == FilePass.Charge(src, old(State()), i)
      ensures State() == old(State()).(charges := old(charges)[i := charge])
    {
      if i !in charges { charges := charges[i := src.weigh(i, Lookup(store, src.keys[i]))]; }
      charge := charges[i];
      assert charges == old(charges)[i := charge];
    }

    // Every gate on starting one more file, in the order they matter. The deadline is noticed here.
    method CanAdmit(inFlight: nat) returns (ok: bool)
      requires Valid() && inFlight == InFlight(Queue())
      modifies `charges, `budget, `stopped
      ensures ok ==> FilePass.CanAdmit(src, old(State())) && State() == Reserved(src, old(State()))
      ensures !ok ==> !FilePass.CanAdmit(src, State())
      ensures !ok ==>
        || State() == old(State())
        || (!calm && State() == FilePass.Next(src, old(State()), Cancel))
        || (Enabled(src, old(State()), Weighed) && State() == FilePass.Next(src, old(State()), Weighed))
    {
      if stopped || fatal || uploadHalted || next >= |src.keys| { return false; }
      var expired: bool := *;
      if expired && !calm {
        stopped := true;
        return false;
      }
      if budget <= 0 { return false; }
      var size := ChargeOf(next);
      assert charges == old(charges)[next := size];
      if inFlight > 0 && inFlightBytes + size > src.gate {
        if next in old(charges) { assert charges == old(charges); }
        return false;
      }
      budget := budget - 1;
      return true;
    }

    // Makes a result durable; a failed commit rewrites the outcome before it is counted.
    method ApplyIntent(r: Result, commits: bool) returns (outcome: Outcome)
      requires Valid() && r.idx < |src.keys|
      modifies `store
      ensures outcome == Committed(r, commits)
      ensures outcome == if commits || r.intent.None? || r.intent.value.kind == Backoff then r.outcome else Outcome(FilePass.Failed, r.outcome.fatal)
      ensures store == Stored(src, old(Ledger()), r)
    {
      outcome := r.outcome;
      if r.intent.None? { return; }
      store := store[src.keys[r.idx] := r.intent.value.fp];
      if commits { return; }
      match r.intent.value.kind
      case Refresh => outcome := outcome.(decision := Failed);
      case ShippedIntent => outcome := outcome.(decision := Failed);
      case Backoff =>
    }

    method Record(i: nat, outcome: Outcome)
      requires Valid() && i < |src.keys|
      modifies slots
      ensures Filled() == old(Filled())[i := outcome]
    {
      slots[i] := Some(outcome);
    }

    method CountOutcome(outcome: Outcome, unavailable: bool)
      modifies `report, `budget
      ensures report == Count(old(report), outcome, unavailable)
      ensures budget == if Refunded(outcome.decision) then old(budget) + 1 else old(budget)
    {
      match outcome.decision
      case Shipped => report := report.(shipped := report.shipped + 1);
      case Unchanged => report := report.(same := report.same + 1); budget := budget + 1;
      case Skipped => report := report.(skipped := report.skipped + 1); budget := budget + 1;
      case Parked => report := report.(parked := report.parked + 1);
      case Failed =>
        report := report.(failed := report.failed + 1,
          refusals := report.refusals + (if outcome.fatal then 1 else 0),
          halts := report.halts + (if !outcome.fatal && unavailable then 1 else 0));
    }

    // The only place a result touches the report, the store and the outcomes.
    method Fold(r: Result, commits: bool)
      requires Valid() && r.idx < |src.keys|
      modifies `store, `report, `budget, `fatal, `uploadHalted, `offline, slots
      ensures Ledger() == FilePass.Fold(src, old(Ledger()), r, commits)
    {
      hide Lookup, Refunded, Count, Stored, Committed, Filled;
      if (r.outcome.fatal && fatal) || (r.unavailable && uploadHalted) {
        var _ := ApplyIntent(r, commits);
        return;
      }
      var outcome := ApplyIntent(r, commits);
      Record(r.idx, outcome);
      CountOutcome(outcome, r.unavailable);
      if outcome.fatal {
        fatal := true;
        return;
      }
      if r.unavailable {
        uploadHalted := true;
        offline := r.offline;
      }
    }

    // Releases a decided file's share of the gate, then folds it; every exit ends here.
    method Settle(r: Result, commits: bool)
      requires Valid() && r.idx < |src.keys|
      modifies `store, `report, `budget, `fatal, `uploadHalted, `offline, `inFlightBytes, `charges, slots
      ensures State() == FilePass.Settle(src, old(State()), r, commits)
    {
      hide FilePass.Fold, FilePass.Charge, Filled, Queue;
      var share := ChargeOf(r.idx);
      charges := charges - {r.idx};
      assert charges == old(charges) - {r.idx};
      inFlightBytes := inFlightBytes - share;
      assert Ledger() == old(Ledger()) && Queue() == old(Queue());
      Fold(r, commits);
    }

    // --- the accumulator -----------------------------------------------------------------------

    method Take() returns (items: seq<Staged>)
      modifies `staged, `stagedBytes
      ensures items == old(staged) && staged == [] && stagedBytes == 0
    {
      items := staged;
      staged, stagedBytes := [], 0;
    }

    method Flush()
      requires staged == [] ==> stagedBytes == 0
      modifies `staged, `stagedBytes, `groups, `sent
      ensures Queue() == Send(old(Queue()))
    {
      var items := Take();
      if |items| > 0 {
        groups := groups + [items];
        sent := sent + 1;
      }
    }

    method Add(it: Staged)
      requires staged == [] ==> stagedBytes == 0
      modifies `staged, `stagedBytes, `groups, `sent
      ensures Queue() == AddStaged(src.maxObjects, old(Queue()), it)
    {
      if |staged| > 0 && stagedBytes + it.size > MAX_BATCH_BYTES { Flush(); }
      staged := staged + [it];
      stagedBytes := stagedBytes + it.size;
      if |staged| >= src.maxObjects || stagedBytes >= MAX_BATCH_BYTES { Flush(); }
    }

    // A result means the object was decided here, because a latch is set.
    method StageUpload(it: Staged) returns (decided: Option<Result>)
      requires staged == [] ==> stagedBytes == 0
      modifies `staged, `stagedBytes, `groups, `sent
      ensures Latched(Ledger()) ==> decided == Some(Abandoned(Ledger(), it)) && Queue() == old(Queue())
      ensures !Latched(Ledger()) ==> decided.None? && Queue() == AddStaged(src.maxObjects, old(Queue()), it)
    {
      if fatal || uploadHalted { return Some(Result(it.idx, Outcome(Failed, fatal), None, !fatal, false)); }
      Add(it);
      return None;
    }

    // Empties the accumulator once the pass has stopped uploading.
    method DrainStaged() returns (results: seq<Result>)
      modifies `staged, `stagedBytes
      ensures Latched(Ledger()) ==>
        && |results| == |old(staged)|
        && (forall i :: 0 <= i < |results| ==> results[i] == Abandoned(Ledger(), old(staged)[i]))
      ensures !Latched(Ledger()) ==> results == []
      ensures Queue() == if results == [] then old(Queue()) else old(Queue()).(staged := [], stagedBytes := 0)
    {
      if |staged| == 0 || (!fatal && !uploadHalted) { return []; }
      var items := Take();
      results := [];
      while |results| < |items|
        invariant |results| <= |items|
        invariant forall i :: 0 <= i < |results| ==> results[i] == Abandoned(Ledger(), items[i])
      {
        results := results + [Result(items[|results|].idx, Outcome(Failed, fatal), None, !fatal, false)];
      }
    }

    // --- the select ----------------------------------------------------------------------------

    // One authorization, then one PUT per member; `commits` says which fingerprints can be recorded.
    // The answers are arbitrary unless the run is calm.
    method SendBatch(items: seq<Staged>) returns (verdicts: seq<Verdict>, commits: seq<bool>)
      ensures |verdicts| == |commits| == |items|
      ensures calm ==> Answered(items, verdicts, port) && AllCommitted(commits)
    {
      verdicts, commits := [], [];
      while |verdicts| < |items|
        invariant |commits| == |verdicts| <= |items|
        invariant calm ==> Answered(items[..|verdicts|], verdicts, port) && AllCommitted(commits)
      {
        var it := items[|verdicts|];
        var verdict: Verdict := *;
        var ok: bool := *;
        verdicts := verdicts + [if calm then port(it) else verdict];
        commits := commits + [calm || ok];
      }
      assert items[..|verdicts|] == items;
    }

    // A computation finished: the file is decided here, or joins an authorization group.
    method Receive(k: nat) returns (ghost e: Event)
      requires Valid() && k < |computing| && computing[k].idx < |src.keys|
      requires staged == [] ==> stagedBytes == 0
      modifies this, slots
      ensures Valid() && slots == old(slots)
      ensures e.Computed? && Enabled(src, old(State()), e) && State() == FilePass.Next(src, old(State()), e)
      ensures calm ==> Calm(old(State()), e, port)
    {
      hide FilePass.Settle, AddStaged, Filled, InFlight, FilePass.Charge;
      var job := computing[k];
      var ok: bool := *;
      ok := ok || calm;
      e := Computed(k, ok);
      computing := Without(computing, k);
      match src.prepare(job.idx, job.fp)
      case Decided(decision, intent) => Settle(Result(job.idx, Outcome(decision, false), intent, false, false), ok);
      case Sealed(size, next) =>
        var decided := StageUpload(Staged(job.idx, size, next));
        if decided.Some? { Settle(decided.value, true); }
    }

    method SettleAll(items: seq<Staged>, verdicts: seq<Verdict>, commits: seq<bool>)
      requires Valid() && |items| == |verdicts| == |commits|
      requires Kept(src, allowance, State(), Items(items))
      modifies `store, `report, `budget, `fatal, `uploadHalted, `offline, `inFlightBytes, `charges, slots
      ensures InRange(src, items) && State() == SettleGroup(src, old(State()), items, verdicts, commits)
    {
      hide Kept, FilePass.Settle, Filled, Queue;
      ghost var before := State();
      SettleGroupKeeps(src, allowance, before, items, verdicts, commits);
      var j := 0;
      while j < |items|
        invariant 0 <= j <= |items| && Kept(src, allowance, State(), Items(items[j..]))
        invariant SettleGroup(src, before, items, verdicts, commits)
                  == SettleGroup(src, State(), items[j..], verdicts[j..], commits[j..])
      {
        ghost var left := items[j..];
        assert left[1..] == items[j + 1..] && verdicts[j..][1..] == verdicts[j + 1..] && commits[j..][1..] == commits[j + 1..];
        UploadedIsGenuine(items[j], verdicts[j]);
        SettleKeeps(src, allowance, State(), Uploaded(items[j], verdicts[j]), commits[j], Items(left));
        assert Items(left) - multiset{items[j].idx} == Items(items[j + 1..]);
        Settle(Uploaded(items[j], verdicts[j]), commits[j]);
        j := j + 1;
      }
    }

    // Settles what the latch left unsent: none of it changes the report or the store.
    method Abandon(ghost items: seq<Staged>, results: seq<Result>)
      requires Valid() && Latched(Ledger()) && Kept(src, allowance, State(), Items(items))
      requires |results| == |items| && forall i :: 0 <= i < |items| ==> results[i] == Abandoned(Ledger(), items[i])
      modifies `store, `report, `budget, `fatal, `uploadHalted, `offline, `inFlightBytes, `charges, slots
      ensures InRange(src, items) && State() == SettleAbandoned(src, old(State()), items)
    {
      hide Kept, FilePass.Settle, Filled, Queue, Abandoned;
      ghost var before := State();
      SettleAbandonedKeeps(src, allowance, before, items);
      var j := 0;
      while j < |results|
        invariant 0 <= j <= |items| && Kept(src, allowance, State(), Items(items[j..]))
        invariant Ledger() == before.ledger
        invariant SettleAbandoned(src, before, items) == SettleAbandoned(src, State(), items[j..])
      {
        ghost var left := items[j..];
        assert left[1..] == items[j + 1..];
        HeldInRange(src, allowance, State(), Items(left), items[j].idx);
        AbandonedChangesNothing(src, State(), items[j]);
        SettleKeeps(src, allowance, State(), results[j], true, Items(left));
        assert Items(left) - multiset{items[j].idx} == Items(items[j + 1..]);
        Settle(results[j], true);
        j := j + 1;
      }
    }

    method Drain()
      requires Valid() && Kept(src, allowance, State(), multiset{})
      modifies this, slots
      ensures Valid() && slots == old(slots) && InRange(src, old(staged))
      ensures State() == FilePass.DrainStaged(src, old(State()))
    {
      hide Kept, SettleAbandoned, Filled, Abandoned;
      DrainKeeps(src, allowance, State());
      ghost var unsent := staged;
      ghost var before := State();
      var results := DrainStaged();
      if |results| > 0 {
        DrainHolds(src, allowance, before);
        Abandon(unsent, results);
      }
    }

    // A group was answered: every member is settled, then whatever a new latch left unsent.
    method Collect(g: nat) returns (ghost e: Event)
      requires Valid() && Sound(src, allowance, State()) && g < |groups|
      modifies this, slots
      ensures Valid() && slots == old(slots)
      ensures e.BatchDone? && Enabled(src, old(State()), e) && State() == FilePass.Next(src, old(State()), e)
      ensures calm ==> Calm(old(State()), e, port)
    {
      hide Kept, SettleGroup, FilePass.DrainStaged, Filled, Without, Answered, AllCommitted;
      var items := groups[g];
      var verdicts, commits := SendBatch(items);
      e := BatchDone(g, verdicts, commits);
      BatchKeeps(src, allowance, State(), g, verdicts, commits);
      TakeGroup(src, allowance, State(), g);
      groups := Without(groups, g);
      SettleGroupKeeps(src, allowance, State(), items, verdicts, commits);
      SettleAll(items, verdicts, commits);
      Drain();
    }

    // The select: whichever goroutine answers first.
    method Select() returns (ghost e: Event)
      requires Valid() && Sound(src, allowance, State()) && InFlight(Queue()) != 0
      requires computing == [] ==> staged == []
      modifies this, slots
      ensures Valid() && slots == old(slots) && Productive(old(State()), e)
      ensures Enabled(src, old(State()), e) && State() == FilePass.Next(src, old(State()), e)
      ensures calm ==> Calm(old(State()), e, port)
    {
      hide Sound, Filled, FilePass.Next, Enabled, Calm;
      ghost var before := State();
      var first: bool := *;
      var k: nat := *;
      if computing != [] && (groups == [] || first) {
        ComputingIsKept(src, allowance, State(), k % |computing|);
        e := Receive(k % |computing|);
      } else {
        assert groups != [];
        e := Collect(k % |groups|);
      }
    }

    // --- the loop ------------------------------------------------------------------------------

    ghost function Setting(): Setting { FilePassRefinement.Setting(src, port, origin, allowance) }

    // Starts one file if every gate allows it.
    method AdmitOne(inFlight: nat) returns (ok: bool, ghost e: Option<Event>)
      requires Valid() && Workable(src) && inFlight == InFlight(Queue()) < src.limit
      modifies `charges, `budget, `stopped, `computing, `next, `inFlightBytes
      ensures ok ==> e == Some(Admission)
      ensures e.None? ==> State() == old(State())
      ensures e.Some? ==> Enabled(src, old(State()), e.value) && State() == FilePass.Next(src, old(State()), e.value)
      ensures e.Some? && calm ==> Calm(old(State()), e.value, port)
      ensures !ok ==> !FilePass.CanAdmit(src, State()) && Queue() == old(Queue()) && (e == None || e.value.Weighed? || e.value.Cancel?)
    {
      hide Filled, FilePass.Charge, Members;
      ghost var before := State();
      ok := CanAdmit(inFlight);
      if ok {
        var job := Job(next, Lookup(store, src.keys[next]));
        inFlightBytes := inFlightBytes + charges[next];
        computing := computing + [job];
        next := next + 1;
        return true, Some(Admission);
      }
      e := if State() == before then None else if stopped != before.stopped then Some(Cancel) else Some(Weighed);
    }

    method FillOne(ghost events: seq<Event>) returns (open: bool, ghost after: seq<Event>)
      requires Valid() && Workable(src) && InFlight(Queue()) < src.limit
      requires Reached(Setting(), calm, events, State())
      modifies `charges, `budget, `stopped, `computing, `next, `inFlightBytes
      ensures Reached(Setting(), calm, after, State()) && Work(src, State()) <= old(Work(src, State()))
      ensures open ==> Work(src, State()) < old(Work(src, State()))
      ensures !open ==> !FilePass.CanAdmit(src, State())
    {
      hide Reached, FilePass.Next, FilePass.CanAdmit, Enabled, Calm, Work, InFlight, Workable;
      ghost var e;
      open, e := AdmitOne(InFlight(Queue()));
      after := Continued(events, e);
      Advance(Setting(), calm, events, old(State()), e, State());
    }

    // Starts files, in order, until a slot or a gate says no.
    method Fill(ghost events: seq<Event>) returns (ghost after: seq<Event>)
      requires Valid() && Workable(src) && Reached(Setting(), calm, events, State())
      modifies `charges, `budget, `stopped, `computing, `next, `inFlightBytes
      ensures Reached(Setting(), calm, after, State()) && Work(src, State()) <= old(Work(src, State()))
      ensures InFlight(Queue()) < src.limit ==> !FilePass.CanAdmit(src, State())
    {
      hide Reached, Work, InFlight, Workable, FilePass.CanAdmit, Filled;
      after := events;
      var open := true;
      while open && InFlight(Queue()) < src.limit
        invariant Reached(Setting(), calm, after, State()) && Work(src, State()) <= old(Work(src, State()))
        invariant !open ==> !FilePass.CanAdmit(src, State())
        decreases open, Work(src, State())
      {
        open, after := FillOne(after);
      }
    }

    // Nothing else can join the accumulator, so what is held goes out rather than wait.
    method SendHeld(ghost events: seq<Event>) returns (ghost after: seq<Event>)
      requires Valid() && Workable(src) && Reached(Setting(), calm, events, State()) && computing == []
      modifies `staged, `stagedBytes, `groups, `sent
      ensures Reached(Setting(), calm, after, State()) && Work(src, State()) <= old(Work(src, State()))
      ensures InFlight(Queue()) == old(InFlight(Queue())) && staged == []
      ensures FilePass.CanAdmit(src, State()) == FilePass.CanAdmit(src, old(State()))
    {
      hide Sound, Runs, CalmRun, FilePass.Next, FilePass.CanAdmit, Enabled, Work, Workable, Start, Filled, Send, InFlight;
      FlushOpensNoGate(src, allowance, State());
      Flush();
      after := Continued(events, Some(Event.Flush));
      Advance(Setting(), calm, events, old(State()), Some(Event.Flush), State());
    }

    /**
     * The whole pass. It ends, whatever finishes when; every field follows the transition system; and a
     * calm run over distinct keys ends exactly where taking one file at a time would.
     */
    method Run() returns (ghost events: seq<Event>)
      requires Valid() && Workable(src) && State() == Start(origin, allowance)
      modifies this, slots
      ensures Reached(Setting(), calm, events, State()) && Finished(src, State())
      ensures calm && Distinct(src.keys) && Harmless(port) ==>
        OneAtATime(src, port, 0, Start(origin, allowance).ledger) == (next, Ledger())
    {
      hide Sound, Runs, CalmRun, FilePass.Next, FilePass.CanAdmit, Calm, Work, Start, Filled, Send;
      StartIsReached(Setting(), calm);
      events := [];
      while true
        invariant Valid() && slots == old(slots) && Reached(Setting(), calm, events, State())
        decreases Work(src, State())
      {
        events := Fill(events);
        if computing == [] { events := SendHeld(events); }
        if InFlight(Queue()) == 0 { break; }
        ghost var waiting := State();
        ghost var e := Select();
        Advance(Setting(), calm, events, waiting, Some(e), State());
        EveryTurnWorks(src, allowance, waiting, e);
        events := events + [e];
      }
      if calm && Distinct(src.keys) && Harmless(port) { CalmEndsAlike(Setting(), events, State()); }
    }

    // Moves the outcomes into the report; a file never decided has none.
    method Assemble() returns (files: seq<(nat, Outcome)>)
      requires Valid()
      ensures files == Files(Filled(), |src.keys|)
    {
      files := [];
      for i := 0 to slots.Length
        invariant files == Files(Filled(), i)
      {
        if slots[i].Some? { files := files + [(i, slots[i].value)]; }
      }
    }
  }
}
