/** Shipping what one enricher derived: one group at a time, on the caller's own thread. */
module DerivedUploads {
  import opened Wrappers
  import FilePass

  // What preparing a derived object comes to, and what became of it in the end.
  datatype Work = Same | Broken | Preview | Wanted(size: nat)
  datatype Fate = Shipped | Unchanged | WouldShip | Failed | Stopped | NotAttempted

  datatype Member = Member(idx: nat, size: nat)

  // How many entries met this fate.
  ghost function Count(fates: seq<Option<Fate>>, fate: Fate): nat
    decreases |fates|
  {
    if fates == [] then 0 else Count(fates[..|fates| - 1], fate) + (if fates[|fates| - 1] == Some(fate) then 1 else 0)
  }

  lemma {:induction false} CountUpdates(fates: seq<Option<Fate>>, i: nat, next: Fate, fate: Fate)
    requires i < |fates| && fates[i].None?
    ensures Count(fates[i := Some(next)], fate) == Count(fates, fate) + (if next == fate then 1 else 0)
    decreases |fates|
  {
    var before := fates[..|fates| - 1];
    if i < |fates| - 1 {
      assert fates[i := Some(next)][..|fates| - 1] == before[i := Some(next)];
      CountUpdates(before, i, next, fate);
    } else {
      assert fates[i := Some(next)][..|fates| - 1] == before;
    }
  }

  lemma {:induction false} NoneCounted(fates: seq<Option<Fate>>, fate: Fate)
    requires forall i :: 0 <= i < |fates| ==> fates[i].None?
    ensures Count(fates, fate) == 0
    decreases |fates|
  {
    if fates != [] { NoneCounted(fates[..|fates| - 1], fate); }
  }

  // --- which groups are sent, and when ------------------------------------------------------------

  // The verdict on the k-th member of a group sent; any function.
  type Answers = (seq<Member>, nat) -> FilePass.Verdict

  // The accumulator, and the groups sent so far.
  datatype Batch = Batch(items: seq<Member>, bytes: nat, sent: seq<seq<Member>>)

  function Send(b: Batch): Batch {
    if b.items == [] then b else Batch([], 0, b.sent + [b.items])
  }

  function Displaced(b: Batch, it: Member): Batch {
    if b.items != [] && b.bytes + it.size > FilePass.MAX_BATCH_BYTES then Send(b) else b
  }

  predicate Full(items: seq<Member>, bytes: nat) {
    |items| >= FilePass.MAX_BATCH_OBJECTS || bytes >= FilePass.MAX_BATCH_BYTES
  }

  function Put(b: Batch, it: Member): Batch {
    var d := Displaced(b, it);
    var joined := Batch(d.items + [it], d.bytes + it.size, d.sent);
    if Full(joined.items, joined.bytes) then Send(joined) else joined
  }

  predicate Stops(answers: Answers, group: seq<Member>) {
    exists k: nat | k < |group| :: FilePass.StopsRun(answers(group, k))
  }

  predicate Halted(answers: Answers, sent: seq<seq<Member>>) {
    exists g: nat | g < |sent| :: Stops(answers, sent[g])
  }

  // Objects from the i-th on, the rest of the accumulator sent at the end.
  function Ship(answers: Answers, objects: seq<Work>, i: nat, b: Batch): Batch
    requires i <= |objects|
    decreases |objects| - i
  {
    if i == |objects| then Send(b)
    else if !Halted(answers, b.sent) && objects[i].Wanted?
    then Ship(answers, objects, i + 1, Put(b, Member(i, objects[i].size)))
    else Ship(answers, objects, i + 1, b)
  }

  // The accumulator and the groups sent when the i-th object is come to.
  ghost function Before(answers: Answers, objects: seq<Work>, i: nat): Batch
    requires i <= |objects|
  {
    if i == 0 then Batch([], 0, [])
    else
      var b := Before(answers, objects, i - 1);
      if !Halted(answers, b.sent) && objects[i - 1].Wanted? then Put(b, Member(i - 1, objects[i - 1].size)) else b
  }

  function Groups(answers: Answers, objects: seq<Work>): seq<seq<Member>> {
    Ship(answers, objects, 0, Batch([], 0, [])).sent
  }

  // --- what goes out after a stop -----------------------------------------------------------------

  function Bytes(group: seq<Member>): nat {
    if group == [] then 0 else Bytes(group[..|group| - 1]) + group[|group| - 1].size
  }

  predicate FirstStop(answers: Answers, sent: seq<seq<Member>>, n: nat) {
    n < |sent| && Stops(answers, sent[n]) && forall m: nat | m < n :: !Stops(answers, sent[m])
  }

  // Object i is the next one wanted after the group, which was not full and could not take it too.
  predicate Displaces(objects: seq<Work>, group: seq<Member>, i: nat) {
    && group != [] && group[|group| - 1].idx < i < |objects| && objects[i].Wanted?
    && (forall j | group[|group| - 1].idx < j < i :: !objects[j].Wanted?)
    && !Full(group, Bytes(group)) && Bytes(group) + objects[i].size > FilePass.MAX_BATCH_BYTES
  }

  // The accumulator holds the last objects wanted, up to the i-th, and is not full.
  ghost predicate Accumulates(objects: seq<Work>, i: nat, b: Batch)
    requires i <= |objects|
  {
    b.bytes == Bytes(b.items) && !Full(b.items, b.bytes) &&
    (b.items != [] ==>
       b.items[|b.items| - 1].idx < i && forall j | b.items[|b.items| - 1].idx < j < i :: !objects[j].Wanted?)
  }

  lemma {:induction false} HaltedShips(answers: Answers, objects: seq<Work>, i: nat, b: Batch)
    requires i <= |objects| && Halted(answers, b.sent)
    ensures Ship(answers, objects, i, b) == Send(b)
    decreases |objects| - i
  {
    if i < |objects| { HaltedShips(answers, objects, i + 1, b); }
  }

  lemma Appended(answers: Answers, sent: seq<seq<Member>>, group: seq<Member>)
    ensures Halted(answers, sent + [group]) <==> Halted(answers, sent) || Stops(answers, group)
    ensures !Halted(answers, sent) && Stops(answers, group) ==> FirstStop(answers, sent + [group], |sent|)
  {
    var all := sent + [group];
    if Stops(answers, group) { assert Stops(answers, all[|sent|]); }
    if g: nat :| g < |sent| && Stops(answers, sent[g]) { assert Stops(answers, all[g]); }
  }

  // After the first stop nothing is sent but the one object that displaced the stopping group.
  ghost predicate LateOnlyIfDisplacing(answers: Answers, objects: seq<Work>, sent: seq<seq<Member>>) {
    forall n: nat | FirstStop(answers, sent, n) ::
      && (|sent| > n + 1 <==> exists i: nat :: Displaces(objects, sent[n], i))
      && (forall i: nat | Displaces(objects, sent[n], i) :: sent[n + 1..] == [[Member(i, objects[i].size)]])
  }

  lemma FirstStopIsUnique(answers: Answers, sent: seq<seq<Member>>, m: nat, n: nat)
    requires FirstStop(answers, sent, m) && FirstStop(answers, sent, n)
    ensures m == n
  {
  }

  // The stop came from the group this object filled up: nothing follows.
  lemma StopOfAFullGroup(answers: Answers, objects: seq<Work>, sent: seq<seq<Member>>, group: seq<Member>)
    requires !Halted(answers, sent) && Full(group, Bytes(group)) && Stops(answers, group)
    ensures LateOnlyIfDisplacing(answers, objects, sent + [group])
  {
    Appended(answers, sent, group);
    forall n: nat | FirstStop(answers, sent + [group], n) ensures n == |sent| {
      FirstStopIsUnique(answers, sent + [group], n, |sent|);
    }
  }

  // The stop came from the group this object displaced: the object follows, alone.
  lemma StopOfADisplacedGroup(answers: Answers, objects: seq<Work>, sent: seq<seq<Member>>, group: seq<Member>, i: nat)
    requires !Halted(answers, sent) && Stops(answers, group) && Displaces(objects, group, i)
    ensures LateOnlyIfDisplacing(answers, objects, sent + [group] + [[Member(i, objects[i].size)]])
  {
    var all := sent + [group] + [[Member(i, objects[i].size)]];
    Appended(answers, sent, group);
    assert FirstStop(answers, all, |sent|) by {
      assert forall m: nat | m <= |sent| :: all[m] == (sent + [group])[m];
    }
    forall n: nat | FirstStop(answers, all, n) ensures n == |sent| {
      FirstStopIsUnique(answers, all, n, |sent|);
    }
    forall j: nat | Displaces(objects, group, j) ensures j == i {
    }
  }

  lemma {:induction false} ShipLate(answers: Answers, objects: seq<Work>, i: nat, b: Batch)
    requires i <= |objects| && Accumulates(objects, i, b) && !Halted(answers, b.sent)
    ensures LateOnlyIfDisplacing(answers, objects, Ship(answers, objects, i, b).sent)
    decreases |objects| - i
  {
    hide Halted, Stops, Put, LateOnlyIfDisplacing;
    if i == |objects| {
      StopAtTheEnd(answers, objects, b);
    } else if !objects[i].Wanted? {
      ShipLate(answers, objects, i + 1, b);
    } else {
      PutLate(answers, objects, i, b);
      var next := Put(b, Member(i, objects[i].size));
      if !Halted(answers, next.sent) { ShipLate(answers, objects, i + 1, next); }
    }
  }

  lemma StopAtTheEnd(answers: Answers, objects: seq<Work>, b: Batch)
    requires Accumulates(objects, |objects|, b) && !Halted(answers, b.sent)
    ensures LateOnlyIfDisplacing(answers, objects, Send(b).sent)
  {
    if b.items != [] && Stops(answers, b.items) {
      Appended(answers, b.sent, b.items);
      forall n: nat | FirstStop(answers, b.sent + [b.items], n) ensures n == |b.sent| {
        FirstStopIsUnique(answers, b.sent + [b.items], n, |b.sent|);
      }
    } else if b.items != [] {
      Appended(answers, b.sent, b.items);
    }
  }

  lemma PutLate(answers: Answers, objects: seq<Work>, i: nat, b: Batch)
    requires i < |objects| && objects[i].Wanted? && Accumulates(objects, i, b) && !Halted(answers, b.sent)
    ensures var next := Put(b, Member(i, objects[i].size));
      if Halted(answers, next.sent)
      then LateOnlyIfDisplacing(answers, objects, Ship(answers, objects, i + 1, next).sent)
      else Accumulates(objects, i + 1, next)
  {
    hide Halted, Stops, LateOnlyIfDisplacing, Ship, Accumulates, Put, Displaces;
    var it := Member(i, objects[i].size);
    var d := Displaced(b, it);
    DisplacedAccumulates(answers, objects, i, b);
    if Halted(answers, d.sent) {
      Appended(answers, b.sent, b.items);
      PutIntoHalted(answers, objects, i, d);
      StopOfADisplacedGroup(answers, objects, b.sent, b.items, i);
    } else {
      Joins(answers, objects, i, d);
    }
    PutsTwice(b, it);
  }

  // Once displaced, nothing is displaced again.
  lemma PutsTwice(b: Batch, it: Member)
    ensures Put(Displaced(b, it), it) == Put(b, it)
  {
  }

  lemma DisplacedAccumulates(answers: Answers, objects: seq<Work>, i: nat, b: Batch)
    requires i < |objects| && objects[i].Wanted? && Accumulates(objects, i, b) && !Halted(answers, b.sent)
    ensures var d := Displaced(b, Member(i, objects[i].size));
      && Accumulates(objects, i, d) && (d.items != [] ==> d.bytes + objects[i].size <= FilePass.MAX_BATCH_BYTES)
      && (Halted(answers, d.sent) ==>
            Displaces(objects, b.items, i) && Stops(answers, b.items) && d == Batch([], 0, b.sent + [b.items]))
  {
    hide Stops;
    Appended(answers, b.sent, b.items);
  }

  // The object that displaced the stopping group is sent alone, at once or at the end.
  lemma PutIntoHalted(answers: Answers, objects: seq<Work>, i: nat, d: Batch)
    requires i < |objects| && objects[i].Wanted? && Halted(answers, d.sent) && d.items == [] && d.bytes == 0
    ensures var next := Put(d, Member(i, objects[i].size));
      && Halted(answers, next.sent)
      && Ship(answers, objects, i + 1, next).sent == d.sent + [[Member(i, objects[i].size)]]
  {
    hide Halted, Stops;
    var it := Member(i, objects[i].size);
    assert d.items + [it] == [it];
    Appended(answers, d.sent, [it]);
    HaltedShips(answers, objects, i + 1, Put(d, it));
  }

  lemma Joins(answers: Answers, objects: seq<Work>, i: nat, d: Batch)
    requires i < |objects| && objects[i].Wanted? && Accumulates(objects, i, d) && !Halted(answers, d.sent)
    requires d.items != [] ==> d.bytes + objects[i].size <= FilePass.MAX_BATCH_BYTES
    ensures var next := Put(d, Member(i, objects[i].size));
      if Halted(answers, next.sent)
      then LateOnlyIfDisplacing(answers, objects, Ship(answers, objects, i + 1, next).sent)
      else Accumulates(objects, i + 1, next)
  {
    hide Halted, Stops, LateOnlyIfDisplacing;
    var it := Member(i, objects[i].size);
    var next, joined := Put(d, it), d.items + [it];
    assert joined[..|joined| - 1] == d.items;
    Appended(answers, d.sent, joined);
    if Halted(answers, next.sent) {
      HaltedShips(answers, objects, i + 1, next);
      StopOfAFullGroup(answers, objects, d.sent, joined);
    }
  }

  /**
   * After an enricher's stop at most one more object is sent, and one is exactly when the stop came
   * from a group that was sent because that object did not fit beside it.
   */
  lemma SentAfterAStop(answers: Answers, objects: seq<Work>, n: nat)
    requires FirstStop(answers, Groups(answers, objects), n)
    ensures var sent := Groups(answers, objects);
      && (|sent| > n + 1 <==> exists i: nat :: Displaces(objects, sent[n], i))
      && (forall i: nat | Displaces(objects, sent[n], i) :: sent[n + 1..] == [[Member(i, objects[i].size)]])
  {
    ShipLate(answers, objects, 0, Batch([], 0, []));
  }

  /** It does happen: a small object, a large one, and a control plane that refuses everything. */
  lemma LateObjectIsSent(answers: Answers)
    requires forall group, k :: answers(group, k).Refused?
    ensures var objects := [Wanted(1), Wanted(FilePass.MAX_BATCH_BYTES), Wanted(1)];
      Groups(answers, objects) == [[Member(0, 1)], [Member(1, FilePass.MAX_BATCH_BYTES)]]
  {
    var objects := [Wanted(1), Wanted(FilePass.MAX_BATCH_BYTES), Wanted(1)];
    var b1 := Batch([Member(0, 1)], 1, []);
    var b2 := Batch([], 0, [[Member(0, 1)], [Member(1, FilePass.MAX_BATCH_BYTES)]]);
    assert Put(Batch([], 0, []), Member(0, 1)) == b1;
    var d := Batch([], 0, [[Member(0, 1)]]);
    assert Displaced(b1, Member(1, FilePass.MAX_BATCH_BYTES)) == d;
    assert [] + [Member(1, FilePass.MAX_BATCH_BYTES)] == [Member(1, FilePass.MAX_BATCH_BYTES)];
    assert Put(b1, Member(1, FilePass.MAX_BATCH_BYTES)) == b2;
    assert FilePass.StopsRun(answers(b2.sent[0], 0));
    assert Stops(answers, b2.sent[0]);
    HaltedShips(answers, objects, 2, b2);
    assert Ship(answers, objects, 1, b1) == Ship(answers, objects, 2, b2);
    assert Ship(answers, objects, 0, Batch([], 0, [])) == Ship(answers, objects, 1, b1);
  }

  ghost predicate Indexed(items: seq<Member>, fates: seq<Option<Fate>>) {
    && (forall k :: 0 <= k < |items| ==> items[k].idx < |fates| && fates[items[k].idx].None?)
    && (forall j, k :: 0 <= j < k < |items| ==> items[j].idx != items[k].idx)
  }

  // What one member's verdict makes of it; a ship whose record could not be written is a failure.
  function FateOf(verdict: FilePass.Verdict, committed: bool): (fate: Fate)
    ensures fate != NotAttempted
  {
    if FilePass.StopsRun(verdict) then Stopped
    else if (verdict.Confirmed? || verdict.AlreadyPresent?) && committed then Shipped
    else Failed
  }

  /** Shipped exactly when the archive has it and it was recorded, stopped exactly by a refusal or an outage. */
  lemma WhatAVerdictMakes(verdict: FilePass.Verdict, committed: bool)
    ensures var fate := FateOf(verdict, committed);
      && (fate == Shipped <==> (verdict == FilePass.Confirmed || verdict == FilePass.AlreadyPresent) && committed)
      && (fate == Stopped <==> verdict == FilePass.Refused || verdict == FilePass.Unavailable || verdict == FilePass.Offline)
      && (fate == Failed <==> verdict == FilePass.OtherError || (fate != Stopped && !committed))
  {
  }

  // The outcome of an object that was not sent: none after a stop, before it what preparing it came to.
  ghost predicate Fits(work: Work, stopped: bool, fate: Option<Fate>) {
    if stopped then fate == Some(NotAttempted)
    else
      match work
      case Same => fate == Some(Unchanged)
      case Broken => fate == Some(Failed)
      case Preview => fate == Some(WouldShip)
      case Wanted(_) => fate != Some(NotAttempted)
  }

  lemma OneMoreBefore(answers: Answers, objects: seq<Work>, i: nat)
    requires i < |objects|
    ensures var b := Before(answers, objects, i);
      Before(answers, objects, i + 1)
      == if !Halted(answers, b.sent) && objects[i].Wanted? then Put(b, Member(i, objects[i].size)) else b
  {
  }

  lemma {:induction false} GroupsAreReached(answers: Answers, objects: seq<Work>, i: nat)
    requires i <= |objects|
    ensures Groups(answers, objects) == Ship(answers, objects, i, Before(answers, objects, i)).sent
    ensures i == |objects| ==> Groups(answers, objects) == Send(Before(answers, objects, i)).sent
  {
    hide Halted, Put, Send;
    if i > 0 { GroupsAreReached(answers, objects, i - 1); }
  }

  class DerivedPass {
    const answers: Answers
    // Whether the record of the i-th object could be written.
    const commits: nat -> bool
    var fates: array<Option<Fate>>
    var shipped: nat
    var failed: nat
    var halted: bool
    var items: seq<Member>
    var bytes: nat
    // The groups sent, in order.
    ghost var sent: seq<seq<Member>>

    // The counters say what the outcomes say: failures one by one, a batch-wide stop once.
    ghost predicate Counted()
      reads `fates, `shipped, `failed, `halted, fates
    {
      && shipped == Count(fates[..], Shipped)
      && failed == Count(fates[..], Failed) + (if halted then 1 else 0)
      && (halted <==> Count(fates[..], Stopped) > 0)
    }

    // Every member of a group sent has the outcome of its own verdict.
    ghost predicate Answered()
      reads `fates, `sent, fates
    {
      forall g: nat, k: nat | g < |sent| && k < |sent[g]| ::
        sent[g][k].idx < fates.Length && fates[sent[g][k].idx] == Some(FateOf(answers(sent[g], k), commits(sent[g][k].idx)))
    }

    ghost predicate Valid()
      reads this, fates
    {
      && Counted() && Answered() && Indexed(items, fates[..])
      && (items == [] ==> bytes == 0)
      && (halted <==> Halted(answers, sent))
    }

    ghost function Batched(): Batch
      reads `items, `bytes, `sent
    {
      Batch(items, bytes, sent)
    }

    constructor (n: nat, answers: Answers, commits: nat -> bool)
      ensures Valid() && fresh(fates) && fates.Length == n && Batched() == Batch([], 0, []) && !halted
      ensures this.answers == answers && this.commits == commits
      ensures forall i :: 0 <= i < n ==> fates[i].None?
    {
      this.answers, this.commits := answers, commits;
      fates := new Option<Fate>[n](_ => None);
      shipped, failed, halted, items, bytes, sent := 0, 0, false, [], 0, [];
      new;
      NoneCounted(fates[..], Shipped);
      NoneCounted(fates[..], Failed);
      NoneCounted(fates[..], Stopped);
    }

    method Record(i: nat, fate: Fate)
      requires i < fates.Length && fates[i].None?
      modifies fates
      ensures fates[..] == old(fates[..])[i := Some(fate)]
      ensures forall f :: Count(fates[..], f) == Count(old(fates[..]), f) + (if f == fate then 1 else 0)
    {
      ghost var before := fates[..];
      fates[i] := Some(fate);
      assert fates[..] == before[i := Some(fate)];
      forall f { CountUpdates(before, i, fate, f); }
    }

    method Settle(i: nat, verdict: FilePass.Verdict)
      requires i < fates.Length && fates[i].None? && Counted()
      modifies fates, `shipped, `failed, `halted
      ensures Counted() && halted == (old(halted) || FilePass.StopsRun(verdict))
      ensures fates[..] == old(fates[..])[i := Some(FateOf(verdict, commits(i)))]
    {
      hide Count;
      if FilePass.StopsRun(verdict) {
        Record(i, Stopped);
        if !halted { failed := failed + 1; }
        halted := true;
      } else if (verdict.Confirmed? || verdict.AlreadyPresent?) && commits(i) {
        Record(i, Shipped);
        shipped := shipped + 1;
      } else {
        Record(i, Failed);
        failed := failed + 1;
      }
    }

    method SettleGroup(group: seq<Member>)
      requires Counted() && Indexed(group, fates[..])
      modifies `shipped, `failed, `halted, fates
      ensures Counted() && halted == (old(halted) || Stops(answers, group))
      ensures forall k :: 0 <= k < |group| ==> fates[group[k].idx] == Some(FateOf(answers(group, k), commits(group[k].idx)))
      ensures forall i :: 0 <= i < fates.Length ==>
        (fates[i].Some? <==> old(fates[i]).Some? || exists it :: it in group && it.idx == i)
      ensures forall i :: 0 <= i < fates.Length && old(fates[i]).Some? ==> fates[i] == old(fates[i])
      ensures forall i :: 0 <= i < fates.Length && fates[i] == Some(NotAttempted) ==> old(fates[i]) == Some(NotAttempted)
    {
      hide Count, Counted, FateOf;
      for k := 0 to |group|
        invariant Counted()
        invariant halted <==> old(halted) || exists j: nat | j < k :: FilePass.StopsRun(answers(group, j))
        invariant forall i :: 0 <= i < fates.Length && (forall j :: 0 <= j < k ==> group[j].idx != i) ==> fates[i] == old(fates[i])
        invariant forall j :: 0 <= j < k ==> fates[group[j].idx] == Some(FateOf(answers(group, j), commits(group[j].idx)))
      {
        Settle(group[k].idx, answers(group, k));
        assert forall i :: 0 <= i < fates.Length ==> fates[i] == fates[..][i];
      }
    }

    // Send what has accumulated, if anything, and settle every member by its own verdict.
    method Flush()
      requires Valid()
      modifies `shipped, `failed, `halted, `items, `bytes, `sent, fates
      ensures Valid() && Batched() == Send(old(Batched())) && (old(halted) ==> halted)
      ensures forall i :: 0 <= i < fates.Length ==>
        (fates[i].Some? <==> old(fates[i]).Some? || exists it :: it in old(items) && it.idx == i)
      ensures forall i :: 0 <= i < fates.Length && old(fates[i]).Some? ==> fates[i] == old(fates[i])
      ensures forall i :: 0 <= i < fates.Length && fates[i] == Some(NotAttempted) ==> old(fates[i]) == Some(NotAttempted)
    {
      hide Count, Counted, Halted, Stops;
      if items == [] { return; }
      var group := items;
      items, bytes := [], 0;
      ghost var before := sent;
      Appended(answers, before, group);
      SettleGroup(group);
      assert Answered();
      sent := before + [group];
    }

    method Add(it: Member)
      requires Valid() && !halted && it.idx < fates.Length && fates[it.idx].None?
      requires forall k :: 0 <= k < |items| ==> items[k].idx != it.idx
      modifies `shipped, `failed, `halted, `items, `bytes, `sent, fates
      ensures Valid() && Batched() == Put(old(Batched()), it)
      ensures forall i :: 0 <= i < fates.Length && old(fates[i]).Some? ==> fates[i] == old(fates[i])
      ensures forall i :: 0 <= i < fates.Length ==> Held(i) == (old(Held(i)) || i == it.idx)
      ensures forall i :: 0 <= i < fates.Length && fates[i] == Some(NotAttempted) ==> old(fates[i]) == Some(NotAttempted)
    {
      hide Count, Counted, Answered, Halted, Stops;
      if |items| > 0 && bytes + it.size > FilePass.MAX_BATCH_BYTES { Flush(); }
      items := items + [it];
      bytes := bytes + it.size;
      if |items| >= FilePass.MAX_BATCH_OBJECTS || bytes >= FilePass.MAX_BATCH_BYTES { Flush(); }
    }

    // An object decided already, or waiting in the accumulator.
    ghost predicate Held(i: int)
      reads this, fates
    {
      0 <= i < fates.Length && (fates[i].Some? || exists it :: it in items && it.idx == i)
    }

    // Decided without the network; a failure counts, being passed over after a stop does not.
    method Decide(i: nat, fate: Fate)
      requires Valid() && i < fates.Length && !Held(i)
      requires fate in {Unchanged, WouldShip, Failed, NotAttempted}
      modifies fates, `failed
      ensures Valid()
      ensures forall j :: 0 <= j < fates.Length ==> Held(j) == (old(Held(j)) || j == i)
      ensures forall j :: 0 <= j < fates.Length ==> fates[j] == if j == i then Some(fate) else old(fates[j])
    {
      hide Count;
      Record(i, fate);
      if fate == Failed { failed := failed + 1; }
      assert forall j :: 0 <= j < fates.Length ==> fates[j] == fates[..][j];
    }

    // The loop before its i-th turn: the groups are the specification's so far, and each object passed is
    // sent, waiting, or has its outcome.
    ghost predicate Reached(objects: seq<Work>, i: nat)
      reads this, fates
    {
      && i <= |objects| == fates.Length && Valid() && Batched() == Before(answers, objects, i)
      && (forall j :: 0 <= j < fates.Length ==> (Held(j) <==> j < i))
      && (forall j :: 0 <= j < i ==> Fits(objects[j], Halted(answers, Before(answers, objects, j).sent), fates[j]))
      && (!halted ==> forall j :: 0 <= j < fates.Length ==> fates[j] != Some(NotAttempted))
    }

    method Turn(objects: seq<Work>, i: nat)
      requires i < |objects| && Reached(objects, i)
      modifies `shipped, `failed, `halted, `items, `bytes, `sent, fates
      ensures Reached(objects, i + 1)
    {
      hide Count, Counted, Answered, Halted, Stops, Put, Send, Indexed, Before;
      assert !Held(i);
      OneMoreBefore(answers, objects, i);
      if halted {
        Decide(i, NotAttempted);
      } else {
        match objects[i]
        case Same => Decide(i, Unchanged);
        case Broken => Decide(i, Failed);
        case Preview => Decide(i, WouldShip);
        case Wanted(size) => Add(Member(i, size));
      }
    }

    /**
     * Every derived object ends with one outcome: that of its own verdict if it was sent, and not
     * attempted only after a stop. The groups sent are those of the specification, and the counters
     * agree with the outcomes, a batch-wide stop counted once.
     */
    method ShipDerivedGroups(objects: seq<Work>)
      requires Valid() && fates.Length == |objects| && Batched() == Batch([], 0, []) && !halted
      requires forall i :: 0 <= i < fates.Length ==> fates[i].None?
      modifies `shipped, `failed, `halted, `items, `bytes, `sent, fates
      ensures Counted() && Answered() && sent == Groups(answers, objects) && (halted <==> Halted(answers, sent))
      ensures forall i :: 0 <= i < fates.Length ==> fates[i].Some?
      ensures forall i :: 0 <= i < fates.Length && fates[i] == Some(NotAttempted) ==> halted
      // What was not sent: after a stop nothing is prepared, before it each object has its own outcome.
      ensures forall i :: 0 <= i < |objects| ==> Fits(objects[i], Halted(answers, Before(answers, objects, i).sent), fates[i])
    {
      hide Count, Counted, Answered, Halted, Stops, Put, Send, Groups, Indexed;
      assert Reached(objects, 0);
      hide Before;
      for i := 0 to |objects|
        invariant Reached(objects, i)
      {
        Turn(objects, i);
      }
      GroupsAreReached(answers, objects, |objects|);
      ghost var waiting, before := items, fates[..];
      forall j | 0 <= j < fates.Length && fates[j].None? ensures exists it :: it in waiting && it.idx == j {
        assert Held(j);
      }
      Flush();
    }
  }
}
