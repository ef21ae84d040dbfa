/** The client's half of an upload: pairing tickets with objects, and one reauthorization at most. */
module UploadPort {
  import opened Wrappers
  import FilePass
  import opened UploadAuthorization

  datatype Prepared = Prepared(objectId: string, key: string, size: int)

  // What became of one object. A ticket refused after its own expiry is worth a second authorization.
  datatype Outcome = Final(verdict: FilePass.Verdict) | TicketExpired | NoTicket | TwoTickets | PortBroken

  // What asking for one group comes to: metadata that may not be requested, a refusal or failure of the
  // whole group, or its tickets.
  datatype Authorization = NotRequestable | Denied(verdict: FilePass.Verdict) | Signed(tickets: seq<Ticket>)

  // --- one authorized group --------------------------------------------------------------------

  ghost predicate Unambiguous(tickets: seq<Ticket>) {
    forall i, j :: 0 <= i < j < |tickets| ==> tickets[i].objectId != tickets[j].objectId
  }

  // The outcome an object is due, given one group's tickets.
  ghost predicate Due(tickets: seq<Ticket>, send: (Prepared, Ticket) -> Outcome, o: Prepared, out: Outcome) {
    && (forall t :: t in tickets && t.objectId == o.objectId ==>
         out == if t.alreadyPresent then Final(FilePass.AlreadyPresent) else send(o, t))
    && ((forall t :: t in tickets ==> t.objectId != o.objectId) ==> out == NoTicket)
  }

  method PairTickets(tickets: seq<Ticket>) returns (paired: Option<map<string, Ticket>>)
    ensures paired.Some? <==> Unambiguous(tickets)
    ensures paired.Some? ==> forall t :: t in tickets ==> t.objectId in paired.value && paired.value[t.objectId] == t
    ensures paired.Some? ==> forall id :: id in paired.value ==> paired.value[id] in tickets && paired.value[id].objectId == id
  {
    var index: map<string, Ticket> := map[];
    for i := 0 to |tickets|
      invariant forall j :: 0 <= j < i ==> tickets[j].objectId in index && index[tickets[j].objectId] == tickets[j]
      invariant forall id :: id in index ==> index[id] in tickets[..i] && index[id].objectId == id
      invariant Unambiguous(tickets[..i])
    {
      var t := tickets[i];
      if t.objectId in index {
        var j :| 0 <= j < i && tickets[..i][j] == index[t.objectId];
        assert tickets[j].objectId == tickets[i].objectId;
        return None;
      }
      index := index[t.objectId := t];
      assert tickets[..i + 1] == tickets[..i] + [t];
    }
    assert tickets[..|tickets|] == tickets;
    return Some(index);
  }

  // The one outcome of every object, when the group fails as a whole.
  ghost function WholeGroup(answer: Authorization): Option<Outcome> {
    match answer
    case NotRequestable => Some(Final(FilePass.OtherError))
    case Denied(verdict) => Some(Final(verdict))
    case Signed(tickets) => if Unambiguous(tickets) then None else Some(TwoTickets)
  }

  /**
   * Fills one slot per object, in order, though the uploads finish in any order: the group is authorized
   * whole or fails whole, and past that point each object has the outcome it is due.
   */
  method AuthorizeAndUpload(batch: seq<Prepared>, answer: Authorization, send: (Prepared, Ticket) -> Outcome)
    returns (out: array<Outcome>)
    ensures fresh(out) && out.Length == |batch|
    ensures match WholeGroup(answer)
      case Some(outcome) => forall i :: 0 <= i < |batch| ==> out[i] == outcome
      case None => answer.Signed? && forall i :: 0 <= i < |batch| ==> Due(answer.tickets, send, batch[i], out[i])
  {
    match answer {
      case NotRequestable => out := new Outcome[|batch|](_ => Final(FilePass.OtherError)); return;
      case Denied(verdict) => out := new Outcome[|batch|](_ => Final(verdict)); return;
      case Signed(_) =>
    }
    var tickets := answer.tickets;
    out := new Outcome[|batch|](_ => TwoTickets);
    var paired := PairTickets(tickets);
    if paired.None? { return; }
    var index := paired.value;
    var uploading: set<int> := {};
    for i := 0 to |batch|
      invariant uploading == set j | 0 <= j < i && batch[j].objectId in index && !index[batch[j].objectId].alreadyPresent
      invariant forall j :: 0 <= j < i && j !in uploading ==> Due(tickets, send, batch[j], out[j])
    {
      var id := batch[i].objectId;
      if id !in index {
        out[i] := NoTicket;
      } else if index[id].alreadyPresent {
        out[i] := Final(FilePass.AlreadyPresent);
      } else {
        uploading := uploading + {i};
      }
    }
    while uploading != {}
      invariant forall j :: j in uploading ==>
        0 <= j < |batch| && batch[j].objectId in index && !index[batch[j].objectId].alreadyPresent
      invariant forall j :: 0 <= j < |batch| && j !in uploading ==> Due(tickets, send, batch[j], out[j])
      decreases uploading
    {
      var i :| i in uploading;
      out[i] := send(batch[i], index[batch[i].objectId]);
      uploading := uploading - {i};
    }
  }

  // --- both halves -----------------------------------------------------------------------------

  function BatchIds(batch: seq<Prepared>): seq<string> { seq(|batch|, i requires 0 <= i < |batch| => batch[i].objectId) }

  lemma NoRepeatsBySize(ids: seq<string>)
    requires forall id :: multiset(ids)[id] <= 1
    ensures NoRepeats(ids)
  {
    forall i, j | 0 <= i < j < |ids| ensures ids[i] != ids[j] {
      var before, after := ids[..j], ids[j..];
      assert ids == before + after && before[i] == ids[i] && after[0] == ids[j];
      assert ids[i] in multiset(before) && ids[j] in multiset(after);
      assert multiset(ids)[ids[j]] == multiset(before)[ids[j]] + multiset(after)[ids[j]];
    }
  }

  /**
   * An answer that resolves each object once leaves the client nothing to guess: no ticket is doubled,
   * none is missing, and every object is held already or spent on its own ticket.
   */
  lemma AnswerPairsUp(
      b: Batch, held: string -> Option<Held>, tickets: seq<Ticket>, batch: seq<Prepared>, send: (Prepared, Ticket) -> Outcome,
      i: nat, out: Outcome)
    requires DistinctObjects(b.objects) && AnswersEach(b, held, tickets) && BatchIds(batch) == RequestedIds(b.objects)
    requires i < |batch| && Due(tickets, send, batch[i], out)
    ensures Unambiguous(tickets)
    ensures exists t :: t in tickets && t.objectId == batch[i].objectId && Resolves(b, held, t) &&
                        out == if t.alreadyPresent then Final(FilePass.AlreadyPresent) else send(batch[i], t)
  {
    var asked, answered := RequestedIds(b.objects), AnsweredIds(tickets);
    assert NoRepeats(asked);
    NoRepeatsIsASet(asked);
    NoRepeatsBySize(answered);
    assert forall j :: 0 <= j < |tickets| ==> answered[j] == tickets[j].objectId;
    assert asked[i] == batch[i].objectId && asked[i] in multiset(asked);
    assert asked[i] in answered;
    var j :| 0 <= j < |answered| && answered[j] == asked[i];
    assert tickets[j] in tickets && tickets[j].objectId == batch[i].objectId;
    assert Resolves(b, held, tickets[j]);
  }

  // --- one reauthorization ---------------------------------------------------------------------

  // The positions whose tickets expired, in order.
  ghost function ExpiredAt(outcomes: seq<Outcome>): seq<nat>
    decreases |outcomes|
  {
    if outcomes == [] then []
    else
      ExpiredAt(outcomes[..|outcomes| - 1]) + (if outcomes[|outcomes| - 1].TicketExpired? then [|outcomes| - 1] else [])
  }

  lemma {:induction false} ExpiredAtIsOrdered(outcomes: seq<Outcome>)
    ensures forall p :: 0 <= p < |ExpiredAt(outcomes)| ==>
      ExpiredAt(outcomes)[p] < |outcomes| && outcomes[ExpiredAt(outcomes)[p]].TicketExpired?
    ensures forall p, q :: 0 <= p < q < |ExpiredAt(outcomes)| ==> ExpiredAt(outcomes)[p] < ExpiredAt(outcomes)[q]
    ensures forall i :: 0 <= i < |outcomes| && outcomes[i].TicketExpired? ==> i in ExpiredAt(outcomes)
    decreases |outcomes|
  {
    if outcomes != [] { ExpiredAtIsOrdered(outcomes[..|outcomes| - 1]); }
  }

  // The port: one call spends a group and answers with as many outcomes as it likes.
  datatype Port = Port(first: seq<Prepared> -> seq<Outcome>, second: seq<Prepared> -> seq<Outcome>, name: nat -> string)

  function Renamed(p: Port, batch: seq<Prepared>): seq<Prepared> {
    seq(|batch|, i requires 0 <= i < |batch| => batch[i].(objectId := p.name(i)))
  }

  // These objects, in order, each under the id the port gives its place in the group.
  ghost predicate Offers(p: Port, group: seq<Prepared>, objects: seq<Prepared>) {
    |group| == |objects| && forall i: nat :: i < |group| ==> group[i] == Prepared(p.name(i), objects[i].key, objects[i].size)
  }

  // All the positions whose tickets expired, in order.
  ghost predicate Expiries(first: seq<Outcome>, at: seq<nat>) {
    && (forall q :: 0 <= q < |at| ==> at[q] < |first| && first[at[q]] == TicketExpired)
    && (forall q, r :: 0 <= q < r < |at| ==> at[q] < at[r])
    && (forall i: nat :: i < |first| && first[i] == TicketExpired ==> i in at)
  }

  // The second call was for the expired objects under fresh ids, and its answers are final, expiry included.
  ghost predicate Retried(p: Port, objects: seq<Prepared>, first: seq<Outcome>, outcomes: seq<Outcome>, at: seq<nat>, again: seq<Prepared>)
    requires |first| == |objects| == |outcomes|
  {
    && Expiries(first, at) && |again| == |at|
    && (forall q: nat :: q < |at| ==> again[q] == Prepared(p.name(q), objects[at[q]].key, objects[at[q]].size))
    && var second := p.second(again);
       forall q :: 0 <= q < |at| ==> outcomes[at[q]] == if |second| == |again| then second[q] else PortBroken
  }

  method FindExpired(outcomes: seq<Outcome>) returns (expired: seq<nat>)
    ensures expired == ExpiredAt(outcomes)
  {
    expired := [];
    for i := 0 to |outcomes|
      invariant expired == ExpiredAt(outcomes[..i])
    {
      assert outcomes[..i + 1][..i] == outcomes[..i];
      if outcomes[i].TicketExpired? { expired := expired + [i]; }
    }
    assert outcomes[..|outcomes|] == outcomes;
  }

  method Overwrite(first: seq<Outcome>, expired: seq<nat>, second: seq<Outcome>) returns (outcomes: seq<Outcome>)
    requires expired == ExpiredAt(first)
    ensures |outcomes| == |first|
    ensures forall q :: 0 <= q < |expired| ==>
      expired[q] < |first| && outcomes[expired[q]] == if |second| == |expired| then second[q] else PortBroken
    ensures forall i :: 0 <= i < |first| && !first[i].TicketExpired? ==> outcomes[i] == first[i]
  {
    ExpiredAtIsOrdered(first);
    hide ExpiredAt;
    outcomes := first;
    for q := 0 to |expired|
      invariant |outcomes| == |first|
      invariant forall r :: 0 <= r < q ==> outcomes[expired[r]] == if |second| == |expired| then second[r] else PortBroken
      invariant forall i :: 0 <= i < |first| && !first[i].TicketExpired? ==> outcomes[i] == first[i]
    {
      outcomes := outcomes[expired[q] := if |second| == |expired| then second[q] else PortBroken];
    }
  }

  /**
   * One group, and at most one more call, for exactly the expired objects: their second answer is final,
   * everyone else keeps the first.
   */
  method Spend(p: Port, objects: seq<Prepared>) returns (outcomes: seq<Outcome>, calls: nat)
    ensures |outcomes| == |objects| && 1 <= calls <= 2
    ensures exists batch :: Offers(p, batch, objects) && SpentOnce(p, objects, p.first(batch), outcomes, calls)
  {
    hide ExpiredAt;
    var batch := Renamed(p, objects);
    assert Offers(p, batch, objects);
    var first := p.first(batch);
    if |first| != |batch| { return seq(|batch|, _ => PortBroken), 1; }
    var expired := FindExpired(first);
    ExpiredAtIsOrdered(first);
    if |expired| == 0 { return first, 1; }
    assert first[expired[0]].TicketExpired?;
    var group := seq(|expired|, q requires 0 <= q < |expired| => batch[expired[q]]);
    var again := Renamed(p, group);
    outcomes := Overwrite(first, expired, p.second(again));
    calls := 2;
    assert Retried(p, objects, first, outcomes, expired, again);
  }

  // What one group comes to, given the port's first answer for it.
  ghost predicate SpentOnce(p: Port, objects: seq<Prepared>, first: seq<Outcome>, outcomes: seq<Outcome>, calls: nat)
    requires |outcomes| == |objects|
  {
    if |first| != |objects| then calls == 1 && forall i :: 0 <= i < |objects| ==> outcomes[i] == PortBroken
    else
      && (forall i :: 0 <= i < |objects| && first[i] != TicketExpired ==> outcomes[i] == first[i])
      && (calls == 2 <==> exists i :: 0 <= i < |objects| && first[i] == TicketExpired)
      && (calls == 2 ==> exists at, again :: Retried(p, objects, first, outcomes, at, again))
  }
}
