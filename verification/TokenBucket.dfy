/** Telemetry admission: one token bucket per install, in a map of bounded size that evicts full buckets. */
module TokenBucket {
  import opened Wrappers

  const CAPACITY := 10000

  // Time runs in minutes; a bucket gains `rate` tokens a minute up to `burst`.
  datatype Limits = Limits(rate: real, burst: real)
  datatype Bucket = Bucket(tokens: real, updated: real)
  type Buckets = map<string, Bucket>

  ghost predicate Sane(l: Limits) { l.rate > 0.0 && l.burst >= 0.0 }

  function Min(a: real, b: real): real { if a < b then a else b }

  function Refill(l: Limits, from: real, to: real): real { (to - from) * l.rate }

  function Refilled(l: Limits, b: Bucket, now: real): Bucket {
    if now > b.updated then Bucket(Min(l.burst, b.tokens + Refill(l, b.updated, now)), now) else b
  }

  // The tokens an install could spend at `now`; one never seen, or forgotten, has them all.
  function Level(l: Limits, m: Buckets, id: string, now: real): real {
    if id in m then Refilled(l, m[id], now).tokens else l.burst
  }

  function Spent(l: Limits, m: Buckets, id: string, now: real): (bool, Buckets) {
    var b := Refilled(l, if id in m then m[id] else Bucket(l.burst, now), now);
    (b.tokens >= 1.0, m[id := if b.tokens >= 1.0 then b.(tokens := b.tokens - 1.0) else b])
  }

  function Full(l: Limits, m: Buckets, now: real): set<string>
    requires l.rate != 0.0
  {
    set id | id in m && now - m[id].updated >= l.burst / l.rate
  }

  // What is left when a new install finds the map full.
  function Evicted(l: Limits, m: Buckets, id: string, now: real): Buckets
    requires l.rate != 0.0
  {
    if id !in m && |m| >= CAPACITY then m - Full(l, m, now) else m
  }

  predicate Crowded(l: Limits, m: Buckets, id: string, now: real)
    requires l.rate != 0.0
  {
    id !in m && |Evicted(l, m, id, now)| >= CAPACITY
  }

  function Capped(l: Limits, m: Buckets, id: string, now: real): (bool, Buckets)
    requires l.rate != 0.0
  {
    var kept := Evicted(l, m, id, now);
    if Crowded(l, m, id, now) then (false, kept) else Spent(l, kept, id, now)
  }

  // --- levels ----------------------------------------------------------------------------------

  ghost predicate Current(l: Limits, m: Buckets, now: real) {
    forall id :: id in m ==> m[id].updated <= now && 0.0 <= m[id].tokens <= l.burst
  }

  // Two maps no later request can tell apart.
  ghost predicate SameLevels(l: Limits, a: Buckets, b: Buckets, now: real) {
    forall id, t :: t >= now ==> Level(l, a, id, t) == Level(l, b, id, t)
  }

  lemma RefillAdds(l: Limits, a: real, b: real, c: real)
    ensures Refill(l, a, c) == Refill(l, a, b) + Refill(l, b, c) && Refill(l, a, a) == 0.0
  {
  }

  lemma RefillGrows(l: Limits, from: real, to: real)
    requires Sane(l) && from <= to
    ensures Refill(l, from, to) >= 0.0
  {
  }

  lemma LevelGrows(l: Limits, m: Buckets, id: string, now: real, later: real)
    requires Sane(l) && Current(l, m, now) && now <= later
    ensures 0.0 <= Level(l, m, id, now) <= Level(l, m, id, later) <= l.burst
    ensures Level(l, m, id, later) <= Level(l, m, id, now) + Refill(l, now, later)
  {
    hide Refill;
    RefillGrows(l, now, later);
    if id in m {
      RefillGrows(l, m[id].updated, now);
      RefillAdds(l, m[id].updated, now, later);
    }
  }

  /** Waiting refills at the rate and no faster, up to the burst: so whoever waits is served again. */
  lemma LevelRefillsExactly(l: Limits, m: Buckets, id: string, now: real, later: real)
    requires Sane(l) && Current(l, m, now) && now <= later
    ensures var waited := Level(l, m, id, now) + (later - now) * l.rate;
      Level(l, m, id, later) == if waited < l.burst then waited else l.burst
    ensures Level(l, m, id, now) + (later - now) * l.rate >= 1.0 && l.burst >= 1.0 ==> Spent(l, m, id, later).0
  {
    assert Refill(l, now, later) == (later - now) * l.rate;
    hide Refill;
    RefillGrows(l, now, later);
    if id in m {
      RefillGrows(l, m[id].updated, now);
      RefillAdds(l, m[id].updated, now, later);
      RefillAdds(l, now, now, now);
      RefillAdds(l, later, later, later);
    }
  }

  lemma IdleRefills(l: Limits, b: Bucket, now: real)
    requires Sane(l) && 0.0 <= b.tokens <= l.burst && now - b.updated >= l.burst / l.rate
    ensures Refilled(l, b, now).tokens == l.burst
  {
    assert Refill(l, b.updated, now) >= (l.burst / l.rate) * l.rate == l.burst;
    if now <= b.updated { assert l.burst / l.rate >= 0.0; }
  }

  // A bucket old enough to evict is full already, so forgetting it changes no answer.
  lemma EvictionIsInvisible(l: Limits, m: Buckets, id: string, now: real)
    requires Sane(l) && Current(l, m, now)
    ensures SameLevels(l, Evicted(l, m, id, now), m, now) && Current(l, Evicted(l, m, id, now), now)
  {
    var kept := Evicted(l, m, id, now);
    forall other, t | t >= now ensures Level(l, kept, other, t) == Level(l, m, other, t) {
      if other in m && other !in kept { IdleRefills(l, m[other], t); }
    }
  }

  lemma SpendingTakesOne(l: Limits, m: Buckets, id: string, now: real)
    requires Sane(l) && Current(l, m, now)
    ensures var (allowed, after) := Spent(l, m, id, now);
      && (allowed <==> Level(l, m, id, now) >= 1.0)
      && Current(l, after, now)
      && Level(l, after, id, now) == Level(l, m, id, now) - (if allowed then 1.0 else 0.0)
      && (forall other, t :: other != id ==> Level(l, after, other, t) == Level(l, m, other, t))
  {
    LevelGrows(l, m, id, now, now);
  }

  lemma SpendingAgrees(l: Limits, a: Buckets, b: Buckets, id: string, now: real)
    requires Sane(l) && Current(l, a, now) && Current(l, b, now) && SameLevels(l, a, b, now)
    ensures var (x, afterA) := Spent(l, a, id, now); var (y, afterB) := Spent(l, b, id, now);
      x == y && SameLevels(l, afterA, afterB, now)
  {
    SpendingTakesOne(l, a, id, now);
    SpendingTakesOne(l, b, id, now);
    var (x, afterA) := Spent(l, a, id, now);
    var (y, afterB) := Spent(l, b, id, now);
    assert Level(l, a, id, now) == Level(l, b, id, now);
    forall other, t | t >= now ensures Level(l, afterA, other, t) == Level(l, afterB, other, t) {
      if other == id { assert afterA[id] == afterB[id] by { SpentBucket(l, a, id, now); SpentBucket(l, b, id, now); } }
    }
  }

  lemma SpentBucket(l: Limits, m: Buckets, id: string, now: real)
    requires Sane(l) && Current(l, m, now)
    ensures var (allowed, after) := Spent(l, m, id, now);
      after[id] == Bucket(Level(l, m, id, now) - (if allowed then 1.0 else 0.0), now)
  {
  }

  // --- one request, field by field ---------------------------------------------------------------

  // The tokens this install has by now: a burst when it is not known, else what it had and has gained.
  ghost function Tokens(l: Limits, m: Buckets, id: string, now: real): real {
    if id !in m then l.burst
    else if now <= m[id].updated then m[id].tokens
    else if m[id].tokens + (now - m[id].updated) * l.rate < l.burst then m[id].tokens + (now - m[id].updated) * l.rate
    else l.burst
  }

  ghost predicate Idle(l: Limits, b: Bucket, now: real)
    requires l.rate != 0.0
  {
    now - b.updated >= l.burst / l.rate
  }

  /**
   * A known install is served exactly when it has a token; an unknown one when a burst holds one and the map
   * has room, or a bucket idle long enough to be full again. Being served costs one token, a refusal none; and
   * only an unknown install that finds ten thousand others makes it forget, every idle one and no other.
   */
  lemma WhoIsServed(l: Limits, m: Buckets, id: string, now: real)
    requires Sane(l) && |m| <= 10_000
    ensures var (allowed, after) := Capped(l, m, id, now);
      var room := id in m || |m| < 10_000 || exists other <- m :: Idle(l, m[other], now);
      && (allowed <==> room && Tokens(l, m, id, now) >= 1.0)
      && |after| <= 10_000 && (id in after <==> room)
      && (room ==> after[id].tokens == Tokens(l, m, id, now) - (if allowed then 1.0 else 0.0)
                   && after[id].updated == if id in m && now <= m[id].updated then m[id].updated else now)
      && forall other | other != id ::
           && (other in after <==> other in m && !(id !in m && |m| == 10_000 && Idle(l, m[other], now)))
           && (other in after ==> after[other] == m[other])
  {
    var kept := Evicted(l, m, id, now);
    assert kept.Keys <= m.Keys;
    if id !in m && |m| == 10_000 {
      SomeLeave(m, Full(l, m, now));
    }
  }

  lemma SomeLeave(m: Buckets, gone: set<string>)
    requires gone <= m.Keys
    ensures |m - gone| == |m| - |gone|
    ensures gone == {} <==> |m - gone| == |m|
  {
    assert (m - gone).Keys == m.Keys - gone;
    assert |m.Keys - gone| == |m.Keys| - |gone|;
  }

  // --- runs ------------------------------------------------------------------------------------

  datatype Request = Request(id: string, at: real)

  ghost predicate InOrder(start: real, requests: seq<Request>) {
    && (requests != [] ==> start <= requests[0].at)
    && forall i, j :: 0 <= i < j < |requests| ==> requests[i].at <= requests[j].at
  }

  ghost function Answers(l: Limits, m: Buckets, requests: seq<Request>): seq<bool>
    requires l.rate != 0.0
    decreases |requests|
  {
    if requests == [] then []
    else
      var (allowed, after) := Capped(l, m, requests[0].id, requests[0].at);
      [allowed] + Answers(l, after, requests[1..])
  }

  ghost function UncappedAnswers(l: Limits, m: Buckets, requests: seq<Request>): seq<bool>
    decreases |requests|
  {
    if requests == [] then []
    else
      var (allowed, after) := Spent(l, m, requests[0].id, requests[0].at);
      [allowed] + UncappedAnswers(l, after, requests[1..])
  }

  ghost predicate NeverCrowded(l: Limits, m: Buckets, requests: seq<Request>)
    requires l.rate != 0.0
    decreases |requests|
  {
    requests == [] ||
    (!Crowded(l, m, requests[0].id, requests[0].at) &&
     NeverCrowded(l, Capped(l, m, requests[0].id, requests[0].at).1, requests[1..]))
  }

  ghost function Granted(id: string, requests: seq<Request>, answers: seq<bool>): nat
    requires |requests| == |answers|
    decreases |requests|
  {
    if requests == [] then 0
    else (if requests[0].id == id && answers[0] then 1 else 0) + Granted(id, requests[1..], answers[1..])
  }

  ghost function End(start: real, requests: seq<Request>): real {
    if requests == [] then start else requests[|requests| - 1].at
  }

  lemma {:induction false} AnswersLength(l: Limits, m: Buckets, requests: seq<Request>)
    requires l.rate != 0.0
    ensures |Answers(l, m, requests)| == |requests| == |UncappedAnswers(l, m, requests)|
    decreases |requests|
  {
    if requests != [] {
      AnswersLength(l, Capped(l, m, requests[0].id, requests[0].at).1, requests[1..]);
      AnswersLength(l, Spent(l, m, requests[0].id, requests[0].at).1, requests[1..]);
    }
  }

  // One request's effect on the level of any install, refusals for want of room included.
  lemma CappedLevels(l: Limits, m: Buckets, id: string, now: real, other: string)
    requires Sane(l) && Current(l, m, now)
    ensures var (allowed, after) := Capped(l, m, id, now);
      && Current(l, after, now)
      && Level(l, after, other, now) == Level(l, m, other, now) - (if allowed && other == id then 1.0 else 0.0)
  {
    EvictionIsInvisible(l, m, id, now);
    var kept := Evicted(l, m, id, now);
    SpendingTakesOne(l, kept, id, now);
    assert Level(l, kept, other, now) == Level(l, m, other, now);
  }

  lemma {:induction false} GrantsAreBounded(l: Limits, m: Buckets, start: real, requests: seq<Request>, id: string)
    requires Sane(l) && Current(l, m, start) && InOrder(start, requests)
    ensures |Answers(l, m, requests)| == |requests|
    ensures Granted(id, requests, Answers(l, m, requests)) as real
         <= Level(l, m, id, start) + Refill(l, start, End(start, requests))
    decreases |requests|
  {
    hide Level, Capped, Refill, Answers, Granted, Current;
    AnswersLength(l, m, requests);
    LevelGrows(l, m, id, start, start);
    if requests == [] {
      NoGrants(id, Answers(l, m, requests));
      RefillAdds(l, start, start, start);
    } else {
      var r := requests[0];
      LevelGrows(l, m, id, start, r.at);
      CurrentLater(l, m, start, r.at);
      CappedLevels(l, m, r.id, r.at, id);
      var after := Capped(l, m, r.id, r.at).1;
      GrantsAreBounded(l, after, r.at, requests[1..], id);
      FirstAnswer(l, m, requests, id);
      assert End(r.at, requests[1..]) == End(start, requests);
      RefillAdds(l, start, r.at, End(start, requests));
    }
  }

  lemma NoGrants(id: string, answers: seq<bool>)
    requires |answers| == 0
    ensures Granted(id, [], answers) as real == 0.0
  {
  }

  lemma FirstAnswer(l: Limits, m: Buckets, requests: seq<Request>, id: string)
    requires l.rate != 0.0 && requests != []
    ensures var (allowed, after) := Capped(l, m, requests[0].id, requests[0].at);
      && |Answers(l, m, requests)| == |requests| && |Answers(l, after, requests[1..])| == |requests| - 1
      && Granted(id, requests, Answers(l, m, requests)) as real
         == (if allowed && requests[0].id == id then 1.0 else 0.0) + Granted(id, requests[1..], Answers(l, after, requests[1..])) as real
  {
    hide Capped;
    AnswersLength(l, m, requests);
    var after := Capped(l, m, requests[0].id, requests[0].at).1;
    AnswersLength(l, after, requests[1..]);
    var answers := Answers(l, m, requests);
    assert answers[1..] == Answers(l, after, requests[1..]);
  }

  lemma CurrentLater(l: Limits, m: Buckets, now: real, later: real)
    requires Current(l, m, now) && now <= later
    ensures Current(l, m, later)
  {
  }

  ghost function Reached(l: Limits, m: Buckets, requests: seq<Request>): Buckets
    requires l.rate != 0.0
    decreases |requests|
  {
    if requests == [] then m else Reached(l, Capped(l, m, requests[0].id, requests[0].at).1, requests[1..])
  }

  lemma {:induction false} ReachedIsCurrent(l: Limits, m: Buckets, start: real, requests: seq<Request>)
    requires Sane(l) && Current(l, m, start) && InOrder(start, requests)
    ensures Current(l, Reached(l, m, requests), End(start, requests))
    decreases |requests|
  {
    if requests != [] {
      hide Current, Capped;
      CurrentLater(l, m, start, requests[0].at);
      CappedLevels(l, m, requests[0].id, requests[0].at, "");
      ReachedIsCurrent(l, Capped(l, m, requests[0].id, requests[0].at).1, requests[0].at, requests[1..]);
    }
  }

  /** In any window of any run one install is granted at most a burst plus the refill of the window. */
  lemma WindowIsBounded(l: Limits, before: seq<Request>, window: seq<Request>, id: string)
    requires Sane(l) && window != [] && InOrder(if before == [] then window[0].at else before[0].at, before + window)
    ensures var m := Reached(l, map[], before);
      && |Answers(l, m, window)| == |window|
      && Granted(id, window, Answers(l, m, window)) as real
         <= l.burst + (window[|window| - 1].at - window[0].at) * l.rate
  {
    assert Refill(l, window[0].at, window[|window| - 1].at) == (window[|window| - 1].at - window[0].at) * l.rate;
    hide Current, Level, Answers, Granted, Reached, Refill;
    var start := if before == [] then window[0].at else before[0].at;
    SplitOrder(start, before, window);
    NothingIsCurrent(l, start);
    ReachedIsCurrent(l, map[], start, before);
    var m := Reached(l, map[], before);
    CurrentLater(l, m, End(start, before), window[0].at);
    GrantsAreBounded(l, m, window[0].at, window, id);
    LevelGrows(l, m, id, window[0].at, window[0].at);
  }

  lemma NothingIsCurrent(l: Limits, now: real)
    ensures Current(l, map[], now)
  {
  }

  lemma SplitOrder(start: real, before: seq<Request>, window: seq<Request>)
    requires window != [] && InOrder(start, before + window)
    ensures InOrder(start, before) && InOrder(window[0].at, window) && End(start, before) <= window[0].at
  {
    var all := before + window;
    assert forall i :: 0 <= i < |before| ==> all[i] == before[i];
    assert forall i :: 0 <= i < |window| ==> all[|before| + i] == window[i];
  }

  lemma {:induction false} AnswersAgree(l: Limits, a: Buckets, b: Buckets, start: real, requests: seq<Request>)
    requires Sane(l) && Current(l, a, start) && Current(l, b, start) && SameLevels(l, a, b, start)
    requires InOrder(start, requests) && NeverCrowded(l, a, requests)
    ensures Answers(l, a, requests) == UncappedAnswers(l, b, requests)
    decreases |requests|
  {
    if requests != [] {
      hide Current, SameLevels, Spent, Evicted;
      var r := requests[0];
      CurrentLater(l, a, start, r.at);
      CurrentLater(l, b, start, r.at);
      var kept := Evicted(l, a, r.id, r.at);
      EvictionIsInvisible(l, a, r.id, r.at);
      SameLater(l, kept, a, b, start, r.at);
      SpendingAgrees(l, kept, b, r.id, r.at);
      SpendingStaysCurrent(l, kept, r.id, r.at);
      SpendingStaysCurrent(l, b, r.id, r.at);
      AnswersAgree(l, Spent(l, kept, r.id, r.at).1, Spent(l, b, r.id, r.at).1, r.at, requests[1..]);
    }
  }

  lemma SameLater(l: Limits, kept: Buckets, a: Buckets, b: Buckets, start: real, now: real)
    requires SameLevels(l, a, b, start) && SameLevels(l, kept, a, now) && start <= now
    ensures SameLevels(l, kept, b, now)
  {
    forall id, t | t >= now ensures Level(l, kept, id, t) == Level(l, b, id, t) {
      assert Level(l, kept, id, t) == Level(l, a, id, t);
    }
  }

  lemma SpendingStaysCurrent(l: Limits, m: Buckets, id: string, now: real)
    requires Sane(l) && Current(l, m, now)
    ensures Current(l, Spent(l, m, id, now).1, now)
  {
    SpendingTakesOne(l, m, id, now);
  }

  /** Until a new install is turned away for want of room, the bounded map answers as an unbounded one. */
  lemma EvictionNeverShows(l: Limits, requests: seq<Request>)
    requires Sane(l) && (requests != [] ==> InOrder(requests[0].at, requests)) && NeverCrowded(l, map[], requests)
    ensures Answers(l, map[], requests) == UncappedAnswers(l, map[], requests)
  {
    if requests != [] { AnswersAgree(l, map[], map[], requests[0].at, requests); }
  }

  // --- the proxy -------------------------------------------------------------------------------

  class TelemetryProxy {
    const limits: Limits
    var buckets: Buckets

    constructor (limits: Limits)
      ensures this.limits == limits && buckets == map[]
    {
      this.limits, buckets := limits, map[];
    }

    method EvictFull(now: real)
      requires Sane(limits)
      modifies `buckets
      ensures buckets == old(buckets) - Full(limits, old(buckets), now)
    {
      var refill := limits.burst / limits.rate;
      var left := buckets.Keys;
      ghost var doomed := Full(limits, buckets, now);
      while left != {}
        invariant left <= old(buckets).Keys && buckets == old(buckets) - (doomed - left)
        decreases left
      {
        var id :| id in left;
        left := left - {id};
        if now - buckets[id].updated >= refill { buckets := buckets - {id}; }
      }
      assert doomed - left == doomed;
    }

    method Allow(id: string, now: real) returns (allowed: bool)
      requires Sane(limits)
      modifies `buckets
      ensures (allowed, buckets) == Capped(limits, old(buckets), id, now)
    {
      var bucket := Bucket(limits.burst, now);
      if id in buckets {
        bucket := buckets[id];
      } else if |buckets| >= CAPACITY {
        EvictFull(now);
        if |buckets| >= CAPACITY { return false; }
      }
      var elapsed := now - bucket.updated;
      if elapsed > 0.0 { bucket := Bucket(Min(limits.burst, bucket.tokens + elapsed * limits.rate), now); }
      allowed := bucket.tokens >= 1.0;
      if allowed { bucket := bucket.(tokens := bucket.tokens - 1.0); }
      buckets := buckets[id := bucket];
    }
  }
}
