/** The release condition is exact: releasing an endangered reservation lets two installs through. */
module EnrollmentRace {
  import opened Wrappers
  import opened Enrollment
  import opened EnrollmentHistory
  import opened EnrollmentOwnership
  import opened EnrollmentRecovery
  import opened EnrollmentAlone

  // A second machine holding the invite's secret, with an install id nobody used yet.
  ghost predicate Newcomer(organization: string, w: World, id: string, r: nat, token: Token, second: InstallRecord, now: int) {
    && r !in w.processes && second.installId != "" && second.installId !in w.store.installs
    && (forall p <- w.processes :: EnrollsWith(w.processes[p]) ==> w.processes[p].request.install.installId != second.installId)
    && token.organization == organization && token.id == id && id in w.store.invites
    && var invite := w.store.invites[id].record;
       invite.schema == SCHEMA_VERSION && TokenVerifies(token, invite.id, invite.secretDigest)
       && invite.revokedAt.None? && now < invite.expiresAt
  }

  // Six undisturbed steps of a call holding a reservation bring its install to active.
  lemma HolderActivates(organization: string, s: Store, process: Process, c: Choice)
    requires Calm(c) && EnrollsWith(process) && process.request.token.value.id in s.invites
    requires process.pc.ReadInstall? || process.pc.CreateInstall? || process.pc.RereadInvite?
    requires Activatable(organization, s, process)
    requires HoldsRecord(s, process)
    ensures var r := Solo(organization, s, process, c, 6);
      && r.activated
      && r.store.invites.Keys == s.invites.Keys
      && r.store.invites[process.request.token.value.id].record
         == SpentInvite(s.invites[process.request.token.value.id].record, c.now)
      && (forall k <- r.store.installs :: k in s.installs || k == process.request.install.installId)
  {
    if process.pc.ReadInstall? {
      AloneFromReadInstall(organization, s, process, c, 6);
    } else if process.pc.RereadInvite? {
      AloneFromReread(organization, s, process, c, 6);
    } else {
      var install := Normalized(organization, process.request.install);
      var e := StepProcess(organization, s, process, c);
      assert e == Quiet(Apply(s, PutInstall(install.installId, PendingInstall(install, process.pc.now))), RereadInvite);
      AloneFromReread(organization, e.store, process.(pc := e.pc), c, 5);
      assert Solo(organization, s, process, c, 6).process == Solo(organization, e.store, process.(pc := e.pc), c, 5).process;
    }
  }

  lemma {:induction false} SafeReleasesConcat(organization: string, w: World, a: seq<Event>, b: seq<Event>)
    requires SafeReleases(organization, w, a) && SafeReleases(organization, Run(organization, w, a), b)
    ensures SafeReleases(organization, w, a + b)
    decreases |a|
  {
    if a == [] {
      assert a + b == b;
    } else {
      assert (a + b)[1..] == a[1..] + b;
      SafeReleasesConcat(organization, Next(organization, w, a[0]), a[1..], b);
    }
  }

  // The world right after the reservation was cleared.
  lemma ReleasedWorld(organization: string, w: World, e: Event)
    requires Owned(organization, w) && e.Step? && e.process in w.processes
    requires Releases(w.store, w.processes[e.process], e.choice)
    ensures var id := w.processes[e.process].request.id;
      var v := Next(organization, w, e);
      && id in v.store.invites && v.store.invites[id].record == Unreserved(w.store.invites[id].record)
      && v.store.invites[id].record.spentAt.None?
      && v.store.installs == w.store.installs
      && v.processes == w.processes[e.process := v.processes[e.process]]
      && v.processes[e.process].request == w.processes[e.process].request
  {
    assert Sound(organization, w.processes[e.process]);
  }

  function ClashEvents(r: nat, q: nat, token: Token, second: InstallRecord, c: Choice): seq<Event> {
    [Start(r, EnrollInvite(Some(token), second))] + (Steps(r, c, 2) + (Steps(q, c, 6) + Steps(r, c, 6)))
  }

  /** Cleared under an endangered reservation, the invite goes on to activate two installs. */
  lemma EndangeredReleaseActivatesTwo(
      organization: string, w: World, e: Event, q: nat, r: nat, token: Token, second: InstallRecord, now: int)
    requires Owned(organization, w) && e.Step? && e.process in w.processes
    requires Releases(w.store, w.processes[e.process], e.choice)
    requires q in w.processes && Endangers(organization, w.store, w.processes[q], w.processes[e.process].request.id)
    requires Newcomer(organization, w, w.processes[e.process].request.id, r, token, second, now)
    ensures var events := ClashEvents(r, q, token, second, Choice(now, NoFault, false));
      && SafeReleases(organization, Next(organization, w, e), events)
      && !AtMostOneEach(Run(organization, Next(organization, w, e), events))
  {
    hide Run, SafeReleases, StepProcess, Solo;
    var c := Choice(now, NoFault, false);
    var v := Next(organization, w, e);
    ReleasedWorld(organization, w, e);
    var request := EnrollInvite(Some(token), second);
    var v1 := Next(organization, v, Start(r, request));
    assert v1.store == v.store && v1.processes[r] == Process(request, ReadInvite) && v1.processes[q] == w.processes[q];

    AloneReserves(organization, v1.store, v1.processes[r], c);
    var v2 := RunSteps(organization, v1, r, c, 2);
    assert v2.processes[q] == w.processes[q];
    assert v2.store.installs == w.store.installs;
    HolderActivates(organization, v2.store, v2.processes[q], c);
    var v3 := RunSteps(organization, v2, q, c, 6);
    assert second.installId !in v3.store.installs;
    AloneFromReadInstall(organization, v3.store, v3.processes[r], c, 6);
    var v4 := RunSteps(organization, v3, r, c, 6);
    var first := w.processes[q].request.install.installId;
    assert (token.id, first) in v4.activations && (token.id, second.installId) in v4.activations;

    SafeReleasesConcat(organization, v2, Steps(q, c, 6), Steps(r, c, 6));
    RunAppend(organization, v2, Steps(q, c, 6), Steps(r, c, 6));
    SafeReleasesConcat(organization, v1, Steps(r, c, 2), Steps(q, c, 6) + Steps(r, c, 6));
    RunAppend(organization, v1, Steps(r, c, 2), Steps(q, c, 6) + Steps(r, c, 6));
    StartFirst(organization, v, r, request, Steps(r, c, 2) + (Steps(q, c, 6) + Steps(r, c, 6)));
  }

  lemma StartFirst(organization: string, v: World, r: nat, request: Request, rest: seq<Event>)
    requires SafeReleases(organization, Next(organization, v, Start(r, request)), rest)
    ensures SafeReleases(organization, v, [Start(r, request)] + rest)
    ensures Run(organization, v, [Start(r, request)] + rest) == Run(organization, Next(organization, v, Start(r, request)), rest)
  {
    var events := [Start(r, request)] + rest;
    assert events[1..] == rest;
  }

  lemma RunSteps(organization: string, w: World, p: nat, c: Choice, n: nat) returns (v: World)
    requires p in w.processes && EnrollsWith(w.processes[p])
    ensures v == Run(organization, w, Steps(p, c, n)) && SafeReleases(organization, w, Steps(p, c, n))
    ensures var r := Solo(organization, w.store, w.processes[p], c, n);
      && v.store == r.store && v.processes == w.processes[p := r.process] && w.activations <= v.activations
      && (r.activated ==> (w.processes[p].request.token.value.id, w.processes[p].request.install.installId) in v.activations)
  {
    SoloRun(organization, w, p, c, n);
    NoReleaseInSteps(organization, w, p, c, n);
    v := Run(organization, w, Steps(p, c, n));
  }

  /**
   * Clearing a live invite's reservation in a reachable world is safe, whatever safe run follows,
   * exactly when no call on that invite stands between its reservation and its second read with an
   * install that can still become active.
   */
  lemma ReleaseSafeExactlyWhenUnendangered(
      organization: string, w: World, e: Event, r: nat, token: Token, second: InstallRecord, now: int)
    requires Owned(organization, w) && e.Step? && e.process in w.processes
    requires Releases(w.store, w.processes[e.process], e.choice)
    requires Newcomer(organization, w, w.processes[e.process].request.id, r, token, second, now)
    ensures (forall events: seq<Event> :: SafeReleases(organization, Next(organization, w, e), events) ==>
               AtMostOneEach(Run(organization, Next(organization, w, e), events)))
            <==> !Endangered(organization, w, w.processes[e.process].request.id)
  {
    if Endangered(organization, w, w.processes[e.process].request.id) {
      var q :| q in w.processes && Endangers(organization, w.store, w.processes[q], w.processes[e.process].request.id);
      EndangeredReleaseActivatesTwo(organization, w, e, q, r, token, second, now);
    } else {
      NextOwned(organization, w, e);
      forall events: seq<Event> | SafeReleases(organization, Next(organization, w, e), events)
        ensures AtMostOneEach(Run(organization, Next(organization, w, e), events))
      {
        RunOwned(organization, Next(organization, w, e), events);
      }
    }
  }

  // --- a concrete run ----------------------------------------------------------------------------

  const CALM := Choice(1, NoFault, false)
  const TOKEN := Token("o", "i", "s")

  function Machine(id: string): InstallRecord {
    InstallRecord(SCHEMA_VERSION, "o", id, "key", "age", Sha256(id), Pending, 0, 0, None)
  }

  // One machine reserves the invite and stalls; the administrator's release reads "no install yet".
  const RESERVING: seq<Event> := [MintInvite("i", "s", 10), Start(0, EnrollInvite(Some(TOKEN), Machine("a"))), Step(0, CALM), Step(0, CALM)]
  const RELEASING: seq<Event> := [Start(1, ReleaseInvite("i")), Step(1, CALM), Step(1, CALM)]

  ghost predicate Reaches(w: World, events: seq<Event>, v: World) {
    Run("o", w, events) == v && SafeReleases("o", w, events)
  }

  lemma Then(w: World, events: seq<Event>, v: World, e: Event)
    requires Reaches(w, events, v) && SafeRelease("o", v, e)
    ensures Reaches(w, events + [e], Next("o", v, e))
  {
    assert [e][1..] == [];
    RunAppend("o", w, events, [e]);
    assert SafeReleases("o", Next("o", v, e), []);
    SafeReleasesConcat("o", w, events, [e]);
  }

  const RESERVED := InviteRecord(SCHEMA_VERSION, "i", Sha256("s"), 10, None, "a", Some(Sha256("a")), Some(1), None)

  lemma ReservedWorld() returns (w: World)
    ensures Reaches(EMPTY, RESERVING, w)
    ensures w == World(
      Store(map["i" := Versioned(RESERVED, 1)], map[], map[]),
      map[0 := Process(EnrollInvite(Some(TOKEN), Machine("a")), ReadInstall(1))], {})
  {
    hide Run, SafeReleases;
    EmptyReaches(EMPTY);
    var w1 := Next("o", EMPTY, RESERVING[0]);
    Then(EMPTY, [], EMPTY, RESERVING[0]);
    var w2 := Next("o", w1, RESERVING[1]);
    Then(EMPTY, [] + [RESERVING[0]], w1, RESERVING[1]);
    var w3 := Next("o", w2, RESERVING[2]);
    assert w3.processes[0].pc == Reserve(w1.store.invites["i"], 1);
    Then(EMPTY, [] + [RESERVING[0]] + [RESERVING[1]], w2, RESERVING[2]);
    w := Next("o", w3, RESERVING[3]);
    Then(EMPTY, [] + [RESERVING[0]] + [RESERVING[1]] + [RESERVING[2]], w3, RESERVING[3]);
    assert RESERVING == [] + [RESERVING[0]] + [RESERVING[1]] + [RESERVING[2]] + [RESERVING[3]];
  }

  lemma EmptyReaches(w: World)
    ensures Reaches(w, [], w)
  {
  }

  lemma ReleasingWorld(w: World) returns (v: World)
    requires w == World(
      Store(map["i" := Versioned(RESERVED, 1)], map[], map[]),
      map[0 := Process(EnrollInvite(Some(TOKEN), Machine("a")), ReadInstall(1))], {})
    ensures Reaches(w, RELEASING, v)
    ensures v == w.(processes := w.processes[1 := Process(ReleaseInvite("i"), WriteRelease(Versioned(RESERVED, 1)))])
  {
    hide Run, SafeReleases;
    EmptyReaches(w);
    var w1 := Next("o", w, RELEASING[0]);
    Then(w, [], w, RELEASING[0]);
    var w2 := Next("o", w1, RELEASING[1]);
    Then(w, [] + [RELEASING[0]], w1, RELEASING[1]);
    v := Next("o", w2, RELEASING[2]);
    Then(w, [] + [RELEASING[0]] + [RELEASING[1]], w2, RELEASING[2]);
    assert RELEASING == [] + [RELEASING[0]] + [RELEASING[1]] + [RELEASING[2]];
  }

  /** Releasing under a stalled enrollment really activates two installs by one invite. */
  lemma RacingReleaseBreaksIt()
    ensures exists events: seq<Event> :: !AtMostOneEach(Run("o", EMPTY, events))
  {
    var w := ReservedWorld();
    var v := ReleasingWorld(w);
    RunAppend("o", EMPTY, RESERVING, RELEASING);
    SafeReleasesConcat("o", EMPTY, RESERVING, RELEASING);
    RunOwned("o", EMPTY, RESERVING + RELEASING);
    StalledClashes(v, RESERVING + RELEASING);
  }

  lemma StalledClashes(v: World, before: seq<Event>)
    requires Run("o", EMPTY, before) == v && Owned("o", v)
    requires v == World(
      Store(map["i" := Versioned(RESERVED, 1)], map[], map[]),
      map[0 := Process(EnrollInvite(Some(TOKEN), Machine("a")), ReadInstall(1)),
          1 := Process(ReleaseInvite("i"), WriteRelease(Versioned(RESERVED, 1)))], {})
    ensures exists events: seq<Event> :: !AtMostOneEach(Run("o", EMPTY, events))
  {
    hide StepProcess, Owned;
    var e := Step(1, CALM);
    var rest := ClashEvents(2, 0, TOKEN, Machine("b"), CALM);
    assert Endangers("o", v.store, v.processes[0], "i");
    EndangeredReleaseActivatesTwo("o", v, e, 0, 2, TOKEN, Machine("b"), 1);
    RunAppend("o", EMPTY, before, [e] + rest);
    assert ([e] + rest)[1..] == rest;
    assert !AtMostOneEach(Run("o", EMPTY, before + ([e] + rest)));
  }
}
