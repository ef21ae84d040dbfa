/**
 * The client half of enrollment: the exact request is kept on disk across lost responses and
 * restarts, so one pending attempt only ever names one install.
 */
module InteractiveEnrollment {
  import opened Wrappers
  import opened Enrollment
  import opened EnrollmentHistory
  import opened EnrollmentRecovery
  import opened EnrollmentManager

  datatype EnrollRequest = EnrollRequest(
    installId: string, ageRecipient: string, devicePublicKey: string, hostname: string, platform: string,
    invite: string, grant: string)

  datatype KeyPair = KeyPair(privateKey: string, publicKey: string)

  // The attempt file: where the request was sent, the device key, and the request itself.
  datatype Saved = Saved(endpoint: string, key: KeyPair, request: EnrollRequest)

  // How tokens parse and how requests are written as bytes; any functions.
  datatype Wire = Wire(parse: string -> Option<Token>, marshal: EnrollRequest -> string)

  datatype Answer = Success | CredentialsRefused | Conflicted | NoAnswer
  datatype Outcome = Answered(answer: Answer) | Incomplete | Mismatched | Died

  predicate SameInstall(a: EnrollRequest, b: EnrollRequest) {
    a.installId == b.installId && a.ageRecipient == b.ageRecipient && a.devicePublicKey == b.devicePublicKey
  }

  function TrimSlashes(endpoint: string): string {
    if endpoint != "" && endpoint[|endpoint| - 1] == '/' then TrimSlashes(endpoint[..|endpoint| - 1]) else endpoint
  }

  predicate SameServer(a: string, b: string) { TrimSlashes(a) == TrimSlashes(b) }

  // What enrollmentAttempt refuses before it looks at the file.
  predicate Complete(endpoint: string, request: EnrollRequest) {
    endpoint != "" && request.installId != "" && request.ageRecipient != "" && (request.grant == "") != (request.invite == "")
  }

  // What enrollmentAttempt demands of a file it finds.
  predicate Matches(saved: Saved, request: EnrollRequest) {
    && saved.request.installId == request.installId && saved.request.ageRecipient == request.ageRecipient
    && saved.request.devicePublicKey == saved.key.publicKey
    && (saved.request.grant == "") != (saved.request.invite == "")
    && (request.grant != "" ==> saved.request.grant != "")
    && saved.endpoint != ""
  }

  // The login gets as far as sending anything.
  predicate Proceeds(saved: Option<Saved>, endpoint: string, request: EnrollRequest) {
    Complete(endpoint, request) && (saved.Some? ==> Matches(saved.value, request))
  }

  function RecordOf(wire: Wire, request: EnrollRequest): InstallRecord {
    InstallRecord(SCHEMA_VERSION, "", request.installId, request.devicePublicKey, request.ageRecipient,
                  Sha256(wire.marshal(request)), Pending, 0, 0, None)
  }

  function AnswerOf(verdict: Verdict): Answer {
    match verdict
    case Enrolled => Success
    case Forbidden => CredentialsRefused
    case EnrollmentConflict => Conflicted
    case _ => NoAnswer
  }

  // Exchanges left before every credential form was refused: saved invite, saved grant, then the
  // given token as an invite and as a grant.
  function Turns(request: EnrollRequest, token: string): (n: nat)
    ensures 1 <= n <= 4
  {
    if request.invite != "" then (if request.invite == token then 2 else 4)
    else if request.grant == token then 1 else 3
  }

  // --- what an undisturbed server makes of one request --------------------------------------------

  predicate Sendable(request: EnrollRequest) { (request.invite == "") != (request.grant == "") }

  function CredentialOf(wire: Wire, request: EnrollRequest): Option<Token> {
    wire.parse(if request.grant != "" then request.grant else request.invite)
  }

  function VerdictFor(wire: Wire, organization: string, store: Store, request: EnrollRequest, now: int): Verdict {
    match CredentialOf(wire, request)
    case None => Forbidden
    case Some(token) =>
      if request.grant != "" then GrantVerdict(organization, store, token, RecordOf(wire, request), now)
      else EnrollVerdict(organization, store, token, RecordOf(wire, request), now)
  }

  function WritesFor(wire: Wire, organization: string, store: Store, request: EnrollRequest, now: int): seq<Write> {
    match CredentialOf(wire, request)
    case None => []
    case Some(token) =>
      if request.grant != "" then GrantWrites(organization, store, token, RecordOf(wire, request), now)
      else EnrollWrites(organization, store, token, RecordOf(wire, request), now)
  }

  // The form of the request after this one, when its credential was refused.
  function NextForm(request: EnrollRequest, token: string): Option<EnrollRequest> {
    if request.invite != "" then Some(request.(grant := request.invite, invite := ""))
    else if request.grant != token then Some(request.(invite := token, grant := ""))
    else None
  }

  // The form a login starts with: the saved one, unless there is none or it went to another server.
  function FirstForm(saved: Option<Saved>, endpoint: string, request: EnrollRequest, minted: KeyPair): EnrollRequest {
    if saved.Some? && SameServer(saved.value.endpoint, endpoint) then saved.value.request
    else request.(devicePublicKey := minted.publicKey)
  }

  // The first form whose credential the server does not refuse; the last one if it refuses all.
  function Heard(wire: Wire, organization: string, store: Store, request: EnrollRequest, token: string, now: int): EnrollRequest
    decreases Turns(request, token)
  {
    if VerdictFor(wire, organization, store, request, now) == Forbidden && NextForm(request, token).Some?
    then Heard(wire, organization, store, NextForm(request, token).value, token, now)
    else request
  }

  lemma HeardUnfolds(wire: Wire, organization: string, store: Store, request: EnrollRequest, token: string, now: int)
    ensures var heard := Heard(wire, organization, store, request, token, now);
      if VerdictFor(wire, organization, store, request, now) == Forbidden
      then
        && WritesFor(wire, organization, store, request, now) == [] && ApplyAll(store, []) == store
        && match NextForm(request, token)
           case Some(next) =>
             && heard == Heard(wire, organization, store, next, token, now)
             && Tried(wire, organization, store, request, token, now) == [request] + Tried(wire, organization, store, next, token, now)
           case None => heard == request && Tried(wire, organization, store, request, token, now) == [request]
      else heard == request && Tried(wire, organization, store, request, token, now) == [request]
  {
    if VerdictFor(wire, organization, store, request, now) == Forbidden {
      RefusalWritesNothing(wire, organization, store, request, now);
    }
  }

  // The forms sent, up to the one that is heard.
  ghost function Tried(wire: Wire, organization: string, store: Store, request: EnrollRequest, token: string, now: int): seq<EnrollRequest>
    decreases Turns(request, token)
  {
    [request] + (if VerdictFor(wire, organization, store, request, now) == Forbidden && NextForm(request, token).Some?
                 then Tried(wire, organization, store, NextForm(request, token).value, token, now) else [])
  }

  // --- the forms of a login, spelled out ------------------------------------------------------------

  // What the service says to this token as an invite, and as a grant.
  ghost function AsInvite(wire: Wire, organization: string, store: Store, token: string, form: EnrollRequest, now: int): Verdict {
    match wire.parse(token)
    case None => Forbidden
    case Some(t) => EnrollVerdict(organization, store, t, RecordOf(wire, form), now)
  }

  ghost function AsGrant(wire: Wire, organization: string, store: Store, token: string, form: EnrollRequest, now: int): Verdict {
    match wire.parse(token)
    case None => Forbidden
    case Some(t) => GrantVerdict(organization, store, t, RecordOf(wire, form), now)
  }

  ghost function Says(wire: Wire, organization: string, store: Store, form: EnrollRequest, now: int): Verdict {
    if form.invite != "" then AsInvite(wire, organization, store, form.invite, form, now)
    else AsGrant(wire, organization, store, form.grant, form, now)
  }

  // A saved invite, the same token as a grant, then the given token as an invite and as a grant, unless it
  // is the saved one; a saved grant starts at the second.
  ghost function Forms(first: EnrollRequest, token: string): seq<EnrollRequest> {
    var kept := if first.invite != "" then first.invite else first.grant;
    (if first.invite != "" then [first.(invite := kept, grant := "")] else [])
    + [first.(invite := "", grant := kept)]
    + (if kept != token then [first.(invite := token, grant := ""), first.(invite := "", grant := token)] else [])
  }

  // Sent in order, the k-th is heard: the others before it were refused, and it was not, or none is left.
  ghost predicate HeardAt(wire: Wire, organization: string, store: Store, forms: seq<EnrollRequest>, now: int, k: nat) {
    && k < |forms| && (forall j :: 0 <= j < k ==> Says(wire, organization, store, forms[j], now) == Forbidden)
    && (k < |forms| - 1 ==> Says(wire, organization, store, forms[k], now) != Forbidden)
  }

  lemma WritesAreFew(wire: Wire, organization: string, store: Store, form: EnrollRequest, now: int)
    ensures |WritesFor(wire, organization, store, form, now)| <= 4
  {
  }

  lemma SaysIsTheVerdict(wire: Wire, organization: string, store: Store, form: EnrollRequest, now: int)
    requires Sendable(form)
    ensures VerdictFor(wire, organization, store, form, now) == Says(wire, organization, store, form, now)
  {
  }

  lemma FormsFollow(first: EnrollRequest, token: string)
    requires Sendable(first) && token != ""
    ensures var forms := Forms(first, token);
      && forms != [] && forms[0] == first && (forall k :: 0 <= k < |forms| ==> Sendable(forms[k]))
      && (forall k :: 0 <= k < |forms| - 1 ==> NextForm(forms[k], token) == Some(forms[k + 1]))
      && NextForm(forms[|forms| - 1], token) == None
  {
  }

  lemma OneForm(wire: Wire, organization: string, store: Store, form: EnrollRequest, token: string, now: int)
    requires Sendable(form)
    ensures var next := NextForm(form, token);
      if Says(wire, organization, store, form, now) == Forbidden && next.Some?
      then
        && Heard(wire, organization, store, form, token, now) == Heard(wire, organization, store, next.value, token, now)
        && Tried(wire, organization, store, form, token, now) == [form] + Tried(wire, organization, store, next.value, token, now)
      else
        Heard(wire, organization, store, form, token, now) == form && Tried(wire, organization, store, form, token, now) == [form]
  {
    SaysIsTheVerdict(wire, organization, store, form, now);
    hide Says, VerdictFor, NextForm, Turns, Sendable;
  }

  lemma {:induction false} FormsTriedFrom(wire: Wire, organization: string, store: Store, forms: seq<EnrollRequest>, i: nat, token: string, now: int)
    returns (k: nat)
    requires i < |forms| && (forall j :: 0 <= j < |forms| ==> Sendable(forms[j])) && NextForm(forms[|forms| - 1], token) == None
    requires forall j :: 0 <= j < |forms| - 1 ==> NextForm(forms[j], token) == Some(forms[j + 1])
    ensures i <= k < |forms| && (forall j :: i <= j < k ==> Says(wire, organization, store, forms[j], now) == Forbidden)
    ensures k < |forms| - 1 ==> Says(wire, organization, store, forms[k], now) != Forbidden
    ensures Heard(wire, organization, store, forms[i], token, now) == forms[k]
    ensures Tried(wire, organization, store, forms[i], token, now) == forms[i..k + 1]
    decreases |forms| - i
  {
    hide Says, VerdictFor, NextForm, Turns, Sendable, Heard, Tried;
    OneForm(wire, organization, store, forms[i], token, now);
    k := i;
    if i < |forms| - 1 && Says(wire, organization, store, forms[i], now) == Forbidden {
      k := FormsTriedFrom(wire, organization, store, forms, i + 1, token, now);
      assert forms[i..k + 1] == [forms[i]] + forms[i + 1..k + 1];
    }
  }

  /** Which forms are sent, and which is heard. */
  lemma FormsAreTried(wire: Wire, organization: string, store: Store, first: EnrollRequest, token: string, now: int) returns (k: nat)
    requires Sendable(first) && token != ""
    ensures var forms := Forms(first, token);
      && HeardAt(wire, organization, store, forms, now, k)
      && Tried(wire, organization, store, first, token, now) == forms[..k + 1]
      && Heard(wire, organization, store, first, token, now) == forms[k]
  {
    hide Forms, Says, NextForm, Sendable, Heard, Tried;
    FormsFollow(first, token);
    k := FormsTriedFrom(wire, organization, store, Forms(first, token), 0, token, now);
  }

  // --- a success, and whether it is still honoured ------------------------------------------------

  // What the server's success answer to this request leaves behind.
  predicate Succeeded(wire: Wire, organization: string, store: Store, request: EnrollRequest) {
    && Sendable(request) && request.installId != "" && CredentialOf(wire, request).Some?
    && var token, record := CredentialOf(wire, request).value, RecordOf(wire, request);
       if request.grant != "" then GrantStands(organization, store, token, record)
       else InviteStands(organization, store, token, record)
  }

  // Nobody took it back: the install and its credential are unrevoked, and a grant has not expired.
  predicate Honoured(wire: Wire, store: Store, request: EnrollRequest, now: int) {
    && CredentialOf(wire, request).Some? && request.installId in store.installs
    && store.installs[request.installId].record.status != Revoked
    && var id := CredentialOf(wire, request).value.id;
       if request.grant != ""
       then id in store.grants && store.grants[id].record.revokedAt.None? && now < store.grants[id].record.expiresAt
       else id in store.invites && store.invites[id].record.revokedAt.None?
  }

  // The install the request described, under its own keys.
  lemma SuccessStores(wire: Wire, organization: string, store: Store, request: EnrollRequest)
    requires Succeeded(wire, organization, store, request)
    ensures request.installId in store.installs
    ensures var install := store.installs[request.installId].record;
      && install.status == Active && install.organization == organization
      && install.devicePublicKey == request.devicePublicKey && install.ageRecipient == request.ageRecipient
      && (request.grant == "" ==> install.digest == Sha256(wire.marshal(request)))
  {
  }

  /** After any drift a request that succeeded is answered with success iff it is still honoured, and writes nothing. */
  lemma SuccessIsRecovered(wire: Wire, organization: string, s: Store, t: Store, request: EnrollRequest, now: int)
    requires Succeeded(wire, organization, s, request) && Drifts(s, t)
    ensures VerdictFor(wire, organization, t, request, now) == Enrolled <==> Honoured(wire, t, request, now)
    ensures WritesFor(wire, organization, t, request, now) == []
  {
    hide Drifts, EnrollVerdict, EnrollWrites, GrantVerdict, GrantWrites, InviteStands, GrantStands;
    var token, record := CredentialOf(wire, request).value, RecordOf(wire, request);
    if request.grant != "" {
      LostGrantIsRecovered(organization, s, t, token, record, record, now);
    } else {
      LostSuccessIsRecovered(organization, s, t, token, record, now);
    }
  }

  /** A refused credential costs nothing: the server wrote nothing for it. */
  lemma RefusalWritesNothing(wire: Wire, organization: string, store: Store, request: EnrollRequest, now: int)
    requires VerdictFor(wire, organization, store, request, now) == Forbidden
    ensures WritesFor(wire, organization, store, request, now) == [] && ApplyAll(store, []) == store
  {
  }

  class Client {
    const server: Manager
    const wire: Wire
    var saved: Option<Saved>
    // Every request sent since the pending attempt was created.
    ghost var sent: seq<EnrollRequest>

    constructor (server: Manager, wire: Wire)
      ensures this.server == server && this.wire == wire && saved == None && sent == []
    {
      this.server, this.wire, saved, sent := server, wire, None, [];
    }

    ghost predicate OneIdentity()
      reads this
    {
      if saved.None? then sent == [] else forall r <- sent :: SameInstall(r, saved.value.request)
    }

    /**
     * The server decides on the request; its answer may be lost, and the server itself may die. Left
     * alone it gives the verdict for this form and makes the writes for it.
     */
    method Exchange(request: EnrollRequest, now: int, quiet: bool) returns (answer: Answer, ghost decided: Answer)
      requires KeyedById(server.store) && request.installId != "" && Sendable(request)
      modifies server, this`sent
      ensures sent == old(sent) + [request]
      ensures Drifts(old(server.store), server.store)
      ensures answer == decided || (!quiet && answer == NoAnswer)
      ensures decided == Success ==> Succeeded(wire, server.organization, server.store, request)
      ensures quiet && |WritesFor(wire, server.organization, old(server.store), request, now)| <= old(server.survivals) ==>
        && answer == AnswerOf(VerdictFor(wire, server.organization, old(server.store), request, now))
        && server.store == ApplyAll(old(server.store), WritesFor(wire, server.organization, old(server.store), request, now))
      ensures quiet && answer == CredentialsRefused ==>
        && VerdictFor(wire, server.organization, old(server.store), request, now) == Forbidden
        && server.store == old(server.store) && server.survivals == old(server.survivals)
    {
      hide InviteStands, GrantStands, EnrollVerdict, EnrollWrites, GrantVerdict, GrantWrites;
      StaysPut(server.store);
      sent := sent + [request];
      var parsed := wire.parse(if request.grant != "" then request.grant else request.invite);
      if parsed.None? { return CredentialsRefused, CredentialsRefused; }
      var verdict;
      if request.grant != "" {
        verdict := server.EnrollGrant(parsed.value, RecordOf(wire, request), now, quiet);
      } else {
        verdict := server.EnrollInvite(parsed.value, RecordOf(wire, request), now, quiet);
      }
      if VerdictFor(wire, server.organization, old(server.store), request, now) == Forbidden {
        RefusalWritesNothing(wire, server.organization, old(server.store), request, now);
      }
      decided := AnswerOf(verdict);
      answer := AnswerOf(verdict);
      var lost: bool := *;
      if lost && !quiet { answer := NoAnswer; }
    }

    // The saved attempt, or a new one written before anything is sent.
    method EnrollmentAttempt(endpoint: string, request: EnrollRequest, minted: KeyPair) returns (attempt: Option<Saved>, ok: bool)
      requires OneIdentity()
      modifies this`saved
      ensures OneIdentity()
      ensures ok ==> attempt.Some? && saved == attempt && Complete(endpoint, request) && Matches(attempt.value, request)
      ensures ok && old(saved).Some? ==> saved == old(saved)
      ensures ok && old(saved).None? ==>
        attempt.value == Saved(endpoint, minted, request.(devicePublicKey := minted.publicKey))
      ensures !ok ==> saved == old(saved) && (Complete(endpoint, request) ==> saved.Some? && !Matches(saved.value, request))
    {
      if !Complete(endpoint, request) { return None, false; }
      if saved.Some? {
        return saved, Matches(saved.value, request);
      }
      saved := Some(Saved(endpoint, minted, request.(devicePublicKey := minted.publicKey)));
      attempt, ok := saved, true;
    }

    // A login that sent the first k + 1 forms and answers what the service says to the last of them.
    ghost predicate Concluded(
        k: nat, outcome: Outcome, endpoint: string, token: string, given: EnrollRequest, minted: KeyPair, now: int,
        before: Option<Saved>, sentBefore: seq<EnrollRequest>, store: Store)
      reads this
    {
      var resumed := before.Some? && SameServer(before.value.endpoint, endpoint);
      var first := if resumed then before.value.request
                   else EnrollRequest(given.installId, given.ageRecipient, minted.publicKey, given.hostname, given.platform, token, "");
      var forms := Forms(first, token);
      && HeardAt(wire, server.organization, store, forms, now, k)
      && var verdict := Says(wire, server.organization, store, forms[k], now);
         && (outcome == Answered(Success) <==> verdict == Enrolled)
         && (outcome == Answered(Conflicted) <==> verdict == EnrollmentConflict)
         && (outcome == Answered(CredentialsRefused) <==> verdict == Forbidden)
         && sent == (if resumed then sentBefore else []) + forms[..k + 1]
         && saved.Some? && saved.value.request == forms[k]
         && (resumed ==> saved.value.endpoint == before.value.endpoint && saved.value.key == before.value.key)
         && (!resumed ==> saved.value.endpoint == endpoint && saved.value.key == minted)
    }

    /** With nothing saved: success when the token is accepted as an invite, or refused as one and accepted as a grant. */
    lemma FreshLogin(
        k: nat, outcome: Outcome, endpoint: string, token: string, given: EnrollRequest, minted: KeyPair, now: int,
        sentBefore: seq<EnrollRequest>, store: Store)
      requires token != "" && Concluded(k, outcome, endpoint, token, given, minted, now, None, sentBefore, store)
      ensures var invite := EnrollRequest(given.installId, given.ageRecipient, minted.publicKey, given.hostname, given.platform, token, "");
        var grant := EnrollRequest(given.installId, given.ageRecipient, minted.publicKey, given.hostname, given.platform, "", token);
        var asInvite := AsInvite(wire, server.organization, store, token, invite, now);
        var asGrant := AsGrant(wire, server.organization, store, token, grant, now);
        && (outcome == Answered(Success) <==> asInvite == Enrolled || (asInvite == Forbidden && asGrant == Enrolled))
        && (outcome == Answered(CredentialsRefused) <==> asInvite == Forbidden && asGrant == Forbidden)
        && sent == if asInvite == Forbidden then [invite, grant] else [invite]
    {
      var invite := EnrollRequest(given.installId, given.ageRecipient, minted.publicKey, given.hostname, given.platform, token, "");
      var grant := invite.(invite := "", grant := token);
      var forms := Forms(invite, token);
      assert forms == [invite, grant];
      hide AsInvite, AsGrant, Forms;
      assert Says(wire, server.organization, store, invite, now) == AsInvite(wire, server.organization, store, token, invite, now);
      assert Says(wire, server.organization, store, grant, now) == AsGrant(wire, server.organization, store, token, grant, now);
      assert sent == forms[..k + 1] && forms[0] == invite;
      if k == 0 { assert forms[..1] == [invite]; } else { assert forms[..2] == [invite, grant]; }
    }

    // The loop of a login: send the saved form, and the next one for as long as credentials are refused.
    method SendForms(token: string, now: int, quiet: bool) returns (outcome: Outcome, ghost decided: Answer)
      requires KeyedById(server.store) && OneIdentity()
      requires token != "" && saved.Some? && Sendable(saved.value.request) && saved.value.request.installId != ""
      modifies this, server
      ensures OneIdentity() && Drifts(old(server.store), server.store)
      ensures saved.Some? && saved.value == old(saved).value.(request := saved.value.request)
      ensures SameInstall(saved.value.request, old(saved).value.request) && Sendable(saved.value.request)
      ensures old(sent) <= sent && |sent| <= |old(sent)| + 4
      ensures outcome == Answered(Success) ==> decided == Success
      ensures decided == Success ==>
        && sent != [] && sent[|sent| - 1] == saved.value.request
        && Succeeded(wire, server.organization, server.store, saved.value.request)
      ensures quiet ==> sent == old(sent) + Tried(wire, server.organization, old(server.store), old(saved).value.request, token, now)
      ensures quiet ==>
        var first := old(saved).value.request;
        var heard := Heard(wire, server.organization, old(server.store), first, token, now);
        |WritesFor(wire, server.organization, old(server.store), heard, now)| <= old(server.survivals) ==>
          && outcome == Answered(AnswerOf(VerdictFor(wire, server.organization, old(server.store), heard, now)))
          && server.store == ApplyAll(old(server.store), WritesFor(wire, server.organization, old(server.store), heard, now))
          && saved.value.request == heard && sent != [] && sent[|sent| - 1] == heard
          && (VerdictFor(wire, server.organization, old(server.store), first, now) != Forbidden ==>
                heard == first && sent == old(sent) + [first])
    {
      hide Drifts, VerdictFor, WritesFor, Succeeded, Heard, Tried, ApplyAll, KeyedById;
      StaysPut(server.store);
      var request := saved.value.request;
      ghost var first := request;
      ghost var heard := Heard(wire, server.organization, server.store, request, token, now);
      ghost var tried := Tried(wire, server.organization, server.store, request, token, now);
      while true
        invariant KeyedById(server.store) && Drifts(old(server.store), server.store)
        invariant saved == Some(old(saved).value.(request := request)) && SameInstall(request, first)
        invariant request.installId != "" && Sendable(request)
        invariant old(sent) <= sent && |sent| + Turns(request, token) <= |old(sent)| + Turns(first, token)
        invariant OneIdentity()
        invariant quiet ==> server.store == old(server.store) && server.survivals == old(server.survivals)
        invariant quiet ==> Heard(wire, server.organization, server.store, request, token, now) == heard
        invariant quiet ==> sent + Tried(wire, server.organization, server.store, request, token, now) == old(sent) + tried
        invariant quiet && VerdictFor(wire, server.organization, old(server.store), first, now) != Forbidden ==>
          request == first && sent == old(sent)
        decreases Turns(request, token)
      {
        var dies: bool := *;
        if dies && !quiet { return Died, NoAnswer; }
        ghost var s := server.store;
        HeardUnfolds(wire, server.organization, s, request, token, now);
        var answer;
        answer, decided := Exchange(request, now, quiet);
        DriftsTransitive(old(server.store), s, server.store);
        DriftFacts(s, server.store, "", request.installId);
        if answer != CredentialsRefused { return Answered(answer), decided; }
        if request.invite != "" {
          request := request.(grant := request.invite, invite := "");
        } else if request.grant != token {
          request := request.(invite := token, grant := "");
        } else {
          return Answered(answer), decided;
        }
        // The next form is on disk before it is sent.
        saved := Some(saved.value.(request := request));
      }
    }

    /**
     * One login attempt. Everything it sends names the install of the pending attempt, in at most four
     * exchanges, wherever it dies; when the server decided for it, the request that succeeded is the one
     * on disk. On a quiet network its outcome is the server's verdict on the first form of the request
     * whose credential is not refused, and nothing else is written.
     */
    method EnrollInteractive(endpoint: string, token: string, given: EnrollRequest, minted: KeyPair, now: int, quiet: bool)
      returns (outcome: Outcome, ghost decided: Answer)
      requires KeyedById(server.store) && OneIdentity()
      modifies this, server
      ensures OneIdentity() && Drifts(old(server.store), server.store)
      ensures old(saved).Some? && SameServer(old(saved).value.endpoint, endpoint) ==>
        && old(sent) <= sent && |sent| <= |old(sent)| + 4
        && saved.Some? && SameInstall(saved.value.request, old(saved).value.request)
        && SameServer(saved.value.endpoint, endpoint)
      ensures old(saved).None? || !SameServer(old(saved).value.endpoint, endpoint) ==>
        |sent| <= 4 || sent == old(sent)
      ensures saved.Some? && old(saved).None? ==>
        saved.value.endpoint == endpoint && saved.value.request.installId == given.installId && saved.value.request.ageRecipient == given.ageRecipient
      ensures outcome == Answered(Success) ==> decided == Success
      ensures decided == Success ==>
        && saved.Some? && sent != [] && sent[|sent| - 1] == saved.value.request
        && saved.value.request.installId == given.installId
        && endpoint != "" && given.installId != "" && given.ageRecipient != ""
        && SameServer(saved.value.endpoint, endpoint) && Matches(saved.value, given.(invite := token, grant := ""))
        && Succeeded(wire, server.organization, server.store, saved.value.request)
        && given.installId in server.store.installs
        && var install := server.store.installs[given.installId].record;
           && install.status == Active && install.organization == server.organization
           && install.devicePublicKey == saved.value.key.publicKey && install.ageRecipient == given.ageRecipient
           && (saved.value.request.invite != "" ==> install.digest == Sha256(wire.marshal(saved.value.request)))
      ensures !Proceeds(old(saved), endpoint, given.(invite := token, grant := "")) ==>
        && outcome == (if Complete(endpoint, given.(invite := token, grant := "")) then Mismatched else Incomplete)
        && saved == old(saved) && sent == old(sent) && server.store == old(server.store)
      ensures quiet && Proceeds(old(saved), endpoint, given.(invite := token, grant := "")) ==>
        var first := FirstForm(old(saved), endpoint, given.(invite := token, grant := ""), minted);
        var heard := Heard(wire, server.organization, old(server.store), first, token, now);
        |WritesFor(wire, server.organization, old(server.store), heard, now)| <= old(server.survivals) ==>
          && outcome == Answered(AnswerOf(VerdictFor(wire, server.organization, old(server.store), heard, now)))
          && server.store == ApplyAll(old(server.store), WritesFor(wire, server.organization, old(server.store), heard, now))
          && saved.Some? && saved.value.request == heard && sent != [] && sent[|sent| - 1] == heard
          && (VerdictFor(wire, server.organization, old(server.store), first, now) != Forbidden
              && old(saved).Some? && SameServer(old(saved).value.endpoint, endpoint) ==>
                heard == first && saved == old(saved) && sent == old(sent) + [first])
      // Form by form: the credential is offered as it was saved, as a grant, and then the given token both ways.
      ensures quiet && Proceeds(old(saved), endpoint, given.(invite := token, grant := "")) && old(server.survivals) >= 4 ==>
        exists k: nat :: Concluded(k, outcome, endpoint, token, given, minted, now, old(saved), old(sent), old(server.store))
    {
      hide Drifts, VerdictFor, WritesFor, Succeeded, Heard, Tried, Forms, Says;
      StaysPut(server.store);
      var request := given.(invite := token, grant := "");
      var attempt, ok := EnrollmentAttempt(endpoint, request, minted);
      if !ok { return if Complete(endpoint, request) then Mismatched else Incomplete, NoAnswer; }
      if !SameServer(attempt.value.endpoint, endpoint) {
        // A corrected server cannot have consumed the request sent to the previous one.
        saved, sent := None, [];
        attempt, ok := EnrollmentAttempt(endpoint, request, minted);
        if !ok { return Mismatched, NoAnswer; }
      }
      ghost var first, sentFirst := saved.value.request, sent;
      outcome, decided := SendForms(token, now, quiet);
      if decided == Success { SuccessStores(wire, server.organization, server.store, saved.value.request); }
      if quiet {
        ghost var k := FormsAreTried(wire, server.organization, old(server.store), first, token, now);
        WritesAreFew(wire, server.organization, old(server.store), Forms(first, token)[k], now);
        SaysIsTheVerdict(wire, server.organization, old(server.store), Forms(first, token)[k], now) by { FormsFollow(first, token); }
        assert old(server.survivals) >= 4 ==> Concluded(k, outcome, endpoint, token, given, minted, now, old(saved), old(sent), old(server.store));
      }
    }

    /**
     * A login the server decided to accept, its answer perhaps lost on the wire or the client dead
     * before it was used; then anything at all happens on the server but a release; then a later login,
     * with any token and a freshly minted key. As long as nobody took the enrollment back, that login
     * succeeds in one exchange with the very request that was accepted, for the same install, and the
     * server writes nothing.
     */
    method LoginAgain(endpoint: string, token: string, again: string, given: EnrollRequest,
                      minted: KeyPair, mintedAgain: KeyPair, now: int, later: int)
      returns (outcome: Outcome, ghost decided: Answer, ghost kept: Option<Saved>, ghost before: seq<EnrollRequest>, ghost between: Store)
      requires KeyedById(server.store) && OneIdentity() && again != ""
      modifies this, server
      ensures OneIdentity() && Drifts(old(server.store), between) && Drifts(between, server.store)
      ensures decided == Success ==>
        && kept.Some? && before != [] && before[|before| - 1] == kept.value.request && kept.value.request.installId == given.installId
        && (Honoured(wire, between, kept.value.request, later) ==>
              && outcome == Answered(Success) && saved == kept && sent == before + [kept.value.request]
              && server.store == between)
    {
      hide Drifts, Honoured, Succeeded, VerdictFor, WritesFor;
      var answered: Outcome;
      answered, decided := EnrollInteractive(endpoint, token, given, minted, now, false);
      DriftFacts(old(server.store), server.store, "", "");
      kept, before := saved, sent;
      ghost var after := server.store;
      server.Interfere(false);
      DriftFacts(after, server.store, "", "");
      DriftsTransitive(old(server.store), after, server.store);
      between := server.store;
      if decided == Success {
        SuccessIsRecovered(wire, server.organization, after, between, kept.value.request, later);
      }
      ghost var settled;
      outcome, settled := EnrollInteractive(endpoint, again, given, mintedAgain, later, true);
    }

    /**
     * Any number of logins against one server, each with its own token, dying anywhere, with other
     * callers busy in between: they send one install only, four requests a login at most.
     */
    method Logins(endpoint: string, tokens: seq<string>, keys: seq<KeyPair>, given: EnrollRequest, now: int)
      requires KeyedById(server.store) && saved.None? && OneIdentity() && |tokens| == |keys|
      modifies this, server
      ensures OneIdentity() && |sent| <= 4 * |tokens|
      ensures forall a <- sent, b <- sent ::
        SameInstall(a, b) && a.installId == b.installId && a.ageRecipient == b.ageRecipient && a.devicePublicKey == b.devicePublicKey
      ensures Drifts(old(server.store), server.store)
    {
      hide Drifts, SameServer;
      StaysPut(server.store);
      for i := 0 to |tokens|
        invariant KeyedById(server.store) && OneIdentity() && |sent| <= 4 * i
        invariant saved.Some? ==> SameServer(saved.value.endpoint, endpoint)
        invariant Drifts(old(server.store), server.store)
      {
        ghost var s := server.store;
        server.Interfere(false);
        DriftFacts(s, server.store, "", "");
        DriftsTransitive(old(server.store), s, server.store);
        ghost var t := server.store;
        var _, _ := EnrollInteractive(endpoint, tokens[i], given, keys[i], now, false);
        DriftFacts(t, server.store, "", "");
        DriftsTransitive(old(server.store), t, server.store);
        SameServerReflexive(endpoint);
      }
    }
  }

  function Slashes(n: nat): string { if n == 0 then "" else Slashes(n - 1) + "/" }

  // Neither empty text nor any other that does not end in a slash.
  predicate Bare(base: string) { base == "" || base[|base| - 1] != '/' }

  lemma {:induction false} TrimmedIsBare(endpoint: string) returns (n: nat)
    ensures Bare(TrimSlashes(endpoint)) && endpoint == TrimSlashes(endpoint) + Slashes(n)
    decreases |endpoint|
  {
    n := 0;
    if endpoint != "" && endpoint[|endpoint| - 1] == '/' {
      n := TrimmedIsBare(endpoint[..|endpoint| - 1]);
      n := n + 1;
      assert endpoint == endpoint[..|endpoint| - 1] + "/";
      assert endpoint == TrimSlashes(endpoint) + (Slashes(n - 1) + "/");
    }
  }

  lemma {:induction false} BareIsTrimmed(base: string, n: nat)
    requires Bare(base)
    ensures TrimSlashes(base + Slashes(n)) == base
    decreases n
  {
    if n == 0 {
      assert base + "" == base;
    } else {
      OneSlashMore(base + Slashes(n - 1));
      assert base + Slashes(n) == (base + Slashes(n - 1)) + "/";
      BareIsTrimmed(base, n - 1);
    }
  }

  lemma {:induction false} OneSlashMore(text: string)
    ensures TrimSlashes(text + "/") == TrimSlashes(text)
  {
    var e := text + "/";
    assert e[|e| - 1] == '/' && e[..|e| - 1] == text;
  }

  /** Two endpoints are the same server exactly when they differ by slashes at the end. */
  lemma SameServerExactly(a: string, b: string)
    ensures SameServer(a, b) <==> exists base, m, n :: Bare(base) && a == base + Slashes(m) && b == base + Slashes(n)
  {
    if SameServer(a, b) {
      var m := TrimmedIsBare(a);
      var n := TrimmedIsBare(b);
      assert a == TrimSlashes(a) + Slashes(m) && b == TrimSlashes(a) + Slashes(n);
    }
    forall base, m, n | Bare(base) && a == base + Slashes(m) && b == base + Slashes(n) ensures SameServer(a, b) {
      BareIsTrimmed(base, m);
      BareIsTrimmed(base, n);
    }
  }

  /**
   * A login sends nothing exactly when something it needs is missing, or the attempt on disk is another
   * install's or recipient's, or is broken: a key that does not fit, no single credential, no endpoint.
   */
  lemma WhoProceeds(saved: Option<Saved>, endpoint: string, token: string, given: EnrollRequest)
    ensures var kept := if saved.Some? then saved.value.request else given;
      Proceeds(saved, endpoint, given.(invite := token, grant := "")) <==>
        && endpoint != "" && given.installId != "" && given.ageRecipient != "" && token != ""
        && (saved.Some? ==>
              && kept.installId == given.installId && kept.ageRecipient == given.ageRecipient
              && kept.devicePublicKey == saved.value.key.publicKey && saved.value.endpoint != ""
              && (kept.grant == "" || kept.invite == "") && !(kept.grant == "" && kept.invite == ""))
    ensures saved.Some? ==>
      var kept := saved.value.request;
      Matches(saved.value, given) <==>
        && kept.installId == given.installId && kept.ageRecipient == given.ageRecipient
        && kept.devicePublicKey == saved.value.key.publicKey && saved.value.endpoint != ""
        && (kept.grant == "" || kept.invite == "") && !(kept.grant == "" && kept.invite == "")
        && (given.grant == "" || kept.grant != "")
  {
  }

  lemma SameServerReflexive(endpoint: string)
    ensures SameServer(endpoint, endpoint)
  {
  }
}
