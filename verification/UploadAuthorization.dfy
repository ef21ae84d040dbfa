/** The fleet's answer to an upload request: what it validates, what it skips, what a signer may return. */
module UploadAuthorization {
  import opened Wrappers

  const MAX_OBJECTS := 32
  const MAX_OBJECT_BYTES := 0x4000_0000
  const MAX_BATCH_BYTES := 0x4000_0000
  const MINUTE := 60_000_000_000
  const MAX_AGE := 5 * MINUTE
  const SKEW := MINUTE
  const TICKET_LIFETIME := 5 * MINUTE

  type Metadata = map<string, string>

  datatype Wanted = Wanted(objectId: string, key: string, size: int, sourceHash: string, metadata: Metadata)
  datatype Request = Request(writerId: string, issuedAt: int, objects: seq<Wanted>)
  datatype Install = Install(organization: string, id: string)
  datatype Object = Object(
    objectId: string, ticketId: string, key: string, size: int, metadata: Metadata, tagging: string, mirror: bool)

  // What a key names: the regular grammars are decisions made on the text.
  datatype Named = Mirror(organization: string, install: string, source: string)
    | Heartbeat(organization: string, install: string)
    | Unknown
  datatype Grammar = Grammar(
    writer: string -> bool, objectId: string -> bool, hash: string -> bool, named: string -> Named,
    value: (string, string) -> bool)

  // None of the grammars accepts an empty value.
  ghost predicate Strict(g: Grammar) { !g.hash("") && forall name :: !g.value(name, "") }

  // --- validating a request --------------------------------------------------------------------

  const SERVER_DERIVED := {"source-hash", "ticket-id"}
  const MIRROR_REQUIRED := {"manifest-version", "source-id", "shipped-hash", "artifact-class"}
  const MIRROR_NAMES := MIRROR_REQUIRED + {"agent-version", "shape-sniff", "derived", "enrich-status"}
  const HEARTBEAT_NAMES := {"kind"}

  function Value(metadata: Metadata, name: string): string { if name in metadata then metadata[name] else "" }

  predicate MetadataOk(g: Grammar, metadata: Metadata, allowed: set<string>, required: set<string>) {
    && (forall name <- metadata :: name !in SERVER_DERIVED && name in allowed && g.value(name, metadata[name]))
    && (forall name <- required :: Value(metadata, name) != "")
  }

  function ValidObject(g: Grammar, to: Install, o: Wanted): Option<Object> {
    var named := g.named(o.key);
    if o.size <= 0 || o.size > MAX_OBJECT_BYTES || !g.hash(o.sourceHash) || named.Unknown? then None
    else if named.organization != to.organization || named.install != to.id then None
    else if named.Mirror? && Value(o.metadata, "source-id") != named.source then None
    else if named.Mirror? && !MetadataOk(g, o.metadata, MIRROR_NAMES, MIRROR_REQUIRED) then None
    else if named.Heartbeat? && !MetadataOk(g, o.metadata, HEARTBEAT_NAMES, HEARTBEAT_NAMES) then None
    else Some(Object(o.objectId, "", o.key, o.size, o.metadata["source-hash" := o.sourceHash], "", named.Mirror?))
  }

  /** An accepted object lies under its install's own root, fits, and carries only metadata a client may set. */
  lemma AcceptedStaysInItsRoot(g: Grammar, to: Install, o: Wanted)
    requires ValidObject(g, to, o).Some?
    ensures var v := ValidObject(g, to, o).value;
      var named := g.named(v.key);
      && !named.Unknown? && named.organization == to.organization && named.install == to.id
      && 0 < v.size <= MAX_OBJECT_BYTES && (v.objectId, v.key, v.size) == (o.objectId, o.key, o.size)
      && v.metadata.Keys == o.metadata.Keys + {"source-hash"} && v.metadata["source-hash"] == o.sourceHash
      && (forall name :: name in o.metadata ==> name !in SERVER_DERIVED && v.metadata[name] == o.metadata[name])
      && (named.Mirror? ==> v.mirror && Value(v.metadata, "source-id") == named.source)
      && (named.Mirror? ==> forall name :: name in MIRROR_REQUIRED ==> Value(v.metadata, name) != "")
  {
  }

  /**
   * A descriptor is accepted exactly when its size and hash are in order and its key names an object of this
   * install: a mirrored file whose metadata are of the eight names, valid, with the four that are required and
   * the key's own source; or the heartbeat with its one.
   */
  lemma WhichDescriptorsAreAccepted(g: Grammar, to: Install, o: Wanted)
    requires Strict(g)
    ensures var named := g.named(o.key);
      var ours := !named.Unknown? && named.organization == to.organization && named.install == to.id;
      var mirrored := named.Mirror?
        && (forall name <- o.metadata :: g.value(name, o.metadata[name])
              && name in {"manifest-version", "source-id", "shipped-hash", "artifact-class",
                          "agent-version", "shape-sniff", "derived", "enrich-status"})
        && (forall name <- {"manifest-version", "source-id", "shipped-hash", "artifact-class"} :: name in o.metadata)
        && o.metadata["source-id"] == named.source;
      var beat := named.Heartbeat? && o.metadata.Keys == {"kind"} && g.value("kind", o.metadata["kind"]);
      ValidObject(g, to, o).Some? <==> 1 <= o.size <= 1_073_741_824 && g.hash(o.sourceHash) && ours && (mirrored || beat)
  {
    assert forall name <- o.metadata :: g.value(name, o.metadata[name]) ==> o.metadata[name] != "";
    if g.named(o.key).Mirror? {
      MetadataIs(g, o.metadata, MIRROR_NAMES, MIRROR_REQUIRED);
    } else {
      MetadataIs(g, o.metadata, HEARTBEAT_NAMES, HEARTBEAT_NAMES);
    }
    hide MetadataOk;
  }

  lemma MetadataIs(g: Grammar, metadata: Metadata, allowed: set<string>, required: set<string>)
    requires Strict(g) && SERVER_DERIVED !! allowed && required <= allowed
    ensures MetadataOk(g, metadata, allowed, required) <==>
      (forall name <- metadata :: name in allowed && g.value(name, metadata[name])) && required <= metadata.Keys
  {
  }

  /** A request is acceptable exactly when it is timely, of one to 32 descriptors no two alike, each accepted, and fits a GiB. */
  lemma WhenARequestIsAcceptable(g: Grammar, to: Install, req: Request, now: int)
    ensures Acceptable(g, to, req, now) <==>
      && g.writer(req.writerId) && req.issuedAt != 0
      && req.issuedAt - 60_000_000_000 <= now <= req.issuedAt + 300_000_000_000
      && 1 <= |req.objects| <= 32 && TotalSize(req.objects) <= 1_073_741_824
      && (forall o <- req.objects :: g.objectId(o.objectId) && ValidObject(g, to, o).Some?)
      && (forall i, j :: 0 <= i < j < |req.objects| ==>
            req.objects[i].objectId != req.objects[j].objectId && req.objects[i].key != req.objects[j].key)
  {
    hide ValidObject;
  }

  function TotalSize(objects: seq<Wanted>): int
    decreases |objects|
  {
    if objects == [] then 0 else TotalSize(objects[..|objects| - 1]) + objects[|objects| - 1].size
  }

  ghost predicate Timely(req: Request, now: int) { req.issuedAt != 0 && -SKEW <= now - req.issuedAt <= MAX_AGE }

  // No two descriptors share an id or a key, each is valid, and together they fit.
  ghost predicate Distinct(objects: seq<Wanted>) {
    forall i, j :: 0 <= i < j < |objects| ==> objects[i].objectId != objects[j].objectId && objects[i].key != objects[j].key
  }

  ghost predicate AllValid(g: Grammar, to: Install, objects: seq<Wanted>) {
    forall o :: o in objects ==> g.objectId(o.objectId) && ValidObject(g, to, o).Some?
  }

  ghost predicate Acceptable(g: Grammar, to: Install, req: Request, now: int) {
    && g.writer(req.writerId) && Timely(req, now)
    && 1 <= |req.objects| <= MAX_OBJECTS
    && Batchable(g, to, req.objects)
  }

  ghost predicate Batchable(g: Grammar, to: Install, objects: seq<Wanted>) {
    Distinct(objects) && AllValid(g, to, objects) && TotalSize(objects) <= MAX_BATCH_BYTES
  }

  // Sizes are positive, so a prefix never outweighs the whole.
  lemma {:induction false} PrefixWeighsLess(g: Grammar, to: Install, objects: seq<Wanted>, n: nat)
    requires AllValid(g, to, objects) && n <= |objects|
    ensures TotalSize(objects[..n]) <= TotalSize(objects)
    decreases |objects|
  {
    if n == |objects| {
      assert objects[..n] == objects;
    } else {
      var before := objects[..|objects| - 1];
      assert objects[|objects| - 1] in objects;
      assert forall o :: o in before ==> o in objects;
      PrefixWeighsLess(g, to, before, n);
      assert before[..n] == objects[..n];
    }
  }

  ghost function Ids(objects: seq<Wanted>): set<string> { set o | o in objects :: o.objectId }
  ghost function Keys(objects: seq<Wanted>): set<string> { set o | o in objects :: o.key }

  lemma SeenGrows(objects: seq<Wanted>, i: nat)
    requires i < |objects|
    ensures Ids(objects[..i + 1]) == Ids(objects[..i]) + {objects[i].objectId}
    ensures Keys(objects[..i + 1]) == Keys(objects[..i]) + {objects[i].key}
    ensures TotalSize(objects[..i + 1]) == TotalSize(objects[..i]) + objects[i].size
  {
    var before, next := objects[..i], objects[..i + 1];
    assert next == before + [objects[i]];
    assert next[..i] == before;
    assert forall o :: o in next <==> o in before || o == objects[i];
  }

  lemma DistinctGrows(objects: seq<Wanted>, i: nat)
    requires i < |objects|
    ensures Distinct(objects[..i + 1]) <==>
      Distinct(objects[..i]) && objects[i].objectId !in Ids(objects[..i]) && objects[i].key !in Keys(objects[..i])
  {
    var before, next := objects[..i], objects[..i + 1];
    assert forall j :: 0 <= j < i ==> next[j] == before[j] && before[j] in before;
    assert next[i] == objects[i];
    if Distinct(next) {
      forall o | o in before ensures o.objectId != objects[i].objectId && o.key != objects[i].key {
        var j :| 0 <= j < i && before[j] == o;
        assert next[j] == o;
      }
    }
  }

  lemma DistinctPrefix(objects: seq<Wanted>, n: nat)
    requires Distinct(objects) && n <= |objects|
    ensures Distinct(objects[..n])
  {
  }

  // Any object that fails, or a prefix that does, fails the request.
  lemma PrefixDecides(g: Grammar, to: Install, objects: seq<Wanted>, i: nat)
    requires i < |objects| && Batchable(g, to, objects)
    ensures g.objectId(objects[i].objectId) && ValidObject(g, to, objects[i]).Some?
    ensures Distinct(objects[..i + 1]) && TotalSize(objects[..i + 1]) <= MAX_BATCH_BYTES
  {
    hide ValidObject, Distinct;
    assert objects[i] in objects;
    DistinctPrefix(objects, i + 1);
    PrefixWeighsLess(g, to, objects, i + 1);
  }

  method ValidateObjects(g: Grammar, to: Install, objects: seq<Wanted>) returns (r: Option<seq<Object>>)
    ensures r.Some? <==> Batchable(g, to, objects)
    ensures r.Some? ==> Validated(g, to, objects, r.value)
  {
    hide ValidObject, Distinct, TotalSize, Ids, Keys;
    var seenId: set<string>, seenKey: set<string> := {}, {};
    var out: seq<Object> := [];
    var total := 0;
    var i := 0;
    NothingSeen(objects);
    while i < |objects|
      invariant i <= |objects| && |out| == i && total == TotalSize(objects[..i]) <= MAX_BATCH_BYTES
      invariant seenId == Ids(objects[..i]) && seenKey == Keys(objects[..i]) && Distinct(objects[..i])
      invariant forall j :: 0 <= j < i ==> g.objectId(objects[j].objectId)
      invariant forall j :: 0 <= j < i ==> Some(out[j]) == ValidObject(g, to, objects[j])
    {
      var o := objects[i];
      if Batchable(g, to, objects) { PrefixDecides(g, to, objects, i); }
      SeenGrows(objects, i);
      DistinctGrows(objects, i);
      if !g.objectId(o.objectId) || o.objectId in seenId || o.key in seenKey { return None; }
      seenId, seenKey := seenId + {o.objectId}, seenKey + {o.key};
      var valid := ValidObject(g, to, o);
      if valid.None? { return None; }
      total := total + o.size;
      if total > MAX_BATCH_BYTES { return None; }
      out := out + [valid.value];
      i := i + 1;
    }
    assert objects[..i] == objects;
    return Some(out);
  }

  method ValidateUploadRequest(g: Grammar, to: Install, req: Request, now: int) returns (r: Option<seq<Object>>)
    ensures r.Some? <==> Acceptable(g, to, req, now)
    ensures r.Some? ==> Validated(g, to, req.objects, r.value)
  {
    hide Batchable, Validated;
    if !g.writer(req.writerId) || req.issuedAt == 0 { return None; }
    var age := now - req.issuedAt;
    if age > MAX_AGE || age < -SKEW { return None; }
    if |req.objects| == 0 || |req.objects| > MAX_OBJECTS { return None; }
    r := ValidateObjects(g, to, req.objects);
  }

  lemma NothingSeen(objects: seq<Wanted>)
    ensures Ids(objects[..0]) == {} && Keys(objects[..0]) == {} && Distinct(objects[..0]) && TotalSize(objects[..0]) == 0
  {
  }

  ghost predicate Validated(g: Grammar, to: Install, wanted: seq<Wanted>, objects: seq<Object>) {
    |objects| == |wanted| && forall i :: 0 <= i < |objects| ==> Some(objects[i]) == ValidObject(g, to, wanted[i])
  }

  // --- what the archive already holds ----------------------------------------------------------

  datatype Held = Held(source: string, shipped: string)
  datatype Url = Url(parses: bool, host: string, user: bool, scheme: string, loopback: bool, path: string)
  datatype Ticket = Ticket(
    ticketId: string, objectId: string, verb: string, url: Url, expiresAt: int, headers: Metadata,
    contentLength: int, lengthSigned: bool, alreadyPresent: bool)

  // The archive's answer for a key; a failed read is no answer. Only a mirror object can match.
  predicate Stored(held: string -> Option<Held>, o: Object) {
    && o.mirror && held(o.key).Some?
    && held(o.key).value.source == Value(o.metadata, "source-hash")
    && held(o.key).value.shipped != "" && held(o.key).value.shipped == Value(o.metadata, "shipped-hash")
  }

  function AlreadyPresent(o: Object): Ticket {
    Ticket(o.ticketId, o.objectId, "", Url(false, "", false, "", false, ""), 0, map[], 0, false, true)
  }

  ghost function Needed(held: string -> Option<Held>, objects: seq<Object>): seq<Object>
    decreases |objects|
  {
    if objects == [] then []
    else
      var last := objects[|objects| - 1];
      Needed(held, objects[..|objects| - 1]) + (if Stored(held, last) then [] else [last])
  }

  ghost function Answered(held: string -> Option<Held>, objects: seq<Object>): seq<Ticket>
    decreases |objects|
  {
    if objects == [] then []
    else
      var last := objects[|objects| - 1];
      Answered(held, objects[..|objects| - 1]) + (if Stored(held, last) then [AlreadyPresent(last)] else [])
  }

  // The archive's own record of this object's key names this very content: its raw bytes and what was
  // shipped of them.
  ghost predicate SameContent(answer: Option<Held>, metadata: Metadata) {
    && answer.Some?
    && answer.value.source == (if "source-hash" in metadata then metadata["source-hash"] else "")
    && answer.value.shipped != "" && "shipped-hash" in metadata && answer.value.shipped == metadata["shipped-hash"]
  }

  // Some of the objects, in their order: those at these positions.
  ghost predicate At(objects: seq<Object>, positions: seq<nat>) {
    && (forall p :: 0 <= p < |positions| ==> positions[p] < |objects|)
    && (forall p, q :: 0 <= p < q < |positions| ==> positions[p] < positions[q])
  }

  ghost predicate KeptAt(held: string -> Option<Held>, objects: seq<Object>, needed: seq<Object>, positions: seq<nat>) {
    && At(objects, positions) && |positions| == |needed|
    && forall p :: 0 <= p < |needed| ==>
         needed[p] == objects[positions[p]] && !(needed[p].mirror && SameContent(held(needed[p].key), needed[p].metadata))
  }

  ghost predicate SettledAt(held: string -> Option<Held>, objects: seq<Object>, settled: seq<Ticket>, positions: seq<nat>) {
    && At(objects, positions) && |positions| == |settled|
    && forall p :: 0 <= p < |settled| ==> var o := objects[positions[p]];
         && o.mirror && SameContent(held(o.key), o.metadata)
         && (settled[p].ticketId, settled[p].objectId, settled[p].verb, settled[p].alreadyPresent) == (o.ticketId, o.objectId, "", true)
  }

  /**
   * Each object goes one way: it needs no upload exactly when it is a mirror object whose key the archive
   * holds under the same source hash and the same, known, shipped hash. Both halves keep the order.
   */
  lemma {:induction false} SplitByContent(held: string -> Option<Held>, objects: seq<Object>) returns (kept: seq<nat>, had: seq<nat>)
    ensures KeptAt(held, objects, Needed(held, objects), kept) && SettledAt(held, objects, Answered(held, objects), had)
    ensures |kept| + |had| == |objects|
    decreases |objects|
  {
    kept, had := [], [];
    if objects != [] {
      var before, last := objects[..|objects| - 1], objects[|objects| - 1];
      kept, had := SplitByContent(held, before);
      assert objects == before + [last];
      SplitOneMore(held, before, last, Needed(held, before), Answered(held, before), kept, had);
      hide KeptAt, SettledAt;
      if last.mirror && SameContent(held(last.key), last.metadata) { had := had + [|before|]; } else { kept := kept + [|before|]; }
    }
  }

  lemma SplitOneMore(
      held: string -> Option<Held>, before: seq<Object>, last: Object, needed: seq<Object>, settled: seq<Ticket>, kept: seq<nat>, had: seq<nat>)
    requires KeptAt(held, before, needed, kept) && SettledAt(held, before, settled, had)
    ensures KeptAt(held, before + [last], needed, kept) && SettledAt(held, before + [last], settled, had)
    ensures !(last.mirror && SameContent(held(last.key), last.metadata)) ==> KeptAt(held, before + [last], needed + [last], kept + [|before|])
    ensures last.mirror && SameContent(held(last.key), last.metadata) ==>
      SettledAt(held, before + [last], settled + [AlreadyPresent(last)], had + [|before|])
  {
    hide SameContent;
  }

  method SplitAlreadyStored(held: string -> Option<Held>, objects: seq<Object>)
    returns (needed: seq<Object>, settled: seq<Ticket>)
    ensures needed == Needed(held, objects) && settled == Answered(held, objects)
    ensures exists kept, had :: KeptAt(held, objects, needed, kept) && SettledAt(held, objects, settled, had) && |kept| + |had| == |objects|
  {
    ghost var _, _ := SplitByContent(held, objects);
    needed, settled := [], [];
    for i := 0 to |objects|
      invariant needed == Needed(held, objects[..i]) && settled == Answered(held, objects[..i])
    {
      assert objects[..i + 1][..i] == objects[..i];
      if Stored(held, objects[i]) {
        settled := settled + [AlreadyPresent(objects[i])];
      } else {
        needed := needed + [objects[i]];
      }
    }
    assert objects[..|objects|] == objects;
  }

  // --- headers a ticket may demand -------------------------------------------------------------

  datatype Dialect = Aws | Gcp | Azure

  function DialectOf(name: string): Option<Dialect> {
    if "x-amz-" <= name then Some(Aws) else if "x-goog-" <= name then Some(Gcp) else if "x-ms-" <= name then Some(Azure) else None
  }

  function Underscored(name: string): string
    decreases |name|
  {
    if name == "" then "" else (if name[0] == '-' then "_" else [name[0]]) + Underscored(name[1..])
  }

  function MetaName(d: Dialect, name: string): string {
    match d
    case Aws => "x-amz-meta-" + name
    case Gcp => "x-goog-meta-" + name
    case Azure => "x-ms-meta-" + Underscored(name)
  }

  // The headers beside the metadata.
  function Extras(d: Dialect, o: Object): Metadata {
    match d
    case Aws => if o.tagging != "" then map["x-amz-tagging" := o.tagging] else map[]
    case Gcp => map[]
    case Azure => if o.tagging != "" then map["x-ms-blob-type" := "BlockBlob", "x-ms-tags" := o.tagging] else map["x-ms-blob-type" := "BlockBlob"]
  }

  // A name spelled with hyphens has one header in each dialect, and a value is never empty.
  ghost predicate Proper(metadata: Metadata) { forall name :: name in metadata ==> '_' !in name && metadata[name] != "" }

  lemma {:induction false} UnderscoredIsInjective(a: string, b: string)
    requires '_' !in a && '_' !in b && Underscored(a) == Underscored(b)
    ensures a == b
    decreases |a|
  {
    if a != "" && b != "" {
      assert Underscored(a)[1..] == Underscored(a[1..]) && Underscored(b)[1..] == Underscored(b[1..]);
      assert Underscored(a)[0] == Underscored(b)[0];
      UnderscoredIsInjective(a[1..], b[1..]);
      assert a == [a[0]] + a[1..] && b == [b[0]] + b[1..];
    }
  }

  lemma MetaNameIsInjective(d: Dialect, a: string, b: string)
    requires '_' !in a && '_' !in b && MetaName(d, a) == MetaName(d, b)
    ensures a == b
  {
    match d
    case Aws => assert ("x-amz-meta-" + a)[11..] == a && ("x-amz-meta-" + b)[11..] == b;
    case Gcp => assert ("x-goog-meta-" + a)[12..] == a && ("x-goog-meta-" + b)[12..] == b;
    case Azure =>
      assert ("x-ms-meta-" + Underscored(a))[10..] == Underscored(a) && ("x-ms-meta-" + Underscored(b))[10..] == Underscored(b);
      UnderscoredIsInjective(a, b);
  }

  // Header by header: this name stands for this metadata value in this dialect.
  ghost predicate Spells(d: Dialect, metadata: Metadata, header: string, value: string) {
    exists name :: name in metadata && MetaName(d, name) == header && metadata[name] == value
  }

  // The metadata's headers in one dialect, whatever order they are built in.
  ghost predicate MetaHeaders(d: Dialect, metadata: Metadata, want: Metadata) {
    && (forall name :: name in metadata ==> MetaName(d, name) in want && want[MetaName(d, name)] == metadata[name])
    && (forall h :: h in want ==> Spells(d, metadata, h, want[h]))
  }

  lemma OneSetOfHeaders(d: Dialect, metadata: Metadata, a: Metadata, b: Metadata)
    requires MetaHeaders(d, metadata, a) && MetaHeaders(d, metadata, b)
    ensures a == b
  {
    forall h | h in a ensures h in b && a[h] == b[h] {
      var name :| name in metadata && MetaName(d, name) == h && metadata[name] == a[h];
    }
    forall h | h in b ensures h in a {
      var name :| name in metadata && MetaName(d, name) == h && metadata[name] == b[h];
    }
  }

  method BuildHeaders(d: Dialect, metadata: Metadata) returns (want: Metadata)
    requires Proper(metadata)
    ensures MetaHeaders(d, metadata, want) && forall h :: h in want ==> want[h] != ""
  {
    want := map[];
    var left := metadata.Keys;
    while left != {}
      invariant left <= metadata.Keys
      invariant MetaHeaders(d, metadata - left, want) && forall h :: h in want ==> want[h] != ""
      decreases left
    {
      var name :| name in left;
      ghost var before := metadata - left;
      forall other | other in before ensures MetaName(d, other) != MetaName(d, name) {
        if MetaName(d, other) == MetaName(d, name) { MetaNameIsInjective(d, other, name); }
      }
      left := left - {name};
      ghost var after := metadata - left;
      assert after == before[name := metadata[name]];
      ghost var earlier := want;
      want := want[MetaName(d, name) := metadata[name]];
      forall h | h in want ensures Spells(d, after, h, want[h]) {
        if h == MetaName(d, name) {
          assert name in after;
        } else {
          assert Spells(d, before, h, earlier[h]);
        }
      }
    }
    assert metadata - left == metadata;
  }

  predicate LowerCase(name: string) { forall c <- name :: !('A' <= c <= 'Z') }

  // Exactly the headers of one dialect that carry this object's metadata, and no others.
  ghost predicate Exact(o: Object, headers: Metadata, d: Dialect) {
    && (forall h :: h in headers ==> LowerCase(h) && DialectOf(h) == Some(d))
    && exists want :: MetaHeaders(d, o.metadata, want) && headers == want + Extras(d, o)
  }

  ghost predicate ExactHeaders(o: Object, headers: Metadata) { headers != map[] && exists d :: Exact(o, headers, d) }

  method HeaderDialect(headers: Metadata) returns (dialect: Option<Dialect>)
    ensures dialect.Some? ==> headers != map[] && forall h :: h in headers ==> LowerCase(h) && DialectOf(h) == dialect
    ensures dialect.None? ==> headers == map[] || forall d :: exists h :: h in headers && !(LowerCase(h) && DialectOf(h) == Some(d))
  {
    dialect := None;
    var left := headers.Keys;
    while left != {}
      invariant left <= headers.Keys && (dialect.None? <==> left == headers.Keys)
      invariant forall h :: h in headers && h !in left ==> LowerCase(h) && DialectOf(h) == dialect
      decreases left
    {
      var h :| h in left;
      var spoken := DialectOf(h);
      if !LowerCase(h) || spoken.None? || (dialect.Some? && dialect != spoken) {
        if dialect.Some? && dialect != spoken { MixedDialects(headers, left, h, dialect); }
        return None;
      }
      dialect := spoken;
      left := left - {h};
    }
    assert headers == map[] <==> headers.Keys == {};
  }

  lemma MixedDialects(headers: Metadata, left: set<string>, h: string, dialect: Option<Dialect>)
    requires left <= headers.Keys && left != headers.Keys && h in headers && DialectOf(h) != dialect
    requires forall other :: other in headers && other !in left ==> DialectOf(other) == dialect
    ensures forall d :: exists bad :: bad in headers && !(LowerCase(bad) && DialectOf(bad) == Some(d))
  {
    assert exists other :: other in headers && other !in left;
    var seen :| seen in headers && seen !in left;
    forall d ensures exists bad :: bad in headers && !(LowerCase(bad) && DialectOf(bad) == Some(d)) {
      var bad := if DialectOf(h) == Some(d) then seen else h;
      assert bad in headers && !(LowerCase(bad) && DialectOf(bad) == Some(d));
    }
  }

  lemma SubsetOfSameSize<T>(a: set<T>, b: set<T>)
    requires a <= b && |a| == |b|
    ensures a == b
  {
    assert |b - a| == |b| - |a|;
  }

  method ValidateTicketHeaders(o: Object, headers: Metadata) returns (ok: bool)
    requires Proper(o.metadata)
    ensures ok <==> ExactHeaders(o, headers)
  {
    if |headers| == 0 { return false; }
    var dialect := HeaderDialect(headers);
    if dialect.None? { return false; }
    var d := dialect.value;
    var meta := BuildHeaders(d, o.metadata);
    var want := meta + Extras(d, o);
    ok := CompareHeaders(headers, want);
    if ok {
      assert Exact(o, headers, d);
    } else if ExactHeaders(o, headers) {
      OnlyOneAnswer(o, headers, d, meta);
    }
  }

  lemma OnlyOneAnswer(o: Object, headers: Metadata, d: Dialect, meta: Metadata)
    requires ExactHeaders(o, headers) && MetaHeaders(d, o.metadata, meta)
    requires forall h :: h in headers ==> DialectOf(h) == Some(d)
    ensures headers == meta + Extras(d, o)
  {
    var other :| Exact(o, headers, other);
    var h :| h in headers;
    assert other == d;
    var want :| MetaHeaders(d, o.metadata, want) && headers == want + Extras(d, o);
    OneSetOfHeaders(d, o.metadata, want, meta);
  }

  method CompareHeaders(headers: Metadata, want: Metadata) returns (ok: bool)
    requires forall h :: h in want ==> want[h] != ""
    ensures ok <==> headers == want
  {
    if |headers| != |want| { return false; }
    var left := want.Keys;
    while left != {}
      invariant left <= want.Keys
      invariant forall h :: h in want && h !in left ==> h in headers && headers[h] == want[h]
      decreases left
    {
      var h :| h in left;
      if Value(headers, h) != want[h] { return false; }
      left := left - {h};
    }
    SubsetOfSameSize(want.Keys, headers.Keys);
    return true;
  }

  // --- spelled out ---------------------------------------------------------------------------------

  // The header that carries this metadata value: a hyphen is an underscore for one of the three.
  ghost predicate Carries(prefix: string, underscored: bool, name: string, header: string) {
    && |header| == |prefix| + |name| && prefix <= header
    && forall i :: 0 <= i < |name| ==> header[|prefix| + i] == if underscored && name[i] == '-' then '_' else name[i]
  }

  // The headers are these extra ones and one for each metadata value.
  ghost predicate HeadersAre(prefix: string, underscored: bool, metadata: Metadata, extras: Metadata, headers: Metadata) {
    && (forall h :: h in extras ==> h in headers && headers[h] == extras[h])
    && (forall name :: name in metadata ==> exists h :: h in headers && Carries(prefix, underscored, name, h) && headers[h] == metadata[name])
    && (forall h :: h in headers && h !in extras ==> exists name :: name in metadata && Carries(prefix, underscored, name, h) && headers[h] == metadata[name])
  }

  // In lower case, for a provider whose own headers all begin alike.
  ghost predicate Speaks(own: string, headers: Metadata) {
    headers != map[] && forall h :: h in headers ==> own <= h && forall i :: 0 <= i < |h| ==> !('A' <= h[i] <= 'Z')
  }

  lemma {:induction false} UnderscoredChars(name: string)
    ensures |Underscored(name)| == |name|
    ensures forall i :: 0 <= i < |name| ==> Underscored(name)[i] == if name[i] == '-' then '_' else name[i]
    decreases |name|
  {
    if name != "" {
      UnderscoredChars(name[1..]);
      assert forall i :: 1 <= i < |name| ==> name[i] == name[1..][i - 1] && Underscored(name)[i] == Underscored(name[1..])[i - 1];
    }
  }

  ghost function Own(d: Dialect): string {
    match d case Aws => "x-amz-" case Gcp => "x-goog-" case Azure => "x-ms-"
  }

  lemma MetaNameCarries(d: Dialect, name: string, header: string)
    ensures header == MetaName(d, name) <==> Carries(Own(d) + "meta-", d == Azure, name, header)
  {
    UnderscoredChars(name);
    CarriesBody(Own(d) + "meta-", d == Azure, name, if d == Azure then Underscored(name) else name, header);
    hide Carries, Underscored;
    assert Own(Aws) + "meta-" == "x-amz-meta-" && Own(Gcp) + "meta-" == "x-goog-meta-" && Own(Azure) + "meta-" == "x-ms-meta-";
  }

  lemma CarriesBody(prefix: string, underscored: bool, name: string, body: string, header: string)
    requires |body| == |name| && forall i :: 0 <= i < |name| ==> body[i] == if underscored && name[i] == '-' then '_' else name[i]
    ensures header == prefix + body <==> Carries(prefix, underscored, name, header)
  {
    if Carries(prefix, underscored, name, header) {
      assert header == header[..|prefix|] + header[|prefix|..];
      assert header[|prefix|..] == body;
    }
  }

  /**
   * What a ticket must demand to carry this object's metadata: in lower case, for S3 one x-amz-meta- header a
   * value and the tagging, for Cloud Storage the x-goog-meta- ones alone, for Azure the x-ms-meta- ones spelled
   * with underscores, the blob type, and the tags.
   */
  lemma TheHeadersOfAnObject(o: Object, headers: Metadata)
    requires Proper(o.metadata)
    ensures ExactHeaders(o, headers) <==>
      || (Speaks("x-amz-", headers)
          && HeadersAre("x-amz-meta-", false, o.metadata, if o.tagging == "" then map[] else map["x-amz-tagging" := o.tagging], headers))
      || (Speaks("x-goog-", headers) && HeadersAre("x-goog-meta-", false, o.metadata, map[], headers))
      || (Speaks("x-ms-", headers)
          && HeadersAre("x-ms-meta-", true, o.metadata,
                        if o.tagging == "" then map["x-ms-blob-type" := "BlockBlob"]
                        else map["x-ms-blob-type" := "BlockBlob", "x-ms-tags" := o.tagging], headers))
  {
    hide Exact, HeadersAre, Speaks;
    assert Own(Aws) + "meta-" == "x-amz-meta-" && Own(Gcp) + "meta-" == "x-goog-meta-" && Own(Azure) + "meta-" == "x-ms-meta-";
    ExactIn(o, headers, Aws);
    ExactIn(o, headers, Gcp);
    ExactIn(o, headers, Azure);
    if ExactHeaders(o, headers) {
      var d :| Exact(o, headers, d);
      assert d == Aws || d == Gcp || d == Azure;
    }
    if headers != map[] && (Exact(o, headers, Aws) || Exact(o, headers, Gcp) || Exact(o, headers, Azure)) {
      assert ExactHeaders(o, headers);
    }
  }

  lemma ExactIn(o: Object, headers: Metadata, d: Dialect)
    ensures headers != map[] && Exact(o, headers, d)
       <==> Speaks(Own(d), headers) && HeadersAre(Own(d) + "meta-", d == Azure, o.metadata, Extras(d, o), headers)
  {
    SpeaksOneDialect(d, headers);
    MetadataPart(o, headers, d);
    hide Speaks, LowerCase, DialectOf, Own, HeadersAre, Extras, MetaHeaders;
    if headers != map[] && Exact(o, headers, d) {
      var want :| MetaHeaders(d, o.metadata, want) && headers == want + Extras(d, o);
    }
  }

  lemma MetadataPart(o: Object, headers: Metadata, d: Dialect)
    ensures (exists want :: MetaHeaders(d, o.metadata, want) && headers == want + Extras(d, o))
       <==> HeadersAre(Own(d) + "meta-", d == Azure, o.metadata, Extras(d, o), headers)
  {
    ExtrasAreNoMetadata(d, o);
    var prefix, azure, extras := Own(d) + "meta-", d == Azure, Extras(d, o);
    forall name, h ensures Carries(prefix, azure, name, h) <==> h == MetaName(d, name) { MetaNameCarries(d, name, h); }
    hide Carries, Own, MetaName, HeadersAre, Extras, MetaHeaders;
    forall want | MetaHeaders(d, o.metadata, want) && headers == want + extras ensures HeadersAre(prefix, azure, o.metadata, extras, headers) {
      HeadersFollow(d, prefix, azure, o.metadata, extras, want);
    }
    if HeadersAre(prefix, azure, o.metadata, extras, headers) {
      HeadersSuffice(d, prefix, azure, o.metadata, extras, headers);
    }
  }

  lemma HeadersFollow(d: Dialect, prefix: string, azure: bool, metadata: Metadata, extras: Metadata, want: Metadata)
    requires forall name, h :: Carries(prefix, azure, name, h) <==> h == MetaName(d, name)
    requires MetaHeaders(d, metadata, want) && forall name :: MetaName(d, name) !in extras
    ensures HeadersAre(prefix, azure, metadata, extras, want + extras)
  {
    hide Carries, MetaName;
    var headers := want + extras;
    forall name | name in metadata
      ensures exists h :: h in headers && Carries(prefix, azure, name, h) && headers[h] == metadata[name]
    {
      assert Carries(prefix, azure, name, MetaName(d, name));
      assert headers[MetaName(d, name)] == metadata[name];
    }
    forall h | h in headers && h !in extras
      ensures exists name :: name in metadata && Carries(prefix, azure, name, h) && headers[h] == metadata[name]
    {
      assert Spells(d, metadata, h, want[h]);
      var name :| name in metadata && MetaName(d, name) == h && metadata[name] == want[h];
      assert Carries(prefix, azure, name, h);
    }
  }

  lemma HeadersSuffice(d: Dialect, prefix: string, azure: bool, metadata: Metadata, extras: Metadata, headers: Metadata)
    requires forall name, h :: Carries(prefix, azure, name, h) <==> h == MetaName(d, name)
    requires HeadersAre(prefix, azure, metadata, extras, headers) && forall name :: MetaName(d, name) !in extras
    ensures MetaHeaders(d, metadata, headers - extras.Keys)
    ensures headers == headers - extras.Keys + extras
  {
    hide Carries, MetaName;
    var want := headers - extras.Keys;
    forall name | name in metadata ensures MetaName(d, name) in want && want[MetaName(d, name)] == metadata[name] {
      var h :| h in headers && Carries(prefix, azure, name, h) && headers[h] == metadata[name];
      assert h == MetaName(d, name);
    }
    forall h | h in want ensures Spells(d, metadata, h, want[h]) {
      var name :| name in metadata && Carries(prefix, azure, name, h) && headers[h] == metadata[name];
      assert h == MetaName(d, name);
    }
  }

  lemma ExtrasAreNoMetadata(d: Dialect, o: Object)
    ensures forall name :: MetaName(d, name) !in Extras(d, o)
  {
    forall name ensures MetaName(d, name) !in Extras(d, o) {
      match d
      case Aws => assert MetaName(d, name)[6] == 'm' && "x-amz-tagging"[6] == 't';
      case Gcp =>
      case Azure => assert MetaName(d, name)[5] == 'm' && "x-ms-blob-type"[5] == 'b' && "x-ms-tags"[5] == 't';
    }
  }

  lemma SpeaksOneDialect(d: Dialect, headers: Metadata)
    ensures Speaks(Own(d), headers) <==> headers != map[] && forall h :: h in headers ==> LowerCase(h) && DialectOf(h) == Some(d)
  {
    forall h | h in headers
      ensures LowerCase(h) && DialectOf(h) == Some(d) <==> Own(d) <= h && forall i :: 0 <= i < |h| ==> !('A' <= h[i] <= 'Z')
    {
      HeaderSpeaks(d, h);
    }
    hide Own, LowerCase, DialectOf;
  }

  lemma HeaderSpeaks(d: Dialect, h: string)
    ensures LowerCase(h) && DialectOf(h) == Some(d) <==> Own(d) <= h && forall i :: 0 <= i < |h| ==> !('A' <= h[i] <= 'Z')
  {
    assert "x-amz-" <= h ==> h[2] == 'a';
    assert "x-goog-" <= h ==> h[2] == 'g';
    assert "x-ms-" <= h ==> h[2] == 'm';
    assert forall i :: 0 <= i < |h| ==> h[i] in h;
  }

  // --- what a signer may return ----------------------------------------------------------------

  datatype Batch = Batch(issuedAt: int, expiresAt: int, objects: seq<Object>)

  predicate EndsWith(text: string, suffix: string) { |suffix| <= |text| && text[|text| - |suffix|..] == suffix }

  predicate UrlOk(u: Url, key: string) {
    && u.parses && u.host != "" && !u.user
    && (u.scheme == "https" || (u.scheme == "http" && u.loopback))
    && EndsWith(u.path, "/" + key)
  }

  // A signed capability for this object and nothing else.
  ghost predicate Grants(b: Batch, o: Object, t: Ticket) {
    && t.objectId == o.objectId && t.ticketId == o.ticketId && t.verb == "PUT"
    && t.contentLength == o.size && t.lengthSigned
    && b.issuedAt < t.expiresAt <= b.expiresAt
    && UrlOk(t.url, o.key) && ExactHeaders(o, t.headers)
  }

  /** A ticket is for this object exactly when it names it, signs its size, expires in the window and puts to a safe address that ends in its key. */
  lemma WhatATicketMustBe(b: Batch, o: Object, t: Ticket)
    ensures Grants(b, o, t) <==>
      && t.objectId == o.objectId && t.ticketId == o.ticketId && t.verb == "PUT" && t.contentLength == o.size && t.lengthSigned
      && b.issuedAt < t.expiresAt <= b.expiresAt && ExactHeaders(o, t.headers)
      && t.url.parses && t.url.host != "" && !t.url.user
      && (t.url.scheme == "https" || (t.url.scheme == "http" && t.url.loopback))
      && (exists before: string :: t.url.path == before + ("/" + o.key))
  {
    hide ExactHeaders;
    var suffix := "/" + o.key;
    if EndsWith(t.url.path, suffix) { assert t.url.path == t.url.path[..|t.url.path| - |suffix|] + suffix; }
  }

  ghost predicate GrantsSome(b: Batch, t: Ticket) { exists o :: o in b.objects && Grants(b, o, t) }

  ghost predicate DistinctTickets(tickets: seq<Ticket>) {
    forall i, j :: 0 <= i < j < |tickets| ==> tickets[i].objectId != tickets[j].objectId
  }

  ghost predicate DistinctObjects(objects: seq<Object>) {
    forall i, j :: 0 <= i < j < |objects| ==> objects[i].objectId != objects[j].objectId
  }

  ghost predicate Honours(b: Batch, tickets: seq<Ticket>) {
    && |tickets| == |b.objects| && DistinctTickets(tickets)
    && forall t :: t in tickets ==> GrantsSome(b, t)
  }

  // Objects by id; a later one would replace an earlier.
  ghost function ById(objects: seq<Object>): map<string, Object>
    decreases |objects|
  {
    if objects == [] then map[]
    else ById(objects[..|objects| - 1])[objects[|objects| - 1].objectId := objects[|objects| - 1]]
  }

  lemma {:induction false} ByIdFinds(objects: seq<Object>, id: string)
    requires DistinctObjects(objects)
    ensures id in ById(objects) ==> ById(objects)[id] in objects && ById(objects)[id].objectId == id
    ensures forall o :: o in objects && o.objectId == id ==> id in ById(objects) && ById(objects)[id] == o
    decreases |objects|
  {
    if objects != [] {
      var before, last := objects[..|objects| - 1], objects[|objects| - 1];
      assert objects == before + [last];
      ByIdFinds(before, id);
    }
  }

  method CheckTicket(b: Batch, o: Object, t: Ticket) returns (ok: bool)
    requires t.objectId == o.objectId && Proper(o.metadata)
    ensures ok <==> Grants(b, o, t)
  {
    if t.ticketId != o.ticketId || t.verb != "PUT" || t.contentLength != o.size || !t.lengthSigned { return false; }
    if t.expiresAt > b.expiresAt || t.expiresAt <= b.issuedAt { return false; }
    if !t.url.parses || t.url.host == "" || t.url.user || !(t.url.scheme == "https" || (t.url.scheme == "http" && t.url.loopback)) {
      return false;
    }
    if !EndsWith(t.url.path, "/" + o.key) { return false; }
    ok := ValidateTicketHeaders(o, t.headers);
  }

  ghost function TicketIds(tickets: seq<Ticket>): set<string> { set t | t in tickets :: t.objectId }

  lemma NamedGrows(tickets: seq<Ticket>, i: nat)
    requires i < |tickets|
    ensures TicketIds(tickets[..i + 1]) == TicketIds(tickets[..i]) + {tickets[i].objectId}
    ensures DistinctTickets(tickets[..i + 1]) <==> DistinctTickets(tickets[..i]) && tickets[i].objectId !in TicketIds(tickets[..i])
  {
    var before, next := tickets[..i], tickets[..i + 1];
    assert next == before + [tickets[i]];
    assert forall t :: t in next <==> t in before || t == tickets[i];
    assert forall j :: 0 <= j < i ==> next[j] == before[j] && before[j] in before;
    if DistinctTickets(next) {
      forall t | t in before ensures t.objectId != tickets[i].objectId {
        var j :| 0 <= j < i && before[j] == t;
        assert next[j] == t;
      }
    }
  }

  lemma HonouredSoFar(b: Batch, tickets: seq<Ticket>, i: nat)
    requires Honours(b, tickets) && i < |tickets|
    ensures GrantsSome(b, tickets[i]) && DistinctTickets(tickets[..i + 1])
  {
    assert tickets[i] in tickets;
  }

  method IndexObjects(objects: seq<Object>) returns (index: map<string, Object>)
    ensures index == ById(objects)
  {
    index := map[];
    for i := 0 to |objects|
      invariant index == ById(objects[..i])
    {
      assert objects[..i + 1][..i] == objects[..i];
      index := index[objects[i].objectId := objects[i]];
    }
    assert objects[..|objects|] == objects;
  }

  // One ticket against the object it names.
  method CheckNamed(b: Batch, index: map<string, Object>, t: Ticket) returns (ok: bool)
    requires DistinctObjects(b.objects) && (forall o :: o in b.objects ==> Proper(o.metadata)) && index == ById(b.objects)
    ensures ok <==> GrantsSome(b, t)
  {
    hide ById, Proper, DistinctObjects;
    ByIdFinds(b.objects, t.objectId);
    GrantNamesItsObject(b, t);
    hide Grants;
    if t.objectId !in index { return false; }
    ok := CheckTicket(b, index[t.objectId], t);
  }

  method ValidateTicketBatch(b: Batch, tickets: seq<Ticket>) returns (ok: bool)
    requires DistinctObjects(b.objects) && forall o :: o in b.objects ==> Proper(o.metadata)
    ensures ok <==> Honours(b, tickets)
  {
    hide ById, GrantsSome, Proper, DistinctObjects, DistinctTickets, TicketIds;
    if |tickets| != |b.objects| { return false; }
    var index := IndexObjects(b.objects);
    var seen: set<string> := {};
    var i := 0;
    NothingNamed(tickets);
    while i < |tickets|
      invariant i <= |tickets| && seen == TicketIds(tickets[..i]) && DistinctTickets(tickets[..i])
      invariant forall j :: 0 <= j < i ==> GrantsSome(b, tickets[j])
    {
      var t := tickets[i];
      if Honours(b, tickets) { HonouredSoFar(b, tickets, i); }
      NamedGrows(tickets, i);
      var granted := CheckNamed(b, index, t);
      if t.objectId in seen || !granted { return false; }
      seen := seen + {t.objectId};
      i := i + 1;
    }
    assert tickets[..i] == tickets;
    return true;
  }

  lemma NothingNamed(tickets: seq<Ticket>)
    ensures TicketIds(tickets[..0]) == {} && DistinctTickets(tickets[..0])
  {
  }

  lemma GrantNamesItsObject(b: Batch, t: Ticket)
    ensures forall o :: Grants(b, o, t) ==> o.objectId == t.objectId
  {
  }

  // --- the answer as a whole -------------------------------------------------------------------

  function RequestedIds(objects: seq<Object>): seq<string> { seq(|objects|, i requires 0 <= i < |objects| => objects[i].objectId) }
  function AnsweredIds(tickets: seq<Ticket>): seq<string> { seq(|tickets|, i requires 0 <= i < |tickets| => tickets[i].objectId) }

  lemma {:induction false} SplitKeepsIds(held: string -> Option<Held>, objects: seq<Object>)
    ensures multiset(RequestedIds(Needed(held, objects))) + multiset(AnsweredIds(Answered(held, objects)))
         == multiset(RequestedIds(objects))
    ensures forall o :: o in Needed(held, objects) ==> o in objects && !Stored(held, o)
    ensures forall t :: t in Answered(held, objects) ==> exists o :: o in objects && Stored(held, o) && t == AlreadyPresent(o)
    decreases |objects|
  {
    if objects != [] {
      hide Stored, AlreadyPresent, RequestedIds, AnsweredIds;
      var before, last := objects[..|objects| - 1], objects[|objects| - 1];
      SplitKeepsIds(held, before);
      assert objects == before + [last];
      RequestedLast(before, last);
      RequestedLast(Needed(held, before), last);
      AnsweredLast(Answered(held, before), last);
    }
  }

  lemma RequestedLast(before: seq<Object>, last: Object)
    ensures multiset(RequestedIds(before + [last])) == multiset(RequestedIds(before)) + multiset{last.objectId}
    ensures before + [] == before
  {
    assert RequestedIds(before + [last]) == RequestedIds(before) + [last.objectId];
  }

  lemma AnsweredLast(before: seq<Ticket>, last: Object)
    ensures multiset(AnsweredIds(before + [AlreadyPresent(last)])) == multiset(AnsweredIds(before)) + multiset{last.objectId}
    ensures before + [] == before
  {
    assert AnsweredIds(before + [AlreadyPresent(last)]) == AnsweredIds(before) + [last.objectId];
  }

  ghost predicate NoRepeats(ids: seq<string>) { forall i, j :: 0 <= i < j < |ids| ==> ids[i] != ids[j] }

  lemma {:induction false} NoRepeatsIsASet(ids: seq<string>)
    requires NoRepeats(ids)
    ensures multiset(ids) == multiset(set id | id in ids) && |set id | id in ids| == |ids|
    decreases |ids|
  {
    if ids == [] {
      assert (set id | id in ids) == {};
    } else {
      var before, last := ids[..|ids| - 1], ids[|ids| - 1];
      assert ids == before + [last];
      NoRepeatsIsASet(before);
      assert last !in before;
      assert (set id | id in ids) == (set id | id in before) + {last};
      assert multiset(ids) == multiset(before) + multiset{last};
    }
  }

  // As many distinct ids, all among the others: the same ids.
  lemma SameIds(a: seq<string>, b: seq<string>)
    requires NoRepeats(a) && NoRepeats(b) && |a| == |b| && forall id :: id in a ==> id in b
    ensures multiset(a) == multiset(b)
  {
    NoRepeatsIsASet(a);
    NoRepeatsIsASet(b);
    SubsetOfSameSize(set id | id in a, set id | id in b);
  }

  lemma {:induction false} NeededStayDistinct(held: string -> Option<Held>, objects: seq<Object>)
    requires DistinctObjects(objects)
    ensures DistinctObjects(Needed(held, objects))
    decreases |objects|
  {
    if objects != [] {
      hide Stored;
      var before, last := objects[..|objects| - 1], objects[|objects| - 1];
      NeededStayDistinct(held, before);
      SplitKeepsIds(held, before);
      forall o | o in Needed(held, before) ensures o.objectId != last.objectId {
        var j :| 0 <= j < |before| && before[j] == o;
        assert objects[j] == o;
      }
    }
  }

  // Every object answered once: by a capability for it alone, or because the archive holds it.
  ghost predicate Resolves(b: Batch, held: string -> Option<Held>, t: Ticket) {
    exists o :: o in b.objects && ((Grants(b, o, t) && !Stored(held, o)) || (Stored(held, o) && t == AlreadyPresent(o)))
  }

  ghost predicate AnswersEach(b: Batch, held: string -> Option<Held>, tickets: seq<Ticket>) {
    && multiset(AnsweredIds(tickets)) == multiset(RequestedIds(b.objects))
    && forall t :: t in tickets ==> Resolves(b, held, t)
  }

  lemma SignedAndSettledAnswerEach(b: Batch, held: string -> Option<Held>, signed: seq<Ticket>)
    requires DistinctObjects(b.objects) && Honours(b.(objects := Needed(held, b.objects)), signed)
    ensures AnswersEach(b, held, signed + Answered(held, b.objects))
  {
    var needed := b.(objects := Needed(held, b.objects));
    var settled := Answered(held, b.objects);
    SplitKeepsIds(held, b.objects);
    NeededStayDistinct(held, b.objects);
    hide ExactHeaders, UrlOk, Stored, Needed, Answered;
    forall id | id in AnsweredIds(signed) ensures id in RequestedIds(needed.objects) {
      var i :| 0 <= i < |signed| && signed[i].objectId == id;
      assert signed[i] in signed;
      assert GrantsSome(needed, signed[i]);
      var o :| o in needed.objects && Grants(needed, o, signed[i]);
      var j :| 0 <= j < |needed.objects| && needed.objects[j] == o;
      assert RequestedIds(needed.objects)[j] == id;
    }
    SameIds(AnsweredIds(signed), RequestedIds(needed.objects));
    assert AnsweredIds(signed + settled) == AnsweredIds(signed) + AnsweredIds(settled);
    forall t | t in signed + settled ensures Resolves(b, held, t) {
      if t in signed {
        assert GrantsSome(needed, t);
        var o :| o in needed.objects && Grants(needed, o, t);
        assert o in b.objects && Grants(b, o, t) && !Stored(held, o);
      }
    }
  }

  // --- what a request is served, descriptor by descriptor -----------------------------------------

  // The archive holds the content this descriptor offers, under its key.
  ghost predicate Holds(g: Grammar, held: string -> Option<Held>, w: Wanted) {
    && g.named(w.key).Mirror? && held(w.key).Some? && held(w.key).value.source == w.sourceHash
    && held(w.key).value.shipped != "" && "shipped-hash" in w.metadata && held(w.key).value.shipped == w.metadata["shipped-hash"]
  }

  // The object a descriptor stands for: its metadata, its source hash and the ticket's id.
  ghost function Described(g: Grammar, w: Wanted, id: string): Object {
    Object(w.objectId, id, w.key, w.size, w.metadata["source-hash" := w.sourceHash]["ticket-id" := id], "", g.named(w.key).Mirror?)
  }

  // An answer that carries nothing but the news, or a capability to put this one object for five minutes.
  ghost predicate Serves(g: Grammar, held: string -> Option<Held>, w: Wanted, id: string, now: int, t: Ticket) {
    && t.ticketId == id && t.objectId == w.objectId
    && if Holds(g, held, w) then t.alreadyPresent && t.verb == "" && t.headers == map[] && t.expiresAt == 0 && t.contentLength == 0
       else
         && t.verb == "PUT" && t.contentLength == w.size && t.lengthSigned && now < t.expiresAt <= now + 300_000_000_000
         && t.url.parses && t.url.host != "" && !t.url.user && (t.url.scheme == "https" || (t.url.scheme == "http" && t.url.loopback))
         && (exists before: string :: t.url.path == before + "/" + w.key) && ExactHeaders(Described(g, w, id), t.headers)
  }

  // A minted object stands for its descriptor.
  lemma StandsFor(g: Grammar, to: Install, held: string -> Option<Held>, w: Wanted, id: string)
    requires ValidObject(g, to, w).Some?
    ensures var o := Minted(ValidObject(g, to, w).value, id);
      && o == Described(g, w, id) && (o.ticketId, o.objectId, o.key, o.size) == (id, w.objectId, w.key, w.size)
      && (Stored(held, o) <==> Holds(g, held, w))
  {
    hide MetadataOk;
    MetadataNames(g, to, w);
  }

  lemma MetadataNames(g: Grammar, to: Install, w: Wanted)
    requires ValidObject(g, to, w).Some?
    ensures "ticket-id" !in w.metadata && "source-hash" !in w.metadata
    ensures g.named(w.key).Mirror? ==> "shipped-hash" in w.metadata
  {
  }

  lemma GrantServes(g: Grammar, held: string -> Option<Held>, b: Batch, o: Object, w: Wanted, t: Ticket)
    requires Grants(b, o, t) && !Holds(g, held, w) && b.expiresAt == b.issuedAt + TICKET_LIFETIME
    requires o == Described(g, w, o.ticketId) && o.objectId == w.objectId && o.key == w.key && o.size == w.size
    ensures Serves(g, held, w, o.ticketId, b.issuedAt, t)
  {
    hide ExactHeaders, Holds;
    assert t.url.path == t.url.path[..|t.url.path| - |"/" + o.key|] + ("/" + o.key);
    assert t.url.path == t.url.path[..|t.url.path| - |"/" + o.key|] + "/" + w.key;
  }

  lemma ServesEach(
      g: Grammar, to: Install, wanted: seq<Wanted>, now: int, mint: nat -> string, held: string -> Option<Held>,
      answer: seq<Ticket>, i: nat, t: Ticket)
    requires Batchable(g, to, wanted) && AnswersEach(BatchOf(g, to, wanted, now, mint), held, answer)
    requires i < |wanted| && t in answer && t.objectId == wanted[i].objectId
    ensures Serves(g, held, wanted[i], mint(i), now, t)
  {
    assert wanted[i] in wanted;
    StandsFor(g, to, held, wanted[i], mint(i));
    hide Grants, Stored, ValidObject, Holds;
    var b := BatchOf(g, to, wanted, now, mint);
    BatchNames(g, to, wanted, now, mint);
    OneObjectEach(b, held, i, t);
    if Stored(held, b.objects[i]) {
      assert t == AlreadyPresent(b.objects[i]);
    } else {
      GrantServes(g, held, b, b.objects[i], wanted[i], t);
    }
  }

  lemma BatchNames(g: Grammar, to: Install, wanted: seq<Wanted>, now: int, mint: nat -> string)
    requires Batchable(g, to, wanted)
    ensures var b := BatchOf(g, to, wanted, now, mint);
      && |b.objects| == |wanted| && (forall j :: 0 <= j < |wanted| ==> b.objects[j].objectId == wanted[j].objectId)
      && DistinctObjects(b.objects)
  {
    hide MetadataOk;
    var b := BatchOf(g, to, wanted, now, mint);
    forall j | 0 <= j < |wanted| ensures b.objects[j].objectId == wanted[j].objectId {
      assert wanted[j] in wanted;
      assert b.objects[j] == Minted(ValidObject(g, to, wanted[j]).value, mint(j));
      AcceptedStaysInItsRoot(g, to, wanted[j]);
    }
  }

  lemma OneObjectEach(b: Batch, held: string -> Option<Held>, i: nat, t: Ticket)
    requires DistinctObjects(b.objects) && Resolves(b, held, t)
    requires i < |b.objects| && t.objectId == b.objects[i].objectId
    ensures if Stored(held, b.objects[i]) then t == AlreadyPresent(b.objects[i]) else Grants(b, b.objects[i], t)
  {
    hide Stored, Grants;
    GrantNamesItsObject(b, t);
    var o :| o in b.objects && ((Grants(b, o, t) && !Stored(held, o)) || (Stored(held, o) && t == AlreadyPresent(o)));
    var j :| 0 <= j < |b.objects| && b.objects[j] == o;
    assert j == i;
  }

  // One answer per descriptor, each serving it.
  ghost predicate ServesRequest(
      g: Grammar, held: string -> Option<Held>, wanted: seq<Wanted>, now: int, mint: nat -> string, answer: seq<Ticket>)
  {
    && |answer| == |wanted|
    && (forall i: nat :: i < |wanted| ==> exists t :: t in answer && t.objectId == wanted[i].objectId)
    && (forall i: nat, t :: i < |wanted| && t in answer && t.objectId == wanted[i].objectId ==> Serves(g, held, wanted[i], mint(i), now, t))
  }

  lemma RequestIsServed(
      g: Grammar, to: Install, wanted: seq<Wanted>, now: int, mint: nat -> string, held: string -> Option<Held>, answer: seq<Ticket>)
    requires Batchable(g, to, wanted) && AnswersEach(BatchOf(g, to, wanted, now, mint), held, answer)
    ensures ServesRequest(g, held, wanted, now, mint, answer)
  {
    var b := BatchOf(g, to, wanted, now, mint);
    BatchNames(g, to, wanted, now, mint);
    var asked, answered := RequestedIds(b.objects), AnsweredIds(answer);
    assert |multiset(answered)| == |answered| && |multiset(asked)| == |asked|;
    forall i: nat | i < |wanted| ensures exists t :: t in answer && t.objectId == wanted[i].objectId {
      assert asked[i] in multiset(asked);
      assert asked[i] in answered;
      var j :| 0 <= j < |answered| && answered[j] == asked[i];
      assert answer[j] in answer;
    }
    forall i: nat, t | i < |wanted| && t in answer && t.objectId == wanted[i].objectId
      ensures Serves(g, held, wanted[i], mint(i), now, t)
    {
      ServesEach(g, to, wanted, now, mint, held, answer, i, t);
    }
  }

  // --- the handler -----------------------------------------------------------------------------

  lemma ValidIsProper(g: Grammar, to: Install, o: Wanted)
    requires Strict(g) && ValidObject(g, to, o).Some?
    ensures Proper(ValidObject(g, to, o).value.metadata)
  {
    NamesAreHyphenated();
    var allowed := if g.named(o.key).Mirror? then MIRROR_NAMES else HEARTBEAT_NAMES;
    assert forall name :: name in o.metadata ==> name in allowed && o.metadata[name] != "";
    hide MetadataOk;
  }

  lemma NamesAreHyphenated()
    ensures forall name :: name in MIRROR_NAMES || name in HEARTBEAT_NAMES || name in SERVER_DERIVED ==> '_' !in name
  {
  }

  function Minted(o: Object, id: string): Object { o.(ticketId := id, metadata := o.metadata["ticket-id" := id]) }

  lemma MintingIsProper(o: Object, id: string)
    requires Proper(o.metadata) && id != ""
    ensures Proper(Minted(o, id).metadata)
  {
  }

  // The validated batch under its ticket ids.
  ghost function BatchOf(g: Grammar, to: Install, wanted: seq<Wanted>, now: int, mint: nat -> string): Batch
    requires Batchable(g, to, wanted)
  {
    Batch(now, now + TICKET_LIFETIME,
          seq(|wanted|, i requires 0 <= i < |wanted| => assert wanted[i] in wanted; Minted(ValidObject(g, to, wanted[i]).value, mint(i))))
  }

  ghost function NeededOf(held: string -> Option<Held>, b: Batch): Batch { b.(objects := Needed(held, b.objects)) }

  // Nothing to sign, or a signer that answers and honours what it was asked.
  ghost predicate Signed(held: string -> Option<Held>, sign: Batch -> Option<seq<Ticket>>, b: Batch) {
    var needed := NeededOf(held, b);
    needed.objects == [] || (sign(needed).Some? && Honours(needed, sign(needed).value))
  }

  lemma BatchIsProper(g: Grammar, to: Install, wanted: seq<Wanted>, now: int, mint: nat -> string)
    requires Strict(g) && (forall i :: mint(i) != "") && Batchable(g, to, wanted)
    ensures var b := BatchOf(g, to, wanted, now, mint);
      && DistinctObjects(b.objects) && (forall o :: o in b.objects ==> Proper(o.metadata))
      && |b.objects| == |wanted|
      && forall i :: 0 <= i < |wanted| ==>
           b.objects[i].objectId == wanted[i].objectId && b.objects[i].key == wanted[i].key && b.objects[i].size == wanted[i].size
  {
    hide MetadataOk, Proper;
    var b := BatchOf(g, to, wanted, now, mint);
    forall i | 0 <= i < |wanted| ensures Proper(b.objects[i].metadata) {
      assert wanted[i] in wanted;
      ValidIsProper(g, to, wanted[i]);
      MintingIsProper(ValidObject(g, to, wanted[i]).value, mint(i));
    }
    assert forall i :: 0 <= i < |wanted| ==> wanted[i] in wanted;
  }

  /**
   * The whole request: answered exactly when it is acceptable and whatever the archive lacks is signed as
   * asked; and an answer resolves each requested object exactly once.
   */
  method HandleUploadAuthorize(
      g: Grammar, to: Install, req: Request, now: int, mint: nat -> string, held: string -> Option<Held>,
      sign: Batch -> Option<seq<Ticket>>)
    returns (answer: Option<seq<Ticket>>)
    requires Strict(g) && forall i :: mint(i) != ""
    ensures answer.Some? <==> Acceptable(g, to, req, now) && Signed(held, sign, BatchOf(g, to, req.objects, now, mint))
    ensures answer.Some? ==> AnswersEach(BatchOf(g, to, req.objects, now, mint), held, answer.value)
    ensures answer.Some? ==> ServesRequest(g, held, req.objects, now, mint, answer.value)
  {
    hide Batchable, ValidObject, Honours, DistinctObjects, Proper, Needed, Answered, Timely;
    var valid := ValidateUploadRequest(g, to, req, now);
    if valid.None? { return None; }
    var objects := MintTickets(g, to, req.objects, valid.value, now, mint);
    ghost var batch := BatchOf(g, to, req.objects, now, mint);
    BatchIsProper(g, to, req.objects, now, mint);
    var needed, settled := SplitAlreadyStored(held, objects);
    SplitKeepsIds(held, objects);
    NeededStayDistinct(held, objects);
    var signed: seq<Ticket> := [];
    if |needed| > 0 {
      var returned := sign(Batch(now, now + TICKET_LIFETIME, needed));
      if returned.None? { return None; }
      signed := returned.value;
      var ok := ValidateTicketBatch(Batch(now, now + TICKET_LIFETIME, needed), signed);
      if !ok { return None; }
    } else {
      NothingToHonour(batch.(objects := needed));
    }
    SignedAndSettledAnswerEach(batch, held, signed);
    RequestIsServed(g, to, req.objects, now, mint, held, signed + settled);
    return Some(signed + settled);
  }

  lemma NothingToHonour(b: Batch)
    requires b.objects == []
    ensures Honours(b, [])
  {
  }

  method MintTickets(g: Grammar, to: Install, wanted: seq<Wanted>, valid: seq<Object>, now: int, mint: nat -> string) returns (objects: seq<Object>)
    requires Batchable(g, to, wanted) && Validated(g, to, wanted, valid)
    ensures objects == BatchOf(g, to, wanted, now, mint).objects
  {
    hide ValidObject;
    objects := valid;
    for i := 0 to |objects|
      invariant |objects| == |valid|
      invariant forall j :: i <= j < |objects| ==> objects[j] == valid[j]
      invariant forall j :: 0 <= j < i ==> objects[j] == Minted(valid[j], mint(j))
    {
      objects := objects[i := Minted(objects[i], mint(i))];
    }
  }
}
