/** Configuration layers folded, lowest first, into what this machine will do. */
module ConfigLayers {
  import opened Wrappers

  datatype Layer = CompiledDefaults | BundledCatalog | User | Remote

  predicate IsLocal(l: Layer) { !l.Remote? }

  datatype Override = Override(
    id: string, enabled: Option<bool>, roots: seq<string>, includes: seq<string>, exclude: seq<string>,
    excludeAdd: seq<string>, maxFileBytes: Option<int>, enrichers: map<string, bool>)

  // Absent scalars are None; a duration is already parsed, and None inside when it is not one.
  datatype Document = Document(
    issuedAt: Option<string>, org: Option<string>, configVersion: Option<int>, schedule: Option<string>,
    maxFilesPerRun: Option<int>, drainDeadline: Option<Option<int>>, autoupdate: Option<bool>,
    telemetryEndpoint: Option<string>, stateDir: Option<string>, uploadTargets: seq<string>,
    structuralEx: map<string, seq<string>>, rulePacks: seq<string>, secretKeyNames: seq<string>,
    recipients: seq<string>, includeInstallRecipient: Option<bool>, sources: seq<Override>)

  datatype LayeredDocument = LayeredDocument(layer: Layer, doc: Document)

  datatype Source = Source(
    id: string, enabled: bool, roots: seq<string>, includes: seq<string>, exclude: seq<string>, maxFileBytes: int,
    enrichers: map<string, bool>)

  // Who a setting belongs to: the organization, the schedule, the machine, the scrubber, the seal.
  datatype Timing = Timing(configVersion: int, schedule: string, maxFilesPerRun: int, drainDeadline: int)
  datatype Machine = Machine(stateDir: string, uploadTargets: seq<string>, autoupdate: bool)
  datatype Served = Served(organization: string, telemetryEndpoint: string)
  datatype Scrubbing = Scrubbing(rulePacks: seq<string>, secretKeyNames: seq<string>, structuralEx: map<string, seq<string>>)
  datatype Sealing = Sealing(recipients: seq<string>, includeInstallRecipient: bool)
  datatype Settings = Settings(timing: Timing, machine: Machine, served: Served, scrubbing: Scrubbing, sealing: Sealing)

  // --- one document ----------------------------------------------------------------------------

  function Union(base: seq<string>, add: seq<string>): seq<string>
    decreases |add|
  {
    if add == [] then base
    else
      var before := Union(base, add[..|add| - 1]);
      if add[|add| - 1] in before then before else before + [add[|add| - 1]]
  }

  function MergedExemptions(base: map<string, seq<string>>, add: map<string, seq<string>>): map<string, seq<string>> {
    map k | k in base.Keys + add.Keys ::
      Union(if k in base then base[k] else [], if k in add then add[k] else [])
  }

  // The text functions the resolver calls on an endpoint.
  datatype Text = Text(trim: string -> string, rooted: string -> bool)

  // Each is a setting the layer may not make; any one refuses the whole document.
  predicate EnvelopeRefused(l: Layer, d: Document) { (d.issuedAt.Some? || d.org.Some?) && !l.Remote? }

  predicate DeadlineRefused(d: Document) {
    d.drainDeadline.Some? && (d.drainDeadline.value.None? || d.drainDeadline.value.value <= 0)
  }

  predicate MachineRefused(l: Layer, d: Document) {
    (d.autoupdate == Some(true) || d.stateDir.Some? || d.uploadTargets != []) && !IsLocal(l)
  }

  predicate EndpointRefused(t: Text, l: Layer, d: Document) {
    && d.telemetryEndpoint.Some?
    && (IsLocal(l) || (t.trim(d.telemetryEndpoint.value) != "" && !t.rooted(t.trim(d.telemetryEndpoint.value))))
  }

  predicate Refused(t: Text, l: Layer, d: Document) {
    EnvelopeRefused(l, d) || DeadlineRefused(d) || MachineRefused(l, d) || EndpointRefused(t, l, d)
  }

  function AppliedTiming(x: Timing, d: Document): Timing {
    Timing(d.configVersion.GetOr(x.configVersion), d.schedule.GetOr(x.schedule), d.maxFilesPerRun.GetOr(x.maxFilesPerRun),
           if d.drainDeadline.Some? && d.drainDeadline.value.Some? then d.drainDeadline.value.value else x.drainDeadline)
  }

  function AppliedMachine(x: Machine, d: Document): Machine {
    Machine(d.stateDir.GetOr(x.stateDir), if d.uploadTargets != [] then d.uploadTargets else x.uploadTargets,
            d.autoupdate.GetOr(x.autoupdate))
  }

  function AppliedServed(t: Text, x: Served, d: Document): Served {
    Served(if d.org.Some? && d.org.value != "" then d.org.value else x.organization,
           if d.telemetryEndpoint.Some? then t.trim(d.telemetryEndpoint.value) else x.telemetryEndpoint)
  }

  function AppliedScrubbing(x: Scrubbing, d: Document): Scrubbing {
    Scrubbing(Union(x.rulePacks, d.rulePacks), Union(x.secretKeyNames, d.secretKeyNames),
              if d.structuralEx == map[] then x.structuralEx else MergedExemptions(x.structuralEx, d.structuralEx))
  }

  function AppliedSealing(x: Sealing, d: Document): Sealing {
    Sealing(Union(x.recipients, d.recipients), d.includeInstallRecipient.GetOr(x.includeInstallRecipient))
  }

  function Applied(t: Text, s: Settings, d: Document): Settings {
    Settings(AppliedTiming(s.timing, d), AppliedMachine(s.machine, d), AppliedServed(t, s.served, d),
             AppliedScrubbing(s.scrubbing, d), AppliedSealing(s.sealing, d))
  }

  // --- one source's overrides ------------------------------------------------------------------

  datatype LayeredOverride = LayeredOverride(layer: Layer, o: Override)
  datatype Progress = Progress(src: Source, locallyOff: bool, additions: seq<string>)

  predicate AllValid(valid: string -> bool, patterns: seq<string>) { forall p <- patterns :: valid(p) }

  // A served enable that would undo a local disable: the rest of the override is skipped with it.
  predicate Skipped(p: Progress, lo: LayeredOverride) {
    p.locallyOff && !IsLocal(lo.layer) && lo.o.enabled == Some(true)
  }

  predicate Known(src: Source, o: Override) { forall id <- o.enrichers :: id in src.enrichers }

  // Only a local layer may turn an enricher on.
  function Toggled(src: Source, lo: LayeredOverride): map<string, bool> {
    map id | id in src.enrichers ::
      if id in lo.o.enrichers && (IsLocal(lo.layer) || !lo.o.enrichers[id]) then lo.o.enrichers[id] else src.enrichers[id]
  }

  function Adjusted(src: Source, lo: LayeredOverride): Source {
    Source(src.id, lo.o.enabled.GetOr(src.enabled), if lo.o.roots != [] then lo.o.roots else src.roots,
           if lo.o.includes != [] then lo.o.includes else src.includes, if lo.o.exclude != [] then lo.o.exclude else src.exclude,
           lo.o.maxFileBytes.GetOr(src.maxFileBytes), Toggled(src, lo))
  }

  function Overridden(valid: string -> bool, p: Progress, lo: LayeredOverride): Option<Progress> {
    if !AllValid(valid, lo.o.excludeAdd) then None
    else if Skipped(p, lo) then Some(p.(additions := p.additions + lo.o.excludeAdd))
    else if !Known(p.src, lo.o) then None
    else Some(Progress(Adjusted(p.src, lo), p.locallyOff || (lo.o.enabled == Some(false) && IsLocal(lo.layer)),
                       p.additions + lo.o.excludeAdd))
  }

  function OverriddenAll(valid: string -> bool, p: Progress, los: seq<LayeredOverride>): Option<Progress>
    decreases |los|
  {
    if los == [] then Some(p)
    else
      var before := OverriddenAll(valid, p, los[..|los| - 1]);
      if before.None? then None else Overridden(valid, before.value, los[|los| - 1])
  }

  function Begun(src: Source): Progress { Progress(src, false, []) }
  function Finished(p: Progress): Source { p.src.(exclude := Union(p.src.exclude, p.additions)) }

  function ResolvedSource(valid: string -> bool, src: Source, los: seq<LayeredOverride>): Option<Source> {
    var p := OverriddenAll(valid, Begun(src), los);
    if p.None? then None else Some(Finished(p.value))
  }

  // One source's overrides, in layer order.
  function OfSource(id: string, layer: Layer, sources: seq<Override>): seq<LayeredOverride>
    decreases |sources|
  {
    if sources == [] then []
    else
      var last := sources[|sources| - 1];
      OfSource(id, layer, sources[..|sources| - 1]) + (if last.id == id then [LayeredOverride(layer, last)] else [])
  }

  function AllOfSource(id: string, layers: seq<LayeredDocument>): seq<LayeredOverride>
    decreases |layers|
  {
    if layers == [] then []
    else
      var last := layers[|layers| - 1];
      AllOfSource(id, layers[..|layers| - 1]) + OfSource(id, last.layer, last.doc.sources)
  }

  // --- the merge -------------------------------------------------------------------------------

  // The build: its compiled source catalog and defaults, and its text functions.
  datatype Build = Build(catalog: seq<Source>, defaults: Settings, text: Text, valid: string -> bool)

  predicate InCatalog(b: Build, id: string) { exists s <- b.catalog :: s.id == id }

  predicate Readable(b: Build, ld: LayeredDocument) {
    !Refused(b.text, ld.layer, ld.doc) && forall o <- ld.doc.sources :: InCatalog(b, o.id)
  }

  function SettingsFrom(b: Build, layers: seq<LayeredDocument>): Settings
    decreases |layers|
  {
    if layers == [] then b.defaults else Applied(b.text, SettingsFrom(b, layers[..|layers| - 1]), layers[|layers| - 1].doc)
  }

  ghost predicate Resolves(b: Build, layers: seq<LayeredDocument>) {
    && (forall ld :: ld in layers ==> Readable(b, ld))
    && (forall src :: src in b.catalog ==> ResolvedSource(b.valid, src, AllOfSource(src.id, layers)).Some?)
  }

  // What the build does with one of its sources under these layers.
  ghost function SourceUnder(b: Build, layers: seq<LayeredDocument>, src: Source): Source
    requires Resolves(b, layers) && src in b.catalog
  {
    ResolvedSource(b.valid, src, AllOfSource(src.id, layers)).value
  }

  // --- a served layer above local ones ---------------------------------------------------------

  lemma {:induction false} UnionGrows(base: seq<string>, add: seq<string>)
    ensures base <= Union(base, add)
    ensures forall x :: x in Union(base, add) <==> x in base || x in add
    decreases |add|
  {
    if add != [] {
      UnionGrows(base, add[..|add| - 1]);
      assert add == add[..|add| - 1] + [add[|add| - 1]];
    }
  }

  // Scrubbing and sealing only gain, what is the machine owner's stays, self-update only stops.
  ghost predicate Narrower(before: Settings, after: Settings) {
    && before.scrubbing.rulePacks <= after.scrubbing.rulePacks
    && before.scrubbing.secretKeyNames <= after.scrubbing.secretKeyNames
    && before.sealing.recipients <= after.sealing.recipients
    && after.machine.stateDir == before.machine.stateDir
    && after.machine.uploadTargets == before.machine.uploadTargets
    && (after.machine.autoupdate ==> before.machine.autoupdate)
  }

  lemma ServedSettingsNarrow(b: Build, layers: seq<LayeredDocument>, served: Document)
    requires Readable(b, LayeredDocument(Remote, served))
    ensures Narrower(SettingsFrom(b, layers), SettingsFrom(b, layers + [LayeredDocument(Remote, served)]))
  {
    var all := layers + [LayeredDocument(Remote, served)];
    assert all[..|all| - 1] == layers;
    var before := SettingsFrom(b, layers);
    UnionGrows(before.scrubbing.rulePacks, served.rulePacks);
    UnionGrows(before.scrubbing.secretKeyNames, served.secretKeyNames);
    UnionGrows(before.sealing.recipients, served.recipients);
  }

  // A deadline that is a duration.
  predicate States(deadline: Option<Option<int>>) { deadline.Some? && deadline.value.Some? }

  /** Every scalar is what the last layer to state it says. */
  lemma {:induction false} LastWordCounts(b: Build, layers: seq<LayeredDocument>, i: nat)
    requires i < |layers|
    ensures var d := layers[i].doc; var s := SettingsFrom(b, layers);
      && (d.schedule.Some? && (forall j :: i < j < |layers| ==> layers[j].doc.schedule.None?) ==> s.timing.schedule == d.schedule.value)
      && (d.maxFilesPerRun.Some? && (forall j :: i < j < |layers| ==> layers[j].doc.maxFilesPerRun.None?) ==>
           s.timing.maxFilesPerRun == d.maxFilesPerRun.value)
      && (d.stateDir.Some? && (forall j :: i < j < |layers| ==> layers[j].doc.stateDir.None?) ==> s.machine.stateDir == d.stateDir.value)
      && (d.uploadTargets != [] && (forall j :: i < j < |layers| ==> layers[j].doc.uploadTargets == []) ==>
           s.machine.uploadTargets == d.uploadTargets)
      && (d.autoupdate.Some? && (forall j :: i < j < |layers| ==> layers[j].doc.autoupdate.None?) ==>
           s.machine.autoupdate == d.autoupdate.value)
      && (d.configVersion.Some? && (forall j :: i < j < |layers| ==> layers[j].doc.configVersion.None?) ==>
           s.timing.configVersion == d.configVersion.value)
      && (States(d.drainDeadline) && (forall j :: i < j < |layers| ==> !States(layers[j].doc.drainDeadline)) ==>
           s.timing.drainDeadline == d.drainDeadline.value.value)
      && (d.org.GetOr("") != "" && (forall j :: i < j < |layers| ==> layers[j].doc.org.GetOr("") == "") ==>
           s.served.organization == d.org.value)
      && (d.telemetryEndpoint.Some? && (forall j :: i < j < |layers| ==> layers[j].doc.telemetryEndpoint.None?) ==>
           s.served.telemetryEndpoint == b.text.trim(d.telemetryEndpoint.value))
      && (d.includeInstallRecipient.Some? && (forall j :: i < j < |layers| ==> layers[j].doc.includeInstallRecipient.None?) ==>
           s.sealing.includeInstallRecipient == d.includeInstallRecipient.value)
    decreases |layers|
  {
    hide Union, MergedExemptions;
    if i < |layers| - 1 { LastWordCounts(b, layers[..|layers| - 1], i); }
  }

  /** A list holds what any layer added. */
  lemma {:induction false} ListsKeepEverything(b: Build, layers: seq<LayeredDocument>, i: nat)
    requires i < |layers|
    ensures var d := layers[i].doc; var s := SettingsFrom(b, layers);
      && (forall pack :: pack in d.rulePacks ==> pack in s.scrubbing.rulePacks)
      && (forall name :: name in d.secretKeyNames ==> name in s.scrubbing.secretKeyNames)
      && (forall recipient :: recipient in d.recipients ==> recipient in s.sealing.recipients)
    decreases |layers|
  {
    hide Union, MergedExemptions;
    var last, before := layers[|layers| - 1].doc, SettingsFrom(b, layers[..|layers| - 1]);
    UnionGrows(before.scrubbing.rulePacks, last.rulePacks);
    UnionGrows(before.scrubbing.secretKeyNames, last.secretKeyNames);
    UnionGrows(before.sealing.recipients, last.recipients);
    if i < |layers| - 1 { ListsKeepEverything(b, layers[..|layers| - 1], i); }
  }

  // A source's progress under more overrides, all of them served.
  ghost predicate NarrowerSource(before: Progress, after: Progress) {
    && after.src.id == before.src.id
    && (before.locallyOff && after.src.enabled ==> before.src.enabled)
    && (before.locallyOff ==> after.locallyOff)
    && after.src.enrichers.Keys == before.src.enrichers.Keys
    && (forall id :: id in after.src.enrichers && after.src.enrichers[id] ==> before.src.enrichers[id])
    && (forall x :: x in before.additions ==> x in after.additions)
  }

  lemma {:induction false} ServedOverridesNarrow(
      valid: string -> bool, p: Progress, local: seq<LayeredOverride>, served: seq<LayeredOverride>)
    requires OverriddenAll(valid, p, local + served).Some?
    requires forall lo :: lo in served ==> !IsLocal(lo.layer)
    ensures OverriddenAll(valid, p, local).Some?
    ensures NarrowerSource(OverriddenAll(valid, p, local).value, OverriddenAll(valid, p, local + served).value)
    decreases |served|
  {
    if served == [] {
      assert local + served == local;
    } else {
      var last, rest := served[|served| - 1], served[..|served| - 1];
      assert (local + served)[..|local + served| - 1] == local + rest;
      assert last in served;
      ServedOverridesNarrow(valid, p, local, rest);
    }
  }

  lemma {:induction false} AdditionsAreKept(valid: string -> bool, p: Progress, los: seq<LayeredOverride>, lo: LayeredOverride)
    requires OverriddenAll(valid, p, los).Some? && lo in los
    ensures forall x :: x in lo.o.excludeAdd ==> x in OverriddenAll(valid, p, los).value.additions
    decreases |los|
  {
    var last, rest := los[|los| - 1], los[..|los| - 1];
    assert los == rest + [last];
    if lo in rest { AdditionsAreKept(valid, p, rest, lo); }
  }

  // Whether some local override disabled the source.
  ghost predicate LocallyDisabled(los: seq<LayeredOverride>) {
    exists lo :: lo in los && IsLocal(lo.layer) && lo.o.enabled == Some(false)
  }

  lemma {:induction false} LocalDisableIsNoted(valid: string -> bool, p: Progress, los: seq<LayeredOverride>)
    requires OverriddenAll(valid, p, los).Some?
    ensures OverriddenAll(valid, p, los).value.locallyOff <==> p.locallyOff || LocallyDisabled(los)
    decreases |los|
  {
    if los != [] {
      var last, rest := los[|los| - 1], los[..|los| - 1];
      assert los == rest + [last];
      LocalDisableIsNoted(valid, p, rest);
    }
  }

  lemma {:induction false} OfSourceHolds(id: string, layer: Layer, sources: seq<Override>)
    ensures forall lo :: lo in OfSource(id, layer, sources) <==> lo.layer == layer && lo.o.id == id && lo.o in sources
    decreases |sources|
  {
    if sources != [] {
      OfSourceHolds(id, layer, sources[..|sources| - 1]);
      assert sources == sources[..|sources| - 1] + [sources[|sources| - 1]];
    }
  }

  lemma {:induction false} AllOfSourceHolds(id: string, layers: seq<LayeredDocument>, ld: LayeredDocument, o: Override)
    requires ld in layers && o in ld.doc.sources && o.id == id
    ensures LayeredOverride(ld.layer, o) in AllOfSource(id, layers)
    decreases |layers|
  {
    var last, rest := layers[|layers| - 1], layers[..|layers| - 1];
    assert layers == rest + [last];
    OfSourceHolds(id, last.layer, last.doc.sources);
    if ld in rest { AllOfSourceHolds(id, rest, ld, o); }
  }

  lemma LayersBelowResolve(b: Build, layers: seq<LayeredDocument>, served: Document)
    requires Resolves(b, layers + [LayeredDocument(Remote, served)])
    ensures Resolves(b, layers)
  {
    var all := layers + [LayeredDocument(Remote, served)];
    assert all[..|all| - 1] == layers;
    forall src | src in b.catalog ensures ResolvedSource(b.valid, src, AllOfSource(src.id, layers)).Some? {
      OfSourceHolds(src.id, Remote, served.sources);
      ServedOverridesNarrow(b.valid, Begun(src), AllOfSource(src.id, layers), OfSource(src.id, Remote, served.sources));
    }
  }

  /**
   * A served layer above any others only narrows: a locally disabled source collects no more than it did,
   * no enricher turns on, and every layer's additional exclusions are in force.
   */
  lemma ServedLayerOnlyNarrows(b: Build, layers: seq<LayeredDocument>, served: Document, src: Source)
    requires Resolves(b, layers + [LayeredDocument(Remote, served)]) && src in b.catalog
    ensures Resolves(b, layers)
    ensures var all := layers + [LayeredDocument(Remote, served)];
      var before := SourceUnder(b, layers, src);
      var after := SourceUnder(b, all, src);
      && Narrower(SettingsFrom(b, layers), SettingsFrom(b, all))
      && (LocallyDisabled(AllOfSource(src.id, layers)) && after.enabled ==> before.enabled)
      && (forall id :: id in after.enrichers && after.enrichers[id] ==> id in before.enrichers && before.enrichers[id])
      && (forall ld, o :: ld in all && o in ld.doc.sources && o.id == src.id ==> forall x :: x in o.excludeAdd ==> x in after.exclude)
  {
    var all := layers + [LayeredDocument(Remote, served)];
    LayersBelowResolve(b, layers, served);
    assert all[|all| - 1] in all && all[..|all| - 1] == layers;
    ServedSettingsNarrow(b, layers, served);
    var local, fromServed := AllOfSource(src.id, layers), OfSource(src.id, Remote, served.sources);
    assert AllOfSource(src.id, all) == local + fromServed;
    OfSourceHolds(src.id, Remote, served.sources);
    ServedOverridesNarrow(b.valid, Begun(src), local, fromServed);
    LocalDisableIsNoted(b.valid, Begun(src), local);
    var p := OverriddenAll(b.valid, Begun(src), local + fromServed).value;
    UnionGrows(p.src.exclude, p.additions);
    forall ld, o | ld in all && o in ld.doc.sources && o.id == src.id
      ensures forall x :: x in o.excludeAdd ==> x in SourceUnder(b, all, src).exclude
    {
      AllOfSourceHolds(src.id, all, ld, o);
      AdditionsAreKept(b.valid, Begun(src), local + fromServed, LayeredOverride(ld.layer, o));
    }
  }

  // --- field by field ----------------------------------------------------------------------------

  /**
   * A layer is refused exactly when a local one speaks for the organization or names the telemetry route, a
   * served one speaks for the machine or turns self-update on, or a deadline or a route is not one.
   */
  lemma WhatALayerMaySay(t: Text, l: Layer, d: Document)
    ensures Refused(t, l, d) <==>
      || (l != Remote && (d.issuedAt.Some? || d.org.Some? || d.telemetryEndpoint.Some?))
      || (l == Remote && (d.autoupdate == Some(true) || d.stateDir.Some? || d.uploadTargets != []))
      || (d.drainDeadline.Some? && (d.drainDeadline.value.None? || d.drainDeadline.value.value <= 0))
      || (d.telemetryEndpoint.Some?
          && t.trim(d.telemetryEndpoint.value) != "" && !t.rooted(t.trim(d.telemetryEndpoint.value)))
  {
  }

  /** A layer that is not refused sets what it states and leaves the rest; its lists are added, two are replaced. */
  lemma WhatALayerSets(t: Text, s: Settings, d: Document)
    ensures var r := Applied(t, s, d);
      && r.timing.configVersion == (if d.configVersion.Some? then d.configVersion.value else s.timing.configVersion)
      && r.timing.schedule == (if d.schedule.Some? then d.schedule.value else s.timing.schedule)
      && r.timing.maxFilesPerRun == (if d.maxFilesPerRun.Some? then d.maxFilesPerRun.value else s.timing.maxFilesPerRun)
      && r.timing.drainDeadline == (if States(d.drainDeadline) then d.drainDeadline.value.value else s.timing.drainDeadline)
      && r.machine.stateDir == (if d.stateDir.Some? then d.stateDir.value else s.machine.stateDir)
      && r.machine.uploadTargets == (if d.uploadTargets != [] then d.uploadTargets else s.machine.uploadTargets)
      && r.machine.autoupdate == (if d.autoupdate.Some? then d.autoupdate.value else s.machine.autoupdate)
      && r.served.organization == (if d.org.Some? && d.org.value != "" then d.org.value else s.served.organization)
      && r.served.telemetryEndpoint == (if d.telemetryEndpoint.Some? then t.trim(d.telemetryEndpoint.value) else s.served.telemetryEndpoint)
      && r.sealing.includeInstallRecipient
         == (if d.includeInstallRecipient.Some? then d.includeInstallRecipient.value else s.sealing.includeInstallRecipient)
      && AddsTo(s.scrubbing.rulePacks, d.rulePacks, r.scrubbing.rulePacks)
      && AddsTo(s.scrubbing.secretKeyNames, d.secretKeyNames, r.scrubbing.secretKeyNames)
      && AddsTo(s.sealing.recipients, d.recipients, r.sealing.recipients)
      && r.scrubbing.structuralEx.Keys == s.scrubbing.structuralEx.Keys + d.structuralEx.Keys
      && (forall k <- r.scrubbing.structuralEx ::
            AddsTo(if k in s.scrubbing.structuralEx then s.scrubbing.structuralEx[k] else [],
                   if k in d.structuralEx then d.structuralEx[k] else [], r.scrubbing.structuralEx[k]))
  {
    hide Union;
    forall base, add ensures AddsTo(base, add, Union(base, add)) { UnionAdds(base, add); }
    UnionWithNothing(s.scrubbing.structuralEx);
  }

  // The base, then the new strings among these, each once and where it first comes.
  ghost predicate AddsTo(base: seq<string>, add: seq<string>, union: seq<string>) {
    && base <= union && (forall x :: x in union <==> x in base || x in add)
    && (exists at: seq<nat> :: NewAt(base, add, at) && union == base + seq(|at|, k requires 0 <= k < |at| && at[k] < |add| => add[at[k]]))
  }

  ghost predicate NewAt(base: seq<string>, add: seq<string>, at: seq<nat>) {
    && (forall k :: 0 <= k < |at| ==> at[k] < |add| && add[at[k]] !in base && add[at[k]] !in add[..at[k]])
    && (forall k, l :: 0 <= k < l < |at| ==> at[k] < at[l])
  }

  lemma {:induction false} NewPositions(base: seq<string>, add: seq<string>) returns (at: seq<nat>)
    ensures NewAt(base, add, at)
    ensures Union(base, add) == base + seq(|at|, k requires 0 <= k < |at| && at[k] < |add| => add[at[k]])
    decreases |add|
  {
    at := [];
    if add != [] {
      var last, before := add[|add| - 1], add[..|add| - 1];
      at := NewPositions(base, before);
      UnionGrows(base, before);
      assert forall k :: 0 <= k < |at| ==> add[..at[k]] == before[..at[k]];
      if last !in Union(base, before) {
        at := at + [|add| - 1];
      }
    }
  }

  lemma UnionAdds(base: seq<string>, add: seq<string>)
    ensures AddsTo(base, add, Union(base, add))
  {
    UnionGrows(base, add);
    var at := NewPositions(base, add);
  }

  /**
   * One override: refused exactly for an addition that is no exclusion or an enricher the source does not
   * have. A served enable over a local disable is passed over but for its additions; any other replaces what
   * it states, and switches an enricher on only if it is local.
   */
  lemma WhatAnOverrideDoes(valid: string -> bool, p: Progress, lo: LayeredOverride)
    ensures var o, r := lo.o, Overridden(valid, p, lo);
      var passed := p.locallyOff && lo.layer == Remote && o.enabled == Some(true);
      && (r.None? <==> (exists x <- o.excludeAdd :: !valid(x)) || (!passed && exists id <- o.enrichers :: id !in p.src.enrichers))
      && (r.Some? ==> r.value.additions == p.additions + o.excludeAdd)
      && (r.Some? && passed ==> r.value.src == p.src && r.value.locallyOff)
      && (r.Some? && !passed ==>
            var s := r.value.src;
            && s.id == p.src.id && s.enabled == (if o.enabled.Some? then o.enabled.value else p.src.enabled)
            && s.roots == (if o.roots != [] then o.roots else p.src.roots)
            && s.includes == (if o.includes != [] then o.includes else p.src.includes)
            && s.exclude == (if o.exclude != [] then o.exclude else p.src.exclude)
            && s.maxFileBytes == (if o.maxFileBytes.Some? then o.maxFileBytes.value else p.src.maxFileBytes)
            && (r.value.locallyOff <==> p.locallyOff || (lo.layer != Remote && o.enabled == Some(false)))
            && s.enrichers.Keys == p.src.enrichers.Keys
            && forall id <- s.enrichers ::
                 s.enrichers[id] == if id in o.enrichers && (lo.layer != Remote || o.enrichers[id] == false) then o.enrichers[id] else p.src.enrichers[id])
  {
  }

  /** The last entry of the last layer has the last word, unless it is a served enable. */
  lemma LastEntryWins(b: Build, layers: seq<LayeredDocument>, top: LayeredDocument, src: Source, o: Override)
    requires Resolves(b, layers + [top]) && src in b.catalog && o.id == src.id
    requires top.doc.sources != [] && top.doc.sources[|top.doc.sources| - 1] == o
    requires top.layer != Remote || o.enabled != Some(true)
    ensures var r := SourceUnder(b, layers + [top], src);
      && (o.enabled.Some? ==> r.enabled == o.enabled.value) && (o.roots != [] ==> r.roots == o.roots)
      && (o.includes != [] ==> r.includes == o.includes) && (o.maxFileBytes.Some? ==> r.maxFileBytes == o.maxFileBytes.value)
      && (o.exclude != [] ==> o.exclude <= r.exclude)
      && (forall id <- o.enrichers :: id in r.enrichers && (top.layer != Remote || !o.enrichers[id] ==> r.enrichers[id] == o.enrichers[id]))
  {
    var all, los := layers + [top], AllOfSource(src.id, layers + [top]);
    assert all[..|all| - 1] == layers;
    assert los != [] && los[|los| - 1] == LayeredOverride(top.layer, o);
    var p := OverriddenAll(b.valid, Begun(src), los[..|los| - 1]).value;
    var q := OverriddenAll(b.valid, Begun(src), los).value;
    WhatAnOverrideDoes(b.valid, p, LayeredOverride(top.layer, o));
    UnionGrows(q.src.exclude, q.additions);
  }

  /** What no override states stays as the catalog has it. */
  lemma {:induction false} UnstatedStays(valid: string -> bool, src: Source, los: seq<LayeredOverride>)
    requires OverriddenAll(valid, Begun(src), los).Some?
    ensures var s := OverriddenAll(valid, Begun(src), los).value.src;
      && s.id == src.id && s.enrichers.Keys == src.enrichers.Keys
      && ((forall lo <- los :: lo.o.enabled.None?) ==> s.enabled == src.enabled)
      && ((forall lo <- los :: lo.o.roots == []) ==> s.roots == src.roots)
      && ((forall lo <- los :: lo.o.includes == []) ==> s.includes == src.includes)
      && ((forall lo <- los :: lo.o.exclude == []) ==> s.exclude == src.exclude)
      && ((forall lo <- los :: lo.o.maxFileBytes.None?) ==> s.maxFileBytes == src.maxFileBytes)
      && ((forall lo <- los :: lo.o.enrichers == map[]) ==> s.enrichers == src.enrichers)
    ensures los == [] ==> OverriddenAll(valid, Begun(src), los).value == Progress(src, false, [])
    decreases |los|
  {
    if los != [] {
      var last, rest := los[|los| - 1], los[..|los| - 1];
      assert los == rest + [last];
      UnstatedStays(valid, src, rest);
      WhatAnOverrideDoes(valid, OverriddenAll(valid, Begun(src), rest).value, last);
    }
  }

  /** A resolved source: its overrides folded, then every addition excluded besides. */
  lemma WhatASourceResolvesTo(valid: string -> bool, src: Source, los: seq<LayeredOverride>)
    ensures var p, r := OverriddenAll(valid, Begun(src), los), ResolvedSource(valid, src, los);
      && r.Some? == p.Some?
      && (r.Some? ==>
            && AddsTo(p.value.src.exclude, p.value.additions, r.value.exclude)
            && r.value == p.value.src.(exclude := r.value.exclude))
  {
    hide OverriddenAll, Union;
    var p := OverriddenAll(valid, Begun(src), los);
    if p.Some? { UnionAdds(p.value.src.exclude, p.value.additions); }
  }

  // --- the resolver ----------------------------------------------------------------------------

  method UnionStrings(base: seq<string>, add: seq<string>) returns (out: seq<string>)
    ensures out == Union(base, add)
  {
    out := base;
    for i := 0 to |add|
      invariant out == Union(base, add[..i])
    {
      assert add[..i + 1][..i] == add[..i];
      if add[i] !in out { out := out + [add[i]]; }
    }
    assert add[..|add|] == add;
  }

  method MergeExemptions(base: map<string, seq<string>>, add: map<string, seq<string>>) returns (out: map<string, seq<string>>)
    ensures out == MergedExemptions(base, add)
  {
    hide Union;
    out := base;
    var left := add.Keys;
    while left != {}
      invariant left <= add.Keys && out.Keys == base.Keys + (add.Keys - left)
      invariant forall k :: k in out ==>
        out[k] == if k in add && k !in left then Union(if k in base then base[k] else [], add[k]) else base[k]
      decreases left
    {
      var k :| k in left;
      left := left - {k};
      var merged := UnionStrings(if k in out then out[k] else [], add[k]);
      out := out[k := merged];
    }
    UnionWithNothing(base);
  }

  lemma UnionWithNothing(base: map<string, seq<string>>)
    ensures forall k :: k in base ==> Union(base[k], []) == base[k]
  {
  }

  class Effective {
    var configVersion: int
    var organization: string
    var schedule: string
    var maxFilesPerRun: int
    var drainDeadline: int
    var stateDir: string
    var uploadTargets: seq<string>
    var autoupdate: bool
    var telemetryEndpoint: string
    var rulePacks: seq<string>
    var secretKeyNames: seq<string>
    var structuralEx: map<string, seq<string>>
    var recipients: seq<string>
    var includeInstallRecipient: bool
    var sources: array<Source>

    ghost function TimingState(): Timing
      reads `configVersion, `schedule, `maxFilesPerRun, `drainDeadline
    {
      Timing(configVersion, schedule, maxFilesPerRun, drainDeadline)
    }

    ghost function MachineState(): Machine
      reads `stateDir, `uploadTargets, `autoupdate
    {
      Machine(stateDir, uploadTargets, autoupdate)
    }

    ghost function ServedState(): Served
      reads `organization, `telemetryEndpoint
    {
      Served(organization, telemetryEndpoint)
    }

    ghost function ScrubbingState(): Scrubbing
      reads `rulePacks, `secretKeyNames, `structuralEx
    {
      Scrubbing(rulePacks, secretKeyNames, structuralEx)
    }

    ghost function SealingState(): Sealing
      reads `recipients, `includeInstallRecipient
    {
      Sealing(recipients, includeInstallRecipient)
    }

    ghost function State(): Settings
      reads this
    {
      Settings(TimingState(), MachineState(), ServedState(), ScrubbingState(), SealingState())
    }

    constructor (b: Build)
      ensures State() == b.defaults && sources[..] == b.catalog && fresh(sources)
    {
      var d := b.defaults;
      configVersion, schedule, maxFilesPerRun := d.timing.configVersion, d.timing.schedule, d.timing.maxFilesPerRun;
      drainDeadline, stateDir, uploadTargets := d.timing.drainDeadline, d.machine.stateDir, d.machine.uploadTargets;
      autoupdate, organization, telemetryEndpoint := d.machine.autoupdate, d.served.organization, d.served.telemetryEndpoint;
      rulePacks, secretKeyNames, structuralEx := d.scrubbing.rulePacks, d.scrubbing.secretKeyNames, d.scrubbing.structuralEx;
      recipients, includeInstallRecipient := d.sealing.recipients, d.sealing.includeInstallRecipient;
      sources := new Source[|b.catalog|](i requires 0 <= i < |b.catalog| => b.catalog[i]);
    }

    // The served envelope: an organization's own key namespace.
    method ApplyEnvelope(l: Layer, d: Document) returns (ok: bool)
      modifies `organization
      ensures ok <==> !EnvelopeRefused(l, d)
      ensures ok ==> organization == if d.org.Some? && d.org.value != "" then d.org.value else old(organization)
    {
      if d.issuedAt.Some? || d.org.Some? {
        if !l.Remote? { return false; }
        if d.org.Some? && d.org.value != "" { organization := d.org.value; }
      }
      return true;
    }

    method ApplyTiming(d: Document) returns (ok: bool)
      modifies `configVersion, `schedule, `maxFilesPerRun, `drainDeadline
      ensures ok <==> !DeadlineRefused(d)
      ensures ok ==> TimingState() == AppliedTiming(old(TimingState()), d)
    {
      configVersion := d.configVersion.GetOr(configVersion);
      schedule := d.schedule.GetOr(schedule);
      maxFilesPerRun := d.maxFilesPerRun.GetOr(maxFilesPerRun);
      if d.drainDeadline.Some? {
        if d.drainDeadline.value.None? || d.drainDeadline.value.value <= 0 { return false; }
        drainDeadline := d.drainDeadline.value.value;
      }
      return true;
    }

    // The machine owner's own: a served layer may only turn self-update off.
    method ApplyMachine(l: Layer, d: Document) returns (ok: bool)
      modifies `stateDir, `uploadTargets, `autoupdate
      ensures ok <==> !MachineRefused(l, d)
      ensures ok ==> MachineState() == AppliedMachine(old(MachineState()), d)
    {
      if d.autoupdate.Some? {
        if d.autoupdate.value && !IsLocal(l) { return false; }
        autoupdate := d.autoupdate.value;
      }
      if d.stateDir.Some? {
        if !IsLocal(l) { return false; }
        stateDir := d.stateDir.value;
      }
      if |d.uploadTargets| > 0 {
        if !IsLocal(l) { return false; }
        uploadTargets := d.uploadTargets;
      }
      return true;
    }

    method ApplyTelemetry(t: Text, l: Layer, d: Document) returns (ok: bool)
      modifies `telemetryEndpoint
      ensures ok <==> !EndpointRefused(t, l, d)
      ensures ok ==> telemetryEndpoint == if d.telemetryEndpoint.Some? then t.trim(d.telemetryEndpoint.value) else old(telemetryEndpoint)
    {
      if d.telemetryEndpoint.Some? {
        if IsLocal(l) { return false; }
        var endpoint := t.trim(d.telemetryEndpoint.value);
        if endpoint != "" && !t.rooted(endpoint) { return false; }
        telemetryEndpoint := endpoint;
      }
      return true;
    }

    // Another rule pack, key name or recipient only makes scrubbing and sealing stricter.
    method ApplyUnions(d: Document)
      modifies `structuralEx, `rulePacks, `secretKeyNames, `recipients, `includeInstallRecipient
      ensures ScrubbingState() == AppliedScrubbing(old(ScrubbingState()), d)
      ensures SealingState() == AppliedSealing(old(SealingState()), d)
    {
      hide Union, MergedExemptions;
      if d.structuralEx != map[] { structuralEx := MergeExemptions(structuralEx, d.structuralEx); }
      rulePacks := UnionStrings(rulePacks, d.rulePacks);
      secretKeyNames := UnionStrings(secretKeyNames, d.secretKeyNames);
      recipients := UnionStrings(recipients, d.recipients);
      includeInstallRecipient := d.includeInstallRecipient.GetOr(includeInstallRecipient);
    }

    // Folds one layer in. A refusal leaves the configuration to be thrown away whole.
    method ApplyDocument(t: Text, ld: LayeredDocument) returns (ok: bool)
      modifies this
      ensures sources == old(sources)
      ensures ok <==> !Refused(t, ld.layer, ld.doc)
      ensures ok ==> State() == Applied(t, old(State()), ld.doc)
    {
      hide AppliedScrubbing, AppliedSealing, AppliedTiming, AppliedMachine;
      hide TimingState, MachineState, ScrubbingState, SealingState;
      hide EnvelopeRefused, DeadlineRefused, MachineRefused, EndpointRefused;
      ok := ApplyEnvelope(ld.layer, ld.doc);
      if !ok { return; }
      ok := ApplyTiming(ld.doc);
      if !ok { return; }
      ok := ApplyMachine(ld.layer, ld.doc);
      if !ok { return; }
      ok := ApplyTelemetry(t, ld.layer, ld.doc);
      if !ok { return; }
      ApplyUnions(ld.doc);
    }

    // --- overrides -----------------------------------------------------------------------------

    // One enricher map, entry by entry: a served "on" is passed over.
    method ToggleEnrichers(src: Source, lo: LayeredOverride) returns (r: Option<Source>)
      ensures r == if Known(src, lo.o) then Some(src.(enrichers := Toggled(src, lo))) else None
    {
      var enrichers := src.enrichers;
      var left := lo.o.enrichers.Keys;
      while left != {}
        invariant left <= lo.o.enrichers.Keys && enrichers.Keys == src.enrichers.Keys
        invariant forall id :: id in lo.o.enrichers && id !in left ==> id in src.enrichers
        invariant forall id :: id in enrichers ==>
          enrichers[id] == if id !in left then Toggled(src, lo)[id] else src.enrichers[id]
        decreases left
      {
        var id :| id in left;
        left := left - {id};
        if id !in src.enrichers { return None; }
        if IsLocal(lo.layer) || !lo.o.enrichers[id] { enrichers := enrichers[id := lo.o.enrichers[id]]; }
      }
      assert enrichers == Toggled(src, lo);
      return Some(src.(enrichers := enrichers));
    }

    // One source's overrides in layer order; a served layer cannot undo a local disable.
    method ApplyOverrides(valid: string -> bool, source: Source, los: seq<LayeredOverride>) returns (r: Option<Source>)
      ensures r == ResolvedSource(valid, source, los)
    {
      hide Known, Toggled, AllValid;
      var src, locallyOff := source, false;
      var additions: seq<string> := [];
      for i := 0 to |los|
        invariant OverriddenAll(valid, Begun(source), los[..i]) == Some(Progress(src, locallyOff, additions))
      {
        var lo := los[i];
        OneMoreOverride(valid, Begun(source), los, i);
        if !AllValid(valid, lo.o.excludeAdd) { return None; }
        additions := additions + lo.o.excludeAdd;
        if lo.o.enabled.Some? && locallyOff && !IsLocal(lo.layer) && lo.o.enabled.value { continue; }
        if lo.o.enabled.Some? {
          src := src.(enabled := lo.o.enabled.value);
          if !lo.o.enabled.value && IsLocal(lo.layer) { locallyOff := true; }
        }
        if |lo.o.roots| > 0 { src := src.(roots := lo.o.roots); }
        if |lo.o.includes| > 0 { src := src.(includes := lo.o.includes); }
        if |lo.o.exclude| > 0 { src := src.(exclude := lo.o.exclude); }
        src := src.(maxFileBytes := lo.o.maxFileBytes.GetOr(src.maxFileBytes));
        var toggled := ToggleEnrichers(src, lo);
        SameEnrichers(src, OverriddenAll(valid, Begun(source), los[..i]).value.src, lo);
        if toggled.None? { return None; }
        src := toggled.value;
      }
      assert los[..|los|] == los;
      var exclude := UnionStrings(src.exclude, additions);
      return Some(src.(exclude := exclude));
    }

    // All sources, each by its own overrides.
    method ApplySourceOverrides(valid: string -> bool, overrides: map<string, seq<LayeredOverride>>) returns (ok: bool)
      modifies sources
      ensures ok <==> forall i :: 0 <= i < sources.Length ==>
        ResolvedSource(valid, old(sources[i]), OverridesOf(overrides, old(sources[i]).id)).Some?
      ensures ok ==> forall i :: 0 <= i < sources.Length ==>
        Some(sources[i]) == ResolvedSource(valid, old(sources[i]), OverridesOf(overrides, old(sources[i]).id))
    {
      hide ResolvedSource;
      for i := 0 to sources.Length
        invariant forall j :: i <= j < sources.Length ==> sources[j] == old(sources[j])
        invariant forall j :: 0 <= j < i ==>
          Some(sources[j]) == ResolvedSource(valid, old(sources[j]), OverridesOf(overrides, old(sources[j]).id))
      {
        var r := ApplyOverrides(valid, sources[i], OverridesOf(overrides, sources[i].id));
        if r.None? { return false; }
        sources[i] := r.value;
      }
      return true;
    }

    // Every layer in order, then every source: refused whole at the first thing a layer may not say.
    method Resolve(b: Build, layers: seq<LayeredDocument>) returns (ok: bool)
      requires State() == b.defaults && sources[..] == b.catalog
      modifies this, sources
      ensures sources == old(sources)
      ensures ok <==> Resolves(b, layers)
      ensures ok ==> State() == SettingsFrom(b, layers)
      ensures ok ==> forall i :: 0 <= i < |b.catalog| ==> sources[i] == SourceUnder(b, layers, b.catalog[i])
    {
      hide Refused, Applied, ResolvedSource, InCatalog, OfSource, AllOfSource, SettingsFrom;
      var overrides: map<string, seq<LayeredOverride>> := map[];
      NoLayers(b, layers);
      for i := 0 to |layers|
        invariant sources == old(sources) && sources[..] == b.catalog
        invariant State() == SettingsFrom(b, layers[..i])
        invariant forall j :: 0 <= j < i ==> Readable(b, layers[j])
        invariant forall id :: OverridesOf(overrides, id) == AllOfSource(id, layers[..i])
      {
        assert layers[i] in layers;
        OneMoreLayer(b, layers, i);
        ok := ApplyDocument(b.text, layers[i]);
        if !ok { return; }
        ok, overrides := CollectOverrides(b, layers[i], overrides);
        if !ok { return; }
      }
      assert layers[..|layers|] == layers;
      ok := ApplySourceOverrides(b.valid, overrides);
      assert forall i :: 0 <= i < |b.catalog| ==> b.catalog[i] == old(sources[..])[i] && b.catalog[i] in b.catalog;
    }
  }

  lemma NoLayers(b: Build, layers: seq<LayeredDocument>)
    ensures SettingsFrom(b, layers[..0]) == b.defaults && forall id :: AllOfSource(id, layers[..0]) == []
  {
  }

  lemma OneMoreLayer(b: Build, layers: seq<LayeredDocument>, i: nat)
    requires i < |layers|
    ensures SettingsFrom(b, layers[..i + 1]) == Applied(b.text, SettingsFrom(b, layers[..i]), layers[i].doc)
    ensures forall id ::
      AllOfSource(id, layers[..i + 1]) == AllOfSource(id, layers[..i]) + OfSource(id, layers[i].layer, layers[i].doc.sources)
  {
    assert layers[..i + 1][..i] == layers[..i];
  }

  function OverridesOf(overrides: map<string, seq<LayeredOverride>>, id: string): seq<LayeredOverride> {
    if id in overrides then overrides[id] else []
  }

  method CollectOverrides(b: Build, ld: LayeredDocument, before: map<string, seq<LayeredOverride>>)
    returns (ok: bool, overrides: map<string, seq<LayeredOverride>>)
    ensures ok <==> forall o :: o in ld.doc.sources ==> InCatalog(b, o.id)
    ensures ok ==> Collected(before, overrides, ld.layer, ld.doc.sources)
  {
    hide InCatalog, OfSource;
    overrides := before;
    NoneOfSource(ld.layer, before);
    for i := 0 to |ld.doc.sources|
      invariant forall j :: 0 <= j < i ==> InCatalog(b, ld.doc.sources[j].id)
      invariant Collected(before, overrides, ld.layer, ld.doc.sources[..i])
    {
      var o := ld.doc.sources[i];
      assert o in ld.doc.sources;
      if !InCatalog(b, o.id) { return false, before; }
      CollectsOne(before, overrides, ld.layer, ld.doc.sources, i);
      overrides := overrides[o.id := OverridesOf(overrides, o.id) + [LayeredOverride(ld.layer, o)]];
    }
    assert ld.doc.sources[..|ld.doc.sources|] == ld.doc.sources;
    return true, overrides;
  }

  ghost predicate Collected(
      before: map<string, seq<LayeredOverride>>, after: map<string, seq<LayeredOverride>>, layer: Layer, sources: seq<Override>)
  {
    forall id :: OverridesOf(after, id) == OverridesOf(before, id) + OfSource(id, layer, sources)
  }

  lemma NoneOfSource(layer: Layer, before: map<string, seq<LayeredOverride>>)
    ensures forall sources: seq<Override> :: sources == [] ==> Collected(before, before, layer, sources)
  {
  }

  lemma CollectsOne(
      before: map<string, seq<LayeredOverride>>, so: map<string, seq<LayeredOverride>>, layer: Layer, sources: seq<Override>, i: nat)
    requires i < |sources| && Collected(before, so, layer, sources[..i])
    ensures var o := sources[i];
      Collected(before, so[o.id := OverridesOf(so, o.id) + [LayeredOverride(layer, o)]], layer, sources[..i + 1])
  {
    var o := sources[i];
    var after := so[o.id := OverridesOf(so, o.id) + [LayeredOverride(layer, o)]];
    assert sources[..i + 1][..i] == sources[..i];
    forall id ensures OverridesOf(after, id) == OverridesOf(before, id) + OfSource(id, layer, sources[..i + 1]) {
      assert OverridesOf(so, id) == OverridesOf(before, id) + OfSource(id, layer, sources[..i]);
      assert OfSource(id, layer, sources[..i + 1])
          == OfSource(id, layer, sources[..i]) + (if o.id == id then [LayeredOverride(layer, o)] else []);
    }
  }

  lemma SameEnrichers(a: Source, b: Source, lo: LayeredOverride)
    requires a.enrichers == b.enrichers
    ensures Known(a, lo.o) == Known(b, lo.o) && Toggled(a, lo) == Toggled(b, lo)
  {
  }

  // An override refused makes every longer list refused.
  lemma {:induction false} OneMoreOverride(valid: string -> bool, p: Progress, los: seq<LayeredOverride>, i: nat)
    requires i < |los| && OverriddenAll(valid, p, los[..i]).Some?
    ensures OverriddenAll(valid, p, los[..i + 1]) == Overridden(valid, OverriddenAll(valid, p, los[..i]).value, los[i])
    ensures Overridden(valid, OverriddenAll(valid, p, los[..i]).value, los[i]).None? ==> OverriddenAll(valid, p, los).None?
  {
    assert los[..i + 1][..i] == los[..i];
    hide Overridden;
    if OverriddenAll(valid, p, los[..i + 1]).None? { RefusalSpreads(valid, p, los, i + 1); }
  }

  lemma {:induction false} RefusalSpreads(valid: string -> bool, p: Progress, los: seq<LayeredOverride>, n: nat)
    requires n <= |los| && OverriddenAll(valid, p, los[..n]).None?
    ensures OverriddenAll(valid, p, los).None?
    decreases |los|
  {
    hide Overridden;
    if n == |los| {
      assert los[..n] == los;
    } else {
      assert los[..|los| - 1][..n] == los[..n];
      RefusalSpreads(valid, p, los[..|los| - 1], n);
    }
  }
}
