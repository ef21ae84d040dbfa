/** Additional exclusions and the builds that cannot enforce them: such a build pauses the source instead. */
module Exclusions {
  import opened Wrappers
  import opened ConfigLayers

  const EXCLUDE_ADD := "sources.exclude_add"

  // --- the reduction ---------------------------------------------------------------------------

  ghost function PausedIds(sources: seq<Override>): set<string> { set o | o in sources && o.excludeAdd != [] :: o.id }

  function Lowered(paused: set<string>, o: Override): Override {
    o.(enabled := if o.id in paused then Some(false) else o.enabled, excludeAdd := [])
  }

  function LoweredAll(paused: set<string>, sources: seq<Override>): seq<Override> {
    seq(|sources|, i requires 0 <= i < |sources| => Lowered(paused, sources[i]))
  }

  ghost function Reduced(sources: seq<Override>): seq<Override> { LoweredAll(PausedIds(sources), sources) }

  // Every entry of an affected id is paused, duplicates included.
  method ReduceSourceExclusions(sources: seq<Override>) returns (out: seq<Override>)
    ensures out == Reduced(sources)
  {
    var paused: set<string> := {};
    for i := 0 to |sources|
      invariant paused == PausedIds(sources[..i])
    {
      assert forall o :: o in sources[..i + 1] <==> o in sources[..i] || o == sources[i];
      if |sources[i].excludeAdd| > 0 { paused := paused + {sources[i].id}; }
    }
    assert sources[..|sources|] == sources;
    out := sources;
    for i := 0 to |out|
      invariant |out| == |sources|
      invariant forall j :: i <= j < |out| ==> out[j] == sources[j]
      invariant forall j :: 0 <= j < i ==> out[j] == Lowered(paused, sources[j])
    {
      var o := out[i];
      if o.id in paused { o := o.(enabled := Some(false)); }
      out := out[i := o.(excludeAdd := [])];
    }
  }

  // --- what one build is served ----------------------------------------------------------------

  datatype Catalog = Catalog(ids: set<string>, features: set<string>)

  function Listed(catalog: Option<Catalog>, o: Override): bool { catalog.None? || o.id in catalog.value.ids }

  function Kept(catalog: Option<Catalog>, sources: seq<Override>): seq<Override>
    decreases |sources|
  {
    if sources == [] then []
    else
      var last := sources[|sources| - 1];
      Kept(catalog, sources[..|sources| - 1]) + (if Listed(catalog, last) then [last] else [])
  }

  predicate Enforces(catalog: Option<Catalog>) { catalog.Some? && EXCLUDE_ADD in catalog.value.features }

  // Entries the build lacks are left out; a source whose additions it cannot enforce is paused.
  ghost function ForBuild(catalog: Option<Catalog>, sources: seq<Override>): seq<Override> {
    if Enforces(catalog) then Kept(catalog, sources) else Reduced(Kept(catalog, sources))
  }

  method CollectionForBuild(catalog: Option<Catalog>, sources: seq<Override>) returns (out: seq<Override>)
    ensures out == ForBuild(catalog, sources)
  {
    out := [];
    for i := 0 to |sources|
      invariant out == Kept(catalog, sources[..i])
    {
      assert sources[..i + 1][..i] == sources[..i];
      if catalog.Some? && sources[i].id !in catalog.value.ids { continue; }
      out := out + [sources[i]];
    }
    assert sources[..|sources|] == sources;
    if catalog.None? || EXCLUDE_ADD !in catalog.value.features { out := ReduceSourceExclusions(out); }
  }

  /** Entry by entry: an id with additions anywhere is paused everywhere, and additions are gone; nothing else changes. */
  lemma WhatReductionDoes(sources: seq<Override>, i: nat)
    requires i < |sources|
    ensures |Reduced(sources)| == |sources|
    ensures var o, r := sources[i], Reduced(sources)[i];
      var affected := exists other <- sources :: other.id == o.id && other.excludeAdd != [];
      r == Override(o.id, if affected then Some(false) else o.enabled, o.roots, o.includes, o.exclude, [], o.maxFileBytes, o.enrichers)
  {
    assert sources[i] in sources;
  }

  // All the positions of the entries of sources this build knows, in order.
  ghost predicate KnownAt(catalog: Option<Catalog>, sources: seq<Override>, at: seq<nat>) {
    && (forall k :: 0 <= k < |at| ==> at[k] < |sources| && (catalog.None? || sources[at[k]].id in catalog.value.ids))
    && (forall k, l :: 0 <= k < l < |at| ==> at[k] < at[l])
    && (forall i: nat :: i < |sources| && (catalog.None? || sources[i].id in catalog.value.ids) ==> i in at)
  }

  /**
   * What a build is served: of the entries, in order, those of sources it knows, or all when it said nothing;
   * as they are when it said it enforces additional exclusions, and reduced otherwise.
   */
  lemma WhatABuildIsServed(catalog: Option<Catalog>, sources: seq<Override>) returns (at: seq<nat>)
    ensures KnownAt(catalog, sources, at)
    ensures var kept := seq(|at|, k requires 0 <= k < |at| && at[k] < |sources| => sources[at[k]]);
      ForBuild(catalog, sources) == if catalog.Some? && "sources.exclude_add" in catalog.value.features then kept else Reduced(kept)
  {
    at := KeptPositions(catalog, sources);
    assert Kept(catalog, sources) == seq(|at|, k requires 0 <= k < |at| && at[k] < |sources| => sources[at[k]]);
  }

  lemma {:induction false} KeptPositions(catalog: Option<Catalog>, sources: seq<Override>) returns (at: seq<nat>)
    ensures KnownAt(catalog, sources, at)
    ensures Picks(Kept(catalog, sources), sources, at)
    decreases |sources|
  {
    if sources == [] {
      at := [];
    } else {
      hide Kept, KnownAt, Picks;
      var last, before := sources[|sources| - 1], sources[..|sources| - 1];
      assert sources == before + [last];
      KeptUnfolds(catalog, before, last);
      at := KeptPositions(catalog, before);
      OneMoreKnown(catalog, before, last, at);
      OneMorePick(Kept(catalog, before), before, last, at);
      if catalog.None? || last.id in catalog.value.ids { at := at + [|before|]; }
    }
  }

  lemma KeptUnfolds(catalog: Option<Catalog>, before: seq<Override>, last: Override)
    ensures Kept(catalog, before + [last]) ==
      if catalog.None? || last.id in catalog.value.ids then Kept(catalog, before) + [last] else Kept(catalog, before)
  {
    assert (before + [last])[..|before|] == before;
    assert Kept(catalog, before) + [] == Kept(catalog, before);
  }

  // The entries at these positions.
  ghost predicate Picks(picked: seq<Override>, sources: seq<Override>, at: seq<nat>) {
    |picked| == |at| && forall k :: 0 <= k < |at| ==> at[k] < |sources| && picked[k] == sources[at[k]]
  }

  lemma OneMorePick(picked: seq<Override>, before: seq<Override>, last: Override, at: seq<nat>)
    requires Picks(picked, before, at)
    ensures Picks(picked, before + [last], at) && Picks(picked + [last], before + [last], at + [|before|])
  {
  }

  lemma OneMoreKnown(catalog: Option<Catalog>, before: seq<Override>, last: Override, at: seq<nat>)
    requires KnownAt(catalog, before, at)
    ensures KnownAt(catalog, before + [last], if catalog.None? || last.id in catalog.value.ids then at + [|before|] else at)
  {
    var sources := before + [last];
    var all := if catalog.None? || last.id in catalog.value.ids then at + [|before|] else at;
    forall i: nat | i < |sources| && (catalog.None? || sources[i].id in catalog.value.ids) ensures i in all {
      if i < |before| { assert before[i] == sources[i] && i in at; } else { assert all[|at|] == i; }
    }
  }

  // --- the files collected ---------------------------------------------------------------------

  // A file by its path under the source's root; globs are whatever relation the matcher decides.
  datatype File = File(root: seq<string>, path: string, size: nat)

  // Zero or less is no limit.
  predicate Within(limit: int, size: nat) { limit > 0 ==> size <= limit }

  ghost predicate Collects(matches: (string, string) -> bool, src: Source, f: File) {
    && src.enabled && f.root == src.roots && Within(src.maxFileBytes, f.size)
    && (exists glob :: glob in src.includes && matches(glob, f.path))
    && (forall glob :: glob in src.exclude ==> !matches(glob, f.path))
  }

  ghost function Under(layers: seq<LayeredDocument>, d: Document, sources: seq<Override>): seq<LayeredDocument> {
    layers + [LayeredDocument(Remote, d.(sources := sources))]
  }

  lemma ServedOverrides(layers: seq<LayeredDocument>, d: Document, sources: seq<Override>, id: string)
    ensures AllOfSource(id, Under(layers, d, sources)) == AllOfSource(id, layers) + OfSource(id, Remote, sources)
  {
    var all := Under(layers, d, sources);
    assert all[..|all| - 1] == layers;
  }

  // --- when a served layer narrows what is collected ----------------------------------------------

  ghost predicate CollectsNoMore(after: Source, before: Source) {
    forall matches: (string, string) -> bool, f: File :: Collects(matches, after, f) ==> Collects(matches, before, f)
  }

  predicate Collecting(src: Source) { src.enabled && exists glob <- src.includes :: glob !in src.exclude }

  // Read off the two sources: where they look, the size limit, and the globs.
  predicate NoWider(after: Source, before: Source) {
    Collecting(after) ==>
      && before.enabled && after.roots == before.roots
      && (before.maxFileBytes > 0 ==> 0 < after.maxFileBytes <= before.maxFileBytes)
      && (forall glob <- after.includes :: glob in after.exclude || glob in before.includes)
      && (forall glob <- before.exclude :: glob in after.exclude)
  }

  // A file that only these globs match.
  function Matching(globs: set<string>): (string, string) -> bool { (glob, path) => glob in globs }

  lemma NoWiderCollectsNoMore(after: Source, before: Source)
    requires NoWider(after, before)
    ensures CollectsNoMore(after, before)
  {
    forall matches: (string, string) -> bool, f: File | Collects(matches, after, f) ensures Collects(matches, before, f) {
      var glob :| glob in after.includes && matches(glob, f.path);
      assert glob !in after.exclude && glob in before.includes;
    }
  }

  lemma CollectsNoMoreIsNoWider(after: Source, before: Source)
    requires CollectsNoMore(after, before)
    ensures NoWider(after, before)
  {
    if Collecting(after) {
      forall glob | glob in after.includes && glob !in after.exclude
        ensures before.enabled && after.roots == before.roots && glob in before.includes
        ensures before.maxFileBytes > 0 ==> 0 < after.maxFileBytes <= before.maxFileBytes
        ensures forall x <- before.exclude :: x in after.exclude
      {
        var size: nat := if after.maxFileBytes > 0 then after.maxFileBytes else if before.maxFileBytes > 0 then before.maxFileBytes + 1 else 0;
        var f := File(after.roots, "", size);
        assert Matching({glob})(glob, f.path);
        assert Collects(Matching({glob}), after, f);
        assert Collects(Matching({glob}), before, f);
        forall x <- before.exclude ensures x in after.exclude {
          if x !in after.exclude {
            assert Matching({glob, x})(glob, f.path) && Matching({glob, x})(x, f.path);
            assert Collects(Matching({glob, x}), after, f);
          }
        }
      }
    }
  }

  /**
   * Whatever globs and files there are, a served layer leaves a source collecting no more than the
   * layers below do exactly when the source ends up with nothing to collect, or enabled below, under
   * the same roots, with no larger limit, no new include and every exclude kept.
   */
  lemma ServedLayerCollectsNoMoreExactlyWhen(b: Build, layers: seq<LayeredDocument>, served: Document, src: Source)
    requires Resolves(b, layers + [LayeredDocument(Remote, served)]) && src in b.catalog
    ensures Resolves(b, layers)
    ensures var before, after := SourceUnder(b, layers, src), SourceUnder(b, layers + [LayeredDocument(Remote, served)], src);
      (forall matches: (string, string) -> bool, f: File :: Collects(matches, after, f) ==> Collects(matches, before, f))
      <==> NoWider(after, before)
  {
    LayersBelowResolve(b, layers, served);
    var before, after := SourceUnder(b, layers, src), SourceUnder(b, layers + [LayeredDocument(Remote, served)], src);
    if NoWider(after, before) { NoWiderCollectsNoMore(after, before); }
    if CollectsNoMore(after, before) { CollectsNoMoreIsNoWider(after, before); }
  }

  // An entry that states nothing a local layer may have said: it may only switch off and exclude more.
  predicate OnlySubtracts(o: Override) {
    o.roots == [] && o.includes == [] && o.exclude == [] && o.maxFileBytes.None? && o.enabled != Some(true)
  }

  lemma {:induction false} SubtractingOverrides(
      valid: string -> bool, p: Progress, local: seq<LayeredOverride>, served: seq<LayeredOverride>)
    requires OverriddenAll(valid, p, local + served).Some? && forall lo :: lo in served ==> OnlySubtracts(lo.o)
    ensures OverriddenAll(valid, p, local).Some?
    ensures var before, after := OverriddenAll(valid, p, local).value, OverriddenAll(valid, p, local + served).value;
      && (after.src.enabled ==> before.src.enabled)
      && after.src == before.src.(enabled := after.src.enabled, enrichers := after.src.enrichers)
      && forall x :: x in before.additions ==> x in after.additions
    decreases |served|
  {
    if served == [] {
      assert local + served == local;
    } else {
      var last, rest := served[|served| - 1], served[..|served| - 1];
      assert (local + served)[..|local + served| - 1] == local + rest;
      assert last in served;
      SubtractingOverrides(valid, p, local, rest);
    }
  }

  /** A served document whose entries for a source only switch it off or exclude more never widens it. */
  lemma SubtractingEntriesNarrow(b: Build, layers: seq<LayeredDocument>, served: Document, src: Source)
    requires Resolves(b, layers + [LayeredDocument(Remote, served)]) && src in b.catalog
    requires forall o :: o in served.sources && o.id == src.id ==> OnlySubtracts(o)
    ensures Resolves(b, layers)
    ensures NoWider(SourceUnder(b, layers + [LayeredDocument(Remote, served)], src), SourceUnder(b, layers, src))
  {
    LayersBelowResolve(b, layers, served);
    var local, fromServed := AllOfSource(src.id, layers), OfSource(src.id, Remote, served.sources);
    ServedOverrides(layers, served, served.sources, src.id);
    OfSourceHolds(src.id, Remote, served.sources);
    SubtractingOverrides(b.valid, Begun(src), local, fromServed);
    var before, after := OverriddenAll(b.valid, Begun(src), local).value, OverriddenAll(b.valid, Begun(src), local + fromServed).value;
    UnionGrows(before.src.exclude, before.additions);
    UnionGrows(after.src.exclude, after.additions);
  }

  // One source that leaves a secret out, and a served entry whose own exclusions replace that.
  const LOGS := Source("logs", true, ["~/logs"], ["*"], ["secret"], 0, map[])
  const REPLACING := Override("logs", None, [], [], ["other"], [], None, map[])
  const NOTHING := Document(None, None, None, None, None, None, None, None, None, [], map[], [], [], [], None, [])

  const SERVED := [LayeredDocument(Remote, NOTHING.(sources := [REPLACING]))]

  /** A served layer can widen: the excluded file of this source is newly collected. */
  lemma ServedLayerMayCollectMore(b: Build)
    requires b.catalog == [LOGS]
    ensures var matches, f := (glob: string, path: string) => glob == "*" || glob == path, File(["~/logs"], "secret", 1);
      && Resolves(b, []) && Resolves(b, SERVED)
      && !Collects(matches, SourceUnder(b, [], LOGS), f) && Collects(matches, SourceUnder(b, SERVED, LOGS), f)
  {
    var matches, f := (glob: string, path: string) => glob == "*" || glob == path, File(["~/logs"], "secret", 1);
    ReplacedExclusion(b);
    hide Resolves, SourceUnder;
    var after := LOGS.(exclude := ["other"]);
    assert "*" in after.includes && matches("*", f.path);
    assert "secret" in LOGS.exclude && matches("secret", f.path);
  }

  lemma ReplacedExclusion(b: Build)
    requires b.catalog == [LOGS]
    ensures Resolves(b, []) && SourceUnder(b, [], LOGS) == LOGS
    ensures Resolves(b, SERVED) && SourceUnder(b, SERVED, LOGS) == LOGS.(exclude := ["other"])
  {
    var lo := LayeredOverride(Remote, REPLACING);
    assert AllOfSource("logs", SERVED) == [lo] by {
      assert [REPLACING][..0] == [] && OfSource("logs", Remote, [REPLACING]) == [lo];
      assert SERVED[..0] == [];
    }
    hide AllOfSource, OfSource;
    assert AllOfSource("logs", []) == [] by { EmptyLayers("logs"); }
    assert OverriddenAll(b.valid, Begun(LOGS), [] + [lo]) == Overridden(b.valid, Begun(LOGS), lo) by {
      OneMore(b.valid, Begun(LOGS), [], lo);
    }
    assert [] + [lo] == [lo];
    assert InCatalog(b, "logs") by { assert LOGS in b.catalog; }
  }

  lemma EmptyLayers(id: string)
    ensures AllOfSource(id, []) == []
  {
  }

  lemma {:induction false} UnaffectedEntriesStay(paused: set<string>, sources: seq<Override>, id: string)
    requires id !in paused && forall o :: o in sources && o.id == id ==> o.excludeAdd == []
    ensures OfSource(id, Remote, LoweredAll(paused, sources)) == OfSource(id, Remote, sources)
    decreases |sources|
  {
    if sources != [] {
      var last, rest := sources[|sources| - 1], sources[..|sources| - 1];
      assert sources == rest + [last];
      UnaffectedEntriesStay(paused, rest, id);
      var lowered := LoweredAll(paused, sources);
      assert lowered[..|lowered| - 1] == LoweredAll(paused, rest);
      assert last in sources;
      assert last.id == id ==> Lowered(paused, last) == last;
    }
  }

  // A paused source has at least one entry, and every one of them switches it off.
  lemma {:induction false} PausedEntriesAreOff(paused: set<string>, sources: seq<Override>, id: string)
    requires id in paused
    ensures var los := OfSource(id, Remote, LoweredAll(paused, sources));
      && (forall lo :: lo in los ==> lo.layer == Remote && lo.o.id == id && lo.o.enabled == Some(false) && lo.o.excludeAdd == [])
      && ((exists o :: o in sources && o.id == id) ==> los != [])
    decreases |sources|
  {
    if sources != [] {
      var last, rest := sources[|sources| - 1], sources[..|sources| - 1];
      assert sources == rest + [last];
      PausedEntriesAreOff(paused, rest, id);
      var lowered := LoweredAll(paused, sources);
      assert lowered[..|lowered| - 1] == LoweredAll(paused, rest);
    }
  }

  lemma LastOffWins(valid: string -> bool, p: Progress, local: seq<LayeredOverride>, served: seq<LayeredOverride>)
    requires served != [] && served[|served| - 1].o.enabled == Some(false)
    requires OverriddenAll(valid, p, local + served).Some?
    ensures !OverriddenAll(valid, p, local + served).value.src.enabled
  {
    var all := local + served;
    assert all[|all| - 1] == served[|served| - 1];
  }

  /**
   * A build that cannot enforce additional exclusions collects, from the reduced document, only what a
   * build that can collects from the full one; and exactly that from every source without additions.
   */
  lemma ReductionNeverWidens(
      b: Build, layers: seq<LayeredDocument>, d: Document, sources: seq<Override>, src: Source,
      matches: (string, string) -> bool, f: File)
    requires src in b.catalog && Resolves(b, Under(layers, d, sources)) && Resolves(b, Under(layers, d, Reduced(sources)))
    ensures var full := SourceUnder(b, Under(layers, d, sources), src);
      var reduced := SourceUnder(b, Under(layers, d, Reduced(sources)), src);
      && (src.id !in PausedIds(sources) ==> reduced == full)
      && (src.id in PausedIds(sources) ==> !reduced.enabled)
      && (Collects(matches, reduced, f) ==> Collects(matches, full, f))
  {
    var paused, local := PausedIds(sources), AllOfSource(src.id, layers);
    ServedOverrides(layers, d, sources, src.id);
    ServedOverrides(layers, d, Reduced(sources), src.id);
    if src.id in paused {
      PausedEntriesAreOff(paused, sources, src.id);
      LastOffWins(b.valid, Begun(src), local, OfSource(src.id, Remote, Reduced(sources)));
    } else {
      forall o | o in sources && o.id == src.id ensures o.excludeAdd == [] {}
      UnaffectedEntriesStay(paused, sources, src.id);
    }
  }

  // --- when the reduced document is accepted ---------------------------------------------------

  lemma {:induction false} EnrichersStayAttached(valid: string -> bool, p: Progress, los: seq<LayeredOverride>)
    requires OverriddenAll(valid, p, los).Some?
    ensures OverriddenAll(valid, p, los).value.src.enrichers.Keys == p.src.enrichers.Keys
    decreases |los|
  {
    if los != [] { EnrichersStayAttached(valid, p, los[..|los| - 1]); }
  }

  lemma OffApplies(valid: string -> bool, p: Progress, lo: LayeredOverride, attached: Source)
    requires lo.o.enabled == Some(false) && lo.o.excludeAdd == [] && p.src.enrichers.Keys == attached.enrichers.Keys
    ensures Overridden(valid, p, lo).Some? <==> Known(attached, lo.o)
  {
  }

  ghost predicate AllOff(los: seq<LayeredOverride>) {
    forall lo :: lo in los ==> lo.o.enabled == Some(false) && lo.o.excludeAdd == []
  }

  ghost predicate AllKnown(src: Source, los: seq<LayeredOverride>) { forall lo :: lo in los ==> Known(src, lo.o) }

  lemma OneMoreOff(src: Source, rest: seq<LayeredOverride>, last: LayeredOverride)
    requires AllOff(rest + [last])
    ensures AllOff(rest) && last.o.enabled == Some(false) && last.o.excludeAdd == []
    ensures AllKnown(src, rest + [last]) <==> AllKnown(src, rest) && Known(src, last.o)
  {
    hide Known;
    var all := rest + [last];
    assert forall lo :: lo in all <==> lo in rest || lo == last;
  }

  lemma OneMore(valid: string -> bool, p: Progress, before: seq<LayeredOverride>, last: LayeredOverride)
    ensures OverriddenAll(valid, p, before + [last])
         == var so := OverriddenAll(valid, p, before); if so.None? then None else Overridden(valid, so.value, last)
  {
    assert (before + [last])[..|before|] == before;
  }

  // Overrides that only switch off are applied unless one names an enricher the source does not have.
  lemma {:induction false} OffAppliesWhenAttached(
      valid: string -> bool, p: Progress, local: seq<LayeredOverride>, served: seq<LayeredOverride>)
    requires OverriddenAll(valid, p, local).Some? && AllOff(served)
    ensures OverriddenAll(valid, p, local + served).Some? <==> AllKnown(p.src, served)
    decreases |served|
  {
    if served == [] {
      assert local + served == local;
    } else {
      hide OverriddenAll, Overridden, Known, AllOff, AllKnown;
      var last, rest := served[|served| - 1], served[..|served| - 1];
      assert served == rest + [last] && local + served == (local + rest) + [last];
      OneMore(valid, p, local + rest, last);
      OneMoreOff(p.src, rest, last);
      OffAppliesWhenAttached(valid, p, local, rest);
      if OverriddenAll(valid, p, local + rest).Some? {
        EnrichersStayAttached(valid, p, local + rest);
        OffApplies(valid, OverriddenAll(valid, p, local + rest).value, last, p.src);
      }
    }
  }

  // Every entry of a paused source names only enrichers the catalog attaches to it.
  ghost predicate PausedEntriesKnown(b: Build, sources: seq<Override>) {
    forall src, o :: src in b.catalog && o in sources && o.id == src.id && src.id in PausedIds(sources) ==> Known(src, o)
  }

  lemma {:induction false} LoweredEntries(paused: set<string>, sources: seq<Override>, src: Source)
    requires src.id in paused
    ensures (forall lo :: lo in OfSource(src.id, Remote, LoweredAll(paused, sources)) ==> Known(src, lo.o))
       <==> (forall o :: o in sources && o.id == src.id ==> Known(src, o))
    decreases |sources|
  {
    if sources != [] {
      var last, rest := sources[|sources| - 1], sources[..|sources| - 1];
      assert sources == rest + [last];
      LoweredEntries(paused, rest, src);
      var lowered := LoweredAll(paused, sources);
      assert lowered[..|lowered| - 1] == LoweredAll(paused, rest);
      assert Known(src, Lowered(paused, last)) == Known(src, last);
      assert OfSource(src.id, Remote, lowered)
          == OfSource(src.id, Remote, LoweredAll(paused, rest)) + (if last.id == src.id then [LayeredOverride(Remote, Lowered(paused, last))] else []);
    }
  }

  lemma ReducedSourceResolves(b: Build, layers: seq<LayeredDocument>, d: Document, sources: seq<Override>, src: Source)
    requires src in b.catalog && Resolves(b, Under(layers, d, sources))
    ensures ResolvedSource(b.valid, src, AllOfSource(src.id, Under(layers, d, Reduced(sources)))).Some?
       <==> (src.id in PausedIds(sources) ==> forall o :: o in sources && o.id == src.id ==> Known(src, o))
  {
    var paused, local := PausedIds(sources), AllOfSource(src.id, layers);
    ServedOverrides(layers, d, sources, src.id);
    ServedOverrides(layers, d, Reduced(sources), src.id);
    if src.id in paused {
      LayersBelowResolve(b, layers, d.(sources := sources));
      PausedEntriesAreOff(paused, sources, src.id);
      LoweredEntries(paused, sources, src);
      OffAppliesWhenAttached(b.valid, Begun(src), local, OfSource(src.id, Remote, Reduced(sources)));
    } else {
      forall o | o in sources && o.id == src.id ensures o.excludeAdd == [] {}
      UnaffectedEntriesStay(paused, sources, src.id);
    }
  }

  /**
   * Exactly when the reduced document is accepted where the full one is. A served enable over a local
   * disable hides the rest of its entry; the pause does not, so an enricher unknown to the build surfaces.
   */
  lemma ReducedIsAcceptedExactlyWhenEntriesAreKnown(b: Build, layers: seq<LayeredDocument>, d: Document, sources: seq<Override>)
    requires Resolves(b, Under(layers, d, sources))
    ensures Resolves(b, Under(layers, d, Reduced(sources))) <==> PausedEntriesKnown(b, sources)
  {
    var full, reduced := Under(layers, d, sources), Under(layers, d, Reduced(sources));
    assert full[|full| - 1] in full;
    forall ld | ld in reduced ensures Readable(b, ld) {
      if ld in layers {
        assert ld in full;
      } else {
        forall o | o in ld.doc.sources ensures InCatalog(b, o.id) {
          var i :| 0 <= i < |sources| && Reduced(sources)[i] == o;
          assert sources[i] in sources;
        }
      }
    }
    forall src | src in b.catalog {
      ReducedSourceResolves(b, layers, d, sources, src);
    }
    hide ResolvedSource, Readable, Known;
  }

  // Such an input: the owner switched the source off, the served entry would switch it on and names an
  // enricher this build does not have.
  lemma ReducedMayBeRefused(b: Build, layers: seq<LayeredDocument>, d: Document, src: Source, o: Override)
    requires src in b.catalog && o.id == src.id && o.excludeAdd != [] && o.enabled == Some(true) && !Known(src, o)
    requires Resolves(b, layers) && LocallyDisabled(AllOfSource(src.id, layers)) && AllValid(b.valid, o.excludeAdd)
    requires !Refused(b.text, Remote, d.(sources := [o]))
    requires forall other :: other in b.catalog && other != src ==> other.id != src.id
    ensures Resolves(b, Under(layers, d, [o])) && !Resolves(b, Under(layers, d, Reduced([o])))
  {
    var full := Under(layers, d, [o]);
    forall other | other in b.catalog ensures ResolvedSource(b.valid, other, AllOfSource(other.id, full)).Some? {
      ServedOverrides(layers, d, [o], other.id);
      var local := AllOfSource(other.id, layers);
      var served := OfSource(other.id, Remote, [o]);
      assert [o][..0] == [] && served == if other.id == o.id then [LayeredOverride(Remote, o)] else [];
      if other.id == o.id {
        LocalDisableIsNoted(b.valid, Begun(src), local);
        assert (local + served)[..|local|] == local;
      } else {
        assert local + served == local;
      }
    }
    assert InCatalog(b, o.id);
    assert Resolves(b, full);
    assert o in [o] && o.id in PausedIds([o]);
    ReducedIsAcceptedExactlyWhenEntriesAreKnown(b, layers, d, [o]);
  }

  /** The same of the documents two builds with one catalog are served, one enforcing additions, one not. */
  lemma BuildsWithOneCatalog(
      b: Build, layers: seq<LayeredDocument>, d: Document, sources: seq<Override>, ids: set<string>, features: set<string>,
      src: Source, matches: (string, string) -> bool, f: File)
    requires src in b.catalog && EXCLUDE_ADD !in features
    requires Resolves(b, Under(layers, d, ForBuild(Some(Catalog(ids, features + {EXCLUDE_ADD})), sources)))
    requires Resolves(b, Under(layers, d, ForBuild(Some(Catalog(ids, features)), sources)))
    ensures Collects(matches, SourceUnder(b, Under(layers, d, ForBuild(Some(Catalog(ids, features)), sources)), src), f)
        ==> Collects(matches, SourceUnder(b, Under(layers, d, ForBuild(Some(Catalog(ids, features + {EXCLUDE_ADD})), sources)), src), f)
  {
    SameKept(ids, features, features + {EXCLUDE_ADD}, sources);
    ReductionNeverWidens(b, layers, d, Kept(Some(Catalog(ids, features)), sources), src, matches, f);
  }

  lemma {:induction false} SameKept(ids: set<string>, a: set<string>, b: set<string>, sources: seq<Override>)
    ensures Kept(Some(Catalog(ids, a)), sources) == Kept(Some(Catalog(ids, b)), sources)
    decreases |sources|
  {
    if sources != [] { SameKept(ids, a, b, sources[..|sources| - 1]); }
  }
}
