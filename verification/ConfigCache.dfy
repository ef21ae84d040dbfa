/** The cached served document: a reduced copy any reader may use, and the full one for those that can. */
module ConfigCache {
  import opened Wrappers
  import opened ConfigLayers
  import opened Exclusions

  const CACHE_SCHEMA := 3

  // A served document as read off the wire: whether an entry names the key at all, and all it says.
  datatype RawSource = Entry(o: Override, named: bool) | Other(text: string)
  datatype Raw = Raw(sources: seq<RawSource>, rest: string)

  datatype Cached = Cached(
    schema: int, config: Raw, configFull: Option<Raw>, features: Option<seq<string>>, fetchedAt: int, expiresAt: int)

  // --- reducing --------------------------------------------------------------------------------

  predicate Names(s: RawSource) { s.Entry? && s.named }

  predicate NamesAny(d: Raw) { exists s <- d.sources :: Names(s) }

  function Entries(sources: seq<RawSource>): seq<Override>
    decreases |sources|
  {
    if sources == [] then []
    else
      var last := sources[|sources| - 1];
      Entries(sources[..|sources| - 1]) + (if last.Entry? then [last.o] else [])
  }

  ghost function LoweredSource(paused: set<string>, s: RawSource): RawSource {
    if s.Entry? then Entry(Lowered(paused, s.o), false) else s
  }

  ghost function LoweredSources(paused: set<string>, sources: seq<RawSource>): seq<RawSource> {
    seq(|sources|, i requires 0 <= i < |sources| => LoweredSource(paused, sources[i]))
  }

  // What an older reader can be trusted with; a document naming no additions is itself.
  ghost function Reduction(d: Raw): Raw {
    if !NamesAny(d) then d else d.(sources := LoweredSources(PausedIds(Entries(d.sources)), d.sources))
  }

  function Needs(d: Raw): seq<string> { if NamesAny(d) then [EXCLUDE_ADD] else [] }

  method ReadEntries(d: Raw) returns (found: bool, records: seq<Override>)
    ensures found == NamesAny(d) && records == Entries(d.sources)
  {
    found, records := false, [];
    for i := 0 to |d.sources|
      invariant found <==> exists j :: 0 <= j < i && Names(d.sources[j])
      invariant records == Entries(d.sources[..i])
    {
      assert d.sources[..i + 1][..i] == d.sources[..i];
      if d.sources[i].Entry? {
        if d.sources[i].named { found := true; }
        records := records + [d.sources[i].o];
      }
    }
    assert d.sources[..|d.sources|] == d.sources;
    assert found ==> exists s :: s in d.sources && Names(s);
  }

  method ReduceCachedConfig(d: Raw) returns (reduced: Raw, features: seq<string>)
    ensures reduced == Reduction(d) && features == Needs(d)
  {
    hide Entries, PausedIds, Names;
    var found, records := ReadEntries(d);
    if !found { return d, []; }
    var scopes := ReduceSourceExclusions(records);
    var out := d.sources;
    ghost var paused := PausedIds(records);
    for i := 0 to |out|
      invariant |out| == |d.sources|
      invariant forall j :: i <= j < |out| ==> out[j] == d.sources[j]
      invariant forall j :: 0 <= j < i ==> out[j] == LoweredSource(paused, d.sources[j])
    {
      EntryPosition(d.sources, i);
      var k := |Entries(d.sources[..i])|;
      if out[i].Entry? { out := out[i := Entry(scopes[k], false)]; }
    }
    assert out == LoweredSources(paused, d.sources);
    return d.(sources := out), [EXCLUDE_ADD];
  }

  // The record of entry i is the one at its rank among the entries.
  lemma {:induction false} EntryPosition(sources: seq<RawSource>, i: nat)
    requires i < |sources|
    ensures var k := |Entries(sources[..i])|;
      && |Entries(sources[..i + 1])| == k + (if sources[i].Entry? then 1 else 0) <= |Entries(sources)|
      && (sources[i].Entry? ==> Entries(sources)[k] == sources[i].o)
    decreases |sources|
  {
    assert sources[..i + 1][..i] == sources[..i];
    if i == |sources| - 1 {
      assert sources[..i + 1] == sources;
    } else {
      var before := sources[..|sources| - 1];
      assert before[..i] == sources[..i] && before[..i + 1] == sources[..i + 1];
      EntryPosition(before, i);
    }
  }

  // --- saving and reading ----------------------------------------------------------------------

  // A build: the features it supports; what a cache takes on disk, and how much is allowed there.
  datatype Reader = Reader(features: set<string>)
  datatype Disk = Disk(size: Cached -> nat, limit: nat)

  predicate Supports(r: Reader, features: seq<string>) { forall f <- features :: f in r.features }

  // A full copy without a list of needs is from builds whose only reduced feature was exclude_add.
  function Chosen(r: Reader, c: Cached): Raw {
    if c.configFull.Some? && Supports(r, c.features.GetOr([EXCLUDE_ADD])) then c.configFull.value else c.config
  }

  ghost function Both(c: Cached, d: Raw): Cached {
    if NamesAny(d) then Cached(CACHE_SCHEMA, Reduction(d), Some(d), Some(Needs(d)), c.fetchedAt, c.expiresAt)
    else Cached(CACHE_SCHEMA, d, None, None, c.fetchedAt, c.expiresAt)
  }

  ghost function OnlyReduced(c: Cached, d: Raw): Cached {
    Cached(CACHE_SCHEMA, Reduction(d), None, None, c.fetchedAt, c.expiresAt)
  }

  predicate Fits(disk: Disk, c: Cached) { disk.size(c) + 1 <= disk.limit }

  // The full copy beside the reduced one if both fit, the reduced one alone if that fits, or nothing.
  ghost function Saved(r: Reader, disk: Disk, c: Cached): Option<Cached> {
    var d := Chosen(r, c);
    if Fits(disk, Both(c, d)) then Some(Both(c, d))
    else if Fits(disk, OnlyReduced(c, d)) then Some(OnlyReduced(c, d)) else None
  }

  method SaveCache(r: Reader, disk: Disk, c: Cached) returns (saved: Option<Cached>)
    ensures saved == Saved(r, disk, c)
  {
    var full := Chosen(r, c);
    var reduced, features := ReduceCachedConfig(full);
    var next := Cached(CACHE_SCHEMA, reduced, None, None, c.fetchedAt, c.expiresAt);
    if |features| > 0 { next := next.(configFull := Some(full), features := Some(features)); }
    if disk.size(next) + 1 > disk.limit {
      next := next.(configFull := None, features := None);
      if disk.size(next) + 1 > disk.limit { return None; }
    }
    return Some(next);
  }

  // A document just fetched, before it is stored.
  ghost function Fetched(d: Raw, fetchedAt: int, expiresAt: int): Cached { Cached(CACHE_SCHEMA, d, None, None, fetchedAt, expiresAt) }

  lemma {:induction false} ReducedNamesNone(paused: set<string>, sources: seq<RawSource>)
    ensures forall s :: s in LoweredSources(paused, sources) ==> !Names(s)
  {
    forall s | s in LoweredSources(paused, sources) ensures !Names(s) {
      var i :| 0 <= i < |sources| && LoweredSources(paused, sources)[i] == s;
    }
  }

  /** Entry by entry: the reduced copy of a document that names additions, and of one that names none. */
  lemma WhatTheReducedCopySays(d: Raw, i: nat)
    requires i < |d.sources|
    ensures Reduction(d).rest == d.rest && |Reduction(d).sources| == |d.sources|
    ensures var names := exists s <- d.sources :: s.Entry? && s.named;
      Reduction(d).sources[i] ==
        if !names || d.sources[i].Other? then d.sources[i]
        else
          var o := d.sources[i].o;
          var affected := exists s <- d.sources :: s.Entry? && s.o.id == o.id && s.o.excludeAdd != [];
          Entry(Override(o.id, if affected then Some(false) else o.enabled, o.roots, o.includes, o.exclude, [], o.maxFileBytes, o.enrichers), false)
  {
    if NamesAny(d) && d.sources[i].Entry? {
      EntriesHold(d.sources);
      assert d.sources[i] in d.sources;
    }
  }

  lemma {:induction false} EntriesHold(sources: seq<RawSource>)
    ensures forall o :: o in Entries(sources) <==> exists s <- sources :: s.Entry? && s.o == o
    decreases |sources|
  {
    if sources != [] {
      var before, last := sources[..|sources| - 1], sources[|sources| - 1];
      assert sources == before + [last];
      EntriesHold(before);
      if last.Entry? { assert last in sources; }
    }
  }

  /** The full copy is kept when both fit in the limit with a line end, else the reduced one alone, else neither. */
  lemma WhatIsKept(r: Reader, disk: Disk, c: Cached)
    ensures var legacy := c.configFull.Some? && c.features.None?;
      var enforces := c.configFull.Some? && (if legacy then "sources.exclude_add" in r.features else forall f <- c.features.value :: f in r.features);
      var d := if enforces then c.configFull.value else c.config;
      var names := exists s <- d.sources :: s.Entry? && s.named;
      var two := Cached(3, Reduction(d), Some(d), Some(["sources.exclude_add"]), c.fetchedAt, c.expiresAt);
      var one := Cached(3, Reduction(d), None, None, c.fetchedAt, c.expiresAt);
      Saved(r, disk, c) ==
        if names && disk.size(two) < disk.limit then Some(two) else if disk.size(one) < disk.limit then Some(one) else None
  {
  }

  // Reducing is done once and for all.
  lemma ReductionIsIdempotent(d: Raw)
    ensures !NamesAny(Reduction(d)) && Reduction(Reduction(d)) == Reduction(d)
  {
    ReducedNamesNone(PausedIds(Entries(d.sources)), d.sources);
  }

  /**
   * Whoever saved it, a reader that supports additional exclusions gets back the document fetched whenever
   * the cache has room for it, and the reduced one otherwise; every other reader gets the reduced one,
   * as does a reader so old that it knows of one copy only.
   */
  lemma CacheServesWhatTheReaderCanEnforce(r: Reader, reader: Reader, disk: Disk, d: Raw, fetchedAt: int, expiresAt: int)
    requires Saved(r, disk, Fetched(d, fetchedAt, expiresAt)).Some?
    ensures var c := Saved(r, disk, Fetched(d, fetchedAt, expiresAt)).value;
      && c.config == Reduction(d) && Fits(disk, c)
      && Chosen(reader, c) == if EXCLUDE_ADD in reader.features && Fits(disk, Both(c, d)) then d else Reduction(d)
  {
    var c := Saved(r, disk, Fetched(d, fetchedAt, expiresAt)).value;
    assert Both(c, d) == Both(Fetched(d, fetchedAt, expiresAt), d);
    assert NamesAny(d) ==> (Supports(reader, Needs(d)) <==> EXCLUDE_ADD in reader.features) by {
      if NamesAny(d) { assert Needs(d)[0] in Needs(d); }
    }
  }

  /** Saving again what was read back changes nothing a reader sees, though an old reader saves only its copy. */
  lemma SavingAgain(r: Reader, again: Reader, disk: Disk, d: Raw, fetchedAt: int, expiresAt: int)
    requires Saved(r, disk, Fetched(d, fetchedAt, expiresAt)).Some?
    ensures var c := Saved(r, disk, Fetched(d, fetchedAt, expiresAt)).value;
      && (EXCLUDE_ADD in again.features ==> Saved(again, disk, c) == Some(c))
      && (Saved(again, disk, c).Some? ==> Saved(again, disk, c).value.config == Reduction(d))
  {
    var first := Fetched(d, fetchedAt, expiresAt);
    var c := Saved(r, disk, first).value;
    CacheServesWhatTheReaderCanEnforce(r, again, disk, d, fetchedAt, expiresAt);
    ReductionIsIdempotent(d);
    assert Both(c, d) == Both(first, d) && OnlyReduced(c, d) == OnlyReduced(first, d);
    assert Both(c, Reduction(d)) == OnlyReduced(c, Reduction(d)) == OnlyReduced(first, d);
    hide Reduction, NamesAny, Needs;
  }
}
