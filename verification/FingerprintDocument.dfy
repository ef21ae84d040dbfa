/** The state document on disk: entries sorted by key, times as text, values under a checksum. */
module FingerprintDocument {
  import opened Wrappers
  import opened Fingerprints

  const STATE_SCHEMA := 1
  const SECOND := 1_000_000_000

  // Times count nanoseconds from the zero time, the first instant of year 1. Only years 0 to 9999 have
  // four digits, and only those parse back.
  const EARLIEST := -366 * 86400 * SECOND
  const LATEST := 3652059 * 86400 * SECOND

  // A time as the document spells it: absent, to the nanosecond, or to the second.
  datatype Stamp = Absent | At(nanos: int)

  function Exactly(t: int): Stamp { if t == 0 then Absent else At(t) }

  function WholeSecond(t: int): int { t - t % SECOND }

  function ToTheSecond(t: int): Stamp { if t == 0 then Absent else At(WholeSecond(t)) }

  function Parsed(s: Stamp): int { if s.At? && EARLIEST <= s.nanos < LATEST then s.nanos else 0 }

  datatype WireEntry = WireEntry(
    sourceId: string, nativePath: string, identity: string, sourceSize: int, sourceMTime: Stamp, attempts: int,
    sourceHash: string, enricher: Option<Enricher>, outputHash: string,
    parked: bool, lastError: string, backoffUntil: Stamp)

  datatype WireDoc = WireDoc(
    schema: int, installId: string, updatedAt: Stamp, specs: map<string, string>, checksum: string,
    entries: seq<WireEntry>)

  // Every field but the checksum goes into it; the rest of the schema is `shape`.
  datatype Format = Format(digest: WireDoc -> string, shape: WireEntry -> bool)

  function ChecksumOf(f: Format, doc: WireDoc): string { f.digest(doc.(checksum := "")) }

  function WireOf(k: Key, fp: Fingerprint): WireEntry {
    var path := ObservedPath(k, fp);
    WireEntry(k.sourceId, path, if path != k.id then k.id else "", fp.sourceSize, Exactly(fp.sourceMTime), fp.attempts,
              fp.sourceHash, fp.enricher, fp.outputHash, fp.parked, fp.lastError, ToTheSecond(fp.backoffUntil))
  }

  // What the document's schema demands of an entry, as far as values go.
  predicate Conforms(f: Format, e: WireEntry) { e.nativePath != "" && e.sourceSize >= 0 && e.attempts >= 0 && f.shape(e) }

  /** Four-digit years: from the start of year 0, a leap year, up to the end of year 9999. */
  lemma YearsWithFourDigits()
    ensures LATEST == (9999 * 365 + 9999 / 4 - 9999 / 100 + 9999 / 400) * 24 * 60 * 60 * 1_000_000_000
    ensures EARLIEST == -(366 * 24 * 60 * 60 * 1_000_000_000)
  {
  }

  /** What a row says: the key's source and the file's path, the id where the path is another, and the rest as remembered. */
  lemma WhatARowSays(f: Format, k: Key, fp: Fingerprint)
    ensures var e := WireOf(k, fp);
      var path := if fp.nativePath != "" then fp.nativePath else k.id;
      && (e.sourceId, e.nativePath, e.identity) == (k.sourceId, path, if path == k.id then "" else k.id)
      && (e.sourceSize, e.sourceHash, e.outputHash, e.attempts) == (fp.sourceSize, fp.sourceHash, fp.outputHash, fp.attempts)
      && (e.enricher, e.parked, e.lastError) == (fp.enricher, fp.parked, fp.lastError)
      && e.sourceMTime == (if fp.sourceMTime == 0 then Absent else At(fp.sourceMTime))
      && (fp.backoffUntil == 0 <==> e.backoffUntil == Absent)
      && (e.backoffUntil.At? ==> 0 <= fp.backoffUntil - e.backoffUntil.nanos < 1_000_000_000 && e.backoffUntil.nanos % 1_000_000_000 == 0)
      && (Conforms(f, e) <==> path != "" && fp.sourceSize >= 0 && fp.attempts >= 0 && f.shape(e))
  {
  }

  /** What comes back of a row: everything, but times beyond four-digit years, and a backoff to the second below. */
  lemma WhatComesBack(k: Key, fp: Fingerprint)
    requires k.id != ""
    ensures var r := Read(WireOf(k, fp));
      && KeyIn(WireOf(k, fp)) == k
      && (if r.nativePath != "" then r.nativePath else k.id) == (if fp.nativePath != "" then fp.nativePath else k.id)
      && (r.sourceSize, r.sourceHash, r.outputHash, r.attempts) == (fp.sourceSize, fp.sourceHash, fp.outputHash, fp.attempts)
      && (r.enricher, r.parked, r.lastError) == (fp.enricher, fp.parked, fp.lastError)
      && (-366 * 86400 * 1_000_000_000 <= fp.sourceMTime < 3652059 * 86400 * 1_000_000_000 ==> r.sourceMTime == fp.sourceMTime)
      && (-366 * 86400 * 1_000_000_000 <= fp.backoffUntil < 3652059 * 86400 * 1_000_000_000 ==>
            0 <= fp.backoffUntil - r.backoffUntil < 1_000_000_000)
  {
    assert EARLIEST % SECOND == 0;
  }

  // --- the order of keys -----------------------------------------------------------------------

  predicate TextBefore(a: string, b: string) {
    if b == "" then false
    else if a == "" then true
    else if a[0] == b[0] then TextBefore(a[1..], b[1..])
    else a[0] < b[0]
  }

  lemma {:induction false} TextOrder(a: string, b: string)
    ensures !(TextBefore(a, b) && TextBefore(b, a))
    ensures a == b || TextBefore(a, b) || TextBefore(b, a)
    ensures !TextBefore(a, a)
    decreases |a|
  {
    if a != "" {
      if b != "" && a[0] == b[0] {
        TextOrder(a[1..], b[1..]);
        assert a == [a[0]] + a[1..] && b == [b[0]] + b[1..];
      }
      TextOrder(a[1..], a[1..]);
    }
  }

  /** The order is that of dictionaries: the first character that differs decides, and a shorter text comes first. */
  lemma {:induction false} DictionaryOrder(a: string, b: string)
    ensures TextBefore(a, b) <==> exists n: nat :: Differs(a, b, n)
    decreases |a|
  {
    if b == "" {
    } else if a == "" {
      assert Differs(a, b, 0);
    } else if a[0] != b[0] {
      if TextBefore(a, b) { assert Differs(a, b, 0); }
      forall n: nat | Differs(a, b, n) ensures n == 0 { SameStart(a, b, n); }
    } else {
      DictionaryOrder(a[1..], b[1..]);
      if TextBefore(a, b) {
        var n: nat :| Differs(a[1..], b[1..], n);
        assert a[..n + 1] == [a[0]] + a[1..][..n] && b[..n + 1] == [b[0]] + b[1..][..n];
        assert Differs(a, b, n + 1);
      }
      forall n: nat | Differs(a, b, n) ensures n > 0 && Differs(a[1..], b[1..], n - 1) {
        if n > 0 { assert a[1..][..n - 1] == a[..n][1..] && b[1..][..n - 1] == b[..n][1..]; }
      }
    }
  }

  lemma SameStart(a: string, b: string, n: nat)
    requires n <= |a| && n <= |b| && a[..n] == b[..n]
    ensures n > 0 ==> a[0] == b[0]
  {
    if n > 0 { assert a[..n][0] == b[..n][0]; }
  }

  // The texts agree up to here, where the first has ended or has the smaller character.
  ghost predicate Differs(a: string, b: string, n: nat) {
    n <= |a| && n < |b| && a[..n] == b[..n] && (n == |a| || a[n] < b[n])
  }

  lemma {:induction false} TextTransitive(a: string, b: string, c: string)
    requires TextBefore(a, b) && TextBefore(b, c)
    ensures TextBefore(a, c)
    decreases |a|
  {
    if a != "" && a[0] == b[0] == c[0] { TextTransitive(a[1..], b[1..], c[1..]); }
  }

  predicate Before(a: Key, b: Key) {
    TextBefore(a.sourceId, b.sourceId) || (a.sourceId == b.sourceId && TextBefore(a.id, b.id))
  }

  lemma KeyOrder(a: Key, b: Key)
    ensures !(Before(a, b) && Before(b, a)) && !Before(a, a)
    ensures a == b || Before(a, b) || Before(b, a)
  {
    TextOrder(a.sourceId, b.sourceId);
    TextOrder(a.id, b.id);
    TextOrder(a.sourceId, a.sourceId);
  }

  lemma KeyTransitive(a: Key, b: Key, c: Key)
    requires Before(a, b) && Before(b, c)
    ensures Before(a, c)
  {
    if TextBefore(a.sourceId, b.sourceId) && TextBefore(b.sourceId, c.sourceId) {
      TextTransitive(a.sourceId, b.sourceId, c.sourceId);
    } else if a.sourceId == b.sourceId == c.sourceId {
      TextTransitive(a.id, b.id, c.id);
    }
  }

  ghost predicate Sorted(keys: seq<Key>) { forall i, j :: 0 <= i < j < |keys| ==> Before(keys[i], keys[j]) }

  ghost predicate Lists(keys: seq<Key>, all: set<Key>) { Sorted(keys) && forall k :: k in keys <==> k in all }

  // One set of keys has one sorted listing.
  lemma {:induction false} OneListing(a: seq<Key>, b: seq<Key>, all: set<Key>)
    requires Lists(a, all) && Lists(b, all)
    ensures a == b
    decreases |a|
  {
    assert (a == [] || a[0] in all) && (b == [] || b[0] in all);
    if a != [] {
      var i :| 0 <= i < |a| && a[i] == b[0];
      var j :| 0 <= j < |b| && b[j] == a[0];
      KeyOrder(a[0], b[0]);
      assert a[0] == b[0];
      Rest(a, all);
      Rest(b, all);
      OneListing(a[1..], b[1..], all - {a[0]});
      assert a == [a[0]] + a[1..] && b == [b[0]] + b[1..];
    }
  }

  lemma Rest(keys: seq<Key>, all: set<Key>)
    requires keys != [] && Lists(keys, all)
    ensures Lists(keys[1..], all - {keys[0]})
  {
    forall k ensures k in keys[1..] <==> k in all - {keys[0]} {
      KeyOrder(keys[0], keys[0]);
      assert k in keys <==> k == keys[0] || k in keys[1..];
      if k in keys[1..] {
        var i :| 0 <= i < |keys| - 1 && keys[1..][i] == k;
        assert Before(keys[0], keys[i + 1]);
      }
    }
  }

  // --- encode ----------------------------------------------------------------------------------

  // A document that says exactly these entries, in key order, sealed by its checksum.
  ghost predicate Encodes(
      f: Format, doc: WireDoc, installId: string, now: int, specs: map<string, string>, entries: map<Key, Fingerprint>) {
    && doc == WireDoc(STATE_SCHEMA, installId, ToTheSecond(now), specs, ChecksumOf(f, doc), doc.entries)
    && exists keys :: Lists(keys, entries.Keys) && doc.entries == Rows(keys, entries)
  }

  ghost function Rows(keys: seq<Key>, entries: map<Key, Fingerprint>): seq<WireEntry>
    requires forall k :: k in keys ==> k in entries
  {
    seq(|keys|, i requires 0 <= i < |keys| => assert keys[i] in keys; WireOf(keys[i], entries[keys[i]]))
  }

  /** Equal states give equal documents, however the maps were walked. */
  lemma EncodingIsDeterministic(
      f: Format, a: WireDoc, b: WireDoc, installId: string, now: int, specs: map<string, string>, entries: map<Key, Fingerprint>)
    requires Encodes(f, a, installId, now, specs, entries) && Encodes(f, b, installId, now, specs, entries)
    ensures a == b
  {
    var ka :| Lists(ka, entries.Keys) && a.entries == Rows(ka, entries);
    var kb :| Lists(kb, entries.Keys) && b.entries == Rows(kb, entries);
    OneListing(ka, kb, entries.Keys);
    assert a.(checksum := "") == b.(checksum := "");
  }

  method Insert(sorted: seq<Key>, k: Key, ghost all: set<Key>) returns (r: seq<Key>)
    requires Lists(sorted, all) && k !in all
    ensures Lists(r, all + {k})
  {
    var i := 0;
    while i < |sorted| && Before(sorted[i], k)
      invariant i <= |sorted| && forall j :: 0 <= j < i ==> Before(sorted[j], k)
    {
      i := i + 1;
    }
    r := sorted[..i] + [k] + sorted[i..];
    if i < |sorted| {
      assert sorted[i] in sorted;
      KeyOrder(sorted[i], k);
      forall j | i < j < |sorted| ensures Before(k, sorted[j]) { KeyTransitive(k, sorted[i], sorted[j]); }
    }
    forall x ensures x in r <==> x in all + {k} {
      assert x in sorted <==> x in sorted[..i] || x in sorted[i..] by { assert sorted == sorted[..i] + sorted[i..]; }
    }
  }

  // The map's keys arrive in any order.
  method SortedKeys(entries: map<Key, Fingerprint>) returns (keys: seq<Key>)
    ensures Lists(keys, entries.Keys)
  {
    keys := [];
    var left := entries.Keys;
    while left != {}
      invariant left <= entries.Keys && Lists(keys, entries.Keys - left)
      decreases left
    {
      var k :| k in left;
      keys := Insert(keys, k, entries.Keys - left);
      left := left - {k};
      assert entries.Keys - left == entries.Keys - (left + {k}) + {k};
    }
    assert entries.Keys - left == entries.Keys;
  }

  method Encode(f: Format, installId: string, now: int, specs: map<string, string>, entries: map<Key, Fingerprint>)
    returns (doc: Option<WireDoc>)
    ensures doc.Some? ==> Encodes(f, doc.value, installId, now, specs, entries)
    ensures doc.Some? ==> doc.value.schema == 1 && doc.value.checksum == f.digest(doc.value.(checksum := ""))
    ensures doc.Some? <==> forall k :: k in entries ==> Conforms(f, WireOf(k, entries[k]))
  {
    var keys := SortedKeys(entries);
    var rows: seq<WireEntry> := [];
    while |rows| < |keys|
      invariant |rows| <= |keys|
      invariant forall i :: 0 <= i < |rows| ==> keys[i] in entries && rows[i] == WireOf(keys[i], entries[keys[i]])
    {
      assert keys[|rows|] in keys;
      rows := rows + [WireOf(keys[|rows|], entries[keys[|rows|]])];
    }
    var unsealed := WireDoc(STATE_SCHEMA, installId, ToTheSecond(now), specs, "", rows);
    var sealed := unsealed.(checksum := ChecksumOf(f, unsealed));
    assert sealed.(checksum := "") == unsealed;
    assert rows == Rows(keys, entries);
    var i := 0;
    while i < |rows|
      invariant i <= |rows| && forall j :: 0 <= j < i ==> Conforms(f, rows[j])
    {
      if !Conforms(f, rows[i]) {
        assert keys[i] in keys;
        return None;
      }
      i := i + 1;
    }
    forall k | k in entries ensures Conforms(f, WireOf(k, entries[k])) {
      assert k in keys;
      var j :| 0 <= j < |keys| && keys[j] == k;
      assert Conforms(f, rows[j]);
    }
    return Some(sealed);
  }

  // --- load ------------------------------------------------------------------------------------

  datatype LoadError = SchemaMismatch | BadChecksum | NegativeAttempts
  datatype Loaded = Loaded(installId: string, specs: map<string, string>, entries: map<Key, Fingerprint>) | Rejected(error: LoadError)

  function KeyIn(e: WireEntry): Key { Key(e.sourceId, FirstNonEmpty(e.identity, e.nativePath)) }

  function Read(e: WireEntry): Fingerprint {
    Fingerprint(if e.identity != "" then e.nativePath else "", e.sourceSize, Parsed(e.sourceMTime), e.sourceHash,
                e.enricher, e.outputHash, e.parked, e.lastError, Parsed(e.backoffUntil), e.attempts)
  }

  // The last row under a key wins.
  ghost function Entries(rows: seq<WireEntry>): map<Key, Fingerprint>
    decreases |rows|
  {
    if rows == [] then map[]
    else Entries(rows[..|rows| - 1])[KeyIn(rows[|rows| - 1]) := Read(rows[|rows| - 1])]
  }

  predicate Acceptable(rows: seq<WireEntry>) { forall e <- rows :: e.attempts >= 0 }

  method Load(f: Format, doc: WireDoc) returns (r: Loaded)
    ensures doc.schema != STATE_SCHEMA ==> r == Rejected(SchemaMismatch)
    ensures doc.schema == STATE_SCHEMA && doc.checksum != "" && doc.checksum != ChecksumOf(f, doc) ==> r == Rejected(BadChecksum)
    ensures r.Loaded? <==>
      doc.schema == STATE_SCHEMA && (doc.checksum == "" || doc.checksum == ChecksumOf(f, doc)) && Acceptable(doc.entries)
    ensures r.Loaded? ==> r == Loaded(doc.installId, doc.specs, Entries(doc.entries))
  {
    if doc.schema != STATE_SCHEMA { return Rejected(SchemaMismatch); }
    if doc.checksum != "" && doc.checksum != ChecksumOf(f, doc) { return Rejected(BadChecksum); }
    var entries: map<Key, Fingerprint> := map[];
    var i := 0;
    while i < |doc.entries|
      invariant i <= |doc.entries| && Acceptable(doc.entries[..i]) && entries == Entries(doc.entries[..i])
    {
      var e := doc.entries[i];
      if e.attempts < 0 {
        assert e in doc.entries;
        return Rejected(NegativeAttempts);
      }
      assert doc.entries[..i + 1][..i] == doc.entries[..i] && doc.entries[..i + 1] == doc.entries[..i] + [e];
      entries := entries[KeyIn(e) := Read(e)];
      i := i + 1;
    }
    assert doc.entries[..i] == doc.entries;
    return Loaded(doc.installId, doc.specs, entries);
  }

  // --- round trip ------------------------------------------------------------------------------

  // What survives: the path only where it is not the key, times the text can carry.
  function Normal(k: Key, fp: Fingerprint): Fingerprint {
    fp.(nativePath := if ObservedPath(k, fp) != k.id then ObservedPath(k, fp) else "",
        sourceMTime := Parsed(At(fp.sourceMTime)), backoffUntil := Parsed(At(WholeSecond(fp.backoffUntil))))
  }

  lemma RowRoundTrip(k: Key, fp: Fingerprint)
    ensures KeyIn(WireOf(k, fp)) == k <==> k.id != "" || ObservedPath(k, fp) == ""
    ensures k.id != "" ==> Read(WireOf(k, fp)) == Normal(k, fp)
    ensures ObservedPath(k, Normal(k, fp)) == ObservedPath(k, fp) || k.id == ""
  {
  }

  ghost function NormalOf(keys: seq<Key>, entries: map<Key, Fingerprint>): map<Key, Fingerprint>
    requires forall k :: k in keys ==> k in entries
  {
    map k | k in keys :: Normal(k, entries[k])
  }

  lemma {:induction false} RowsRoundTrip(keys: seq<Key>, entries: map<Key, Fingerprint>)
    requires forall k :: k in keys ==> k in entries && k.id != ""
    ensures Entries(Rows(keys, entries)) == NormalOf(keys, entries)
    decreases |keys|
  {
    hide Normal, Read, KeyIn, WireOf;
    if keys != [] {
      var last, before := keys[|keys| - 1], keys[..|keys| - 1];
      assert keys == before + [last];
      RowsRoundTrip(before, entries);
      LastRow(before, last, entries);
    }
  }

  lemma LastRow(before: seq<Key>, last: Key, entries: map<Key, Fingerprint>)
    requires last in entries && last.id != "" && forall k :: k in before ==> k in entries
    ensures forall k :: k in before + [last] ==> k in entries
    ensures Entries(Rows(before + [last], entries)) == Entries(Rows(before, entries))[last := Normal(last, entries[last])]
    ensures NormalOf(before + [last], entries) == NormalOf(before, entries)[last := Normal(last, entries[last])]
  {
    hide Normal, Read, KeyIn, WireOf;
    assert forall k :: k in before + [last] <==> k in before || k == last;
    RowRoundTrip(last, entries[last]);
    var rows, row := Rows(before, entries), WireOf(last, entries[last]);
    assert Rows(before + [last], entries) == rows + [row];
    assert (rows + [row])[..|rows|] == rows;
  }

  ghost function Normalized(entries: map<Key, Fingerprint>): map<Key, Fingerprint> {
    map k | k in entries :: Normal(k, entries[k])
  }

  ghost predicate Addressed(entries: map<Key, Fingerprint>) { forall k :: k in entries ==> k.id != "" && entries[k].attempts >= 0 }

  /** Loading what was encoded gives back every key and every fingerprint, up to path form and whole seconds. */
  lemma LoadAfterEncode(
      f: Format, doc: WireDoc, installId: string, now: int, specs: map<string, string>, entries: map<Key, Fingerprint>)
    requires Encodes(f, doc, installId, now, specs, entries) && Addressed(entries)
    ensures doc.schema == STATE_SCHEMA && doc.checksum == ChecksumOf(f, doc) && Acceptable(doc.entries)
    ensures Entries(doc.entries) == Normalized(entries) && Entries(doc.entries).Keys == entries.Keys
  {
    hide Normal, Read, KeyIn, Sorted, Entries, ChecksumOf;
    var keys :| Lists(keys, entries.Keys) && doc.entries == Rows(keys, entries);
    RowsRoundTrip(keys, entries);
    assert NormalOf(keys, entries) == Normalized(entries);
    forall e | e in doc.entries ensures e.attempts >= 0 {
      var i :| 0 <= i < |keys| && doc.entries[i] == e;
      assert keys[i] in keys;
    }
  }

  // Times within four-digit years come back: modification times exactly, backoffs to the second below.
  predicate Printable(t: int) { EARLIEST <= t < LATEST }

  lemma TimesSurvive(k: Key, fp: Fingerprint)
    ensures Normal(k, fp).sourceMTime == fp.sourceMTime <==> fp.sourceMTime == 0 || Printable(fp.sourceMTime)
    ensures Printable(fp.backoffUntil) ==> 0 <= fp.backoffUntil - Normal(k, fp).backoffUntil < SECOND
  {
    assert EARLIEST % SECOND == 0;
  }

  /** A second trip changes nothing: what a load yields encodes and loads back as itself. */
  lemma SecondTripChangesNothing(entries: map<Key, Fingerprint>)
    requires Addressed(entries)
    ensures Addressed(Normalized(entries)) && Normalized(Normalized(entries)) == Normalized(entries)
  {
    forall k | k in entries ensures Normal(k, Normal(k, entries[k])) == Normal(k, entries[k]) {
      assert WholeSecond(WholeSecond(entries[k].backoffUntil)) == WholeSecond(entries[k].backoffUntil);
    }
  }

  // Why ids must not be empty: such a key comes back as the path, so two keys can collapse into one.
  lemma EmptyIdsCollapse()
    ensures var a, b := Key("s", ""), Key("s", "/f");
      var fp := BLANK.(nativePath := "/f");
      a != b && KeyIn(WireOf(a, fp)) == KeyIn(WireOf(b, fp))
  {
  }

  /** A value changed in place under a kept checksum is refused, never half believed. */
  lemma TamperingIsRejected(f: Format, doc: WireDoc, other: WireDoc)
    requires forall a, b :: f.digest(a) == f.digest(b) ==> a == b
    requires doc.checksum == f.digest(doc.(checksum := "")) != "" && other.checksum == doc.checksum && other != doc
    ensures other.checksum != "" && other.checksum != ChecksumOf(f, other)
  {
    assert doc == doc.(checksum := "").(checksum := doc.checksum);
    assert other == other.(checksum := "").(checksum := other.checksum);
  }
}
