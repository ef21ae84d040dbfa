/** What the state document remembers about one file, and the key it is remembered under. */
module Fingerprints {
  import opened Wrappers

  // A logical identity when the source declares one, else an absolute path.
  datatype Key = Key(sourceId: string, id: string)

  datatype Enricher = Enricher(id: string, version: int)

  // Times are nanoseconds; 0 is the zero time. A non-empty sourceHash marks a completed ship.
  datatype Fingerprint = Fingerprint(
    nativePath: string, sourceSize: int, sourceMTime: int, sourceHash: string,
    enricher: Option<Enricher>, outputHash: string,
    parked: bool, lastError: string, backoffUntil: int, attempts: int)

  const BLANK := Fingerprint("", 0, 0, "", None, "", false, "", 0, 0)

  function FirstNonEmpty(a: string, b: string): string { if a != "" then a else b }

  // Where the file behind the key was last seen.
  function ObservedPath(k: Key, fp: Fingerprint): string { FirstNonEmpty(fp.nativePath, k.id) }

  function Lookup(entries: map<Key, Fingerprint>, k: Key): Option<Fingerprint> {
    if k in entries then Some(entries[k]) else None
  }
}
