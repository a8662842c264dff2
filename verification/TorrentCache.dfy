/**
 The torrent detail cache (backend/app/services/backoffice_torrent_cache.py) refines the last
 remembered value: an entry is reusable only while the newest reading of its torrent is.
 */
module TorrentCache {
  import opened Json

  const VERSION := 1

  /** What an index entry says about its torrent; none where it cannot be fingerprinted. */
  datatype Snapshot = Snapshot(updatedAt: Option<int>, description: Json, hash: Json)
  datatype Resource = Resource(torrent: int, fingerprint: Option<string>, snapshot: Option<Snapshot>)

  datatype Row = Row(version: int, fingerprint: string, payload: Json, digest: string, fetchedAt: Option<int>)

  datatype Key = Key(release: int, torrent: int)

  /** A reusable detail. */
  datatype Entry = Entry(fingerprint: string, payload: Json, at: int)

  predicate HexDigit(c: char) { '0' <= c <= '9' || 'a' <= c <= 'f' }

  predicate ValidPayload(payload: Json, k: Key) {
    && payload.Obj? && Get(payload, "id") == Num(k.torrent) && Get(payload, "release_id") == Num(k.release)
    && Get(payload, "hash").Str? && |Get(payload, "hash").s| == 40
    && forall c :: c in Get(payload, "hash").s ==> HexDigit(c)
  }

  /** The index and the fresh detail speak of the same version. */
  predicate SameVersion(s: Snapshot, payload: Json, dated: Option<int>) {
    && s.updatedAt == dated && s.description == Get(payload, "description")
    && (s.hash == Null || s.hash == Get(payload, "hash"))
  }

  /** One `remember`: what was read, what it digests to, and when. */
  datatype Reading = Reading(release: int, resource: Resource, payload: Json, dated: Option<int>, digest: Option<string>, at: int)

  function KeyOf(r: Reading): Key { Key(r.release, r.resource.torrent) }

  /** A reading that may be reused later. */
  predicate Reusable(r: Reading) {
    && r.resource.snapshot.Some? && r.resource.fingerprint.Some? && ValidPayload(r.payload, KeyOf(r))
    && SameVersion(r.resource.snapshot.value, r.payload, r.dated) && r.digest.Some?
  }

  function EntryOf(r: Reading): Entry
    requires Reusable(r)
  {
    Entry(r.resource.fingerprint.value, r.payload, r.at)
  }

  /** The reusable entries after one more reading: it replaces the older one of its torrent, or removes it. */
  function Remembered(entries: map<Key, Entry>, r: Reading): map<Key, Entry> {
    if Reusable(r) then entries[KeyOf(r) := EntryOf(r)] else entries - {KeyOf(r)}
  }

  function Found(entries: map<Key, Entry>, release: int, resource: Resource, maxAge: int, now: int): Option<Json> {
    var k := Key(release, resource.torrent);
    if k in entries && resource.fingerprint == Some(entries[k].fingerprint) && 0 <= now - entries[k].at < maxAge
    then Some(entries[k].payload) else None
  }

  class CacheStore {
    const digest: Json -> Option<string>
    const dateOf: Json -> Option<int>
    const maxAge: int
    /** The table, and the rows of the releases loaded so far: the same row objects. */
    var stored: map<Key, Row>
    var loaded: map<int, map<int, Row>>

    ghost predicate Valid() reads this {
      forall r :: r in loaded ==>
        && (forall t :: t in loaded[r] <==> Key(r, t) in stored)
        && (forall t :: t in loaded[r] ==> loaded[r][t] == stored[Key(r, t)])
    }

    /** A row that `lookup` may trust. */
    predicate Trusts(k: Key, row: Row) {
      && row.version == VERSION && row.fetchedAt.Some? && ValidPayload(row.payload, k)
      && digest(row.payload) == Some(row.digest)
    }

    ghost function Entries(): map<Key, Entry> reads this {
      map k | k in stored && Trusts(k, stored[k]) :: Entry(stored[k].fingerprint, stored[k].payload, stored[k].fetchedAt.value)
    }

    constructor (stored: map<Key, Row>, digest: Json -> Option<string>, dateOf: Json -> Option<int>, maxAge: int)
      ensures Valid() && this.stored == stored && this.digest == digest && this.dateOf == dateOf && this.maxAge == maxAge
    {
      this.stored, this.digest, this.dateOf, this.maxAge := stored, digest, dateOf, maxAge;
      loaded := map[];
    }

    method ReleaseRows(release: int) returns (rows: map<int, Row>)
      requires Valid()
      modifies this`loaded
      ensures Valid() && release in loaded && rows == loaded[release]
    {
      if release !in loaded {
        var keys := set k | k in stored && k.release == release;
        loaded := loaded[release := map k | k in keys :: k.torrent := stored[k]];
      }
      rows := loaded[release];
    }

    method Lookup(resource: Resource, release: int, now: int) returns (r: Option<Json>)
      requires Valid()
      modifies this`loaded
      ensures Valid() && r == Found(Entries(), release, resource, maxAge, now)
    {
      if resource.fingerprint.None? { return None; }
      var rows := ReleaseRows(release);
      if resource.torrent !in rows { return None; }
      var row := rows[resource.torrent];
      if row.version != VERSION || row.fingerprint != resource.fingerprint.value { return None; }
      if row.fetchedAt.None? { return None; }
      var age := now - row.fetchedAt.value;
      if age < 0 || age >= maxAge { return None; }
      if !ValidPayload(row.payload, Key(release, resource.torrent)) { return None; }
      if digest(row.payload) != Some(row.digest) { return None; }
      r := Some(row.payload);
    }

    /** One row, in the table and in the loaded rows alike. */
    method Write(k: Key, row: Row)
      requires Valid() && k.release in loaded
      modifies this`stored, this`loaded
      ensures Valid() && k.release in loaded
      ensures Entries() == if Trusts(k, row) then old(Entries())[k := Entry(row.fingerprint, row.payload, row.fetchedAt.value)]
                           else old(Entries()) - {k}
    {
      hide ValidPayload;
      stored := stored[k := row];
      loaded := loaded[k.release := loaded[k.release][k.torrent := row]];
    }

    /** The older observation of the torrent is no longer reusable. */
    method Supersede(k: Key)
      requires Valid()
      modifies this`stored, this`loaded
      ensures Valid() && k.release in loaded && Entries() == old(Entries()) - {k}
    {
      hide ValidPayload;
      var rows := ReleaseRows(k.release);
      if k.torrent in rows { Write(k, rows[k.torrent].(version := 0)); }
      else { Untrusted(k); }
    }

    method Remember(resource: Resource, release: int, payload: Json, now: int)
      requires Valid()
      modifies this`stored, this`loaded
      ensures Valid()
      ensures Entries() == Remembered(old(Entries()), Reading(release, resource, payload, dateOf(Get(payload, "updated_at")), digest(payload), now))
    {
      hide ValidPayload, Entries, Valid;
      var k := Key(release, resource.torrent);
      ghost var reading := Reading(release, resource, payload, dateOf(Get(payload, "updated_at")), digest(payload), now);
      ghost var before := Entries();
      Supersede(k);
      if resource.snapshot.None? || resource.fingerprint.None? { return; }
      if !ValidPayload(payload, k) { return; }
      if resource.snapshot.value.updatedAt != dateOf(Get(payload, "updated_at")) { return; }
      if resource.snapshot.value.description != Get(payload, "description") { return; }
      if resource.snapshot.value.hash != Null && resource.snapshot.value.hash != Get(payload, "hash") { return; }
      var d := digest(payload);
      if d.None? { return; }
      Write(k, Row(VERSION, resource.fingerprint.value, payload, d.value, Some(now)));
      Replaced(before, k, EntryOf(reading));
    }

    /** No row, no entry. */
    lemma Untrusted(k: Key)
      requires k !in stored
      ensures Entries() - {k} == Entries()
    {}
  }

  lemma Replaced(entries: map<Key, Entry>, k: Key, e: Entry)
    ensures (entries - {k})[k := e] == entries[k := e]
  {}

  // ---- any sequence of readings on one store -----------------------------------------------

  function After(entries: map<Key, Entry>, readings: seq<Reading>): map<Key, Entry> {
    if readings == [] then entries
    else Remembered(After(entries, readings[..|readings| - 1]), readings[|readings| - 1])
  }

  /** The latest reading of that torrent. */
  function LatestOf(readings: seq<Reading>, k: Key): (i: Option<nat>)
    ensures i.Some? ==> i.value < |readings| && KeyOf(readings[i.value]) == k
    ensures forall j :: (if i.Some? then i.value + 1 else 0) <= j < |readings| ==> KeyOf(readings[j]) != k
  {
    if readings == [] then None
    else if KeyOf(readings[|readings| - 1]) == k then Some(|readings| - 1)
    else LatestOf(readings[..|readings| - 1], k)
  }

  /** An entry is the latest reading of its torrent, if that one is reusable; an older one never comes back. */
  lemma {:induction false} EntryIsLatestReading(entries: map<Key, Entry>, readings: seq<Reading>, k: Key)
    ensures var i, now := LatestOf(readings, k), After(entries, readings);
      if i.None? then (k in now <==> k in entries) && (k in now ==> now[k] == entries[k])
      else (k in now <==> Reusable(readings[i.value])) && (k in now ==> now[k] == EntryOf(readings[i.value]))
  {
    hide Reusable;
    if readings != [] { EntryIsLatestReading(entries, readings[..|readings| - 1], k); }
  }

  /**
   After any sequence of readings, a lookup returns a payload exactly when the latest reading of
   that torrent was reusable, had the same index fingerprint, and is from 0 up to the maximal age old.
   */
  lemma LookupReturnsLatest(entries: map<Key, Entry>, readings: seq<Reading>, release: int, resource: Resource, maxAge: int, now: int, payload: Json)
    requires LatestOf(readings, Key(release, resource.torrent)).Some?
    ensures Found(After(entries, readings), release, resource, maxAge, now) == Some(payload) <==>
      var last := readings[LatestOf(readings, Key(release, resource.torrent)).value];
      Reusable(last) && last.resource.fingerprint == resource.fingerprint && 0 <= now - last.at < maxAge && last.payload == payload
  {
    hide ValidPayload, SameVersion;
    EntryIsLatestReading(entries, readings, Key(release, resource.torrent));
  }

  /** 40 lower-case hexadecimal digits. */
  predicate IsInfoHash(s: string) {
    |s| == 40 && forall c :: c in s ==> c in "0123456789abcdef"
  }

  lemma HexDigits(c: char)
    ensures HexDigit(c) <==> c in "0123456789abcdef"
  {
    var digits := "0123456789abcdef";
    if '0' <= c <= '9' { assert digits[c as int - '0' as int] == c; }
    if 'a' <= c <= 'f' { assert digits[c as int - 'a' as int + 10] == c; }
  }

  /**
   A reading may be reused if and only if its detail is of that very torrent and
   release, has an info hash, was changed when the index says, and has the
   description and, if the index knows one, the hash the index has; and both can
   be fingerprinted.
   */
  lemma ReusableExactlyWhen(r: Reading)
    ensures Reusable(r) <==>
      && r.resource.fingerprint.Some? && r.digest.Some? && r.resource.snapshot.Some?
      && Get(r.payload, "id") == Num(r.resource.torrent) && Get(r.payload, "release_id") == Num(r.release)
      && Get(r.payload, "hash").Str? && IsInfoHash(Get(r.payload, "hash").s)
      && var index := r.resource.snapshot.value;
         && index.updatedAt == r.dated && index.description == Get(r.payload, "description")
         && (index.hash == Null || index.hash == Get(r.payload, "hash"))
  {
    forall c ensures HexDigit(c) <==> c in "0123456789abcdef" { HexDigits(c); }
    hide HexDigit;
  }
}
