/** The artifact store (internal/artifacts/store.go): an index over a directory of
    content and metadata files, bounded by a quota and a time to live, whose files
    survive a stop at any moment. */
module ArtifactStore {
  import opened Text
  import opened ArtifactFiles

  datatype Redaction = Redaction(applied: bool, rules: seq<string>)

  /** Times are nanoseconds; `ZERO_TIME` is the zero time. */
  datatype Metadata = Metadata(
    id: string,
    uri: string,
    mimeType: string,
    size: int,
    createdAt: int,
    expiresAt: int,
    redaction: Redaction)

  const ZERO_TIME := 0
  const URI_PREFIX := "browser://artifacts/"
  const ID_ATTEMPTS := 8

  type Entries = map<string, Metadata>

  datatype Artifact = Artifact(metadata: Metadata, data: Bytes)

  datatype Error =
    | InvalidID | NotFound | QuotaExceeded | Cancelled | InvalidMIME | NoUniqueID | SizeMismatch | Fault

  datatype Result<+T> = Ok(value: T) | Err(error: Error)

  /** The libraries the store relies on: JSON and the parser of MIME types. */
  datatype Format = Format(
    encode: Metadata -> Bytes,
    decode: Bytes -> Option<Metadata>,
    parsesAsMIME: string -> bool)

  ghost predicate Lossless(f: Format) {
    forall m: Metadata :: f.decode(f.encode(m)) == Some(m)
  }

  function NormalizedRedaction(r: Redaction): Redaction {
    var rules := NormalizedStrings(r.rules);
    Redaction(r.applied || rules != [], rules)
  }

  predicate ValidMetadata(f: Format, m: Metadata, id: string) {
    && m.id == id && m.uri == URI_PREFIX + id && m.size >= 0 && m.mimeType != ""
    && m.createdAt != ZERO_TIME && m.expiresAt != ZERO_TIME && m.createdAt < m.expiresAt
    && f.parsesAsMIME(m.mimeType)
  }

  // ---------------------------------------------------------------------
  // What a directory holds
  // ---------------------------------------------------------------------

  /** Content and metadata are both there, whole, and fit each other. */
  predicate Complete(f: Format, d: Files, id: string) {
    && Sidecar(id) in d && d[Sidecar(id)].Regular?
    && var m := f.decode(d[Sidecar(id)].data);
    && m.Some? && ValidMetadata(f, m.value, id)
    && Content(id) in d && d[Content(id)].Regular? && |d[Content(id)].data| == m.value.size
  }

  function Stored(f: Format, d: Files, id: string): Artifact
    requires Complete(f, d, id)
  {
    var m := f.decode(d[Sidecar(id)].data).value;
    Artifact(Loadable(m), d[Content(id)].data)
  }

  datatype Addition = NoAddition | Addition(id: string, content: Bytes, sidecar: Bytes)

  ghost predicate OldFileOk(before: Files, d: Files, gone: set<string>, n: Name) {
    && (n in d ==> n in before && d[n] == before[n])
    && (n in before && n !in d ==> (n.Content? || n.Sidecar?) && n.id in gone)
  }

  /** The metadata of a new artifact appears after its content. */
  ghost predicate NewFilesOk(before: Files, d: Files, added: Addition)
    requires added.Addition?
  {
    && (Content(added.id) in d ==>
          SameAt(before, d, Content(added.id)) || d[Content(added.id)] == Regular(added.content))
    && (Sidecar(added.id) in d ==>
          SameAt(before, d, Sidecar(added.id)) ||
          (d[Sidecar(added.id)] == Regular(added.sidecar) &&
           Content(added.id) in d && d[Content(added.id)] == Regular(added.content)))
  }

  predicate IsNew(n: Name, added: Addition) {
    added.Addition? && (n == Content(added.id) || n == Sidecar(added.id))
  }

  /** What a crash may leave of `before`: files of artifacts in `gone` may be missing, and
      those of a new artifact may be there. */
  ghost predicate CrashState(before: Files, d: Files, gone: set<string>, added: Addition) {
    && (forall n: Name :: !n.Temporary? && !IsNew(n, added) ==> OldFileOk(before, d, gone, n))
    && (added.Addition? ==> NewFilesOk(before, d, added))
  }

  /** Nothing appeared or changed, not even a temporary file. */
  ghost predicate Fewer(before: Files, d: Files) {
    forall n :: n in d ==> n in before && d[n] == before[n]
  }

  ghost predicate CrashStates(before: Files, earlier: set<Files>, states: set<Files>, gone: set<string>,
                              added: Addition)
  {
    forall d :: d in states ==> d in earlier || CrashState(before, d, gone, added)
  }

  /** A metadata file that was there before fits the content of an artifact that is added
      under its id, but is not the metadata `m` of that artifact. */
  ghost predicate LeftoverFits(f: Format, before: Files, id: string, m: Metadata, content: Bytes) {
    && Sidecar(id) in before && before[Sidecar(id)].Regular?
    && var leftover := f.decode(before[Sidecar(id)].data);
    && leftover.Some? && ValidMetadata(f, leftover.value, id) && leftover.value.size == |content|
    && Loadable(leftover.value) != Loadable(m)
    && !(Content(id) in before && before[Content(id)] == Regular(content))
  }

  /** Metadata as `load` keeps it. */
  function Loadable(m: Metadata): Metadata {
    m.(redaction := NormalizedRedaction(m.redaction))
  }

  ghost predicate IsOldArtifact(f: Format, before: Files, d: Files, id: string)
    requires Complete(f, d, id)
  {
    Complete(f, before, id) && Stored(f, d, id) == Stored(f, before, id)
  }

  /** Whatever the crash left, every artifact but the ones being removed is there as it
      was, and a new one is there with all of its bytes or not at all: unless a leftover
      metadata file is taken for its own. */
  lemma CrashLeavesWholeArtifacts(f: Format, before: Files, d: Files, gone: set<string>, added: Addition, m: Metadata,
                                  id: string)
    requires Lossless(f) && CrashState(before, d, gone, added)
    requires added.Addition? ==> added.sidecar == f.encode(m)
    ensures !(added.Addition? && id == added.id) ==>
      && (Complete(f, d, id) ==> IsOldArtifact(f, before, d, id))
      && (Complete(f, before, id) && id !in gone ==> Complete(f, d, id))
    ensures added.Addition? && id == added.id && Complete(f, d, id) ==>
      || Stored(f, d, id) == Artifact(Loadable(m), added.content)
      || IsOldArtifact(f, before, d, id)
      || LeftoverFits(f, before, id, m, added.content)
  {
    if !(added.Addition? && id == added.id) {
      assert OldFileOk(before, d, gone, Content(id)) && OldFileOk(before, d, gone, Sidecar(id));
    }
  }

  /** The new artifact is whole or absent after every crash, if and only if no leftover
      metadata file fits its content. */
  lemma NewArtifactIsWholeIff(f: Format, before: Files, gone: set<string>, added: Addition, m: Metadata)
    requires Lossless(f) && added.Addition? && added.sidecar == f.encode(m)
    ensures (forall d :: CrashState(before, d, gone, added) && Complete(f, d, added.id) ==>
               Stored(f, d, added.id) == Artifact(Loadable(m), added.content) ||
               IsOldArtifact(f, before, d, added.id)) <==>
      !LeftoverFits(f, before, added.id, m, added.content)
  {
    var id := added.id;
    if LeftoverFits(f, before, id, m, added.content) {
      var d := before[Content(id) := Regular(added.content)];
      assert CrashState(before, d, gone, added) && Complete(f, d, id);
    } else {
      forall d | CrashState(before, d, gone, added) && Complete(f, d, id)
        ensures Stored(f, d, id) == Artifact(Loadable(m), added.content) || IsOldArtifact(f, before, d, id)
      {
        CrashLeavesWholeArtifacts(f, before, d, gone, added, m, id);
      }
    }
  }

  lemma CrashesCompose(before: Files, middle: Files, d: Files, gone: set<string>, more: set<string>)
    requires CrashState(before, middle, gone, NoAddition) && CrashState(middle, d, more, NoAddition)
    ensures CrashState(before, d, gone + more, NoAddition)
  {
    forall n: Name | !n.Temporary?
      ensures OldFileOk(before, d, gone + more, n)
    {
      assert OldFileOk(before, middle, gone, n) && OldFileOk(middle, d, more, n);
    }
  }

  // ---------------------------------------------------------------------
  // What opening a directory keeps
  // ---------------------------------------------------------------------

  ghost function IdsOf(d: Files): set<string> {
    set n | n in d && (n.Content? || n.Sidecar?) :: n.id
  }

  /** The artifacts of a directory that `load` indexes: complete, unexpired, and examined
      without a fault. */
  ghost function Indexed(f: Format, d: Files, now: int, faults: set<Name>): Entries {
    map id | id in IdsOf(d) && Complete(f, d, id) && now < Stored(f, d, id).metadata.expiresAt &&
             Content(id) !in faults ::
      Stored(f, d, id).metadata
  }

  /** The metadata file of `id` is among the names handled, and not a directory. */
  ghost predicate Handled(d0: Files, done: set<Name>, id: string) {
    Sidecar(id) in done && Sidecar(id) in d0 && !d0[Sidecar(id)].Directory?
  }

  ghost predicate Orphan(d0: Files, seen: set<Name>, kept: set<string>, n: Name)
    requires n in d0
  {
    n.Content? && n in seen && !d0[n].Directory? && n.id !in kept
  }

  /** Whether the passes of `load` leave a file alone: `done` are the names handled by the
      first pass, `seen` those of the second. */
  ghost predicate Stays(d0: Files, done: set<Name>, seen: set<Name>, kept: set<string>, n: Name)
    requires n in d0
  {
    match n
    case Temporary(_) => n !in done
    case Other(_) => true
    case Sidecar(id) => Handled(d0, done, id) ==> id in kept
    case Content(id) => (Handled(d0, done, id) ==> id in kept) && !Orphan(d0, seen, kept, n)
  }

  /** The directory after part of the passes. */
  ghost predicate Passed(d0: Files, done: set<Name>, seen: set<Name>, kept: set<string>, d: Files) {
    forall n :: (n in d <==> n in d0 && Stays(d0, done, seen, kept, n)) && (n in d ==> n in d0 && d[n] == d0[n])
  }

  /** A file that a successful `load` leaves: temporary files and files of artifacts that
      are not indexed are gone. */
  ghost predicate Survives(d0: Files, kept: set<string>, n: Name)
    requires n in d0
  {
    match n
    case Temporary(_) => false
    case Other(_) => true
    case Sidecar(id) => id in kept || d0[n].Directory?
    case Content(id) => id in kept || (d0[n].Directory? && !Handled(d0, d0.Keys, id))
  }

  /** All of that at once. */
  ghost predicate Reopened(d0: Files, kept: set<string>, d: Files) {
    forall n :: (n in d <==> n in d0 && Survives(d0, kept, n)) && (n in d ==> n in d0 && d[n] == d0[n])
  }

  ghost predicate HasOriginals(f: Format, d0: Files, ids: set<string>, originals: map<string, Bytes>) {
    forall id :: id in ids ==> Complete(f, d0, id) && id in originals && originals[id] == Stored(f, d0, id).data
  }

  ghost predicate WellNamed(d: Files) {
    forall n :: n in d ==> n.Other? || NameOfID(n)
  }

  // ---------------------------------------------------------------------
  // Sizes
  // ---------------------------------------------------------------------

  ghost function TotalSize(entries: Entries): int {
    if entries == map[] then 0
    else
      var id :| id in entries;
      entries[id].size + TotalSize(entries - {id})
  }

  lemma {:induction false} TotalWithout(entries: Entries, id: string)
    requires id in entries
    ensures TotalSize(entries) == entries[id].size + TotalSize(entries - {id})
    decreases |entries|
  {
    var x :| x in entries && TotalSize(entries) == entries[x].size + TotalSize(entries - {x});
    if x != id {
      TotalWithout(entries - {x}, id);
      TotalWithout(entries - {id}, x);
      assert entries - {x} - {id} == entries - {id} - {x};
    }
  }

  lemma TotalWith(entries: Entries, id: string, m: Metadata)
    requires id !in entries
    ensures TotalSize(entries[id := m]) == m.size + TotalSize(entries)
  {
    assert entries[id := m] - {id} == entries;
    TotalWithout(entries[id := m], id);
  }

  ghost predicate Sized(entries: Entries) {
    forall id :: id in entries ==> entries[id].size >= 0
  }

  lemma {:induction false} TotalOfSubmap(entries: Entries, part: Entries)
    requires Sized(entries) && part.Keys <= entries.Keys
    requires forall id :: id in part ==> part[id] == entries[id]
    ensures TotalSize(part) <= TotalSize(entries)
    decreases |entries|
  {
    if part == entries {
    } else {
      var id :| id in entries && id !in part;
      TotalWithout(entries, id);
      TotalOfSubmap(entries - {id}, part);
    }
  }

  // ---------------------------------------------------------------------
  // Eviction
  // ---------------------------------------------------------------------

  predicate Older(entries: Entries, a: string, b: string)
    requires a in entries && b in entries
  {
    entries[a].createdAt < entries[b].createdAt || (entries[a].createdAt == entries[b].createdAt && Less(a, b))
  }

  ghost predicate IsOldest(entries: Entries, id: string) {
    id in entries && forall x :: x in entries && x != id ==> Older(entries, id, x)
  }

  lemma OneIsOldest(entries: Entries, a: string, b: string)
    requires IsOldest(entries, a) && IsOldest(entries, b)
    ensures a == b
  {
    LessIsTotal(a, b);
  }

  lemma {:induction false} SomeIsOldest(entries: Entries)
    requires entries != map[]
    ensures exists id :: IsOldest(entries, id)
    decreases |entries|
  {
    var id :| id in entries;
    var rest := entries - {id};
    assert forall y :: y in entries ==> y == id || y in rest;
    if rest == map[] {
      assert IsOldest(entries, id);
    } else {
      SomeIsOldest(rest);
      var x :| IsOldest(rest, x);
      LessIsTotal(id, x);
      if Older(entries, x, id) {
        forall y | y in rest && y != x
          ensures Older(entries, x, y)
        {
          assert Older(rest, x, y);
        }
        assert IsOldest(entries, x);
      } else {
        forall y | y in rest && y != x
          ensures Older(entries, id, y)
        {
          assert Older(rest, x, y);
          if entries[id].createdAt == entries[x].createdAt == entries[y].createdAt { LessIsTransitive(id, x, y); }
        }
        assert IsOldest(entries, id);
      }
    }
  }

  ghost function Oldest(entries: Entries): (id: string)
    requires entries != map[]
    ensures IsOldest(entries, id)
  {
    SomeIsOldest(entries);
    var id :| IsOldest(entries, id);
    id
  }

  ghost function Unexpired(entries: Entries, now: int): Entries {
    map id | id in entries && now < entries[id].expiresAt :: entries[id]
  }

  /** The oldest entries go until the rest fits into `room`. */
  ghost function Trimmed(entries: Entries, room: int): (kept: Entries)
    ensures Submap(kept, entries)
    decreases |entries|
  {
    if TotalSize(entries) <= room || entries == map[] then entries
    else Trimmed(entries - {Oldest(entries)}, room)
  }

  ghost predicate Submap(part: Entries, entries: Entries) {
    forall id :: id in part ==> id in entries && part[id] == entries[id]
  }

  /** The newest of those that are not kept. */
  ghost predicate IsNewestGone(entries: Entries, kept: Entries, id: string) {
    && id in entries && id !in kept
    && forall a :: a in entries && a !in kept && a != id ==> Older(entries, a, id)
  }

  lemma OlderIsAsymmetric(entries: Entries, a: string, b: string)
    requires a in entries && b in entries && Older(entries, a, b)
    ensures !Older(entries, b, a)
  {
    LessIsTotal(a, b);
  }

  /** Those evicted are the oldest, the rest fits, and with the newest of those evicted
      it would not: the shortest oldest-first prefix. */
  lemma {:induction false} TrimmingIsShortest(entries: Entries, room: int)
    requires Sized(entries) && 0 <= room
    ensures TotalSize(Trimmed(entries, room)) <= room
    ensures forall a, b :: a in entries && a !in Trimmed(entries, room) && b in Trimmed(entries, room) ==>
      Older(entries, a, b)
    ensures forall last :: IsNewestGone(entries, Trimmed(entries, room), last) ==>
      room < TotalSize(Trimmed(entries, room)) + entries[last].size
    decreases |entries|
  {
    if room < TotalSize(entries) && entries != map[] {
      var first := Oldest(entries);
      var rest := entries - {first};
      var kept := Trimmed(rest, room);
      TrimmingIsShortest(rest, room);
      forall a, b | a in entries && a !in kept && b in kept
        ensures Older(entries, a, b)
      {
        assert a != first ==> Older(rest, a, b);
      }
      forall last | IsNewestGone(entries, kept, last)
        ensures room < TotalSize(kept) + entries[last].size
      {
        if last == first {
          forall a | a in rest
            ensures a in kept
          {
            if a !in kept { OlderIsAsymmetric(entries, first, a); }
          }
          assert rest == kept;
          TotalWithout(entries, first);
        } else {
          forall a | a in rest && a !in kept && a != last
            ensures Older(rest, a, last)
          {
            assert Older(entries, a, last);
          }
          assert IsNewestGone(rest, kept, last);
        }
      }
    }
  }

  /** What is left when `size` more bytes have to fit. */
  ghost function Survivors(entries: Entries, now: int, room: int): Entries {
    Trimmed(Unexpired(entries, now), room)
  }

  /** Those left are unexpired and fit; unexpired ones that went were created before all
      that are left, ids deciding ties, and with the newest of them the rest would not fit. */
  lemma SurvivorsAreTheNewest(entries: Entries, now: int, room: int)
    requires Sized(entries) && 0 <= room
    ensures var kept := Survivors(entries, now, room);
      && TotalSize(kept) <= room
      && (forall id :: id in kept ==> id in entries && kept[id] == entries[id] && now < entries[id].expiresAt)
      && (forall a, b :: a in entries && now < entries[a].expiresAt && a !in kept && b in kept ==>
            entries[a].createdAt < entries[b].createdAt ||
            (entries[a].createdAt == entries[b].createdAt && Less(a, b)))
      && (forall last :: IsNewestGone(Unexpired(entries, now), kept, last) ==>
            room < TotalSize(kept) + entries[last].size)
  {
    hide Trimmed, TotalSize;
    var current := Unexpired(entries, now);
    TrimmingIsShortest(current, room);
    forall a, b |
      a in entries && now < entries[a].expiresAt && a !in Trimmed(current, room) && b in Trimmed(current, room)
      ensures entries[a].createdAt < entries[b].createdAt ||
              (entries[a].createdAt == entries[b].createdAt && Less(a, b))
    {
      assert Older(current, a, b);
    }
  }

  // ---------------------------------------------------------------------
  // Identifiers
  // ---------------------------------------------------------------------

  /** The first unused of the next few random identifiers. */
  function FirstUnused(random: seq<string>, used: set<string>, attempts: nat): Option<string> {
    if attempts == 0 || random == [] then None
    else if random[0] !in used then Some(random[0])
    else FirstUnused(random[1..], used, attempts - 1)
  }

  /** Each of the ids that may be tried is used, or the random source ran dry before. */
  predicate NoneUnused(random: seq<string>, used: set<string>) {
    forall i :: 0 <= i < |random| && i < ID_ATTEMPTS ==> random[i] in used
  }

  lemma {:induction false} NoneIffUsed(random: seq<string>, used: set<string>, attempts: nat)
    ensures FirstUnused(random, used, attempts).None? <==>
      forall i :: 0 <= i < |random| && i < attempts ==> random[i] in used
  {
    if attempts > 0 && random != [] && random[0] in used {
      NoneIffUsed(random[1..], used, attempts - 1);
      assert forall i :: 1 <= i < |random| ==> random[i] == random[1..][i - 1];
    }
  }

  function NewMetadata(id: string, mimeType: string, size: int, now: int, ttl: int, redaction: Redaction): Metadata {
    Metadata(id, URI_PREFIX + id, mimeType, size, now, now + ttl, NormalizedRedaction(redaction))
  }

  /** What `Put` is adding once room was made. */
  function AdditionOf(f: Format, used: set<string>, random: seq<string>, mimeType: Option<string>, data: Bytes,
                      now: int, ttl: int, redaction: Redaction): Addition
  {
    var id := FirstUnused(random, used, ID_ATTEMPTS);
    if id.None? || mimeType.None? then NoAddition
    else Addition(id.value, data, f.encode(NewMetadata(id.value, mimeType.value, |data|, now, ttl, redaction)))
  }

  // ---------------------------------------------------------------------
  // The store
  // ---------------------------------------------------------------------

  class Store {
    const fs: FileSystem
    const f: Format
    const ttl: int
    const maxBytes: int
    var entries: Entries
    var usedBytes: int
    ghost var originals: map<string, Bytes>

    /** Bytes are counted right, and content that is still there is the original. */
    ghost predicate Counted()
      reads this, fs
    {
      && Sized(entries) && usedBytes == TotalSize(entries)
      && (forall id :: id in entries ==> EntryOk(id))
    }

    ghost predicate EntryOk(id: string)
      reads this, fs
      requires id in entries
    {
      && entries[id].id == id && ValidID(id)
      && id in originals && |originals[id]| == entries[id].size
      && (Content(id) in fs.files ==> fs.files[Content(id)] == Regular(originals[id]))
    }

    ghost predicate Valid()
      reads this, fs
    {
      Counted() && usedBytes <= maxBytes && 0 < maxBytes && 0 < ttl
    }

    constructor (fs: FileSystem, f: Format, ttl: int, maxBytes: int)
      ensures this.fs == fs && this.f == f && this.ttl == ttl && this.maxBytes == maxBytes
      ensures entries == map[] && Counted()
    {
      this.fs, this.f, this.ttl, this.maxBytes := fs, f, ttl, maxBytes;
      entries, usedBytes, originals := map[], 0, map[];
    }

    /** `removeFiles`: tries both files; the first error counts. */
    method RemoveFiles(id: string) returns (ok: bool)
      modifies fs`files, fs`states, fs`failures
      ensures old(fs.failures) + Count(!ok) <= fs.failures
      ensures CrashState(old(fs.files), fs.files, {id}, NoAddition) && Fewer(old(fs.files), fs.files)
      ensures CrashStates(old(fs.files), old(fs.states), fs.states, {id}, NoAddition)
      ensures ok ==> fs.files == old(fs.files) - {Content(id), Sidecar(id)}
    {
      var content := fs.Remove(Content(id));
      var sidecar := fs.Remove(Sidecar(id));
      ok := !content.Stuck? && !sidecar.Stuck?;
    }

    method RemoveLocked(id: string) returns (ok: bool)
      requires Counted() && id in entries
      modifies this`entries, this`usedBytes, fs`files, fs`states, fs`failures
      ensures old(fs.failures) + Count(!ok) <= fs.failures
      ensures Counted()
      ensures entries == if ok then old(entries) - {id} else old(entries)
      ensures CrashState(old(fs.files), fs.files, {id}, NoAddition) && Fewer(old(fs.files), fs.files)
      ensures CrashStates(old(fs.files), old(fs.states), fs.states, {id}, NoAddition)
      ensures ok ==> fs.files == old(fs.files) - {Content(id), Sidecar(id)}
    {
      var m := entries[id];
      ok := RemoveFiles(id);
      forall x | x in entries
        ensures EntryOk(x)
      {
        assert old(EntryOk(x));
        assert OldFileOk(old(fs.files), fs.files, {id}, Content(x));
      }
      if ok {
        TotalWithout(entries, id);
        entries := entries - {id};
        usedBytes := usedBytes - m.size;
        assert forall x :: x in entries ==> old(EntryOk(x)) && EntryOk(x);
      }
    }

    /** What removals may do since the store had `before` and the directory `files`:
        entries outside `floor` may be gone, everything else is as it was. */
    ghost predicate Shrunk(floor: Entries, before: Entries, files: Files, states: set<Files>)
      reads this, fs
    {
      && Counted() && Submap(entries, before) && Submap(floor, entries)
      && (forall id :: id in before && id !in entries ==> Content(id) !in fs.files && Sidecar(id) !in fs.files)
      && CrashState(files, fs.files, before.Keys - floor.Keys, NoAddition) && Fewer(files, fs.files)
      && CrashStates(files, states, fs.states, before.Keys - floor.Keys, NoAddition)
    }

    /** One more removal. */
    method RemoveOutside(id: string, ghost floor: Entries, ghost before: Entries, ghost files: Files,
                         ghost states: set<Files>)
      returns (ok: bool)
      requires Shrunk(floor, before, files, states) && id in entries && id !in floor
      modifies this`entries, this`usedBytes, fs`files, fs`states, fs`failures
      ensures old(fs.failures) + Count(!ok) <= fs.failures
      ensures Shrunk(floor, before, files, states)
      ensures entries == if ok then old(entries) - {id} else old(entries)
    {
      ghost var middle, earlier := fs.files, fs.states;
      ok := RemoveLocked(id);
      CrashesCompose(files, middle, fs.files, before.Keys - floor.Keys, {id});
      forall x | x in before && x !in entries
        ensures Content(x) !in fs.files && Sidecar(x) !in fs.files
      {
        assert OldFileOk(middle, fs.files, {id}, Content(x)) && OldFileOk(middle, fs.files, {id}, Sidecar(x));
      }
      assert before.Keys - floor.Keys + {id} == before.Keys - floor.Keys;
      forall d | d in fs.states && d !in states
        ensures CrashState(files, d, before.Keys - floor.Keys, NoAddition)
      {
        if d !in earlier { CrashesCompose(files, middle, d, before.Keys - floor.Keys, {id}); }
      }
    }

    method CleanupExpired(now: int) returns (ok: bool)
      requires Counted()
      modifies this`entries, this`usedBytes, fs`files, fs`states, fs`failures
      ensures old(fs.failures) + Count(!ok) <= fs.failures
      ensures Shrunk(Unexpired(old(entries), now), old(entries), old(fs.files), old(fs.states))
      ensures ok ==> entries == Unexpired(old(entries), now)
    {
      var todo := entries.Keys;
      ghost var floor := Unexpired(entries, now);
      while todo != {}
        invariant todo <= entries.Keys && Shrunk(floor, old(entries), old(fs.files), old(fs.states))
        invariant old(fs.failures) <= fs.failures
        invariant forall id :: id in entries && id !in todo ==> id in floor
        decreases todo
      {
        var id :| id in todo;
        todo := todo - {id};
        if entries[id].expiresAt <= now {
          ok := RemoveOutside(id, floor, old(entries), old(fs.files), old(fs.states));
          if !ok { return; }
        }
      }
      ok := true;
    }

    /** `oldestIDLocked`; the source sorts all ids and takes the first. */
    method OldestID() returns (id: Option<string>)
      ensures id.None? <==> entries == map[]
      ensures id.Some? ==> IsOldest(entries, id.value)
    {
      var todo := entries.Keys;
      id := None;
      while todo != {}
        invariant todo <= entries.Keys && (id.None? ==> todo == entries.Keys)
        invariant id.Some? ==> id.value in entries && id.value !in todo
        invariant id.Some? ==> forall x :: x in entries && x !in todo && x != id.value ==> Older(entries, id.value, x)
        decreases todo
      {
        var x :| x in todo;
        todo := todo - {x};
        if id.None? || Older(entries, x, id.value) {
          forall y | id.Some? && y in entries && y !in todo && y != x
            ensures Older(entries, x, y)
          {
            if y != id.value && entries[x].createdAt == entries[id.value].createdAt == entries[y].createdAt {
              LessIsTransitive(x, id.value, y);
            }
          }
          id := Some(x);
        } else {
          LessIsTotal(x, id.value);
        }
      }
    }

    /** The loop of `makeRoomLocked` and, for `size` 0, of `enforceQuotaLocked`.  The
        oldest entry always exists: without entries everything fits. */
    method Evict(size: int, ghost floor: Entries, ghost before: Entries, ghost files: Files, ghost states: set<Files>)
      returns (ok: bool)
      requires Shrunk(floor, before, files, states) && floor == Trimmed(entries, maxBytes - size) && size <= maxBytes
      modifies this`entries, this`usedBytes, fs`files, fs`states, fs`failures
      ensures old(fs.failures) + Count(!ok) <= fs.failures
      ensures Shrunk(floor, before, files, states)
      ensures ok ==> entries == floor && usedBytes + size <= maxBytes
    {
      while usedBytes + size > maxBytes
        invariant Shrunk(floor, before, files, states) && floor == Trimmed(entries, maxBytes - size)
        invariant old(fs.failures) <= fs.failures
        decreases |entries|
      {
        var oldest := OldestID();
        OneIsOldest(entries, oldest.value, Oldest(entries));
        ok := RemoveOutside(oldest.value, floor, before, files, states);
        if !ok { return; }
      }
      ok := true;
    }

    method MakeRoom(size: int, now: int) returns (ok: bool)
      requires Counted() && size <= maxBytes
      modifies this`entries, this`usedBytes, fs`files, fs`states, fs`failures
      ensures old(fs.failures) + Count(!ok) <= fs.failures
      ensures Shrunk(Survivors(old(entries), now, maxBytes - size), old(entries), old(fs.files), old(fs.states))
      ensures ok ==> entries == Survivors(old(entries), now, maxBytes - size) && usedBytes + size <= maxBytes
    {
      ghost var floor := Survivors(entries, now, maxBytes - size);
      ok := CleanupExpired(now);
      ShrunkFurther(Unexpired(old(entries), now), floor, old(entries), old(fs.files), old(fs.states));
      if ok {
        ok := Evict(size, floor, old(entries), old(fs.files), old(fs.states));
      }
    }

    /** A lower floor allows more. */
    lemma ShrunkFurther(floor: Entries, lower: Entries, before: Entries, files: Files, states: set<Files>)
      requires Shrunk(floor, before, files, states) && Submap(lower, floor)
      ensures Shrunk(lower, before, files, states)
    {
      assert before.Keys - floor.Keys <= before.Keys - lower.Keys;
      MoreGone(files, fs.files, before.Keys - floor.Keys, before.Keys - lower.Keys);
      forall d | d in fs.states && d !in states
        ensures CrashState(files, d, before.Keys - lower.Keys, NoAddition)
      {
        MoreGone(files, d, before.Keys - floor.Keys, before.Keys - lower.Keys);
      }
    }

    /** `newIDLocked`; `random` is what the random source will deliver. */
    method NewID(random: seq<string>) returns (id: Option<string>)
      ensures id == FirstUnused(random, entries.Keys, ID_ATTEMPTS)
    {
      var k := 0;
      while k < ID_ATTEMPTS
        invariant k <= ID_ATTEMPTS && k <= |random|
        invariant FirstUnused(random[k..], entries.Keys, ID_ATTEMPTS - k) ==
          FirstUnused(random, entries.Keys, ID_ATTEMPTS)
      {
        if k == |random| { return None; }
        if random[k] !in entries { return Some(random[k]); }
        assert random[k..][1..] == random[k + 1..];
        k := k + 1;
      }
      id := None;
    }

    /** Content first, then metadata; content without metadata is taken back. */
    method WriteFiles(id: string, data: Bytes, sidecar: Bytes) returns (ok: bool)
      modifies fs
      ensures old(fs.failures) + Count(!ok) <= fs.failures
      ensures CrashState(old(fs.files), fs.files, {}, Addition(id, data, sidecar))
      ensures CrashStates(old(fs.files), old(fs.states), fs.states, {}, Addition(id, data, sidecar))
      ensures ok ==> Content(id) in fs.files && fs.files[Content(id)] == Regular(data)
      ensures ok ==> Sidecar(id) in fs.files && fs.files[Sidecar(id)] == Regular(sidecar)
    {
      ok := fs.WriteAtomic(Content(id), data);
      assert SameAt(old(fs.files), fs.files, Sidecar(id));
      if !ok { return; }
      var marshals: bool := *;
      ok := false;
      if marshals {
        ok := fs.WriteAtomic(Sidecar(id), sidecar);
      } else {
        fs.failures := fs.failures + 1;
      }
      if !ok {
        var _ := fs.Remove(Content(id));
      }
    }

    /** The rest of `Put` once room was made and the id chosen. */
    method Add(m: Metadata, data: Bytes, ghost gone: set<string>, ghost files: Files, ghost states: set<Files>)
      returns (ok: bool)
      requires Counted() && m.id !in entries && ValidID(m.id) && m.size == |data|
      requires CrashState(files, fs.files, gone, NoAddition) && CrashStates(files, states, fs.states, gone, NoAddition)
      modifies this, fs
      ensures old(fs.failures) + Count(!ok) <= fs.failures
      ensures Counted()
      ensures entries == if ok then old(entries)[m.id := m] else old(entries)
      ensures originals == if ok then old(originals)[m.id := data] else old(originals)
      ensures usedBytes == if ok then old(usedBytes) + |data| else old(usedBytes)
      ensures ok ==> Content(m.id) in fs.files && fs.files[Content(m.id)] == Regular(data)
      ensures ok ==> Sidecar(m.id) in fs.files && fs.files[Sidecar(m.id)] == Regular(f.encode(m))
      ensures CrashStates(files, states, fs.states, gone, Addition(m.id, data, f.encode(m)))
    {
      ghost var added := Addition(m.id, data, f.encode(m));
      ghost var middle, earlier := fs.files, fs.states;
      ok := WriteFiles(m.id, data, f.encode(m));
      AnyAdditions(files, states, earlier, gone, added);
      forall d | d in fs.states && d !in states
        ensures CrashState(files, d, gone, added)
      {
        if d !in earlier { AdditionComposes(files, middle, d, gone, added); }
      }
      forall x | x in entries
        ensures EntryOk(x)
      {
        assert old(EntryOk(x));
        assert OldFileOk(middle, fs.files, {}, Content(x));
      }
      if ok {
        TotalWith(entries, m.id, m);
        entries := entries[m.id := m];
        usedBytes := usedBytes + |data|;
        originals := originals[m.id := data];
      }
    }

    /** `cancelled` and `cancelledLate` are what the two looks at the context find. */
    method Put(mimeType: Option<string>, data: Bytes, redaction: Redaction, now: int, later: int, random: seq<string>,
               cancelled: bool, cancelledLate: bool)
      returns (r: Result<Metadata>)
      requires Valid() && forall i :: 0 <= i < |random| ==> ValidID(random[i])
      modifies this, fs
      ensures Valid()
      // every error has its cause; without one the artifact is stored
      ensures if cancelled then r == Err(Cancelled)
              else if mimeType.None? then r == Err(InvalidMIME)
              else if |data| > maxBytes then r == Err(QuotaExceeded)
              else if cancelledLate then r == Err(Cancelled)
              else if r == Err(Fault) then old(fs.failures) < fs.failures
              else r == Err(NoUniqueID) <==>
                NoneUnused(random, Survivors(old(entries), now, maxBytes - |data|).Keys)
      ensures r.Err? ==> r.error in {Cancelled, InvalidMIME, QuotaExceeded, NoUniqueID, Fault}
      ensures var kept := Survivors(old(entries), now, maxBytes - |data|);
        var id := FirstUnused(random, kept.Keys, ID_ATTEMPTS);
        if r.Ok? then
          && id.Some? && mimeType.Some?
          && r.value == Metadata(id.value, URI_PREFIX + id.value, mimeType.value, |data|, later, later + ttl,
                                 r.value.redaction)
          && r.value.redaction.rules == NormalizedStrings(redaction.rules)
          && (r.value.redaction.applied <==> redaction.applied || r.value.redaction.rules != [])
          && entries == kept[id.value := r.value]
          && originals == old(originals)[id.value := data]
          && Content(id.value) in fs.files && fs.files[Content(id.value)] == Regular(data)
          && Sidecar(id.value) in fs.files && fs.files[Sidecar(id.value)] == Regular(f.encode(r.value))
        else Submap(entries, old(entries)) && Submap(kept, entries) && originals == old(originals)
      ensures |data| > maxBytes ==> r.Err? && entries == old(entries) && fs.files == old(fs.files)
      ensures var kept := Survivors(old(entries), now, maxBytes - |data|);
        CrashStates(old(fs.files), old(fs.states), fs.states, old(entries).Keys - kept.Keys,
          AdditionOf(f, kept.Keys, random, mimeType, data, later, ttl, redaction))
    {
      hide CrashState, FirstUnused, Trimmed;
      ghost var kept := Survivors(entries, now, maxBytes - |data|);
      ghost var gone := entries.Keys - kept.Keys;
      if cancelled { return Err(Cancelled); }
      if mimeType.None? { return Err(InvalidMIME); }
      if |data| > maxBytes { return Err(QuotaExceeded); }
      if cancelledLate { return Err(Cancelled); }
      var ok := MakeRoom(|data|, now);
      AnyAdditions(old(fs.files), old(fs.states), fs.states, gone,
        AdditionOf(f, kept.Keys, random, mimeType, data, later, ttl, redaction));
      TotalOfSubmap(old(entries), entries);
      if !ok { return Err(Fault); }
      var id := NewID(random);
      NoneIffUsed(random, entries.Keys, ID_ATTEMPTS);
      if id.None? { return Err(NoUniqueID); }
      UnusedIsFirst(random, entries.Keys, ID_ATTEMPTS);
      var m := NewMetadata(id.value, mimeType.value, |data|, later, ttl, redaction);
      ok := Add(m, data, gone, old(fs.files), old(fs.states));
      r := if ok then Ok(m) else Err(Fault);
    }

    /** Bytes that are returned are the original ones; content that does not fit its
        metadata is never met. */
    method Read(id: string, now: int, cancelled: bool) returns (r: Result<Artifact>)
      requires Valid()
      modifies this`entries, this`usedBytes, fs
      ensures Valid()
      // every error has its cause; without one the artifact is returned
      ensures if !ValidID(id) then r == Err(InvalidID)
              else if cancelled then r == Err(Cancelled)
              else if id !in old(entries) then r == Err(NotFound)
              else if r == Err(Fault) then old(fs.failures) < fs.failures
              else if old(entries)[id].expiresAt <= now || Content(id) !in old(fs.files) then r == Err(NotFound)
              else r == Ok(Artifact(old(entries)[id], originals[id]))
      ensures r.Ok? ==>
        && id in old(entries) && now < old(entries)[id].expiresAt && entries == old(entries)
        && r.value == Artifact(old(entries)[id], originals[id])
      ensures r == Err(NotFound) ==> id !in entries
      ensures r != Err(SizeMismatch)
      ensures entries == old(entries) || (r == Err(NotFound) && entries == old(entries) - {id})
      ensures id in old(entries) && id !in entries ==>
        old(entries)[id].expiresAt <= now || Content(id) !in old(fs.files)
      ensures CrashState(old(fs.files), fs.files, {id}, NoAddition)
      ensures CrashStates(old(fs.files), old(fs.states), fs.states, {id}, NoAddition)
    {
      if !ValidID(id) { return Err(InvalidID); }
      if cancelled { return Err(Cancelled); }
      if id !in entries { return Err(NotFound); }
      var m := entries[id];
      TotalWithout(entries, id);
      if m.expiresAt <= now {
        var ok := RemoveLocked(id);
        return Err(if ok then NotFound else Fault);
      }
      assert EntryOk(id);
      var read := fs.ReadFile(Content(id));
      if read.NoFile? {
        entries := entries - {id};
        usedBytes := usedBytes - m.size;
        assert forall x :: x in entries ==> old(EntryOk(x)) && EntryOk(x);
        return Err(NotFound);
      }
      if read.Unreadable? { return Err(Fault); }
      if |read.data| != m.size { return Err(SizeMismatch); }
      r := Ok(Artifact(m, read.data));
    }

    method Delete(id: string) returns (r: Result<()>)
      requires Valid()
      modifies this`entries, this`usedBytes, fs
      ensures Valid()
      ensures if ValidID(id) then r == Ok(()) || (r == Err(Fault) && old(fs.failures) < fs.failures)
              else r == Err(InvalidID)
      ensures entries == if r.Ok? then old(entries) - {id} else old(entries)
      ensures r.Ok? && id in old(entries) ==> fs.files == old(fs.files) - {Content(id), Sidecar(id)}
      ensures CrashState(old(fs.files), fs.files, {id}, NoAddition)
      ensures CrashStates(old(fs.files), old(fs.states), fs.states, {id}, NoAddition)
    {
      if !ValidID(id) { return Err(InvalidID); }
      if id !in entries { return Ok(()); }
      TotalWithout(entries, id);
      var ok := RemoveLocked(id);
      r := if ok then Ok(()) else Err(Fault);
    }

    /** The quota already holds, so only expired entries go. */
    method Cleanup(now: int) returns (count: nat, ok: bool)
      requires Valid()
      modifies this`entries, this`usedBytes, fs
      ensures old(fs.failures) + Count(!ok) <= fs.failures
      ensures Valid() && count == |old(entries)| - |entries|
      ensures Shrunk(Unexpired(old(entries), now), old(entries), old(fs.files), old(fs.states))
      ensures ok ==> entries == Unexpired(old(entries), now)
      ensures ok ==> forall id :: id in entries <==> id in old(entries) && now < old(entries)[id].expiresAt
    {
      var before := |entries|;
      ok := CleanupExpired(now);
      TotalOfSubmap(old(entries), entries);
      if ok {
        ok := Evict(0, Unexpired(old(entries), now), old(entries), old(fs.files), old(fs.states));
      }
      TotalOfSubmap(old(entries), entries);
      SmallerMap(old(entries), entries);
      count := before - |entries|;
    }

    // --- opening

    ghost predicate Loaded(d0: Files, done: set<Name>, now: int)
      reads this, fs
    {
      LoadedFrom(f, d0, done, now, fs.faults, entries, originals)
    }

    /** Only files of artifacts that are not to be indexed have gone. */
    ghost predicate Careful(d0: Files, states: set<Files>, now: int)
      reads this, fs
    {
      && CrashState(d0, fs.files, IdsOf(d0) - Indexed(f, d0, now, fs.faults).Keys, NoAddition)
      && CrashStates(d0, states, fs.states, IdsOf(d0) - Indexed(f, d0, now, fs.faults).Keys, NoAddition)
    }

    method LoadTemporary(n: Name, now: int, ghost d0: Files, ghost states: set<Files>, ghost done: set<Name>)
      returns (ok: bool)
      requires n.Temporary? && n in d0 && n !in done
      requires Careful(d0, states, now) && Passed(d0, done, {}, entries.Keys, fs.files)
      modifies fs`files, fs`states, fs`failures
      ensures old(fs.failures) + Count(!ok) <= fs.failures
      ensures Careful(d0, states, now)
      ensures ok ==> Passed(d0, done + {n}, {}, entries.Keys, fs.files)
    {
      var r := fs.Remove(n);
      ok := !r.Stuck?;
    }

    ghost predicate Summed()
      reads this
    {
      Sized(entries) && usedBytes == TotalSize(entries)
    }

    /** The files of an artifact that is not to be indexed go. */
    method Discard(id: string, now: int, ghost d0: Files, ghost states: set<Files>, ghost done: set<Name>)
      returns (ok: bool)
      requires Sidecar(id) in d0 && Sidecar(id) !in done && !d0[Sidecar(id)].Directory?
      requires id !in Indexed(f, d0, now, fs.faults) && id !in entries
      requires Careful(d0, states, now) && Passed(d0, done, {}, entries.Keys, fs.files)
      modifies fs`files, fs`states, fs`failures
      ensures old(fs.failures) + Count(!ok) <= fs.failures
      ensures Careful(d0, states, now)
      ensures ok ==> Passed(d0, done + {Sidecar(id)}, {}, entries.Keys, fs.files)
    {
      ghost var gone := IdsOf(d0) - Indexed(f, d0, now, fs.faults).Keys;
      ghost var middle, earlier := fs.files, fs.states;
      assert Sidecar(id) in d0 && id in IdsOf(d0);
      ok := RemoveFiles(id);
      assert gone + {id} == gone;
      CrashesCompose(d0, middle, fs.files, gone, {id});
      forall d | d in fs.states && d !in states
        ensures CrashState(d0, d, gone, NoAddition)
      {
        if d !in earlier { CrashesCompose(d0, middle, d, gone, {id}); }
      }
    }

    /** What `load` makes of one metadata file. */
    method Examine(id: string, kind: Node, now: int) returns (v: Verdict)
      requires Sidecar(id) in fs.files && kind == fs.files[Sidecar(id)]
      modifies fs`faults, fs`failures
      ensures fs.faults == old(fs.faults) || fs.faults == old(fs.faults) + {Content(id)}
      ensures old(fs.failures) + Count(v.GiveUp? || fs.faults != old(fs.faults)) <= fs.failures
      ensures v.Keep? ==>
        && Complete(f, fs.files, id) && now < v.metadata.expiresAt && fs.faults == old(fs.faults)
        && Artifact(v.metadata, fs.files[Content(id)].data) == Stored(f, fs.files, id)
      ensures v.Drop? ==>
        Content(id) in fs.faults || !Complete(f, fs.files, id) || Stored(f, fs.files, id).metadata.expiresAt <= now
    {
      if !kind.Regular? { return Drop; }
      var sidecar := fs.ReadFile(Sidecar(id));
      if !sidecar.Data? { return GiveUp; }
      var m := f.decode(sidecar.data);
      if m.None? || !ValidMetadata(f, m.value, id) || m.value.expiresAt <= now { return Drop; }
      var content := fs.Lstat(Content(id));
      if content.None? || !content.value.Regular? || |content.value.data| != m.value.size { return Drop; }
      var secured: bool := *;   // chmod of both files
      v := if secured then Keep(Loadable(m.value)) else GiveUp;
      fs.failures := fs.failures + Count(!secured);
    }

    method KeepSidecar(id: string, m: Metadata, now: int, ghost d0: Files, ghost done: set<Name>)
      requires Sidecar(id) in d0 && Sidecar(id) !in done && !d0[Sidecar(id)].Directory?
      requires Complete(f, d0, id) && now < m.expiresAt && m == Stored(f, d0, id).metadata
      requires Passed(d0, done, {}, entries.Keys, fs.files) && Loaded(d0, done, now) && Summed()
      requires Content(id) !in fs.faults
      modifies this`entries, this`usedBytes, this`originals
      ensures Passed(d0, done + {Sidecar(id)}, {}, entries.Keys, fs.files)
      ensures Loaded(d0, done + {Sidecar(id)}, now) && Summed()
    {
      LoadedKeeps(f, d0, done, now, fs.faults, entries, originals, id);
      PassedKeeps(d0, done, entries, fs.files, id, m);
      TotalWith(entries, id, m);
      originals := originals[id := Stored(f, d0, id).data];
      entries := entries[id := m];
      usedBytes := usedBytes + m.size;
    }

    /** One metadata file of the listing. */
    method LoadSidecar(id: string, kind: Node, now: int, ghost d0: Files, ghost states: set<Files>,
                       ghost done: set<Name>)
      returns (ok: bool)
      requires Sidecar(id) in d0 && Sidecar(id) !in done && kind == d0[Sidecar(id)] && !kind.Directory?
      requires Careful(d0, states, now) && Passed(d0, done, {}, entries.Keys, fs.files)
      requires Loaded(d0, done, now) && Summed() && Content(id) !in fs.faults
      modifies this, fs
      ensures old(fs.failures) + Count(!ok || fs.faults != old(fs.faults)) <= fs.failures
      ensures Careful(d0, states, now) && Summed() && fs.faults <= old(fs.faults) + {Content(id)}
      ensures ok ==> Passed(d0, done + {Sidecar(id)}, {}, entries.Keys, fs.files)
      ensures ok ==> Loaded(d0, done + {Sidecar(id)}, now)
    {
      ghost var before := fs.faults;
      UntouchedSoFar(d0, done, entries.Keys, fs.files, id, f);
      var verdict := Examine(id, kind, now);
      MoreFaults(d0, fs.files, states, fs.states, f, now, before, fs.faults);
      match verdict
      case GiveUp => ok := false;
      case Drop =>
        LoadedSkips(f, d0, done, now, before, fs.faults, entries, originals, id);
        ok := Discard(id, now, d0, states, done);
      case Keep(m) =>
        KeepSidecar(id, m, now, d0, done);
        ok := true;
    }

    /** What holds between two names of the first pass. */
    ghost predicate Indexing(d0: Files, states: set<Files>, done: set<Name>, now: int)
      reads this, fs
    {
      && Careful(d0, states, now) && Passed(d0, done, {}, entries.Keys, fs.files) && Loaded(d0, done, now) && Summed()
      && forall n :: n in fs.faults ==> n.Content? && Sidecar(n.id) in done
    }

    /** One name of the first pass. */
    method IndexName(n: Name, kind: Node, now: int, ghost d0: Files, ghost states: set<Files>, ghost done: set<Name>)
      returns (ok: bool)
      requires n in d0 && n !in done && kind == d0[n] && Indexing(d0, states, done, now)
      modifies this, fs
      ensures old(fs.failures) + Count(!ok || fs.faults != old(fs.faults)) <= fs.failures
      ensures Careful(d0, states, now)
      ensures ok ==> Indexing(d0, states, done + {n}, now)
    {
      if n.Temporary? {
        LoadedIgnores(f, d0, done, now, fs.faults, entries, originals, n);
        ok := LoadTemporary(n, now, d0, states, done);
      } else if n.Sidecar? && !kind.Directory? {
        ok := LoadSidecar(n.id, kind, now, d0, states, done);
      } else {
        LoadedIgnores(f, d0, done, now, fs.faults, entries, originals, n);
        PassedIgnores(d0, done, entries.Keys, fs.files, n);
        ok := true;
      }
    }

    /** The first pass of `load`: files with metadata are indexed or removed. */
    method IndexFiles(names: seq<Name>, kinds: Files, now: int) returns (ok: bool)
      requires kinds == fs.files && forall n :: n in names <==> n in kinds
      requires forall i, j :: 0 <= i < j < |names| ==> names[i] != names[j]
      requires entries == map[] && Counted() && fs.faults == {}
      modifies this, fs
      ensures old(fs.failures) + Count(!ok || fs.faults != old(fs.faults)) <= fs.failures
      ensures Careful(kinds, old(fs.states), now)
      ensures ok ==> entries == Indexed(f, kinds, now, fs.faults) && Summed()
      ensures ok ==> Passed(kinds, kinds.Keys, {}, entries.Keys, fs.files)
      ensures ok ==> HasOriginals(f, kinds, entries.Keys, originals)
    {
      ghost var done: set<Name> := {};
      NothingIndexed(f, kinds, fs.states, now, originals);
      assert entries.Keys == {};
      for i := 0 to |names|
        invariant forall n :: n in done <==> n in names[..i]
        invariant Indexing(kinds, old(fs.states), done, now)
        invariant old(fs.failures) + Count(fs.faults != old(fs.faults)) <= fs.failures
      {
        assert names[i] !in names[..i];
        ok := IndexName(names[i], kinds[names[i]], now, kinds, old(fs.states), done);
        if !ok { return; }
        done := done + {names[i]};
      }
      assert names[..|names|] == names;
      assert done == kinds.Keys;
      EverythingIndexed(f, kinds, now, fs.faults, entries, originals);
      ok := true;
    }

    /** The second pass: content without an indexed artifact is removed. */
    method RemoveOrphans(names: seq<Name>, kinds: Files, now: int, ghost states: set<Files>) returns (ok: bool)
      requires forall n :: n in names <==> n in kinds
      requires Careful(kinds, states, now) && Passed(kinds, kinds.Keys, {}, entries.Keys, fs.files)
      requires entries == Indexed(f, kinds, now, fs.faults)
      modifies fs`files, fs`states, fs`failures
      ensures old(fs.failures) + Count(!ok) <= fs.failures
      ensures Careful(kinds, states, now)
      ensures ok ==> Passed(kinds, kinds.Keys, kinds.Keys, entries.Keys, fs.files)
    {
      hide Careful, Passed, Indexed;
      ghost var seen: set<Name> := {};
      for i := 0 to |names|
        invariant forall n :: n in seen <==> n in names[..i]
        invariant Careful(kinds, states, now) && Passed(kinds, kinds.Keys, seen, entries.Keys, fs.files)
        invariant old(fs.failures) <= fs.failures
      {
        var n := names[i];
        if n.Content? && !kinds[n].Directory? && n.id !in entries {
          ok := RemoveOrphan(n, now, kinds, states, seen);
          if !ok { return; }
        } else {
          SeenIgnores(kinds, seen, entries.Keys, fs.files, n);
        }
        seen := seen + {n};
      }
      assert names[..|names|] == names;
      assert seen == kinds.Keys;
      ok := true;
    }

    method RemoveOrphan(n: Name, now: int, ghost d0: Files, ghost states: set<Files>, ghost seen: set<Name>)
      returns (ok: bool)
      requires n in d0 && n.Content? && !d0[n].Directory? && n.id !in entries
      requires Careful(d0, states, now) && Passed(d0, d0.Keys, seen, entries.Keys, fs.files)
      requires entries == Indexed(f, d0, now, fs.faults)
      modifies fs`files, fs`states, fs`failures
      ensures old(fs.failures) + Count(!ok) <= fs.failures
      ensures Careful(d0, states, now)
      ensures ok ==> Passed(d0, d0.Keys, seen + {n}, entries.Keys, fs.files)
      ensures !ok ==> Passed(d0, d0.Keys, seen, entries.Keys, fs.files)
    {
      assert n.id in IdsOf(d0);
      var r := fs.Remove(n);
      ok := !r.Stuck?;
    }

    /** What the passes of `load` leave. */
    ghost predicate Swept(d0: Files, states: set<Files>, now: int)
      reads this, fs
    {
      && entries == Indexed(f, d0, now, fs.faults) && Summed() && WellNamed(d0)
      && Careful(d0, states, now) && Passed(d0, d0.Keys, d0.Keys, entries.Keys, fs.files)
      && HasOriginals(f, d0, entries.Keys, originals)
    }

    /** Both passes over the listing. */
    method Sweep(names: seq<Name>, kinds: Files, now: int) returns (ok: bool)
      requires kinds == fs.files && forall n :: n in names <==> n in kinds
      requires forall i, j :: 0 <= i < j < |names| ==> names[i] != names[j]
      requires entries == map[] && Counted() && fs.faults == {} && WellNamed(kinds)
      modifies this, fs
      ensures old(fs.failures) + Count(!ok || fs.faults != old(fs.faults)) <= fs.failures
      ensures Careful(kinds, old(fs.states), now)
      ensures ok ==> Swept(kinds, old(fs.states), now)
    {
      hide Indexed, Careful, Passed, HasOriginals, Summed, WellNamed;
      ok := IndexFiles(names, kinds, now);
      if ok {
        ok := RemoveOrphans(names, kinds, now, old(fs.states));
      }
    }

    /** `load`.  A reopen that succeeds indexes exactly the complete, unexpired artifacts
        whose content could be examined, trimmed to the quota, with their original bytes,
        and leaves the files of no others; whether or not it succeeds, a crash during it
        harms none of them. */
    method Load(now: int) returns (ok: bool)
      requires entries == map[] && Counted() && fs.faults == {} && 0 < maxBytes && 0 < ttl && WellNamed(fs.files)
      modifies this, fs
      ensures old(fs.failures) + Count(!ok || fs.faults != old(fs.faults)) <= fs.failures
      ensures CrashStates(old(fs.files), old(fs.states), fs.states,
        IdsOf(old(fs.files)) - Trimmed(Indexed(f, old(fs.files), now, fs.faults), maxBytes).Keys, NoAddition)
      ensures fs.failures == old(fs.failures) ==> ok && fs.faults == {}
      ensures ok ==> Valid() && entries == Trimmed(Indexed(f, old(fs.files), now, fs.faults), maxBytes)
      ensures ok ==> HasOriginals(f, old(fs.files), entries.Keys, originals)
      ensures ok ==> Reopened(old(fs.files), entries.Keys, fs.files)
    {
      hide Swept, Careful, Indexed, Trimmed, Reopened, HasOriginals, CrashState, WellNamed, IdsOf;
      var names, kinds := fs.List();
      if names.None? { return false; }
      ok := Sweep(names.value, kinds, now);
      CarefulEnough(kinds, old(fs.states), now);
      if ok {
        SweptOriginals(kinds, old(fs.states), now);
        ok := TrimLoaded(kinds, old(fs.states), now);
      }
    }

    lemma SweptOriginals(d0: Files, states: set<Files>, now: int)
      requires Swept(d0, states, now)
      ensures entries == Indexed(f, d0, now, fs.faults)
      ensures forall ids :: ids <= entries.Keys ==> HasOriginals(f, d0, ids, originals)
    {
    }

    lemma CarefulEnough(d0: Files, states: set<Files>, now: int)
      requires Careful(d0, states, now)
      ensures CrashStates(d0, states, fs.states,
        IdsOf(d0) - Trimmed(Indexed(f, d0, now, fs.faults), maxBytes).Keys, NoAddition)
    {
      var found := Indexed(f, d0, now, fs.faults);
      FewerKept(d0, states, fs.states, IdsOf(d0) - found.Keys, IdsOf(d0) - Trimmed(found, maxBytes).Keys);
    }

    /** The quota is enforced on what was loaded. */
    method TrimLoaded(ghost d0: Files, ghost states: set<Files>, now: int) returns (ok: bool)
      requires Swept(d0, states, now) && 0 < maxBytes && 0 < ttl
      modifies this`entries, this`usedBytes, fs`files, fs`states, fs`failures
      ensures old(fs.failures) + Count(!ok) <= fs.failures
      ensures CrashStates(d0, states, fs.states,
        IdsOf(d0) - Trimmed(Indexed(f, d0, now, fs.faults), maxBytes).Keys, NoAddition)
      ensures ok ==> Valid() && entries == Trimmed(Indexed(f, d0, now, fs.faults), maxBytes)
      ensures ok ==> entries.Keys <= old(entries.Keys) && Reopened(d0, entries.Keys, fs.files)
    {
      ghost var found, middle, earlier := entries, fs.files, fs.states;
      SweptIsCounted(d0, states, now);
      FewerKeys(Trimmed(found, maxBytes), found);
      hide *;
      ok := EnforceQuota();
      LoadedIsTrimmed(d0, states, found, Trimmed(found, maxBytes), middle, earlier);
    }

    /** `enforceQuotaLocked`. */
    method EnforceQuota() returns (ok: bool)
      requires Counted() && 0 < maxBytes
      modifies this`entries, this`usedBytes, fs`files, fs`states, fs`failures
      ensures old(fs.failures) + Count(!ok) <= fs.failures
      ensures Shrunk(Trimmed(old(entries), maxBytes), old(entries), old(fs.files), old(fs.states))
      ensures ok ==> entries == Trimmed(old(entries), maxBytes) && usedBytes <= maxBytes
    {
      ghost var floor := Trimmed(entries, maxBytes);
      Unshrunk(floor);
      ok := Evict(0, floor, entries, fs.files, fs.states);
    }

    lemma Unshrunk(floor: Entries)
      requires Counted() && Submap(floor, entries)
      ensures Shrunk(floor, entries, fs.files, fs.states)
    {
    }

    lemma SweptIsCounted(d0: Files, states: set<Files>, now: int)
      requires Swept(d0, states, now)
      ensures Counted() && entries == Indexed(f, d0, now, fs.faults)
      ensures SweptFiles(d0, states, entries, fs.files, fs.states)
    {
      LoadedEntriesAreOk(d0);
      assert forall id :: id in entries ==> Complete(f, d0, id);
    }

    /** What the evictions made of a directory that was swept. */
    lemma LoadedIsTrimmed(d0: Files, states: set<Files>, found: Entries, floor: Entries, middle: Files,
                          earlier: set<Files>)
      requires Shrunk(floor, found, middle, earlier) && Submap(floor, found)
      requires SweptFiles(d0, states, found, middle, earlier)
      ensures Counted() && CrashStates(d0, states, fs.states, IdsOf(d0) - floor.Keys, NoAddition)
      ensures entries == floor ==> Reopened(d0, entries.Keys, fs.files)
    {
      TrimmingIsCareful(d0, middle, states, earlier, fs.states, found, floor);
      if entries == floor {
        TrimmedDirectory(d0, found.Keys, middle, floor.Keys, fs.files, found.Keys - floor.Keys);
      }
    }

    lemma LoadedEntriesAreOk(d0: Files)
      requires HasOriginals(f, d0, entries.Keys, originals) && Passed(d0, d0.Keys, d0.Keys, entries.Keys, fs.files)
      requires Summed() && WellNamed(d0) && forall id :: id in entries ==> entries[id] == Stored(f, d0, id).metadata
      ensures Counted()
    {
      forall id | id in entries
        ensures EntryOk(id)
      {
        assert Complete(f, d0, id);
        assert NameOfID(Content(id));
      }
    }
  }

  /** A directory and its history after both passes over `d0`. */
  ghost predicate SweptFiles(d0: Files, states: set<Files>, found: Entries, d: Files, later: set<Files>) {
    && found.Keys <= IdsOf(d0) && CrashState(d0, d, IdsOf(d0) - found.Keys, NoAddition)
    && CrashStates(d0, states, later, IdsOf(d0) - found.Keys, NoAddition)
    && Passed(d0, d0.Keys, d0.Keys, found.Keys, d)
    && forall id :: id in found ==>
         Content(id) in d0 && !d0[Content(id)].Directory? && Sidecar(id) in d0 && !d0[Sidecar(id)].Directory?
  }

  lemma TrimmingIsCareful(d0: Files, middle: Files, states: set<Files>, earlier: set<Files>, later: set<Files>,
                          found: Entries, floor: Entries)
    requires Submap(floor, found) && found.Keys <= IdsOf(d0)
    requires CrashState(d0, middle, IdsOf(d0) - found.Keys, NoAddition)
    requires CrashStates(d0, states, earlier, IdsOf(d0) - found.Keys, NoAddition)
    requires CrashStates(middle, earlier, later, found.Keys - floor.Keys, NoAddition)
    ensures CrashStates(d0, states, later, IdsOf(d0) - floor.Keys, NoAddition)
  {
    var gone, more := IdsOf(d0) - found.Keys, found.Keys - floor.Keys;
    assert gone + more == IdsOf(d0) - floor.Keys;
    FewerKept(d0, states, earlier, gone, gone + more);
    forall d | d in later && d !in earlier
      ensures CrashState(d0, d, gone + more, NoAddition)
    {
      CrashesCompose(d0, middle, d, gone, more);
    }
  }

  /** Both passes over all names and the removal of what does not fit leave what `load`
      promises. */
  lemma TrimmedDirectory(d0: Files, found: set<string>, middle: Files, kept: set<string>, d: Files, gone: set<string>)
    requires Passed(d0, d0.Keys, d0.Keys, found, middle) && kept <= found && gone == found - kept
    requires CrashState(middle, d, gone, NoAddition)
    requires forall id :: id in gone ==> Content(id) !in d && Sidecar(id) !in d
    requires Fewer(middle, d)
    requires forall id :: id in found ==>
      Content(id) in d0 && !d0[Content(id)].Directory? && Sidecar(id) in d0 && !d0[Sidecar(id)].Directory?
    ensures Reopened(d0, kept, d)
  {
    forall n | n in d0 && !n.Temporary?
      ensures n in d <==> Survives(d0, kept, n)
      ensures n in d ==> d[n] == d0[n]
    {
      assert OldFileOk(middle, d, gone, n);
    }
    forall n | n in d
      ensures n in d0
    {
      assert OldFileOk(middle, d, gone, n);
    }
  }

  lemma EverythingIndexed(f: Format, d0: Files, now: int, faults: set<Name>,
                          entries: Entries, originals: map<string, Bytes>)
    requires LoadedFrom(f, d0, d0.Keys, now, faults, entries, originals)
    ensures entries == Indexed(f, d0, now, faults) && HasOriginals(f, d0, entries.Keys, originals)
  {
    assert forall id :: id in Indexed(f, d0, now, faults) ==> Handled(d0, d0.Keys, id);
  }

  lemma FewerKept(before: Files, earlier: set<Files>, states: set<Files>, gone: set<string>, more: set<string>)
    requires CrashStates(before, earlier, states, gone, NoAddition) && gone <= more
    ensures CrashStates(before, earlier, states, more, NoAddition)
  {
    forall d | d in states && d !in earlier
      ensures CrashState(before, d, more, NoAddition)
    {
      MoreGone(before, d, gone, more);
    }
  }

  lemma SeenIgnores(d0: Files, seen: set<Name>, kept: set<string>, d: Files, n: Name)
    requires n in d0 && Passed(d0, d0.Keys, seen, kept, d) && !Orphan(d0, seen + {n}, kept, n)
    ensures Passed(d0, d0.Keys, seen + {n}, kept, d)
  {
    forall x | x in d0
      ensures Stays(d0, d0.Keys, seen + {n}, kept, x) == Stays(d0, d0.Keys, seen, kept, x)
    {
    }
  }

  lemma NothingIndexed(f: Format, d0: Files, states: set<Files>, now: int, originals: map<string, Bytes>)
    ensures Passed(d0, {}, {}, {}, d0) && LoadedFrom(f, d0, {}, now, {}, map[], originals)
    ensures CrashState(d0, d0, IdsOf(d0) - Indexed(f, d0, now, {}).Keys, NoAddition)
    ensures CrashStates(d0, states, states, IdsOf(d0) - Indexed(f, d0, now, {}).Keys, NoAddition)
  {
  }

  /** The index after the names in `done`. */
  ghost predicate LoadedFrom(f: Format, d0: Files, done: set<Name>, now: int, faults: set<Name>,
                             entries: Entries, originals: map<string, Bytes>)
  {
    && (forall id :: id in entries <==> id in Indexed(f, d0, now, faults) && Handled(d0, done, id))
    && (forall id :: id in entries ==> entries[id] == Stored(f, d0, id).metadata)
    && (forall id :: id in entries ==> id in originals && originals[id] == Stored(f, d0, id).data)
  }

  lemma LoadedSkips(f: Format, d0: Files, done: set<Name>, now: int, before: set<Name>, faults: set<Name>,
                    entries: Entries, originals: map<string, Bytes>, id: string)
    requires LoadedFrom(f, d0, done, now, before, entries, originals)
    requires faults == before || faults == before + {Content(id)}
    requires Content(id) in faults || !Complete(f, d0, id) || Stored(f, d0, id).metadata.expiresAt <= now
    requires Sidecar(id) !in done
    ensures id !in entries && id !in Indexed(f, d0, now, faults)
    ensures LoadedFrom(f, d0, done + {Sidecar(id)}, now, faults, entries, originals)
  {
    forall x
      ensures x in entries <==> x in Indexed(f, d0, now, faults) && Handled(d0, done + {Sidecar(id)}, x)
    {
      if x != id {
        assert Handled(d0, done, x) == Handled(d0, done + {Sidecar(id)}, x);
        assert x in Indexed(f, d0, now, faults) <==> x in Indexed(f, d0, now, before);
      }
    }
  }

  lemma LoadedKeeps(f: Format, d0: Files, done: set<Name>, now: int, faults: set<Name>,
                    entries: Entries, originals: map<string, Bytes>, id: string)
    requires LoadedFrom(f, d0, done, now, faults, entries, originals)
    requires Complete(f, d0, id) && now < Stored(f, d0, id).metadata.expiresAt && Content(id) !in faults
    requires Sidecar(id) !in done
    ensures id !in entries
    ensures LoadedFrom(f, d0, done + {Sidecar(id)}, now, faults,
      entries[id := Stored(f, d0, id).metadata], originals[id := Stored(f, d0, id).data])
  {
    assert Sidecar(id) in d0 && id in IdsOf(d0);
    var after := entries[id := Stored(f, d0, id).metadata];
    forall x
      ensures x in after <==> x in Indexed(f, d0, now, faults) && Handled(d0, done + {Sidecar(id)}, x)
    {
      if x != id {
        assert Handled(d0, done, x) == Handled(d0, done + {Sidecar(id)}, x);
      }
    }
  }

  /** Names that are no artifact's metadata file say nothing about the index. */
  lemma LoadedIgnores(f: Format, d0: Files, done: set<Name>, now: int, faults: set<Name>,
                      entries: Entries, originals: map<string, Bytes>, n: Name)
    requires LoadedFrom(f, d0, done, now, faults, entries, originals) && n in d0 && (n.Sidecar? ==> d0[n].Directory?)
    ensures LoadedFrom(f, d0, done + {n}, now, faults, entries, originals)
  {
    forall id
      ensures Handled(d0, done, id) == Handled(d0, done + {n}, id)
    {
    }
  }

  lemma PassedIgnores(d0: Files, done: set<Name>, kept: set<string>, d: Files, n: Name)
    requires Passed(d0, done, {}, kept, d) && n in d0 && !n.Temporary? && (n.Sidecar? ==> d0[n].Directory?)
    ensures Passed(d0, done + {n}, {}, kept, d)
  {
    forall x | x in d0
      ensures Stays(d0, done + {n}, {}, kept, x) == Stays(d0, done, {}, kept, x)
    {
    }
  }

  lemma PassedKeeps(d0: Files, done: set<Name>, entries: Entries, d: Files, id: string, m: Metadata)
    requires Passed(d0, done, {}, entries.Keys, d) && Sidecar(id) !in done
    ensures Passed(d0, done + {Sidecar(id)}, {}, entries[id := m].Keys, d)
  {
    forall n | n in d0
      ensures Stays(d0, done + {Sidecar(id)}, {}, entries[id := m].Keys, n) == Stays(d0, done, {}, entries.Keys, n)
    {
    }
  }

  datatype Verdict = Keep(metadata: Metadata) | Drop | GiveUp

  /** An artifact whose metadata file was not handled yet is as it was. */
  lemma UntouchedSoFar(d0: Files, done: set<Name>, kept: set<string>, d: Files, id: string, f: Format)
    requires Passed(d0, done, {}, kept, d) && Sidecar(id) !in done
    ensures SameAt(d0, d, Sidecar(id)) && SameAt(d0, d, Content(id))
    ensures Complete(f, d, id) <==> Complete(f, d0, id)
    ensures Complete(f, d, id) ==> Stored(f, d, id) == Stored(f, d0, id)
  {
  }

  lemma MoreFaults(d0: Files, d: Files, earlier: set<Files>, states: set<Files>, f: Format, now: int,
                   before: set<Name>, faults: set<Name>)
    requires before <= faults
    requires var gone := IdsOf(d0) - Indexed(f, d0, now, before).Keys;
      CrashState(d0, d, gone, NoAddition) && CrashStates(d0, earlier, states, gone, NoAddition)
    ensures var gone := IdsOf(d0) - Indexed(f, d0, now, faults).Keys;
      CrashState(d0, d, gone, NoAddition) && CrashStates(d0, earlier, states, gone, NoAddition)
  {
    var gone := IdsOf(d0) - Indexed(f, d0, now, before).Keys;
    var more := IdsOf(d0) - Indexed(f, d0, now, faults).Keys;
    MoreGone(d0, d, gone, more);
    forall x | x in states && x !in earlier
      ensures CrashState(d0, x, more, NoAddition)
    {
      MoreGone(d0, x, gone, more);
    }
  }

  lemma FewerKeys(after: Entries, before: Entries)
    requires Submap(after, before)
    ensures after.Keys <= before.Keys
  {
  }

  lemma SmallerMap(before: Entries, after: Entries)
    requires Submap(after, before)
    ensures |after| <= |before|
  {
    assert after.Keys <= before.Keys;
    SmallerSet(after.Keys, before.Keys);
  }

  lemma {:induction false} SmallerSet(a: set<string>, b: set<string>)
    requires a <= b
    ensures |a| <= |b|
  {
    if a != {} {
      var x :| x in a;
      SmallerSet(a - {x}, b - {x});
    }
  }

  /** The first id of those that may be tried that is not used. */
  lemma {:induction false} UnusedIsFirst(random: seq<string>, used: set<string>, attempts: nat)
    ensures var id := FirstUnused(random, used, attempts);
      id.Some? ==> exists i :: 0 <= i < |random| && i < attempts && random[i] == id.value && id.value !in used &&
                     forall j :: 0 <= j < i ==> random[j] in used
  {
    if attempts > 0 && random != [] {
      if random[0] in used {
        UnusedIsFirst(random[1..], used, attempts - 1);
        var id := FirstUnused(random[1..], used, attempts - 1);
        if id.Some? {
          var i :| 0 <= i < |random[1..]| && i < attempts - 1 && random[1..][i] == id.value && id.value !in used &&
                   forall j :: 0 <= j < i ==> random[1..][j] in used;
          assert random[i + 1] == id.value;
          assert forall j :: 1 <= j < i + 1 ==> random[j] == random[1..][j - 1];
        }
      } else {
        assert random[0] == FirstUnused(random, used, attempts).value;
      }
    }
  }

  lemma MoreGone(before: Files, d: Files, gone: set<string>, more: set<string>)
    requires CrashState(before, d, gone, NoAddition) && gone <= more
    ensures CrashState(before, d, more, NoAddition)
  {
    forall n: Name | !n.Temporary?
      ensures OldFileOk(before, d, more, n)
    {
      assert OldFileOk(before, d, gone, n);
    }
  }

  lemma AdditionComposes(before: Files, middle: Files, d: Files, gone: set<string>, added: Addition)
    requires CrashState(before, middle, gone, NoAddition) && CrashState(middle, d, {}, added)
    ensures CrashState(before, d, gone, added)
  {
    forall n: Name | !n.Temporary? && !IsNew(n, added)
      ensures OldFileOk(before, d, gone, n)
    {
      assert OldFileOk(before, middle, gone, n) && OldFileOk(middle, d, {}, n);
    }
    if added.Addition? {
      assert OldFileOk(before, middle, gone, Content(added.id)) && OldFileOk(before, middle, gone, Sidecar(added.id));
    }
  }

  /** Before a new artifact is written, nothing of it is there. */
  lemma AnyAdditions(before: Files, earlier: set<Files>, states: set<Files>, gone: set<string>, added: Addition)
    requires CrashStates(before, earlier, states, gone, NoAddition)
    ensures CrashStates(before, earlier, states, gone, added)
  {
    forall d | d in states && d !in earlier
      ensures CrashState(before, d, gone, added)
    {
      AdditionComposes(before, d, d, gone, added);
    }
  }

  // ---------------------------------------------------------------------
  // Crash and reopen
  // ---------------------------------------------------------------------

  lemma RedactionIsStable(r: Redaction)
    ensures NormalizedRedaction(NormalizedRedaction(r)) == NormalizedRedaction(r)
  {
    NormalizationIsIdempotent(r.rules);
  }

  /** The files `Put` wrote are read back as what it returned, if the metadata passes the
      test of `load`: the clock did not show the zero time, and the MIME type it formatted
      can be parsed again. */
  lemma WrittenArtifactIsStored(f: Format, d: Files, id: string, mimeType: string, data: Bytes, now: int, ttl: int,
                                redaction: Redaction)
    requires var m := NewMetadata(id, mimeType, |data|, now, ttl, redaction);
      && Lossless(f) && 0 < ttl
      && Content(id) in d && d[Content(id)] == Regular(data)
      && Sidecar(id) in d && d[Sidecar(id)] == Regular(f.encode(m))
    ensures var m := NewMetadata(id, mimeType, |data|, now, ttl, redaction);
      && (Complete(f, d, id) <==>
            mimeType != "" && f.parsesAsMIME(mimeType) && now != ZERO_TIME && now + ttl != ZERO_TIME)
      && (Complete(f, d, id) ==> Stored(f, d, id) == Artifact(m, data))
  {
    RedactionIsStable(redaction);
  }

  /** So a reopen at `later` indexes them if and only if the time to live is not over. */
  lemma WrittenArtifactIsIndexed(f: Format, d: Files, id: string, mimeType: string, data: Bytes, now: int, ttl: int,
                                 redaction: Redaction, later: int)
    requires var m := NewMetadata(id, mimeType, |data|, now, ttl, redaction);
      && Lossless(f) && 0 < ttl
      && Content(id) in d && d[Content(id)] == Regular(data)
      && Sidecar(id) in d && d[Sidecar(id)] == Regular(f.encode(m))
    requires mimeType != "" && f.parsesAsMIME(mimeType) && now != ZERO_TIME && now + ttl != ZERO_TIME
    ensures id in Indexed(f, d, later, {}) <==> later < now + ttl
  {
    WrittenArtifactIsStored(f, d, id, mimeType, data, now, ttl, redaction);
    assert Sidecar(id) in d && id in IdsOf(d);
  }

  /** Reopening after a crash at any moment of `Put`, or of a removal, finds every artifact
      that was not being removed exactly as if there had been no crash; the new one is
      found with its metadata and all of its bytes, or not at all, unless its id was in the
      directory before. */
  lemma ReopenAfterCrash(f: Format, before: Files, d: Files, gone: set<string>, id: string, mimeType: string,
                         data: Bytes, now: int, ttl: int, redaction: Redaction, later: int, faults: set<Name>,
                         x: string)
    requires var m := NewMetadata(id, mimeType, |data|, now, ttl, redaction);
      Lossless(f) && CrashState(before, d, gone, Addition(id, data, f.encode(m)))
    ensures x != id && x !in gone ==>
      && (x in Indexed(f, d, later, faults) <==> x in Indexed(f, before, later, faults))
      && (x in Indexed(f, d, later, faults) ==> Stored(f, d, x) == Stored(f, before, x))
    ensures x != id && x in gone && x in Indexed(f, d, later, faults) ==>
      x in Indexed(f, before, later, faults) && Stored(f, d, x) == Stored(f, before, x)
    ensures var m := NewMetadata(id, mimeType, |data|, now, ttl, redaction);
      id in Indexed(f, d, later, faults) ==>
        || Stored(f, d, id) == Artifact(m, data)
        || IsOldArtifact(f, before, d, id)
        || LeftoverFits(f, before, id, m, data)
  {
    var m := NewMetadata(id, mimeType, |data|, now, ttl, redaction);
    var added := Addition(id, data, f.encode(m));
    RedactionIsStable(redaction);
    CrashLeavesWholeArtifacts(f, before, d, gone, added, m, x);
    CrashLeavesWholeArtifacts(f, before, d, gone, added, m, id);
    assert Complete(f, d, x) ==> Sidecar(x) in d && x in IdsOf(d);
    assert Complete(f, before, x) ==> Sidecar(x) in before && x in IdsOf(before);
  }

  /** With an id that the directory does not know, the new artifact is whole or absent. */
  lemma ReopenFindsNewArtifact(f: Format, before: Files, d: Files, gone: set<string>, id: string, mimeType: string,
                               data: Bytes, now: int, ttl: int, redaction: Redaction, later: int, faults: set<Name>)
    requires var m := NewMetadata(id, mimeType, |data|, now, ttl, redaction);
      Lossless(f) && CrashState(before, d, gone, Addition(id, data, f.encode(m)))
    requires Sidecar(id) !in before
    ensures id in Indexed(f, d, later, faults) ==>
      Stored(f, d, id) == Artifact(NewMetadata(id, mimeType, |data|, now, ttl, redaction), data)
  {
    ReopenAfterCrash(f, before, d, gone, id, mimeType, data, now, ttl, redaction, later, faults, id);
  }
}
