/** The directory of the artifact store (internal/artifacts/store.go): its file names,
    and file operations any of which may fail.  A crash is a stop between two
    operations; `states` collects every directory a crash could leave behind. */
module ArtifactFiles {
  import opened Text

  newtype Byte = x: int | 0 <= x < 256

  type Bytes = seq<Byte>

  const TEMPORARY_PREFIX := ".artifact-"
  const SIDECAR_SUFFIX := ".json"
  const CONTENT_SUFFIX := ".bin"
  const ID_LENGTH := 43

  // ---------------------------------------------------------------------
  // Names
  // ---------------------------------------------------------------------

  predicate IsIDCharacter(c: char) {
    'a' <= c <= 'z' || 'A' <= c <= 'Z' || '0' <= c <= '9' || c == '-' || c == '_'
  }

  predicate ValidID(id: string) {
    |id| == ID_LENGTH && forall i :: 0 <= i < |id| ==> IsIDCharacter(id[i])
  }

  /** What a directory entry is to the store. */
  datatype Name =
    | Content(id: string)
    | Sidecar(id: string)
    | Temporary(suffix: string)
    | Other(text: string)

  function FileName(n: Name): string {
    match n
    case Content(id) => id + CONTENT_SUFFIX
    case Sidecar(id) => id + SIDECAR_SUFFIX
    case Temporary(suffix) => TEMPORARY_PREFIX + suffix
    case Other(text) => text
  }

  predicate EndsWith(s: string, suffix: string) {
    |suffix| <= |s| && s[|s| - |suffix|..] == suffix
  }

  /** The tests of `load` on a file name, in its order. */
  function Classify(text: string): Name {
    if TEMPORARY_PREFIX <= text then Temporary(text[|TEMPORARY_PREFIX|..])
    else if EndsWith(text, SIDECAR_SUFFIX) && ValidID(text[..|text| - |SIDECAR_SUFFIX|]) then
      Sidecar(text[..|text| - |SIDECAR_SUFFIX|])
    else if EndsWith(text, CONTENT_SUFFIX) && ValidID(text[..|text| - |CONTENT_SUFFIX|]) then
      Content(text[..|text| - |CONTENT_SUFFIX|])
    else Other(text)
  }

  /** A name of the store: temporary, or of a well-formed artifact id. */
  predicate NameOfID(n: Name) {
    n.Temporary? || ((n.Content? || n.Sidecar?) && ValidID(n.id))
  }

  /** Names and directory entries correspond one to one: no two artifacts share a file,
      and no artifact file is taken for a temporary one. */
  lemma NamesAreUnambiguous(n: Name, text: string)
    ensures FileName(Classify(text)) == text && (Classify(text).Other? || NameOfID(Classify(text)))
    ensures NameOfID(n) ==> Classify(FileName(n)) == n
  {
    if n.Temporary? {
      assert FileName(n)[|TEMPORARY_PREFIX|..] == n.suffix;
    } else if NameOfID(n) {
      assert IsIDCharacter(n.id[0]);
      assert FileName(n)[0] == n.id[0] != TEMPORARY_PREFIX[0];
      assert FileName(n)[..ID_LENGTH] == n.id;
      assert n.Content? ==> FileName(n)[ID_LENGTH] == '.' && FileName(n)[|FileName(n)| - 5] == n.id[42];
    }
  }

  // ---------------------------------------------------------------------
  // The directory
  // ---------------------------------------------------------------------

  datatype Node = Regular(data: Bytes) | Directory | Special

  type Files = map<Name, Node>

  datatype Removal = Removed | Missing | Stuck

  datatype Reading = Data(data: Bytes) | NoFile | Unreadable

  /** `name` is the same in both directories. */
  ghost predicate SameAt(before: Files, after: Files, name: Name) {
    (name in after <==> name in before) && (name in before ==> after[name] == before[name])
  }

  /** Only temporary files differ. */
  ghost predicate Same(before: Files, after: Files) {
    forall n: Name :: !n.Temporary? ==> SameAt(before, after, n)
  }

  /** Only `name` and temporary files differ. */
  ghost predicate SameBut(before: Files, after: Files, name: Name) {
    forall n: Name :: !n.Temporary? && n != name ==> SameAt(before, after, n)
  }

  /** `name` is as before, or holds all of `data`. */
  ghost predicate AllOrNothing(before: Files, after: Files, name: Name, data: Bytes) {
    && SameBut(before, after, name)
    && (SameAt(before, after, name) || (name in after && after[name] == Regular(data)))
  }

  ghost function Count(failed: bool): nat {
    if failed then 1 else 0
  }

  class FileSystem {
    var files: Files
    ghost var states: set<Files>
    ghost var faults: set<Name>     // files that are there but could not be examined
    ghost var failures: nat         // operations that failed, for whatever reason

    constructor (files: Files)
      ensures this.files == files && states == {files} && faults == {} && failures == 0
    {
      this.files := files;
      this.states := {files};
      faults, failures := {}, 0;
    }

    /** `os.ReadDir`: names, and what kind of entry each is. */
    method List() returns (names: Option<seq<Name>>, kinds: Files)
      modifies this`failures
      ensures kinds == files && failures == old(failures) + Count(names.None?)
      ensures names.Some? ==>
        (forall n :: n in names.value <==> n in files) &&
        (forall i, j :: 0 <= i < j < |names.value| ==> names.value[i] != names.value[j])
    {
      var ok: bool := *;
      kinds := files;
      if !ok {
        failures := failures + 1;
        return None, kinds;
      }
      var listed: seq<Name> := [];
      var rest := files.Keys;
      while rest != {}
        invariant forall n :: n in files <==> n in listed || n in rest
        invariant forall n :: n in listed ==> n !in rest
        invariant forall i, j :: 0 <= i < j < |listed| ==> listed[i] != listed[j]
        decreases rest
      {
        var n :| n in rest;
        rest := rest - {n};
        listed := listed + [n];
      }
      names := Some(listed);
    }

    /** `os.Remove`. */
    method Remove(name: Name) returns (r: Removal)
      modifies this`files, this`states, this`failures
      ensures failures == old(failures) + Count(r.Stuck?)
      ensures r.Removed? ==> name in old(files)
      ensures r.Missing? ==> name !in old(files)
      ensures files == if r.Removed? then old(files) - {name} else old(files)
      ensures states == old(states) + {files}
    {
      var works: bool := *;
      if !works {
        r := Stuck;
        failures := failures + 1;
      } else if name in files {
        files := files - {name};
        r := Removed;
      } else {
        r := Missing;
      }
      states := states + {files};
    }

    /** `os.ReadFile`. */
    method ReadFile(name: Name) returns (r: Reading)
      modifies this`failures
      ensures failures == old(failures) + Count(r.Unreadable?)
      ensures r.Data? ==> name in files && files[name] == Regular(r.data)
      ensures r.NoFile? ==> name !in files
    {
      var works: bool := *;
      if works && name !in files { return NoFile; }
      r := if works && files[name].Regular? then Data(files[name].data) else Unreadable;
      failures := failures + Count(r.Unreadable?);
    }

    /** `os.Lstat`: `None` when it fails, for whatever reason. */
    method Lstat(name: Name) returns (node: Option<Node>)
      modifies this`faults, this`failures
      ensures node.Some? ==> name in files && node.value == files[name]
      ensures faults == if node.None? && name in files then old(faults) + {name} else old(faults)
      ensures failures == old(failures) + Count(node.None? && name in files)
    {
      var works: bool := *;
      node := if works && name in files then Some(files[name]) else None;
      faults := if node.None? && name in files then faults + {name} else faults;
      failures := failures + Count(node.None? && name in files);
    }

    method Rename(from: Name, to: Name) returns (ok: bool)
      modifies this`files, this`states, this`failures
      ensures failures == old(failures) + Count(!ok)
      ensures ok ==> from in old(files) && files == (old(files) - {from})[to := old(files)[from]]
      ensures !ok ==> files == old(files)
      ensures states == old(states) + {files}
    {
      ok := *;
      ok := ok && from in files && !(to in files && files[to].Directory?);
      if ok {
        files := (files - {from})[to := files[from]];
      }
      failures := failures + Count(!ok);
      states := states + {files};
    }

    /** Writes byte by byte; a failure leaves what was written so far. */
    method Write(temporary: Name, data: Bytes) returns (ok: bool)
      requires temporary.Temporary? && temporary in files
      modifies this`files, this`states, this`failures
      ensures failures == old(failures) + Count(!ok)
      ensures temporary in files && (ok ==> files[temporary] == Regular(data))
      ensures Same(old(files), files)
      ensures forall d :: d in states ==> d in old(states) || Same(old(files), d)
    {
      files := files[temporary := Regular([])];
      states := states + {files};
      for i := 0 to |data|
        invariant temporary in files && files[temporary] == Regular(data[..i]) && failures == old(failures)
        invariant Same(old(files), files)
        invariant forall d :: d in states ==> d in old(states) || Same(old(files), d)
      {
        var works: bool := *;
        if !works {
          failures := failures + 1;
          return false;
        }
        assert data[..i] + [data[i]] == data[..i + 1];
        files := files[temporary := Regular(data[..i] + [data[i]])];
        states := states + {files};
      }
      assert data[..|data|] == data;
      ok := true;
    }

    /** `os.CreateTemp`. */
    method CreateTemp() returns (temporary: Option<Name>)
      modifies this`files, this`states, this`failures
      ensures failures == old(failures) + Count(temporary.None?)
      ensures temporary.Some? ==> temporary.value.Temporary? && temporary.value in files
      ensures Same(old(files), files)
      ensures states == old(states) + {files}
    {
      var suffix: string := *;
      var works: bool := *;
      if works && Temporary(suffix) !in files {
        files := files[Temporary(suffix) := Regular([])];
        temporary := Some(Temporary(suffix));
      } else {
        temporary := None;
        failures := failures + 1;
      }
      states := states + {files};
    }

    /** `writeAtomic`: at every moment `name` is what it was, or has all of `data`. */
    method WriteAtomic(name: Name, data: Bytes) returns (ok: bool)
      requires !name.Temporary?
      modifies this`files, this`states, this`failures
      ensures old(failures) + Count(!ok) <= failures
      ensures AllOrNothing(old(files), files, name, data)
      ensures if ok then name in files && files[name] == Regular(data) else Same(old(files), files)
      ensures forall d :: d in states ==> d in old(states) || AllOrNothing(old(files), d, name, data)
    {
      ok := false;
      var temporary := CreateTemp();
      if temporary.None? { return; }
      var secured: bool := *;       // chmod
      if secured {
        var written := Write(temporary.value, data);
        var durable: bool := *;     // sync and close
        if written && durable {
          ok := Rename(temporary.value, name);
        } else if written {
          failures := failures + 1;
        }
      } else {
        failures := failures + 1;
      }
      var _ := Remove(temporary.value);
    }
  }
}
