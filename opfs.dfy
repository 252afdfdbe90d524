/** The snapshot store (`OPFSManager`): snapshots live as files `states/{id}.bin` in the
    origin-private file system, which every manager of the origin shares. */
module Storage {
  import opened Base
  import opened Text

  /** A handle in the origin-private file system: a file or a directory. */
  datatype Handle = File(data: Bytes) | Directory(children: map<string, Handle>)

  /** The subdirectory holding the snapshots, and the extension of their files. */
  const StatesDir: string := "states"
  const Extension: string := ".bin"

  /** The origin's private root directory (what `navigator.storage.getDirectory()` yields). */
  class OriginPrivateFS {
    var entries: map<string, Handle>

    constructor (entries: map<string, Handle>)
      ensures this.entries == entries
    {
      this.entries := entries;
    }
  }

  /** The file name a snapshot id is stored under. */
  function FileName(id: string): (f: string)
    ensures |f| == |id| + |Extension| && f[..|id|] == id && EndsWith(f, Extension)
  {
    id + Extension
  }

  /** `{id}.bin` names different files for different ids. */
  lemma FileNameInjective(id: string, id': string)
    requires FileName(id) == FileName(id')
    ensures id == id'
  {
    assert id == FileName(id)[..|id|];
    assert id' == FileName(id')[..|id'|];
  }

  /** Whether `{id}.bin` is a valid file name in the sense of the File System standard: a
      name that is neither empty nor "." nor ".." (which `{id}.bin` never is) and holds no
      '/'. `getFileHandle` rejects any other name with a TypeError. */
  predicate ValidName(id: string)
  {
    '/' !in id
  }

  /** `states` exists but is a file, so `getDirectoryHandle('states')` fails. */
  predicate StatesBlocked(root: map<string, Handle>)
  {
    StatesDir in root && root[StatesDir].File?
  }

  /** The children of `states`, when `states` exists and is a directory. */
  function States(root: map<string, Handle>): Option<map<string, Handle>>
  {
    if StatesDir in root && root[StatesDir].Directory? then Some(root[StatesDir].children) else None
  }

  /** The children of `states`, or none when `getDirectoryHandle('states', {create: true})`
      would have to create it. */
  function StatesOrEmpty(root: map<string, Handle>): map<string, Handle>
  {
    match States(root)
    case Some(dir) => dir
    case None => map[]
  }

  /** What `loadVMState(id)` yields: the bytes of file `states/{id}.bin`, or null when
      `states` or that file is missing or of the other kind. */
  function Load(root: map<string, Handle>, id: string): (r: Option<Bytes>)
    // A loadable snapshot is one `listStates` reports.
    ensures r.Some? ==> States(root).Some? && FileName(id) in StateFiles(States(root).value)
  {
    match States(root)
    case None => None
    case Some(dir) =>
      if ValidName(id) && FileName(id) in dir && dir[FileName(id)].File? then Some(dir[FileName(id)].data) else None
  }

  /** Whether the handles `saveVMState(id, _)` opens can be had: `states` is not a file,
      `{id}.bin` is a valid file name, and `states/{id}.bin` is not a directory. */
  predicate Writable(root: map<string, Handle>, id: string)
    // A path the save cannot open holds no snapshot either.
    ensures !Writable(root, id) ==> Load(root, id).None?
  {
    && !StatesBlocked(root)
    && ValidName(id)
    && (FileName(id) in StatesOrEmpty(root) ==> StatesOrEmpty(root)[FileName(id)].File?)
  }

  /** What `getDirectoryHandle('states', {create: true})` leaves: `states` created empty
      when it is missing, and the root as it was when `states` exists (or is a file). */
  function Opened(root: map<string, Handle>): (r: map<string, Handle>)
    ensures States(root).Some? || StatesBlocked(root) ==> r == root
    ensures !StatesBlocked(root) ==> States(r).Some? && States(r).value == StatesOrEmpty(root)
  {
    if StatesBlocked(root) then root else root[StatesDir := Directory(StatesOrEmpty(root))]
  }

  /** The root with `states/{id}.bin` set to `h`, `states` created when missing. */
  function Put(root: map<string, Handle>, id: string, h: Handle): (r: map<string, Handle>)
    ensures r.Keys == root.Keys + {StatesDir}
    ensures forall n :: n in root && n != StatesDir ==> r[n] == root[n]
    ensures States(r).Some? && FileName(id) in States(r).value && States(r).value[FileName(id)] == h
  {
    root[StatesDir := Directory(StatesOrEmpty(root)[FileName(id) := h])]
  }

  /** What a save whose write fails leaves: both handles are opened with `create: true`
      first, so `states` and an empty `{id}.bin` exist; a file already there keeps its bytes. */
  function Touched(root: map<string, Handle>, id: string): (r: map<string, Handle>)
    ensures Writable(root, id) ==> Load(r, id).Some?
    ensures Load(root, id).Some? ==> Load(r, id) == Load(root, id)
  {
    var dir := StatesOrEmpty(root);
    Put(root, id, if FileName(id) in dir then dir[FileName(id)] else File([]))
  }

  /** Whether `removeEntry('{id}.bin')` succeeds: the entry exists and is a file or an
      empty directory. */
  predicate Removable(root: map<string, Handle>, id: string)
    ensures Load(root, id).Some? ==> Removable(root, id)
    ensures Removable(root, id) ==> States(root).Some?
  {
    match States(root)
    case None => false
    case Some(dir) =>
      ValidName(id) && FileName(id) in dir && (dir[FileName(id)].File? || dir[FileName(id)].children == map[])
  }

  /** The root after `removeEntry('{id}.bin')` succeeded. */
  function Removed(root: map<string, Handle>, id: string): (r: map<string, Handle>)
    ensures r.Keys == root.Keys + {StatesDir}
    ensures forall n :: n in root && n != StatesDir ==> r[n] == root[n]
    ensures Load(r, id).None?
  {
    root[StatesDir := Directory(StatesOrEmpty(root) - {FileName(id)})]
  }

  /** The entries `listStates` reports: files whose names end in `.bin`. */
  function StateFiles(dir: map<string, Handle>): set<string>
  {
    set n | n in dir && dir[n].File? && EndsWith(n, Extension)
  }

  /** `name.replace('.bin', '')`: the FIRST `.bin` is removed, wherever it is. */
  function ListedName(name: string): string
  {
    ReplaceFirst(name, Extension, "")
  }

  /** The names `listStates` reports for the files among `names`. */
  function ListedNames(dir: map<string, Handle>, names: set<string>): set<string>
  {
    set n | n in StateFiles(dir) * names :: ListedName(n)
  }

  /** Visiting one more entry adds one `.bin` file exactly when it is one. */
  lemma StateFilesStep(dir: map<string, Handle>, visited: set<string>, name: string)
    requires name !in visited
    ensures StateFiles(dir) * (visited + {name}) ==
              StateFiles(dir) * visited + (if name in StateFiles(dir) then {name} else {})
    ensures |StateFiles(dir) * (visited + {name})| ==
              |StateFiles(dir) * visited| + (if name in StateFiles(dir) then 1 else 0)
  {
    var files := StateFiles(dir);
    if name in files {
      assert files * (visited + {name}) == files * visited + {name};
    } else {
      assert files * (visited + {name}) == files * visited;
    }
  }

  /** Visiting one more entry adds its listed name exactly when it is a `.bin` file. */
  lemma ListedNamesStep(dir: map<string, Handle>, visited: set<string>, name: string)
    requires name !in visited
    ensures |StateFiles(dir) * (visited + {name})| ==
              |StateFiles(dir) * visited| + (if name in StateFiles(dir) then 1 else 0)
    ensures ListedNames(dir, visited + {name}) ==
              ListedNames(dir, visited) + (if name in StateFiles(dir) then {ListedName(name)} else {})
  {
    StateFilesStep(dir, visited, name);
    var grown := ListedNames(dir, visited + {name});
    var extra: set<string> := if name in StateFiles(dir) then {ListedName(name)} else {};
    forall n | n in grown ensures n in ListedNames(dir, visited) + extra {
      var f :| f in StateFiles(dir) * (visited + {name}) && ListedName(f) == n;
      if f != name {
        assert f in StateFiles(dir) * visited;
      }
    }
    forall n | n in ListedNames(dir, visited) + extra ensures n in grown {
      if n in extra {
        assert name in StateFiles(dir) * (visited + {name});
      } else {
        var f :| f in StateFiles(dir) * visited && ListedName(f) == n;
        assert f in StateFiles(dir) * (visited + {name});
      }
    }
  }

  // ---- Laws of the store ----

  /** A saved snapshot loads back byte for byte, whatever was stored before (overwrite). */
  lemma LoadAfterPut(root: map<string, Handle>, id: string, state: Bytes)
    requires ValidName(id)
    ensures Load(Put(root, id, File(state)), id) == Some(state)
  {
  }

  /** Saving one id leaves what every other id loads untouched. */
  lemma PutLeavesOthers(root: map<string, Handle>, id: string, other: string, h: Handle)
    requires other != id
    ensures Load(Put(root, id, h), other) == Load(root, other)
  {
    if FileName(other) == FileName(id) {
      FileNameInjective(other, id);
    }
  }

  /** A stored snapshot is always removable, so delete reports true exactly for it; after a
      removal the id loads as null and a second removal reports false. */
  lemma DeleteLaws(root: map<string, Handle>, id: string)
    ensures Load(root, id).Some? ==> Removable(root, id)
    ensures Removable(root, id) ==> Load(Removed(root, id), id) == None
    ensures Removable(root, id) ==> !Removable(Removed(root, id), id)
    ensures !Removable(root, id) ==>
              !ValidName(id) || FileName(id) !in StatesOrEmpty(root) || StatesOrEmpty(root)[FileName(id)].Directory?
  {
  }

  /** Removing one id leaves what every other id loads untouched. */
  lemma RemovedLeavesOthers(root: map<string, Handle>, id: string, other: string)
    requires other != id
    ensures Load(Removed(root, id), other) == Load(root, other)
  {
    if FileName(other) == FileName(id) {
      FileNameInjective(other, id);
    }
  }

  /** An id holding '/' names no valid file: it is never stored, saved or removed. */
  lemma SlashIdNeverStored(root: map<string, Handle>, id: string)
    requires '/' in id
    ensures Load(root, id).None? && !Writable(root, id) && !Removable(root, id)
  {
  }

  /** An empty file left by a failed write loads as an empty snapshot, not as null. */
  lemma TouchedLoadsEmpty(root: map<string, Handle>, id: string)
    requires Writable(root, id) && Load(root, id) == None
    ensures Load(Touched(root, id), id) == Some([])
  {
  }

  // ---- What listStates makes of a saved id ----

  /** `w` is `.bin` repeated zero or more times. */
  predicate BinRun(w: string)
    decreases |w|
  {
    |w| == 0 || (|w| >= 4 && w[..4] == Extension && BinRun(w[4..]))
  }

  /** No `.bin` of `id + ".bin"` straddles the end of `id`: '.' is only its first character. */
  lemma NoStraddle(id: string, k: nat)
    requires k < |id| < k + 4
    ensures !OccursAt(FileName(id), Extension, k)
  {
    var s := FileName(id);
    assert s[|id|] == '.';
    if k + 4 <= |s| {
      assert s[k..k + 4][|id| - k] == s[|id|];
      assert Extension[|id| - k] != '.';
    }
  }

  /** Before the end of `id`, `id + ".bin"` and `id` have the same occurrences of `.bin`. */
  lemma OccursInFileName(id: string, k: nat)
    requires k < |id|
    ensures OccursAt(FileName(id), Extension, k) <==> OccursAt(id, Extension, k)
  {
    if k + 4 <= |id| {
      assert FileName(id)[k..k + 4] == id[k..k + 4];
    } else {
      NoStraddle(id, k);
    }
  }

  /** The first `.bin` of `id + ".bin"` is the first one of `id`, or the appended one. */
  lemma FindInFileName(id: string)
    ensures Find(FileName(id), Extension) ==
              (if Find(id, Extension).Some? then Find(id, Extension) else Some(|id|))
  {
    match Find(id, Extension)
    case Some(j) => FindInFileNameFirst(id, j);
    case None => FindInFileNameAppended(id);
  }

  lemma FindInFileNameFirst(id: string, j: nat)
    requires Find(id, Extension) == Some(j)
    ensures Find(FileName(id), Extension) == Some(j)
  {
    OccursInFileName(id, j);
    NoEarlierInFileName(id, j);
    FindFirst(FileName(id), Extension, j);
  }

  lemma FindInFileNameAppended(id: string)
    requires Find(id, Extension).None?
    ensures Find(FileName(id), Extension) == Some(|id|)
  {
    ExtensionAtEnd(id);
    NoEarlierInFileName(id, |id|);
    FindFirst(FileName(id), Extension, |id|);
  }

  /** The appended `.bin` occurs at the end of `id`. */
  lemma ExtensionAtEnd(id: string)
    ensures OccursAt(FileName(id), Extension, |id|)
  {
    assert FileName(id)[|id|..|id| + 4] == Extension;
  }

  /** Positions of `id` before `n` without `.bin` in `id` have none in `id + ".bin"` either. */
  lemma NoEarlierInFileName(id: string, n: nat)
    requires n <= |id|
    requires forall k: nat :: k < n ==> !OccursAt(id, Extension, k)
    ensures forall k: nat :: k < n ==> !OccursAt(FileName(id), Extension, k)
  {
    forall k: nat | k < n
      ensures !OccursAt(FileName(id), Extension, k)
    {
      OccursInFileName(id, k);
    }
  }

  /** `.bin` commutes with any run of `.bin`. */
  lemma {:induction false} BinRunCommutes(w: string)
    requires BinRun(w)
    ensures Extension + w == w + Extension
  {
    if |w| > 0 {
      var u := w[4..];
      assert w == Extension + u;
      BinRunCommutes(u);
      calc {
        Extension + w;
        Extension + (Extension + u);
        Extension + (u + Extension);
        (Extension + u) + Extension;
        w + Extension;
      }
    }
  }

  /** A string of one to three characters does not commute with `.bin`. */
  lemma ShortDoesNotCommute(u: string)
    requires 0 < |u| < 4
    ensures Extension + u != u + Extension
  {
    assert (u + Extension)[|u|] == '.';
    assert (Extension + u)[|u|] == Extension[|u|];
  }

  /** A string starting with `.bin` survives losing its first `.bin` and gaining one at the
      end exactly when it is a run of `.bin`. */
  lemma {:induction false} BinRunShift(w: string)
    requires |w| >= 4 && w[..4] == Extension
    ensures w == w[4..] + Extension <==> BinRun(w)
    decreases |w|
  {
    var u := w[4..];
    assert w == Extension + u;
    if BinRun(w) {
      BinRunCommutes(u);
    }
    if w == u + Extension && |u| > 0 {
      if |u| < 4 {
        ShortDoesNotCommute(u);
        assert false;
      }
      assert u[..4] == (u + Extension)[..4];
      assert u == u[4..] + Extension by {
        assert (Extension + u)[4..] == u;
        assert (u + Extension)[4..] == u[4..] + Extension;
      }
      BinRunShift(u);
    }
  }

  /** Removing the first `.bin` found at position `k`. */
  lemma ListedNameAt(s: string, k: nat)
    requires Find(s, Extension) == Some(k)
    ensures ListedName(s) == s[..k] + s[k + 4..]
  {
    assert ListedName(s) == s[..k] + "" + s[k + |Extension|..];
  }

  /** With its first `.bin` at `k`, an id comes back as itself exactly when everything from
      `k` on is a run of `.bin`. */
  lemma ListedNameWithBin(id: string, k: nat)
    requires Find(id, Extension) == Some(k)
    ensures ListedName(FileName(id)) == id <==> BinRun(id[k..])
  {
    var w := id[k..];
    FindInFileNameFirst(id, k);
    ListedNameAt(FileName(id), k);
    FileNameAround(id, k);
    PrefixCancel(id[..k], w[4..] + Extension, w);
    BinRunShift(w);
  }

  /** The pieces of `{id}.bin` on either side of a `.bin` at `k` inside the id. */
  lemma FileNameAround(id: string, k: nat)
    requires OccursAt(id, Extension, k)
    ensures FileName(id)[..k] + FileName(id)[k + 4..] == id[..k] + (id[k..][4..] + Extension)
    ensures id == id[..k] + id[k..] && id[k..][..4] == Extension
  {
    var s := FileName(id);
    assert s[..k] == id[..k];
    assert s[k + 4..] == id[k..][4..] + Extension;
  }

  /** A common prefix can be cancelled. */
  lemma PrefixCancel(p: string, a: string, b: string)
    ensures p + a == p + b <==> a == b
  {
    if p + a == p + b {
      assert a == (p + a)[|p|..];
      assert b == (p + b)[|p|..];
    }
  }

  /** An id comes back from `listStates` as itself exactly when it holds no `.bin`, or
      when everything from its first `.bin` on is a run of `.bin` ("x.bin" comes back,
      ".binx" comes back as "x.bin"). */
  lemma ListedNameRoundTrip(id: string)
    ensures ListedName(FileName(id)) == id <==>
              (Find(id, Extension).None? || BinRun(id[Find(id, Extension).value..]))
  {
    match Find(id, Extension)
    case None =>
      FindInFileName(id);
      ListedNameAt(FileName(id), |id|);
      assert FileName(id)[..|id|] == id;
    case Some(k) =>
      ListedNameWithBin(id, k);
  }

  /** In particular an id without `.bin` always comes back as itself. */
  lemma ListedNamePlainId(id: string)
    requires Find(id, Extension).None?
    ensures ListedName(FileName(id)) == id
  {
    ListedNameRoundTrip(id);
  }

  /** And an id whose `.bin` is not at its end comes back as another name. */
  lemma ListedNameMangles()
    ensures ListedName(FileName(".binx")) == "x.bin"
  {
    assert Find(".binx.bin", Extension) == Some(0) by {
      assert ".binx.bin"[..4] == Extension;
    }
  }

  /** A file `saveVMState` writes is always one `listStates` reports. */
  lemma PutIsListed(root: map<string, Handle>, id: string, state: Bytes)
    ensures ListedName(FileName(id)) in ListedNames(StatesOrEmpty(Put(root, id, File(state))), StatesOrEmpty(Put(root, id, File(state))).Keys)
  {
    var dir := StatesOrEmpty(Put(root, id, File(state)));
    assert EndsWith(FileName(id), Extension) by {
      assert FileName(id)[|FileName(id)| - 4..] == Extension;
    }
    assert FileName(id) in StateFiles(dir) * dir.Keys;
  }

  /** The storage estimate, with either figure possibly undefined. */
  datatype StorageEstimate = StorageEstimate(usage: Option<nat>, quota: Option<nat>)

  /** The usage and quota `getQuota` reports. */
  datatype Quota = Quota(usage: nat, quota: nat)

  /** `getQuota`: a missing figure is reported as 0, a present one as it is. */
  function GetQuota(estimate: StorageEstimate): (q: Quota)
    ensures estimate.usage.None? ==> q.usage == 0
    ensures estimate.quota.None? ==> q.quota == 0
    ensures estimate.usage.Some? ==> q.usage == estimate.usage.value
    ensures estimate.quota.Some? ==> q.quota == estimate.quota.value
  {
    Quota(if estimate.usage.Some? then estimate.usage.value else 0,
          if estimate.quota.Some? then estimate.quota.value else 0)
  }

  class OPFSManager {
    var root: OriginPrivateFS?

    constructor ()
      ensures root == null
    {
      root := null;
    }

    /** `init()`: take hold of the origin's private root; `fs` is null when the browser
        refuses it, and then the root held before stays. Calling it again is harmless. */
    method Init(fs: OriginPrivateFS?) returns (r: Outcome)
      modifies this
      ensures fs == null ==> r == Fail(StorageUnavailable) && root == old(root)
      ensures fs != null ==> r == Pass && root == fs
    {
      if fs == null {
        return Fail(StorageUnavailable);
      }
      root := fs;
      r := Pass;
    }

    /** `ensureInit()`: the root, or "not initialized" until `init` has succeeded once. */
    function EnsureInit(): (r: Result<OriginPrivateFS>)
      reads this
      ensures r.Failure? <==> root == null
      ensures r.Failure? ==> r.error == NotInitialized
      ensures r.Success? ==> r.value == root
    {
      if root == null then Failure(NotInitialized) else Success(root)
    }

    /** `saveVMState(id, state)`: open (creating) `states` and `{id}.bin`, write the
        snapshot, return its logical path. A name that is not a valid file name fails once
        `states` has been created. */
    method SaveVMState(id: string, state: Bytes, writeFails: bool) returns (r: Result<string>)
      modifies root
      ensures root == null ==> r == Failure(NotInitialized)
      ensures root != null && !Writable(old(root.entries), id) ==>
                && r == Failure(if StatesBlocked(old(root.entries)) || ValidName(id) then TypeMismatch else InvalidName)
                && root.entries == Opened(old(root.entries))
      ensures root != null && !Writable(old(root.entries), id) && ValidName(id) ==>
                root.entries == old(root.entries)
      ensures root != null && Writable(old(root.entries), id) && writeFails ==>
                r == Failure(WriteFailed) && root.entries == Touched(old(root.entries), id)
      ensures root != null && Writable(old(root.entries), id) && !writeFails ==>
                r == Success(StatesDir + "/" + id + Extension) &&
                root.entries == Put(old(root.entries), id, File(state))
    {
      var init := EnsureInit();
      if init.Failure? {
        return Failure(init.error);
      }
      var fs := init.value;
      var path := StatesDir + "/" + id + Extension;
      // root.getDirectoryHandle('states', { create: true })
      var dir: map<string, Handle>;
      if StatesDir in fs.entries {
        if fs.entries[StatesDir].File? {
          return Failure(TypeMismatch);
        }
        dir := fs.entries[StatesDir].children;
      } else {
        dir := map[];
      }
      ghost var before := fs.entries;
      assert dir == StatesOrEmpty(before);
      // dir.getFileHandle('{id}.bin', { create: true })
      if !ValidName(id) {
        fs.entries := fs.entries[StatesDir := Directory(dir)];
        return Failure(InvalidName);
      }
      var name := FileName(id);
      if name in dir && dir[name].Directory? {
        return Failure(TypeMismatch);
      }
      if name !in dir {
        dir := dir[name := File([])];
      } else {
        assert dir == dir[name := dir[name]];
      }
      fs.entries := fs.entries[StatesDir := Directory(dir)];
      assert fs.entries == Touched(before, id);
      // createWritable(), write(state), close()
      if writeFails {
        return Failure(WriteFailed);
      }
      dir := dir[name := File(state)];
      assert dir == StatesOrEmpty(before)[name := File(state)];
      fs.entries := fs.entries[StatesDir := Directory(dir)];
      assert fs.entries == before[StatesDir := Directory(dir)];
      r := Success(path);
    }

    /** `loadVMState(id)`: the stored bytes, or null when anything on the way is missing. */
    method LoadVMState(id: string) returns (r: Result<Option<Bytes>>)
      ensures root == null ==> r == Failure(NotInitialized)
      ensures root != null ==> r == Success(Load(root.entries, id))
    {
      var init := EnsureInit();
      if init.Failure? {
        return Failure(init.error);
      }
      var fs := init.value;
      if StatesDir !in fs.entries || !fs.entries[StatesDir].Directory? {
        return Success(None);
      }
      var dir := fs.entries[StatesDir].children;
      var name := FileName(id);
      if !ValidName(id) || name !in dir || !dir[name].File? {
        return Success(None);
      }
      r := Success(Some(dir[name].data));
    }

    /** `deleteVMState(id)`: true when the entry was removed, false when anything failed. */
    method DeleteVMState(id: string) returns (r: Result<bool>)
      modifies root
      ensures root == null ==> r == Failure(NotInitialized)
      ensures root != null ==>
                r == Success(Removable(old(root.entries), id)) &&
                root.entries == (if Removable(old(root.entries), id) then Removed(old(root.entries), id)
                                 else old(root.entries))
    {
      var init := EnsureInit();
      if init.Failure? {
        return Failure(init.error);
      }
      var fs := init.value;
      if StatesDir !in fs.entries || !fs.entries[StatesDir].Directory? {
        return Success(false);
      }
      var dir := fs.entries[StatesDir].children;
      var name := FileName(id);
      if !ValidName(id) || name !in dir {
        return Success(false);
      }
      if dir[name].Directory? && dir[name].children != map[] {
        return Success(false);
      }
      fs.entries := fs.entries[StatesDir := Directory(dir - {name})];
      r := Success(true);
    }

    /** `listStates()`: one name per `.bin` file in `states`, in the directory's own
        (unspecified) order; an empty list when `states` is missing. */
    method ListStates() returns (r: Result<seq<string>>)
      ensures root == null ==> r == Failure(NotInitialized)
      ensures root != null && States(root.entries).None? ==> r == Success([])
      ensures root != null && States(root.entries).Some? ==>
                var dir := States(root.entries).value;
                && r.Success?
                && |r.value| == |StateFiles(dir)|
                && (forall n :: n in r.value <==> n in ListedNames(dir, dir.Keys))
    {
      var init := EnsureInit();
      if init.Failure? {
        return Failure(init.error);
      }
      var fs := init.value;
      if StatesDir !in fs.entries || !fs.entries[StatesDir].Directory? {
        return Success([]);
      }
      var dir := fs.entries[StatesDir].children;
      var names: seq<string> := [];
      var remaining := dir.Keys;
      ghost var visited: set<string> := {};
      while remaining != {}
        invariant remaining + visited == dir.Keys && remaining !! visited
        invariant |names| == |StateFiles(dir) * visited|
        invariant forall n :: n in names <==> n in ListedNames(dir, visited)
        decreases remaining
      {
        var name :| name in remaining;
        ListedNamesStep(dir, visited, name);
        if dir[name].File? && EndsWith(name, Extension) {
          names := names + [ListedName(name)];
        }
        remaining := remaining - {name};
        visited := visited + {name};
      }
      assert StateFiles(dir) * visited == StateFiles(dir);
      r := Success(names);
    }
  }
}
