/** The local storage directories (internal/util/storage.go): `~/.vessel` and
    `~/.vessel/<app>`, each made by "stat, then mkdir if absent" over a
    filesystem whose failures (home directory lookup, stat errors other than
    "does not exist", mkdir errors) are given per path. */
module Storage {
  import opened Wrappers

  /** Permission bits `0750`. */
  const DirMode: nat := 0x1E8

  /** A path is a directory with a mode, or a file with a mode and contents. */
  datatype Node = Dir(mode: nat) | File(mode: nat, content: string)

  /** The faults the filesystem shows: stat errors other than "does not
      exist", and mkdir, write and remove errors, each with its message. */
  datatype Faults = Faults(stat: map<string, string>, mkdir: map<string, string>, write: map<string, string>,
                           remove: map<string, string>)

  /** The messages of one "ensure directory" step. */
  datatype DirMessages = DirMessages(notDir: string, mkdirFailed: string)

  const StorageMessages := DirMessages(
    "could not create directory ~/.vessel as a file with that name already exists",
    "could not create vessel directory: ")
  const AppMessages := DirMessages(
    "could not create vessel app directory as a file with that name already exists",
    "could not create vessel app directory: ")

  /** Stat `path`, then: a directory is returned as is; anything else that
      exists is an error; an absent path is created as a `0750` directory,
      unless mkdir fails; a stat failure is an error. */
  function EnsureDir(nodes: map<string, Node>, faults: Faults, path: string, msgs: DirMessages)
    : (r: (Result<string>, map<string, Node>))
    ensures r.0.Ok? ==> r.0.value == path && path in r.1 && r.1[path].Dir?
    ensures r.0.Err? ==> r.1 == nodes
    ensures r.1 == nodes || (path !in nodes && r.1 == nodes[path := Dir(DirMode)])
  {
    if path in faults.stat then (Err("stat error: " + faults.stat[path]), nodes)
    else if path in nodes && nodes[path].Dir? then (Ok(path), nodes)
    else if path in nodes then (Err(msgs.notDir), nodes)
    else if path in faults.mkdir then (Err(msgs.mkdirFailed + faults.mkdir[path]), nodes)
    else (Ok(path), nodes[path := Dir(DirMode)])
  }

  /** Each outcome of the stat decides the step: an existing directory
      changes nothing, an existing file is an error that changes nothing, and
      an absent path is created (exactly that one path, mode `0750`). */
  lemma EnsureDirCases(nodes: map<string, Node>, faults: Faults, path: string, msgs: DirMessages)
    requires path !in faults.stat
    ensures path in nodes && nodes[path].Dir? ==> EnsureDir(nodes, faults, path, msgs) == (Ok(path), nodes)
    ensures path in nodes && nodes[path].File? ==> EnsureDir(nodes, faults, path, msgs) == (Err(msgs.notDir), nodes)
    ensures path !in nodes && path !in faults.mkdir ==>
      && EnsureDir(nodes, faults, path, msgs) == (Ok(path), nodes[path := Dir(DirMode)])
      && (forall p :: p != path ==> (p in nodes <==> p in nodes[path := Dir(DirMode)]))
  {
  }

  /** A second step after a successful one returns the same path and changes
      nothing. */
  lemma EnsureDirIdempotent(nodes: map<string, Node>, faults: Faults, path: string, msgs: DirMessages)
    requires EnsureDir(nodes, faults, path, msgs).0.Ok?
    requires path !in faults.stat
    ensures var (r1, after) := EnsureDir(nodes, faults, path, msgs);
      EnsureDir(after, faults, path, msgs) == (r1, after)
  {
  }

  function StoragePath(home: string): string { home + "/.vessel" }

  function AppPath(storage: string, appName: string): string { storage + "/" + appName }

  /** `MakeStorageDir`: the home directory (an oracle) plus `/.vessel`. */
  function MakeStorageDirSpec(nodes: map<string, Node>, faults: Faults, home: Result<string>)
    : (Result<string>, map<string, Node>)
  {
    match home
    case Err(e) => (Err("could not find home dir: " + e), nodes)
    case Ok(h) => EnsureDir(nodes, faults, StoragePath(h), StorageMessages)
  }

  /** `MakeAppDir`: the storage directory, then `<storage>/<app>`. */
  function MakeAppDirSpec(nodes: map<string, Node>, faults: Faults, home: Result<string>, appName: string)
    : (Result<string>, map<string, Node>)
  {
    var (storage, afterStorage) := MakeStorageDirSpec(nodes, faults, home);
    if storage.Err? then (Err("could not create vessel storage dir: " + storage.error), afterStorage)
    else EnsureDir(afterStorage, faults, AppPath(storage.value, appName), AppMessages)
  }

  /** `MakeAppDir` fails without creating anything when `MakeStorageDir`
      fails; otherwise it makes at most the storage and app directories, and
      on success returns `<home>/.vessel/<app>`; what existed before is left
      as it was. */
  lemma MakeAppDirEffect(nodes: map<string, Node>, faults: Faults, home: Result<string>, appName: string)
    ensures var (r, after) := MakeAppDirSpec(nodes, faults, home, appName);
      && (MakeStorageDirSpec(nodes, faults, home).0.Err? ==> r.Err? && after == nodes)
      && (r.Ok? ==> home.Ok? && r.value == AppPath(StoragePath(home.value), appName)
                    && r.value in after && after[r.value].Dir?)
      && (forall p :: p in after && p !in nodes ==>
            home.Ok? && (p == StoragePath(home.value) || p == AppPath(StoragePath(home.value), appName)))
      && (forall p :: p in nodes ==> p in after && after[p] == nodes[p])
  {
  }

  /** A second `MakeAppDir` after a successful one (and with no stat fault on
      either path) returns the same path and changes nothing. */
  lemma MakeAppDirIdempotent(nodes: map<string, Node>, faults: Faults, home: Result<string>, appName: string)
    requires MakeAppDirSpec(nodes, faults, home, appName).0.Ok?
    requires home.Ok? ==> StoragePath(home.value) !in faults.stat
                          && AppPath(StoragePath(home.value), appName) !in faults.stat
    ensures var (r1, after) := MakeAppDirSpec(nodes, faults, home, appName);
      MakeAppDirSpec(after, faults, home, appName) == (r1, after)
  {
    var (storage, afterStorage) := MakeStorageDirSpec(nodes, faults, home);
    var (r1, after) := MakeAppDirSpec(nodes, faults, home, appName);
    EnsureDirIdempotent(nodes, faults, storage.value, StorageMessages);
    assert MakeStorageDirSpec(after, faults, home) == (storage, after);
    EnsureDirIdempotent(afterStorage, faults, AppPath(storage.value, appName), AppMessages);
  }

  /** `p` is `dir` itself or lies below it. */
  predicate Below(p: string, dir: string)
  {
    p == dir || dir + "/" <= p
  }

  /** `os.Remove`: a missing path, a directory that still has entries, or a
      remove fault is an error that changes nothing; otherwise exactly that
      path disappears. */
  function RemovePath(nodes: map<string, Node>, faults: Faults, path: string): (r: (Outcome, map<string, Node>))
    ensures r.0.Fail? ==> r.1 == nodes
    ensures r.0.Pass? ==> path in nodes && r.1 == nodes - {path}
    ensures path !in nodes || path in faults.remove ==> r.0.Fail?
  {
    if path !in nodes then (Fail("remove " + path + ": no such file or directory"), nodes)
    else if nodes[path].Dir? && exists p :: p in nodes && path + "/" <= p then
      (Fail("remove " + path + ": directory not empty"), nodes)
    else if path in faults.remove then (Fail(faults.remove[path]), nodes)
    else (Pass, nodes - {path})
  }

  /** `os.RemoveAll`: everything at or below `dir` disappears (nothing to
      remove is no error); a remove fault on `dir` is an error that changes
      nothing. */
  function RemoveTree(nodes: map<string, Node>, faults: Faults, dir: string): (r: (Outcome, map<string, Node>))
    ensures r.0.Fail? <==> dir in faults.remove
    ensures r.0.Fail? ==> r.1 == nodes
    ensures r.0.Pass? ==> forall p :: p in r.1 <==> p in nodes && !Below(p, dir)
    ensures forall p :: p in r.1 ==> p in nodes && r.1[p] == nodes[p]
  {
    if dir in faults.remove then (Fail(faults.remove[dir]), nodes)
    else (Pass, map p | p in nodes && !Below(p, dir) :: nodes[p])
  }

  /** The mode a write leaves at `path`: an existing file keeps its own mode
      (the permission argument applies only when the file is created), a new
      file gets `mode`. */
  function WrittenMode(nodes: map<string, Node>, path: string, mode: nat): nat
  {
    if path in nodes then nodes[path].mode else mode
  }

  /** `ioutil.WriteFile(path, content, mode)`: a directory at `path` cannot be
      opened for writing; otherwise an existing file is truncated and
      rewritten with its mode unchanged, an absent one is created with
      `mode`, and no other path changes. */
  function WriteFileSpec(nodes: map<string, Node>, faults: Faults, path: string, content: string, mode: nat)
    : (r: (Outcome, map<string, Node>))
    ensures r.0.Pass? <==> path !in faults.write && !(path in nodes && nodes[path].Dir?)
    ensures r.0.Fail? ==> r.1 == nodes
    ensures r.0.Pass? && path !in nodes ==> path in r.1 && r.1[path] == File(mode, content)
    ensures r.0.Pass? && path in nodes ==> path in r.1 && r.1[path] == nodes[path].(content := content)
    ensures r.0.Pass? ==> path in r.1 && r.1 == nodes[path := r.1[path]]
  {
    if path in nodes && nodes[path].Dir? then (Fail("open " + path + ": is a directory"), nodes)
    else if path in faults.write then (Fail(faults.write[path]), nodes)
    else (Pass, nodes[path := File(WrittenMode(nodes, path, mode), content)])
  }

  /** The local filesystem. */
  class FileSystem {
    var nodes: map<string, Node>
    const faults: Faults
    /** What `homedir.Dir()` gives. */
    const home: Result<string>

    constructor (nodes: map<string, Node>, faults: Faults, home: Result<string>)
      ensures this.nodes == nodes && this.faults == faults && this.home == home
    {
      this.nodes, this.faults, this.home := nodes, faults, home;
    }

    /** `os.Stat` then `os.Mkdir(path, 0750)` when the path does not exist. */
    method EnsureDirectory(path: string, msgs: DirMessages) returns (r: Result<string>)
      modifies this
      ensures (r, nodes) == EnsureDir(old(nodes), faults, path, msgs)
    {
      if path in faults.stat {
        return Err("stat error: " + faults.stat[path]);
      }
      if path in nodes {
        if nodes[path].Dir? {
          return Ok(path);
        }
        return Err(msgs.notDir);
      }
      if path in faults.mkdir {
        return Err(msgs.mkdirFailed + faults.mkdir[path]);
      }
      nodes := nodes[path := Dir(DirMode)];
      return Ok(path);
    }

    /** `MakeStorageDir`. */
    method MakeStorageDir() returns (r: Result<string>)
      modifies this
      ensures (r, nodes) == MakeStorageDirSpec(old(nodes), faults, home)
    {
      if home.Err? {
        return Err("could not find home dir: " + home.error);
      }
      r := EnsureDirectory(StoragePath(home.value), StorageMessages);
    }

    /** `MakeAppDir`. */
    method MakeAppDir(appName: string) returns (r: Result<string>)
      modifies this
      ensures (r, nodes) == MakeAppDirSpec(old(nodes), faults, home, appName)
    {
      var storage := MakeStorageDir();
      if storage.Err? {
        return Err("could not create vessel storage dir: " + storage.error);
      }
      r := EnsureDirectory(AppPath(storage.value, appName), AppMessages);
    }

    /** `os.Remove`. */
    method Remove(path: string) returns (r: Outcome)
      modifies this
      ensures (r, nodes) == RemovePath(old(nodes), faults, path)
    {
      if path !in nodes {
        return Fail("remove " + path + ": no such file or directory");
      }
      if nodes[path].Dir? && exists p :: p in nodes && path + "/" <= p {
        return Fail("remove " + path + ": directory not empty");
      }
      if path in faults.remove {
        return Fail(faults.remove[path]);
      }
      nodes := nodes - {path};
      return Pass;
    }

    /** `os.RemoveAll`. */
    method RemoveAll(dir: string) returns (r: Outcome)
      modifies this
      ensures (r, nodes) == RemoveTree(old(nodes), faults, dir)
    {
      if dir in faults.remove {
        return Fail(faults.remove[dir]);
      }
      nodes := map p | p in nodes && !Below(p, dir) :: nodes[p];
      return Pass;
    }

    /** `ioutil.WriteFile(path, content, mode)`. */
    method WriteFile(path: string, content: string, mode: nat) returns (r: Outcome)
      modifies this
      ensures (r, nodes) == WriteFileSpec(old(nodes), faults, path, content, mode)
    {
      if path in nodes && nodes[path].Dir? {
        return Fail("open " + path + ": is a directory");
      }
      if path in faults.write {
        return Fail(faults.write[path]);
      }
      var kept := if path in nodes then nodes[path].mode else mode;
      nodes := nodes[path := File(kept, content)];
      return Pass;
    }
  }
}
