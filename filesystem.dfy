/**
 * An in-memory filesystem standing for `fs.mkdirSync(p, { recursive: true })`
 * and `fs.writeFileSync(p, content)`, and the two `forEach` loops both
 * generators run over their planned folders and files.
 */
module FileSystem {
  import opened Layout

  /** `writeFileSync` can create `p` only when its parent directory exists. */
  predicate Writable(dirs: set<Path>, p: Path)
  {
    p != [] && Parent(p) in dirs
  }

  /** The directories that creating each of `folders` below `base`, in order, brings into existence. */
  function DirsCreated(base: Path, folders: seq<Path>): set<Path>
  {
    if folders == [] then {}
    else DirsCreated(base, folders[..|folders| - 1]) + Prefixes(base + folders[|folders| - 1])
  }

  /** The absolute destinations of planned writes below `base`. */
  function Targets(base: Path, es: seq<FileEntry>): set<Path>
  {
    set e | e in es :: base + e.rel
  }

  /**
   * The file map after writing each entry of `es` below `base`, in order:
   * every destination is present, and every other file keeps its content.
   */
  function ApplyWrites(files: map<Path, Content>, base: Path, es: seq<FileEntry>): (r: map<Path, Content>)
    ensures r.Keys == files.Keys + Targets(base, es)
    ensures forall p :: p in files && p !in Targets(base, es) ==> r[p] == files[p]
  {
    if es == [] then files
    else
      var last := es[|es| - 1];
      assert Targets(base, es) == Targets(base, es[..|es| - 1]) + {base + last.rel} by {
        assert es == es[..|es| - 1] + [last];
      }
      ApplyWrites(files, base, es[..|es| - 1])[base + last.rel := last.content]
  }

  lemma PrefixesClosed(p: Path)
    ensures forall d, k :: d in Prefixes(p) && 0 <= k <= |d| ==> d[..k] in Prefixes(p)
  {
    forall d, k | d in Prefixes(p) && 0 <= k <= |d|
      ensures d[..k] in Prefixes(p)
    {
      var j :| 0 <= j <= |p| && d == p[..j];
      assert d[..k] == p[..k];
    }
  }

  lemma {:induction false} DistinctTargets(base: Path, es: seq<FileEntry>, i: int, j: int)
    requires DistinctPaths(es) && 0 <= i < |es| && 0 <= j < |es| && i != j
    ensures base + es[i].rel != base + es[j].rel
  {
    assert (base + es[i].rel)[|base|..] == es[i].rel;
    assert (base + es[j].rel)[|base|..] == es[j].rel;
  }

  /** With distinct destinations, each planned path ends up holding exactly its planned content. */
  lemma {:induction false} ApplyWritesAt(files: map<Path, Content>, base: Path, es: seq<FileEntry>, j: int)
    requires DistinctPaths(es) && 0 <= j < |es|
    ensures base + es[j].rel in ApplyWrites(files, base, es)
    ensures ApplyWrites(files, base, es)[base + es[j].rel] == es[j].content
  {
    var n := |es| - 1;
    if j < n {
      var init := es[..n];
      assert DistinctPaths(init) by {
        forall a, b | 0 <= a < b < |init| ensures init[a].rel != init[b].rel {
          assert init[a] == es[a] && init[b] == es[b];
        }
      }
      ApplyWritesAt(files, base, init, j);
      DistinctTargets(base, es, j, n);
      assert init[j] == es[j];
    }
  }

  /** Every entry of a plan with distinct destinations ends up holding its planned content. */
  lemma ApplyWritesAll(files: map<Path, Content>, base: Path, es: seq<FileEntry>)
    requires DistinctPaths(es)
    ensures forall e :: e in es ==>
      base + e.rel in ApplyWrites(files, base, es) && ApplyWrites(files, base, es)[base + e.rel] == e.content
  {
    forall e | e in es
      ensures base + e.rel in ApplyWrites(files, base, es) && ApplyWrites(files, base, es)[base + e.rel] == e.content
    {
      var j :| 0 <= j < |es| && es[j] == e;
      ApplyWritesAt(files, base, es, j);
    }
  }

  /** What a planned destination ends up holding depends only on the plan, not on what was there before. */
  lemma {:induction false} ApplyWritesOverwrite(f: map<Path, Content>, g: map<Path, Content>, base: Path, es: seq<FileEntry>, p: Path)
    requires p in Targets(base, es)
    ensures ApplyWrites(f, base, es)[p] == ApplyWrites(g, base, es)[p]
  {
    var n := |es| - 1;
    if p != base + es[n].rel {
      assert es == es[..n] + [es[n]];
      ApplyWritesOverwrite(f, g, base, es[..n], p);
    }
  }

  /** Running the same writes a second time changes no file: re-generation is idempotent. */
  lemma ApplyWritesIdempotent(files: map<Path, Content>, base: Path, es: seq<FileEntry>)
    ensures ApplyWrites(ApplyWrites(files, base, es), base, es) == ApplyWrites(files, base, es)
  {
    var once := ApplyWrites(files, base, es);
    var twice := ApplyWrites(once, base, es);
    forall p | p in twice ensures twice[p] == once[p] {
      if p in Targets(base, es) {
        ApplyWritesOverwrite(once, files, base, es, p);
      }
    }
  }

  lemma {:induction false} PrefixesCreated(base: Path, folders: seq<Path>, f: Path)
    requires f in folders
    ensures Prefixes(base + f) <= DirsCreated(base, folders)
  {
    var n := |folders| - 1;
    if f != folders[n] {
      assert folders == folders[..n] + [folders[n]];
      PrefixesCreated(base, folders[..n], f);
    }
  }

  /** A directory the folder list creates relative to `base` exists below `base` after the folder loop. */
  lemma ClosureCreated(base: Path, folders: seq<Path>, p: Path)
    requires p in Closure(folders)
    ensures base + p in DirsCreated(base, folders)
  {
    var f, k :| f in folders && 0 <= k <= |f| && p == f[..k];
    PrefixesCreated(base, folders, f);
    assert (base + f)[..|base| + k] == base + p;
  }

  /**
   * If every planned write lands in the destination or a planned folder,
   * then after the folder loop under `base` every planned write can succeed.
   */
  lemma PlannedParentsExist(base: Path, folders: seq<Path>, es: seq<FileEntry>, dirs: set<Path>)
    requires ParentsPlanned(es, folders)
    requires DirsCreated(base, folders) <= dirs
    ensures forall e :: e in es ==> Writable(dirs, base + e.rel)
  {
    forall e | e in es ensures Writable(dirs, base + e.rel) {
      ClosureCreated(base, folders, Parent(e.rel));
      assert Parent(base + e.rel) == base + Parent(e.rel);
    }
  }

  class MemFs {
    var dirs: set<Path>
    var files: map<Path, Content>

    /** Directories form a tree (every prefix of a directory is one), and every file sits in a directory. */
    ghost predicate Valid()
      reads this
    {
      && (forall d, k :: d in dirs && 0 <= k <= |d| ==> d[..k] in dirs)
      && (forall p :: p in files ==> Writable(dirs, p))
    }

    /** A filesystem holding only the working directory and its ancestors. */
    constructor (cwd: Path)
      ensures Valid()
      ensures dirs == Prefixes(cwd) && files == map[]
    {
      dirs := Prefixes(cwd);
      files := map[];
      PrefixesClosed(cwd);
    }

    /** `mkdirSync(p, { recursive: true })`: creates `p` and every missing ancestor; an existing directory is no error. */
    method Mkdir(p: Path)
      requires Valid()
      modifies this
      ensures Valid()
      ensures dirs == old(dirs) + Prefixes(p)
      ensures files == old(files)
    {
      PrefixesClosed(p);
      dirs := dirs + Prefixes(p);
    }

    /** `writeFileSync(p, c)`: stores `c` at `p`, or fails (ENOENT) when the parent directory is missing. */
    method WriteFile(p: Path, c: Content) returns (ok: bool)
      requires Valid()
      modifies this
      ensures Valid()
      ensures ok == Writable(old(dirs), p)
      ensures dirs == old(dirs)
      ensures files == if ok then old(files)[p := c] else old(files)
    {
      ok := p != [] && Parent(p) in dirs;
      if ok {
        files := files[p := c];
      }
    }

    /** `foldersToCreate.forEach(folder => createFolder(...folder))` with every folder below `base`. */
    method CreateFolders(base: Path, folders: seq<Path>)
      requires Valid()
      modifies this
      ensures Valid()
      ensures dirs == old(dirs) + DirsCreated(base, folders)
      ensures files == old(files)
    {
      var i := 0;
      while i < |folders|
        invariant 0 <= i <= |folders|
        invariant Valid()
        invariant dirs == old(dirs) + DirsCreated(base, folders[..i])
        invariant files == old(files)
      {
        Mkdir(base + folders[i]);
        assert folders[..i + 1][..i] == folders[..i];
        i := i + 1;
      }
      assert folders[..i] == folders;
    }

    /**
     * `fileData.forEach(file => createFile(...))` with every entry below
     * `base`. The first write that throws ends the loop: `written` entries
     * were stored, and `failure` names the path that could not be written.
     */
    method CreateFiles(base: Path, es: seq<FileEntry>) returns (written: nat, failure: Option<Path>)
      requires Valid()
      modifies this
      ensures Valid()
      ensures dirs == old(dirs)
      ensures written <= |es|
      ensures forall j :: 0 <= j < written ==> Writable(dirs, base + es[j].rel)
      ensures failure == if written == |es| then None else Some(base + es[written].rel)
      ensures written < |es| ==> !Writable(dirs, base + es[written].rel)
      ensures files == ApplyWrites(old(files), base, es[..written])
    {
      var i := 0;
      while i < |es|
        invariant 0 <= i <= |es|
        invariant Valid()
        invariant dirs == old(dirs)
        invariant forall j :: 0 <= j < i ==> Writable(dirs, base + es[j].rel)
        invariant files == ApplyWrites(old(files), base, es[..i])
      {
        var ok := WriteFile(base + es[i].rel, es[i].content);
        if !ok {
          return i, Some(base + es[i].rel);
        }
        assert es[..i + 1][..i] == es[..i];
        i := i + 1;
      }
      return i, None;
    }
  }
}
