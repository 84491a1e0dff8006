/**
 * Values shared by both generations of the scaffolder's layout planner:
 * paths as sequences of segments, parsed JSON manifests, planned file
 * entries and the read-only store of template files.
 */
module Layout {

  datatype Option<+T> = None | Some(value: T)

  datatype Result<+T, +E> = Success(value: T) | Failure(error: E)

  /** A path as its segments; `[]` is the filesystem root. */
  type Path = seq<string>

  /** A value produced by `JSON.parse`. */
  datatype JsonValue =
    | JNull
    | JBool(b: bool)
    | JNumber(n: int)
    | JString(s: string)
    | JArray(items: seq<JsonValue>)
    | JObject(fields: map<string, JsonValue>)

  /** What a written file holds: text, or a JSON value as `JSON.stringify(v, null, 4)` prints it. */
  datatype Content = Text(text: string) | Json(value: JsonValue)

  /** One planned write: where, relative to the destination directory, and what. */
  datatype FileEntry = FileEntry(rel: Path, content: Content)

  /**
   * The template files a generator reads, keyed by their path below the
   * directory it reads templates from. Their bodies are opaque; JSON
   * templates come back already parsed.
   */
  datatype TemplateStore = TemplateStore(text: Path -> string, json: Path -> map<string, JsonValue>)

  function Parent(p: Path): Path
    requires p != []
  {
    p[..|p| - 1]
  }

  /** Proof helper: the parent of a short path, segment by segment. */
  lemma ParentOfPath(p: Path)
    requires 1 <= |p| <= 4
    ensures |p| == 1 ==> Parent(p) == []
    ensures |p| == 2 ==> Parent(p) == [p[0]]
    ensures |p| == 3 ==> Parent(p) == [p[0], p[1]]
    ensures |p| == 4 ==> Parent(p) == [p[0], p[1], p[2]]
  {
  }

  /** Every prefix of `p`, from the root `[]` to `p` itself. */
  function Prefixes(p: Path): set<Path>
  {
    set k | 0 <= k <= |p| :: p[..k]
  }

  /** The directories that recursive creation of each of `folders` leaves behind, relative to one base. */
  function Closure(folders: seq<Path>): set<Path>
  {
    set f, k | f in folders && 0 <= k <= |f| :: f[..k]
  }

  /** Proof helper: one prefix of one planned folder is in the closure. */
  lemma InClosure(folders: seq<Path>, f: Path, k: nat)
    requires f in folders && k <= |f|
    ensures f[..k] in Closure(folders)
  {
  }

  /** The destinations of a plan, in plan order. */
  function Rels(es: seq<FileEntry>): (r: seq<Path>)
    ensures |r| == |es| && forall i :: 0 <= i < |es| ==> r[i] == es[i].rel
  {
    seq(|es|, i requires 0 <= i < |es| => es[i].rel)
  }

  /** No path occurs twice in `ps`. */
  predicate NoDuplicates(ps: seq<Path>)
  {
    forall i, j :: 0 <= i < j < |ps| ==> ps[i] != ps[j]
  }

  /** Every path of `ps` is below the root and has its parent among `dirs`. */
  predicate ParentsIn(ps: seq<Path>, dirs: set<Path>)
  {
    forall i :: 0 <= i < |ps| ==> ps[i] != [] && Parent(ps[i]) in dirs
  }

  /** No two planned writes target the same destination. */
  predicate DistinctPaths(es: seq<FileEntry>)
  {
    forall i, j :: 0 <= i < j < |es| ==> es[i].rel != es[j].rel
  }

  /** Every planned write lands in the destination itself or in a directory the folder list creates. */
  predicate ParentsPlanned(es: seq<FileEntry>, folders: seq<Path>)
  {
    forall e :: e in es ==> e.rel != [] && Parent(e.rel) in Closure(folders)
  }

  /** Proof helper: a plan whose destination list has no duplicates writes each path once. */
  lemma DistinctFromRels(es: seq<FileEntry>)
    requires NoDuplicates(Rels(es))
    ensures DistinctPaths(es)
  {
    var rels := Rels(es);
    forall i, j | 0 <= i < j < |es| ensures es[i].rel != es[j].rel {
      assert rels[i] != rels[j];
    }
  }

  /** Proof helper: destinations whose parents lie in `dirs`, all implied by `folders`, are planned. */
  lemma PlannedFromRels(es: seq<FileEntry>, dirs: set<Path>, folders: seq<Path>)
    requires ParentsIn(Rels(es), dirs) && dirs <= Closure(folders)
    ensures ParentsPlanned(es, folders)
  {
    var rels := Rels(es);
    forall e | e in es ensures e.rel != [] && Parent(e.rel) in Closure(folders) {
      var i :| 0 <= i < |es| && es[i] == e;
      assert rels[i] == e.rel;
    }
  }

  /**
   * `packageObj.name = name` on a parsed manifest: the name field now holds
   * `name`, every other field of the template is kept as it was, and no
   * other field appears.
   */
  function SetName(template: map<string, JsonValue>, name: string): (m: map<string, JsonValue>)
    ensures m.Keys == template.Keys + {"name"}
    ensures m["name"] == JString(name)
    ensures forall k :: k in template && k != "name" ==> m[k] == template[k]
  {
    template["name" := JString(name)]
  }
}
