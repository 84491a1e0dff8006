/**
 * The older, MongoDB-only generator (`index.js`): the validators of its
 * name prompts, and the folders and files it writes into the working
 * directory.
 */
module LegacyIndex {
  import opened Layout
  import opened FileSystem

  /** What an inquirer `validate` function returns: `true`, or the message to show. */
  datatype Validation = Accepted | Rejected(message: string)

  const ProjectNameMessage := "Project name may only include lowercase letters and hyphens."
  const DatabaseNameMessage := "Database name may only include letters, hyphens and underscores."

  /** `[a-z\-]` */
  predicate ProjectNameChar(c: char)
  {
    'a' <= c <= 'z' || c == '-'
  }

  /** `[A-Za-z\-\_\d]` */
  predicate DatabaseNameChar(c: char)
  {
    'A' <= c <= 'Z' || 'a' <= c <= 'z' || c == '-' || c == '_' || '0' <= c <= '9'
  }

  /** `^[class]+$` matched by consuming one character at a time. */
  function OneOrMore(inClass: char -> bool, s: string): (r: bool)
    ensures r <==> |s| > 0 && forall i :: 0 <= i < |s| ==> inClass(s[i])
  {
    |s| > 0 && inClass(s[0]) && (|s| == 1 || OneOrMore(inClass, s[1..]))
  }

  /** The `project-name` validator: `/^[a-z\-]+$/`. */
  function ValidateProjectName(input: string): (r: Validation)
    ensures r == Accepted <==>
      |input| > 0 && forall i :: 0 <= i < |input| ==> 'a' <= input[i] <= 'z' || input[i] == '-'
    ensures r != Accepted ==> r == Rejected(ProjectNameMessage)
  {
    if OneOrMore(ProjectNameChar, input) then Accepted else Rejected(ProjectNameMessage)
  }

  /** The `database-name` validator: `/^([A-Za-z\-\_\d])+$/`. */
  function ValidateDatabaseName(input: string): (r: Validation)
    ensures r == Accepted <==>
      |input| > 0 && forall i :: 0 <= i < |input| ==>
        'A' <= input[i] <= 'Z' || 'a' <= input[i] <= 'z' || '0' <= input[i] <= '9' || input[i] in "-_"
    ensures r != Accepted ==> r == Rejected(DatabaseNameMessage)
  {
    if OneOrMore(DatabaseNameChar, input) then Accepted else Rejected(DatabaseNameMessage)
  }

  /** The answers under the keys `project-name`, `database-choice` and `database-name`. */
  datatype Answers = Answers(projectName: string, databaseChoice: string, databaseName: string)

  /** The one entry of `CHOICES`. */
  const MongoChoice := "mongodb/mongoose"

  const TemplateCodes := "template-codes"
  const IndexCodeFile := "indexContent.txt"
  const DbConfigFile := "dbConfig.txt"
  const PackageFile := "packageContent.json"
  const UserModelFile := "userModel.txt"
  const UserControllerFile := "controllerContent.txt"
  const UserRouterFile := "routeSContent.txt"

  const GitContent := ".env \n*.env \n/node_modules \npackage-lock.json"
  const EnvContent := "MONGODB_URI = mongodb://localhost:27017/"

  /**
   * `foldersToCreate`, relative to the working directory: `src` first, then
   * folders below it; `src/api/models` and `src/api/controllers` exactly for
   * the MongoDB choice.
   */
  function FoldersToCreate(choice: string): (r: seq<Path>)
    ensures |r| == if choice == MongoChoice then 5 else 3
    ensures r[..3] == [["src"], ["src", "config"], ["src", "api", "routes"]]
    ensures forall i :: 1 <= i < |r| ==> |r[i]| > 1 && r[i][..1] == r[0]
    ensures ["src", "config"] in r && ["src", "api", "routes"] in r
    ensures ["src", "api", "models"] in r <==> choice == MongoChoice
    ensures ["src", "api", "controllers"] in r <==> choice == MongoChoice
    ensures forall i, j :: 0 <= i < j < |r| ==> r[i] != r[j]
  {
    var folders := [["src"], ["src", "config"], ["src", "api", "routes"]];
    if choice == MongoChoice then folders + [["src", "api", "models"], ["src", "api", "controllers"]] else folders
  }

  /**
   * `fileData`, relative to the working directory: three entries always,
   * five more for the MongoDB choice (their destinations are given by
   * `PlanRels`, their contents by `PlanContents`).
   */
  function FileData(a: Answers, store: TemplateStore): (r: seq<FileEntry>)
    ensures |r| == if a.databaseChoice == MongoChoice then 8 else 3
  {
    var packageObj := store.json([TemplateCodes, PackageFile]);
    var always := [
      FileEntry(["src", "index2.js"], Text(store.text([TemplateCodes, IndexCodeFile]))),
      FileEntry([".gitignore2"], Text(GitContent)),
      FileEntry(["package2.json"], Json(JObject(SetName(packageObj, a.projectName))))
    ];
    if a.databaseChoice == MongoChoice then
      always + [
        FileEntry([".env"], Text(EnvContent + a.databaseName)),
        FileEntry(["src", "config", "dbConfig.js"], Text(store.text([TemplateCodes, DbConfigFile]))),
        FileEntry(["src", "api", "models", "User.js"], Text(store.text([TemplateCodes, UserModelFile]))),
        FileEntry(["src", "api", "controllers", "UserController.js"], Text(store.text([TemplateCodes, UserControllerFile]))),
        FileEntry(["src", "api", "routes", "UserRoutes.js"], Text(store.text([TemplateCodes, UserRouterFile])))
      ]
    else always
  }

  /**
   * Where a plan writes, relative to the working directory and in order:
   * `src/index2.js`, `.gitignore2` and `package2.json`, then for the MongoDB
   * choice only `.env`, `src/config/dbConfig.js`, and the model, controller
   * and routes files under `src/api`.
   */
  function Destinations(choice: string): seq<Path>
  {
    [["src", "index2.js"], [".gitignore2"], ["package2.json"]]
    + if choice == MongoChoice then
        [[".env"], ["src", "config", "dbConfig.js"], ["src", "api", "models", "User.js"],
         ["src", "api", "controllers", "UserController.js"], ["src", "api", "routes", "UserRoutes.js"]]
      else []
  }

  /** The destinations of a plan are exactly `Destinations`, in that order. */
  lemma PlanRels(a: Answers, store: TemplateStore)
    ensures Rels(FileData(a, store)) == Destinations(a.databaseChoice)
  {
  }

  /**
   * The contents of the plan: the entry point from its template, the fixed
   * `.gitignore2`, the manifest with its name replaced by the project name,
   * and for the MongoDB choice the `.env` URI prefix followed by the
   * database name and the configuration, model, controller and routes each
   * read from its own template.
   */
  lemma PlanContents(a: Answers, store: TemplateStore)
    ensures var plan := FileData(a, store);
      && FileEntry(["src", "index2.js"], Text(store.text([TemplateCodes, IndexCodeFile]))) in plan
      && FileEntry([".gitignore2"], Text(GitContent)) in plan
      && FileEntry(["package2.json"], Json(JObject(SetName(store.json([TemplateCodes, PackageFile]), a.projectName)))) in plan
    ensures a.databaseChoice == MongoChoice ==>
      var env := EnvContent + a.databaseName;
      && FileEntry([".env"], Text(env)) in FileData(a, store)
      && env[|env| - |a.databaseName|..] == a.databaseName
    ensures a.databaseChoice == MongoChoice ==>
      var plan := FileData(a, store);
      && FileEntry(["src", "config", "dbConfig.js"], Text(store.text([TemplateCodes, DbConfigFile]))) in plan
      && FileEntry(["src", "api", "models", "User.js"], Text(store.text([TemplateCodes, UserModelFile]))) in plan
      && FileEntry(["src", "api", "controllers", "UserController.js"], Text(store.text([TemplateCodes, UserControllerFile]))) in plan
      && FileEntry(["src", "api", "routes", "UserRoutes.js"], Text(store.text([TemplateCodes, UserRouterFile]))) in plan
  {
    var plan := FileData(a, store);
    assert plan[0] == FileEntry(["src", "index2.js"], Text(store.text([TemplateCodes, IndexCodeFile])));
    assert plan[1] == FileEntry([".gitignore2"], Text(GitContent));
    var env := EnvContent + a.databaseName;
    assert env[|EnvContent|..] == a.databaseName;
    if a.databaseChoice == MongoChoice {
      assert plan[3] == FileEntry([".env"], Text(env));
      assert plan[4] == FileEntry(["src", "config", "dbConfig.js"], Text(store.text([TemplateCodes, DbConfigFile])));
      assert plan[5] == FileEntry(["src", "api", "models", "User.js"], Text(store.text([TemplateCodes, UserModelFile])));
      assert plan[6] == FileEntry(["src", "api", "controllers", "UserController.js"], Text(store.text([TemplateCodes, UserControllerFile])));
      assert plan[7] == FileEntry(["src", "api", "routes", "UserRoutes.js"], Text(store.text([TemplateCodes, UserRouterFile])));
    }
  }

  /**
   * Whatever the choice, the plan is consistent: no two entries share a
   * destination, and every entry lands in the working directory or in a
   * folder the folder list creates.
   */
  lemma PlanConsistent(a: Answers, store: TemplateStore)
    ensures DistinctPaths(FileData(a, store))
    ensures ParentsPlanned(FileData(a, store), FoldersToCreate(a.databaseChoice))
  {
    PlanDistinct(a, store);
    PlanRels(a, store);
    DestinationParents(a.databaseChoice);
    ParentDirsCreated(a.databaseChoice);
    PlannedFromRels(FileData(a, store), ParentDirs(a.databaseChoice), FoldersToCreate(a.databaseChoice));
  }

  lemma PlanDistinct(a: Answers, store: TemplateStore)
    ensures DistinctPaths(FileData(a, store))
  {
    PlanRels(a, store);
    DestinationsDistinct(a.databaseChoice);
    DistinctFromRels(FileData(a, store));
  }

  /** Whatever the choice, no destination occurs twice. */
  lemma DestinationsDistinct(choice: string)
    ensures NoDuplicates(Destinations(choice))
  {
  }

  /** The directories files of a plan are written into, relative to the working directory. */
  function ParentDirs(choice: string): set<Path>
  {
    {[], ["src"], ["src", "config"], ["src", "api", "routes"]}
    + (if choice == MongoChoice then {["src", "api", "models"], ["src", "api", "controllers"]} else {})
  }

  lemma DestinationParents(choice: string)
    ensures ParentsIn(Destinations(choice), ParentDirs(choice))
  {
    ParentOfPath(["src", "index2.js"]);
    ParentOfPath(["src", "config", "dbConfig.js"]);
    ParentOfPath(["src", "api", "models", "User.js"]);
    ParentOfPath(["src", "api", "controllers", "UserController.js"]);
    ParentOfPath(["src", "api", "routes", "UserRoutes.js"]);
  }

  lemma ParentDirsCreated(choice: string)
    ensures ParentDirs(choice) <= Closure(FoldersToCreate(choice))
  {
    var folders := FoldersToCreate(choice);
    var src: Path := ["src"];
    var config: Path := ["src", "config"];
    var routes: Path := ["src", "api", "routes"];
    var models: Path := ["src", "api", "models"];
    var controllers: Path := ["src", "api", "controllers"];
    assert src[..0] == [] && src[..1] == src && config[..2] == config && routes[..3] == routes;
    assert models[..3] == models && controllers[..3] == controllers;
    InClosure(folders, src, 0);
    InClosure(folders, src, 1);
    InClosure(folders, config, 2);
    InClosure(folders, routes, 3);
    if choice == MongoChoice {
      InClosure(folders, models, 3);
      InClosure(folders, controllers, 3);
    }
    var root: Path := [];
    var closure := Closure(folders);
    assert {root, src, config, routes} <= closure;
    if choice == MongoChoice {
      assert {models, controllers} <= closure;
    }
  }

  /**
   * The `.then` callback against the filesystem `fs`, with `cwd` as the
   * destination: the folder loop, then the file loop. Creating a folder
   * that already exists is no error, every planned file is written, each
   * holds its planned content, and no other file changes.
   */
  method Generate(fs: MemFs, cwd: Path, a: Answers, store: TemplateStore)
    requires fs.Valid()
    modifies fs
    ensures fs.Valid()
    ensures fs.dirs == old(fs.dirs) + DirsCreated(cwd, FoldersToCreate(a.databaseChoice))
    ensures fs.files == ApplyWrites(old(fs.files), cwd, FileData(a, store))
    ensures forall e :: e in FileData(a, store) ==> cwd + e.rel in fs.files && fs.files[cwd + e.rel] == e.content
  {
    var folders := FoldersToCreate(a.databaseChoice);
    fs.CreateFolders(cwd, folders);
    var plan := FileData(a, store);
    PlanConsistent(a, store);
    PlannedParentsExist(cwd, folders, plan, fs.dirs);
    ApplyWritesAll(fs.files, cwd, plan);
    var written, failure := fs.CreateFiles(cwd, plan);
    assert plan[..written] == plan;
  }
}
