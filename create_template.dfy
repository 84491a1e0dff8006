/**
 * The current generator (`createTemplate.js`): from the answers it picks
 * the destination, the folders, the files with their contents and the npm
 * packages, along two axes: language and database (MongoDB, PostgreSQL,
 * or none chosen). Templates are read from the language's own template
 * directory, except the nodemon and tsconfig ones, always read from the
 * `ts` templates. Among the planned files, only the names and the entry
 * point's place depend on whether the language is exactly `ts`; the
 * package lists also compare the language with `ts`.
 */
module CreateTemplate {
  import opened Layout
  import opened FileSystem

  /** The `databaseChoice` answer: `"mongodb"`, `"postgresql"`, or left undefined. */
  datatype DatabaseChoice = MongoDb | PostgreSql | Unset

  datatype Answers = Answers(
    projectName: string,
    packageName: string,
    languageChoice: string,
    databaseChoice: DatabaseChoice,
    databaseName: string)

  datatype GenerateError =
    | UndefinedDatabaseDir          // `path.join(undefined, …)` throws a TypeError
    | NoSuchDirectory(path: Path)   // `writeFileSync` throws ENOENT

  datatype Outcome = Generated | Failed(error: GenerateError)

  const IndexCodeFile := "indexContent.txt"
  const DbConfigFile := "db.txt"
  const PackageFile := "packageContent.json"
  const NodemonFile := "nodemonContent.json"
  const TsConfigFile := "tsconfigContent.json"
  const UserModelFile := "userModel.txt"
  const UserControllerFile := "controllerContent.txt"
  const UserRouterFile := "routesContent.txt"

  const GitContent := ".env \n*.env \n/node_modules \npackage-lock.json"
  const MongoUriPrefix := "MONGODB_URI = mongodb://127.0.0.1:27017/"
  const PgEnvContent := "PGUSER = \nPGPASSWORD = \nPGDATABSE = \n"

  /**
   * `isTs`: a strict comparison, so only the answer `ts` itself selects
   * TypeScript names; `TS` or `typescript` get JavaScript names.
   */
  function IsTs(lang: string): (r: bool)
    ensures r <==> |lang| == 2 && lang[0] == 't' && lang[1] == 's'
  {
    lang == "ts"
  }

  /** The directory of template files for a language, below the generator's own directory. */
  function TemplateDir(lang: string): string
  {
    lang + "-template-codes"
  }

  /** The template sub-directory named by the database answer; none when it is undefined. */
  function DbDir(db: DatabaseChoice): Option<string>
  {
    match db
    case MongoDb => Some("mongodb")
    case PostgreSql => Some("postgresql")
    case Unset => None
  }

  /** A source file name: the stem with `.ts` exactly when the language is `ts`, `.js` otherwise. */
  function SourceName(stem: string, lang: string): (r: string)
    ensures |r| == |stem| + 3 && r[..|stem|] == stem
    ensures r[|stem|..] == ".ts" <==> lang == "ts"
    ensures r[|stem|..] == ".js" <==> lang != "ts"
  {
    stem + (if IsTs(lang) then ".ts" else ".js")
  }

  /** Where the entry point goes: `src/index.ts` for TypeScript, `index.js` at the root otherwise. */
  function EntryPoint(lang: string): Path
  {
    if IsTs(lang) then ["src", "index.ts"] else ["index.js"]
  }

  function ModelPath(lang: string): Path { ["src", "models", SourceName("User", lang)] }
  function ConfigPath(lang: string): Path { ["src", "config", SourceName("db", lang)] }
  function ControllerPath(lang: string): Path { ["src", "controllers", SourceName("UserController", lang)] }
  function RoutesPath(lang: string): Path { ["src", "routes", SourceName("UserRoutes", lang)] }

  /** `envContent`: the text the `.env` file starts from, if the database has one. */
  function EnvContent(db: DatabaseChoice): (r: Option<string>)
    ensures r.Some? <==> db != Unset
  {
    match db
    case MongoDb => Some(MongoUriPrefix)
    case PostgreSql => Some(PgEnvContent)
    case Unset => None
  }

  /**
   * `foldersToCreate`, relative to the destination: `src/config` and
   * `src/routes` always; MongoDB adds `src/models` and `src/controllers`,
   * PostgreSQL adds `src/controllers` alone.
   */
  function FoldersToCreate(db: DatabaseChoice): (r: seq<Path>)
    ensures |r| >= 2 && r[..2] == [["src", "config"], ["src", "routes"]]
    ensures ["src", "config"] in r && ["src", "routes"] in r
    ensures ["src", "models"] in r <==> db == MongoDb
    ensures ["src", "controllers"] in r <==> db != Unset
    ensures forall f :: f in r ==> f in {["src", "config"], ["src", "routes"], ["src", "models"], ["src", "controllers"]}
    ensures forall i, j :: 0 <= i < j < |r| ==> r[i] != r[j]
  {
    var base := [["src", "config"], ["src", "routes"]];
    match db
    case MongoDb => base + [["src", "models"], ["src", "controllers"]]
    case PostgreSql => base + [["src", "controllers"]]
    case Unset => base
  }

  /**
   * `fileData`, relative to the destination. Building the first entry
   * reads the index template from `path.join(databaseChoice, …)`, which
   * throws when no database was chosen.
   */
  function FileData(a: Answers, store: TemplateStore): (r: Result<seq<FileEntry>, GenerateError>)
    ensures r.Failure? <==> a.databaseChoice == Unset
    ensures r.Failure? ==> r.error == UndefinedDatabaseDir
    ensures r.Success? ==> |r.value| == if a.databaseChoice == MongoDb then 10 else 9
  {
    match DbDir(a.databaseChoice)
    case None => Failure(UndefinedDatabaseDir)
    case Some(dir) =>
      var lang := a.languageChoice;
      var templates := TemplateDir(lang);
      var packageObj := store.json([templates, PackageFile]);
      var common := [
        FileEntry(EntryPoint(lang), Text(store.text([templates, dir, IndexCodeFile]))),
        FileEntry([".gitignore"], Text(GitContent)),
        FileEntry(["package.json"], Json(JObject(SetName(packageObj, a.packageName)))),
        FileEntry(["nodemon.json"], Json(JObject(store.json([TemplateDir("ts"), NodemonFile])))),
        FileEntry(["tsconfig.json"], Json(JObject(store.json([TemplateDir("ts"), TsConfigFile]))))
      ];
      var envContent := EnvContent(a.databaseChoice).value;
      var byDatabase :=
        if a.databaseChoice == MongoDb then
          [ FileEntry([".env"], Text(envContent + a.databaseName)),
            FileEntry(ModelPath(lang), Text(store.text([templates, dir, UserModelFile]))) ]
        else
          [ FileEntry([".env"], Text(envContent)) ];
      var shared := [
        FileEntry(ConfigPath(lang), Text(store.text([templates, dir, DbConfigFile]))),
        FileEntry(ControllerPath(lang), Text(store.text([templates, dir, UserControllerFile]))),
        FileEntry(RoutesPath(lang), Text(store.text([templates, "mongodb", UserRouterFile])))
      ];
      Success(common + byDatabase + shared)
  }

  /**
   * Where a plan writes, relative to the destination and in order: the
   * entry point, `.gitignore`, `package.json`, `nodemon.json`,
   * `tsconfig.json` and `.env` at the root, the model only for MongoDB,
   * then the database configuration, the controller and the routes.
   */
  function Destinations(lang: string, db: DatabaseChoice): seq<Path>
  {
    [EntryPoint(lang), [".gitignore"], ["package.json"], ["nodemon.json"], ["tsconfig.json"], [".env"]]
    + (if db == MongoDb then [ModelPath(lang)] else [])
    + [ConfigPath(lang), ControllerPath(lang), RoutesPath(lang)]
  }

  /** The destinations of a plan are exactly `Destinations`, in that order. */
  lemma PlanRels(a: Answers, store: TemplateStore)
    requires a.databaseChoice != Unset
    ensures Rels(FileData(a, store).value) == Destinations(a.languageChoice, a.databaseChoice)
  {
  }

  /**
   * For either database the plan is consistent: no two entries share a
   * destination, and every entry lands in the destination or in a folder
   * the folder list creates.
   */
  lemma PlanConsistent(a: Answers, store: TemplateStore)
    requires a.databaseChoice != Unset
    ensures FileData(a, store).Success?
    ensures DistinctPaths(FileData(a, store).value)
    ensures ParentsPlanned(FileData(a, store).value, FoldersToCreate(a.databaseChoice))
  {
    PlanDistinct(a, store);
    PlanParents(a, store);
  }

  lemma PlanDistinct(a: Answers, store: TemplateStore)
    requires a.databaseChoice != Unset
    ensures DistinctPaths(FileData(a, store).value)
  {
    PlanRels(a, store);
    DestinationsDistinct(a.languageChoice, a.databaseChoice);
    DistinctFromRels(FileData(a, store).value);
  }

  lemma PlanParents(a: Answers, store: TemplateStore)
    requires a.databaseChoice != Unset
    ensures ParentsPlanned(FileData(a, store).value, FoldersToCreate(a.databaseChoice))
  {
    PlanRels(a, store);
    DestinationParents(a.languageChoice, a.databaseChoice);
    ParentDirsCreated(a.databaseChoice);
    PlannedFromRels(FileData(a, store).value, ParentDirs(a.databaseChoice), FoldersToCreate(a.databaseChoice));
  }

  /** Whatever the language, no destination occurs twice. */
  lemma DestinationsDistinct(lang: string, db: DatabaseChoice)
    ensures NoDuplicates(Destinations(lang, db))
  {
  }

  /** The directories files of a plan are written into, relative to the destination. */
  function ParentDirs(db: DatabaseChoice): set<Path>
  {
    {[], ["src"], ["src", "config"], ["src", "routes"], ["src", "controllers"]}
    + (if db == MongoDb then {["src", "models"]} else {})
  }

  lemma DestinationParents(lang: string, db: DatabaseChoice)
    ensures ParentsIn(Destinations(lang, db), ParentDirs(db))
  {
    var ext := if IsTs(lang) then ".ts" else ".js";
    var dirs := ParentDirs(db);
    var rels := Destinations(lang, db);
    var root := [EntryPoint(lang), [".gitignore"], ["package.json"], ["nodemon.json"], ["tsconfig.json"], [".env"]];
    var model: seq<Path> := if db == MongoDb then [["src", "models", "User" + ext]] else [];
    var sources := [["src", "config", "db" + ext], ["src", "controllers", "UserController" + ext], ["src", "routes", "UserRoutes" + ext]];
    assert rels == root + model + sources;
    ParentOfPath(["src", "index.ts"]);
    ParentOfPath(["src", "models", "User" + ext]);
    ParentOfPath(["src", "config", "db" + ext]);
    ParentOfPath(["src", "controllers", "UserController" + ext]);
    ParentOfPath(["src", "routes", "UserRoutes" + ext]);
    forall i | 0 <= i < |rels| ensures rels[i] != [] && Parent(rels[i]) in dirs {
      assert rels[i] in root + model + sources;
    }
  }

  lemma ParentDirsCreated(db: DatabaseChoice)
    requires db != Unset
    ensures ParentDirs(db) <= Closure(FoldersToCreate(db))
  {
    var folders := FoldersToCreate(db);
    var config: Path := ["src", "config"];
    var routes: Path := ["src", "routes"];
    var controllers: Path := ["src", "controllers"];
    var models: Path := ["src", "models"];
    assert config[..0] == [] && config[..1] == ["src"] && config[..2] == config;
    assert routes[..2] == routes && controllers[..2] == controllers && models[..2] == models;
    InClosure(folders, config, 0);
    InClosure(folders, config, 1);
    InClosure(folders, config, 2);
    InClosure(folders, routes, 2);
    InClosure(folders, controllers, 2);
    if db == MongoDb {
      InClosure(folders, models, 2);
    }
    var root: Path := [];
    var src: Path := ["src"];
    var closure := Closure(folders);
    assert {root, src, config, routes, controllers} <= closure;
    if db == MongoDb {
      assert models in closure;
    }
  }

  /**
   * What every plan holds, whatever the language: the entry point read from
   * the database's folder of the language's templates, the fixed
   * `.gitignore`, the manifest with its name replaced, and the routes read
   * from the MongoDB folder even when the database is PostgreSQL.
   */
  lemma AlwaysPlanned(a: Answers, store: TemplateStore)
    requires a.databaseChoice != Unset
    ensures var plan := FileData(a, store).value;
      var lang := a.languageChoice;
      && FileEntry(EntryPoint(lang), Text(store.text([TemplateDir(lang), DbDir(a.databaseChoice).value, IndexCodeFile]))) in plan
      && FileEntry([".gitignore"], Text(GitContent)) in plan
      && FileEntry(["package.json"], Json(JObject(SetName(store.json([TemplateDir(lang), PackageFile]), a.packageName)))) in plan
      && FileEntry(RoutesPath(lang), Text(store.text([TemplateDir(lang), "mongodb", UserRouterFile]))) in plan
  {
    var plan := FileData(a, store).value;
    var lang := a.languageChoice;
    var templates := TemplateDir(lang);
    var n := |plan|;
    assert plan[0] == FileEntry(EntryPoint(lang), Text(store.text([templates, DbDir(a.databaseChoice).value, IndexCodeFile])));
    assert plan[1] == FileEntry([".gitignore"], Text(GitContent));
    assert plan[2] == FileEntry(["package.json"], Json(JObject(SetName(store.json([templates, PackageFile]), a.packageName))));
    assert plan[n - 1] == FileEntry(RoutesPath(lang), Text(store.text([templates, "mongodb", UserRouterFile])));
  }

  /**
   * `nodemon.json` and `tsconfig.json` are written for every language, both
   * read from the TypeScript templates.
   */
  lemma ToolConfigsPlanned(a: Answers, store: TemplateStore)
    requires a.databaseChoice != Unset
    ensures var plan := FileData(a, store).value;
      && FileEntry(["nodemon.json"], Json(JObject(store.json([TemplateDir("ts"), NodemonFile])))) in plan
      && FileEntry(["tsconfig.json"], Json(JObject(store.json([TemplateDir("ts"), TsConfigFile])))) in plan
  {
    var plan := FileData(a, store).value;
    assert plan[3] == FileEntry(["nodemon.json"], Json(JObject(store.json([TemplateDir("ts"), NodemonFile]))));
    assert plan[4] == FileEntry(["tsconfig.json"], Json(JObject(store.json([TemplateDir("ts"), TsConfigFile]))));
  }

  /**
   * The `.env` entry: for MongoDB the fixed URI prefix followed by the
   * database name, so it ends with that name; for PostgreSQL the fixed
   * credential placeholders.
   */
  lemma EnvPlanned(a: Answers, store: TemplateStore)
    requires a.databaseChoice != Unset
    ensures a.databaseChoice == MongoDb ==>
      var env := MongoUriPrefix + a.databaseName;
      && FileEntry([".env"], Text(env)) in FileData(a, store).value
      && env[|env| - |a.databaseName|..] == a.databaseName
    ensures a.databaseChoice == PostgreSql ==>
      FileEntry([".env"], Text(PgEnvContent)) in FileData(a, store).value
  {
    var env := MongoUriPrefix + a.databaseName;
    assert env[|MongoUriPrefix|..] == a.databaseName;
  }

  /**
   * The files picked by the (language, database) pair: the database
   * configuration and the controller come from the chosen database's
   * folder of the language's templates, and so does the model for MongoDB.
   */
  lemma DatabaseTemplatesPlanned(a: Answers, store: TemplateStore)
    requires a.databaseChoice != Unset
    ensures var plan := FileData(a, store).value;
      var lang := a.languageChoice;
      var dir := DbDir(a.databaseChoice).value;
      && FileEntry(ConfigPath(lang), Text(store.text([TemplateDir(lang), dir, DbConfigFile]))) in plan
      && FileEntry(ControllerPath(lang), Text(store.text([TemplateDir(lang), dir, UserControllerFile]))) in plan
      && (a.databaseChoice == MongoDb ==>
            FileEntry(ModelPath(lang), Text(store.text([TemplateDir(lang), dir, UserModelFile]))) in plan)
  {
    var plan := FileData(a, store).value;
    var lang := a.languageChoice;
    var dir := DbDir(a.databaseChoice).value;
    var n := |plan|;
    assert plan[n - 3] == FileEntry(ConfigPath(lang), Text(store.text([TemplateDir(lang), dir, DbConfigFile])));
    assert plan[n - 2] == FileEntry(ControllerPath(lang), Text(store.text([TemplateDir(lang), dir, UserControllerFile])));
    if a.databaseChoice == MongoDb {
      assert plan[6] == FileEntry(ModelPath(lang), Text(store.text([TemplateDir(lang), dir, UserModelFile])));
    }
  }

  const CommonPackages := ["express", "cors", "cookie-parser", "dotenv", "nodemon"]

  /**
   * `getPackageList`: the common packages first; `mongoose` exactly for
   * MongoDB, `pg` exactly for PostgreSQL, `rimraf` exactly when a database
   * is chosen and the language is `ts`; no package twice.
   */
  function GetPackageList(db: DatabaseChoice, lang: string): (r: seq<string>)
    ensures |r| >= |CommonPackages| && r[..|CommonPackages|] == CommonPackages
    ensures "mongoose" in r <==> db == MongoDb
    ensures "pg" in r <==> db == PostgreSql
    ensures "rimraf" in r <==> db != Unset && IsTs(lang)
    ensures db == Unset ==> r == CommonPackages
    ensures forall p :: p in r ==> p in CommonPackages || p in ["mongoose", "pg", "rimraf"]
    ensures |r| == |CommonPackages| + (if db == Unset then 0 else 1) + (if db != Unset && IsTs(lang) then 1 else 0)
    ensures forall i, j :: 0 <= i < j < |r| ==> r[i] != r[j]
  {
    var mongodbPackages := CommonPackages + ["mongoose"];
    var postgresqlPackages := CommonPackages + ["pg"];
    match db
    case MongoDb => if lang == "ts" then mongodbPackages + ["rimraf"] else mongodbPackages
    case PostgreSql => if lang == "ts" then postgresqlPackages + ["rimraf"] else postgresqlPackages
    case Unset => CommonPackages
  }

  /**
   * The packages the runtime `npm i` command names: the four server
   * packages, then the database driver, then `rimraf` for `ts`; no command
   * runs when no database is chosen.
   */
  function InstallPackages(db: DatabaseChoice, lang: string): (r: Option<seq<string>>)
    ensures r.Some? <==> db != Unset
    ensures r.Some? ==> |r.value| >= 5 && r.value[..4] == ["express", "cors", "cookie-parser", "dotenv"]
    ensures r.Some? ==> ("mongoose" in r.value <==> db == MongoDb) && ("pg" in r.value <==> db == PostgreSql)
    ensures r.Some? ==> ("rimraf" in r.value <==> lang == "ts")
    ensures r.Some? ==> "nodemon" !in r.value
  {
    var core := ["express", "cors", "cookie-parser", "dotenv"];
    match db
    case MongoDb => Some(if lang == "ts" then core + ["mongoose", "rimraf"] else core + ["mongoose"])
    case PostgreSql => Some(if lang == "ts" then core + ["pg", "rimraf"] else core + ["pg"])
    case Unset => None
  }

  /**
   * The runtime install command names exactly the packages `getPackageList`
   * announces, less `nodemon`, which the development install brings.
   */
  lemma InstallMatchesPackageList(db: DatabaseChoice, lang: string)
    requires db != Unset
    ensures InstallPackages(db, lang).Some?
    ensures forall p :: p in InstallPackages(db, lang).value <==> p in GetPackageList(db, lang) && p != "nodemon"
    ensures "nodemon" in DevDependencies(lang, db)
  {
  }

  /** The TypeScript compiler, runner and type packages every `ts` project installs for development. */
  const TsToolchain := ["@types/cookie-parser", "@types/cors", "@types/express", "@types/node", "ts-node", "typescript"]

  /**
   * The packages of the development install command: `nodemon` alone for
   * JavaScript; for TypeScript the type-checker toolchain, with `@types/pg`
   * exactly when the database is PostgreSQL.
   */
  function DevDependencies(lang: string, db: DatabaseChoice): (r: seq<string>)
    ensures |r| > 0 && r[0] == "nodemon"
    ensures !IsTs(lang) ==> r == ["nodemon"]
    ensures forall p :: p in TsToolchain ==> (p in r <==> IsTs(lang))
    ensures "@types/pg" in r <==> IsTs(lang) && db == PostgreSql
    ensures forall p :: p in r ==> p == "nodemon" || p in TsToolchain || p == "@types/pg"
    ensures forall i, j :: 0 <= i < j < |r| ==> r[i] != r[j]
  {
    var tsBase := ["nodemon"] + TsToolchain;
    var tsDevDependencies := if db == PostgreSql then tsBase + ["@types/pg"] else tsBase;
    var devDependencies := ["nodemon"];
    if IsTs(lang) then tsDevDependencies else devDependencies
  }

  /**
   * The `try` block of `createTemplate` below the destination `dest`: the
   * folder loop always runs; with no database chosen, planning the files
   * then throws and nothing is written. Otherwise every planned file is
   * written and holds its planned content, and no other file changes.
   */
  method Scaffold(fs: MemFs, dest: Path, a: Answers, store: TemplateStore) returns (outcome: Outcome)
    requires fs.Valid()
    modifies fs
    ensures fs.Valid()
    ensures fs.dirs == old(fs.dirs) + DirsCreated(dest, FoldersToCreate(a.databaseChoice))
    ensures a.databaseChoice == Unset ==> outcome == Failed(UndefinedDatabaseDir) && fs.files == old(fs.files)
    ensures a.databaseChoice != Unset ==>
      && outcome == Generated
      && fs.files == ApplyWrites(old(fs.files), dest, FileData(a, store).value)
      && forall e :: e in FileData(a, store).value ==> dest + e.rel in fs.files && fs.files[dest + e.rel] == e.content
  {
    var folders := FoldersToCreate(a.databaseChoice);
    fs.CreateFolders(dest, folders);
    var fileData := FileData(a, store);
    match fileData
    case Failure(e) =>
      outcome := Failed(e);
    case Success(plan) =>
      PlanConsistent(a, store);
      PlannedParentsExist(dest, folders, plan, fs.dirs);
      ApplyWritesAll(fs.files, dest, plan);
      var written, failure := fs.CreateFiles(dest, plan);
      assert plan[..written] == plan;
      outcome := match failure
        case None => Generated
        case Some(p) => Failed(NoSuchDirectory(p));
  }

  /**
   * `createTemplate(answers)` against the filesystem `fs` started in `cwd`.
   * Unless the project name is `.`, the root `cwd/projectName` is created
   * first and becomes the destination; the rest is `Scaffold` below it.
   */
  method Generate(fs: MemFs, cwd: Path, a: Answers, store: TemplateStore) returns (dest: Path, outcome: Outcome)
    requires fs.Valid()
    modifies fs
    ensures fs.Valid()
    ensures dest == if a.projectName == "." then cwd else cwd + [a.projectName]
    ensures fs.dirs == old(fs.dirs) + (if a.projectName == "." then {} else Prefixes(dest))
                       + DirsCreated(dest, FoldersToCreate(a.databaseChoice))
    ensures a.databaseChoice == Unset ==> outcome == Failed(UndefinedDatabaseDir) && fs.files == old(fs.files)
    ensures a.databaseChoice != Unset ==>
      && outcome == Generated
      && fs.files == ApplyWrites(old(fs.files), dest, FileData(a, store).value)
      && forall e :: e in FileData(a, store).value ==> dest + e.rel in fs.files && fs.files[dest + e.rel] == e.content
  {
    dest := cwd;
    if a.projectName != "." {
      fs.Mkdir(cwd + [a.projectName]);
      dest := cwd + [a.projectName];
    }
    outcome := Scaffold(fs, dest, a, store);
  }
}
