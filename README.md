# Express starter scaffolder: layout planning, verified

This project models the layout planner of an Express project scaffolder
(`express-starter-template`) in Dafny and proves what it plans. From the
user's answers the scaffolder decides which directories to create, which
files to write (at which paths, with which content), and which npm
packages to install. Two generations of that planner are modelled:

- `createTemplate.js`, the current one, works along two axes: the language
  answer and the database (MongoDB, PostgreSQL, or left undefined). Every
  template except the nodemon and tsconfig ones is read from the
  `<language>-template-codes` directory named by the answer itself
  (createTemplate.js:22, 50, 93); those two are always read from
  `ts-template-codes` (createTemplate.js:55-61). Among the planned files,
  only the names and the entry point's place depend on whether the answer
  is exactly `ts` (`isTs`); the package lists also compare the language
  with `ts`. Module `CreateTemplate` models it.
- `index.js`, the older MongoDB-only one, writes into the working
  directory. Module `LegacyIndex` models it, together with the validators
  of its two name prompts.

Shared pieces live in module `Layout`. Paths are sequences of segments.
Parsed JSON manifests are maps. Each planned write is a `FileEntry`. The
read-only `TemplateStore` returns template bodies as opaque values. Module
`FileSystem` holds an in-memory filesystem class `MemFs`:

- `dirs` is a set of directories. `Mkdir` is the recursive
  `mkdirSync(…, { recursive: true })`: it adds every prefix of the path and
  never fails, so creating an existing folder is not an error.
- `files` maps paths to contents. `WriteFile` is `writeFileSync`: it fails
  with ENOENT when the parent directory is missing.
- The two `forEach` loops of each generator are the methods
  `CreateFolders` and `CreateFiles`. The file loop stops at the first
  write that throws.

Each planner is a pure function from the answers to a folder list and a
file list. Lemmas prove that, for every choice the planner accepts:

- no two files share a destination;
- every file lands in the destination or in a created folder.

Each generator's `Generate` method runs the folder loop and then the file
loop. Its contract proves that every planned path then holds exactly its
planned content and that no other file changes.

Facts about the code that the model keeps as they are:

- For any language but `ts`, createTemplate.js:93 writes the entry point as
  `index.js` at the project root; for `ts` it writes `src/index.ts`.
- createTemplate.js:96-97 write `nodemon.json` and `tsconfig.json` for
  every language, both read from the `ts` templates (lines 55-61).
- When no database is chosen, `databaseChoice` is undefined, and
  `path.join(undefined, …)` at createTemplate.js:93 throws after the folder
  loop has already created `src/config` and `src/routes`; the `catch` at
  line 176 swallows the error. The model returns
  `Failed(UndefinedDatabaseDir)` after the folder step and writes no file.
- Neither folder list names every parent: createTemplate.js:73-87 never
  lists `src`, and index.js:77-88 never lists `src/api`. Recursive creation
  makes this harmless, and the model proves that every write still finds
  its directory.
- createTemplate.js:135 and 137 add `rimraf` only when a database is chosen
  and the language is `ts`.
- The PostgreSQL `.env` placeholder at createTemplate.js:68 is spelt
  `PGDATABSE`, and the model keeps that spelling.
- The routes file is read from the `mongodb` template folder for both
  databases (createTemplate.js:113).

## Model

| member | source | states |
|---|---|---|
| `Layout.SetName` | createTemplate.js:50-53 | the manifest's `name` becomes the given name, every other template field is kept unchanged, and no other field is added |
| `FileSystem.MemFs.Mkdir` | createTemplate.js:29-32 | recursive creation adds the path and all its ancestors, never fails (an existing folder is no error), leaves files alone and keeps the directory tree closed under prefixes |
| `FileSystem.MemFs.WriteFile` | createTemplate.js:25-27 | the write succeeds exactly when the parent directory exists, and then stores the content at the path and changes nothing else |
| `FileSystem.MemFs.CreateFolders` | createTemplate.js:89 | after the folder loop, the directories are the old ones plus every prefix of every planned folder under the base, and the files are unchanged |
| `FileSystem.MemFs.CreateFiles` | createTemplate.js:116 | the file loop writes entries in order until the first one whose parent is missing, reports that path, and the files become the old ones overwritten by exactly the written prefix of the plan |
| `FileSystem.ApplyWrites` | createTemplate.js:116 | after a sequence of writes, the files are the old paths plus the planned destinations, and every path that is not a destination keeps its content |
| `FileSystem.ApplyWritesAt` | createTemplate.js:116 | when destinations are distinct, each planned destination holds exactly its entry's content |
| `FileSystem.ApplyWritesAll` | createTemplate.js:116 | when destinations are distinct, every entry of the plan is present at its destination with its content |
| `FileSystem.ApplyWritesOverwrite` | createTemplate.js:25-27 | what a destination holds after the writes does not depend on what was there before |
| `FileSystem.ApplyWritesIdempotent` | createTemplate.js:116 | writing the same plan a second time changes no file |
| `FileSystem.PrefixesCreated` | createTemplate.js:89 | after the folder loop, every prefix of every planned folder exists |
| `FileSystem.ClosureCreated` | createTemplate.js:89 | any directory that recursive creation of a planned folder implies exists under the base after the folder loop |
| `FileSystem.PlannedParentsExist` | createTemplate.js:89-116 | if every entry's parent is implied by the folder list, then after the folder loop every entry can be written |
| `CreateTemplate.IsTs` | createTemplate.js:34-36 | a strict comparison: true exactly for the two-character answer `ts`, so `TS` or `typescript` select JavaScript names |
| `CreateTemplate.SourceName` | createTemplate.js:111-113 | a source file is named by its stem followed by `.ts` exactly when the language is `ts` (`isTs`) and `.js` otherwise |
| `CreateTemplate.EnvContent` | createTemplate.js:64-69 | an `.env` text exists exactly when a database is chosen |
| `CreateTemplate.FoldersToCreate` | createTemplate.js:73-87 | `src/config` then `src/routes` first, always; `src/models` exactly for MongoDB; `src/controllers` exactly when a database is chosen; no other folder; no folder twice |
| `CreateTemplate.FileData` | createTemplate.js:92-114 | file planning fails, with the undefined-directory error, exactly when no database is chosen; otherwise it plans nine files, ten for MongoDB |
| `CreateTemplate.PlanRels` | createTemplate.js:92-114 | for a chosen database the destinations are exactly `Destinations`, in order: the entry point (`src/index.ts` for `ts`, `index.js` otherwise), `.gitignore`, `package.json`, `nodemon.json`, `tsconfig.json`, `.env`, the model only for MongoDB, then the database config, controller and routes files, each named by `SourceName` |
| `CreateTemplate.PlanConsistent` | createTemplate.js:73-114 | for MongoDB and PostgreSQL, no two entries share a destination and every entry lands in the destination or in a folder the folder list creates |
| `CreateTemplate.PlanDistinct` | createTemplate.js:92-114 | for a chosen database, no two entries share a destination |
| `CreateTemplate.PlanParents` | createTemplate.js:73-114 | for a chosen database, every entry's parent is the destination or implied by the folder list |
| `CreateTemplate.ParentDirsCreated` | createTemplate.js:73-87 | for a chosen database, the folder list implies `src` and every directory a file is written into |
| `CreateTemplate.AlwaysPlanned` | createTemplate.js:50-113 | whatever the language, the plan holds the entry point read from `<lang>-template-codes/<db>/indexContent.txt`, the fixed four-line `.gitignore`, the manifest with its name replaced by the package name, and the routes read from `<lang>-template-codes/mongodb/routesContent.txt` for either database |
| `CreateTemplate.ToolConfigsPlanned` | createTemplate.js:55-97 | whatever the language, the plan holds `nodemon.json` and `tsconfig.json`, each the parsed template from the `ts` templates |
| `CreateTemplate.DatabaseTemplatesPlanned` | createTemplate.js:103-112 | the database config and the controller are read from `<lang>-template-codes/<db>/` (`db.txt`, `controllerContent.txt`), and for MongoDB the model from `<lang>-template-codes/mongodb/userModel.txt`, each written under its language-specific name |
| `CreateTemplate.EnvPlanned` | createTemplate.js:100-109 | for MongoDB, `.env` is the fixed `127.0.0.1` URI prefix followed by the database name, so it ends with that name; for PostgreSQL it is the fixed placeholder text |
| `CreateTemplate.GetPackageList` | createTemplate.js:129-141 | the five common packages come first; `mongoose` exactly for MongoDB; `pg` exactly for PostgreSQL; `rimraf` exactly when a database is chosen and the language is `ts`; nothing else, with the length to match; exactly the common list with no database; no package twice |
| `CreateTemplate.InstallPackages` | createTemplate.js:153-163 | a runtime install runs exactly when a database is chosen; it names `express cors cookie-parser dotenv` first, `mongoose` exactly for MongoDB, `pg` exactly for PostgreSQL, `rimraf` exactly for `ts`, and never `nodemon` |
| `CreateTemplate.InstallMatchesPackageList` | createTemplate.js:153-163 | when a database is chosen, the runtime install command names exactly the announced packages less `nodemon`, and the development install brings `nodemon` |
| `CreateTemplate.DevDependencies` | createTemplate.js:165-169 | `nodemon` first and alone for any language but `ts`; each of `@types/cookie-parser`, `@types/cors`, `@types/express`, `@types/node`, `ts-node` and `typescript` exactly for `ts`; `@types/pg` exactly for `ts` with PostgreSQL; nothing else and no package twice |
| `CreateTemplate.Scaffold` | createTemplate.js:71-116 | below a destination, the folder loop always runs; with no database nothing is written and the run fails with the undefined-directory error; otherwise the run succeeds, every planned file holds its planned content and no other file changes |
| `CreateTemplate.Generate` | createTemplate.js:38-116 | the destination is the working directory for project name `.`, else `cwd/projectName`, which is created first; then the same directories, files and outcome as `Scaffold` below that destination |
| `LegacyIndex.OneOrMore` | index.js:18 | matching `^[class]+$` succeeds exactly for non-empty strings whose every character is in the class |
| `LegacyIndex.ValidateProjectName` | index.js:17-20 | `true` exactly for non-empty strings of `a`-`z` and `-`; otherwise the fixed lowercase-and-hyphens message |
| `LegacyIndex.ValidateDatabaseName` | index.js:32-35 | `true` exactly for non-empty strings of ASCII letters, digits, `-` and `_`; otherwise the fixed letters-hyphens-underscores message |
| `LegacyIndex.FoldersToCreate` | index.js:77-88 | `src`, `src/config`, `src/api/routes` first and in that order; five folders for `mongodb/mongoose`, three otherwise; every folder after the first below `src`; `src/api/models` and `src/api/controllers` exactly for `mongodb/mongoose`; no folder twice |
| `LegacyIndex.FileData` | index.js:93-107 | three planned files, eight for `mongodb/mongoose` |
| `LegacyIndex.PlanRels` | index.js:93-107 | the destinations are exactly `Destinations`, in order, `src/index2.js`, `.gitignore2` and `package2.json`, then for `mongodb/mongoose` only `.env`, `src/config/dbConfig.js`, and the model, controller and routes files under `src/api` |
| `LegacyIndex.PlanContents` | index.js:67-106 | the entry point from its template, the fixed `.gitignore2`, the manifest named after the project name, and for `mongodb/mongoose` an `.env` made of the `localhost` URI prefix followed by the database name, and `dbConfig.js`, `User.js`, `UserController.js` and `UserRoutes.js` each read from its own template in `template-codes` |
| `LegacyIndex.PlanConsistent` | index.js:77-107 | for every choice, no two entries share a destination and every entry lands in the working directory or a folder the folder list creates |
| `LegacyIndex.PlanDistinct` | index.js:93-107 | for every choice, no two entries share a destination |
| `LegacyIndex.ParentDirsCreated` | index.js:77-88 | the folder list implies every directory a file is written into |
| `LegacyIndex.Generate` | index.js:40-109 | after the folder loop and the file loop in the working directory, every planned file holds its planned content, no other file changes, and the directories are the old ones plus the planned folders with their ancestors |

## Left out

- Reading templates from disk (`readFileSync`, `fileURLToPath`, `__dirname`). Template bodies come from an opaque `TemplateStore`, which is total, so a missing template file or a malformed JSON template is not modelled.
- JSON templates are assumed to parse to objects. `JSON.stringify(…, null, 4)` formatting and key order are not modelled: a manifest is a map, and a written JSON file holds the parsed value.
- `FileSystem.MemFs.WriteFile`: models only the missing-parent failure (ENOENT). Other operating-system errors are left out: permissions, a full disk, a file standing where a directory is needed, and a directory where a file is to be written.
- `FileSystem.MemFs.Mkdir`: never fails, because recursive creation of an existing directory succeeds. Failure because a file stands on the path is left out.
- `process.cwd()` is an explicit parameter. `path.join` normalisation of `..`, `/` or an empty project name is not modelled: paths are joined segment by segment, and `'src/index.ts'` is the two segments `src`, `index.ts`.
- `execSync` and the shell plumbing are not modelled: `cd … &&` prefixes, the `npm i` and `git init` invocations, and their error logging. `CreateTemplate.InstallPackages` and `CreateTemplate.DevDependencies` give only the package names each `npm i` command line lists, not the command strings.
- Prompting with `inquirer`, the spinner timers, and all `console` output are UI and timing.
- The template reads at createTemplate.js:50-61 sit outside the `try`, so a failure there would be uncaught. Template reads cannot fail in this model.
- Non-integer JSON numbers: `JsonValue` numbers are integers, and no property depends on them.
- `LegacyIndex.FileData`: its own contract gives only the number of planned files; the destinations are stated by `LegacyIndex.PlanRels` and the contents by `LegacyIndex.PlanContents`.
