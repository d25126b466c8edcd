# Capacitor CLI configuration object, modelled in Dafny

This project models the `Config` class of the Capacitor command-line tool
(`cli/src/config.ts`) and proves properties of the model. A `Config` is built
once per CLI run. It holds:

- the host OS;
- the `cli` record: where the CLI is installed;
- the `app` record: the project's root and web directories, its
  `package.json` manifest, and the optional external config file
  `capacitor.config.json`, merged on top of the defaults;
- the android, ios, windows and linux records derived from those;
- the registry of known platforms.

It also answers platform-selection queries for the CLI commands.

The model is imperative, like the source:

- `Configuration.Config` is a class whose fields are the source's fields.
- The constructor assigns the field initialisers, runs `InitOS` and
  `InitCliConfig`, and then runs the `try` block (`Initialise`).
- Each step (`InitOS`, `InitCliConfig`, `InitAppConfig`, `LoadExternalConfig`,
  `MergeConfigData`, `InitAndroidConfig`, `InitIosConfig`,
  `InitWindowsConfig`, `InitLinuxConfig`) is a method that changes only the
  fields the source's step writes.
- The constructor's `try` block is grouped into two methods: `LoadAppConfig`
  runs the three steps before the `// Post-merge` comment, and `InitPlatforms` runs the
  four steps after it plus the web registration.
- Each step's contract states the new state in terms of the old one. The
  specification functions it uses (`MergeApp`, `IosOverride`,
  `WithAndroidPaths`, `RecordExternalConfig`, …) carry their own lemmas.

Modelling choices:

- **`app`** is a `map<string, Value>` over JavaScript values, including
  `undefined`.
  - `Object.assign(app, ext)` is the right-biased map union `app + ext`.
  - Every top-level key of the external config overwrites the app record,
    even `rootDir`, `webDirAbs` or `extConfig`.
  - Nested objects such as `server` are replaced whole.
- **The environment** (module `Environment`) replaces the filesystem. It holds:
  - the process directory;
  - the set of accessible paths (`accessSync`);
  - the `package.json` manifests `require` can load;
  - each external config file's outcome: `Absent`, `Malformed` or
    `Parsed(fields)`.
- **`loadPackageJson(dir)`** is `LoadPackageJson`: the manifest at
  `join(dir, 'package.json')`, or `null` when there is none.
- **Paths.** `join` and `resolve` are segment concatenation with `/`. An
  absolute segment replaces the base in `resolve`.
- **`resolve` on JavaScript values** (`ResolveValues`). Node checks the
  arguments from the last one back and stops at the first absolute one. A
  non-string argument it checks throws a `TypeError`; the model returns
  `None` for it.
- **`logFatal`** ends the process.
  - During construction it sets the `fatal` field, and nothing after it runs.
  - Queries return `Failure(error)` instead.
- **The constructor's `catch`.** It can only see one exception: `resolve`
  throwing on a non-string argument. The model records that as
  `UnableToLoadConfig`. It can be thrown in two places:
  - in `mergeConfigData`, when the merged `webDir` is not a string, or is
    relative while the merged `rootDir` is not a string;
  - in `initAndroidConfig` (cli/src/config.ts:145), when the merged `rootDir`
    is not a string but `webDir` is absolute, so the merge succeeded. By then
    `android` is already in the registry.
- **`askPlatform` without a name** prompts the operator. The model takes the
  operator's answer as a parameter: `None` is a cancelled prompt.
- **Names** given on the command line are normalised by `toLowerCase().trim()`,
  modelled on ASCII as `Strings.Normalize`.

Behaviours the model captures that are easy to miss:

- The merge is shallow. An external `server` object replaces the default
  `{cleartext: false}` entirely (`MergeReplacesServerWholesale`).
- An external config file that has its own top-level `extConfig` key
  overwrites `app.extConfig` during the merge. `foundExternalConfig()` then
  reports whatever that key held (`FoundAfterMerge`).
- `selectPlatforms()` without a name always lists `web`, whether or not the
  web directory exists. The native platforms are listed only when their
  directories exist.

## Model

| member | source | states |
|---|---|---|
| Configuration.DetectOS | cli/src/config.ts:111-123 | `darwin`, `win32` and `linux` map to Mac, Windows and Linux; any other identifier keeps the OS already recorded |
| Configuration.LoadPackageJson | cli/src/config.ts:347-355 | the manifest at `join(dir, 'package.json')` when one can be loaded, `null` otherwise |
| Configuration.ResolveValues | cli/src/config.ts:215 | `resolve` throws exactly when the segment is not a string, or is relative and the base is not a string; with two strings it is path resolution; an absolute segment is the result whatever the base |
| Configuration.Config.InitOS | cli/src/config.ts:111-123 | only `cli.os` changes, to the detected OS |
| Configuration.Config.InitCliConfig | cli/src/config.ts:125-130 | `cli` gets the bin directory, the root `join(binDir, '../')`, the assets directory under that root and the manifest loaded from it; nothing else changes |
| Configuration.Config.InitAppConfig | cli/src/config.ts:132-135 | `app` gets the working directory as `rootDir` and the manifest loaded from it; every other key is kept |
| Configuration.Config.LoadExternalConfig | cli/src/config.ts:218-237 | records the config path; an absent file is tolerated, a malformed one is fatal naming the file's base name, a parsed one becomes `app.extConfig` |
| Configuration.MissingConfigFileTolerated | cli/src/config.ts:221-236 | with no config file, loading from the defaults merges successfully and the external config counts as not found |
| Configuration.MalformedConfigFileNamed | cli/src/config.ts:219-232 | the parse error names `capacitor.config.json`, the base name of the joined path |
| Configuration.LoadedAppFacts | cli/src/config.ts:77-79 | the defaults name `capacitor.config.json` and leave `extConfig` unset, so the merge takes exactly the parsed file's keys |
| Configuration.FoundAfterMerge | cli/src/config.ts:239-241 | after a successful merge, `foundExternalConfig` holds exactly when the file parsed, unless the file's own `extConfig` key is falsy |
| Configuration.MergeAppMeaning | cli/src/config.ts:209-216 | the merge fails exactly when the merged web directory is not a string, or is relative while the merged root is not a string; otherwise the keys are the union, external values win, unmentioned keys keep their values, and `webDirAbs` is resolved from the merged root and web directories |
| Configuration.MergeIdempotent | cli/src/config.ts:209-216 | merging the same external config twice gives the same record as merging it once |
| Configuration.MergeReplacesServerWholesale | cli/src/config.ts:209-216 | after a successful merge, an external `server` object is the app's `server` as it is; one without `cleartext` leaves `cleartext` unset |
| Configuration.Config.MergeConfigData | cli/src/config.ts:209-216 | `ok` tells whether the merge succeeded; on success `app` is the merged record, on failure it is the union before `webDirAbs` is recomputed |
| Configuration.Config.LoadAppConfig | cli/src/config.ts:94-97 | the app record and the fatal outcome after loading: parse error, merge failure, or success with `app` the merged record and `webDirAbs` resolved |
| Configuration.IosOverride | cli/src/config.ts:180-193 | an iOS setting is replaced exactly when `extConfig.ios[key]` is truthy, and then by that value |
| Configuration.Config.InitAndroidConfig | cli/src/config.ts:143-162 | registers the android name; when the app root is not a string, resolving the platform directory throws and android is unchanged; otherwise it fills in only its absolute paths |
| Configuration.Config.InitIosConfig | cli/src/config.ts:164-194 | registers the ios name; throws as android does; otherwise fills in its absolute paths and applies the two overrides |
| Configuration.AndroidPathsAbsolute | cli/src/config.ts:145-161 | under an absolute platform directory and CLI assets directory, the android platform directory, web and resource directories and both asset directories are absolute |
| Configuration.IosPathsAbsolute | cli/src/config.ts:166-179 | the same for ios, the web directory resolved under the native project directory included |
| Configuration.Config.InitWindowsConfig | cli/src/config.ts:196-201 | the Windows studio path becomes the app's on Windows and is unchanged elsewhere |
| Configuration.Config.InitLinuxConfig | cli/src/config.ts:203-207 | the Linux studio path becomes the app's when that is truthy and is unchanged otherwise |
| Configuration.Config.InitPlatforms | cli/src/config.ts:99-105 | succeeds exactly when both platform directories resolve; then the four post-merge steps' combined effect and the registry gains android, ios and web in that order; when android's throws, only android is registered and no record changes |
| Configuration.Config.Initialise | cli/src/config.ts:94-108 | the app loaded; after a successful load, construction fails exactly when a platform directory throws, with `UnableToLoadConfig`; on success the platform records initialised, the registry holding the three platform names and the app's web directory resolved |
| Configuration.Config.constructor | cli/src/config.ts:90-109 | from the field initialisers: OS and CLI record, the app's load outcome; after a successful load it completes exactly when the merged root is a string; then a valid configuration with `knownPlatforms == ["android", "ios", "web"]` and the platform records and overrides derived from the defaults |
| Configuration.ConstructedWithoutConfigFile | cli/src/config.ts:90-109 | with no config file, construction completes and `foundExternalConfig()` is false |
| Configuration.Config.FoundExternalConfig | cli/src/config.ts:239-241 | true exactly when `app.extConfig` is not one of JavaScript's falsy values |
| Configuration.Config.PlatformDirExists | cli/src/config.ts:312-325 | the probed directory is the resolved web directory for `web` and `join(rootDir, name)` otherwise; that path is returned exactly when accessible |
| Configuration.Config.ProbedDirsAbsolute | cli/src/config.ts:312-325 | under an absolute app root, a probed directory that is returned is absolute |
| Configuration.Config.IsValidPlatform | cli/src/config.ts:327-329 | a name is valid exactly when it is android, ios or web; community platforms such as electron are invalid |
| Configuration.Config.PlatformNotCreatedError | cli/src/config.ts:331-344 | `web` gets the message naming the web directory; every other name gets the "has not been created" message naming the platform |
| Configuration.Config.GetExistingPlatforms | cli/src/config.ts:296-310 | an ordered subsequence of android, ios, web ending with web, holding a native platform exactly when its directory exists |
| Platforms.PushedListListsExisting | cli/src/config.ts:296-310 | the list pushed in that order has that shape for every combination of existing directories |
| Platforms.ExistingPlatformsDetermined | cli/src/config.ts:296-310 | two lists of that shape for the same directories are equal |
| Platforms.SubsequencesEndingInWeb | cli/src/config.ts:296-310 | the four lists of that shape |
| Configuration.Config.SelectPlatforms | cli/src/config.ts:243-261 | a given name is normalised; an unknown name is fatal, a known one with no directory is fatal (the web message names the web directory), otherwise the one-element list; without a name, the existing platforms |
| Configuration.Config.AskPlatform | cli/src/config.ts:263-294 | a given name is normalised and returned exactly when valid, otherwise fatal; without a name, the operator's choice or a cancellation; any result is a valid name in normal form |
| Configuration.KnownNamesAreNormal | cli/src/config.ts:274-280 | a name chosen from the registry is unchanged by `toLowerCase().trim()` |
| Strings.Normalize | cli/src/config.ts:246 | `toLowerCase().trim()` yields lower case with no whitespace at either end |
| Strings.NormalizeFixesNormalForm | cli/src/config.ts:283 | a name already in normal form is unchanged by normalisation |
| Strings.NormalizeIdempotent | cli/src/config.ts:283 | normalising twice equals normalising once |
| Strings.Lower | cli/src/config.ts:246 | same length, each character lower-cased |
| Strings.TrimStart | cli/src/config.ts:246 | the suffix after the longest all-whitespace prefix |
| Strings.TrimEnd | cli/src/config.ts:246 | the prefix before the longest all-whitespace suffix |
| NodePath.Basename | cli/src/config.ts:229 | the longest separator-free suffix of the path |
| NodePath.BasenameOfJoin | cli/src/config.ts:219-229 | the base name of `join(dir, name)` is `name` |
| NodePath.ResolveAbsolute | cli/src/config.ts:215 | resolving against an absolute base is absolute and ends with the segment |

## Left out

- `updateAppPackage` (cli/src/config.ts:137-141) is an asynchronous re-read of `package.json`. It is I/O only.
- Reading and parsing files is not modelled; only the outcome of each (`Absent`, `Malformed`, `Parsed`) is.
- A config file whose JSON top level is not an object is not modelled. `Object.assign` would copy a string's characters as keys; `Parsed` always holds an object.
- A `__proto__` key in the config file is treated as an ordinary key. In JavaScript, `Object.assign` would replace the app record's prototype instead.
- JSON numbers are integers. Only their truthiness is ever observed.
- A relative base is not resolved against the process directory by `resolve`, and empty path segments are not skipped. The working directory is resolved once, against the process directory, in the constructor.
- Node's `path` normalisation is not modelled: `..`, `.`, repeated separators and trailing separators. `join(cliBinDir, '../')` stays a plain concatenation.
- `toLowerCase` and `trim` are modelled on ASCII only: no Unicode case mapping, and no non-ASCII whitespace.
- Message wording, `kleur` formatting and `e.stack` text are not modelled. A fatal outcome carries only the data the message names.
- The process exit of `logFatal` and of a cancelled prompt is not modelled. The model records the outcome instead.
- The prompt shown by `askPlatform` is not modelled. The operator's answer is a parameter, drawn from the registry.
- `web` and `knownCommunityPlatforms` are class constants, because the source never reassigns them.
- `Package` and `ExtConfig` are module-level variables that are never assigned. Fields initialised from them start as `undefined`.
