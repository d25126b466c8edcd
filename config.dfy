/**
 * The configuration object of the CLI (cli/src/config.ts): host OS detection,
 * the CLI and app records, the optional external config file merged onto the
 * app record, the per-platform records derived from them, and platform
 * selection. `logFatal` ends the process; here it is a `FatalError`, stored in
 * `fatal` by the constructor and returned by the queries.
 */
module Configuration {
  import opened Wrappers
  import opened Json
  import opened NodePath
  import opened Strings
  import opened Environment
  import opened Definitions
  import opened Platforms

  /** The ways the process can end while loading or selecting. */
  datatype FatalError =
    | UnableToLoadConfig          // an exception escaped a construction step
    | ConfigParseError(fileName: string)
    | InvalidPlatform(name: string)
    | WebDirMissing(webDir: Value) // the web platform was requested but its directory is missing
    | PlatformNotCreated(name: string)
    | PromptCancelled             // the operator cancelled the platform prompt

  datatype Result<T> = Success(value: T) | Failure(error: FatalError)

  const ConfigFileName := "capacitor.config.json"
  const DefaultWindowsStudioPath := "C:\\Program Files\\Android\\Android Studio\\bin\\studio64.exe"
  const DefaultLinuxStudioPath := "/usr/local/android-studio/bin/studio.sh"

  /** The host identifiers the OS is recognised from. */
  const HostOS: map<string, OS> := map["darwin" := Mac, "win32" := Windows, "linux" := Linux]

  const DefaultWindows := ToolPaths(Str(DefaultWindowsStudioPath))
  const DefaultLinux := ToolPaths(Str(DefaultLinuxStudioPath))

  const DefaultAndroid := AndroidConfig(
    name := "android", minVersion := "21", platformDir := "",
    webDir := "app/src/main/assets/public", webDirAbs := "",
    resDir := "app/src/main/res", resDirAbs := "",
    assets := PlatformAssets("android-template", "capacitor-cordova-android-plugins", "", ""))

  const DefaultIos := IosConfig(
    name := "ios", minVersion := Str("11.0"), cordovaSwiftVersion := Str("5.0"), platformDir := "",
    webDir := "public", webDirAbs := "", nativeProjectName := "App",
    assets := PlatformAssets("ios-template", "capacitor-cordova-ios-plugins", "", ""))

  const DefaultCli := CliInfo(
    binDir := "", rootDir := "", assetsName := "assets", assetsDir := "", package := Undefined, os := Unknown)

  /** The `app` record before anything is loaded; the package manifest and the external config start unset. */
  const DefaultApp: map<string, Value> := map[
    "rootDir" := Str(""),
    "appId" := Str(""),
    "appName" := Str(""),
    "webDir" := Str("www"),
    "webDirAbs" := Str(""),
    "package" := Undefined,
    "windowsAndroidStudioPath" := Str(DefaultWindowsStudioPath),
    "linuxAndroidStudioPath" := Str(""),
    "extConfigName" := Str(ConfigFileName),
    "extConfigFilePath" := Str(""),
    "extConfig" := Undefined,
    "bundledWebRuntime" := Bool(false),
    "plugins" := Obj(map[]),
    "server" := Obj(map["cleartext" := Bool(false)])]

  /** The host OS for an identifier; an unrecognised identifier leaves `current` as it is. */
  function DetectOS(id: string, current: OS): (os: OS)
    ensures id in HostOS ==> os == HostOS[id]
    ensures id !in HostOS ==> os == current
  {
    if id == "darwin" then Mac
    else if id == "win32" then Windows
    else if id == "linux" then Linux
    else current
  }

  /** `loadPackageJson(dir)`: the manifest `require` loads, or `null` when loading fails. */
  function LoadPackageJson(dir: string, env: Env): (manifest: Value)
    ensures Join(dir, "package.json") in env.manifests ==> manifest == env.manifests[Join(dir, "package.json")]
    ensures Join(dir, "package.json") !in env.manifests ==> manifest == Null
  {
    var path := Join(dir, "package.json");
    if path in env.manifests then env.manifests[path] else Null
  }

  /** `extConfig || {}` for the values `loadExternalConfig` leaves in `app.extConfig`. */
  function MergeSource(extConfig: Value): map<string, Value> {
    if extConfig.Obj? then extConfig.fields else map[]
  }

  /**
   * `resolve(base, segment)` on JavaScript values. Node checks the arguments
   * from the last one back and stops at the first absolute one, so an
   * absolute segment is the result whatever the base is; `None` stands for
   * the `TypeError` thrown on a non-string argument that is checked.
   */
  function ResolveValues(base: Value, segment: Value): (p: Option<string>)
    ensures p.None? <==> !segment.Str? || (!IsAbsolute(segment.s) && !base.Str?)
    ensures segment.Str? && base.Str? ==> p == Some(Resolve(base.s, segment.s))
    ensures segment.Str? && IsAbsolute(segment.s) ==> p == Some(segment.s)
  {
    if !segment.Str? then None
    else if IsAbsolute(segment.s) then Some(segment.s)
    else if !base.Str? then None
    else Some(Join(base.s, segment.s))
  }

  /**
   * `mergeConfigData`: `Object.assign(app, ext)`, then `app.webDirAbs :=
   * resolve(app.rootDir, app.webDir)`, which may throw.
   */
  function MergeApp(app: map<string, Value>, ext: map<string, Value>): Result<map<string, Value>>
  {
    var merged := app + ext;
    match ResolveValues(Get(merged, "rootDir"), Get(merged, "webDir"))
    case Some(webDirAbs) => Success(merged["webDirAbs" := Str(webDirAbs)])
    case None => Failure(UnableToLoadConfig)
  }

  /**
   * What the merge yields: it fails exactly when resolving the merged web
   * directory throws (it is not a string, or it is relative and the merged
   * root is not a string); otherwise it holds every key of both records, the
   * external config's values winning, plus the resolved web directory.
   */
  lemma MergeAppMeaning(app: map<string, Value>, ext: map<string, Value>)
    ensures var r := MergeApp(app, ext); var webDir := Get(app + ext, "webDir");
      r.Success? <==> webDir.Str? && (IsAbsolute(webDir.s) || Get(app + ext, "rootDir").Str?)
    ensures var r := MergeApp(app, ext); r.Failure? ==> r.error == UnableToLoadConfig
    ensures var r := MergeApp(app, ext); r.Success? ==> r.value.Keys == app.Keys + ext.Keys + {"webDirAbs"}
    ensures var r := MergeApp(app, ext); r.Success? ==> forall k :: k in ext && k != "webDirAbs" ==> r.value[k] == ext[k]
    ensures var r := MergeApp(app, ext); r.Success? ==> forall k :: k in app && k !in ext && k != "webDirAbs" ==> r.value[k] == app[k]
    ensures var r := MergeApp(app, ext); r.Success? ==>
      && Get(r.value, "rootDir") == Get(app + ext, "rootDir")
      && r.value["webDir"] == Get(app + ext, "webDir")
      && r.value["webDirAbs"] == Str(ResolveValues(Get(r.value, "rootDir"), r.value["webDir"]).value)
  {
  }

  /** Merging the same external config a second time changes nothing. */
  lemma MergeIdempotent(app: map<string, Value>, ext: map<string, Value>)
    requires MergeApp(app, ext).Success?
    ensures MergeApp(MergeApp(app, ext).value, ext) == MergeApp(app, ext)
  {
    var merged := app + ext;
    var abs := Str(ResolveValues(Get(merged, "rootDir"), Get(merged, "webDir")).value);
    var once := merged["webDirAbs" := abs];
    assert MergeApp(app, ext) == Success(once);
    ReassigningMergedKeys(merged, ext, "webDirAbs", abs);
    assert Get(once + ext, "rootDir") == Get(merged, "rootDir");
    assert Get(once + ext, "webDir") == Get(merged, "webDir");
  }

  /** Assigning again keys a map already holds, then resetting one key, gives the map back. */
  lemma ReassigningMergedKeys(merged: map<string, Value>, ext: map<string, Value>, key: string, v: Value)
    requires forall k | k in ext :: k in merged && merged[k] == ext[k]
    ensures (merged[key := v] + ext)[key := v] == merged[key := v]
  {
    var once := merged[key := v];
    var again := (once + ext)[key := v];
    assert again.Keys == once.Keys;
    forall k | k in once ensures again[k] == once[k] {
      if k != key && k in ext {
        assert again[k] == ext[k] == merged[k];
      }
    }
  }

  /**
   * The merge is shallow: an external `server` object replaces the app's own
   * whole, so a field it does not mention, such as `cleartext`, is gone.
   */
  lemma MergeReplacesServerWholesale(app: map<string, Value>, ext: map<string, Value>)
    requires MergeApp(app, ext).Success?
    requires "server" in ext && ext["server"].Obj? && "cleartext" !in ext["server"].fields
    ensures MergeApp(app, ext).value["server"] == ext["server"]
    ensures Member(MergeApp(app, ext).value["server"], "cleartext") == Undefined
  {
  }

  /** `app.extConfig.ios[key]`, read behind the source's truthiness guards. */
  function IosSetting(extConfig: Value, key: string): Value {
    Member(Member(extConfig, "ios"), key)
  }

  /**
   * An iOS setting that the external config may override: replaced only when
   * the external config supplies a truthy value for it. The source guards
   * each step of `app.extConfig.ios[key]`; only the last one decides.
   */
  function IosOverride(current: Value, extConfig: Value, key: string): (v: Value)
    ensures Truthy(IosSetting(extConfig, key)) ==> v == IosSetting(extConfig, key)
    ensures !Truthy(IosSetting(extConfig, key)) ==> v == current
  {
    if Truthy(extConfig) && Truthy(Member(extConfig, "ios")) && Truthy(Member(Member(extConfig, "ios"), key)) then
      Member(Member(extConfig, "ios"), key)
    else
      current
  }

  /** The android record with its platform directory and the absolute paths under it filled in. */
  function WithAndroidPaths(a: AndroidConfig, platformDir: string, assetsDir: string): AndroidConfig {
    a.(platformDir := platformDir,
       webDirAbs := Resolve(platformDir, a.webDir),
       resDirAbs := Resolve(platformDir, a.resDir),
       assets := a.assets.(templateDir := Resolve(assetsDir, a.assets.templateName),
                           pluginsDir := Resolve(assetsDir, a.assets.pluginsFolderName)))
  }

  /** The ios record with its platform directory and the absolute paths under it filled in (the overridable settings untouched). */
  function WithIosPaths(i: IosConfig, platformDir: string, assetsDir: string): IosConfig {
    i.(platformDir := platformDir,
       webDirAbs := Resolve(Resolve(platformDir, i.nativeProjectName), i.webDir),
       assets := i.assets.(templateDir := Resolve(assetsDir, i.assets.templateName),
                           pluginsDir := Resolve(assetsDir, i.assets.pluginsFolderName)))
  }

  /** Under an absolute platform directory and assets directory, every path of the android record is absolute. */
  lemma AndroidPathsAbsolute(a: AndroidConfig, platformDir: string, assetsDir: string)
    requires IsAbsolute(platformDir) && IsAbsolute(assetsDir)
    ensures var r := WithAndroidPaths(a, platformDir, assetsDir);
      && IsAbsolute(r.platformDir) && IsAbsolute(r.webDirAbs) && IsAbsolute(r.resDirAbs)
      && IsAbsolute(r.assets.templateDir) && IsAbsolute(r.assets.pluginsDir)
  {
    ResolveAbsolute(platformDir, a.webDir);
    ResolveAbsolute(platformDir, a.resDir);
    ResolveAbsolute(assetsDir, a.assets.templateName);
    ResolveAbsolute(assetsDir, a.assets.pluginsFolderName);
  }

  /**
   * Under an absolute platform directory and assets directory, every path of
   * the ios record is absolute, the web directory resolved under the native
   * project directory included.
   */
  lemma IosPathsAbsolute(i: IosConfig, platformDir: string, assetsDir: string)
    requires IsAbsolute(platformDir) && IsAbsolute(assetsDir)
    ensures var r := WithIosPaths(i, platformDir, assetsDir);
      && IsAbsolute(r.platformDir) && IsAbsolute(r.webDirAbs)
      && IsAbsolute(r.assets.templateDir) && IsAbsolute(r.assets.pluginsDir)
  {
    ResolveAbsolute(platformDir, i.nativeProjectName);
    ResolveAbsolute(Resolve(platformDir, i.nativeProjectName), i.webDir);
    ResolveAbsolute(assetsDir, i.assets.templateName);
    ResolveAbsolute(assetsDir, i.assets.pluginsFolderName);
  }

  /** The path of the external config file: the app root joined with the file name. */
  function ConfigPath(app: map<string, Value>): string
    requires Get(app, "rootDir").Str? && Get(app, "extConfigName").Str?
  {
    Join(Get(app, "rootDir").s, Get(app, "extConfigName").s)
  }

  /** `resolve(app.rootDir, name)` for a platform `name`; `None` when it throws. */
  function PlatformDir(app: map<string, Value>, name: string): Option<string> {
    ResolveValues(Get(app, "rootDir"), Str(name))
  }

  /** The `app` record after `loadExternalConfig` returns: the path recorded and a parsed file stored. */
  function RecordExternalConfig(app: map<string, Value>, env: Env): map<string, Value>
    requires Get(app, "rootDir").Str? && Get(app, "extConfigName").Str?
  {
    var recorded := app["extConfigFilePath" := Str(ConfigPath(app))];
    match ReadConfigFile(env, ConfigPath(app))
    case Parsed(fields) => recorded["extConfig" := Obj(fields)]
    case _ => recorded
  }

  /** The `app` record `app0` after `initAppConfig` sets the working directory and its package manifest. */
  function InitialApp(app0: map<string, Value>, rootDir: string, env: Env): map<string, Value> {
    app0["rootDir" := Str(rootDir)]["package" := LoadPackageJson(rootDir, env)]
  }

  /** The `app` record `app0` as `initAppConfig` and `loadExternalConfig` leave it, just before the merge. */
  function LoadedApp(app0: map<string, Value>, rootDir: string, env: Env): map<string, Value>
    requires Get(app0, "extConfigName").Str?
  {
    assert Get(InitialApp(app0, rootDir, env), "extConfigName") == Get(app0, "extConfigName");
    RecordExternalConfig(InitialApp(app0, rootDir, env), env)
  }

  /**
   * The `try` block up to the merge, from the record `app0` and the working
   * directory `rootDir`: a non-string config name makes `join` throw, a
   * malformed config file is fatal naming the file, and otherwise the loaded
   * record is merged with its external config.
   */
  function LoadApp(app0: map<string, Value>, rootDir: string, env: Env): Result<map<string, Value>> {
    if !Get(app0, "extConfigName").Str? then Failure(UnableToLoadConfig)
    else
      var path := Join(rootDir, Get(app0, "extConfigName").s);
      var loaded := LoadedApp(app0, rootDir, env);
      if ReadConfigFile(env, path).Malformed? then Failure(ConfigParseError(Basename(path)))
      else MergeApp(loaded, MergeSource(Get(loaded, "extConfig")))
  }

  /**
   * Loading starts from the defaults: the file read is `capacitor.config.json`
   * under the working directory, and what the merge takes from the loaded
   * record is exactly the parsed file's keys (none when the file is missing).
   */
  lemma LoadedAppFacts(rootDir: string, env: Env)
    ensures Get(DefaultApp, "extConfigName") == Str(ConfigFileName)
    ensures Get(DefaultApp, "extConfig") == Undefined
    ensures var file := ReadConfigFile(env, Join(rootDir, ConfigFileName));
            MergeSource(Get(LoadedApp(DefaultApp, rootDir, env), "extConfig")) == FileFields(file)
  {
    assert ConfigPath(InitialApp(DefaultApp, rootDir, env)) == Join(rootDir, ConfigFileName);
  }

  /** The top-level keys an external config file contributes to the merge. */
  function FileFields(file: ConfigFile): map<string, Value> {
    if file.Parsed? then file.fields else map[]
  }

  /**
   * After loading from the defaults succeeds, the external config counts as
   * found exactly when the file parsed, unless the file itself has an
   * `extConfig` key: that key overwrites `app.extConfig` like any other.
   */
  lemma FoundAfterMerge(rootDir: string, env: Env)
    requires LoadApp(DefaultApp, rootDir, env).Success?
    ensures var file := ReadConfigFile(env, Join(rootDir, ConfigFileName));
            var app := LoadApp(DefaultApp, rootDir, env).value;
            Truthy(Get(app, "extConfig")) <==> file.Parsed? && ("extConfig" in file.fields ==> Truthy(file.fields["extConfig"]))
  {
    LoadedAppFacts(rootDir, env);
  }

  /**
   * A missing external config file is tolerated: loading from the defaults
   * succeeds with the working directory as the app root, and the external
   * config is not found.
   */
  lemma MissingConfigFileTolerated(rootDir: string, env: Env)
    requires ReadConfigFile(env, Join(rootDir, ConfigFileName)).Absent?
    ensures LoadApp(DefaultApp, rootDir, env).Success?
    ensures Get(LoadApp(DefaultApp, rootDir, env).value, "rootDir") == Str(rootDir)
    ensures !Truthy(Get(LoadApp(DefaultApp, rootDir, env).value, "extConfig"))
  {
    LoadedAppFacts(rootDir, env);
    var loaded := LoadedApp(DefaultApp, rootDir, env);
    assert Get(loaded, "rootDir") == Str(rootDir);
    assert Get(loaded, "webDir") == Str("www");
    assert Get(loaded, "extConfig") == Undefined;
  }

  /** A malformed external config file is reported by its own name, `capacitor.config.json`. */
  lemma MalformedConfigFileNamed(rootDir: string)
    ensures Basename(Join(rootDir, ConfigFileName)) == ConfigFileName
  {
    BasenameOfJoin(rootDir, ConfigFileName);
  }

  class Config {
    var windows: ToolPaths
    var linux: ToolPaths
    var android: AndroidConfig
    var ios: IosConfig
    const web: WebConfig := WebConfig("web")
    var cli: CliInfo
    var app: map<string, Value>
    var knownPlatforms: seq<string>
    const knownCommunityPlatforms: seq<string> := ["electron"]
    /** Set once `logFatal` is reached during construction: the process has ended. */
    var fatal: Option<FatalError>

    /** A configuration whose construction completed. */
    ghost predicate Valid()
      reads this
    {
      && fatal.None?
      && android.name == "android" && ios.name == "ios"
      && knownPlatforms == [android.name, ios.name, web.name]
      && Get(app, "rootDir").Str? && Get(app, "webDir").Str?
      && Get(app, "webDirAbs") == Str(Resolve(Get(app, "rootDir").s, Get(app, "webDir").s))
    }

    function RootDir(): string
      reads this
      requires Valid()
    {
      Get(app, "rootDir").s
    }

    function WebDir(): string
      reads this
      requires Valid()
    {
      Get(app, "webDir").s
    }

    /** `cli` as `initOS` and `initCliConfig` leave the record `cli0`. */
    ghost predicate CliInitialised(cli0: CliInfo, os: string, cliBinDir: string, env: Env)
      reads this`cli
    {
      var root := Join(cliBinDir, "../");
      cli == cli0.(os := DetectOS(os, cli0.os), binDir := cliBinDir, rootDir := root,
                   assetsDir := Join(root, cli0.assetsName), package := LoadPackageJson(root, env))
    }

    /**
     * `app` and the fatal outcome as loading leaves the record `app0` for the
     * working directory `rootDir`: a failed load is fatal with its error, a
     * successful one leaves the merged record in `app`.
     */
    ghost predicate AppLoaded(app0: map<string, Value>, rootDir: string, env: Env)
      reads this`app, this`fatal
    {
      var r := LoadApp(app0, rootDir, env);
      && (r.Failure? ==> fatal == Some(r.error))
      && (r.Success? ==> app == r.value)
    }

    /**
     * The platform records as the post-merge steps leave `android0`, `ios0`,
     * `windows0` and `linux0`: platform directories under the app root and
     * absolute paths under them and the CLI assets, the iOS settings the
     * external config overrides, the Windows path taken from `app` on Windows
     * only and the Linux path taken from `app` when non-empty.
     */
    ghost predicate PlatformsInitialised(android0: AndroidConfig, ios0: IosConfig, windows0: ToolPaths, linux0: ToolPaths)
      reads this`android, this`ios, this`windows, this`linux, this`app, this`cli
    {
      && PlatformDir(app, android0.name).Some? && PlatformDir(app, ios0.name).Some?
      && android == WithAndroidPaths(android0, PlatformDir(app, android0.name).value, cli.assetsDir)
      && ios == WithIosPaths(ios0, PlatformDir(app, ios0.name).value, cli.assetsDir).(
           cordovaSwiftVersion := IosOverride(ios0.cordovaSwiftVersion, Get(app, "extConfig"), "cordovaSwiftVersion"),
           minVersion := IosOverride(ios0.minVersion, Get(app, "extConfig"), "minVersion"))
      && windows == (if cli.os == Windows then ToolPaths(Get(app, "windowsAndroidStudioPath")) else windows0)
      && linux == (if Truthy(Get(app, "linuxAndroidStudioPath")) then ToolPaths(Get(app, "linuxAndroidStudioPath")) else linux0)
    }

    /**
     * Construction from the field initialisers. It fails when loading fails,
     * or when the merged app root is not a string (resolving the android
     * directory then throws); otherwise the configuration is valid, holds
     * exactly the three known platforms, and its platform records derive
     * from the defaults.
     */
    constructor (os: string, currentWorkingDir: string, cliBinDir: string, env: Env)
      ensures CliInitialised(DefaultCli, os, cliBinDir, env)
      ensures AppLoaded(DefaultApp, Resolve(env.processDir, currentWorkingDir), env)
      ensures LoadApp(DefaultApp, Resolve(env.processDir, currentWorkingDir), env).Success? ==>
        (fatal.None? <==> Get(app, "rootDir").Str?) && (fatal.Some? ==> fatal == Some(UnableToLoadConfig))
      ensures fatal.None? ==> Valid() && PlatformsInitialised(DefaultAndroid, DefaultIos, DefaultWindows, DefaultLinux)
      ensures fatal.None? ==> knownPlatforms == KnownPlatformNames
    {
      windows := DefaultWindows;
      linux := DefaultLinux;
      android := DefaultAndroid;
      ios := DefaultIos;
      cli := DefaultCli;
      app := DefaultApp;
      knownPlatforms := [];
      fatal := None;
      assert DefaultAndroid.name == "android" && DefaultIos.name == "ios";
      assert !IsAbsolute("android") && !IsAbsolute("ios");
      LoadedAppFacts(Resolve(env.processDir, currentWorkingDir), env);
      new;
      InitOS(os);
      InitCliConfig(cliBinDir, env);
      assert app == DefaultApp && fatal.None? && knownPlatforms == [];
      assert android == DefaultAndroid && ios == DefaultIos && windows == DefaultWindows && linux == DefaultLinux;
      Initialise(Resolve(env.processDir, currentWorkingDir), env);
    }

    /**
     * The constructor's `try` block, run on the field initialisers: its
     * `catch` turns a throw into the fatal outcome and skips the remaining
     * steps.
     */
    method Initialise(rootDir: string, env: Env)
      requires Get(app, "extConfigName").Str? && Get(app, "extConfig") == Undefined && fatal.None? && knownPlatforms == []
      modifies this`app, this`fatal, this`android, this`ios, this`windows, this`linux, this`knownPlatforms
      ensures AppLoaded(old(app), rootDir, env)
      ensures LoadApp(old(app), rootDir, env).Success? ==>
        && (fatal.None? <==> PlatformDir(app, old(android.name)).Some? && PlatformDir(app, old(ios.name)).Some?)
        && (fatal.Some? ==> fatal == Some(UnableToLoadConfig))
      ensures fatal.None? ==>
        && PlatformsInitialised(old(android), old(ios), old(windows), old(linux))
        && knownPlatforms == [android.name, ios.name, web.name]
        && android.name == old(android.name) && ios.name == old(ios.name)
        && Get(app, "webDir").Str? && ResolveValues(Get(app, "rootDir"), Get(app, "webDir")).Some?
        && Get(app, "webDirAbs") == Str(ResolveValues(Get(app, "rootDir"), Get(app, "webDir")).value)
    {
      LoadAppConfig(rootDir, env);
      assert android == old(android) && ios == old(ios) && windows == old(windows) && linux == old(linux);
      if fatal.None? {
        var initialised := InitPlatforms();
        if initialised.Failure? {
          fatal := Some(initialised.error);
        }
      }
    }

    /**
     * The first half of the constructor's `try` block: `initAppConfig`,
     * `loadExternalConfig` and `mergeConfigData` in turn.
     */
    method LoadAppConfig(rootDir: string, env: Env)
      requires Get(app, "extConfigName").Str? && Get(app, "extConfig") == Undefined && fatal.None?
      modifies this`app, this`fatal
      ensures AppLoaded(old(app), rootDir, env)
      ensures fatal.None? <==> LoadApp(old(app), rootDir, env).Success?
      ensures fatal.None? ==>
        && Get(app, "webDir").Str? && ResolveValues(Get(app, "rootDir"), Get(app, "webDir")).Some?
        && Get(app, "webDirAbs") == Str(ResolveValues(Get(app, "rootDir"), Get(app, "webDir")).value)
    {
      InitAppConfig(rootDir, env);
      var loaded := LoadExternalConfig(env);
      if loaded.Failure? {
        fatal := Some(loaded.error);
        return;
      }
      var merged := MergeConfigData();
      if !merged {
        fatal := Some(UnableToLoadConfig);
      }
    }

    /**
     * The post-merge half of the constructor's `try` block: the android, iOS,
     * Windows and Linux steps in turn, then the web platform is registered.
     * Resolving a platform directory throws when the app root is not a
     * string; the steps after it do not run.
     */
    method InitPlatforms() returns (r: Result<()>)
      modifies this`android, this`ios, this`windows, this`linux, this`knownPlatforms
      ensures r.Success? <==> PlatformDir(app, old(android.name)).Some? && PlatformDir(app, old(ios.name)).Some?
      ensures r.Failure? ==> r.error == UnableToLoadConfig
      ensures r.Success? ==>
        && PlatformsInitialised(old(android), old(ios), old(windows), old(linux))
        && knownPlatforms == old(knownPlatforms) + [old(android.name), old(ios.name), web.name]
        && android.name == old(android.name) && ios.name == old(ios.name)
      ensures PlatformDir(app, old(android.name)).None? ==>
        && knownPlatforms == old(knownPlatforms) + [old(android.name)]
        && android == old(android) && ios == old(ios) && windows == old(windows) && linux == old(linux)
    {
      r := InitAndroidConfig();
      if r.Failure? {
        return;
      }
      r := InitIosConfig();
      if r.Failure? {
        return;
      }
      InitWindowsConfig();
      InitLinuxConfig();
      knownPlatforms := knownPlatforms + [web.name];
    }

    /** `initOS`: records the host OS; an unrecognised identifier keeps the one recorded. */
    method InitOS(os: string)
      modifies this`cli
      ensures cli == old(cli).(os := DetectOS(os, old(cli.os)))
    {
      cli := cli.(os := DetectOS(os, cli.os));
    }

    method InitCliConfig(cliBinDir: string, env: Env)
      modifies this`cli
      ensures cli == old(cli).(binDir := cliBinDir, rootDir := Join(cliBinDir, "../"),
                               assetsDir := Join(Join(cliBinDir, "../"), old(cli.assetsName)),
                               package := LoadPackageJson(Join(cliBinDir, "../"), env))
    {
      cli := cli.(binDir := cliBinDir);
      cli := cli.(rootDir := Join(cliBinDir, "../"));
      cli := cli.(assetsDir := Join(cli.rootDir, cli.assetsName));
      cli := cli.(package := LoadPackageJson(cli.rootDir, env));
    }

    method InitAppConfig(currentWorkingDir: string, env: Env)
      modifies this`app
      ensures app == InitialApp(old(app), currentWorkingDir, env)
    {
      app := app["rootDir" := Str(currentWorkingDir)];
      app := app["package" := LoadPackageJson(currentWorkingDir, env)];
    }

    /**
     * `loadExternalConfig`: records the config file's path; a missing file is
     * tolerated, a malformed one is fatal naming the file, a parsed one becomes
     * `app.extConfig`.
     */
    method LoadExternalConfig(env: Env) returns (r: Result<()>)
      requires Get(app, "rootDir").Str? && Get(app, "extConfigName").Str?
      modifies this`app
      ensures app == RecordExternalConfig(old(app), env)
      ensures r ==
        if ReadConfigFile(env, ConfigPath(old(app))).Malformed? then Failure(ConfigParseError(Basename(ConfigPath(old(app)))))
        else Success(())
    {
      app := app["extConfigFilePath" := Str(Join(Get(app, "rootDir").s, Get(app, "extConfigName").s))];
      var path := app["extConfigFilePath"].s;
      match ReadConfigFile(env, path)
      case Absent =>
        r := Success(());
      case Malformed =>
        r := Failure(ConfigParseError(Basename(path)));
      case Parsed(fields) =>
        app := app["extConfig" := Obj(fields)];
        r := Success(());
    }

    /** `foundExternalConfig`: `!!app.extConfig`. */
    function FoundExternalConfig(): (found: bool)
      reads this
      ensures var v := Get(app, "extConfig");
        found <==> v != Undefined && v != Null && v != Bool(false) && v != Num(0) && v != Str("")
    {
      Truthy(Get(app, "extConfig"))
    }

    /** `mergeConfigData`; `ok` is false when recomputing `webDirAbs` throws. */
    method MergeConfigData() returns (ok: bool)
      requires Get(app, "extConfig").Undefined? || Get(app, "extConfig").Obj?
      modifies this`app
      ensures var r := MergeApp(old(app), MergeSource(Get(old(app), "extConfig")));
              && ok == r.Success?
              && (ok ==> app == r.value)
              && (!ok ==> app == old(app) + MergeSource(Get(old(app), "extConfig")))
    {
      var ext := MergeSource(Get(app, "extConfig"));
      app := app + ext;
      var webDirAbs := ResolveValues(Get(app, "rootDir"), Get(app, "webDir"));
      if webDirAbs.Some? {
        app := app["webDirAbs" := Str(webDirAbs.value)];
        ok := true;
      } else {
        ok := false;
      }
    }

    /**
     * `initAndroidConfig`: registers android, then resolves its platform
     * directory under the app root, which throws when the root is not a
     * string, and fills in the absolute paths; no other android field changes.
     */
    method InitAndroidConfig() returns (r: Result<()>)
      modifies this`android, this`knownPlatforms
      ensures knownPlatforms == old(knownPlatforms) + [old(android.name)]
      ensures PlatformDir(app, old(android.name)).None? ==> r == Failure(UnableToLoadConfig) && android == old(android)
      ensures PlatformDir(app, old(android.name)).Some? ==>
        r == Success(()) && android == WithAndroidPaths(old(android), PlatformDir(app, old(android.name)).value, cli.assetsDir)
    {
      knownPlatforms := knownPlatforms + [android.name];
      var platformDir := ResolveValues(Get(app, "rootDir"), Str(android.name));
      if platformDir.None? {
        return Failure(UnableToLoadConfig);
      }
      android := android.(platformDir := platformDir.value);
      android := android.(assets := android.assets.(templateDir := Resolve(cli.assetsDir, android.assets.templateName)));
      android := android.(assets := android.assets.(pluginsDir := Resolve(cli.assetsDir, android.assets.pluginsFolderName)));
      android := android.(webDirAbs := Resolve(android.platformDir, android.webDir));
      android := android.(resDirAbs := Resolve(android.platformDir, android.resDir));
      r := Success(());
    }

    /**
     * `initIosConfig`: registers ios, resolves its platform directory as
     * android's is resolved, fills in its absolute paths and applies the
     * external config's truthy `ios.cordovaSwiftVersion` and `ios.minVersion`.
     */
    method InitIosConfig() returns (r: Result<()>)
      modifies this`ios, this`knownPlatforms
      ensures knownPlatforms == old(knownPlatforms) + [old(ios.name)]
      ensures PlatformDir(app, old(ios.name)).None? ==> r == Failure(UnableToLoadConfig) && ios == old(ios)
      ensures PlatformDir(app, old(ios.name)).Some? ==>
        && r == Success(())
        && ios == WithIosPaths(old(ios), PlatformDir(app, old(ios.name)).value, cli.assetsDir).(
             cordovaSwiftVersion := IosOverride(old(ios.cordovaSwiftVersion), Get(app, "extConfig"), "cordovaSwiftVersion"),
             minVersion := IosOverride(old(ios.minVersion), Get(app, "extConfig"), "minVersion"))
    {
      knownPlatforms := knownPlatforms + [ios.name];
      var platformDir := ResolveValues(Get(app, "rootDir"), Str(ios.name));
      if platformDir.None? {
        return Failure(UnableToLoadConfig);
      }
      ios := ios.(platformDir := platformDir.value);
      ios := ios.(assets := ios.assets.(templateDir := Resolve(cli.assetsDir, ios.assets.templateName)));
      ios := ios.(assets := ios.assets.(pluginsDir := Resolve(cli.assetsDir, ios.assets.pluginsFolderName)));
      ios := ios.(webDirAbs := Resolve(Resolve(ios.platformDir, ios.nativeProjectName), ios.webDir));
      var extConfig := Get(app, "extConfig");
      if Truthy(extConfig) && Truthy(Member(extConfig, "ios")) && Truthy(Member(Member(extConfig, "ios"), "cordovaSwiftVersion")) {
        ios := ios.(cordovaSwiftVersion := Member(Member(extConfig, "ios"), "cordovaSwiftVersion"));
      }
      if Truthy(extConfig) && Truthy(Member(extConfig, "ios")) && Truthy(Member(Member(extConfig, "ios"), "minVersion")) {
        ios := ios.(minVersion := Member(Member(extConfig, "ios"), "minVersion"));
      }
      r := Success(());
    }

    /** `initWindowsConfig`: on Windows the Android Studio path is the app's; elsewhere it is left as it is. */
    method InitWindowsConfig()
      modifies this`windows
      ensures windows == if cli.os == Windows then ToolPaths(Get(app, "windowsAndroidStudioPath")) else old(windows)
    {
      if cli.os != Windows {
        return;
      }
      windows := windows.(androidStudioPath := Get(app, "windowsAndroidStudioPath"));
    }

    /** `initLinuxConfig`: a non-empty app Linux Android Studio path replaces the default. */
    method InitLinuxConfig()
      modifies this`linux
      ensures linux == if Truthy(Get(app, "linuxAndroidStudioPath")) then ToolPaths(Get(app, "linuxAndroidStudioPath")) else old(linux)
    {
      if Truthy(Get(app, "linuxAndroidStudioPath")) {
        linux := linux.(androidStudioPath := Get(app, "linuxAndroidStudioPath"));
      }
    }

    /**
     * `platformDirExists`: the directory probed for a platform, when it is
     * accessible; the web platform's is the merged web directory.
     */
    function PlatformDirExists(platformName: string, env: Env): (dir: Option<string>)
      reads this
      requires Valid()
      ensures platformName == "web" ==> (dir.Some? <==> Accessible(env, Resolve(RootDir(), WebDir())))
      ensures platformName != "web" ==> (dir.Some? <==> Accessible(env, Join(RootDir(), platformName)))
      ensures dir.Some? ==> Accessible(env, dir.value)
      ensures dir.Some? ==> dir.value == (if platformName == "web" then Resolve(RootDir(), WebDir()) else Join(RootDir(), platformName))
    {
      var testDir := if platformName == "web" then Get(app, "webDirAbs").s else Join(Get(app, "rootDir").s, platformName);
      if Accessible(env, testDir) then Some(testDir) else None
    }

    /** `isValidPlatform`: membership in the registry, which holds exactly android, ios and web. */
    function IsValidPlatform(platform: string): (valid: bool)
      reads this
      requires Valid()
      ensures valid <==> platform == "android" || platform == "ios" || platform == "web"
      ensures platform in knownCommunityPlatforms ==> !valid
    {
      platform in knownPlatforms
    }

    /** `platformNotCreatedError`: the web platform's message names the web directory; any other suggests adding the platform. */
    function PlatformNotCreatedError(platformName: string): (e: FatalError)
      reads this
      ensures e.WebDirMissing? <==> platformName == "web"
      ensures platformName == "web" ==> e == WebDirMissing(Get(app, "webDir"))
      ensures platformName != "web" ==> e == PlatformNotCreated(platformName)
    {
      if platformName == "web" then WebDirMissing(Get(app, "webDir")) else PlatformNotCreated(platformName)
    }

    /** Under an absolute app root, every directory probed for a platform is absolute. */
    lemma ProbedDirsAbsolute(platformName: string, env: Env)
      requires Valid() && IsAbsolute(RootDir())
      ensures PlatformDirExists(platformName, env).Some? ==> IsAbsolute(PlatformDirExists(platformName, env).value)
    {
      if platformName == "web" {
        ResolveAbsolute(RootDir(), WebDir());
      } else {
        assert Join(RootDir(), platformName)[0] == RootDir()[0];
      }
    }

    /** `getExistingPlatforms`. */
    method GetExistingPlatforms(env: Env) returns (platforms: seq<string>)
      requires Valid()
      ensures ListsExistingPlatforms(platforms,
                PlatformDirExists("android", env).Some?, PlatformDirExists("ios", env).Some?)
    {
      ghost var androidExists := PlatformDirExists("android", env).Some?;
      ghost var iosExists := PlatformDirExists("ios", env).Some?;
      platforms := [];
      if PlatformDirExists(android.name, env).Some? {
        platforms := platforms + [android.name];
      }
      assert platforms == if androidExists then ["android"] else [];
      if PlatformDirExists(ios.name, env).Some? {
        platforms := platforms + [ios.name];
      }
      assert platforms == (if androidExists then ["android"] else []) + (if iosExists then ["ios"] else []);
      platforms := platforms + [web.name];
      PushedListListsExisting(androidExists, iosExists);
    }

    /**
     * `selectPlatforms`: a given name is normalised and must be a known
     * platform whose directory exists; without a name, the created platforms.
     */
    method SelectPlatforms(selectedPlatformName: Option<string>, env: Env) returns (r: Result<seq<string>>)
      requires Valid()
      ensures selectedPlatformName.None? || selectedPlatformName.value == "" ==>
        r.Success? && ListsExistingPlatforms(r.value,
          PlatformDirExists("android", env).Some?, PlatformDirExists("ios", env).Some?)
      ensures selectedPlatformName.Some? && selectedPlatformName.value != "" ==>
        var name := Normalize(selectedPlatformName.value);
        && (!IsValidPlatform(name) ==> r == Failure(InvalidPlatform(name)))
        && (IsValidPlatform(name) && PlatformDirExists(name, env).None? ==>
              r.Failure? && (r.error.WebDirMissing? <==> name == "web")
              && (name == "web" ==> r.error.webDir == Str(WebDir()))
              && (name != "web" ==> r.error == PlatformNotCreated(name)))
        && (IsValidPlatform(name) && PlatformDirExists(name, env).Some? ==> r == Success([name]))
    {
      if selectedPlatformName.Some? && selectedPlatformName.value != "" {
        var platformName := Normalize(selectedPlatformName.value);
        if !IsValidPlatform(platformName) {
          return Failure(InvalidPlatform(platformName));
        } else if PlatformDirExists(platformName, env).None? {
          return Failure(PlatformNotCreatedError(platformName));
        }
        return Success([platformName]);
      }
      var existing := GetExistingPlatforms(env);
      return Success(existing);
    }

    /**
     * `askPlatform`: a given name is normalised and must be a known platform;
     * without one, the operator picks from the registry (`answer`, `None` when
     * the prompt is cancelled).
     */
    method AskPlatform(selectedPlatformName: string, answer: Option<string>) returns (r: Result<string>)
      requires Valid()
      requires answer.Some? ==> answer.value in knownPlatforms
      ensures selectedPlatformName != "" ==>
        && (r.Success? <==> IsValidPlatform(Normalize(selectedPlatformName)))
        && (r.Success? ==> r.value == Normalize(selectedPlatformName))
        && (r.Failure? ==> r.error == InvalidPlatform(Normalize(selectedPlatformName)))
      ensures selectedPlatformName == "" ==>
        && (answer.None? ==> r == Failure(PromptCancelled))
        && (answer.Some? ==> r == Success(answer.value))
      ensures r.Success? ==> IsValidPlatform(r.value) && Normalize(r.value) == r.value
    {
      if selectedPlatformName == "" {
        if answer.None? {
          return Failure(PromptCancelled);
        }
        KnownNamesAreNormal(answer.value);
        return Success(Normalize(answer.value));
      }
      var platformName := Normalize(selectedPlatformName);
      if !IsValidPlatform(platformName) {
        return Failure(InvalidPlatform(platformName));
      }
      NormalizeIdempotent(selectedPlatformName);
      return Success(platformName);
    }
  }

  /**
   * Construction where no config file exists: loading tolerates the missing
   * file, construction completes, and `foundExternalConfig()` is false.
   */
  method ConstructedWithoutConfigFile(os: string, currentWorkingDir: string, cliBinDir: string, env: Env)
    returns (c: Config)
    requires ReadConfigFile(env, Join(Resolve(env.processDir, currentWorkingDir), ConfigFileName)).Absent?
    ensures c.fatal.None? && c.Valid() && !c.FoundExternalConfig()
  {
    var rootDir := Resolve(env.processDir, currentWorkingDir);
    MissingConfigFileTolerated(rootDir, env);
    c := new Config(os, currentWorkingDir, cliBinDir, env);
  }

  /** The registered platform names are already in normal form. */
  lemma KnownNamesAreNormal(name: string)
    requires name in KnownPlatformNames
    ensures Normalize(name) == name
  {
    NormalizeFixesNormalForm(name);
  }
}
