/**
 * The filesystem as the configuration sees it. Reading a file and parsing it
 * are not modelled; only their outcomes are.
 */
module Environment {
  import opened Json

  /** What reading and parsing the external config file yields. */
  datatype ConfigFile =
    | Absent                              // `readFileSync` threw: no file, or no read access
    | Malformed                           // the file was read but `JSON.parse` threw
    | Parsed(fields: map<string, Value>)  // the file holds a JSON object

  datatype Env = Env(
    processDir: string,                   // `process.cwd()`, the base a one-argument `resolve` uses
    accessible: set<string>,              // the paths `accessSync` accepts
    manifests: map<string, Value>,        // `package.json` files that `require` loads, by path
    configFiles: map<string, ConfigFile>) // external config files, by path; a missing path is `Absent`

  /** `accessSync(path)` returns instead of throwing. */
  predicate Accessible(env: Env, path: string) {
    path in env.accessible
  }

  function ReadConfigFile(env: Env, path: string): ConfigFile {
    if path in env.configFiles then env.configFiles[path] else Absent
  }
}
