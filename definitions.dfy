/** The records the configuration object is made of. */
module Definitions {
  import opened Json

  datatype OS = Unknown | Mac | Windows | Linux

  /** The `windows` and `linux` records: where Android Studio is installed. */
  datatype ToolPaths = ToolPaths(androidStudioPath: Value)

  /** The CLI-bundled template and Cordova-plugin directories of a native platform. */
  datatype PlatformAssets = PlatformAssets(
    templateName: string,
    pluginsFolderName: string,
    templateDir: string,
    pluginsDir: string)

  datatype AndroidConfig = AndroidConfig(
    name: string,
    minVersion: string,
    platformDir: string,
    webDir: string,
    webDirAbs: string,
    resDir: string,
    resDirAbs: string,
    assets: PlatformAssets)

  /** `minVersion` and `cordovaSwiftVersion` hold whatever the external config supplies, so they are values. */
  datatype IosConfig = IosConfig(
    name: string,
    minVersion: Value,
    cordovaSwiftVersion: Value,
    platformDir: string,
    webDir: string,
    webDirAbs: string,
    nativeProjectName: string,
    assets: PlatformAssets)

  datatype WebConfig = WebConfig(name: string)

  /** The `cli` record: where the CLI itself is installed, and the host OS. */
  datatype CliInfo = CliInfo(
    binDir: string,
    rootDir: string,
    assetsName: string,
    assetsDir: string,
    package: Value,
    os: OS)
}
