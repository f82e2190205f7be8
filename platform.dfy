/** Platform-specific packaging (setup.py:254-279): `data_files` and
    `extra_options` as chosen from `platform.system()`. */
module Platform {

  /** The Python values that appear in `extra_options`. */
  datatype PyValue =
    | PyStr(s: string)
    | PyBool(b: bool)
    | PyList(items: seq<PyValue>)
    | PyDict(entries: map<string, PyValue>)

  /** A `data_files` entry: target directory and the files installed there. */
  type DataFile = (string, seq<string>)

  datatype PlatformOptions = PlatformOptions(dataFiles: seq<DataFile>, extraOptions: map<string, PyValue>)

  const LinuxDataFiles: seq<DataFile> := [
    ("helpers/", ["pkg/linux/bitmask-root"]),
    ("helpers/policykit/", ["pkg/linux/polkit/se.leap.bitmask.policy"]),
    ("/usr/share/applications", ["debian/extras-bitmask.desktop"])
  ]

  /** `OPTIONS` for py2app. */
  const Py2appOptions: map<string, PyValue> := map[
    "argv_emulation" := PyBool(true),
    "plist" := PyStr("pkg/osx/Info.plist"),
    "iconfile" := PyStr("pkg/osx/bitmask.icns")
  ]

  /** The top-level selection: both start empty, Linux sets `data_files`,
      Darwin fills `extra_options`; any other system leaves both empty. */
  function SelectPlatform(system: string): (p: PlatformOptions)
    ensures system == "Linux" ==> p.dataFiles == LinuxDataFiles && p.extraOptions == map[]
    ensures system == "Darwin" ==>
      && p.dataFiles == []
      && p.extraOptions.Keys == {"app", "options", "setup_requires"}
      && p.extraOptions["app"] == PyList([PyStr("src/leap/bitmask/app.py")])
      && p.extraOptions["options"] == PyDict(map["py2app" := PyDict(Py2appOptions)])
      && p.extraOptions["setup_requires"] == PyList([PyStr("py2app")])
    ensures system != "Linux" && system != "Darwin" ==> p == PlatformOptions([], map[])
  {
    var isLinux, isMac := system == "Linux", system == "Darwin";
    var dataFiles := if isLinux then LinuxDataFiles else [];
    var extraOptions: map<string, PyValue> :=
      if isMac then map[
        "app" := PyList([PyStr("src/leap/bitmask/app.py")]),
        "options" := PyDict(map["py2app" := PyDict(Py2appOptions)]),
        "setup_requires" := PyList([PyStr("py2app")])
      ]
      else map[];
    PlatformOptions(dataFiles, extraOptions)
  }

  /** At most one platform contributes: `data_files` and `extra_options`
      are never both non-empty, and each is non-empty exactly on its own
      system. */
  lemma PlatformsExclusive(system: string)
    ensures SelectPlatform(system).dataFiles != [] <==> system == "Linux"
    ensures SelectPlatform(system).extraOptions != map[] <==> system == "Darwin"
    ensures SelectPlatform(system).dataFiles == [] || SelectPlatform(system).extraOptions == map[]
  {
    if system == "Darwin" {
      assert "app" in SelectPlatform(system).extraOptions;
    }
  }
}
