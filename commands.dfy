/** The commands setup.py defines or decorates (setup.py:90-252): the
    manifest writer `copy_reqs`, the standalone `freeze_debianver` and
    `hash_binaries`, the decorated `build`, `sdist` and `develop`, and the
    `cmdclass` registry that ties them to their names.

    The steps the script delegates to (versioneer's `build.run` and
    `sdist.make_release_tree`, setuptools' `develop.run`) are parameters: each
    is whatever function of the files it is, and it either completes or
    raises, leaving the files in some state either way. */
module Commands {
  import opened Wrappers
  import opened FileSystem
  import Strings
  import Paths
  import Templates
  import VersionShort

  /** What a delegated step leaves behind. */
  datatype StepResult = Completed(files: Files) | Raised(files: Files, error: string)

  /** How a standalone command ends: `run` returns, or `sys.exit(status)`;
      `log` is what it printed last. */
  datatype RunResult = Returned(log: string) | Exited(status: int, log: string)

  // ---------------------------------------------------------------------
  // copy_reqs (setup.py:145-156)

  /** The manifest text, `'\n'.join(parsed_reqs)`: the requirements in
      order, one per line, and nothing more, so splitting it on newlines
      gives them back. No requirements give an empty file. */
  function Manifest(reqs: seq<string>): (r: string)
    ensures reqs == [] ==> r == ""
    ensures |reqs| >= 1 && (forall i :: 0 <= i < |reqs| ==> '\n' !in reqs[i]) ==>
      Strings.Split(r, '\n') == reqs
  {
    var text := Strings.Join("\n", reqs);
    assert |reqs| >= 1 && (forall i :: 0 <= i < |reqs| ==> '\n' !in reqs[i]) ==>
      Strings.Split(text, '\n') == reqs by {
      if |reqs| >= 1 && (forall i :: 0 <= i < |reqs| ==> '\n' !in reqs[i]) {
        Strings.SplitJoin(reqs, '\n');
      }
    }
    text
  }

  /** The files after `copy_reqs(path, withsrc)`: the manifest target holds
      the manifest, whatever it held before, and nothing else changes. */
  function CopyReqsEffect(files: Files, path: string, withsrc: bool, reqs: seq<string>): (r: Files)
    ensures Paths.ReqsPath(path, withsrc) in r && r[Paths.ReqsPath(path, withsrc)] == Manifest(reqs)
    ensures r.Keys == files.Keys + {Paths.ReqsPath(path, withsrc)}
    ensures forall q :: q in files && q != Paths.ReqsPath(path, withsrc) ==> r[q] == files[q]
  {
    files[Paths.ReqsPath(path, withsrc) := Manifest(reqs)]
  }

  /** `copy_reqs`: remove the old manifest if there is one, then write the
      new one. */
  method CopyReqs(disk: Disk, path: string, withsrc: bool, reqs: seq<string>)
    modifies disk
    ensures disk.files == CopyReqsEffect(old(disk.files), path, withsrc, reqs)
  {
    var reqsfile := Paths.ReqsPath(path, withsrc);
    if disk.IsFile(reqsfile) {
      disk.Unlink(reqsfile);
    }
    disk.WriteText(reqsfile, Manifest(reqs));
  }

  /** Running `copy_reqs` twice leaves the same files as running it once. */
  lemma CopyReqsIdempotent(files: Files, path: string, withsrc: bool, reqs: seq<string>)
    ensures CopyReqsEffect(CopyReqsEffect(files, path, withsrc, reqs), path, withsrc, reqs)
         == CopyReqsEffect(files, path, withsrc, reqs)
  {
  }

  // ---------------------------------------------------------------------
  // Decorated lifecycle commands (setup.py:159-168, 236-248)

  /** The delegated step, then `copy_reqs` on its output: the manifest is
      refreshed only when the step completed, and then it is the last word on
      the manifest target while every other file is as the step left it. */
  function PostStep(r: StepResult, path: string, withsrc: bool, reqs: seq<string>): (d: StepResult)
    ensures d.Completed? <==> r.Completed?
    ensures r.Raised? ==> d == r
    ensures r.Completed? ==>
      && Paths.ReqsPath(path, withsrc) in d.files
      && d.files[Paths.ReqsPath(path, withsrc)] == Manifest(reqs)
      && d.files.Keys == r.files.Keys + {Paths.ReqsPath(path, withsrc)}
      && (forall q :: q in r.files && q != Paths.ReqsPath(path, withsrc) ==> d.files[q] == r.files[q])
  {
    match r
    case Completed(files) => Completed(CopyReqsEffect(files, path, withsrc, reqs))
    case Raised(_, _) => r
  }

  /** The error a finished command propagates, if any. */
  function RaisedError(r: StepResult): Option<string> {
    if r.Raised? then Some(r.error) else None
  }

  /** `cmd_build.run`: versioneer's build, then the manifest into `build_lib`. */
  method BuildRun(disk: Disk, versioneerBuild: Files -> StepResult, buildLib: string, reqs: seq<string>)
    returns (raised: Option<string>)
    modifies disk
    ensures disk.files == PostStep(versioneerBuild(old(disk.files)), buildLib, false, reqs).files
    ensures raised == RaisedError(versioneerBuild(old(disk.files)))
  {
    var r := versioneerBuild(disk.files);
    disk.Replace(r.files);
    if r.Raised? {
      return Some(r.error);
    }
    CopyReqs(disk, buildLib, false, reqs);
    raised := None;
  }

  /** `cmd_sdist.make_release_tree`: versioneer's release tree, then the
      manifest into the staged tree under `src/`. */
  method MakeReleaseTree(disk: Disk, versioneerMakeReleaseTree: (string, seq<string>, Files) -> StepResult,
                         baseDir: string, fileList: seq<string>, reqs: seq<string>)
    returns (raised: Option<string>)
    modifies disk
    ensures disk.files == PostStep(versioneerMakeReleaseTree(baseDir, fileList, old(disk.files)), baseDir, true, reqs).files
    ensures raised == RaisedError(versioneerMakeReleaseTree(baseDir, fileList, old(disk.files)))
  {
    var r := versioneerMakeReleaseTree(baseDir, fileList, disk.files);
    disk.Replace(r.files);
    if r.Raised? {
      return Some(r.error);
    }
    CopyReqs(disk, baseDir, true, reqs);
    raised := None;
  }

  /** `versioneer.get_versions()`: the version and the full revision. */
  datatype Versions = Versions(version: string, full: string)

  /** `self.distribution.metadata`, reduced to its version. */
  class Distribution {
    var metadataVersion: string

    constructor (version: string)
      ensures metadataVersion == version
    {
      metadataVersion := version;
    }
  }

  /** `cmd_develop`: the fields its `run` reads and writes. */
  class Develop {
    const distribution: Distribution
    const eggPath: string
    var versioneerGeneratedVersions: Option<Versions>

    constructor (distribution: Distribution, eggPath: string)
      ensures this.distribution == distribution && this.eggPath == eggPath
      ensures versioneerGeneratedVersions == None
    {
      this.distribution := distribution;
      this.eggPath := eggPath;
      versioneerGeneratedVersions := None;
    }

    /** `cmd_develop.run`: record the versions, set the metadata version,
        run setuptools' develop (which sees the new version), then the
        manifest into the egg path. */
    method Run(disk: Disk, versions: Versions, setuptoolsDevelop: (string, Files) -> StepResult, reqs: seq<string>)
      returns (raised: Option<string>)
      modifies this, distribution, disk
      ensures versioneerGeneratedVersions == Some(versions)
      ensures distribution.metadataVersion == versions.version
      ensures disk.files == PostStep(setuptoolsDevelop(versions.version, old(disk.files)), eggPath, false, reqs).files
      ensures raised == RaisedError(setuptoolsDevelop(versions.version, old(disk.files)))
    {
      versioneerGeneratedVersions := Some(versions);
      distribution.metadataVersion := versions.version;
      var r := setuptoolsDevelop(distribution.metadataVersion, disk.files);
      disk.Replace(r.files);
      if r.Raised? {
        return Some(r.error);
      }
      CopyReqs(disk, eggPath, false, reqs);
      raised := None;
    }
  }

  // ---------------------------------------------------------------------
  // freeze_debianver (setup.py:109-134)

  const FreezeDeclined: string := "He. You scared. Aborting."

  /** `freeze_debianver.run` with the operator's answer as input. Only the
      exact answer "y" proceeds; only then is VERSION_SHORT read, so only then
      must VERSION hold a dotted triple. */
  method FreezeDebianVer(disk: Disk, answer: string, version: string, full: string)
    returns (result: RunResult)
    requires answer == "y" ==> VersionShort.ShortVersion(version).Some?
    modifies disk
    ensures answer != "y" ==> result == Returned(FreezeDeclined) && disk.files == old(disk.files)
    ensures answer == "y" ==>
      && result == Returned("")
      && disk.files == old(disk.files)[Paths.VersionFileSource :=
           Templates.FrozenVersionSource(VersionShort.ShortVersion(version).value, full)]
  {
    if answer != "y" {
      return Returned(FreezeDeclined);
    }
    var short := VersionShort.ShortVersion(version).value;
    var substTemplate := Templates.Fill(Templates.FreezeTemplate, short, full) + Templates.TemplateFun;
    disk.WriteText(Paths.VersionFileSource, substTemplate);
    result := Returned("");
  }

  /** The frozen `_version.py` gives back exactly the short version and the
      full version it was made from. */
  lemma FrozenFileHoldsVersions(version: string, full: string)
    requires VersionShort.ShortVersion(version).Some?
    ensures Templates.ParseFrozenVersion(
              Templates.FrozenVersionSource(VersionShort.ShortVersion(version).value, full))
         == Some((VersionShort.ShortVersion(version).value, full))
  {
    var short := VersionShort.ShortVersion(version).value;
    VersionShort.ShortVersionSpec(version);
    VersionShort.TripleCharacters(short);
    assert '\'' !in short;
  }

  // ---------------------------------------------------------------------
  // hash_binaries (setup.py:187-224)

  const HashUsage: string :=
    "Please set environment variables "
    + "OPENVPN_BIN and BITMASK_ROOT pointing to the right path "
    + "to use this command"

  /** `os.environ.get(key, None)`. */
  function EnvGet(env: map<string, string>, key: string): Option<string> {
    if key in env then Some(env[key]) else None
  }

  /** Python truth of an optional string: None and "" are false. */
  predicate Truthy(v: Option<string>) {
    v.Some? && v.value != ""
  }

  /** The two reasons `hash_binaries` gives up, and the go-ahead. */
  datatype BinaryCheck = Unset | NotAFile | Ready(openvpn: string, bitmask: string)

  /** The checks of setup.py:198-203, in order. */
  function CheckBinaries(env: map<string, string>, files: Files): (c: BinaryCheck)
    ensures c.Unset? <==> !Truthy(EnvGet(env, "OPENVPN_BIN")) || !Truthy(EnvGet(env, "BITMASK_ROOT"))
    ensures c.Ready? ==>
      && c.openvpn == env["OPENVPN_BIN"] && c.bitmask == env["BITMASK_ROOT"]
      && c.openvpn in files && c.bitmask in files
    ensures c.NotAFile? ==> env["OPENVPN_BIN"] !in files || env["BITMASK_ROOT"] !in files
  {
    var openvpn, bitmask := EnvGet(env, "OPENVPN_BIN"), EnvGet(env, "BITMASK_ROOT");
    if !(Truthy(openvpn) && Truthy(bitmask)) then Unset
    else if !(openvpn.value in files && bitmask.value in files) then NotAFile
    else Ready(openvpn.value, bitmask.value)
  }

  /** `cmd_binary_hash.run`, with the digest (`sha256(...).hexdigest()`) as
      a parameter. Both failures exit with status 1 and the same message and
      write nothing; on success the hash file is replaced. */
  method HashBinaries(disk: Disk, env: map<string, string>, digest: string -> string)
    returns (result: RunResult)
    modifies disk
    ensures !CheckBinaries(env, old(disk.files)).Ready? ==>
      result == Exited(1, HashUsage) && disk.files == old(disk.files)
    ensures CheckBinaries(env, old(disk.files)).Ready? ==>
      var c := CheckBinaries(env, old(disk.files));
      && result == Returned("Binaries hash file " + Paths.BinariesPath() + " has been updated!")
      && disk.files == old(disk.files)[Paths.BinariesPath() :=
           Templates.BinariesSource(digest(old(disk.files)[c.openvpn]), digest(old(disk.files)[c.bitmask]))]
  {
    var openvpnBin, bitmaskRoot := EnvGet(env, "OPENVPN_BIN"), EnvGet(env, "BITMASK_ROOT");
    if !(Truthy(openvpnBin) && Truthy(bitmaskRoot)) {
      return Exited(1, HashUsage);
    }
    if !(disk.IsFile(openvpnBin.value) && disk.IsFile(bitmaskRoot.value)) {
      return Exited(1, HashUsage);
    }
    var openvpnBinHash := digest(disk.Read(openvpnBin.value));
    var bitmaskRootHash := digest(disk.Read(bitmaskRoot.value));
    var substTemplate := Templates.Fill(Templates.BinariesTemplate, openvpnBinHash, bitmaskRootHash);
    var binHashPath := Paths.JoinPaths("src", ["leap", "bitmask", "_binaries.py"]);
    disk.WriteText(binHashPath, substTemplate);
    result := Returned("Binaries hash file " + binHashPath + " has been updated!");
  }

  /** When `hash_binaries` succeeds, the hash file gives back the OPENVPN_BIN
      digest and then the BITMASK_ROOT digest of the files the environment
      names. */
  lemma HashFileHoldsDigests(env: map<string, string>, files: Files, digest: string -> string)
    requires CheckBinaries(env, files).Ready?
    requires '"' !in digest(files[env["OPENVPN_BIN"]])
    ensures
      var c := CheckBinaries(env, files);
      Templates.ParseBinaries(Templates.BinariesSource(digest(files[c.openvpn]), digest(files[c.bitmask])))
        == Some((digest(files[env["OPENVPN_BIN"]]), digest(files[env["BITMASK_ROOT"]])))
  {
    var c := CheckBinaries(env, files);
  }

  // ---------------------------------------------------------------------
  // cmdclass (setup.py:90, 137, 170, 227, 232-233, 251-252)

  /** A command class as the registry holds it: one of versioneer's, one of
      this script's, or a decoration of one of versioneer's. */
  datatype Command =
    | Versioneer(name: string)
    | FreezeDebianVerCmd
    | DevelopCmd
    | BinaryHashCmd
    | BuildCmd(base: Command)
    | SdistCmd(base: Command)

  /** The module-level updates of `cmdclass`, starting from versioneer's
      `get_cmdclass()`. Looking up `build` or `sdist` raises KeyError when
      versioneer did not provide it; the error carries the key. */
  method RegisterCommands(versioneerCmdclass: map<string, Command>)
    returns (r: Result<map<string, Command>, string>)
    ensures "build" !in versioneerCmdclass ==> r == Failure("build")
    ensures "build" in versioneerCmdclass && "sdist" !in versioneerCmdclass ==> r == Failure("sdist")
    ensures "build" in versioneerCmdclass && "sdist" in versioneerCmdclass ==>
      && r.Success?
      && r.value.Keys == versioneerCmdclass.Keys + {"freeze_debianver", "develop", "hash_binaries"}
      && r.value["freeze_debianver"] == FreezeDebianVerCmd
      && r.value["develop"] == DevelopCmd
      && r.value["hash_binaries"] == BinaryHashCmd
      && r.value["build"] == BuildCmd(versioneerCmdclass["build"])
      && r.value["sdist"] == SdistCmd(versioneerCmdclass["sdist"])
      && (forall k :: k in versioneerCmdclass && k !in ScriptCommandNames ==> r.value[k] == versioneerCmdclass[k])
  {
    var cmdclass := versioneerCmdclass;
    cmdclass := cmdclass["freeze_debianver" := FreezeDebianVerCmd];
    cmdclass := cmdclass["develop" := DevelopCmd];
    cmdclass := cmdclass["hash_binaries" := BinaryHashCmd];
    if "build" !in cmdclass {
      return Failure("build");
    }
    var versioneerBuild := cmdclass["build"];
    if "sdist" !in cmdclass {
      return Failure("sdist");
    }
    var versioneerSdist := cmdclass["sdist"];
    cmdclass := cmdclass["build" := BuildCmd(versioneerBuild)];
    cmdclass := cmdclass["sdist" := SdistCmd(versioneerSdist)];
    r := Success(cmdclass);
  }

  /** The names this script (re)binds in `cmdclass`. */
  const ScriptCommandNames: set<string> := {"freeze_debianver", "develop", "hash_binaries", "build", "sdist"}
}
