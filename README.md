# Bitmask `setup.py` release tooling, modelled in Dafny

This project is a Dafny model of the build script of the Bitmask desktop client (`setup.py`). The model covers five things:

- how the script gets the short version and the download URL from the version string versioneer reports;
- the three generated artifacts: the requirements manifest `leap/bitmask/util/reqs.txt`, the frozen `src/leap/bitmask/_version.py` and the helper-binary hash file `src/leap/bitmask/_binaries.py`;
- how the `build`, `sdist` and `develop` lifecycle commands refresh the manifest after the step they delegate to;
- how the `cmdclass` registry is put together;
- the platform-dependent `data_files` / `extra_options`.

The file system is an object (`FileSystem.Disk`) holding a map from path to contents. The commands update that map in place. The steps the script delegates to are function parameters: versioneer's build and release tree, and setuptools' develop. Each such step either completes or raises, and leaves the files in some state either way. Some inputs come from outside the script. Each of these is a parameter:

- the versions versioneer reports;
- the parsed requirements;
- the environment;
- the operator's answer to the prompt;
- the SHA-256 hex digest;
- `platform.system()`.

Files:

- `wrappers.dfy`: Option and Result.
- `strings.dfy`: `str.join`, which the script calls. `str.split` and `str.find` are there too; the script never calls them, and the model uses them only to state round trips: reading the manifest and the generated files back.
- `version_short.dfy`: the `\d+\.\d+\.\d+` scanner, `VERSION_SHORT` and `DOWNLOAD_URL`.
- `paths.dfy`: `os.path.join` (POSIX) and the fixed target paths.
- `templates.dfy`: the two `str.format` templates and a parser that reads the values back.
- `filesystem.dfy`: the file system.
- `commands.dfy`: `copy_reqs`, the decorated lifecycle commands, `freeze_debianver`, `hash_binaries` and `cmdclass`.
- `platform.dfy`: platform selection.

How the scanner is specified. The reference meaning of the regular expression is `TripleAt(s, i, l)`: `s[i..l]` is a non-empty digit run, a dot, a non-empty digit run, a dot and a non-empty digit run. `IsFirstMatch` says which match `re.findall` returns first: the one at the leftmost start that has a match, taking the longest match at that start. The scanner is written with maximal digit runs (`DigitRunEnd`, `MatchAt`, `FindFrom`). Lemmas prove that it finds exactly that match. They also prove that it finds nothing exactly when no triple occurs.

Three points where the code's behaviour is easy to misread, and how the model follows it:

- When there is no triple, the code does not blank `VERSION_SHORT`: it leaves it unbound. `freeze_debianver` would then fail when it formats the template. The model makes "a short version exists" a precondition of `FreezeDebianVer`, but only on the `"y"` path. The decline path never reads it, so it works without one.
- `hash_binaries` reports both failures with one message and exit status 1. This holds whether a variable is unset or empty, or a path is not a regular file. That is kept as is.
- Only `copy_reqs` removes its target before writing. The two other writers open the file in mode `'w'`, which truncates it. In the map model, both end in the same state: the key holds exactly the new content.

## Model

| member | source | states |
|---|---|---|
| VersionShort.DigitRunEnd | setup.py:85 | the run of `\d` starting at `i` ends at the first non-digit or the end of the string, and every position before that is a digit |
| VersionShort.MatchAt | setup.py:85 | the greedy match at start `i`, when there is one, ends after `i`; `s[i..l]` is a dotted triple and is not followed by a digit |
| VersionShort.MatchAtComplete | setup.py:85 | if any dotted triple starts at `i`, the greedy match at `i` exists and is at least as long (backtracking never matters) |
| VersionShort.FindFrom | setup.py:85 | a match the scan reports from `from` is a dotted triple that starts at or after `from` |
| VersionShort.FindTriple | setup.py:85 | a match the scan reports for VERSION is a dotted triple inside VERSION |
| VersionShort.FindFromSpec | setup.py:85-87 | scanning from `from` gives the leftmost start with a triple, and the longest triple at that start; it gives None exactly when no triple starts at or after `from` |
| VersionShort.FindTripleSpec | setup.py:85-87 | the scan finds nothing iff VERSION holds no dotted triple, and otherwise finds the first `re.findall` match |
| VersionShort.ShortVersion | setup.py:85-87 | when VERSION_SHORT is bound, it is a dotted triple and a contiguous substring of VERSION |
| VersionShort.ShortVersionSpec | setup.py:85-87 | VERSION_SHORT is bound iff VERSION holds a triple; it is then itself a dotted triple and the contiguous substring of VERSION at the first match |
| VersionShort.DownloadUrl | setup.py:77-88 | DOWNLOAD_URL is non-empty iff VERSION holds a dotted triple; it is then the archive prefix, the first `re.findall` match and `.tar.gz` |
| VersionShort.DownloadUrlSpec | setup.py:77-88 | when VERSION_SHORT is bound, it can be read back verbatim from DOWNLOAD_URL between the archive prefix and `.tar.gz` |
| VersionShort.TripleCharacters | setup.py:85 | a triple consists of digits and dots only, so it can be placed inside a quoted Python literal |
| Paths.JoinPath | setup.py:149-151 | `posixpath.join(a, b)` for one component; its value is given by `Paths.JoinPathSpec` |
| Paths.JoinPathSpec | setup.py:149-151 | `posixpath.join(a, b)` ends with `b`; for a relative `b` it is exactly `a`'s directory prefix followed by `b`: `a` stays in front and one `/` follows it exactly when `a` is non-empty and does not end in `/`; an absolute `b` replaces `a` |
| Paths.JoinPaths | setup.py:149-151 | `os.path.join(a, *segments)` joins from the left; what it yields is stated by `Paths.JoinPlainSegments` |
| Paths.JoinPlainSegments | setup.py:149-151 | `os.path.join` of plain relative segments is the directory prefix of the root followed by the segments separated by single slashes |
| Paths.ReqsPath | setup.py:145-151 | the manifest goes to `path/[src/]leap/bitmask/util/reqs.txt`, with `src/` present iff `withsrc`; an empty root or one ending in `/` gets no extra slash |
| Paths.ReqsPathsDiffer | setup.py:148-151 | the `withsrc` and plain manifest targets under one root are different files |
| Paths.BinariesPath | setup.py:221 | the hash file path is `src/leap/bitmask/_binaries.py` |
| Templates.Fill | setup.py:130-132 | `str.format` on a two-field template: the head, the first value, the middle text, the second value and the tail; `Templates.UnfillFill` states that the values can be read back |
| Templates.Unfill | setup.py:130-132 | whatever the reader reads back from a text, formatting those two values into the template gives that text again |
| Templates.UnfillFill | setup.py:130-132 | formatting two values into a two-field template and reading the text back returns them, if the first contains no copy of the quote that closes it |
| Templates.FillInjective | setup.py:130-132 | different field values (first value quote-free) give different generated files |
| Templates.FrozenVersionSource | setup.py:115-132 | in the frozen `_version.py` the template's first slot (the quotes of `version_version`) holds the short version and its second slot (the quotes of `version_full`) holds the full version as written, unescaped; `templatefun` follows; nothing else depends on them |
| Templates.BinariesSource | setup.py:209-219 | the hash file's first slot holds the OPENVPN_BIN digest and its second slot the BITMASK_ROOT digest, and nothing else in it depends on them |
| FileSystem.Disk.IsFile | setup.py:153 | `os.path.isfile(path)` is the presence of `path` in the map of regular files |
| FileSystem.Disk.Read | setup.py:206 | `open(path).read()` on a regular file is its contents in the map |
| FileSystem.Disk.Unlink | setup.py:154 | removing a regular file deletes exactly its key |
| FileSystem.Disk.WriteText | setup.py:155-156 | opening for writing and writing replaces (or creates) exactly one key with exactly the written text |
| Commands.CopyReqsEffect | setup.py:145-156 | after `copy_reqs` the target holds the manifest whatever it held before, the set of paths grows by at most the target, and every other file is unchanged |
| Commands.CopyReqs | setup.py:145-156 | the method (isfile, unlink, write) leaves the file system as `CopyReqsEffect` of the old one |
| Strings.Join | setup.py:156 | `sep.join(parts)`: the parts in order with `sep` between neighbours; what it yields for the manifest is stated by `Commands.Manifest` |
| Commands.Manifest | setup.py:156 | the manifest is the requirements in order, one per line, with no trailing newline: splitting it on newlines gives exactly the list back; no requirements give an empty file |
| Commands.CopyReqsIdempotent | setup.py:153-156 | running `copy_reqs` twice leaves the same files as running it once |
| Commands.PostStep | setup.py:236-248 | the manifest refresh runs only if the delegated step completed; it then overrides whatever the step left at the manifest target, and every other file is as the step left it; an error from the step propagates unchanged |
| Commands.BuildRun | setup.py:236-239 | `build` first runs versioneer's build and then `copy_reqs(build_lib)` on its output, propagating the step's error |
| Commands.MakeReleaseTree | setup.py:246-248 | `sdist` first stages versioneer's release tree and then runs `copy_reqs(base_dir, withsrc=True)` on it |
| Commands.Develop.Run | setup.py:159-168 | `develop` records the versions and sets the metadata version before setuptools' develop runs, so the step sees the new version; then it runs `copy_reqs(egg_path)` |
| Commands.FreezeDebianVer | setup.py:109-134 | any answer other than exactly `"y"` (`"Y"` and `""` included) changes no file; `"y"` replaces exactly `src/leap/bitmask/_version.py` with the template filled with VERSION_SHORT and VERSION_FULL, followed by `templatefun` |
| Commands.FrozenFileHoldsVersions | setup.py:115-132 | the two slots of the frozen `_version.py` give back exactly the short version of VERSION and the full version |
| Commands.EnvGet | setup.py:189-190 | `os.environ.get(key, None)`: the variable's value when it is set, None otherwise |
| Commands.Truthy | setup.py:198-199 | an element of `all(bin_paths)` is true unless it is None or the empty string |
| Commands.CheckBinaries | setup.py:189-203 | the command refuses when either variable is unset or empty, or either path is not a regular file; it goes ahead only with both paths taken from the environment |
| Commands.HashBinaries | setup.py:187-224 | a refusal exits with status 1 and the one usage message, writing nothing; success replaces exactly the hash file with the two digests in order |
| Commands.HashFileHoldsDigests | setup.py:205-223 | the written hash file gives back the digest of the OPENVPN_BIN file and then that of the BITMASK_ROOT file |
| Commands.RegisterCommands | setup.py:137-252 | the registry gains `freeze_debianver`, `develop` and `hash_binaries`, wraps versioneer's `build` and `sdist`, and keeps every other versioneer command; it fails with a KeyError when versioneer lacks `build` or `sdist` |
| Platform.SelectPlatform | setup.py:254-279 | on Linux `data_files` is the three listed mappings and `extra_options` is empty; on Darwin `extra_options` has exactly `app`, `options`, `setup_requires` and `data_files` is empty; anywhere else both are empty |
| Platform.PlatformsExclusive | setup.py:259-279 | `data_files` is non-empty iff the system is Linux and `extra_options` iff it is Darwin, so at most one platform contributes |

## Left out

- The Python 3 guard and the setuptools bootstrap (setup.py:28-38) are left out. They are interpreter plumbing.
- The `multiprocessing` import and the `sys.path` insertion (setup.py:52-56) are left out, for the same reason.
- The `setup(...)` call and its metadata are left out (setup.py:295-331). This includes the classifiers, the launcher entry point and reading `README.rst` / `CHANGELOG.rst` for `long_description`. These are constant data and file I/O with no logic.
- versioneer is not part of this model. `get_versions()` becomes a `Versions` input. `get_cmdclass()` becomes the input map of `RegisterCommands`. Its `build.run` and `sdist.make_release_tree` become step parameters.
- setuptools' `develop.run` is a step parameter too. `cmd_sdist.run` (setup.py:243-244) only hands over to versioneer's `sdist.run`, which drives `make_release_tree`, so it has no member of its own.
- `pkg/utils` is not part of this model. `parsed_reqs` is an input sequence of strings.
- The SHA-256 digest and its hex formatting are a caller-supplied function from file contents to a string.
- Console output is not modelled: the `UPDATING …` line of `copy_reqs`, the prompt text, and the verbose output of `get_versions`. `RunResult.log` carries only the last message of `freeze_debianver` and `hash_binaries`.
- `raw_input` failing (end of input, interrupt) is not modelled; the answer is a parameter.
- I/O errors are not modelled: a missing parent directory, a path that is a directory, missing permissions. The file system holds regular files only.
- Paths are not normalised. `./src/x` and `src/x` are different keys.
- The `jsonschema_recipe` class and its registration in `py2app.recipes` (setup.py:281-293) are left out. They depend on py2app's module graph, which is not part of this model.
- The no-op `initialize_options` / `finalize_options` methods and the `user_options` lists of `freeze_debianver` and `cmd_binary_hash` (setup.py:101-107, 179-185) are left out. They set nothing.
- `build_lib` and `egg_path` are set by the `finalize_options` of distutils' `build` and setuptools' `develop`, which are not part of this model. They are inputs here.
- The file system is modelled with POSIX semantics. `os.path.join` is `posixpath.join`, with `/` as separator. `open(path).read()` returns the stored bytes unchanged, and mode `'w'` stores the written text as given (setup.py:133, 155-156, 206, 222). On Windows, one of the "any other system" cases, `os.path.join` is `ntpath.join`, with `\` separators and drive letters. Text-mode reads there turn `\r\n` into `\n` and stop at Ctrl-Z, so `hash_binaries` would hash altered bytes. Text-mode writes there emit `\r\n`. None of this Windows behaviour is modelled.
- Commands.FreezeDebianVer: on the `"y"` path it requires that VERSION hold a dotted triple. Without one, setup.py:131 raises NameError because VERSION_SHORT was never bound; that failure is not modelled.
- Commands.HashFileHoldsDigests: requires that the OPENVPN_BIN digest contain no `"`. The digest is a parameter here, so the model cannot know it is hexadecimal as SHA-256 hex digests are.
- Templates.FrozenVersionSource: its read-back holds only when the short version contains no `'`. `Commands.FrozenFileHoldsVersions` discharges this for every real short version.
- Templates.ParseFrozenVersion reads the template's slots back, not the values Python gives `version_version` and `version_full`. Neither the script nor the model escapes VERSION_FULL. A VERSION_FULL holding `'` or `\` yields a `_version.py` that Python reads differently, or cannot import.
