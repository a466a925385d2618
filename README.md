# Conan core helpers, modelled in Dafny

This project models a slice of the Conan package manager and proves properties of it.

- **Version ranges** (`conans/model/version_range.py`). An expression such as
  `>=1.2 <2.0-`, `~1.2`, `^0.3 || 1.0, include_prerelease` is parsed into condition sets.
  Membership is then decided against a `Version`, with a three-valued pre-release switch.
- **The server's revision list** (`conans/server/revision_list.py`). This is the ledger of
  `(revision, time)` entries. It can be loaded, dumped, added to, removed from and queried.
- **GNU triplets** (`conan/tools/gnu/get_gnu_triplet.py`). These are
  `<machine>-<op_system>` strings for an os, an arch and a compiler.
- **MSBuild helpers** (`conan/tools/microsoft/msbuild.py`). This covers the verbosity argument,
  arch-to-platform mapping, and the `msbuild` command line.
- **The Visual Studio layout** (`conan/tools/microsoft/layout.py`). It covers the folders and
  the library and binary directories that `vs_layout` assigns.
- **The Qbs helper** (`conan/tools/qbs/qbs.py`). This covers configuration arguments and the
  `qbs build` and `qbs install` command lines.
- **Visual Studio detection** (`conans/client/conf/detect_vs.py`):
  - the latest installed version;
  - the installation path, chosen among `vswhere` products or taken from the environment;
  - the `vswhere` arguments.
- **The MIME type** the server sends for a stored file (`conans/server/service/mime.py`).

Code that rebuilds a value through successive appends, loops or field updates is written as
imperative Dafny. This covers the condition-set and range constructors, the revision list
class, `MSBuild`, `vs_layout`, `Qbs`, the detection loops and `vswhere`. Each such method is
proved against a specification function. The properties are then proved about those
functions.

Files:

| file | module | models |
|---|---|---|
| `wrappers.dfy` | `Wrappers` | `Option`, `Result` |
| `strings.dfy` | `Strings` | the `str` operations used: `startswith`, `endswith`, `in`, `split`, `split(sep)`, `join`, `lower`, `str(int)` |
| `conan_files.dfy` | `ConanFiles` | recipe settings, `get_safe`, `str()` of an optional value, `os.path.join` |
| `versions.dfy` | `Versions` | the `Version` ordering and `upper_bound` that ranges rely on |
| `version_range.dfy` | `VersionRanges` | `_ConditionSet`, `_parse_expression`, `_valid`, `VersionRange`, `contains` |
| `version_range_examples.dfy` | `VersionRangeExamples` | worked range examples |
| `revision_list.dfy` | `RevisionLists` | `RevisionList` and its JSON form |
| `gnu_triplet.dfy` | `GnuTriplet` | `_get_gnu_triplet` |
| `msbuild.dfy` | `MSBuilds` | `msbuild_verbosity_cmd_line_arg`, `msbuild_arch`, `MSBuild` |
| `vs_layout.dfy` | `VsLayouts` | `vs_layout` |
| `qbs.dfy` | `QbsTools` | `_configuration_dict_to_commandlist`, `Qbs` |
| `detect_vs.dfy` | `DetectVs` | `latest_visual_studio_version_installed`, `vs_installation_path`, `vswhere` |
| `mime.dfy` | `Mime` | `get_mime_type` |

## Model

| member | source | states |
|---|---|---|
| Versions.CompareMainAntisymmetric | conans/model/version_range.py:67-89 | Comparing release components is antisymmetric, so `<` and `>` in range conditions are mirror images. |
| Versions.CompareMainTransitive | conans/model/version_range.py:67-89 | Comparing release components is transitive, for both `<=` and equality. |
| Versions.CompareMainFirstDifference | conans/model/version_range.py:67-89 | The first differing component decides the order. Missing components count as 0. |
| Versions.CompareMainReflexive | conans/model/version_range.py:67-89 | Every component list compares equal to itself. |
| Versions.CompareTextAntisymmetric | conans/model/version_range.py:67-89 | Pre-release tags compare antisymmetrically. |
| Versions.CompareTextTransitive | conans/model/version_range.py:67-89 | Pre-release tag comparison is transitive. |
| Versions.CompareAntisymmetric | conans/model/version_range.py:67-89 | Version comparison is antisymmetric: `a < b` exactly when `b > a`. |
| Versions.CompareTransitive | conans/model/version_range.py:67-89 | Version `<=` and version equality are transitive. |
| Versions.PreReleaseSortsFirst | conans/model/version_range.py:60-66 | A pre-release sorts below the release with the same components. |
| Versions.NumericOrder | conans/model/version_range.py:67-89 | Components compare as numbers (9 < 10), not as text. |
| Versions.TrailingZeroIsLevel | conans/model/version_range.py:67-89 | A trailing `.0` does not change a version's place in the order. |
| Versions.UpperBound | conans/model/version_range.py:44 | `upper_bound(i)` keeps the components before `i`, bumps the one at `i`, and drops the rest and any pre-release. |
| Versions.UpperBoundAbove | conans/model/version_range.py:44 | Every version lies strictly below its own `upper_bound(i)`, whatever `i` is. |
| VersionRanges.FirstNonZero | conans/model/version_range.py:48-52 | Gives the index of the first non-zero component, or the length when every component is zero. |
| VersionRanges.ParseExpression | conans/model/version_range.py:25-57 | A sub-expression compiles to one or two conditions, or to an error. |
| VersionRanges.ParseErrors | conans/model/version_range.py:29-40 | Parsing fails exactly on `>`, `<`, `^`, `~`, `=`, `>=` or `<=` with nothing after it. A lone `>` or `<` fails by reading past the end. |
| VersionRanges.ParseAnyVersion | conans/model/version_range.py:26-27 | `""` and `*` both mean `>= 0.0.0`. |
| VersionRanges.ParseTilde | conans/model/version_range.py:41-44 | `~v` gives `>= v` and `< v.upper_bound(1)`. For a one-component `v` it uses `upper_bound(0)`. |
| VersionRanges.ParseCaret | conans/model/version_range.py:45-55 | `^v` gives `>= v` and `< v.upper_bound(i)`, where `i` is the first non-zero component. |
| VersionRanges.ParseComparison | conans/model/version_range.py:29-57 | `>=v`, `<=v`, `>v`, `<v` and `=v` each give one condition. A bare version, one character long or more, means `=`. |
| VersionRanges.StripPrerelease | conans/model/version_range.py:19-21 | A trailing `-` is removed and reported as a pre-release opt-in. Nothing else changes. |
| VersionRanges.ParseConditionSet | conans/model/version_range.py:13-22 | An alternative asked to admit pre-releases keeps admitting them. |
| VersionRanges.ConditionSetErrorStays | conans/model/version_range.py:17-22 | The first failing word's error is the alternative's error. |
| VersionRanges.NewConditionSet | conans/model/version_range.py:13-22 | The constructor loop builds exactly the conditions of the alternative's words, in order, or stops at the first failing word. |
| VersionRanges.ConditionSetPrereleaseFlag | conans/model/version_range.py:15-21 | An alternative admits pre-releases exactly when the range asked for it or one of its words ends in `-`. |
| VersionRanges.ParseSingleWord | conans/model/version_range.py:17-22 | A one-word alternative has that word's conditions and that word's opt-in. |
| VersionRanges.IsValid | conans/model/version_range.py:59-89 | `_valid`: the version passes the pre-release gate and violates none of the alternative's conditions. `ValidIffAllHold` and `PrereleaseGate` are its properties. |
| VersionRanges.ValidIffAllHold | conans/model/version_range.py:67-89 | The operator-by-operator failure test of `_valid` rejects exactly when some condition does not hold. |
| VersionRanges.PrereleaseGate | conans/model/version_range.py:60-66 | `False` rejects every pre-release. `None` defers to the alternative's flag. `True` leaves only the conditions. Releases are never stopped by the gate. |
| VersionRanges.EmptyAlternativeAccepts | conans/model/version_range.py:59-89 | An empty alternative has no conditions, so it accepts whatever passes the gate. |
| VersionRanges.ParseAlternatives | conans/model/version_range.py:99-102 | There is one condition set per `\|\|` alternative. Every set admits pre-releases when the range includes them. |
| VersionRanges.AlternativesErrorStays | conans/model/version_range.py:99-102 | The first failing alternative's error is the range's error. |
| VersionRanges.ParseAlternativesSnoc | conans/model/version_range.py:99-102 | The alternatives are built left to right. |
| VersionRanges.ParseRange | conans/model/version_range.py:93-102 | The range keeps its text. Its alternatives are the `\|\|` pieces before the first comma. `include_prerelease` after a comma sets the flag of every alternative. |
| VersionRanges.NewVersionRange | conans/model/version_range.py:93-102 | The constructor loop builds exactly that range, or stops with the first error. |
| VersionRanges.RangeKeepsText | conans/model/version_range.py:95-105 | `str()` gives back the parsed text. Only text before the first comma shapes the alternatives. |
| VersionRanges.RangeToString | conans/model/version_range.py:104-105 | `str()` of a range is its expression. `RangeKeepsText` ties it to parsing. |
| VersionRanges.RangeContains | conans/model/version_range.py:107-121 | `contains`: some alternative is valid for the version. The examples in `VersionRangeExamples` apply it. |
| VersionRanges.TildeCaretBounds | conans/model/version_range.py:41-55 | `~1.2.3` is `<1.3` and `~1` is `<2`. `^1.2.3` is `<2`, `^0.2.3` is `<0.3` and `^0.0.3` is `<0.0.4`. |
| VersionRanges.TildeCaretAdmitBase | conans/model/version_range.py:41-55 | A tilde or caret range contains its own base release. |
| VersionRangeExamples.AlternativesContain | conans/model/version_range.py:107-121 | `1.0 \|\| 2.0` contains 2.0 but not 1.5: the alternatives are ORed, and a bare version is an exact match. |
| VersionRangeExamples.PrereleaseExamples | conans/model/version_range.py:107-121 | `>=1.0.0` rejects `1.1.0-rc1` unless resolution is forced. `>=1.0.0-` admits it. `False` overrides the opt-in. `1.0.0-rc1` stays outside `>=1.0.0-`. |
| VersionRangeExamples.AlternativesParse | conans/model/version_range.py:93-102 | `1.0 \|\| 2.0` parses into two exact-match alternatives. |
| VersionRangeExamples.GateRangeOptIn | conans/model/version_range.py:13-22 | `>=1.0.0-` parses to `>= 1.0.0`, with the alternative opted in. |
| RevisionLists.FirstIndex | conans/server/revision_list.py:55-59 | Gives the first position holding the id, or none when no entry has it. |
| RevisionLists.AddedRevision | conans/server/revision_list.py:25-33 | The list after `add_revision`. `AddLatestIsNoOp`, `AddMakesLatest`, `AddNewAppends`, `AddMovesToEnd` and `AddQuirkAtFront` state what it does. |
| RevisionLists.RemovedRevision | conans/server/revision_list.py:49-53 | The list after `remove_revision`. `RemoveRevisionEffect` and `RemoveUniqueForgets` state what it does. |
| RevisionLists.Encode | conans/server/revision_list.py:21-23 | The `{"revisions": [...]}` document of the entries, in order. `DecodeEncode` inverts it. |
| RevisionLists.Decode | conans/server/revision_list.py:14-19 | Reads the entries of a `{"revisions": [...]}` document, or reports a malformed one. `DecodeEncode` inverts `Encode`. |
| RevisionLists.RevisionList.constructor | conans/server/revision_list.py:11-12 | A new list is empty. |
| RevisionLists.RevisionList.FindRevisionIndex | conans/server/revision_list.py:55-59 | The scan returns the first matching position, or none when no entry has the id. |
| RevisionLists.RevisionList.LatestRevision | conans/server/revision_list.py:39-40 | Gives the last entry, or none exactly when the list is empty. |
| RevisionLists.RevisionList.GetTime | conans/server/revision_list.py:42-44 | Gives the time of the first entry with the id, or none exactly when the id is absent. |
| RevisionLists.RevisionList.AsList | conans/server/revision_list.py:46-47 | Gives the entries newest first. |
| RevisionLists.RevisionList.Dumps | conans/server/revision_list.py:21-23 | The list's document is the encoding of its entries. |
| RevisionLists.RevisionList.Equals | conans/server/revision_list.py:61-62 | Two lists are equal when their documents are. `EqualityIsSameEntries` states what that means. |
| RevisionLists.RevisionList.AddRevision | conans/server/revision_list.py:25-33 | The new list is the code's add, position-0 behaviour included. |
| RevisionLists.RevisionList.RemoveRevision | conans/server/revision_list.py:49-53 | The new list lacks the first entry with the id. An absent id changes nothing. |
| RevisionLists.RevisionList.Loads | conans/server/revision_list.py:14-19 | Loading fails exactly on a malformed document. Otherwise the new list holds the document's entries in order. |
| RevisionLists.DecodeEncode | conans/server/revision_list.py:14-23 | `loads(dumps(l))` gives back `l`'s entries. |
| RevisionLists.EqualityIsSameEntries | conans/server/revision_list.py:61-62 | Two lists are equal exactly when they hold the same entries in the same order. |
| RevisionLists.AddLatestIsNoOp | conans/server/revision_list.py:26-29 | Adding the latest revision again changes nothing. |
| RevisionLists.AddMakesLatest | conans/server/revision_list.py:25-33 | Any other add leaves `(id, now)` latest and first in the listing. |
| RevisionLists.AddNewAppends | conans/server/revision_list.py:30-33 | A new id is appended, and every earlier entry stays in place. |
| RevisionLists.AddMovesToEnd | conans/server/revision_list.py:30-33 | An id stored at position 1 or later moves to the end. The length is kept, and so is the order of the rest. |
| RevisionLists.AddQuirkAtFront | conans/server/revision_list.py:30-31 | Re-adding the oldest id keeps the old entry as well, so the id is held twice. |
| RevisionLists.QuirkCounterexample | conans/server/revision_list.py:30-31 | `[a, b]` plus `a` becomes `[a, b, a]`. |
| RevisionLists.AddAgreesWithFixed | conans/server/revision_list.py:25-33 | Away from position 0, the code and the intended add agree. |
| RevisionLists.AddFixedKeepsUnique | conans/server/revision_list.py:25-33 | The intended add keeps one entry per id. |
| RevisionLists.RemoveRevisionEffect | conans/server/revision_list.py:49-53 | Removing an absent id changes nothing. Otherwise exactly the first matching entry goes. |
| RevisionLists.RemoveUniqueForgets | conans/server/revision_list.py:49-53 | With one entry per id, removal forgets the id and keeps the list unique. |
| RevisionLists.ReversedTwice | conans/server/revision_list.py:46-47 | Reversing the listing gives back the stored order. |
| GnuTriplet.GetGnuTriplet | conan/tools/gnu/get_gnu_triplet.py:4-93 | It fails exactly for Windows without a compiler or for an unknown machine. Otherwise the result is machine, `-`, OS name and OS suffix. |
| GnuTriplet.Machine | conan/tools/gnu/get_gnu_triplet.py:17-65 | The machine: the exact-name table first, then the substring chain, or none for an unknown arch. `GenericIsFirstMatch` and `SubstringIsFirstMatch` state the chain's meaning. |
| GnuTriplet.OsName | conan/tools/gnu/get_gnu_triplet.py:67-81 | The OS part from the OS table. Windows depends on whether the compiler is gcc, and any other OS falls back to its lower-cased name. `UnknownOsLowerCased` and `SuffixOnlyOnLinuxAndroid` state it. |
| GnuTriplet.OsSuffix | conan/tools/gnu/get_gnu_triplet.py:83-91 | The `eabi`, `hf` and `_ilp32` suffixes, added only on Linux and Android. `SuffixOnlyOnLinuxAndroid` states it. |
| GnuTriplet.SubstringIsFirstMatch | conan/tools/gnu/get_gnu_triplet.py:27-60 | The fallback if/elif chain is a first match over a priority table. AIX has its own two-entry table. |
| GnuTriplet.GenericIsFirstMatch | conan/tools/gnu/get_gnu_triplet.py:34-60 | Outside AIX, the first of the 13 patterns that `arch` contains decides the machine. |
| GnuTriplet.Armv7Machine | conan/tools/gnu/get_gnu_triplet.py:34-35 | `armv7` and `armv7hf` are not in the table. They contain `arm` but not `armv8`, so they map to `arm` on Linux and Android. |
| GnuTriplet.SuffixOnlyOnLinuxAndroid | conan/tools/gnu/get_gnu_triplet.py:68-93 | Only Linux and Android get a suffix. On Windows, `w64-mingw32` is chosen exactly when the compiler is gcc. |
| GnuTriplet.UnknownOsLowerCased | conan/tools/gnu/get_gnu_triplet.py:69-81 | An OS outside the table appears lower-cased. |
| GnuTriplet.X86Triplets | conan/tools/gnu/get_gnu_triplet.py:18 | `x86` stays `x86` on Linux and becomes `i686` elsewhere. |
| GnuTriplet.WindowsTriplets | conan/tools/gnu/get_gnu_triplet.py:13-15 | Windows gives `w64-mingw32` with gcc and `unknown-windows` otherwise. It is an error without a compiler. |
| GnuTriplet.Armv8Triplets | conan/tools/gnu/get_gnu_triplet.py:83-91 | Linux `armv8_32` gives `aarch64-linux-gnu_ilp32`. `armv8` gets no `eabi`. |
| GnuTriplet.Armv7Triplet | conan/tools/gnu/get_gnu_triplet.py:83-93 | On Linux or Android, ARMv7 gives machine `arm` with suffix `eabi`. `hf` is added only for `armv7hf` on Linux. |
| GnuTriplet.ArmLinux | conan/tools/gnu/get_gnu_triplet.py:83-88 | Linux `armv7hf` gives `arm-linux-gnueabihf` and Linux `armv7` gives `arm-linux-gnueabi`. |
| GnuTriplet.ArmAndroid | conan/tools/gnu/get_gnu_triplet.py:84-88 | Android ARMv7, hard-float or not, gives `arm-linux-androideabi`. |
| GnuTriplet.AixTriplet | conan/tools/gnu/get_gnu_triplet.py:27-33 | On AIX, `ppc64` gives `powerpc-ibm-aix` and `ppc32` gives `rs6000-ibm-aix`. `armv7` is an unknown machine there. |
| MSBuilds.LevelTableCoversAccepted | conan/tools/microsoft/msbuild.py:6-33 | The level table covers exactly the 11 accepted names. |
| MSBuilds.VerbosityArg | conan/tools/microsoft/msbuild.py:4-34 | An unset or empty value gives no argument. An unaccepted value is an error. Otherwise the result is `/verbosity:` followed by the level. |
| MSBuilds.VerbosityGroup | conan/tools/microsoft/msbuild.py:21-34 | Each accepted name gives `/verbosity:` followed by the name of its level. |
| MSBuilds.VerbosityLevels | conan/tools/microsoft/msbuild.py:21-33 | The 11 names fall into the five levels, Quiet to Diagnostic. |
| MSBuilds.VerbosityCaseSensitive | conan/tools/microsoft/msbuild.py:6-19 | `Quiet` (capitalised) is rejected. |
| MSBuilds.MSBuildArch | conan/tools/microsoft/msbuild.py:37-41 | Exactly `x86`, `x86_64`, `armv7` and `armv8` have a platform. |
| MSBuilds.MSBuildArchInjective | conan/tools/microsoft/msbuild.py:37-41 | No two archs share a platform. |
| MSBuilds.Platform | conan/tools/microsoft/msbuild.py:58-63 | Outside WindowsCE, the platform is the mapped arch. |
| MSBuilds.CpuCountOption | conan/tools/microsoft/msbuild.py:80-83 | `/m:` is added exactly when `max_cpu_count` is set and non-zero. |
| MSBuilds.TargetsOption | conan/tools/microsoft/msbuild.py:85-88 | A truthy non-list is an error. None, an empty list and falsy values add nothing. |
| MSBuilds.MSBuild.constructor | conan/tools/microsoft/msbuild.py:49-63 | The build type is the `build_type` setting, and the platform is the one that `Platform` chooses. |
| MSBuilds.CommandLine | conan/tools/microsoft/msbuild.py:65-90 | The `msbuild` command line or its error. `CommandErrors`, `CommandStartsWithHead`, `CommandEndsWithTargets` and `CommandPlain` state its shape. |
| MSBuilds.MSBuild.Command | conan/tools/microsoft/msbuild.py:65-90 | The command's result is the specified command line. |
| MSBuilds.CommandErrors | conan/tools/microsoft/msbuild.py:77-88 | `command` fails exactly on a bad verbosity or truthy non-list targets. The verbosity is reported first. |
| MSBuilds.CommandStartsWithHead | conan/tools/microsoft/msbuild.py:75 | Every command line starts with `msbuild "<sln>" /p:Configuration="<bt>" /p:Platform=<p>`. |
| MSBuilds.CommandEndsWithTargets | conan/tools/microsoft/msbuild.py:85-88 | Non-empty targets end the line, joined by `;`. |
| MSBuilds.CommandPlain | conan/tools/microsoft/msbuild.py:75-90 | With no options set, the command line is just its head. |
| MSBuilds.PlatformExamples | conan/tools/microsoft/msbuild.py:58-63 | `armv8` gives `ARM64`. WindowsCE takes `os.platform`. An unmapped or missing arch gives None. |
| MSBuilds.TargetsJoined | conan/tools/microsoft/msbuild.py:88 | Two targets give `/target:a;b`. |
| VsLayouts.BinDir | conan/tools/microsoft/layout.py:19-34 | A missing `build_type` is reported before a missing `arch`. |
| VsLayouts.BinDirCases | conan/tools/microsoft/layout.py:28-34 | The layout succeeds exactly for `None`, `x86`, `x86_64`, `armv7` and `armv8`. `None` and `x86` give `build_type`. The others give `<platform>/<build_type>`. |
| VsLayouts.UnsupportedArchReportsNone | conan/tools/microsoft/layout.py:31-34 | As written, every unsupported arch is reported as `None`. |
| VsLayouts.UnsupportedArchExample | conan/tools/microsoft/layout.py:31-34 | `mips` is reported as `None`. The corrected layout reports it as `mips`. |
| VsLayouts.BinDirFixed | conan/tools/microsoft/layout.py:31-34 | The corrected error names the rejected arch. |
| VsLayouts.BinDirFixedAgrees | conan/tools/microsoft/layout.py:28-34 | The corrected layout differs from the code only in the name it reports. |
| VsLayouts.VsLayout | conan/tools/microsoft/layout.py:7-36 | Sets the source, build and generators folders and the include dirs, even when an error follows. On success, libdirs and bindirs are the same one-element list. On error, they are unchanged. |
| VsLayouts.LayoutExample | conan/tools/microsoft/layout.py:13-36 | `x86_64` Debug gives `x64/Debug`. An unset arch gives `Debug`. A missing `build_type` is an error. |
| QbsTools.CommandListShape | conan/tools/qbs/qbs.py:7-15 | The list starts with `config:<name>`, then has one `key:value` per entry in insertion order, for `1 + entries` items in all. |
| QbsTools.ConfigurationToCommandList | conan/tools/qbs/qbs.py:7-15 | The loop builds exactly that list. |
| QbsTools.BooleanEntries | conan/tools/qbs/qbs.py:10-12 | Booleans render as `true` and `false`. |
| QbsTools.PutLookup | conan/tools/qbs/qbs.py:36-37 | After `add_configuration`, the name maps to the new values and every other name is untouched. |
| QbsTools.PutNames | conan/tools/qbs/qbs.py:36-37 | An existing name keeps its place. A new name is appended. |
| QbsTools.PutDistinct | conan/tools/qbs/qbs.py:36-37 | Configuration names stay distinct. |
| QbsTools.ConfigArgsLength | conan/tools/qbs/qbs.py:54-56 | There is one argument per configuration and one per entry, and the first names the first configuration. |
| QbsTools.ConfigNameArgs | conan/tools/qbs/qbs.py:89 | There is one `config:<name>` per configuration, in order. |
| QbsTools.BuildArgsShape | conan/tools/qbs/qbs.py:39-56 | `--products` appears only for non-empty products. `--jobs N` always follows. `profile:<p>` follows when a profile is set. The configuration arguments end the list. |
| QbsTools.BuildAllIsBuildOfAll | conan/tools/qbs/qbs.py:39-77 | `build_all` is `build` without products, with `--all-products` inserted before `--jobs`. |
| QbsTools.InstallArgsShape | conan/tools/qbs/qbs.py:82-90 | Install arguments are the four fixed options, then one `config:<name>` per configuration. |
| QbsTools.Qbs.constructor | conan/tools/qbs/qbs.py:19-31 | The profile is `conan_toolchain_profile`. An empty project file falls back to the source folder. The recipe starts with no configurations. |
| QbsTools.Qbs.AddConfiguration | conan/tools/qbs/qbs.py:36-37 | Sets or overwrites one name, keeps every other, and keeps names distinct. |
| QbsTools.Qbs.ConfigurationArgs | conan/tools/qbs/qbs.py:54-56 | The loop gathers every configuration's list, in order. |
| QbsTools.Qbs.Build | conan/tools/qbs/qbs.py:39-58 | Gives the `qbs build` command of the specified arguments. |
| QbsTools.Qbs.BuildAll | conan/tools/qbs/qbs.py:61-79 | Gives the `qbs build` command of the `build_all` arguments. |
| QbsTools.Qbs.Install | conan/tools/qbs/qbs.py:82-90 | Gives the `qbs install` command of the install arguments. |
| DetectVs.DedupProperties | conans/client/conf/detect_vs.py:43-46 | Removing repeats keeps exactly the given products, each once. |
| DetectVs.DedupOfDistinct | conans/client/conf/detect_vs.py:43-46 | A list without repeats is left as it is. |
| DetectVs.RemoveRepeated | conans/client/conf/detect_vs.py:43-46 | The loop keeps each first occurrence, in order. |
| DetectVs.PathsOfTypeOrigin | conans/client/conf/detect_vs.py:52-61 | A typed path comes exactly from a product of the version whose `productId` contains the type. |
| DetectVs.LegacyPathsOrigin | conans/client/conf/detect_vs.py:63-68 | A legacy path comes exactly from a product of the version without a `productId`. |
| DetectVs.CandidateOrigin | conans/client/conf/detect_vs.py:48-68 | Candidates come exactly from legacy products or from products of the four preferred types. Other product ids never contribute. |
| DetectVs.PreferredPrefix | conans/client/conf/detect_vs.py:52-61 | The paths of earlier preferred types come before those of later ones. |
| DetectVs.EnterpriseFirst | conans/client/conf/detect_vs.py:48-71 | An Enterprise product of the version wins. |
| DetectVs.CollectPaths | conans/client/conf/detect_vs.py:48-68 | The nested loops collect exactly the candidates: by preference, then legacy. |
| DetectVs.StripTools | conans/client/conf/detect_vs.py:76-80 | A path ending in `Common7/Tools/` loses that suffix and one more character. Any other path is kept. |
| DetectVs.InstallationPath | conans/client/conf/detect_vs.py:30-82 | The installation path: the first candidate of the products with repeats removed, else the `vs<version>0comntools` environment value, cut back by `StripTools` when set. Its properties are `InstallationPathChoice`. |
| DetectVs.CandidatePathsDedup | conans/client/conf/detect_vs.py:41-71 | Removing repeated products keeps whether there are candidates and which candidate comes first. |
| DetectVs.InstallationPathChoice | conans/client/conf/detect_vs.py:30-82 | Without products, or with no candidate, the environment decides. With candidates, the result is the first candidate of the products as listed. |
| DetectVs.VsInstallationPath | conans/client/conf/detect_vs.py:30-82 | The method computes the specified installation path. |
| DetectVs.VisualCompiler | conans/client/conf/detect_vs.py:12-19 | A found compiler is the version probed. |
| DetectVs.LatestVisualStudioVersionInstalled | conans/client/conf/detect_vs.py:22-27 | Versions 17, 16 and 15 are probed in order, and the first found gives 193, 192 or 191. None means none was found. |
| DetectVs.Vswhere | conans/client/conf/detect_vs.py:85-142 | `legacy` with products or requires is an error. So is a missing executable. Otherwise the arguments are the specified ones. |
| DetectVs.AppendFlag | conans/client/conf/detect_vs.py:113-117 | A flag is appended exactly when its option is on. |
| DetectVs.AppendFlagWith | conans/client/conf/detect_vs.py:119-125 | A flag and its values are appended exactly when there are values. |
| DetectVs.BuildArguments | conans/client/conf/detect_vs.py:112-142 | Each option appends its group, in the fixed order. |
| DetectVs.VswhereArguments | conans/client/conf/detect_vs.py:112-142 | The `vswhere` arguments: the fixed prefix, then each option's group in the code's order. `BuildArguments`, `VswhereArgumentsShape` and `DefaultArguments` state it. |
| DetectVs.VswhereArgumentsShape | conans/client/conf/detect_vs.py:112-142 | The arguments start with `[path, -utf8, -format, json]`. `-all` comes next when on. `-nologo` comes last when on. |
| DetectVs.DefaultArguments | conans/client/conf/detect_vs.py:112-142 | A call with the default options adds only `-prerelease` and `-nologo`. |
| DetectVs.DetectionQueries | conans/client/conf/detect_vs.py:30-37 | Gives the arguments of the `legacy` query and the `products=["*"]` query. |
| Mime.MimeType | conans/server/service/mime.py:1-7 | The result is `x-gzip` exactly for `.tgz` and `x-xz` exactly for `.txz`. Anything else is `auto`. |
| Mime.MimeTypeBySuffix | conans/server/service/mime.py:1-7 | The type depends only on the last four characters. |
| Mime.MimeTypeOfExtension | conans/server/service/mime.py:2-7 | Any stem followed by `.tgz` or `.txz` is typed by the extension. A path shorter than four characters is `auto`. |

## Left out

- `Version` (not part of this model). It is modelled concretely: numeric components plus a
  pre-release tag. The order is zero-padded numeric, then a pre-release before its release,
  then lexical tags.
  - Build metadata is not modelled.
  - Version text is not parsed. Range parsing takes the parser as a parameter `parse`.
  - `upper_bound` past the last component pads with zeros.
  - `Version("0.0.0")` is written as its value.
- Version ranges: `>=1.0.0-` does not contain `1.0.0-rc1`, even with resolution forced. The
  trailing `-` only opens the pre-release gate, and `1.0.0-rc1` sorts below `1.0.0`. The
  model follows the code and proves this behaviour (`VersionRangeExamples.PrereleaseExamples`).
- Whitespace for `str.split()` is the six C-locale whitespace characters. Python also splits
  on `\x1c`–`\x1f`, `\x85`, `\xa0` and the Unicode spaces (U+1680, U+2000–U+200A, U+2028,
  U+2029, U+202F, U+205F, U+3000); those are not separators here. `str.lower()` lower-cases ASCII letters only.
- `os.path.join` uses a fixed `/` separator. That includes the `Common7/Tools/` suffix of the
  Visual Studio environment path.
- `RevisionList`:
  - `loads` and `dumps` work on a JSON value, not JSON text.
  - A document with missing or mistyped keys is a decoding error. In Python this would be an
    exception or an entry of another type.
  - The clock `revision_timestamp_now` is a `now` parameter.
- `MSBuild.build`, `Qbs.build`, `Qbs.build_all` and `Qbs.install` are modelled up to the
  command string. The `conanfile.run` call is not modelled.
- `Qbs._set_project_file`: the `os.path.exists` check on the project file is a filesystem check
  and is not modelled. The constructor takes the jobs count `build_jobs(conanfile)` as a value.
- `detect_vs.py` works with inputs in place of its external calls:
  - the `vswhere` output is given as a list of products, or none when `vswhere` fails;
  - the environment is a function;
  - the located executable is an optional path, replacing Program Files, `os.path.isfile` and
    `which`;
  - running `vswhere`, filtering the `"description"` lines and `json.loads` are not modelled.
- DetectVs.Product: a product has exactly three fields: `installationVersion`,
  `installationPath` and an optional `productId`. Two products that differ only in other keys
  count as repeats.
- DetectVs.VisualCompiler: `Version(version) >= "15"` is taken as the numeric test
  `version >= 15`. The version is a number, so `int(version)` and the environment variable name
  use its decimal form.
- `get_version` of `MSBuild` returns an error object; it is not modelled.
- `tools.build:verbosity` and `max_cpu_count` are read as a string and an integer.
  `check_type` conversion errors are not modelled.
- The `vs_layout` subproject is `""` when the recipe has none. `None` and `""` behave alike there.

## Findings

| source | as written | input that shows it | evidently intended | confidence | as-written member | corrected member |
|---|---|---|---|---|---|---|
| conans/server/revision_list.py:30 | `if index := self._find_revision_index(revision_id):` treats index 0 as "not found", so an entry at position 0 is never removed | ledger `[a, b]`, then `add_revision("a")`, gives `[a, b, a]` | drop the earlier entry wherever it is, keeping one entry per revision | not executed | RevisionLists.QuirkCounterexample | RevisionLists.AddFixedKeepsUnique |
| conan/tools/microsoft/layout.py:31-34 | `elif arch := msbuild_arch(arch):` rebinds `arch` to `None` before the error message uses it | `arch=mips`, `build_type=Release` gives the error "doesn't work with the arch 'None'" | report the rejected arch (`mips`) | not executed | VsLayouts.UnsupportedArchReportsNone | VsLayouts.BinDirFixed |

`RevisionLists.RevisionList.AddRevision` and `VsLayouts.VsLayout` keep the behaviour as
written, so that they match the source. The corrected definitions are
`RevisionLists.AddedRevisionFixed` and `VsLayouts.BinDirFixed`. Their intended properties are
proved alongside: uniqueness is kept, and the error names the arch. Lemmas also prove where the
corrected and as-written versions agree (`AddAgreesWithFixed`, `BinDirFixedAgrees`).
