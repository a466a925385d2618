/** The MSBuild helper: verbosity and platform mapping, and the `msbuild` command line. */
module MSBuilds {
  import opened Wrappers
  import opened Strings
  import opened ConanFiles

  datatype MSBuildError =
    | UnknownVerbosity(value: string)
    | TargetsNotAList

  /** The MSBuild logger verbosity levels. */
  datatype Level = Quiet | Minimal | Normal | Detailed | Diagnostic {
    function Name(): string {
      match this
      case Quiet => "Quiet"
      case Minimal => "Minimal"
      case Normal => "Normal"
      case Detailed => "Detailed"
      case Diagnostic => "Diagnostic"
    }
  }

  /** The values `tools.build:verbosity` accepts. */
  const AcceptedVerbosities: seq<string> :=
    ["quiet", "error", "warning", "notice", "status", "verbose", "normal", "debug", "v", "trace", "vv"]

  /** The translation of an accepted verbosity into an MSBuild level. */
  function LevelOf(verbosity: string): Option<Level> {
    if verbosity == "quiet" then Some(Quiet)
    else if verbosity == "error" || verbosity == "warning" || verbosity == "notice" then Some(Minimal)
    else if verbosity == "status" || verbosity == "verbose" || verbosity == "normal" then Some(Normal)
    else if verbosity == "debug" || verbosity == "v" then Some(Detailed)
    else if verbosity == "trace" || verbosity == "vv" then Some(Diagnostic)
    else None
  }

  /** The translation table covers exactly the accepted values, so the lookup after the
      membership test always finds a level. */
  lemma LevelTableCoversAccepted(verbosity: string)
    ensures verbosity in AcceptedVerbosities <==> LevelOf(verbosity).Some?
  {
  }

  /** `msbuild_verbosity_cmd_line_arg`: given the `tools.build:verbosity` conf value. */
  function VerbosityArg(conf: Option<string>): (r: Result<Option<string>, MSBuildError>)
    ensures (conf == None || conf == Some("")) <==> r == Ok(None)
    ensures r.Err? <==> conf.Some? && conf.value != "" && conf.value !in AcceptedVerbosities
    ensures r.Err? ==> r.error == UnknownVerbosity(conf.value)
    ensures r.Ok? && r.value.Some? ==>
      conf.Some? && LevelOf(conf.value).Some? && r.value.value == "/verbosity:" + LevelOf(conf.value).value.Name()
  {
    if conf.None? || conf.value == "" then Ok(None)
    else if conf.value !in AcceptedVerbosities then Err(UnknownVerbosity(conf.value))
    else
      LevelTableCoversAccepted(conf.value);
      Ok(Some("/verbosity:" + LevelOf(conf.value).value.Name()))
  }

  /** Each of the five levels is reached, by the names of its group. */
  lemma VerbosityGroup(verbosity: string, level: Level)
    requires verbosity in AcceptedVerbosities && LevelOf(verbosity) == Some(level)
    ensures VerbosityArg(Some(verbosity)) == Ok(Some("/verbosity:" + level.Name()))
  {
  }

  lemma VerbosityLevels()
    ensures LevelOf("quiet") == Some(Quiet)
    ensures LevelOf("error") == LevelOf("warning") == LevelOf("notice") == Some(Minimal)
    ensures LevelOf("status") == LevelOf("verbose") == LevelOf("normal") == Some(Normal)
    ensures LevelOf("debug") == LevelOf("v") == Some(Detailed)
    ensures LevelOf("trace") == LevelOf("vv") == Some(Diagnostic)
  {
  }

  /** Names are case-sensitive: `Quiet` is not accepted. */
  lemma VerbosityCaseSensitive()
    ensures VerbosityArg(Some("Quiet")) == Err(UnknownVerbosity("Quiet"))
  {
    assert "Quiet"[0] != "quiet"[0];
  }

  /** `msbuild_arch`: the MSBuild platform for a Conan arch, given as `str(arch)`. */
  function MSBuildArch(arch: string): (r: Option<string>)
    ensures r.Some? <==> arch in ["x86", "x86_64", "armv7", "armv8"]
  {
    if arch == "x86" then Some("x86")
    else if arch == "x86_64" then Some("x64")
    else if arch == "armv7" then Some("ARM")
    else if arch == "armv8" then Some("ARM64")
    else None
  }

  /** Different archs never share a platform, so the platform determines the arch. */
  lemma MSBuildArchInjective(a: string, b: string)
    requires MSBuildArch(a).Some? && MSBuildArch(a) == MSBuildArch(b)
    ensures a == b
  {
  }

  /** The platform `MSBuild.__init__` selects: the `os.platform` setting on WindowsCE,
      the mapped arch otherwise. */
  function Platform(settings: Settings): (r: Option<string>)
    ensures GetSafe(settings, "os") != Some("WindowsCE") ==> r == MSBuildArch(Show(GetSafe(settings, "arch")))
  {
    if GetSafe(settings, "os") == Some("WindowsCE") then GetSafe(settings, "os.platform")
    else MSBuildArch(Show(GetSafe(settings, "arch")))
  }

  /** The conf entries `command` reads: `tools.build:verbosity` and
      `tools.microsoft.msbuild:max_cpu_count`. */
  datatype Conf = Conf(verbosity: Option<string>, maxCpuCount: Option<int>)

  /** The `targets` argument: absent (`None`), a list, or any other value, of which only
      its truth value matters. */
  datatype Targets = NoTargets | TargetList(names: seq<string>) | Other(truthy: bool)

  /** The fixed start of every command line. */
  function CommandHead(sln: string, buildType: Option<string>, platform: Option<string>): string {
    "msbuild \"" + sln + "\" /p:Configuration=\"" + Show(buildType) + "\" /p:Platform=" + Show(platform)
  }

  /** The `/m:N` option, present when the conf value is set and non-zero. */
  function CpuCountOption(maxCpuCount: Option<int>): (r: string)
    ensures r == "" <==> maxCpuCount.None? || maxCpuCount.value == 0
  {
    if maxCpuCount.Some? && maxCpuCount.value != 0 then " /m:" + IntToString(maxCpuCount.value) else ""
  }

  /** The `/target:` option, for a non-empty list of targets. */
  function TargetsOption(targets: Targets): (r: Result<string, MSBuildError>)
    ensures r.Err? <==> targets == Other(true)
    ensures r == Ok("") <==> targets.NoTargets? || targets == TargetList([]) || targets == Other(false)
  {
    match targets
    case NoTargets => Ok("")
    case TargetList(names) => if names == [] then Ok("") else Ok(" /target:" + JoinWith(names, ";"))
    case Other(truthy) => if truthy then Err(TargetsNotAList) else Ok("")
  }

  /** The verbosity option as `command` appends it. */
  function VerbosityOption(arg: Option<string>): string {
    if arg.Some? then " " + arg.value else ""
  }

  /** The command line: the head, then the verbosity, CPU count and target options in that
      order; a bad verbosity is reported before bad targets. */
  function CommandLine(sln: string, buildType: Option<string>, platform: Option<string>, conf: Conf,
                       targets: Targets): Result<string, MSBuildError> {
    match VerbosityArg(conf.verbosity)
    case Err(e) => Err(e)
    case Ok(arg) =>
      match TargetsOption(targets)
      case Err(e) => Err(e)
      case Ok(option) =>
        Ok(CommandHead(sln, buildType, platform) + VerbosityOption(arg) + CpuCountOption(conf.maxCpuCount) + option)
  }

  /** `MSBuild`, as set up from a recipe's settings and conf. */
  class MSBuild {
    const conf: Conf
    var buildType: Option<string>
    var platform: Option<string>

    constructor (settings: Settings, conf: Conf)
      ensures this.conf == conf
      ensures buildType == GetSafe(settings, "build_type")
      ensures platform == Platform(settings)
    {
      this.conf := conf;
      buildType := GetSafe(settings, "build_type");
      var arch := MSBuildArch(Show(GetSafe(settings, "arch")));
      if GetSafe(settings, "os") == Some("WindowsCE") {
        arch := GetSafe(settings, "os.platform");
      }
      platform := arch;
    }

    /** `command(sln, targets)` */
    method Command(sln: string, targets: Targets) returns (r: Result<string, MSBuildError>)
      ensures r == CommandLine(sln, buildType, platform, conf, targets)
    {
      var head := CommandHead(sln, buildType, platform);
      var cmd := head;
      var verbosity := VerbosityArg(conf.verbosity);
      if verbosity.Err? {
        return Err(verbosity.error);
      }
      if verbosity.value.Some? {
        cmd := cmd + " " + verbosity.value.value;
      }
      assert cmd == head + VerbosityOption(verbosity.value);
      if conf.maxCpuCount.Some? && conf.maxCpuCount.value != 0 {
        cmd := cmd + " /m:" + IntToString(conf.maxCpuCount.value);
      }
      assert cmd == head + VerbosityOption(verbosity.value) + CpuCountOption(conf.maxCpuCount);
      ghost var beforeTargets := cmd;
      match targets {
        case NoTargets =>
        case TargetList(names) =>
          if names != [] {
            cmd := cmd + " /target:" + JoinWith(names, ";");
          }
        case Other(truthy) =>
          if truthy {
            return Err(TargetsNotAList);
          }
      }
      assert cmd == beforeTargets + TargetsOption(targets).value;
      return Ok(cmd);
    }
  }

  /** `command` fails exactly on an unknown verbosity or a truthy non-list `targets`, the
      verbosity being checked first. */
  lemma CommandErrors(sln: string, buildType: Option<string>, platform: Option<string>, conf: Conf, targets: Targets)
    ensures CommandLine(sln, buildType, platform, conf, targets).Err? <==>
      VerbosityArg(conf.verbosity).Err? || targets == Other(true)
    ensures VerbosityArg(conf.verbosity).Err? ==>
      CommandLine(sln, buildType, platform, conf, targets) == Err(UnknownVerbosity(conf.verbosity.value))
    ensures VerbosityArg(conf.verbosity).Ok? && targets == Other(true) ==>
      CommandLine(sln, buildType, platform, conf, targets) == Err(TargetsNotAList)
  {
  }

  /** A successful command line is the head, the middle options and the target option. */
  lemma CommandParts(sln: string, buildType: Option<string>, platform: Option<string>, conf: Conf, targets: Targets)
    requires CommandLine(sln, buildType, platform, conf, targets).Ok?
    ensures VerbosityArg(conf.verbosity).Ok? && TargetsOption(targets).Ok?
    ensures CommandLine(sln, buildType, platform, conf, targets).value ==
      CommandHead(sln, buildType, platform)
      + (VerbosityOption(VerbosityArg(conf.verbosity).value) + CpuCountOption(conf.maxCpuCount) + TargetsOption(targets).value)
  {
  }

  /** Every command line starts with the head naming the solution, configuration and platform. */
  lemma CommandStartsWithHead(sln: string, buildType: Option<string>, platform: Option<string>, conf: Conf, targets: Targets)
    requires CommandLine(sln, buildType, platform, conf, targets).Ok?
    ensures StartsWith(CommandLine(sln, buildType, platform, conf, targets).value, CommandHead(sln, buildType, platform))
  {
    CommandParts(sln, buildType, platform, conf, targets);
    var middle := VerbosityOption(VerbosityArg(conf.verbosity).value) + CpuCountOption(conf.maxCpuCount);
    ConcatEnds(CommandHead(sln, buildType, platform), middle + TargetsOption(targets).value);
  }

  /** A text built as head, middle and last part ends with the last part. */
  lemma EndsWithLastPart(s: string, head: string, middle: string, last: string)
    requires s == head + (middle + last)
    ensures EndsWith(s, last)
  {
    assert s == (head + middle) + last;
    ConcatEnds(head + middle, last);
  }

  /** A non-empty target list ends the command line, joined with `;`. */
  lemma CommandEndsWithTargets(sln: string, buildType: Option<string>, platform: Option<string>, conf: Conf, names: seq<string>)
    requires names != [] && CommandLine(sln, buildType, platform, conf, TargetList(names)).Ok?
    ensures EndsWith(CommandLine(sln, buildType, platform, conf, TargetList(names)).value, " /target:" + JoinWith(names, ";"))
  {
    CommandParts(sln, buildType, platform, conf, TargetList(names));
    assert TargetsOption(TargetList(names)).value == " /target:" + JoinWith(names, ";");
    EndsWithLastPart(CommandLine(sln, buildType, platform, conf, TargetList(names)).value,
      CommandHead(sln, buildType, platform),
      VerbosityOption(VerbosityArg(conf.verbosity).value) + CpuCountOption(conf.maxCpuCount),
      TargetsOption(TargetList(names)).value);
  }

  /** With no verbosity, no CPU count and no targets the command line is just its head. */
  lemma CommandPlain(sln: string, buildType: Option<string>, platform: Option<string>, targets: Targets)
    requires targets == NoTargets || targets == TargetList([]) || targets == Other(false)
    ensures CommandLine(sln, buildType, platform, Conf(None, None), targets) == Ok(CommandHead(sln, buildType, platform))
  {
    assert CommandHead(sln, buildType, platform) + "" + "" + "" == CommandHead(sln, buildType, platform);
  }

  /** On Windows the arch is mapped; on WindowsCE the `os.platform` setting wins. */
  lemma PlatformExamples()
    ensures Platform(map["os" := Some("Windows"), "arch" := Some("armv8")]) == Some("ARM64")
    ensures Platform(map["os" := Some("WindowsCE"), "arch" := Some("armv8"), "os.platform" := Some("SDK")]) == Some("SDK")
    ensures Platform(map["os" := Some("Windows"), "arch" := Some("mips")]) == None
    ensures Platform(map["os" := Some("Windows")]) == None
  {
  }

  /** Targets are joined with `;`. */
  lemma TargetsJoined(first: string, second: string)
    ensures TargetsOption(TargetList([first, second])) == Ok(" /target:" + first + ";" + second)
  {
    assert [first, second][1..] == [second];
    assert JoinWith([first, second], ";") == first + ";" + second;
    assert " /target:" + (first + ";" + second) == " /target:" + first + ";" + second;
  }
}
