/** The Qbs build helper: configuration arguments and the `qbs build` / `qbs install` command lines. */
module QbsTools {
  import opened Wrappers
  import opened Strings

  /** A configuration value: a boolean, or any other value as `str()` renders it. */
  datatype ConfigValue = Bool(b: bool) | Text(text: string)

  /** A configuration dictionary, in insertion order. */
  type ConfigDict = seq<(string, ConfigValue)>

  /** The text of one value in an argument. */
  function Render(value: ConfigValue): string {
    match value
    case Bool(b) => if b then "true" else "false"
    case Text(t) => t
  }

  /** The argument for one dictionary entry. */
  function EntryArg(key: string, value: ConfigValue): string {
    key + ":" + Render(value)
  }

  /** `_configuration_dict_to_commandlist(name, config_dict)` as a value. */
  function CommandList(name: string, config: ConfigDict): (r: seq<string>)
    decreases |config|
  {
    if config == [] then ["config:" + name]
    else CommandList(name, config[..|config| - 1]) + [EntryArg(config[|config| - 1].0, config[|config| - 1].1)]
  }

  /** `config:<name>` first, then one `key:value` per entry in insertion order. */
  lemma {:induction false} CommandListShape(name: string, config: ConfigDict)
    ensures |CommandList(name, config)| == |config| + 1
    ensures CommandList(name, config)[0] == "config:" + name
    ensures forall i :: 0 <= i < |config| ==> CommandList(name, config)[i + 1] == EntryArg(config[i].0, config[i].1)
    decreases |config|
  {
    if config != [] {
      var prefix := config[..|config| - 1];
      CommandListShape(name, prefix);
      forall i | 0 <= i < |prefix| ensures prefix[i] == config[i] { }
    }
  }

  /** `_configuration_dict_to_commandlist(name, config_dict)` */
  method ConfigurationToCommandList(name: string, config: ConfigDict) returns (commandList: seq<string>)
    ensures commandList == CommandList(name, config)
    ensures |commandList| == |config| + 1 && commandList[0] == "config:" + name
    ensures forall i :: 0 <= i < |config| ==> commandList[i + 1] == EntryArg(config[i].0, config[i].1)
  {
    commandList := ["config:" + name];
    for i := 0 to |config|
      invariant commandList == CommandList(name, config[..i])
    {
      var (key, value) := config[i];
      match value {
        case Bool(b) =>
          var text := if b then "true" else "false";
          commandList := commandList + [key + ":" + text];
        case Text(t) =>
          commandList := commandList + [key + ":" + t];
      }
      assert config[..i + 1][..i] == config[..i];
    }
    assert config[..|config|] == config;
    CommandListShape(name, config);
  }

  /** Booleans render in lower case; any other value as its text. */
  lemma BooleanEntries(key: string)
    ensures EntryArg(key, Bool(true)) == key + ":true" && EntryArg(key, Bool(false)) == key + ":false"
  {
  }

  /** The configurations, in the order they were first added. */
  type Configurations = seq<(string, ConfigDict)>

  function Names(configs: Configurations): (r: seq<string>)
    ensures |r| == |configs|
    ensures forall i :: 0 <= i < |configs| ==> r[i] == configs[i].0
  {
    seq(|configs|, i requires 0 <= i < |configs| => configs[i].0)
  }

  /** The names are distinct, as dictionary keys are. */
  predicate DistinctNames(configs: Configurations) {
    forall i, j :: 0 <= i < j < |configs| ==> configs[i].0 != configs[j].0
  }

  /** `configuration[name]`, if present. */
  function Lookup(configs: Configurations, name: string): (r: Option<ConfigDict>)
    ensures r.Some? <==> name in Names(configs)
    decreases |configs|
  {
    if configs == [] then None
    else if configs[0].0 == name then Some(configs[0].1)
    else Lookup(configs[1..], name)
  }

  /** `configuration[name] = values`: an existing name keeps its place and gets the new
      values; a new name goes last. */
  function Put(configs: Configurations, name: string, values: ConfigDict): (r: Configurations)
    decreases |configs|
  {
    if configs == [] then [(name, values)]
    else if configs[0].0 == name then [(name, values)] + configs[1..]
    else [configs[0]] + Put(configs[1..], name, values)
  }

  /** After `Put`, the name maps to the new values and every other name is untouched. */
  lemma {:induction false} PutLookup(configs: Configurations, name: string, values: ConfigDict, other: string)
    ensures Lookup(Put(configs, name, values), name) == Some(values)
    ensures other != name ==> Lookup(Put(configs, name, values), other) == Lookup(configs, other)
    decreases |configs|
  {
    if configs != [] && configs[0].0 != name {
      PutLookup(configs[1..], name, values, other);
      assert Put(configs, name, values)[1..] == Put(configs[1..], name, values);
    }
  }

  /** `Put` keeps the insertion order: an existing name stays where it is, a new one is appended. */
  lemma {:induction false} PutNames(configs: Configurations, name: string, values: ConfigDict)
    ensures name in Names(configs) ==> Names(Put(configs, name, values)) == Names(configs)
    ensures name !in Names(configs) ==> Names(Put(configs, name, values)) == Names(configs) + [name]
    decreases |configs|
  {
    if configs != [] {
      PutNames(configs[1..], name, values);
      assert Names(configs) == [configs[0].0] + Names(configs[1..]);
      if configs[0].0 != name {
        assert Names(Put(configs, name, values)) == [configs[0].0] + Names(Put(configs[1..], name, values));
      } else {
        assert Names(Put(configs, name, values)) == [name] + Names(configs[1..]);
      }
    }
  }

  /** Names stay distinct through `Put`. */
  lemma PutDistinct(configs: Configurations, name: string, values: ConfigDict)
    requires DistinctNames(configs)
    ensures DistinctNames(Put(configs, name, values))
  {
    PutNames(configs, name, values);
    var r := Put(configs, name, values);
    forall i, j | 0 <= i < j < |r| ensures r[i].0 != r[j].0 {
      assert Names(r)[i] == r[i].0 && Names(r)[j] == r[j].0;
      if name !in Names(configs) {
        if j == |configs| {
          assert Names(r)[i] == Names(configs)[i];
        } else {
          assert Names(r)[i] == configs[i].0 && Names(r)[j] == configs[j].0;
        }
      } else {
        assert Names(r)[i] == configs[i].0 && Names(r)[j] == configs[j].0;
      }
    }
  }

  /** The arguments of every configuration, in order. */
  function ConfigArgs(configs: Configurations): seq<string>
    decreases |configs|
  {
    if configs == [] then []
    else ConfigArgs(configs[..|configs| - 1]) + CommandList(configs[|configs| - 1].0, configs[|configs| - 1].1)
  }

  /** The `config:<name>` arguments of `install`, in order. */
  function ConfigNameArgs(configs: Configurations): (r: seq<string>)
    ensures |r| == |configs|
    ensures forall i :: 0 <= i < |configs| ==> r[i] == "config:" + configs[i].0
    decreases |configs|
  {
    if configs == [] then []
    else ConfigNameArgs(configs[..|configs| - 1]) + ["config:" + configs[|configs| - 1].0]
  }

  /** The number of entries of all the configurations together. */
  function EntryCount(configs: Configurations): nat
    decreases |configs|
  {
    if configs == [] then 0
    else EntryCount(configs[..|configs| - 1]) + |configs[|configs| - 1].1|
  }

  /** One argument per configuration and one per entry; the first names the first configuration. */
  lemma {:induction false} ConfigArgsLength(configs: Configurations)
    ensures |ConfigArgs(configs)| == |configs| + EntryCount(configs)
    ensures configs != [] ==> ConfigArgs(configs)[0] == "config:" + configs[0].0
    decreases |configs|
  {
    if configs != [] {
      var prefix := configs[..|configs| - 1];
      var last := configs[|configs| - 1];
      CommandListShape(last.0, last.1);
      ConfigArgsLength(prefix);
      if prefix != [] {
        assert prefix[0] == configs[0];
      }
    }
  }

  /** The argument list of `build(products)`. */
  function BuildArgs(buildFolder: string, projectFile: string, products: seq<string>, jobs: int, profile: string,
                     configs: Configurations): seq<string> {
    ["--no-install", "--build-directory", buildFolder, "--file", projectFile]
    + (if products != [] then ["--products", JoinWith(products, ",")] else [])
    + ["--jobs", IntToString(jobs)]
    + (if profile != "" then ["profile:" + profile] else [])
    + ConfigArgs(configs)
  }

  /** The argument list of `build_all()`. */
  function BuildAllArgs(buildFolder: string, projectFile: string, jobs: int, profile: string,
                        configs: Configurations): seq<string> {
    ["--no-install", "--build-directory", buildFolder, "--file", projectFile, "--all-products", "--jobs", IntToString(jobs)]
    + (if profile != "" then ["profile:" + profile] else [])
    + ConfigArgs(configs)
  }

  /** The argument list of `install()`. */
  function InstallArgs(packageFolder: string, projectFile: string, configs: Configurations): seq<string> {
    ["--no-build", "--install-root", packageFolder, "--file", projectFile] + ConfigNameArgs(configs)
  }

  /** `build` names the products only when there are some; the job count always follows,
      and the configuration arguments always end the list. */
  lemma BuildArgsShape(buildFolder: string, projectFile: string, products: seq<string>, jobs: int, profile: string,
                       configs: Configurations)
    ensures var args := BuildArgs(buildFolder, projectFile, products, jobs, profile, configs);
      var k := if products != [] then 7 else 5;
      && |args| == k + 2 + (if profile != "" then 1 else 0) + |ConfigArgs(configs)|
      && (products != [] ==> args[5] == "--products" && args[6] == JoinWith(products, ","))
      && args[k] == "--jobs" && args[k + 1] == IntToString(jobs)
      && (profile != "" ==> args[k + 2] == "profile:" + profile)
      && args[|args| - |ConfigArgs(configs)|..] == ConfigArgs(configs)
  {
  }

  /** `build_all` is `build` without products, with `--all-products` before the job count. */
  lemma BuildAllIsBuildOfAll(buildFolder: string, projectFile: string, jobs: int, profile: string, configs: Configurations)
    ensures var build := BuildArgs(buildFolder, projectFile, [], jobs, profile, configs);
      BuildAllArgs(buildFolder, projectFile, jobs, profile, configs) == build[..5] + ["--all-products"] + build[5..]
  {
  }

  /** `install` lists one `config:<name>` per configuration, in insertion order. */
  lemma InstallArgsShape(packageFolder: string, projectFile: string, configs: Configurations)
    ensures var args := InstallArgs(packageFolder, projectFile, configs);
      && |args| == 5 + |configs|
      && forall i :: 0 <= i < |configs| ==> args[5 + i] == "config:" + configs[i].0
  {
  }

  /** The Qbs helper of one recipe. The project file is already resolved: the given one,
      or the recipe's source folder when none is given. */
  class Qbs {
    var profile: string
    const projectFile: string
    var jobs: int
    var configuration: Configurations
    const buildFolder: string
    const packageFolder: string

    predicate Valid()
      reads this
    {
      DistinctNames(configuration)
    }

    constructor (sourceFolder: string, buildFolder: string, packageFolder: string, projectFile: string, jobs: int)
      ensures Valid()
      ensures profile == "conan_toolchain_profile"
      ensures this.projectFile == if projectFile == "" then sourceFolder else projectFile
      ensures this.jobs == jobs && configuration == []
      ensures this.buildFolder == buildFolder && this.packageFolder == packageFolder
    {
      profile := "conan_toolchain_profile";
      this.projectFile := if projectFile == "" then sourceFolder else projectFile;
      this.jobs := jobs;
      configuration := [];
      this.buildFolder := buildFolder;
      this.packageFolder := packageFolder;
    }

    /** `add_configuration(name, values)` */
    method AddConfiguration(name: string, values: ConfigDict)
      requires Valid()
      modifies this
      ensures Valid()
      ensures configuration == Put(old(configuration), name, values)
      ensures Lookup(configuration, name) == Some(values)
      ensures forall other :: other != name ==> Lookup(configuration, other) == Lookup(old(configuration), other)
      ensures profile == old(profile) && jobs == old(jobs)
    {
      PutDistinct(configuration, name, values);
      forall other {
        PutLookup(configuration, name, values, other);
      }
      configuration := Put(configuration, name, values);
    }

    /** The configuration arguments, gathered one configuration at a time. */
    method ConfigurationArgs() returns (args: seq<string>)
      ensures args == ConfigArgs(configuration)
    {
      args := [];
      for i := 0 to |configuration|
        invariant args == ConfigArgs(configuration[..i])
      {
        var (name, config) := configuration[i];
        var list := ConfigurationToCommandList(name, config);
        args := args + list;
        assert configuration[..i + 1][..i] == configuration[..i];
      }
      assert configuration[..|configuration|] == configuration;
    }

    /** The command `build(products)` runs. */
    method Build(products: seq<string>) returns (cmd: string)
      ensures cmd == "qbs build " + JoinWith(BuildArgs(buildFolder, projectFile, products, jobs, profile, configuration), " ")
    {
      var args := ["--no-install", "--build-directory", buildFolder, "--file", projectFile];
      if products != [] {
        args := args + ["--products", JoinWith(products, ",")];
      }
      args := args + ["--jobs", IntToString(jobs)];
      if profile != "" {
        args := args + ["profile:" + profile];
      }
      var configArgs := ConfigurationArgs();
      args := args + configArgs;
      assert args == BuildArgs(buildFolder, projectFile, products, jobs, profile, configuration);
      cmd := "qbs build " + JoinWith(args, " ");
    }

    /** The command `build_all()` runs. */
    method BuildAll() returns (cmd: string)
      ensures cmd == "qbs build " + JoinWith(BuildAllArgs(buildFolder, projectFile, jobs, profile, configuration), " ")
    {
      var args := ["--no-install", "--build-directory", buildFolder, "--file", projectFile, "--all-products",
                   "--jobs", IntToString(jobs)];
      if profile != "" {
        args := args + ["profile:" + profile];
      }
      var configArgs := ConfigurationArgs();
      args := args + configArgs;
      assert args == BuildAllArgs(buildFolder, projectFile, jobs, profile, configuration);
      cmd := "qbs build " + JoinWith(args, " ");
    }

    /** The command `install()` runs. */
    method Install() returns (cmd: string)
      ensures cmd == "qbs install " + JoinWith(InstallArgs(packageFolder, projectFile, configuration), " ")
    {
      var args := ["--no-build", "--install-root", packageFolder, "--file", projectFile];
      for i := 0 to |configuration|
        invariant args == ["--no-build", "--install-root", packageFolder, "--file", projectFile]
          + ConfigNameArgs(configuration[..i])
      {
        args := args + ["config:" + configuration[i].0];
        assert configuration[..i + 1][..i] == configuration[..i];
      }
      assert configuration[..|configuration|] == configuration;
      cmd := "qbs install " + JoinWith(args, " ");
    }
  }
}
