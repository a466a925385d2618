/** `vs_layout`: the folder layout of a typical Visual Studio project. */
module VsLayouts {
  import opened Wrappers
  import opened ConanFiles
  import opened MSBuilds

  datatype LayoutError =
    | MissingSetting(name: string)
    | UnsupportedArch(reported: string)

  /** The parts of a recipe that `vs_layout` reads and assigns. The subproject is `""`
      when the recipe has none. */
  class ConanFile {
    const settings: Settings
    const subproject: string
    var sourceFolder: string
    var buildFolder: string
    var generatorsFolder: string
    var sourceIncludeDirs: seq<string>
    var buildLibDirs: seq<string>
    var buildBinDirs: seq<string>

    constructor (settings: Settings, subproject: string)
      ensures this.settings == settings && this.subproject == subproject
      ensures sourceFolder == buildFolder == generatorsFolder == ""
      ensures sourceIncludeDirs == buildLibDirs == buildBinDirs == []
    {
      this.settings := settings;
      this.subproject := subproject;
      sourceFolder, buildFolder, generatorsFolder := "", "", "";
      sourceIncludeDirs, buildLibDirs, buildBinDirs := [], [], [];
    }
  }

  /** The directory for libraries and binaries, as the code computes it: `build_type` for
      `x86` or an unset arch, `<platform>/<build_type>` for the other MSBuild archs.
      For any other arch the error reports the rebound name, which is always `None`. */
  function BinDir(settings: Settings): (r: Result<string, LayoutError>)
    ensures "build_type" !in settings ==> r == Err(MissingSetting("build_type"))
    ensures "build_type" in settings && "arch" !in settings ==> r == Err(MissingSetting("arch"))
  {
    if "build_type" !in settings then Err(MissingSetting("build_type"))
    else if "arch" !in settings then Err(MissingSetting("arch"))
    else
      var buildType := Show(settings["build_type"]);
      var arch := Show(settings["arch"]);
      if arch in {"None", "x86"} then Ok(buildType)
      else
        var mapped := MSBuildArch(arch);
        if mapped.Some? then Ok(PathJoin(mapped.value, buildType))
        else Err(UnsupportedArch(Show(mapped)))
  }

  /** The same directory with the error naming the arch it rejects. */
  function BinDirFixed(settings: Settings): (r: Result<string, LayoutError>)
    ensures r.Err? && r.error.UnsupportedArch? ==> "arch" in settings && r.error.reported == Show(settings["arch"])
  {
    if "build_type" !in settings then Err(MissingSetting("build_type"))
    else if "arch" !in settings then Err(MissingSetting("arch"))
    else
      var buildType := Show(settings["build_type"]);
      var arch := Show(settings["arch"]);
      if arch in {"None", "x86"} then Ok(buildType)
      else
        var mapped := MSBuildArch(arch);
        if mapped.Some? then Ok(PathJoin(mapped.value, buildType))
        else Err(UnsupportedArch(arch))
  }

  /** Which archs the layout accepts, and the directory each gets. */
  lemma BinDirCases(settings: Settings)
    requires "build_type" in settings && "arch" in settings
    ensures var arch := Show(settings["arch"]);
      BinDir(settings).Ok? <==> arch in ["None", "x86", "x86_64", "armv7", "armv8"]
    ensures var arch := Show(settings["arch"]);
      arch == "None" || arch == "x86" ==> BinDir(settings) == Ok(Show(settings["build_type"]))
    ensures var arch := Show(settings["arch"]);
      arch in ["x86_64", "armv7", "armv8"] ==>
        BinDir(settings) == Ok(PathJoin(MSBuildArch(arch).value, Show(settings["build_type"])))
  {
  }

  /** As written, an unsupported arch is always reported as `None`, whatever its name. */
  lemma UnsupportedArchReportsNone(settings: Settings)
    requires BinDir(settings).Err? && BinDir(settings).error.UnsupportedArch?
    ensures BinDir(settings).error.reported == "None"
    ensures "arch" in settings && Show(settings["arch"]) != "None"
  {
  }

  lemma UnsupportedArchExample()
    ensures BinDir(map["build_type" := Some("Release"), "arch" := Some("mips")]) == Err(UnsupportedArch("None"))
    ensures BinDirFixed(map["build_type" := Some("Release"), "arch" := Some("mips")]) == Err(UnsupportedArch("mips"))
  {
  }

  /** The corrected directory differs from the code's only in the name it reports. */
  lemma BinDirFixedAgrees(settings: Settings)
    ensures BinDir(settings).Ok? <==> BinDirFixed(settings).Ok?
    ensures BinDir(settings).Ok? ==> BinDir(settings) == BinDirFixed(settings)
    ensures BinDir(settings).Err? && !BinDir(settings).error.UnsupportedArch? ==> BinDir(settings) == BinDirFixed(settings)
  {
  }

  /** `vs_layout(conanfile)`: the folders and include dirs are assigned first, so they are
      set even when a setting is then found missing or unsupported; the library and binary
      dirs are assigned only on success, both to the same one-element list. */
  method VsLayout(conanfile: ConanFile) returns (r: Result<(), LayoutError>)
    modifies conanfile
    ensures conanfile.sourceFolder == (if conanfile.subproject == "" then "." else conanfile.subproject)
    ensures conanfile.buildFolder == conanfile.sourceFolder
    ensures conanfile.generatorsFolder ==
      (if conanfile.subproject == "" then "conan" else PathJoin(conanfile.subproject, "conan"))
    ensures conanfile.sourceIncludeDirs == ["include"]
    ensures r.Err? <==> BinDir(conanfile.settings).Err?
    ensures r.Err? ==> r.error == BinDir(conanfile.settings).error
    ensures r.Err? ==> conanfile.buildLibDirs == old(conanfile.buildLibDirs)
    ensures r.Err? ==> conanfile.buildBinDirs == old(conanfile.buildBinDirs)
    ensures r.Ok? ==> conanfile.buildLibDirs == conanfile.buildBinDirs == [BinDir(conanfile.settings).value]
  {
    var subproject := conanfile.subproject;
    conanfile.sourceFolder := if subproject != "" then subproject else ".";
    conanfile.generatorsFolder := if subproject != "" then PathJoin(subproject, "conan") else "conan";
    conanfile.buildFolder := if subproject != "" then subproject else ".";
    conanfile.sourceIncludeDirs := ["include"];

    if "build_type" !in conanfile.settings {
      return Err(MissingSetting("build_type"));
    }
    var buildType := Show(conanfile.settings["build_type"]);
    if "arch" !in conanfile.settings {
      return Err(MissingSetting("arch"));
    }
    var arch := Show(conanfile.settings["arch"]);

    var bindirs: string;
    if arch in {"None", "x86"} {
      bindirs := buildType;
    } else {
      var mapped := MSBuildArch(arch);
      if mapped.Some? {
        bindirs := PathJoin(mapped.value, buildType);
      } else {
        return Err(UnsupportedArch(Show(mapped)));
      }
    }
    conanfile.buildLibDirs := [bindirs];
    conanfile.buildBinDirs := [bindirs];
    return Ok(());
  }

  /** A subproject `app` with `x86_64`: folders under `app`, binaries in `x64/Debug`. */
  lemma LayoutExample()
    ensures PathJoin("app", "conan") == "app/conan"
    ensures BinDir(map["build_type" := Some("Debug"), "arch" := Some("x86_64")]) == Ok("x64/Debug")
    ensures BinDir(map["build_type" := Some("Debug"), "arch" := None]) == Ok("Debug")
    ensures BinDir(map["arch" := Some("x86")]) == Err(MissingSetting("build_type"))
  {
    assert "x86_64" != "x86";
    assert "x64" + "/" + "Debug" == "x64/Debug";
  }
}
