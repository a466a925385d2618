/** `_get_gnu_triplet`: the `<machine>-<op_system>` string for an os, arch and compiler. */
module GnuTriplet {
  import opened Wrappers
  import opened Strings

  datatype TripletError =
    | CompilerRequiredForWindows
    | UnknownMachine(arch: string)

  /** The fixed arch table; `x86` is `i686` except on Linux. */
  function MachineFromTable(os: string, arch: string): Option<string> {
    if arch == "x86" then Some(if os != "Linux" then "i686" else "x86")
    else if arch == "x86_64" then Some("x86_64")
    else if arch == "armv8" then Some("aarch64")
    else if arch == "armv8_32" then Some("aarch64")
    else if arch == "armv8.3" then Some("aarch64")
    else if arch == "asm.js" then Some("asmjs")
    else if arch == "wasm" then Some("wasm32")
    else None
  }

  /** The substring fallback for archs outside the table, as the if/elif chain is written. */
  function MachineFromSubstring(os: string, arch: string): Option<string> {
    if os == "AIX" then
      if Contains(arch, "ppc32") then Some("rs6000")
      else if Contains(arch, "ppc64") then Some("powerpc")
      else None
    else if Contains(arch, "arm") then Some("arm")
    else if Contains(arch, "ppc32be") then Some("powerpcbe")
    else if Contains(arch, "ppc64le") then Some("powerpc64le")
    else if Contains(arch, "ppc64") then Some("powerpc64")
    else if Contains(arch, "ppc32") then Some("powerpc")
    else if Contains(arch, "mips64") then Some("mips64")
    else if Contains(arch, "mips") then Some("mips")
    else if Contains(arch, "sparcv9") then Some("sparc64")
    else if Contains(arch, "sparc") then Some("sparc")
    else if Contains(arch, "s390x") then Some("s390x-ibm")
    else if Contains(arch, "s390") then Some("s390-ibm")
    else if Contains(arch, "sh4") then Some("sh4")
    else if Contains(arch, "e2k") then Some("e2k-unknown")
    else None
  }

  /** The fallback as a priority list of (substring, machine) pairs. */
  const GenericPriority: seq<(string, string)> := [
    ("arm", "arm"), ("ppc32be", "powerpcbe"), ("ppc64le", "powerpc64le"), ("ppc64", "powerpc64"),
    ("ppc32", "powerpc"), ("mips64", "mips64"), ("mips", "mips"), ("sparcv9", "sparc64"),
    ("sparc", "sparc"), ("s390x", "s390x-ibm"), ("s390", "s390-ibm"), ("sh4", "sh4"),
    ("e2k", "e2k-unknown")]

  const AixPriority: seq<(string, string)> := [("ppc32", "rs6000"), ("ppc64", "powerpc")]

  /** The machine of the first pair whose substring occurs in `arch`. */
  function FirstMatch(table: seq<(string, string)>, arch: string): Option<string> {
    if table == [] then None
    else if Contains(arch, table[0].0) then Some(table[0].1)
    else FirstMatch(table[1..], arch)
  }

  /** One step of the priority search. */
  lemma FirstMatchStep(table: seq<(string, string)>, arch: string, k: nat)
    requires k < |table|
    ensures FirstMatch(table[k..], arch) ==
      if Contains(arch, table[k].0) then Some(table[k].1) else FirstMatch(table[k + 1..], arch)
  {
    assert table[k..][1..] == table[k + 1..];
  }

  /** The if/elif chain is exactly "first match in priority order", with the AIX list on AIX. */
  lemma SubstringIsFirstMatch(os: string, arch: string)
    ensures MachineFromSubstring(os, arch) == FirstMatch(if os == "AIX" then AixPriority else GenericPriority, arch)
  {
    if os == "AIX" {
      FirstMatchStep(AixPriority, arch, 0);
      FirstMatchStep(AixPriority, arch, 1);
      assert AixPriority[0..] == AixPriority;
    } else {
      GenericIsFirstMatch(os, arch);
    }
  }

  lemma GenericIsFirstMatch(os: string, arch: string)
    requires os != "AIX"
    ensures MachineFromSubstring(os, arch) == FirstMatch(GenericPriority, arch)
  {
    var t := GenericPriority;
    assert t[0..] == t;
    FirstMatchStep(t, arch, 0);
    FirstMatchStep(t, arch, 1);
    FirstMatchStep(t, arch, 2);
    FirstMatchStep(t, arch, 3);
    FirstMatchStep(t, arch, 4);
    FirstMatchStep(t, arch, 5);
    FirstMatchStep(t, arch, 6);
    FirstMatchStep(t, arch, 7);
    FirstMatchStep(t, arch, 8);
    FirstMatchStep(t, arch, 9);
    FirstMatchStep(t, arch, 10);
    FirstMatchStep(t, arch, 11);
    FirstMatchStep(t, arch, 12);
  }

  /** The OS part before any suffix: the table, Windows by compiler, else the OS lower-cased. */
  function OsName(os: string, compiler: Option<string>): string {
    if os == "Windows" then (if compiler == Some("gcc") then "w64-mingw32" else "unknown-windows")
    else if os == "Linux" then "linux-gnu"
    else if os == "Darwin" then "apple-darwin"
    else if os == "Android" then "linux-android"
    else if os == "Macos" then "apple-darwin"
    else if os == "iOS" then "apple-ios"
    else if os == "watchOS" then "apple-watchos"
    else if os == "tvOS" then "apple-tvos"
    else if os == "Emscripten" then "local-emscripten"
    else if os == "AIX" then "ibm-aix"
    else if os == "Neutrino" then "nto-qnx"
    else Lower(os)
  }

  /** The ABI suffix appended on Linux and Android. */
  function OsSuffix(os: string, arch: string): string {
    if os == "Linux" || os == "Android" then
      (if Contains(arch, "arm") && !Contains(arch, "armv8") then "eabi" else "")
      + (if (arch == "armv5hf" || arch == "armv7hf") && os == "Linux" then "hf" else "")
      + (if arch == "armv8_32" && os == "Linux" then "_ilp32" else "")
    else ""
  }

  /** The machine part: the table first, then the substring fallback. */
  function Machine(os: string, arch: string): Option<string> {
    match MachineFromTable(os, arch)
    case Some(m) => Some(m)
    case None => MachineFromSubstring(os, arch)
  }

  /** `_get_gnu_triplet(os_, arch, compiler)` */
  function GetGnuTriplet(os: string, arch: string, compiler: Option<string>): (r: Result<string, TripletError>)
    ensures r.Err? <==> (os == "Windows" && compiler.None?) || Machine(os, arch).None?
    ensures os == "Windows" && compiler.None? ==> r == Err(CompilerRequiredForWindows)
    ensures r.Ok? ==> r.value == Machine(os, arch).value + "-" + OsName(os, compiler) + OsSuffix(os, arch)
  {
    if os == "Windows" && compiler.None? then Err(CompilerRequiredForWindows)
    else
      match Machine(os, arch)
      case None => Err(UnknownMachine(arch))
      case Some(machine) =>
        var opSystem := OsName(os, compiler);
        var opSystem := if os == "Linux" || os == "Android" then
          var withEabi := if Contains(arch, "arm") && !Contains(arch, "armv8") then opSystem + "eabi" else opSystem;
          var withHf := if (arch == "armv5hf" || arch == "armv7hf") && os == "Linux" then withEabi + "hf" else withEabi;
          if arch == "armv8_32" && os == "Linux" then withHf + "_ilp32" else withHf
        else opSystem;
        Ok(machine + "-" + opSystem)
  }

  /** A known machine and a usable compiler give machine, OS name and suffix. */
  lemma TripletParts(os: string, arch: string, compiler: Option<string>, machine: string)
    requires !(os == "Windows" && compiler.None?) && Machine(os, arch) == Some(machine)
    ensures GetGnuTriplet(os, arch, compiler) == Ok(machine + "-" + OsName(os, compiler) + OsSuffix(os, arch))
  {
  }

  /** Only Linux and Android get a suffix; on Windows the gcc compiler selects MinGW. */
  lemma SuffixOnlyOnLinuxAndroid(os: string, arch: string, compiler: Option<string>)
    requires os != "Linux" && os != "Android"
    requires GetGnuTriplet(os, arch, compiler).Ok?
    ensures GetGnuTriplet(os, arch, compiler).value == Machine(os, arch).value + "-" + OsName(os, compiler)
    ensures os == "Windows" ==> (OsName(os, compiler) == "w64-mingw32" <==> compiler == Some("gcc"))
  {
  }

  /** An OS outside the table is written lower-case. */
  lemma UnknownOsLowerCased(os: string, arch: string, compiler: Option<string>)
    requires os !in ["Windows", "Linux", "Darwin", "Android", "Macos", "iOS", "watchOS", "tvOS",
                     "Emscripten", "AIX", "Neutrino"]
    requires Machine(os, arch).Some?
    ensures GetGnuTriplet(os, arch, compiler) == Ok(Machine(os, arch).value + "-" + Lower(os))
  {
  }

  /** On Linux `x86` keeps its name; elsewhere it is `i686`. */
  lemma X86Triplets()
    ensures GetGnuTriplet("Linux", "x86", None) == Ok("x86-linux-gnu")
    ensures GetGnuTriplet("Macos", "x86", None) == Ok("i686-apple-darwin")
  {
    NotContainsFirstChar("x86", "arm");
    assert "x86" + "-" + "linux-gnu" == "x86-linux-gnu";
    assert "i686" + "-" + "apple-darwin" == "i686-apple-darwin";
  }

  /** On Windows the compiler selects MinGW (`gcc`) or the plain Windows system. */
  lemma WindowsTriplets()
    ensures GetGnuTriplet("Windows", "x86_64", Some("gcc")) == Ok("x86_64-w64-mingw32")
    ensures GetGnuTriplet("Windows", "x86_64", Some("msvc")) == Ok("x86_64-unknown-windows")
    ensures GetGnuTriplet("Windows", "x86_64", None) == Err(CompilerRequiredForWindows)
  {
    assert "x86_64" + "-" + "w64-mingw32" == "x86_64-w64-mingw32";
    assert "x86_64" + "-" + "unknown-windows" == "x86_64-unknown-windows";
  }

  /** `armv8_32` on Linux is AArch64 with the ILP32 ABI; plain `armv8` gets no `eabi`. */
  lemma Armv8Triplets()
    ensures GetGnuTriplet("Linux", "armv8_32", None) == Ok("aarch64-linux-gnu_ilp32")
    ensures GetGnuTriplet("Android", "armv8", None) == Ok("aarch64-linux-android")
  {
    ContainsAt("armv8_32", "armv8", 0);
    ContainsAt("armv8", "armv8", 0);
    assert "aarch64" + "-" + ("linux-gnu" + "_ilp32") == "aarch64-linux-gnu_ilp32";
    assert "aarch64" + "-" + "linux-android" == "aarch64-linux-android";
  }

  /** `armv7` and `armv7hf` fall outside the table but contain `arm` and not `armv8`. */
  lemma Armv7Machine(arch: string)
    requires arch == "armv7" || arch == "armv7hf"
    ensures Machine("Linux", arch) == Some("arm") && Machine("Android", arch) == Some("arm")
    ensures Contains(arch, "arm") && !Contains(arch, "armv8")
  {
    ContainsAt(arch, "arm", 0);
    assert arch[..5][4] == '7';
    NotContainsFirstChar(arch[1..], "armv8");
  }

  /** ARMv7 on Linux or Android: the machine is `arm`, and the suffix is `eabi`, with `hf`
      added for the hard-float arch on Linux only. */
  lemma Armv7Triplet(os: string, arch: string)
    requires os == "Linux" || os == "Android"
    requires arch == "armv7" || arch == "armv7hf"
    ensures OsSuffix(os, arch) == if os == "Linux" && arch == "armv7hf" then "eabihf" else "eabi"
    ensures GetGnuTriplet(os, arch, None) == Ok("arm" + "-" + OsName(os, None) + OsSuffix(os, arch))
  {
    Armv7Machine(arch);
    TripletParts(os, arch, None, "arm");
    assert arch[4] == '7';
    assert arch != "armv5hf" && arch != "armv8_32";
  }

  /** On Linux, ARMv7 gets `eabi`, and the hard-float arch gets `hf` after it. */
  lemma ArmLinux(arch: string)
    requires arch == "armv7" || arch == "armv7hf"
    ensures GetGnuTriplet("Linux", arch, None) ==
      Ok(if arch == "armv7hf" then "arm-linux-gnueabihf" else "arm-linux-gnueabi")
  {
    Armv7Triplet("Linux", arch);
    assert OsName("Linux", None) == "linux-gnu";
    if arch == "armv7hf" {
      assert "arm" + "-" + "linux-gnu" + "eabihf" == "arm-linux-gnueabihf";
    } else {
      assert "arm" + "-" + "linux-gnu" + "eabi" == "arm-linux-gnueabi";
    }
  }

  /** On Android the hard-float suffix is not added: both ARMv7 flavours give `androideabi`. */
  lemma ArmAndroid(arch: string)
    requires arch == "armv7" || arch == "armv7hf"
    ensures GetGnuTriplet("Android", arch, None) == Ok("arm-linux-androideabi")
  {
    Armv7Triplet("Android", arch);
    assert OsName("Android", None) == "linux-android";
    assert "arm" + "-" + "linux-android" + "eabi" == "arm-linux-androideabi";
  }

  /** On AIX only the two powerpc patterns apply, so an ARM arch is unknown there. */
  lemma AixTriplet(arch: string)
    requires arch == "ppc64" || arch == "ppc32" || arch == "armv7"
    ensures GetGnuTriplet("AIX", arch, None) ==
      if arch == "ppc64" then Ok("powerpc-ibm-aix")
      else if arch == "ppc32" then Ok("rs6000-ibm-aix")
      else Err(UnknownMachine(arch))
  {
    assert OsName("AIX", None) == "ibm-aix" && OsSuffix("AIX", arch) == "";
    if arch == "ppc64" {
      ContainsAt(arch, "ppc64", 0);
      assert arch[..5][3] == '6';
      NotContainsShort(arch[1..], "ppc32");
      assert Machine("AIX", arch) == Some("powerpc");
      TripletParts("AIX", arch, None, "powerpc");
      assert "powerpc" + "-" + "ibm-aix" + "" == "powerpc-ibm-aix";
    } else if arch == "ppc32" {
      ContainsAt(arch, "ppc32", 0);
      assert Machine("AIX", arch) == Some("rs6000");
      TripletParts("AIX", arch, None, "rs6000");
      assert "rs6000" + "-" + "ibm-aix" + "" == "rs6000-ibm-aix";
    } else {
      NotContainsFirstChar(arch, "ppc32");
      NotContainsFirstChar(arch, "ppc64");
    }
  }
}
