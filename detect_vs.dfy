/** Visual Studio detection: which recent Visual Studio is installed, where, and the
    arguments of the `vswhere` query. */
module DetectVs {
  import opened Wrappers
  import opened Strings

  /** One installation as `vswhere` reports it; legacy installations have no product id. */
  datatype Product = Product(installationVersion: string, installationPath: string, productId: Option<string>)

  /** The environment: the value of each variable, `None` when unset. */
  type Env = string -> Option<string>

  /** A value that is set and non-empty, as Python's truth test sees a string. */
  predicate Truthy(value: Option<string>) {
    value.Some? && value.value != ""
  }

  /** Product types in order of preference. */
  const Preference: seq<string> := ["Enterprise", "Professional", "Community", "BuildTools"]

  // ---- removal of repeated products ----

  /** The products with repeats dropped, keeping each first occurrence in its place. */
  function Dedup(products: seq<Product>): (r: seq<Product>)
    decreases |products|
  {
    if products == [] then []
    else
      var seen := Dedup(products[..|products| - 1]);
      var last := products[|products| - 1];
      if last in seen then seen else seen + [last]
  }

  predicate Distinct(products: seq<Product>) {
    forall i, j :: 0 <= i < j < |products| ==> products[i] != products[j]
  }

  /** Dedup keeps exactly the products it was given, each once. */
  lemma {:induction false} DedupProperties(products: seq<Product>)
    ensures Distinct(Dedup(products))
    ensures forall p :: p in Dedup(products) <==> p in products
    decreases |products|
  {
    if products != [] {
      var prefix := products[..|products| - 1];
      DedupProperties(prefix);
      assert products == prefix + [products[|products| - 1]];
    }
  }

  /** A list with no repeats is left as it is. */
  lemma {:induction false} DedupOfDistinct(products: seq<Product>)
    requires Distinct(products)
    ensures Dedup(products) == products
    decreases |products|
  {
    if products != [] {
      var prefix := products[..|products| - 1];
      DedupOfDistinct(prefix);
      assert products == prefix + [products[|products| - 1]];
    }
  }

  /** The loop that removes repeated products. */
  method RemoveRepeated(products: seq<Product>) returns (seen: seq<Product>)
    ensures seen == Dedup(products)
  {
    seen := [];
    for i := 0 to |products|
      invariant seen == Dedup(products[..i])
    {
      assert products[..i + 1][..i] == products[..i];
      if products[i] !in seen {
        seen := seen + [products[i]];
      }
    }
    assert products[..|products|] == products;
  }

  // ---- collection of installation paths ----

  /** `"%d." % int(version)`: the prefix a matching installation version starts with. */
  function VersionPrefix(version: nat): string {
    NatToString(version) + "."
  }

  /** A product of the given version whose product id names the given type. */
  predicate OfType(product: Product, version: nat, productType: string) {
    StartsWith(product.installationVersion, VersionPrefix(version))
    && product.productId.Some? && Contains(product.productId.value, productType)
  }

  /** A legacy product of the given version. */
  predicate LegacyOf(product: Product, version: nat) {
    StartsWith(product.installationVersion, VersionPrefix(version)) && product.productId.None?
  }

  /** The paths of the products of one type, in product order. */
  function PathsOfType(products: seq<Product>, version: nat, productType: string): (r: seq<string>)
    ensures |r| <= |products|
    decreases |products|
  {
    if products == [] then []
    else
      var last := products[|products| - 1];
      PathsOfType(products[..|products| - 1], version, productType)
      + (if OfType(last, version, productType) then [last.installationPath] else [])
  }

  /** The paths of the legacy products, in product order. */
  function LegacyPaths(products: seq<Product>, version: nat): (r: seq<string>)
    decreases |products|
  {
    if products == [] then []
    else
      var last := products[|products| - 1];
      LegacyPaths(products[..|products| - 1], version)
      + (if LegacyOf(last, version) then [last.installationPath] else [])
  }

  /** The paths of the products of the first `n` preferred types, grouped by type. */
  function PreferredPaths(products: seq<Product>, version: nat, n: nat): seq<string>
    requires n <= |Preference|
  {
    if n == 0 then [] else PreferredPaths(products, version, n - 1) + PathsOfType(products, version, Preference[n - 1])
  }

  /** All candidate paths: by preference, then the legacy ones. */
  function CandidatePaths(products: seq<Product>, version: nat): seq<string> {
    PreferredPaths(products, version, |Preference|) + LegacyPaths(products, version)
  }

  /** A path of one type comes from a product of that type. */
  lemma {:induction false} PathsOfTypeOrigin(products: seq<Product>, version: nat, productType: string, path: string)
    ensures path in PathsOfType(products, version, productType) <==>
      exists p :: p in products && OfType(p, version, productType) && p.installationPath == path
    decreases |products|
  {
    if products != [] {
      var prefix := products[..|products| - 1];
      var last := products[|products| - 1];
      PathsOfTypeOrigin(prefix, version, productType, path);
      assert products == prefix + [last];
    }
  }

  /** A legacy path comes from a legacy product. */
  lemma {:induction false} LegacyPathsOrigin(products: seq<Product>, version: nat, path: string)
    ensures path in LegacyPaths(products, version) <==>
      exists p :: p in products && LegacyOf(p, version) && p.installationPath == path
    decreases |products|
  {
    if products != [] {
      var prefix := products[..|products| - 1];
      var last := products[|products| - 1];
      LegacyPathsOrigin(prefix, version, path);
      assert products == prefix + [last];
    }
  }

  /** A preferred path comes from a product of one of the first `n` types. */
  lemma {:induction false} PreferredPathsOrigin(products: seq<Product>, version: nat, n: nat, path: string)
    requires n <= |Preference|
    ensures path in PreferredPaths(products, version, n) <==>
      exists k :: 0 <= k < n && path in PathsOfType(products, version, Preference[k])
    decreases n
  {
    if n > 0 {
      PreferredPathsOrigin(products, version, n - 1, path);
    }
  }

  /** A candidate path is the path of a product of the version that is either legacy or of one
      of the four preferred types; products of any other type never contribute. */
  lemma CandidateOrigin(products: seq<Product>, version: nat, path: string)
    ensures path in CandidatePaths(products, version) <==>
      exists p :: p in products && p.installationPath == path
        && (LegacyOf(p, version) || exists k :: 0 <= k < |Preference| && OfType(p, version, Preference[k]))
  {
    PreferredPathsOrigin(products, version, |Preference|, path);
    LegacyPathsOrigin(products, version, path);
    if path in PreferredPaths(products, version, |Preference|) {
      var k :| 0 <= k < |Preference| && path in PathsOfType(products, version, Preference[k]);
      PathsOfTypeOrigin(products, version, Preference[k], path);
    }
    if exists p :: p in products && p.installationPath == path
        && (LegacyOf(p, version) || exists k :: 0 <= k < |Preference| && OfType(p, version, Preference[k])) {
      var p :| p in products && p.installationPath == path
        && (LegacyOf(p, version) || exists k :: 0 <= k < |Preference| && OfType(p, version, Preference[k]));
      if !LegacyOf(p, version) {
        var k :| 0 <= k < |Preference| && OfType(p, version, Preference[k]);
        PathsOfTypeOrigin(products, version, Preference[k], path);
      }
    }
  }

  /** The paths of fewer types are a prefix of the paths of more types. */
  lemma {:induction false} PreferredPrefix(products: seq<Product>, version: nat, m: nat, n: nat)
    requires m <= n <= |Preference|
    ensures |PreferredPaths(products, version, m)| <= |PreferredPaths(products, version, n)|
    ensures PreferredPaths(products, version, n)[..|PreferredPaths(products, version, m)|]
      == PreferredPaths(products, version, m)
    decreases n
  {
    if m < n {
      PreferredPrefix(products, version, m, n - 1);
      var small := PreferredPaths(products, version, m);
      var mid := PreferredPaths(products, version, n - 1);
      var more := PathsOfType(products, version, Preference[n - 1]);
      assert (mid + more)[..|small|] == mid[..|small|];
    }
  }

  /** When an Enterprise product of the version exists, its path comes first. */
  lemma EnterpriseFirst(products: seq<Product>, version: nat)
    requires PathsOfType(products, version, "Enterprise") != []
    ensures CandidatePaths(products, version) != []
    ensures CandidatePaths(products, version)[0] == PathsOfType(products, version, "Enterprise")[0]
  {
    assert PreferredPaths(products, version, 1) == PathsOfType(products, version, "Enterprise");
    PreferredPrefix(products, version, 1, |Preference|);
    var all := PreferredPaths(products, version, |Preference|);
    assert all[0] == all[..|PreferredPaths(products, version, 1)|][0];
  }

  // ---- removing repeats does not change the first path ----

  /** Two path lists that are empty together and otherwise start with the same path. */
  predicate SameHead(a: seq<string>, b: seq<string>) {
    (a == [] <==> b == []) && (a != [] ==> a[0] == b[0])
  }

  lemma SameHeadAppend(a1: seq<string>, b1: seq<string>, a2: seq<string>, b2: seq<string>)
    requires SameHead(a1, b1) && SameHead(a2, b2)
    ensures SameHead(a1 + a2, b1 + b2)
  {
  }

  lemma PathsOfTypeSnoc(products: seq<Product>, last: Product, version: nat, productType: string)
    ensures PathsOfType(products + [last], version, productType) ==
      PathsOfType(products, version, productType) + (if OfType(last, version, productType) then [last.installationPath] else [])
  {
    assert (products + [last])[..|products|] == products;
  }

  lemma LegacyPathsSnoc(products: seq<Product>, last: Product, version: nat)
    ensures LegacyPaths(products + [last], version) ==
      LegacyPaths(products, version) + (if LegacyOf(last, version) then [last.installationPath] else [])
  {
    assert (products + [last])[..|products|] == products;
  }

  /** A repeated product never contributes a path of its type first: removing repeats keeps
      the first path of each type. */
  lemma {:induction false} PathsOfTypeDedup(products: seq<Product>, version: nat, productType: string)
    ensures SameHead(PathsOfType(Dedup(products), version, productType), PathsOfType(products, version, productType))
    decreases |products|
  {
    if products != [] {
      var prefix := products[..|products| - 1];
      var last := products[|products| - 1];
      assert products == prefix + [last];
      PathsOfTypeDedup(prefix, version, productType);
      PathsOfTypeSnoc(prefix, last, version, productType);
      PathsOfTypeSnoc(Dedup(prefix), last, version, productType);
      if last in Dedup(prefix) && OfType(last, version, productType) {
        DedupProperties(prefix);
        PathsOfTypeOrigin(prefix, version, productType, last.installationPath);
      }
    }
  }

  /** Removing repeats keeps the first legacy path. */
  lemma {:induction false} LegacyPathsDedup(products: seq<Product>, version: nat)
    ensures SameHead(LegacyPaths(Dedup(products), version), LegacyPaths(products, version))
    decreases |products|
  {
    if products != [] {
      var prefix := products[..|products| - 1];
      var last := products[|products| - 1];
      assert products == prefix + [last];
      LegacyPathsDedup(prefix, version);
      LegacyPathsSnoc(prefix, last, version);
      LegacyPathsSnoc(Dedup(prefix), last, version);
      if last in Dedup(prefix) && LegacyOf(last, version) {
        DedupProperties(prefix);
        LegacyPathsOrigin(prefix, version, last.installationPath);
      }
    }
  }

  lemma {:induction false} PreferredPathsDedup(products: seq<Product>, version: nat, n: nat)
    requires n <= |Preference|
    ensures SameHead(PreferredPaths(Dedup(products), version, n), PreferredPaths(products, version, n))
    decreases n
  {
    if n > 0 {
      PreferredPathsDedup(products, version, n - 1);
      PathsOfTypeDedup(products, version, Preference[n - 1]);
      SameHeadAppend(PreferredPaths(Dedup(products), version, n - 1), PreferredPaths(products, version, n - 1),
        PathsOfType(Dedup(products), version, Preference[n - 1]), PathsOfType(products, version, Preference[n - 1]));
    }
  }

  /** The candidates with repeats removed start with the same path as the candidates of the
      products as listed, and there are some exactly when there were some. */
  lemma CandidatePathsDedup(products: seq<Product>, version: nat)
    ensures SameHead(CandidatePaths(Dedup(products), version), CandidatePaths(products, version))
  {
    PreferredPathsDedup(products, version, |Preference|);
    LegacyPathsDedup(products, version);
    SameHeadAppend(PreferredPaths(Dedup(products), version, |Preference|), PreferredPaths(products, version, |Preference|),
      LegacyPaths(Dedup(products), version), LegacyPaths(products, version));
  }

  /** The nested loops collecting the paths. */
  method CollectPaths(seen: seq<Product>, version: nat) returns (paths: seq<string>)
    ensures paths == CandidatePaths(seen, version)
  {
    paths := [];
    for t := 0 to |Preference|
      invariant paths == PreferredPaths(seen, version, t)
    {
      var productType := Preference[t];
      ghost var before := paths;
      for i := 0 to |seen|
        invariant paths == before + PathsOfType(seen[..i], version, productType)
      {
        var product := seen[i];
        assert seen[..i + 1][..i] == seen[..i];
        if StartsWith(product.installationVersion, VersionPrefix(version))
            && product.productId.Some? && Contains(product.productId.value, productType) {
          paths := paths + [product.installationPath];
        }
      }
      assert seen[..|seen|] == seen;
    }
    ghost var typed := paths;
    for i := 0 to |seen|
      invariant paths == typed + LegacyPaths(seen[..i], version)
    {
      var product := seen[i];
      assert seen[..i + 1][..i] == seen[..i];
      if StartsWith(product.installationVersion, VersionPrefix(version)) && product.productId.None? {
        paths := paths + [product.installationPath];
      }
    }
    assert seen[..|seen|] == seen;
  }

  // ---- the installation path ----

  /** `os.path.join("", "Common7", "Tools", "")` */
  const ToolsSuffix: string := "Common7/Tools/"

  /** The environment variable naming the common tools of a version. */
  function ToolsVariable(version: nat): string {
    "vs" + NatToString(version) + "0comntools"
  }

  /** The fallback path from the environment, with `Common7/Tools/` and the character before
      it removed. */
  function StripTools(path: string): (r: string)
    ensures !EndsWith(path, ToolsSuffix) ==> r == path
    ensures EndsWith(path, ToolsSuffix) && |path| > |ToolsSuffix| ==>
      |r| == |path| - |ToolsSuffix| - 1 && path == r + [path[|r|]] + ToolsSuffix
    ensures EndsWith(path, ToolsSuffix) && |path| == |ToolsSuffix| ==> r == ""
  {
    if EndsWith(path, ToolsSuffix) then
      (if |path| >= |ToolsSuffix| + 1 then path[..|path| - (|ToolsSuffix| + 1)] else "")
    else path
  }

  /** `vs_installation_path(version)`, given the environment and the products `vswhere`
      lists (`None` when `vswhere` fails). */
  function InstallationPath(version: nat, env: Env, products: Option<seq<Product>>): (r: Option<string>) {
    var paths := if products.Some? && products.value != [] then CandidatePaths(Dedup(products.value), version) else [];
    if paths != [] then Some(paths[0])
    else
      var fallback := env(ToolsVariable(version));
      if Truthy(fallback) then Some(StripTools(fallback.value)) else fallback
  }

  /** The first candidate wins; without candidates the environment decides. */
  lemma InstallationPathChoice(version: nat, env: Env, products: Option<seq<Product>>)
    ensures products.None? || products == Some([]) ==>
      InstallationPath(version, env, products) ==
        (if Truthy(env(ToolsVariable(version))) then Some(StripTools(env(ToolsVariable(version)).value))
         else env(ToolsVariable(version)))
    ensures products.Some? && CandidatePaths(products.value, version) != [] ==>
      InstallationPath(version, env, products) == Some(CandidatePaths(products.value, version)[0])
    ensures products.Some? && products.value != [] && CandidatePaths(products.value, version) == [] ==>
      InstallationPath(version, env, products) ==
        (if Truthy(env(ToolsVariable(version))) then Some(StripTools(env(ToolsVariable(version)).value))
         else env(ToolsVariable(version)))
  {
    if products.Some? {
      var ps := products.value;
      CandidatePathsDedup(ps, version);
      if CandidatePaths(ps, version) != [] {
        CandidateOrigin(ps, version, CandidatePaths(ps, version)[0]);
      }
    }
  }

  /** `vs_installation_path(version)` as the code runs it. */
  method VsInstallationPath(version: nat, env: Env, products: Option<seq<Product>>) returns (r: Option<string>)
    ensures r == InstallationPath(version, env, products)
  {
    var paths: seq<string> := [];
    if products.Some? && products.value != [] {
      var seen := RemoveRepeated(products.value);
      paths := CollectPaths(seen, version);
    }
    if paths != [] {
      return Some(paths[0]);
    }
    r := env(ToolsVariable(version));
    if r.Some? && r.value != "" {
      if EndsWith(r.value, ToolsSuffix) {
        r := Some(if |r.value| >= |ToolsSuffix| + 1 then r.value[..|r.value| - (|ToolsSuffix| + 1)] else "");
      }
    }
  }

  // ---- the latest installed version ----

  /** `_visual_compiler(version)`: the version, when its tools variable or its installation
      path is set. */
  function VisualCompiler(version: nat, env: Env, products: Option<seq<Product>>): (r: Option<nat>)
    ensures r.Some? ==> r.value == version
  {
    if version >= 15 && (Truthy(env(ToolsVariable(version))) || Truthy(InstallationPath(version, env, products)))
    then Some(version) else None
  }

  /** The `msvc` compiler version of a Visual Studio version. */
  function CompilerVersion(version: nat): Option<string> {
    if version == 17 then Some("193") else if version == 16 then Some("192") else if version == 15 then Some("191") else None
  }

  const ProbedVersions: seq<nat> := [17, 16, 15]

  /** `latest_visual_studio_version_installed()`: versions 17, 16 and 15 are probed in that
      order and the first one found gives 193, 192 or 191. */
  method LatestVisualStudioVersionInstalled(env: Env, products: Option<seq<Product>>) returns (r: Option<string>)
    ensures VisualCompiler(17, env, products).Some? ==> r == Some("193")
    ensures VisualCompiler(17, env, products).None? && VisualCompiler(16, env, products).Some? ==> r == Some("192")
    ensures (VisualCompiler(17, env, products).None? && VisualCompiler(16, env, products).None?
      && VisualCompiler(15, env, products).Some?) ==> r == Some("191")
    ensures r.None? <==> forall k :: 0 <= k < |ProbedVersions| ==> VisualCompiler(ProbedVersions[k], env, products).None?
  {
    assert ProbedVersions[0] == 17 && ProbedVersions[1] == 16 && ProbedVersions[2] == 15;
    for i := 0 to |ProbedVersions|
      invariant forall k :: 0 <= k < i ==> VisualCompiler(ProbedVersions[k], env, products).None?
    {
      var vs := VisualCompiler(ProbedVersions[i], env, products);
      if vs.Some? {
        return CompilerVersion(vs.value);
      }
    }
    return None;
  }

  // ---- vswhere arguments ----

  datatype VswhereError = LegacyWithFilters | VswhereNotFound

  /** The keyword arguments of `vswhere`, with their defaults. */
  datatype VswhereOptions = VswhereOptions(
    all: bool, prerelease: bool, products: seq<string>, required: seq<string>,
    version: string, latest: bool, legacy: bool, property: string, nologo: bool)

  const DefaultOptions := VswhereOptions(false, true, [], [], "", false, false, "", true)

  /** A flag when the option is on. */
  function Flag(on: bool, flag: string): seq<string> {
    if on then [flag] else []
  }

  /** A flag followed by its values, when there are values. */
  function FlagWith(flag: string, values: seq<string>): seq<string> {
    if values != [] then [flag] + values else []
  }

  /** The arguments of the `vswhere` call. */
  function VswhereArguments(path: string, o: VswhereOptions): seq<string> {
    [path, "-utf8", "-format", "json"] + Flag(o.all, "-all") + Flag(o.prerelease, "-prerelease")
    + FlagWith("-products", o.products) + FlagWith("-requires", o.required)
    + FlagWith("-version", if |o.version| != 0 then [o.version] else [])
    + Flag(o.latest, "-latest") + Flag(o.legacy, "-legacy")
    + FlagWith("-property", if |o.property| != 0 then [o.property] else [])
    + Flag(o.nologo, "-nologo")
  }

  /** The validation and argument building of `vswhere`, given the located executable
      (`None` when neither Program Files nor the PATH has one). */
  method Vswhere(vswherePath: Option<string>, o: VswhereOptions) returns (r: Result<seq<string>, VswhereError>)
    ensures o.legacy && (o.products != [] || o.required != []) ==> r == Err(LegacyWithFilters)
    ensures !(o.legacy && (o.products != [] || o.required != [])) && !Truthy(vswherePath) ==> r == Err(VswhereNotFound)
    ensures r.Ok? <==> !(o.legacy && (o.products != [] || o.required != [])) && Truthy(vswherePath)
    ensures r.Ok? ==> r.value == VswhereArguments(vswherePath.value, o)
  {
    if o.legacy && (o.products != [] || o.required != []) {
      return Err(LegacyWithFilters);
    }
    if !Truthy(vswherePath) {
      return Err(VswhereNotFound);
    }
    var arguments := BuildArguments(vswherePath.value, o);
    return Ok(arguments);
  }

  /** `if on: arguments.append(flag)` */
  method AppendFlag(arguments: seq<string>, on: bool, flag: string) returns (r: seq<string>)
    ensures r == arguments + Flag(on, flag)
  {
    r := arguments;
    if on {
      r := r + [flag];
    }
  }

  /** `if values: arguments.append(flag); arguments.extend(values)` */
  method AppendFlagWith(arguments: seq<string>, flag: string, values: seq<string>) returns (r: seq<string>)
    ensures r == arguments + FlagWith(flag, values)
  {
    r := arguments;
    if values != [] {
      r := r + [flag];
      r := r + values;
    }
  }

  /** The argument building of `vswhere`: each option set appends its group, in a fixed order. */
  method BuildArguments(path: string, o: VswhereOptions) returns (arguments: seq<string>)
    ensures arguments == VswhereArguments(path, o)
  {
    arguments := [path, "-utf8", "-format", "json"];
    arguments := AppendFlag(arguments, o.all, "-all");
    arguments := AppendFlag(arguments, o.prerelease, "-prerelease");
    arguments := AppendFlagWith(arguments, "-products", o.products);
    arguments := AppendFlagWith(arguments, "-requires", o.required);
    arguments := AppendFlagWith(arguments, "-version", if |o.version| != 0 then [o.version] else []);
    arguments := AppendFlag(arguments, o.latest, "-latest");
    arguments := AppendFlag(arguments, o.legacy, "-legacy");
    arguments := AppendFlagWith(arguments, "-property", if |o.property| != 0 then [o.property] else []);
    arguments := AppendFlag(arguments, o.nologo, "-nologo");
  }

  /** Nine groups appended to a four-element head keep the head in front, start with the
      first group's first element right after it, and end with the last group's last element. */
  lemma GroupsShape(head: seq<string>, g1: seq<string>, g2: seq<string>, g3: seq<string>,
                    g4: seq<string>, g5: seq<string>, g6: seq<string>, g7: seq<string>,
                    g8: seq<string>, g9: seq<string>)
    requires |head| == 4
    ensures var args := head + g1 + g2 + g3 + g4 + g5 + g6 + g7 + g8 + g9;
      && |args| >= 4 && args[..4] == head
      && (g1 != [] ==> |args| > 4 && args[4] == g1[0])
      && (g9 != [] ==> args[|args| - 1] == g9[|g9| - 1])
  {
    var rest := g1 + g2 + g3 + g4 + g5 + g6 + g7 + g8;
    var args := head + g1 + g2 + g3 + g4 + g5 + g6 + g7 + g8 + g9;
    assert args == head + (rest + g9);
    if g1 != [] {
      assert rest[0] == g1[0];
    }
  }

  /** The arguments start with the executable and the JSON output options, `-all` comes
      right after them when on, and `-nologo` closes them when on. */
  lemma VswhereArgumentsShape(path: string, o: VswhereOptions)
    ensures var args := VswhereArguments(path, o);
      && |args| >= 4 && args[..4] == [path, "-utf8", "-format", "json"]
      && (o.all ==> |args| > 4 && args[4] == "-all")
      && (o.nologo ==> args[|args| - 1] == "-nologo")
  {
    GroupsShape([path, "-utf8", "-format", "json"], Flag(o.all, "-all"), Flag(o.prerelease, "-prerelease"),
      FlagWith("-products", o.products), FlagWith("-requires", o.required),
      FlagWith("-version", if |o.version| != 0 then [o.version] else []),
      Flag(o.latest, "-latest"), Flag(o.legacy, "-legacy"),
      FlagWith("-property", if |o.property| != 0 then [o.property] else []),
      Flag(o.nologo, "-nologo"));
  }

  /** The default call adds only `-prerelease` and `-nologo`. */
  lemma DefaultArguments(path: string)
    ensures VswhereArguments(path, DefaultOptions) == [path, "-utf8", "-format", "json", "-prerelease", "-nologo"]
  {
  }

  /** The arguments of the two queries installation detection makes. */
  lemma DetectionQueries(path: string)
    ensures VswhereArguments(path, DefaultOptions.(legacy := true)) ==
      [path, "-utf8", "-format", "json", "-prerelease", "-legacy", "-nologo"]
    ensures VswhereArguments(path, DefaultOptions.(products := ["*"])) ==
      [path, "-utf8", "-format", "json", "-prerelease", "-products", "*", "-nologo"]
  {
  }
}
