/**
 * The used-component collector of the webpack plugin: it scans the modules
 * of a compilation for named imports from `@goji/core`, gives up (with one
 * warning) on a CommonJS require or a namespace import of that package, and
 * stores the kebab-cased component names for the compilation.
 */
module CollectUsedComponents {
  import opened Optional
  import opened OrderedSet
  import LetterCase

  const GojiCorePackageName: string := "@goji/core"
  const HarmonyImportSpecifierDependencyType: string := "harmony import specifier"
  const CommonJsRequireDependencyType: string := "cjs require"
  const JavaScriptModuleTypePrefix: string := "javascript/"

  /** A dependency record; `kind` is webpack's `type` and `id` is `null` for a namespace import. */
  datatype Dependency = Dependency(kind: string, request: string, name: string, id: Option<string>)

  /** A module record; `kind` is webpack's module `type` (`javascript/auto`, `json`, ...). */
  datatype CompilationModule = CompilationModule(kind: string, resource: string, dependencies: seq<Dependency>)

  /** A pushed warning: which module, and why trimming was disabled. */
  datatype Warning =
    | CommonJsRequireWarning(resource: string)
    | NamespaceImportWarning(resource: string, binding: string)

  /** `module.type.startsWith('javascript/')` */
  predicate IsJavaScript(m: CompilationModule) {
    JavaScriptModuleTypePrefix <= m.kind
  }

  /** `!dependency.id`: the id is null or empty. */
  predicate IsNamespaceImport(d: Dependency) {
    d.id.None? || d.id.value == ""
  }

  // ---------------------------------------------------------------------
  // Specification of the scan
  // ---------------------------------------------------------------------

  /** What one dependency does to the scan. */
  datatype Effect = Skip | Collect(id: string) | AbortRequire | AbortNamespace

  function Classify(d: Dependency): (e: Effect)
    ensures d.request != GojiCorePackageName ==> e == Skip
    ensures e.Collect? <==>
      d.request == GojiCorePackageName && d.kind == HarmonyImportSpecifierDependencyType && !IsNamespaceImport(d)
    ensures e.Collect? ==> e.id != "" && d.id == Some(e.id)
    ensures e.AbortRequire? <==>
      d.request == GojiCorePackageName && d.kind == CommonJsRequireDependencyType
    ensures e.AbortNamespace? <==>
      d.request == GojiCorePackageName && d.kind == HarmonyImportSpecifierDependencyType && IsNamespaceImport(d)
  {
    if d.request != GojiCorePackageName then Skip
    else if d.kind == CommonJsRequireDependencyType then AbortRequire
    else if d.kind == HarmonyImportSpecifierDependencyType then
      (if IsNamespaceImport(d) then AbortNamespace else Collect(d.id.value))
    else Skip
  }

  /** A dependency together with the resource of the module that holds it. */
  datatype Site = Site(resource: string, dependency: Dependency)

  function SitesOf(m: CompilationModule): (ss: seq<Site>)
    ensures |ss| == |m.dependencies|
    ensures forall k :: 0 <= k < |ss| ==> ss[k] == Site(m.resource, m.dependencies[k])
  {
    seq(|m.dependencies|, k requires 0 <= k < |m.dependencies| => Site(m.resource, m.dependencies[k]))
  }

  /** The dependencies the collector visits, in visiting order: those of the JavaScript modules. */
  function Sites(ms: seq<CompilationModule>): seq<Site> {
    if ms == [] then []
    else
      var m := ms[|ms| - 1];
      Sites(ms[..|ms| - 1]) + (if IsJavaScript(m) then SitesOf(m) else [])
  }

  /** The state of the scan: still collecting names, or given up with a warning. */
  datatype Scan = Scanning(names: seq<string>) | Aborted(warning: Warning)

  predicate Aborts(site: Site) {
    Classify(site.dependency).AbortRequire? || Classify(site.dependency).AbortNamespace?
  }

  function WarningFor(site: Site): Warning
    requires Aborts(site)
  {
    if Classify(site.dependency).AbortRequire? then CommonJsRequireWarning(site.resource)
    else NamespaceImportWarning(site.resource, site.dependency.name)
  }

  function Step(s: Scan, site: Site): Scan {
    match s
    case Aborted(_) => s
    case Scanning(names) =>
      match Classify(site.dependency)
      case Skip => s
      case Collect(id) => Scanning(Add(names, id))
      case AbortRequire => Aborted(WarningFor(site))
      case AbortNamespace => Aborted(WarningFor(site))
  }

  function ScanSites(ss: seq<Site>): Scan {
    if ss == [] then Scanning([]) else Step(ScanSites(ss[..|ss| - 1]), ss[|ss| - 1])
  }

  /** The outcome of scanning a module list. */
  function Collected(ms: seq<CompilationModule>): Scan {
    ScanSites(Sites(ms))
  }

  /** The collector's return value: the names, or `undefined` (do not trim). */
  function ResultOf(s: Scan): Option<seq<string>> {
    match s
    case Scanning(names) => Some(names)
    case Aborted(_) => None
  }

  /** The warnings the collector pushes. */
  function WarningsOf(s: Scan): seq<Warning> {
    match s
    case Scanning(_) => []
    case Aborted(w) => [w]
  }

  /** The ids of the named `@goji/core` imports, in visiting order, repetitions included. */
  function CollectedIds(ss: seq<Site>): seq<string> {
    if ss == [] then []
    else
      var e := Classify(ss[|ss| - 1].dependency);
      CollectedIds(ss[..|ss| - 1]) + (if e.Collect? then [e.id] else [])
  }

  // ---------------------------------------------------------------------
  // Properties of the scan
  // ---------------------------------------------------------------------

  lemma ScanSitesSnoc(ss: seq<Site>, site: Site)
    ensures ScanSites(ss + [site]) == Step(ScanSites(ss), site)
  {
  }

  lemma {:induction false} CollectedIdsMembers(ss: seq<Site>)
    ensures forall x :: x in CollectedIds(ss) <==>
      exists k :: 0 <= k < |ss| && Classify(ss[k].dependency) == Collect(x)
  {
    if ss != [] {
      var init := ss[..|ss| - 1];
      CollectedIdsMembers(init);
      forall x
        ensures x in CollectedIds(ss) <==> exists k :: 0 <= k < |ss| && Classify(ss[k].dependency) == Collect(x)
      {
        if x in CollectedIds(ss) && x !in CollectedIds(init) {
          assert Classify(ss[|ss| - 1].dependency) == Collect(x);
        }
        if exists k :: 0 <= k < |ss| && Classify(ss[k].dependency) == Collect(x) {
          var k :| 0 <= k < |ss| && Classify(ss[k].dependency) == Collect(x);
          if k < |init| {
            assert init[k] == ss[k];
          }
        }
      }
    }
  }

  /** The scan gives up exactly when some visited dependency makes it give up. */
  lemma {:induction false} AbortedIffSomeAbort(ss: seq<Site>)
    ensures ScanSites(ss).Aborted? <==> exists k :: 0 <= k < |ss| && Aborts(ss[k])
  {
    if ss != [] {
      var init, last := ss[..|ss| - 1], ss[|ss| - 1];
      AbortedIffSomeAbort(init);
      if ScanSites(init).Aborted? {
        var k :| 0 <= k < |init| && Aborts(init[k]);
        assert ss[k] == init[k];
      } else {
        assert forall k :: 0 <= k < |init| ==> ss[k] == init[k];
        assert ScanSites(ss) == Step(ScanSites(init), last);
      }
    }
  }

  /** When the scan gives up, the one warning is that of the first dependency that makes it give up. */
  lemma {:induction false} FirstAbortWarning(ss: seq<Site>, k: nat)
    requires k < |ss| && Aborts(ss[k])
    requires forall j :: 0 <= j < k ==> !Aborts(ss[j])
    ensures ScanSites(ss) == Aborted(WarningFor(ss[k]))
  {
    var init, last := ss[..|ss| - 1], ss[|ss| - 1];
    assert forall j :: 0 <= j < |init| ==> ss[j] == init[j];
    if k < |init| {
      FirstAbortWarning(init, k);
    } else {
      AbortedIffSomeAbort(init);
      assert ScanSites(ss) == Step(ScanSites(init), last);
    }
  }

  /** When the scan does not give up, its names are the collected ids, deduplicated in order. */
  lemma {:induction false} ScanningNames(ss: seq<Site>)
    requires ScanSites(ss).Scanning?
    ensures ScanSites(ss).names == Dedup(CollectedIds(ss))
  {
    if ss != [] {
      var init, last := ss[..|ss| - 1], ss[|ss| - 1];
      assert ScanSites(ss) == Step(ScanSites(init), last);
      ScanningNames(init);
      var ids := CollectedIds(init);
      var e := Classify(last.dependency);
      assert CollectedIds(ss) == ids + (if e.Collect? then [e.id] else []);
      if e.Collect? {
        assert (ids + [e.id])[..|ids|] == ids;
        assert Dedup(ids + [e.id]) == Add(Dedup(ids), e.id);
        assert ScanSites(ss) == Scanning(Add(ScanSites(init).names, e.id));
      } else {
        assert e.Skip?;
        assert ScanSites(ss) == ScanSites(init);
        assert CollectedIds(ss) == ids;
      }
    }
  }

  /**
   * The outcome of a scan. It gives up exactly when some visited dependency
   * is a CommonJS require or a namespace import of `@goji/core`, and then with
   * the warning of the first such dependency; otherwise it yields the ids of
   * the named imports, each once, in order of first occurrence.
   */
  lemma ScanSitesOutcome(ss: seq<Site>)
    ensures ScanSites(ss).Aborted? <==> exists k :: 0 <= k < |ss| && Aborts(ss[k])
    ensures forall k :: 0 <= k < |ss| && Aborts(ss[k]) && (forall j :: 0 <= j < k ==> !Aborts(ss[j])) ==>
      ScanSites(ss) == Aborted(WarningFor(ss[k]))
    ensures ScanSites(ss).Scanning? ==> ScanSites(ss).names == Dedup(CollectedIds(ss))
  {
    AbortedIffSomeAbort(ss);
    forall k | 0 <= k < |ss| && Aborts(ss[k]) && (forall j :: 0 <= j < k ==> !Aborts(ss[j]))
      ensures ScanSites(ss) == Aborted(WarningFor(ss[k]))
    {
      FirstAbortWarning(ss, k);
    }
    if ScanSites(ss).Scanning? {
      ScanningNames(ss);
    }
  }

  /** When the scan does not give up, its names are distinct, non-empty named-import ids. */
  lemma CollectedNames(ss: seq<Site>)
    requires ScanSites(ss).Scanning?
    ensures NoDuplicates(ScanSites(ss).names)
    ensures forall x :: x in ScanSites(ss).names <==>
      exists k :: 0 <= k < |ss| && Classify(ss[k].dependency) == Collect(x)
    ensures forall x :: x in ScanSites(ss).names ==> x != ""
  {
    ScanSitesOutcome(ss);
    DedupIsSet(CollectedIds(ss));
    CollectedIdsMembers(ss);
  }

  /** A scan that has given up stays given up, with the same warning. */
  lemma {:induction false} AbortIsFinal(ss: seq<Site>, longer: seq<Site>)
    requires ss <= longer
    requires ScanSites(ss).Aborted?
    ensures ScanSites(longer) == ScanSites(ss)
  {
    if |longer| > |ss| {
      var init := longer[..|longer| - 1];
      assert ss <= init;
      AbortIsFinal(ss, init);
    } else {
      assert ss == longer;
    }
  }

  lemma {:induction false} SitesPrefix(ms: seq<CompilationModule>, k: nat)
    requires k <= |ms|
    ensures Sites(ms[..k]) <= Sites(ms)
  {
    if k < |ms| {
      var init := ms[..|ms| - 1];
      assert ms[..k] == init[..k];
      SitesPrefix(init, k);
    } else {
      assert ms[..k] == ms;
    }
  }

  lemma SitesSnoc(ms: seq<CompilationModule>, m: CompilationModule)
    ensures Sites(ms + [m]) == Sites(ms) + (if IsJavaScript(m) then SitesOf(m) else [])
  {
  }

  /** The modules of a list whose type starts with `javascript/`. */
  function JavaScriptModules(ms: seq<CompilationModule>): (js: seq<CompilationModule>)
    ensures forall m :: m in js ==> m in ms && IsJavaScript(m)
  {
    if ms == [] then []
    else
      var m := ms[|ms| - 1];
      JavaScriptModules(ms[..|ms| - 1]) + (if IsJavaScript(m) then [m] else [])
  }

  /** Modules of any other type contribute neither names nor warnings. */
  lemma {:induction false} NonJavaScriptModulesIgnored(ms: seq<CompilationModule>)
    ensures Collected(JavaScriptModules(ms)) == Collected(ms)
  {
    SitesOfJavaScriptModules(ms);
  }

  lemma {:induction false} SitesOfJavaScriptModules(ms: seq<CompilationModule>)
    ensures Sites(JavaScriptModules(ms)) == Sites(ms)
  {
    if ms != [] {
      var init, m := ms[..|ms| - 1], ms[|ms| - 1];
      SitesOfJavaScriptModules(init);
      assert Sites(ms) == Sites(init) + (if IsJavaScript(m) then SitesOf(m) else []);
      if IsJavaScript(m) {
        assert JavaScriptModules(ms) == JavaScriptModules(init) + [m];
        SitesSnoc(JavaScriptModules(init), m);
      } else {
        assert JavaScriptModules(ms) == JavaScriptModules(init);
      }
    }
  }

  /** Keeps the dependencies of every module that satisfy `keep`. */
  function KeepDependencies(ms: seq<CompilationModule>, keep: Dependency -> bool): (r: seq<CompilationModule>)
    ensures |r| == |ms|
  {
    seq(|ms|, i requires 0 <= i < |ms| => ms[i].(dependencies := Filter(ms[i].dependencies, keep)))
  }

  function Filter(ds: seq<Dependency>, keep: Dependency -> bool): (r: seq<Dependency>)
    ensures forall d :: d in r <==> d in ds && keep(d)
  {
    if ds == [] then []
    else Filter(ds[..|ds| - 1], keep) + (if keep(ds[|ds| - 1]) then [ds[|ds| - 1]] else [])
  }

  function KeepSites(ss: seq<Site>, keep: Dependency -> bool): seq<Site> {
    if ss == [] then []
    else KeepSites(ss[..|ss| - 1], keep) + (if keep(ss[|ss| - 1].dependency) then [ss[|ss| - 1]] else [])
  }

  lemma {:induction false} KeepSitesAppend(a: seq<Site>, b: seq<Site>, keep: Dependency -> bool)
    ensures KeepSites(a + b, keep) == KeepSites(a, keep) + KeepSites(b, keep)
  {
    if b != [] {
      var init := b[..|b| - 1];
      KeepSitesAppend(a, init, keep);
      assert (a + b)[..|a + b| - 1] == a + init;
    } else {
      assert a + b == a;
    }
  }

  lemma SitesOfSnoc(m: CompilationModule, d: Dependency)
    ensures SitesOf(m.(dependencies := m.dependencies + [d])) == SitesOf(m) + [Site(m.resource, d)]
  {
  }

  lemma {:induction false} SitesOfFiltered(m: CompilationModule, keep: Dependency -> bool)
    ensures SitesOf(m.(dependencies := Filter(m.dependencies, keep))) == KeepSites(SitesOf(m), keep)
    decreases |m.dependencies|
  {
    var ds := m.dependencies;
    if ds != [] {
      var last := ds[|ds| - 1];
      var init := m.(dependencies := ds[..|ds| - 1]);
      SitesOfFiltered(init, keep);
      var filtered := init.(dependencies := Filter(init.dependencies, keep));
      assert SitesOf(m)[..|ds| - 1] == SitesOf(init);
      assert KeepSites(SitesOf(m), keep)
          == KeepSites(SitesOf(init), keep) + (if keep(last) then [Site(m.resource, last)] else []);
      if keep(last) {
        SitesOfSnoc(filtered, last);
        assert m.(dependencies := Filter(ds, keep)) == filtered.(dependencies := filtered.dependencies + [last]);
      } else {
        assert m.(dependencies := Filter(ds, keep)) == filtered;
      }
    }
  }

  lemma {:induction false} SitesFiltered(ms: seq<CompilationModule>, keep: Dependency -> bool)
    ensures Sites(KeepDependencies(ms, keep)) == KeepSites(Sites(ms), keep)
  {
    if ms != [] {
      var init, m := ms[..|ms| - 1], ms[|ms| - 1];
      SitesFiltered(init, keep);
      assert KeepDependencies(ms, keep)[..|ms| - 1] == KeepDependencies(init, keep);
      SitesOfFiltered(m, keep);
      KeepSitesAppend(Sites(init), if IsJavaScript(m) then SitesOf(m) else [], keep);
    }
  }

  /** Dropping dependencies that the scan skips does not change its outcome. */
  lemma {:induction false} SkippedSitesIrrelevant(ss: seq<Site>, keep: Dependency -> bool)
    requires forall d :: !keep(d) ==> Classify(d) == Skip
    ensures ScanSites(KeepSites(ss, keep)) == ScanSites(ss)
  {
    if ss != [] {
      var init, last := ss[..|ss| - 1], ss[|ss| - 1];
      SkippedSitesIrrelevant(init, keep);
      assert ScanSites(ss) == Step(ScanSites(init), last);
      if keep(last.dependency) {
        ScanSitesSnoc(KeepSites(init, keep), last);
      } else {
        assert KeepSites(ss, keep) == KeepSites(init, keep);
        assert Classify(last.dependency) == Skip;
      }
    }
  }

  predicate IsGojiCoreRequest(d: Dependency) {
    d.request == GojiCorePackageName
  }

  predicate IsHandledType(d: Dependency) {
    d.kind == CommonJsRequireDependencyType || d.kind == HarmonyImportSpecifierDependencyType
  }

  /** A dependency on any package other than `@goji/core` affects neither the result nor the warnings. */
  lemma ForeignRequestsIgnored(ms: seq<CompilationModule>)
    ensures Collected(KeepDependencies(ms, IsGojiCoreRequest)) == Collected(ms)
  {
    SitesFiltered(ms, IsGojiCoreRequest);
    SkippedSitesIrrelevant(Sites(ms), IsGojiCoreRequest);
  }

  /** A dependency of any type but `cjs require` and `harmony import specifier` is ignored. */
  lemma OtherDependencyTypesIgnored(ms: seq<CompilationModule>)
    ensures Collected(KeepDependencies(ms, IsHandledType)) == Collected(ms)
  {
    SitesFiltered(ms, IsHandledType);
    SkippedSitesIrrelevant(Sites(ms), IsHandledType);
  }

  // ---------------------------------------------------------------------
  // Formatting
  // ---------------------------------------------------------------------

  /** `char.toUpperCase() === char` */
  predicate IsUpperCase(c: char)
    ensures IsUpperCase(c) <==> !LetterCase.IsAsciiLower(c)
  {
    LetterCase.ToUpper(c) == c
  }

  /** The component-like names, in their original order (`name[0]` must exist). */
  function ComponentNames(names: seq<string>): (r: seq<string>)
    requires forall n :: n in names ==> |n| > 0
    ensures |r| <= |names|
    ensures forall n :: n in r <==> n in names && IsUpperCase(n[0])
  {
    if names == [] then []
    else
      var n := names[|names| - 1];
      ComponentNames(names[..|names| - 1]) + (if IsUpperCase(n[0]) then [n] else [])
  }

  /** Filtering keeps relative order: it distributes over concatenation. */
  lemma {:induction false} ComponentNamesAppend(a: seq<string>, b: seq<string>)
    requires forall n :: n in a + b ==> |n| > 0
    ensures ComponentNames(a + b) == ComponentNames(a) + ComponentNames(b)
  {
    if b != [] {
      var init := b[..|b| - 1];
      assert (a + b)[..|a + b| - 1] == a + init;
      ComponentNamesAppend(a, init);
    } else {
      assert a + b == a;
    }
  }

  /** `formatUsedComponents`, with lodash's `kebabCase` as a parameter. */
  function FormatUsedComponents(names: seq<string>, kebabCase: string -> string): (tags: seq<string>)
    requires forall n :: n in names ==> |n| > 0
    ensures |tags| == |ComponentNames(names)| <= |names|
    ensures forall k :: 0 <= k < |tags| ==> tags[k] == kebabCase(ComponentNames(names)[k])
  {
    var components := ComponentNames(names);
    seq(|components|, k requires 0 <= k < |components| => kebabCase(components[k]))
  }

  /**
   * With the ASCII model of `kebabCase`, distinct names give distinct tags, as long
   * as every name the filter keeps is ASCII CamelCase; the dropped ones may be anything.
   */
  lemma FormattedTagsDistinct(names: seq<string>)
    requires forall n :: n in names ==> |n| > 0 && (IsUpperCase(n[0]) ==> LetterCase.IsAsciiCamelCase(n))
    requires NoDuplicates(names)
    ensures NoDuplicates(FormatUsedComponents(names, LetterCase.KebabCase))
  {
    var components := ComponentNames(names);
    ComponentNamesDistinct(names);
    var tags := FormatUsedComponents(names, LetterCase.KebabCase);
    forall i, j | 0 <= i < j < |tags|
      ensures tags[i] != tags[j]
    {
      assert components[i] in names && components[j] in names;
      if tags[i] == tags[j] {
        LetterCase.KebabCaseInjective(components[i], components[j]);
      }
    }
  }

  lemma {:induction false} ComponentNamesDistinct(names: seq<string>)
    requires forall n :: n in names ==> |n| > 0
    requires NoDuplicates(names)
    ensures NoDuplicates(ComponentNames(names))
  {
    if names != [] {
      var init := names[..|names| - 1];
      ComponentNamesDistinct(init);
    }
  }

  // ---------------------------------------------------------------------
  // The plugin's state and the collector
  // ---------------------------------------------------------------------

  /** The part of a webpack compilation the collector uses. */
  class Compilation {
    const modules: seq<CompilationModule>
    var warnings: seq<Warning>

    constructor(modules: seq<CompilationModule>, warnings: seq<Warning>)
      ensures this.modules == modules && this.warnings == warnings
    {
      this.modules := modules;
      this.warnings := warnings;
    }
  }

  /** The shared `usedComponentsMap`: per compilation, the tags, or `undefined` for "do not trim". */
  class UsedComponentsMap {
    var entries: map<Compilation, Option<seq<string>>>

    constructor()
      ensures entries == map[]
    {
      entries := map[];
    }
  }

  /** The scan after the modules before the `i`-th and the first `j` dependencies of the `i`-th. */
  function ScanInModule(ms: seq<CompilationModule>, i: nat, j: nat): Scan
    requires i < |ms| && j <= |ms[i].dependencies|
  {
    ScanSites(Sites(ms[..i]) + SitesOf(ms[i])[..j])
  }

  lemma StepInModule(ms: seq<CompilationModule>, i: nat, j: nat)
    requires i < |ms| && j < |ms[i].dependencies|
    ensures ScanInModule(ms, i, j + 1) == Step(ScanInModule(ms, i, j), Site(ms[i].resource, ms[i].dependencies[j]))
  {
    var visited, m := Sites(ms[..i]), ms[i];
    assert visited + SitesOf(m)[..j + 1] == (visited + SitesOf(m)[..j]) + [Site(m.resource, m.dependencies[j])];
    ScanSitesSnoc(visited + SitesOf(m)[..j], Site(m.resource, m.dependencies[j]));
  }

  /** One step of a scan that is still collecting, branch by branch in the collector's order. */
  lemma StepScanning(found: seq<string>, site: Site)
    ensures site.dependency.request != GojiCorePackageName ==> Step(Scanning(found), site) == Scanning(found)
    ensures site.dependency.request == GojiCorePackageName ==> (
      if site.dependency.kind == CommonJsRequireDependencyType then
        Step(Scanning(found), site) == Aborted(CommonJsRequireWarning(site.resource))
      else if site.dependency.kind != HarmonyImportSpecifierDependencyType then
        Step(Scanning(found), site) == Scanning(found)
      else if IsNamespaceImport(site.dependency) then
        Step(Scanning(found), site) == Aborted(NamespaceImportWarning(site.resource, site.dependency.name))
      else
        Step(Scanning(found), site) == Scanning(Add(found, site.dependency.id.value)))
  {
  }

  /** A scan that gives up inside the `i`-th module gives the outcome of the whole list. */
  lemma AbortInModule(ms: seq<CompilationModule>, i: nat, j: nat)
    requires i < |ms| && IsJavaScript(ms[i]) && j <= |ms[i].dependencies|
    requires ScanInModule(ms, i, j).Aborted?
    ensures Collected(ms) == ScanInModule(ms, i, j)
  {
    var visited, m := Sites(ms[..i]), ms[i];
    assert ms[..i + 1] == ms[..i] + [m];
    SitesSnoc(ms[..i], m);
    SitesPrefix(ms, i + 1);
    assert visited + SitesOf(m)[..j] <= Sites(ms[..i + 1]);
    AbortIsFinal(visited + SitesOf(m)[..j], Sites(ms));
  }

  /** Entering and leaving the `i`-th module. */
  lemma NextModule(ms: seq<CompilationModule>, i: nat)
    requires i < |ms|
    ensures ScanInModule(ms, i, 0) == ScanSites(Sites(ms[..i]))
    ensures IsJavaScript(ms[i]) ==> ScanSites(Sites(ms[..i + 1])) == ScanInModule(ms, i, |ms[i].dependencies|)
    ensures !IsJavaScript(ms[i]) ==> ScanSites(Sites(ms[..i + 1])) == ScanSites(Sites(ms[..i]))
  {
    assert ms[..i + 1] == ms[..i] + [ms[i]];
    SitesSnoc(ms[..i], ms[i]);
    assert SitesOf(ms[i])[..|ms[i].dependencies|] == SitesOf(ms[i]);
    assert Sites(ms[..i]) + SitesOf(ms[i])[..0] == Sites(ms[..i]);
  }

  /**
   * The inner loop of `collectDependencyOfGojiCore`, over the dependencies of the
   * `i`-th module. `gaveUp` says that it pushed a warning and the collector must
   * return `undefined`; the scan gave up at the `stop`-th dependency.
   */
  method CollectInModule(compilation: Compilation, modules: seq<CompilationModule>, i: nat, found: seq<string>)
    returns (collected: seq<string>, gaveUp: bool, ghost stop: nat)
    requires i < |modules| && IsJavaScript(modules[i])
    requires ScanInModule(modules, i, 0) == Scanning(found)
    modifies compilation`warnings
    ensures !gaveUp ==> ScanInModule(modules, i, |modules[i].dependencies|) == Scanning(collected)
    ensures !gaveUp ==> compilation.warnings == old(compilation.warnings)
    ensures gaveUp ==> stop <= |modules[i].dependencies| && ScanInModule(modules, i, stop).Aborted?
    ensures gaveUp ==> compilation.warnings == old(compilation.warnings) + [ScanInModule(modules, i, stop).warning]
  {
    var m := modules[i];
    collected, gaveUp, stop := found, false, 0;
    var j := 0;
    while j < |m.dependencies|
      invariant 0 <= j <= |m.dependencies|
      invariant ScanInModule(modules, i, j) == Scanning(collected)
      invariant compilation.warnings == old(compilation.warnings)
    {
      var dependency := m.dependencies[j];
      StepInModule(modules, i, j);
      StepScanning(collected, Site(m.resource, dependency));
      if dependency.request != GojiCorePackageName {
        j := j + 1;
        continue;
      }
      if dependency.kind == CommonJsRequireDependencyType {
        compilation.warnings := compilation.warnings + [CommonJsRequireWarning(m.resource)];
        return collected, true, j + 1;
      } else if dependency.kind == HarmonyImportSpecifierDependencyType {
        if IsNamespaceImport(dependency) {
          compilation.warnings := compilation.warnings + [NamespaceImportWarning(m.resource, dependency.name)];
          return collected, true, j + 1;
        }
        collected := Add(collected, dependency.id.value);
      }
      j := j + 1;
    }
  }

  /** `collectDependencyOfGojiCore` */
  method CollectDependencyOfGojiCore(compilation: Compilation, modules: seq<CompilationModule>)
    returns (names: Option<seq<string>>)
    modifies compilation`warnings
    ensures names == ResultOf(Collected(modules))
    ensures compilation.warnings == old(compilation.warnings) + WarningsOf(Collected(modules))
  {
    var found: seq<string> := [];
    var i := 0;
    while i < |modules|
      invariant 0 <= i <= |modules|
      invariant ScanSites(Sites(modules[..i])) == Scanning(found)
      invariant compilation.warnings == old(compilation.warnings)
    {
      var m := modules[i];
      NextModule(modules, i);
      if IsJavaScript(m) {
        var gaveUp; ghost var stop;
        found, gaveUp, stop := CollectInModule(compilation, modules, i, found);
        if gaveUp {
          AbortInModule(modules, i, stop);
          return None;
        }
      }
      i := i + 1;
    }
    assert modules[..i] == modules;
    names := Some(found);
  }

  /** The `afterChunks` hook: collect, format, and store the entry for this compilation. */
  method AfterChunks(compilation: Compilation, usedComponents: UsedComponentsMap, kebabCase: string -> string)
    modifies compilation`warnings, usedComponents`entries
    ensures compilation.warnings == old(compilation.warnings) + WarningsOf(Collected(compilation.modules))
    ensures usedComponents.entries.Keys == old(usedComponents.entries.Keys) + {compilation}
    ensures forall c :: c in old(usedComponents.entries) && c != compilation ==>
      usedComponents.entries[c] == old(usedComponents.entries[c])
    ensures Collected(compilation.modules).Aborted? <==> usedComponents.entries[compilation] == None
    ensures Collected(compilation.modules).Scanning? ==> (
      var names := Collected(compilation.modules).names;
      (forall n :: n in names ==> |n| > 0) &&
      usedComponents.entries[compilation] == Some(FormatUsedComponents(names, kebabCase)))
  {
    var dependencyNames := CollectDependencyOfGojiCore(compilation, compilation.modules);
    if dependencyNames.Some? {
      CollectedNames(Sites(compilation.modules));
      usedComponents.entries := usedComponents.entries[compilation := Some(FormatUsedComponents(dependencyNames.value, kebabCase))];
    } else {
      usedComponents.entries := usedComponents.entries[compilation := None];
    }
  }
}
