/** The template installer: `topaz templates install`.

    Run fetches the template, asks for confirmation, resets the CLI configuration and
    writes it, then runs the installation: stop the instance, report its status,
    configure, use the configuration, start, wait for the health endpoint, reset the
    directory, set the manifest, import the data, run the assertions and open the
    console. The first error ends the run.

    Each step is described by a script, a value built from the command's inputs and the
    world's answers (RunScript, InstallScript ...); every method is proved to issue
    exactly the trace, and return exactly the error, that `Exec` gives for its script.
    The properties are lemmas about those scripts, in the module InstallProperties. */
module Install {

  import opened Base
  import opened Strs
  import opened Effects
  import Manifest
  import Containers
  import Health

  const StopPattern := "topaz*"
  const ModelService := "model"
  const ConsoleAddress := "https://localhost:8080/ui/directory"

  /** The command's flags (its fields that Run does not assign). */
  datatype Flags = Flags(name: string, force: bool, noConfigure: bool, noTests: bool,
                         noConsole: bool, containerRegistry: string, containerImage: string,
                         containerPlatform: string, containerHostname: string,
                         templatesURL: string, containerVersion: string, configName: string)

  /** The name a template's configuration and assets are stored under: the custom
      configuration name when one is given, the template's name otherwise. */
  function AssetName(tmpl: Template, customName: string): (r: string)
    ensures customName != "" ==> r == customName
    ensures customName == "" ==> r == tmpl.name
  {
    if customName != "" then customName else tmpl.name
  }

  /** Where downloaded assets of one category ("model", "data", "assertions") are stored. */
  function AssetDir(templateDir: string, tmpl: Template, customName: string, category: string): string {
    Join([templateDir, AssetName(tmpl, customName), category])
  }

  /** Identity data then domain data, as one list. */
  function DataRefs(tmpl: Template): seq<string> {
    tmpl.identityData + tmpl.domainData
  }

  // ---------------------------------------------------------------------------
  // Asset resolution and the installer's loops

  /** Resolving an asset: nothing to do when the reference names an existing file,
      otherwise it is downloaded into `dir`. */
  function ResolveScript(w: World, url: string, dir: string): Script {
    if w.fileExists(url) then Nop else Call(Download(url, dir))
  }

  /** The local path of a resolved asset: the reference itself when that file exists,
      otherwise the downloaded file (empty when the download failed, which ends the run). */
  function ResolvedPath(w: World, url: string, dir: string): string {
    if w.fileExists(url) then url
    else match w.download(url, dir) case Ok(p) => p case Err(_) => ""
  }

  /** Resolves each reference, made absolute, into `dir`, in order. */
  function FetchAll(w: World, refs: seq<string>, dir: string): Script
    decreases |refs|
  {
    if refs == [] then Nop
    else Seq(FetchAll(w, refs[..|refs| - 1], dir), ResolveScript(w, w.absURL(refs[|refs| - 1]), dir))
  }

  /** The directories importData collects: the directory of each existing data file, and
      the default data directory for each downloaded one. */
  function DataDirSet(w: World, refs: seq<string>, defaultDir: string): set<string>
    decreases |refs|
  {
    if refs == [] then {}
    else DataDirSet(w, refs[..|refs| - 1], defaultDir) + {DataDirOf(w, refs[|refs| - 1], defaultDir)}
  }

  /** The directory one data reference contributes: the directory of the file when it
      exists, otherwise the default data directory it is downloaded into. */
  function DataDirOf(w: World, ref: string, defaultDir: string): string {
    var url := w.absURL(ref);
    if w.fileExists(url) then Dir(url) else defaultDir
  }

  /** One import per directory, in the order given. */
  function ImportAll(order: seq<string>): Script
    decreases |order|
  {
    if order == [] then Nop
    else Seq(ImportAll(order[..|order| - 1]), Call(Import(order[|order| - 1])))
  }

  /** The local files of the assertions, in the template's order. */
  function TestFiles(w: World, refs: seq<string>, dir: string): seq<string>
    decreases |refs|
  {
    if refs == [] then []
    else TestFiles(w, refs[..|refs| - 1], dir) + [ResolvedPath(w, w.absURL(refs[|refs| - 1]), dir)]
  }

  /** One test execution per file, in order. */
  function ExecAll(files: seq<string>): Script
    decreases |files|
  {
    if files == [] then Nop
    else Seq(ExecAll(files[..|files| - 1]), Call(TestExec(files[|files| - 1])))
  }

  predicate Distinct(s: seq<string>) {
    forall i, j :: 0 <= i < j < |s| ==> s[i] != s[j]
  }

  /** The elements of a sequence, as a set. */
  function Elems(s: seq<string>): set<string>
    decreases |s|
  {
    if s == [] then {} else Elems(s[..|s| - 1]) + {s[|s| - 1]}
  }

  lemma {:induction false} ElemsMembership(s: seq<string>)
    ensures forall x :: x in Elems(s) <==> x in s
    decreases |s|
  {
    if s != [] {
      ElemsMembership(s[..|s| - 1]);
      assert s == s[..|s| - 1] + [s[|s| - 1]];
    }
  }

  lemma ElemsSnoc(s: seq<string>, x: string)
    ensures Elems(s + [x]) == Elems(s) + {x}
    ensures x !in Elems(s) && Distinct(s) ==> Distinct(s + [x])
  {
    assert (s + [x])[..|s|] == s;
    ElemsMembership(s);
  }

  /** Some enumeration of a set, for runs that stop before importing. */
  ghost function Enumeration(s: set<string>): (r: seq<string>)
    ensures Distinct(r) && Elems(r) == s
    decreases |s|
  {
    if s == {} then []
    else
      var x :| x in s;
      var rest := Enumeration(s - {x});
      ElemsSnoc(rest, x);
      rest + [x]
  }

  // ---------------------------------------------------------------------------
  // The installer: steps 5 to 8

  /** The installer a run builds once the instance is serving. */
  datatype TmplInstaller = TmplInstaller(tmpl: Template, templateDir: string,
                                         cfg: DirectoryConfig, customName: string)
  {
    /** Resets the directory, sets the manifest and imports the data. */
    method Install(c: Cli) returns (r: Outcome, ghost order: seq<string>)
      modifies c
      ensures c.trace == old(c.trace) + Exec(c.w, InstallScript(c.w, this, order)).trace
      ensures r == Exec(c.w, InstallScript(c.w, this, order)).out
      ensures ValidOrder(c.w, this, order)
      ensures c.config == old(c.config)
    {
      order := Enumeration(DataDirsOf(c.w, this));
      ghost var t0 := c.trace;
      r := DeleteManifest(c);
      if r.Fail? {
        SeqFails(t0, c.w, DeleteStep(c.w, this), Seq(SetStep(c.w, this), ImportStep(c.w, this, order)));
        return;
      }
      ghost var t1 := c.trace;
      r := SetManifest(c);
      if r.Fail? {
        SeqPasses(t0, c.w, DeleteStep(c.w, this), Seq(SetStep(c.w, this), ImportStep(c.w, this, order)));
        SeqFails(t1, c.w, SetStep(c.w, this), ImportStep(c.w, this, order));
        return;
      }
      r, order := ImportData(c);
      SeqPasses(t0, c.w, DeleteStep(c.w, this), Seq(SetStep(c.w, this), ImportStep(c.w, this, order)));
      SeqPasses(t1, c.w, SetStep(c.w, this), ImportStep(c.w, this, order));
    }

    /** Runs the template's assertions. */
    method Test(c: Cli) returns (r: Outcome)
      modifies c
      ensures c.trace == old(c.trace) + Exec(c.w, TestScript(c.w, this)).trace
      ensures r == Exec(c.w, TestScript(c.w, this)).out
      ensures c.config == old(c.config)
    {
      r := RunTemplateTests(c);
    }

    method DeleteManifest(c: Cli) returns (r: Outcome)
      modifies c
      ensures c.trace == old(c.trace) + Exec(c.w, DeleteStep(c.w, this)).trace
      ensures r == Exec(c.w, DeleteStep(c.w, this)).out
      ensures c.config == old(c.config)
    {
      var command := Manifest.DeleteManifestCmd(true, cfg);
      r := command.Run(c);
    }

    method SetManifest(c: Cli) returns (r: Outcome)
      modifies c
      ensures c.trace == old(c.trace) + Exec(c.w, SetStep(c.w, this)).trace
      ensures r == Exec(c.w, SetStep(c.w, this)).out
      ensures c.config == old(c.config)
    {
      ghost var t0 := c.trace;
      var manifest := c.w.absURL(tmpl.manifest);
      var name := AssetName(tmpl, customName);
      var manifestDir := Join([templateDir, name, "model"]);
      ghost var resolve := ResolveScript(c.w, manifest, manifestDir);
      ghost var setting := Manifest.SetScript(Manifest.SetManifestCmd(ResolvedPath(c.w, manifest, manifestDir), false, cfg));
      assert SetStep(c.w, this) == Seq(resolve, setting);
      ghost var url := manifest;
      if !c.w.fileExists(manifest) {
        c.Emit(Download(manifest, manifestDir));
        match c.w.download(manifest, manifestDir) {
          case Err(e) =>
            SeqFails(t0, c.w, resolve, setting);
            return Fail(e);
          case Ok(m) =>
            manifest := m;
        }
      }
      SeqPasses(t0, c.w, resolve, setting);
      var command := Manifest.SetManifestCmd(manifest, false, cfg);
      r := command.Run(c);
    }

    method ImportData(c: Cli) returns (r: Outcome, ghost order: seq<string>)
      modifies c
      ensures c.trace == old(c.trace) + Exec(c.w, ImportStep(c.w, this, order)).trace
      ensures r == Exec(c.w, ImportStep(c.w, this, order)).out
      ensures ValidOrder(c.w, this, order)
      ensures c.config == old(c.config)
    {
      ghost var t0 := c.trace;
      var name := AssetName(tmpl, customName);
      var defaultDataDir := Join([templateDir, name, "data"]);
      order := Enumeration(DataDirsOf(c.w, this));
      var dataDirs;
      r, dataDirs := CollectDataDirs(c, tmpl.identityData + tmpl.domainData, defaultDataDir);
      if r.Fail? {
        SeqFails(t0, c.w, FetchAll(c.w, DataRefs(tmpl), defaultDataDir), ImportAll(order));
        return;
      }
      r, order := ImportDirs(c, dataDirs);
      SeqPasses(t0, c.w, FetchAll(c.w, DataRefs(tmpl), defaultDataDir), ImportAll(order));
    }

    method RunTemplateTests(c: Cli) returns (r: Outcome)
      modifies c
      ensures c.trace == old(c.trace) + Exec(c.w, TestScript(c.w, this)).trace
      ensures r == Exec(c.w, TestScript(c.w, this)).out
      ensures c.config == old(c.config)
    {
      ghost var t0 := c.trace;
      var name := AssetName(tmpl, customName);
      var assertionsDir := Join([templateDir, name, "assertions"]);
      ghost var files := TestFiles(c.w, tmpl.assertions, assertionsDir);
      var tests;
      r, tests := CollectTestFiles(c, tmpl.assertions, assertionsDir);
      if r.Fail? {
        SeqFails(t0, c.w, FetchAll(c.w, tmpl.assertions, assertionsDir), ExecAll(files));
        return;
      }
      r := ExecTests(c, tests);
      SeqPasses(t0, c.w, FetchAll(c.w, tmpl.assertions, assertionsDir), ExecAll(files));
    }
  }

  /** The first loop of runTemplateTests. */
  method CollectTestFiles(c: Cli, refs: seq<string>, assertionsDir: string) returns (r: Outcome, tests: seq<string>)
    modifies c
    ensures c.trace == old(c.trace) + Exec(c.w, FetchAll(c.w, refs, assertionsDir)).trace
    ensures r == Exec(c.w, FetchAll(c.w, refs, assertionsDir)).out
    ensures r.Pass? ==> tests == TestFiles(c.w, refs, assertionsDir)
    ensures c.config == old(c.config)
  {
    ghost var t0 := c.trace;
    tests := [];
    var k := 0;
    while k < |refs|
      invariant 0 <= k <= |refs|
      invariant Exec(c.w, FetchAll(c.w, refs[..k], assertionsDir)).out == Pass
      invariant c.trace == t0 + Exec(c.w, FetchAll(c.w, refs[..k], assertionsDir)).trace
      invariant tests == TestFiles(c.w, refs[..k], assertionsDir)
      invariant c.config == old(c.config)
    {
      var assertionURL := c.w.absURL(refs[k]);
      FetchAllNext(c.w, refs, k, assertionsDir);
      var file := assertionURL;
      if !c.w.fileExists(assertionURL) {
        c.Emit(Download(assertionURL, assertionsDir));
        AppendAssoc(t0, Exec(c.w, FetchAll(c.w, refs[..k], assertionsDir)).trace, Download(assertionURL, assertionsDir));
        var downloaded := c.w.download(assertionURL, assertionsDir);
        if downloaded.Err? {
          FetchStops(c.w, refs, k + 1, assertionsDir);
          return Fail(downloaded.error), tests;
        }
        file := downloaded.value;
      }
      tests := tests + [file];
      k := k + 1;
    }
    assert refs[..|refs|] == refs;
    return Pass, tests;
  }

  /** The second loop of runTemplateTests: the files in order, up to the first failure. */
  method ExecTests(c: Cli, tests: seq<string>) returns (r: Outcome)
    modifies c
    ensures c.trace == old(c.trace) + Exec(c.w, ExecAll(tests)).trace
    ensures r == Exec(c.w, ExecAll(tests)).out
    ensures c.config == old(c.config)
  {
    ghost var t0 := c.trace;
    var j := 0;
    while j < |tests|
      invariant 0 <= j <= |tests|
      invariant Exec(c.w, ExecAll(tests[..j])).out == Pass
      invariant c.trace == t0 + Exec(c.w, ExecAll(tests[..j])).trace
      invariant c.config == old(c.config)
    {
      c.Emit(TestExec(tests[j]));
      ExecAllNext(c.w, tests, j);
      AppendAssoc(t0, Exec(c.w, ExecAll(tests[..j])).trace, TestExec(tests[j]));
      if c.w.testExec(tests[j]).Fail? {
        ExecAllStops(c.w, tests, j + 1);
        return c.w.testExec(tests[j]);
      }
      j := j + 1;
    }
    assert tests[..|tests|] == tests;
    return Pass;
  }

  /** The first loop of importData. */
  method CollectDataDirs(c: Cli, refs: seq<string>, defaultDataDir: string) returns (r: Outcome, dataDirs: set<string>)
    modifies c
    ensures c.trace == old(c.trace) + Exec(c.w, FetchAll(c.w, refs, defaultDataDir)).trace
    ensures r == Exec(c.w, FetchAll(c.w, refs, defaultDataDir)).out
    ensures r.Pass? ==> dataDirs == DataDirSet(c.w, refs, defaultDataDir)
    ensures c.config == old(c.config)
  {
    ghost var t0 := c.trace;
    dataDirs := {};
    var k := 0;
    while k < |refs|
      invariant 0 <= k <= |refs|
      invariant Exec(c.w, FetchAll(c.w, refs[..k], defaultDataDir)).out == Pass
      invariant c.trace == t0 + Exec(c.w, FetchAll(c.w, refs[..k], defaultDataDir)).trace
      invariant dataDirs == DataDirSet(c.w, refs[..k], defaultDataDir)
      invariant c.config == old(c.config)
    {
      var dataURL := c.w.absURL(refs[k]);
      FetchAllNext(c.w, refs, k, defaultDataDir);
      if c.w.fileExists(dataURL) {
        dataDirs := dataDirs + {Dir(dataURL)};
      } else {
        c.Emit(Download(dataURL, defaultDataDir));
        AppendAssoc(t0, Exec(c.w, FetchAll(c.w, refs[..k], defaultDataDir)).trace, Download(dataURL, defaultDataDir));
        if c.w.download(dataURL, defaultDataDir).Err? {
          FetchStops(c.w, refs, k + 1, defaultDataDir);
          return Fail(c.w.download(dataURL, defaultDataDir).error), dataDirs;
        }
        dataDirs := dataDirs + {defaultDataDir};
      }
      k := k + 1;
    }
    assert refs[..|refs|] == refs;
    return Pass, dataDirs;
  }

  /** The second loop of importData: the directories are visited in the map's
      (unspecified) order. */
  method ImportDirs(c: Cli, dataDirs: set<string>) returns (r: Outcome, ghost order: seq<string>)
    modifies c
    ensures c.trace == old(c.trace) + Exec(c.w, ImportAll(order)).trace
    ensures r == Exec(c.w, ImportAll(order)).out
    ensures Distinct(order) && Elems(order) <= dataDirs
    ensures r.Pass? ==> Elems(order) == dataDirs
    ensures c.config == old(c.config)
  {
    ghost var t0 := c.trace;
    var remaining := dataDirs;
    order := [];
    while remaining != {}
      invariant remaining <= dataDirs
      invariant Distinct(order)
      invariant Elems(order) + remaining == dataDirs
      invariant Elems(order) !! remaining
      invariant Exec(c.w, ImportAll(order)).out == Pass
      invariant c.trace == t0 + Exec(c.w, ImportAll(order)).trace
      invariant c.config == old(c.config)
      decreases remaining
    {
      var dir :| dir in remaining;
      c.Emit(Import(dir));
      assert dir !in Elems(order);
      ImportAllNext(c.w, order, dir);
      AppendAssoc(t0, Exec(c.w, ImportAll(order)).trace, Import(dir));
      ElemsSnoc(order, dir);
      order := order + [dir];
      remaining := remaining - {dir};
      if c.w.importDir(dir).Fail? {
        return c.w.importDir(dir), order;
      }
    }
    return Pass, order;
  }

  /** One more directory, one more import. */
  lemma ImportAllNext(w: World, order: seq<string>, dir: string)
    requires Exec(w, ImportAll(order)).out == Pass
    ensures Exec(w, ImportAll(order + [dir])) == Log(Exec(w, ImportAll(order)).trace + [Import(dir)], w.importDir(dir))
  {
    assert (order + [dir])[..|order|] == order;
    SeqPasses([], w, ImportAll(order), Call(Import(dir)));
  }

  /** One more reference resolves one more asset: nothing is issued for an existing file,
      otherwise one download, whose result decides the outcome. */
  lemma FetchAllNext(w: World, refs: seq<string>, k: nat, d: string)
    requires k < |refs|
    requires Exec(w, FetchAll(w, refs[..k], d)).out == Pass
    ensures w.fileExists(w.absURL(refs[k])) ==>
      Exec(w, FetchAll(w, refs[..k + 1], d)) == Exec(w, FetchAll(w, refs[..k], d))
    ensures !w.fileExists(w.absURL(refs[k])) ==>
      Exec(w, FetchAll(w, refs[..k + 1], d)) ==
      Log(Exec(w, FetchAll(w, refs[..k], d)).trace + [Download(w.absURL(refs[k]), d)],
          OutcomeOf(w, Download(w.absURL(refs[k]), d)))
    ensures DataDirSet(w, refs[..k + 1], d) ==
      DataDirSet(w, refs[..k], d) + {DataDirOf(w, refs[k], d)}
    ensures TestFiles(w, refs[..k + 1], d) == TestFiles(w, refs[..k], d) + [ResolvedPath(w, w.absURL(refs[k]), d)]
  {
    assert refs[..k + 1][..k] == refs[..k];
    var url := w.absURL(refs[k]);
    SeqPasses([], w, FetchAll(w, refs[..k], d), ResolveScript(w, url, d));
    if !w.fileExists(url) {
      assert Exec(w, ResolveScript(w, url, d)) == Step(w, Download(url, d));
    } else {
      assert Exec(w, ResolveScript(w, url, d)) == Done;
    }
  }

  /** Once a loop has failed, later references add nothing. */
  lemma {:induction false} FetchStops(w: World, refs: seq<string>, k: nat, d: string)
    requires k <= |refs|
    requires Exec(w, FetchAll(w, refs[..k], d)).out.Fail?
    ensures Exec(w, FetchAll(w, refs, d)) == Exec(w, FetchAll(w, refs[..k], d))
    decreases |refs| - k
  {
    if k < |refs| {
      assert refs[..k + 1][..k] == refs[..k];
      FetchStops(w, refs, k + 1, d);
    } else {
      assert refs[..k] == refs;
    }
  }

  /** One more file, one more test execution. */
  lemma ExecAllNext(w: World, files: seq<string>, j: nat)
    requires j < |files|
    requires Exec(w, ExecAll(files[..j])).out == Pass
    ensures Exec(w, ExecAll(files[..j + 1])) ==
      Log(Exec(w, ExecAll(files[..j])).trace + [TestExec(files[j])], w.testExec(files[j]))
  {
    assert files[..j + 1][..j] == files[..j];
    SeqPasses([], w, ExecAll(files[..j]), Call(TestExec(files[j])));
  }

  /** Once a test has failed, later files add nothing. */
  lemma {:induction false} ExecAllStops(w: World, files: seq<string>, j: nat)
    requires j <= |files|
    requires Exec(w, ExecAll(files[..j])).out.Fail?
    ensures Exec(w, ExecAll(files)) == Exec(w, ExecAll(files[..j]))
    decreases |files| - j
  {
    if j < |files| {
      assert files[..j + 1][..j] == files[..j];
      ExecAllStops(w, files, j + 1);
    } else {
      assert files[..j] == files;
    }
  }

  /** The directories importData collects for an installer. */
  function DataDirsOf(w: World, i: TmplInstaller): set<string> {
    DataDirSet(w, DataRefs(i.tmpl), AssetDir(i.templateDir, i.tmpl, i.customName, "data"))
  }

  /** `order` is an order importData may visit its set of directories in: each at most
      once, none outside the set, and all of them unless a download or an import failed. */
  ghost predicate ValidOrder(w: World, i: TmplInstaller, order: seq<string>) {
    && Distinct(order)
    && Elems(order) <= DataDirsOf(w, i)
    && (Exec(w, ImportStep(w, i, order)).out.Pass? ==> Elems(order) == DataDirsOf(w, i))
  }

  /** Step 5: reset the directory store, without asking. */
  function DeleteStep(w: World, i: TmplInstaller): Script {
    Manifest.DeleteScript(Manifest.DeleteManifestCmd(true, i.cfg), w.confirm)
  }

  /** Step 6: resolve the manifest into the "model" asset directory and set it. */
  function SetStep(w: World, i: TmplInstaller): Script {
    var url := w.absURL(i.tmpl.manifest);
    var dir := AssetDir(i.templateDir, i.tmpl, i.customName, "model");
    Seq(ResolveScript(w, url, dir), Manifest.SetScript(Manifest.SetManifestCmd(ResolvedPath(w, url, dir), false, i.cfg)))
  }

  /** Step 7: resolve the data files, then import the collected directories in `order`. */
  function ImportStep(w: World, i: TmplInstaller, order: seq<string>): Script {
    Seq(FetchAll(w, DataRefs(i.tmpl), AssetDir(i.templateDir, i.tmpl, i.customName, "data")), ImportAll(order))
  }

  function InstallScript(w: World, i: TmplInstaller, order: seq<string>): Script {
    Seq(DeleteStep(w, i), Seq(SetStep(w, i), ImportStep(w, i, order)))
  }

  /** Step 8: resolve the assertions into the "assertions" asset directory and run them. */
  function TestScript(w: World, i: TmplInstaller): Script {
    var dir := AssetDir(i.templateDir, i.tmpl, i.customName, "assertions");
    Seq(FetchAll(w, i.tmpl.assertions, dir), ExecAll(TestFiles(w, i.tmpl.assertions, dir)))
  }

  // ---------------------------------------------------------------------------
  // The command

  /** How the CLI configuration looks after a template install resets it: the active
      configuration is the custom name or the template's name, its file lives in the
      configuration directory, and the instance name is derived from that file. */
  function ConfiguredCLI(w: World, flags: Flags, tmpl: Template): CLIConfig {
    var n := if flags.configName != "" then flags.configName else tmpl.name;
    var active := ActiveConfig(n, Join([w.cfgDir, n + ".yaml"]));
    CLIConfig(active, active, Containers.ContainerName(w.env, active.configFile))
  }

  /** Whether Run gets as far as resetting the CLI configuration. */
  predicate Reconfigures(w: World, flags: Flags) {
    && w.template.Ok?
    && (flags.force || w.confirm)
    && (flags.configName == "" || w.nameAllowed(flags.configName))
  }

  /** Whether Run gets as far as installTemplate. */
  predicate ReachesInstall(w: World, flags: Flags) {
    && Reconfigures(w, flags)
    && (w.topazDirExists || w.mkdir.Pass?)
    && w.encode.Pass?
    && w.writeConfig.Pass?
  }

  /** The CLI configuration after Run. A rejected configuration name leaves the active
      configuration renamed to the template's name. */
  function ConfigAfterRun(w: World, flags: Flags, before: CLIConfig): CLIConfig {
    match w.template
    case Err(_) => before
    case Ok(tmpl) =>
      if !flags.force && !w.confirm then before
      else if flags.configName != "" && !w.nameAllowed(flags.configName) then
        before.(active := before.active.(config := tmpl.name))
      else ConfiguredCLI(w, flags, tmpl)
  }

  /** Steps 1 to 3: stop, status, configure unless disabled, use, start. */
  function PrepareScript(w: World, flags: Flags, tag: string, containerName: string,
                         tmpl: Template, customName: string): Script
  {
    var name := if customName != "" then customName else tmpl.policyName;
    Seq(Call(Stop(StopPattern, true)), Seq(Call(Status), LaunchScript(w, flags, tag, containerName, name, tmpl.policyResource)))
  }

  /** Configure the instance unless disabled, make its configuration the active one, start it. */
  function LaunchScript(w: World, flags: Flags, tag: string, containerName: string,
                        name: string, resource: string): Script
  {
    Seq(if flags.noConfigure then Nop else Call(Configure(name, resource, true)),
    Seq(Call(Use(name, w.cfgDir)),
        Call(Start(StartArgs(flags.containerRegistry, flags.containerImage, tag,
                             flags.containerPlatform, containerName, flags.containerHostname), true))))
  }

  /** The installer built for the model service listening at `listen`. */
  function InstallerFor(w: World, flags: Flags, dir0: DirectoryConfig, tmpl: Template, listen: string): TmplInstaller {
    TmplInstaller(tmpl, w.templateDir, dir0.(insecure := true, host := listen), flags.configName)
  }

  /** Steps 5 to 9 with installer `i`: install, test unless disabled, open the console
      unless disabled. */
  function FinishScript(w: World, flags: Flags, i: TmplInstaller, order: seq<string>): Script {
    Seq(InstallScript(w, i, order), ConcludeScript(w, flags, i))
  }

  /** Steps 8 and 9: test unless disabled, open the console unless disabled. */
  function ConcludeScript(w: World, flags: Flags, i: TmplInstaller): Script {
    Seq(if flags.noTests then Nop else TestScript(w, i),
        if flags.noConsole then Nop else Call(Console(ConsoleAddress)))
  }

  /** Steps 5 to 9, once the health endpoint is serving: they need the model service's
      address from the configuration. */
  function ApplyScript(w: World, flags: Flags, dir0: DirectoryConfig, tmpl: Template,
                       order: seq<string>): Script
  {
    match w.modelListen
    case None => Return(Fail(ModelNotConfigured))
    case Some(listen) => FinishScript(w, flags, InstallerFor(w, flags, dir0, tmpl, listen), order)
  }

  /** installTemplate: steps 1 to 9. */
  function InstallTemplateScript(w: World, flags: Flags, tag: string, containerName: string,
                                 dir0: DirectoryConfig, tmpl: Template, order: seq<string>): Script
  {
    Seq(PrepareScript(w, flags, tag, containerName, tmpl, flags.configName), ServeScript(w, flags, dir0, tmpl, order))
  }

  /** Step 4, the health probe, then steps 5 to 9. */
  function ServeScript(w: World, flags: Flags, dir0: DirectoryConfig, tmpl: Template, order: seq<string>): Script {
    Seq(Call(HealthProbe(w.healthAddr, ModelService)), ApplyScript(w, flags, dir0, tmpl, order))
  }

  /** The directory configuration after installTemplate: always insecure, and pointed at
      the model service once the instance is serving. */
  ghost function DirectoryAfter(w: World, flags: Flags, tag: string, containerName: string,
                                dir0: DirectoryConfig, tmpl: Template): DirectoryConfig
  {
    if Exec(w, PrepareScript(w, flags, tag, containerName, tmpl, flags.configName)).out.Pass?
       && Health.Verdict(w.healthDial, w.healthReplies, w.retryBudget) && w.modelListen.Some?
    then dir0.(insecure := true, host := w.modelListen.value)
    else dir0.(insecure := true)
  }

  /** The whole command, `tag` being the resolved container tag. */
  function RunScript(w: World, flags: Flags, tag: string, dir0: DirectoryConfig, order: seq<string>): Script {
    var fetch := FetchTemplate(flags.name, flags.templatesURL);
    match w.template
    case Err(_) => Call(fetch)
    case Ok(tmpl) =>
      if !flags.force && !w.confirm then Seq(Call(fetch), Call(Prompt(false)))
      else Seq(Call(fetch), Seq(if flags.force then Nop else Call(Prompt(true)),
                                ReconfigureScript(w, flags, tag, dir0, tmpl, order)))
  }

  /** A confirmed run is the fetch, the prompt unless forced, and then the rest. */
  lemma Proceeds(t: seq<Event>, w: World, fetch: Event, force: bool, rest: Script)
    requires OutcomeOf(w, fetch).Pass?
    ensures var asked := if force then Nop else Call(Prompt(true));
            && t + Exec(w, Seq(Call(fetch), Seq(asked, rest))).trace ==
               (if force then t + [fetch] else t + [fetch] + [Prompt(true)]) + Exec(w, rest).trace
            && Exec(w, Seq(Call(fetch), Seq(asked, rest))).out == Exec(w, rest).out
  {
    var asked := if force then Nop else Call(Prompt(true));
    Advance(t, w, fetch, Seq(asked, rest));
    SeqPasses(t + [fetch], w, asked, rest);
  }

  /** Once confirmed: a configuration name that breaks the naming rule is rejected
      (the error names the template argument), otherwise the configuration is saved and
      the template installed. */
  function ReconfigureScript(w: World, flags: Flags, tag: string, dir0: DirectoryConfig, tmpl: Template,
                             order: seq<string>): Script
  {
    if flags.configName != "" && !w.nameAllowed(flags.configName) then Return(Fail(BadConfigName(flags.name)))
    else SaveScript(w, flags, tag, dir0, tmpl, order)
  }

  /** From saving the reset CLI configuration to the end of the installation. */
  function SaveScript(w: World, flags: Flags, tag: string, dir0: DirectoryConfig, tmpl: Template,
                      order: seq<string>): Script
  {
    var cfg := ConfiguredCLI(w, flags, tmpl);
    Seq(SaveConfigScript(w, cfg), InstallTemplateScript(w, flags, tag, cfg.runningContainerName, dir0, tmpl, order))
  }

  /** Create the CLI's directory when missing, encode the configuration, write it. */
  function SaveConfigScript(w: World, cfg: CLIConfig): Script {
    Seq(if w.topazDirExists then Nop else Call(MakeDir(w.topazDir)),
    Seq(Return(w.encode), Call(WriteCLIConfig(Join([w.topazDir, w.cliConfigFile]), cfg))))
  }

  /** The installer whose import order a run's `order` is, once a template was fetched. */
  function RunInstaller(w: World, flags: Flags, tmpl: Template): TmplInstaller {
    TmplInstaller(tmpl, w.templateDir, DirectoryConfig("", "", "", false, ""), flags.configName)
  }

  /** The import order is meaningful only once a template was fetched. */
  ghost predicate ValidRunOrder(w: World, flags: Flags, order: seq<string>) {
    w.template.Ok? ==> ValidOrder(w, RunInstaller(w, flags, w.template.value), order)
  }

  class InstallTemplateCmd {
    const flags: Flags
    var containerTag: string
    var containerName: string
    var directory: DirectoryConfig

    constructor (flags: Flags, containerTag: string, containerName: string, directory: DirectoryConfig)
      ensures this.flags == flags && this.containerTag == containerTag
      ensures this.containerName == containerName && this.directory == directory
    {
      this.flags := flags;
      this.containerTag := containerTag;
      this.containerName := containerName;
      this.directory := directory;
    }

    method Run(c: Cli) returns (r: Outcome, ghost order: seq<string>)
      modifies this, c
      ensures containerTag == Containers.ContainerVersionTag(flags.containerVersion, old(containerTag))
      ensures c.config == ConfigAfterRun(c.w, flags, old(c.config))
      ensures containerName == (if Reconfigures(c.w, flags) then c.config.runningContainerName else old(containerName))
      ensures directory == (if ReachesInstall(c.w, flags)
                            then DirectoryAfter(c.w, flags, containerTag, containerName, old(directory), c.w.template.value)
                            else old(directory))
      ensures c.trace == old(c.trace) + Exec(c.w, RunScript(c.w, flags, containerTag, old(directory), order)).trace
      ensures r == Exec(c.w, RunScript(c.w, flags, containerTag, old(directory), order)).out
      ensures ValidRunOrder(c.w, flags, order)
    {
      containerTag := Containers.ContainerVersionTag(flags.containerVersion, containerTag);
      ghost var t0 := c.trace;
      ghost var dir0 := directory;
      var fetch := FetchTemplate(flags.name, flags.templatesURL);
      order := [];

      c.Emit(fetch);
      if c.w.template.Err? {
        return Fail(c.w.template.error), order;
      }
      var tmpl := c.w.template.value;
      ghost var t1 := c.trace;
      if !flags.force {
        var answer := c.w.confirm;
        c.Emit(Prompt(answer));
        if !answer {
          order := Enumeration(DataDirsOf(c.w, RunInstaller(c.w, flags, tmpl)));
          Advance(t0, c.w, fetch, Call(Prompt(false)));
          return Pass, order;
        }
      }
      r, order := Reconfigure(c, tmpl);
      Proceeds(t0, c.w, fetch, flags.force, ReconfigureScript(c.w, flags, containerTag, dir0, tmpl, order));
    }

    /** After the confirmation: check the configuration name, reset the CLI configuration,
        save it and install. */
    method Reconfigure(c: Cli, tmpl: Template) returns (r: Outcome, ghost order: seq<string>)
      modifies this, c
      ensures containerTag == old(containerTag)
      ensures c.config == (if flags.configName != "" && !c.w.nameAllowed(flags.configName)
                           then old(c.config).(active := old(c.config).active.(config := tmpl.name))
                           else ConfiguredCLI(c.w, flags, tmpl))
      ensures containerName == (if flags.configName != "" && !c.w.nameAllowed(flags.configName)
                                then old(containerName) else c.config.runningContainerName)
      ensures directory == (if (flags.configName == "" || c.w.nameAllowed(flags.configName))
                               && (c.w.topazDirExists || c.w.mkdir.Pass?) && c.w.encode.Pass? && c.w.writeConfig.Pass?
                            then DirectoryAfter(c.w, flags, containerTag, containerName, old(directory), tmpl)
                            else old(directory))
      ensures c.trace == old(c.trace) + Exec(c.w, ReconfigureScript(c.w, flags, containerTag, old(directory), tmpl, order)).trace
      ensures r == Exec(c.w, ReconfigureScript(c.w, flags, containerTag, old(directory), tmpl, order)).out
      ensures ValidOrder(c.w, RunInstaller(c.w, flags, tmpl), order)
    {
      c.config := c.config.(active := c.config.active.(config := tmpl.name));
      if flags.configName != "" && !c.w.nameAllowed(flags.configName) {
        order := Enumeration(DataDirsOf(c.w, RunInstaller(c.w, flags, tmpl)));
        return Fail(BadConfigName(flags.name)), order;
      }
      ResetConfig(c, tmpl);
      r, order := SaveAndInstall(c, tmpl);
    }

    /** Points the CLI configuration at the template's configuration file and names the
        instance after it. */
    method ResetConfig(c: Cli, tmpl: Template)
      modifies this`containerName, c`config
      ensures c.config == ConfiguredCLI(c.w, flags, tmpl)
      ensures containerName == c.config.runningContainerName
    {
      var fileName := tmpl.name + ".yaml";
      c.config := c.config.(active := c.config.active.(config := tmpl.name));
      if flags.configName != "" {
        fileName := flags.configName + ".yaml";
        c.config := c.config.(active := c.config.active.(config := flags.configName));
      }
      // the configuration file sits in the configuration directory, under the chosen name
      c.config := c.config.(active := c.config.active.(configFile := Join([c.w.cfgDir, fileName])));
      c.config := c.config.(runningActive := c.config.active);
      c.config := c.config.(runningContainerName := Containers.ContainerName(c.w.env, c.config.active.configFile));
      containerName := c.config.runningContainerName;
    }

    /** Saves the CLI configuration, then installs. */
    method SaveAndInstall(c: Cli, tmpl: Template) returns (r: Outcome, ghost order: seq<string>)
      requires c.config == ConfiguredCLI(c.w, flags, tmpl)
      requires containerName == c.config.runningContainerName
      modifies this, c
      ensures containerTag == old(containerTag) && containerName == old(containerName)
      ensures directory == (if (c.w.topazDirExists || c.w.mkdir.Pass?) && c.w.encode.Pass? && c.w.writeConfig.Pass?
                            then DirectoryAfter(c.w, flags, containerTag, containerName, old(directory), tmpl)
                            else old(directory))
      ensures c.trace == old(c.trace) + Exec(c.w, SaveScript(c.w, flags, containerTag, old(directory), tmpl, order)).trace
      ensures r == Exec(c.w, SaveScript(c.w, flags, containerTag, old(directory), tmpl, order)).out
      ensures ValidOrder(c.w, RunInstaller(c.w, flags, tmpl), order)
      ensures c.config == old(c.config)
    {
      ghost var t0 := c.trace;
      ghost var dir0 := directory;
      r := SaveConfig(c);
      if r.Fail? {
        order := Enumeration(DataDirsOf(c.w, RunInstaller(c.w, flags, tmpl)));
        SeqFails(t0, c.w, SaveConfigScript(c.w, c.config),
                 InstallTemplateScript(c.w, flags, containerTag, containerName, dir0, tmpl, order));
        return;
      }
      r, order := InstallTemplate(c, tmpl);
      SeqPasses(t0, c.w, SaveConfigScript(c.w, c.config),
                InstallTemplateScript(c.w, flags, containerTag, containerName, dir0, tmpl, order));
    }

    /** Creates the CLI's directory when missing, encodes the configuration and writes it. */
    method SaveConfig(c: Cli) returns (r: Outcome)
      modifies c
      ensures c.trace == old(c.trace) + Exec(c.w, SaveConfigScript(c.w, c.config)).trace
      ensures r == Exec(c.w, SaveConfigScript(c.w, c.config)).out
      ensures r.Pass? <==> (c.w.topazDirExists || c.w.mkdir.Pass?) && c.w.encode.Pass? && c.w.writeConfig.Pass?
      ensures c.config == old(c.config)
    {
      ghost var t0 := c.trace;
      ghost var mk := if c.w.topazDirExists then Nop else Call(MakeDir(c.w.topazDir));
      var cliConfig := Join([c.w.topazDir, c.w.cliConfigFile]);
      ghost var wr := Call(WriteCLIConfig(cliConfig, c.config));
      if !c.w.topazDirExists {
        c.Emit(MakeDir(c.w.topazDir));
        if c.w.mkdir.Fail? {
          SeqFails(t0, c.w, mk, Seq(Return(c.w.encode), wr));
          return c.w.mkdir;
        }
      }
      SeqPasses(t0, c.w, mk, Seq(Return(c.w.encode), wr));
      if c.w.encode.Fail? {
        return c.w.encode;
      }
      c.Emit(WriteCLIConfig(cliConfig, c.config));
      return c.w.writeConfig;
    }

    method InstallTemplate(c: Cli, tmpl: Template) returns (r: Outcome, ghost order: seq<string>)
      modifies this, c
      ensures containerTag == old(containerTag) && containerName == old(containerName)
      ensures directory == DirectoryAfter(c.w, flags, containerTag, containerName, old(directory), tmpl)
      ensures c.trace == old(c.trace) + Exec(c.w, InstallTemplateScript(c.w, flags, containerTag, containerName, old(directory), tmpl, order)).trace
      ensures r == Exec(c.w, InstallTemplateScript(c.w, flags, containerTag, containerName, old(directory), tmpl, order)).out
      ensures ValidOrder(c.w, RunInstaller(c.w, flags, tmpl), order)
      ensures c.config == old(c.config)
    {
      order := Enumeration(DataDirsOf(c.w, RunInstaller(c.w, flags, tmpl)));
      ghost var t0 := c.trace;
      ghost var dir0 := directory;
      ghost var prep := PrepareScript(c.w, flags, containerTag, containerName, tmpl, flags.configName);

      directory := directory.(insecure := true);
      r := PrepareTopaz(c, tmpl, flags.configName);
      if r.Fail? {
        SeqFails(t0, c.w, prep, ServeScript(c.w, flags, dir0, tmpl, order));
        return;
      }
      r, order := Serve(c, tmpl, dir0);
      SeqPasses(t0, c.w, prep, ServeScript(c.w, flags, dir0, tmpl, order));
    }

    /** Once the instance is started: wait for the health endpoint, point the directory
        configuration at the model service and hand over to the installer. */
    method Serve(c: Cli, tmpl: Template, ghost dir0: DirectoryConfig) returns (r: Outcome, ghost order: seq<string>)
      requires directory == dir0.(insecure := true)
      modifies this`directory, c
      ensures directory == (if Health.Verdict(c.w.healthDial, c.w.healthReplies, c.w.retryBudget) && c.w.modelListen.Some?
                            then dir0.(insecure := true, host := c.w.modelListen.value)
                            else old(directory))
      ensures c.trace == old(c.trace) + Exec(c.w, ServeScript(c.w, flags, dir0, tmpl, order)).trace
      ensures r == Exec(c.w, ServeScript(c.w, flags, dir0, tmpl, order)).out
      ensures ValidOrder(c.w, RunInstaller(c.w, flags, tmpl), order)
      ensures c.config == old(c.config)
    {
      order := Enumeration(DataDirsOf(c.w, RunInstaller(c.w, flags, tmpl)));
      var topazTemplateDir := c.w.templateDir;
      ghost var t0 := c.trace;
      ghost var probe := HealthProbe(c.w.healthAddr, ModelService);
      var addr := c.w.healthAddr;
      c.Emit(HealthProbe(addr, ModelService));
      var serving, dial, sent := Health.ServiceHealthStatus(addr, ModelService, c.w.healthDial,
                                                            c.w.healthReplies, c.w.retryBudget);
      if !serving {
        Abort(t0, c.w, probe, ApplyScript(c.w, flags, dir0, tmpl, order));
        return Fail(EndpointNotServing), order;
      }
      Advance(t0, c.w, probe, ApplyScript(c.w, flags, dir0, tmpl, order));
      match c.w.modelListen {
        case None =>
          return Fail(ModelNotConfigured), order;
        case Some(listen) =>
          directory := directory.(host := listen);
      }
      var installer := TmplInstaller(tmpl, topazTemplateDir, directory, flags.configName);
      assert installer == InstallerFor(c.w, flags, dir0, tmpl, c.w.modelListen.value);
      assert DataDirsOf(c.w, installer) == DataDirsOf(c.w, RunInstaller(c.w, flags, tmpl));
      r, order := Finish(c, installer);
      Advance(t0, c.w, probe, ApplyScript(c.w, flags, dir0, tmpl, order));
    }

    /** Steps 5 to 9: install, then test and open the console as the flags say. */
    method Finish(c: Cli, installer: TmplInstaller) returns (r: Outcome, ghost order: seq<string>)
      modifies c
      ensures c.trace == old(c.trace) + Exec(c.w, FinishScript(c.w, flags, installer, order)).trace
      ensures r == Exec(c.w, FinishScript(c.w, flags, installer, order)).out
      ensures ValidOrder(c.w, installer, order)
      ensures c.config == old(c.config)
    {
      ghost var t0 := c.trace;
      r, order := installer.Install(c);
      if r.Fail? {
        SeqFails(t0, c.w, InstallScript(c.w, installer, order), ConcludeScript(c.w, flags, installer));
        return;
      }
      r := Conclude(c, installer);
      SeqPasses(t0, c.w, InstallScript(c.w, installer, order), ConcludeScript(c.w, flags, installer));
    }

    /** Steps 8 and 9. */
    method Conclude(c: Cli, installer: TmplInstaller) returns (r: Outcome)
      modifies c
      ensures c.trace == old(c.trace) + Exec(c.w, ConcludeScript(c.w, flags, installer)).trace
      ensures r == Exec(c.w, ConcludeScript(c.w, flags, installer)).out
      ensures c.config == old(c.config)
    {
      ghost var t0 := c.trace;
      ghost var tests := if flags.noTests then Nop else TestScript(c.w, installer);
      ghost var console := if flags.noConsole then Nop else Call(Console(ConsoleAddress));
      if !flags.noTests {
        r := installer.Test(c);
        if r.Fail? {
          SeqFails(t0, c.w, tests, console);
          return;
        }
      }
      SeqPasses(t0, c.w, tests, console);
      if !flags.noConsole {
        c.Emit(Console(ConsoleAddress));
        return c.w.console;
      }
      return Pass;
    }

    method PrepareTopaz(c: Cli, tmpl: Template, customName: string) returns (r: Outcome)
      modifies c
      ensures c.trace == old(c.trace) + Exec(c.w, PrepareScript(c.w, flags, containerTag, containerName, tmpl, customName)).trace
      ensures r == Exec(c.w, PrepareScript(c.w, flags, containerTag, containerName, tmpl, customName)).out
      ensures c.config == old(c.config)
    {
      ghost var t0 := c.trace;
      var name := tmpl.policyName;
      if customName != "" {
        name := customName;
      }
      ghost var launch := LaunchScript(c.w, flags, containerTag, containerName, name, tmpl.policyResource);
      c.Emit(Stop(StopPattern, true));
      if c.w.stop.Fail? {
        Abort(t0, c.w, Stop(StopPattern, true), Seq(Call(Status), launch));
        return c.w.stop;
      }
      Advance(t0, c.w, Stop(StopPattern, true), Seq(Call(Status), launch));
      ghost var t1 := c.trace;
      c.Emit(Status);
      if c.w.status.Fail? {
        Abort(t1, c.w, Status, launch);
        return c.w.status;
      }
      Advance(t1, c.w, Status, launch);
      r := Launch(c, name, tmpl.policyResource);
    }

    /** The last three steps of prepareTopaz. */
    method Launch(c: Cli, name: string, resource: string) returns (r: Outcome)
      modifies c
      ensures c.trace == old(c.trace) + Exec(c.w, LaunchScript(c.w, flags, containerTag, containerName, name, resource)).trace
      ensures r == Exec(c.w, LaunchScript(c.w, flags, containerTag, containerName, name, resource)).out
      ensures c.config == old(c.config)
    {
      ghost var t0 := c.trace;
      var start := Start(StartArgs(flags.containerRegistry, flags.containerImage, containerTag,
                                   flags.containerPlatform, containerName, flags.containerHostname), true);
      ghost var rest := Seq(Call(Use(name, c.w.cfgDir)), Call(start));
      if !flags.noConfigure {
        c.Emit(Configure(name, resource, true));
        if c.w.configure.Fail? {
          Abort(t0, c.w, Configure(name, resource, true), rest);
          return c.w.configure;
        }
        Advance(t0, c.w, Configure(name, resource, true), rest);
      } else {
        SeqPasses(t0, c.w, Nop, rest);
      }
      ghost var t1 := c.trace;
      c.Emit(Use(name, c.w.cfgDir));
      if c.w.use.Fail? {
        Abort(t1, c.w, Use(name, c.w.cfgDir), Call(start));
        return c.w.use;
      }
      Advance(t1, c.w, Use(name, c.w.cfgDir), Call(start));
      c.Emit(start);
      return c.w.start;
    }
  }
}
