/** What `topaz templates install` promises, stated about the scripts the command's
    methods are proved to follow (module Install). */
module InstallProperties {

  import opened Base
  import opened Strs
  import opened Effects
  import opened Install
  import Manifest
  import Containers
  import Health
  import Client

  // ---------------------------------------------------------------------------
  // Phase order

  /** Every call a script may make has its rank, if any, in `lo..hi`, and the calls come
      in phase order. */
  ghost predicate Phased(s: Script, lo: int, hi: int) {
    Ordered(Calls(s)) && RanksWithin(Calls(s), lo, hi)
  }

  lemma SeqPhased(a: Script, b: Script, lo: int, mid: int, hi: int)
    requires lo <= mid + 1 && mid <= hi
    requires Phased(a, lo, mid) && Phased(b, mid + 1, hi)
    ensures Phased(Seq(a, b), lo, hi)
  {
    AppendOrdered(Calls(a), Calls(b), lo, mid, hi);
  }

  lemma CallPhased(e: Event, lo: int, hi: int)
    requires Rank(e) == -1 || lo <= Rank(e) <= hi
    ensures Phased(Call(e), lo, hi)
  {
    assert Calls(Call(e)) == [e];
  }

  /** A script made only of unranked calls fits in any phase. */
  lemma UnrankedPhased(s: Script, lo: int, hi: int)
    requires forall e :: e in Calls(s) ==> Rank(e) == -1
    ensures Phased(s, lo, hi)
  {
    assert forall k :: 0 <= k < |Calls(s)| ==> Calls(s)[k] in Calls(s);
  }

  /** Resolving references only downloads, into the given directory, what is not already
      a local file. */
  lemma {:induction false} FetchAllDownloads(w: World, refs: seq<string>, dir: string)
    ensures forall e :: e in Calls(FetchAll(w, refs, dir)) ==>
      e.Download? && e.dir == dir && !w.fileExists(e.url) && exists k :: 0 <= k < |refs| && e.url == w.absURL(refs[k])
    decreases |refs|
  {
    if refs != [] {
      var init := refs[..|refs| - 1];
      FetchAllDownloads(w, init, dir);
      var url := w.absURL(refs[|refs| - 1]);
      assert Calls(FetchAll(w, refs, dir)) ==
        Calls(FetchAll(w, init, dir)) + Calls(ResolveScript(w, url, dir));
      forall e | e in Calls(FetchAll(w, refs, dir))
        ensures e.Download? && e.dir == dir && !w.fileExists(e.url)
        ensures exists k :: 0 <= k < |refs| && e.url == w.absURL(refs[k])
      {
        if e in Calls(FetchAll(w, init, dir)) {
          var k :| 0 <= k < |init| && e.url == w.absURL(init[k]);
          assert refs[k] == init[k];
        } else {
          assert e == Download(url, dir);
        }
      }
    }
  }

  lemma FetchAllPhased(w: World, refs: seq<string>, dir: string, lo: int, hi: int)
    ensures Phased(FetchAll(w, refs, dir), lo, hi)
  {
    FetchAllDownloads(w, refs, dir);
    UnrankedPhased(FetchAll(w, refs, dir), lo, hi);
  }

  /** The imports are one per directory of the order, in that order. */
  lemma ImportAllLast(order: seq<string>)
    requires order != []
    ensures Calls(ImportAll(order)) == Calls(ImportAll(order[..|order| - 1])) + [Import(order[|order| - 1])]
  {
  }

  lemma {:induction false} ImportAllCalls(order: seq<string>)
    ensures |Calls(ImportAll(order))| == |order|
    ensures forall k :: 0 <= k < |order| ==> Calls(ImportAll(order))[k] == Import(order[k])
    decreases |order|
  {
    if order != [] {
      var init := order[..|order| - 1];
      ImportAllCalls(init);
      assert Calls(ImportAll(order)) == Calls(ImportAll(init)) + [Import(order[|order| - 1])];
    }
  }

  /** The test executions are one per file, in the order of the files. */
  lemma {:induction false} ExecAllCalls(files: seq<string>)
    ensures |Calls(ExecAll(files))| == |files|
    ensures forall k :: 0 <= k < |files| ==> Calls(ExecAll(files))[k] == TestExec(files[k])
    decreases |files|
  {
    if files != [] {
      var init := files[..|files| - 1];
      ExecAllCalls(init);
      assert Calls(ExecAll(files)) == Calls(ExecAll(init)) + [TestExec(files[|files| - 1])];
    }
  }

  lemma ImportAllPhased(order: seq<string>)
    ensures Phased(ImportAll(order), 12, 12)
  {
    ImportAllCalls(order);
  }

  lemma ExecAllPhased(files: seq<string>)
    ensures Phased(ExecAll(files), 13, 13)
  {
    ExecAllCalls(files);
  }

  lemma ConnectPhased(cfg: DirectoryConfig, lo: int, hi: int)
    requires lo <= hi + 1
    ensures Phased(Manifest.ConnectScript(cfg), lo, hi)
  {
    CallPhased(ServingCheck(cfg.host), lo, lo - 1);
    CallPhased(NewClient(cfg), lo, hi);
    SeqPhased(Call(ServingCheck(cfg.host)), Call(NewClient(cfg)), lo, lo - 1, hi);
  }

  lemma LaunchPhased(w: World, flags: Flags, tag: string, containerName: string, name: string, resource: string)
    ensures Phased(LaunchScript(w, flags, tag, containerName, name, resource), 6, 8)
  {
    var start := Start(StartArgs(flags.containerRegistry, flags.containerImage, tag,
                                 flags.containerPlatform, containerName, flags.containerHostname), true);
    CallPhased(Use(name, w.cfgDir), 7, 7);
    CallPhased(start, 8, 8);
    SeqPhased(Call(Use(name, w.cfgDir)), Call(start), 7, 7, 8);
    if !flags.noConfigure {
      CallPhased(Configure(name, resource, true), 6, 6);
    }
    SeqPhased(if flags.noConfigure then Nop else Call(Configure(name, resource, true)),
              Seq(Call(Use(name, w.cfgDir)), Call(start)), 6, 6, 8);
  }

  lemma PreparePhased(w: World, flags: Flags, tag: string, containerName: string, tmpl: Template, customName: string)
    ensures Phased(PrepareScript(w, flags, tag, containerName, tmpl, customName), 4, 8)
  {
    var name := if customName != "" then customName else tmpl.policyName;
    var launch := LaunchScript(w, flags, tag, containerName, name, tmpl.policyResource);
    LaunchPhased(w, flags, tag, containerName, name, tmpl.policyResource);
    CallPhased(Status, 5, 5);
    SeqPhased(Call(Status), launch, 5, 5, 8);
    CallPhased(Stop(StopPattern, true), 4, 4);
    SeqPhased(Call(Stop(StopPattern, true)), Seq(Call(Status), launch), 4, 4, 8);
  }

  lemma DeletePhased(w: World, i: TmplInstaller)
    ensures Phased(DeleteStep(w, i), 10, 10)
  {
    ConnectPhased(i.cfg, 10, 9);
    CallPhased(DeleteManifestRpc, 10, 10);
    SeqPhased(Manifest.ConnectScript(i.cfg), Call(DeleteManifestRpc), 10, 9, 10);
    assert DeleteStep(w, i) == Seq(Manifest.ConnectScript(i.cfg), Call(DeleteManifestRpc));
  }

  lemma ManifestSetPhased(cmd: Manifest.SetManifestCmd)
    ensures Phased(Manifest.SetScript(cmd), 11, 11)
  {
    var open := if cmd.path == "" then Nop else Call(OpenFile(cmd.path));
    var rpc := Call(SetManifestRpc(Manifest.SourceOf(cmd.path)));
    if cmd.path != "" {
      CallPhased(OpenFile(cmd.path), 11, 10);
    }
    CallPhased(SetManifestRpc(Manifest.SourceOf(cmd.path)), 11, 11);
    SeqPhased(open, rpc, 11, 10, 11);
    ConnectPhased(cmd.cfg, 11, 10);
    SeqPhased(Manifest.ConnectScript(cmd.cfg), Seq(open, rpc), 11, 10, 11);
  }

  lemma SetPhased(w: World, i: TmplInstaller)
    ensures Phased(SetStep(w, i), 11, 11)
  {
    var url := w.absURL(i.tmpl.manifest);
    var dir := AssetDir(i.templateDir, i.tmpl, i.customName, "model");
    var cmd := Manifest.SetManifestCmd(ResolvedPath(w, url, dir), false, i.cfg);
    ManifestSetPhased(cmd);
    if !w.fileExists(url) {
      CallPhased(Download(url, dir), 11, 10);
    }
    SeqPhased(ResolveScript(w, url, dir), Manifest.SetScript(cmd), 11, 10, 11);
  }

  lemma ImportPhased(w: World, i: TmplInstaller, order: seq<string>)
    ensures Phased(ImportStep(w, i, order), 12, 12)
  {
    var dir := AssetDir(i.templateDir, i.tmpl, i.customName, "data");
    FetchAllPhased(w, DataRefs(i.tmpl), dir, 12, 11);
    ImportAllPhased(order);
    SeqPhased(FetchAll(w, DataRefs(i.tmpl), dir), ImportAll(order), 12, 11, 12);
  }

  lemma InstallPhased(w: World, i: TmplInstaller, order: seq<string>)
    ensures Phased(InstallScript(w, i, order), 10, 12)
  {
    DeletePhased(w, i);
    SetPhased(w, i);
    ImportPhased(w, i, order);
    SeqPhased(SetStep(w, i), ImportStep(w, i, order), 11, 11, 12);
    SeqPhased(DeleteStep(w, i), Seq(SetStep(w, i), ImportStep(w, i, order)), 10, 10, 12);
  }

  lemma TestPhased(w: World, i: TmplInstaller)
    ensures Phased(TestScript(w, i), 13, 13)
  {
    var dir := AssetDir(i.templateDir, i.tmpl, i.customName, "assertions");
    FetchAllPhased(w, i.tmpl.assertions, dir, 13, 12);
    ExecAllPhased(TestFiles(w, i.tmpl.assertions, dir));
    SeqPhased(FetchAll(w, i.tmpl.assertions, dir), ExecAll(TestFiles(w, i.tmpl.assertions, dir)), 13, 12, 13);
  }

  lemma ConcludePhased(w: World, flags: Flags, i: TmplInstaller)
    ensures Phased(ConcludeScript(w, flags, i), 13, 14)
  {
    if !flags.noTests {
      TestPhased(w, i);
    }
    if !flags.noConsole {
      CallPhased(Console(ConsoleAddress), 14, 14);
    }
    SeqPhased(if flags.noTests then Nop else TestScript(w, i),
              if flags.noConsole then Nop else Call(Console(ConsoleAddress)), 13, 13, 14);
  }

  lemma ServePhased(w: World, flags: Flags, dir0: DirectoryConfig, tmpl: Template, order: seq<string>)
    ensures Phased(ServeScript(w, flags, dir0, tmpl, order), 9, 14)
  {
    var apply := ApplyScript(w, flags, dir0, tmpl, order);
    if w.modelListen.Some? {
      var i := InstallerFor(w, flags, dir0, tmpl, w.modelListen.value);
      InstallPhased(w, i, order);
      ConcludePhased(w, flags, i);
      SeqPhased(InstallScript(w, i, order), ConcludeScript(w, flags, i), 10, 12, 14);
    }
    CallPhased(HealthProbe(w.healthAddr, ModelService), 9, 9);
    SeqPhased(Call(HealthProbe(w.healthAddr, ModelService)), apply, 9, 9, 14);
  }

  lemma SaveConfigPhased(w: World, cfg: CLIConfig)
    ensures Phased(SaveConfigScript(w, cfg), 2, 3)
  {
    var write := Call(WriteCLIConfig(Join([w.topazDir, w.cliConfigFile]), cfg));
    CallPhased(WriteCLIConfig(Join([w.topazDir, w.cliConfigFile]), cfg), 3, 3);
    SeqPhased(Return(w.encode), write, 3, 2, 3);
    if !w.topazDirExists {
      CallPhased(MakeDir(w.topazDir), 2, 2);
    }
    SeqPhased(if w.topazDirExists then Nop else Call(MakeDir(w.topazDir)), Seq(Return(w.encode), write), 2, 2, 3);
  }

  lemma SavePhased(w: World, flags: Flags, tag: string, dir0: DirectoryConfig, tmpl: Template, order: seq<string>)
    ensures Phased(SaveScript(w, flags, tag, dir0, tmpl, order), 2, 14)
  {
    var cfg := ConfiguredCLI(w, flags, tmpl);
    SaveConfigPhased(w, cfg);
    PreparePhased(w, flags, tag, cfg.runningContainerName, tmpl, flags.configName);
    ServePhased(w, flags, dir0, tmpl, order);
    SeqPhased(PrepareScript(w, flags, tag, cfg.runningContainerName, tmpl, flags.configName),
              ServeScript(w, flags, dir0, tmpl, order), 4, 8, 14);
    SeqPhased(SaveConfigScript(w, cfg),
              InstallTemplateScript(w, flags, tag, cfg.runningContainerName, dir0, tmpl, order), 2, 3, 14);
  }

  lemma ConfirmedPhased(w: World, flags: Flags, tag: string, dir0: DirectoryConfig, tmpl: Template, order: seq<string>)
    ensures Phased(Seq(if flags.force then Nop else Call(Prompt(true)), ReconfigureScript(w, flags, tag, dir0, tmpl, order)), 1, 14)
  {
    if !(flags.configName != "" && !w.nameAllowed(flags.configName)) {
      SavePhased(w, flags, tag, dir0, tmpl, order);
    }
    if !flags.force {
      CallPhased(Prompt(true), 1, 1);
    }
    SeqPhased(if flags.force then Nop else Call(Prompt(true)), ReconfigureScript(w, flags, tag, dir0, tmpl, order), 1, 1, 14);
  }

  lemma RunPhased(w: World, flags: Flags, tag: string, dir0: DirectoryConfig, order: seq<string>)
    ensures Phased(RunScript(w, flags, tag, dir0, order), 0, 14)
  {
    var fetch := FetchTemplate(flags.name, flags.templatesURL);
    CallPhased(fetch, 0, 0);
    if w.template.Ok? {
      var tmpl := w.template.value;
      if !flags.force && !w.confirm {
        CallPhased(Prompt(false), 1, 14);
        SeqPhased(Call(fetch), Call(Prompt(false)), 0, 0, 14);
      } else {
        ConfirmedPhased(w, flags, tag, dir0, tmpl, order);
        SeqPhased(Call(fetch), Seq(if flags.force then Nop else Call(Prompt(true)),
                                   ReconfigureScript(w, flags, tag, dir0, tmpl, order)), 0, 0, 14);
      }
    }
  }

  /** Whatever the collaborators answer, the calls a run makes come in the installer's
      phase order: fetch, prompt, CLI directory, CLI configuration, stop, status,
      configure, use, start, health, delete, set, imports, test executions, console;
      only imports and test executions repeat. */
  lemma RunFollowsPhaseOrder(w: World, flags: Flags, tag: string, dir0: DirectoryConfig, order: seq<string>)
    ensures Ordered(Exec(w, RunScript(w, flags, tag, dir0, order)).trace)
  {
    RunPhased(w, flags, tag, dir0, order);
    ExecIsPrefix(w, RunScript(w, flags, tag, dir0, order));
    OrderedPrefix(Calls(RunScript(w, flags, tag, dir0, order)), Exec(w, RunScript(w, flags, tag, dir0, order)).trace);
  }

  /** A run stops at its first failing call and returns that call's error; a run that
      succeeds made no failing call. */
  lemma RunAbortsOnFirstError(w: World, flags: Flags, tag: string, dir0: DirectoryConfig, order: seq<string>)
    ensures Consistent(w, Exec(w, RunScript(w, flags, tag, dir0, order)))
  {
    ExecConsistent(w, RunScript(w, flags, tag, dir0, order));
  }

  // ---------------------------------------------------------------------------
  // Early exits of Run

  /** A failed template fetch ends the run before any prompt or configuration change. */
  lemma FetchFailureStopsRun(w: World, flags: Flags, tag: string, dir0: DirectoryConfig, order: seq<string>,
                             before: CLIConfig)
    requires w.template.Err?
    ensures Exec(w, RunScript(w, flags, tag, dir0, order)) ==
      Log([FetchTemplate(flags.name, flags.templatesURL)], Fail(w.template.error))
    ensures ConfigAfterRun(w, flags, before) == before
    ensures !ReachesInstall(w, flags)
  {
    assert RunScript(w, flags, tag, dir0, order) == Call(FetchTemplate(flags.name, flags.templatesURL));
  }

  /** Without --force, a declined prompt ends the run successfully, having changed
      nothing and started no phase. */
  lemma DeclinedPromptIsNoOp(w: World, flags: Flags, tag: string, dir0: DirectoryConfig, order: seq<string>,
                             before: CLIConfig)
    requires w.template.Ok? && !flags.force && !w.confirm
    ensures Exec(w, RunScript(w, flags, tag, dir0, order)) ==
      Log([FetchTemplate(flags.name, flags.templatesURL), Prompt(false)], Pass)
    ensures ConfigAfterRun(w, flags, before) == before
    ensures !ReachesInstall(w, flags)
  {
    var fetch := FetchTemplate(flags.name, flags.templatesURL);
    Advance([], w, fetch, Call(Prompt(false)));
  }

  /** A configuration name that breaks the naming rule is rejected after the
      confirmation and before anything is written; the error names the template. */
  lemma BadConfigNameRejected(w: World, flags: Flags, tag: string, dir0: DirectoryConfig, order: seq<string>,
                              before: CLIConfig)
    requires w.template.Ok? && (flags.force || w.confirm)
    requires flags.configName != "" && !w.nameAllowed(flags.configName)
    ensures var fetch := FetchTemplate(flags.name, flags.templatesURL);
            Exec(w, RunScript(w, flags, tag, dir0, order)) ==
            Log(if flags.force then [fetch] else [fetch, Prompt(true)], Fail(BadConfigName(flags.name)))
    ensures ConfigAfterRun(w, flags, before) == before.(active := before.active.(config := w.template.value.name))
    ensures !ReachesInstall(w, flags)
  {
    var fetch := FetchTemplate(flags.name, flags.templatesURL);
    var rest := ReconfigureScript(w, flags, tag, dir0, w.template.value, order);
    assert Exec(w, rest) == Log([], Fail(BadConfigName(flags.name)));
    Proceeds([], w, fetch, flags.force, rest);
    assert [] + Exec(w, RunScript(w, flags, tag, dir0, order)).trace == Exec(w, RunScript(w, flags, tag, dir0, order)).trace;
  }

  /** The CLI configuration a template install writes: the active and the running
      configuration are `<n>`, stored as `<n>.yaml` in the configuration directory, `<n>`
      being the custom name or else the template's name; the instance is then called
      "topaz-<n>" when the naming rule for configuration files applies. */
  lemma ConfigurationNaming(w: World, flags: Flags, tmpl: Template)
    ensures var n := if flags.configName != "" then flags.configName else tmpl.name;
            var cfg := ConfiguredCLI(w, flags, tmpl);
            && cfg.active == ActiveConfig(n, Join([w.cfgDir, n + ".yaml"]))
            && cfg.runningActive == cfg.active
            && ((Client.Getenv(w.env, "CONTAINER_NAME") == "" && n != "" && '/' !in n && '.' !in n
                 && !Contains(cfg.active.configFile, "config.yaml")) ==> cfg.runningContainerName == "topaz-" + n)
  {
    var n := if flags.configName != "" then flags.configName else tmpl.name;
    if Client.Getenv(w.env, "CONTAINER_NAME") == "" && n != "" && '/' !in n && '.' !in n
       && !Contains(Join([w.cfgDir, n + ".yaml"]), "config.yaml") {
      Containers.ConfigFileContainerName(w.env, w.cfgDir, n);
    }
  }

  // ---------------------------------------------------------------------------
  // Preparing the instance and the health gate

  /** The calls prepareTopaz is made of, in order. */
  function PrepareCalls(w: World, flags: Flags, tag: string, containerName: string, tmpl: Template,
                        customName: string): seq<Event>
  {
    var name := if customName != "" then customName else tmpl.policyName;
    [Stop("topaz*", true), Status]
    + (if flags.noConfigure then [] else [Configure(name, tmpl.policyResource, true)])
    + [Use(name, w.cfgDir),
       Start(StartArgs(flags.containerRegistry, flags.containerImage, tag,
                       flags.containerPlatform, containerName, flags.containerHostname), true)]
  }

  lemma PrepareCallsListed(w: World, flags: Flags, tag: string, containerName: string, tmpl: Template, customName: string)
    ensures Calls(PrepareScript(w, flags, tag, containerName, tmpl, customName)) ==
      PrepareCalls(w, flags, tag, containerName, tmpl, customName)
  {
    var name := if customName != "" then customName else tmpl.policyName;
    var start := Start(StartArgs(flags.containerRegistry, flags.containerImage, tag,
                                 flags.containerPlatform, containerName, flags.containerHostname), true);
    var launch := LaunchScript(w, flags, tag, containerName, name, tmpl.policyResource);
    var configure := if flags.noConfigure then Nop else Call(Configure(name, tmpl.policyResource, true));
    assert Calls(Seq(Call(Use(name, w.cfgDir)), Call(start))) == [Use(name, w.cfgDir), start];
    assert Calls(launch) == Calls(configure) + [Use(name, w.cfgDir), start];
    assert Calls(Seq(Call(Status), launch)) == [Status] + Calls(launch);
  }

  /** prepareTopaz stops the instances matching "topaz*", asks for the status, configures
      unless disabled, uses the configuration and starts the instance under the given
      name and tag, in that order, stopping at the first error. */
  lemma PrepareRunsInOrder(w: World, flags: Flags, tag: string, containerName: string, tmpl: Template, customName: string)
    ensures var l := Exec(w, PrepareScript(w, flags, tag, containerName, tmpl, customName));
            && l.trace <= PrepareCalls(w, flags, tag, containerName, tmpl, customName)
            && (l.out.Pass? ==> l.trace == PrepareCalls(w, flags, tag, containerName, tmpl, customName))
            && Consistent(w, l)
  {
    var prep := PrepareScript(w, flags, tag, containerName, tmpl, customName);
    PrepareCallsListed(w, flags, tag, containerName, tmpl, customName);
    ExecIsPrefix(w, prep);
    if Exec(w, prep).out.Pass? {
      ExecPassIssuesAll(w, prep);
    }
    ExecConsistent(w, prep);
  }

  /** When the health endpoint does not report SERVING, or no model service is
      configured, installTemplate ends right after the probe: no directory call is made. */
  lemma HealthGate(w: World, flags: Flags, tag: string, containerName: string, dir0: DirectoryConfig,
                   tmpl: Template, order: seq<string>)
    requires Exec(w, PrepareScript(w, flags, tag, containerName, tmpl, flags.configName)).out.Pass?
    requires !Health.Verdict(w.healthDial, w.healthReplies, w.retryBudget) || w.modelListen.None?
    ensures var l := Exec(w, InstallTemplateScript(w, flags, tag, containerName, dir0, tmpl, order));
            && l.trace == Exec(w, PrepareScript(w, flags, tag, containerName, tmpl, flags.configName)).trace
                          + [HealthProbe(w.healthAddr, ModelService)]
            && l.out == if !Health.Verdict(w.healthDial, w.healthReplies, w.retryBudget)
                        then Fail(EndpointNotServing) else Fail(ModelNotConfigured)
  {
    var prep := PrepareScript(w, flags, tag, containerName, tmpl, flags.configName);
    var probe := HealthProbe(w.healthAddr, ModelService);
    var apply := ApplyScript(w, flags, dir0, tmpl, order);
    SeqPasses([], w, prep, ServeScript(w, flags, dir0, tmpl, order));
    if !Health.Verdict(w.healthDial, w.healthReplies, w.retryBudget) {
      Abort([], w, probe, apply);
    } else {
      Advance([], w, probe, apply);
    }
  }

  // ---------------------------------------------------------------------------
  // The installer

  /** The installer's delete is forced: it never prompts, whatever the user would answer. */
  lemma DeleteIsForced(w: World, i: TmplInstaller)
    ensures Calls(DeleteStep(w, i)) == [ServingCheck(i.cfg.host), NewClient(i.cfg), DeleteManifestRpc]
    ensures forall e :: e in Exec(w, DeleteStep(w, i)).trace ==> !e.Prompt?
  {
    assert DeleteStep(w, i) == Seq(Manifest.ConnectScript(i.cfg), Call(DeleteManifestRpc));
    assert Calls(Manifest.ConnectScript(i.cfg)) == [ServingCheck(i.cfg.host), NewClient(i.cfg)];
    ExecIsPrefix(w, DeleteStep(w, i));
    forall e | e in Exec(w, DeleteStep(w, i)).trace
      ensures !e.Prompt?
    {
      var k :| 0 <= k < |Exec(w, DeleteStep(w, i)).trace| && Exec(w, DeleteStep(w, i)).trace[k] == e;
      assert e == Calls(DeleteStep(w, i))[k];
    }
  }

  /** The manifest is used in place when it is a local file; otherwise it is downloaded
      into `<templateDir>/<name>/model`, a failed download ends the step, and the
      downloaded file is what is set. */
  lemma ManifestResolution(w: World, i: TmplInstaller)
    ensures var url := w.absURL(i.tmpl.manifest);
            var dir := Join([i.templateDir, AssetName(i.tmpl, i.customName), "model"]);
            && (w.fileExists(url) ==>
                  Exec(w, SetStep(w, i)) == Exec(w, Manifest.SetScript(Manifest.SetManifestCmd(url, false, i.cfg))))
            && (!w.fileExists(url) && w.download(url, dir).Err? ==>
                  Exec(w, SetStep(w, i)) == Log([Download(url, dir)], Fail(w.download(url, dir).error)))
            && (!w.fileExists(url) && w.download(url, dir).Ok? ==>
                  var setting := Exec(w, Manifest.SetScript(Manifest.SetManifestCmd(w.download(url, dir).value, false, i.cfg)));
                  Exec(w, SetStep(w, i)) == Log([Download(url, dir)] + setting.trace, setting.out))
  {
    var url := w.absURL(i.tmpl.manifest);
    var dir := AssetDir(i.templateDir, i.tmpl, i.customName, "model");
    var setting := Manifest.SetScript(Manifest.SetManifestCmd(ResolvedPath(w, url, dir), false, i.cfg));
    if w.fileExists(url) {
      SeqPasses([], w, Nop, setting);
    } else if w.download(url, dir).Err? {
      Abort([], w, Download(url, dir), setting);
    } else {
      Advance([], w, Download(url, dir), setting);
    }
  }

  /** The data directories importData collects: for each data reference, the directory of
      the local file it names, or the default data directory when it had to be downloaded. */
  lemma {:induction false} DataDirSetMembers(w: World, refs: seq<string>, d: string)
    ensures forall x :: x in DataDirSet(w, refs, d) <==>
      exists k :: 0 <= k < |refs| && x == DataDirOf(w, refs[k], d)
    decreases |refs|
  {
    if refs != [] {
      var init := refs[..|refs| - 1];
      var last := |refs| - 1;
      DataDirSetMembers(w, init, d);
      forall x
        ensures x in DataDirSet(w, refs, d) <==>
          exists k :: 0 <= k < |refs| && x == DataDirOf(w, refs[k], d)
      {
        if x in DataDirSet(w, init, d) {
          var k :| 0 <= k < |init| && x == DataDirOf(w, init[k], d);
          assert refs[k] == init[k];
        }
        if exists k :: 0 <= k < |refs| && x == DataDirOf(w, refs[k], d) {
          var k :| 0 <= k < |refs| && x == DataDirOf(w, refs[k], d);
          if k < last {
            assert init[k] == refs[k];
          }
        }
      }
    }
  }

  /** Once the data are resolved, importData issues exactly one import per collected
      directory: the run's order lists each directory of the set once. */
  lemma ImportsEachDirOnce(w: World, i: TmplInstaller, order: seq<string>)
    requires ValidOrder(w, i, order)
    requires Exec(w, ImportStep(w, i, order)).out.Pass?
    ensures var fetch := FetchAll(w, DataRefs(i.tmpl), AssetDir(i.templateDir, i.tmpl, i.customName, "data"));
            var imports := Exec(w, ImportStep(w, i, order)).trace[|Exec(w, fetch).trace|..];
            && Exec(w, ImportStep(w, i, order)).trace == Exec(w, fetch).trace + imports
            && |imports| == |order|
            && (forall k :: 0 <= k < |order| ==> imports[k] == Import(order[k]))
            && Distinct(order)
            && (forall x :: x in order <==> x in DataDirsOf(w, i))
  {
    var fetch := FetchAll(w, DataRefs(i.tmpl), AssetDir(i.templateDir, i.tmpl, i.customName, "data"));
    if Exec(w, fetch).out.Fail? {
      SeqFails([], w, fetch, ImportAll(order));
      assert false;
    }
    SeqPasses([], w, fetch, ImportAll(order));
    ExecPassIssuesAll(w, ImportAll(order));
    ImportAllCalls(order);
    ElemsMembership(order);
    var t := Exec(w, ImportStep(w, i, order)).trace;
    assert t == Exec(w, fetch).trace + Calls(ImportAll(order));
    assert t[|Exec(w, fetch).trace|..] == Calls(ImportAll(order));
  }

  /** The calls a script issues are among the calls it is made of. */
  lemma ExecMembers(w: World, s: Script)
    ensures forall e :: e in Exec(w, s).trace ==> e in Calls(s)
  {
    ExecIsPrefix(w, s);
    forall e | e in Exec(w, s).trace
      ensures e in Calls(s)
    {
      var k :| 0 <= k < |Exec(w, s).trace| && Exec(w, s).trace[k] == e;
      assert Calls(s)[k] == e;
    }
  }

  /** The rank bound of a phased script, stated for its calls as members. */
  lemma PhasedMembers(s: Script, lo: int, hi: int)
    requires Phased(s, lo, hi)
    ensures forall e :: e in Calls(s) && Rank(e) >= 0 ==> lo <= Rank(e) <= hi
  {
    forall e | e in Calls(s) && Rank(e) >= 0
      ensures lo <= Rank(e) <= hi
    {
      var k :| 0 <= k < |Calls(s)| && Calls(s)[k] == e;
    }
  }

  /** What a sequence issues comes from its parts, and a failing second part fails it. */
  lemma SeqParts(w: World, a: Script, b: Script)
    ensures Exec(w, b).out.Fail? ==> Exec(w, Seq(a, b)).out.Fail?
    ensures forall e :: e in Exec(w, Seq(a, b)).trace ==> e in Exec(w, a).trace || e in Exec(w, b).trace
    ensures forall e :: e in Calls(Seq(a, b)) ==> e in Calls(a) || e in Calls(b)
  {
  }

  /** A failure in the third part of a sequence ends it there. */
  lemma ThirdFails(w: World, a: Script, b: Script, c: Script, d: Script, rest: Script)
    requires Exec(w, c).out.Fail?
    ensures Exec(w, Seq(Seq(a, Seq(b, Seq(c, d))), rest)) == Exec(w, Seq(a, Seq(b, c)))
    ensures Exec(w, Seq(a, Seq(b, c))).out.Fail?
  {
    assert Exec(w, Seq(c, d)) == Exec(w, c);
    assert Exec(w, Seq(b, Seq(c, d))) == Exec(w, Seq(b, c));
    assert Exec(w, Seq(a, Seq(b, Seq(c, d)))) == Exec(w, Seq(a, Seq(b, c)));
  }

  /** The calls before the data imports: the reset, the manifest and the data downloads. */
  lemma BeforeImportRanks(w: World, i: TmplInstaller, fetch: Script)
    requires forall e :: e in Calls(fetch) ==> e.Download?
    ensures forall e :: e in Calls(Seq(DeleteStep(w, i), Seq(SetStep(w, i), fetch))) ==> Rank(e) <= 11
  {
    var del, setStep := DeleteStep(w, i), SetStep(w, i);
    SeqParts(w, del, Seq(setStep, fetch));
    SeqParts(w, setStep, fetch);
    DeletePhased(w, i);
    PhasedMembers(del, 10, 10);
    SetPhased(w, i);
    PhasedMembers(setStep, 11, 11);
  }

  /** A failed data download ends the installation, with the trace of the steps up to it. */
  lemma DataFailureTrace(w: World, flags: Flags, i: TmplInstaller, order: seq<string>)
    requires Exec(w, FetchAll(w, DataRefs(i.tmpl), AssetDir(i.templateDir, i.tmpl, i.customName, "data"))).out.Fail?
    ensures var early := Seq(DeleteStep(w, i), Seq(SetStep(w, i), FetchAll(w, DataRefs(i.tmpl), AssetDir(i.templateDir, i.tmpl, i.customName, "data"))));
            Exec(w, FinishScript(w, flags, i, order)) == Exec(w, early) && Exec(w, early).out.Fail?
  {
    var fetch := FetchAll(w, DataRefs(i.tmpl), AssetDir(i.templateDir, i.tmpl, i.customName, "data"));
    assert FinishScript(w, flags, i, order) == Seq(Seq(DeleteStep(w, i), Seq(SetStep(w, i), Seq(fetch, ImportAll(order)))), ConcludeScript(w, flags, i));
    ThirdFails(w, DeleteStep(w, i), SetStep(w, i), fetch, ImportAll(order), ConcludeScript(w, flags, i));
  }

  lemma FetchOnlyDownloads(w: World, refs: seq<string>, dir: string)
    ensures forall e :: e in Calls(FetchAll(w, refs, dir)) ==> e.Download?
  {
    FetchAllDownloads(w, refs, dir);
  }

  /** A failed data download ends the installation: no import, test execution or console
      launch follows. */
  lemma DataDownloadFailureStopsInstall(w: World, flags: Flags, i: TmplInstaller, order: seq<string>)
    requires Exec(w, FetchAll(w, DataRefs(i.tmpl), AssetDir(i.templateDir, i.tmpl, i.customName, "data"))).out.Fail?
    ensures Exec(w, FinishScript(w, flags, i, order)).out.Fail?
    ensures forall e :: e in Exec(w, FinishScript(w, flags, i, order)).trace ==> !e.Import? && !e.TestExec? && !e.Console?
  {
    var dataDir := AssetDir(i.templateDir, i.tmpl, i.customName, "data");
    var fetch := FetchAll(w, DataRefs(i.tmpl), dataDir);
    DataFailureTrace(w, flags, i, order);
    DataFailureRanks(w, flags, i, order);
    forall e | e in Exec(w, FinishScript(w, flags, i, order)).trace
      ensures !e.Import? && !e.TestExec? && !e.Console?
    {
      LateRanks(e);
    }
  }

  /** The ranks of the calls of the last three steps. */
  lemma LateRanks(e: Event)
    ensures e.Import? ==> Rank(e) == 12
    ensures e.TestExec? ==> Rank(e) == 13
    ensures e.Console? ==> Rank(e) == 14
  {
  }

  lemma DataFailureRanks(w: World, flags: Flags, i: TmplInstaller, order: seq<string>)
    requires Exec(w, FetchAll(w, DataRefs(i.tmpl), AssetDir(i.templateDir, i.tmpl, i.customName, "data"))).out.Fail?
    ensures forall e :: e in Exec(w, FinishScript(w, flags, i, order)).trace ==> Rank(e) <= 11
  {
    var dataDir := AssetDir(i.templateDir, i.tmpl, i.customName, "data");
    var fetch := FetchAll(w, DataRefs(i.tmpl), dataDir);
    var early := Seq(DeleteStep(w, i), Seq(SetStep(w, i), fetch));
    DataFailureTrace(w, flags, i, order);
    ExecMembers(w, early);
    FetchOnlyDownloads(w, DataRefs(i.tmpl), dataDir);
    BeforeImportRanks(w, i, fetch);
  }

  /** The local files of the assertions, one per reference and in the same order. */
  lemma {:induction false} TestFilesFollowRefs(w: World, refs: seq<string>, dir: string)
    ensures |TestFiles(w, refs, dir)| == |refs|
    ensures forall k :: 0 <= k < |refs| ==> TestFiles(w, refs, dir)[k] == ResolvedPath(w, w.absURL(refs[k]), dir)
    decreases |refs|
  {
    if refs != [] {
      TestFilesFollowRefs(w, refs[..|refs| - 1], dir);
    }
  }

  /** runTemplateTests resolves every assertion into `<templateDir>/<name>/assertions`,
      then executes the files in the template's order up to the first failure; a failed
      download ends it before any execution, and no assertions means success. */
  lemma TestsRunInOrder(w: World, i: TmplInstaller)
    ensures var dir := Join([i.templateDir, AssetName(i.tmpl, i.customName), "assertions"]);
            var files := TestFiles(w, i.tmpl.assertions, dir);
            var fetch := Exec(w, FetchAll(w, i.tmpl.assertions, dir));
            var l := Exec(w, TestScript(w, i));
            && |files| == |i.tmpl.assertions|
            && (forall k :: 0 <= k < |files| ==> files[k] == ResolvedPath(w, w.absURL(i.tmpl.assertions[k]), dir))
            && (fetch.out.Fail? ==> l == fetch)
            && (fetch.out.Pass? ==>
                  var runs := l.trace[|fetch.trace|..];
                  && l.trace == fetch.trace + runs
                  && |runs| <= |files|
                  && (forall k :: 0 <= k < |runs| ==> runs[k] == TestExec(files[k]))
                  && (l.out.Pass? ==> |runs| == |files|))
            && (i.tmpl.assertions == [] ==> l == Done)
  {
    var dir := AssetDir(i.templateDir, i.tmpl, i.customName, "assertions");
    var files := TestFiles(w, i.tmpl.assertions, dir);
    var fetch := FetchAll(w, i.tmpl.assertions, dir);
    TestFilesFollowRefs(w, i.tmpl.assertions, dir);
    if Exec(w, fetch).out.Fail? {
      assert Exec(w, TestScript(w, i)) == Exec(w, fetch);
    } else {
      SeqPasses([], w, fetch, ExecAll(files));
      var l := Exec(w, TestScript(w, i));
      assert l.trace == Exec(w, fetch).trace + Exec(w, ExecAll(files)).trace;
      assert l.trace[|Exec(w, fetch).trace|..] == Exec(w, ExecAll(files)).trace;
      ExecIsPrefix(w, ExecAll(files));
      ExecAllCalls(files);
      if l.out.Pass? {
        ExecPassIssuesAll(w, ExecAll(files));
      }
    }
  }

  lemma FinishMembers(w: World, flags: Flags, i: TmplInstaller, order: seq<string>)
    ensures forall e :: e in Calls(FinishScript(w, flags, i, order)) ==>
      || (e in Calls(InstallScript(w, i, order)) && !e.TestExec? && !e.Console?)
      || (!flags.noTests && e in Calls(TestScript(w, i)) && !e.Console?)
      || (!flags.noConsole && e == Console(ConsoleAddress))
  {
    var install := InstallScript(w, i, order);
    var tests := if flags.noTests then Nop else TestScript(w, i);
    var console := if flags.noConsole then Nop else Call(Console(ConsoleAddress));
    assert FinishScript(w, flags, i, order) == Seq(install, Seq(tests, console));
    SeqParts(w, install, Seq(tests, console));
    SeqParts(w, tests, console);
    InstallPhased(w, i, order);
    PhasedMembers(install, 10, 12);
    TestPhased(w, i);
    PhasedMembers(TestScript(w, i), 13, 13);
    forall e | e in Calls(FinishScript(w, flags, i, order)) {
      LateRanks(e);
    }
  }

  /** --no-tests and --no-console leave out their steps; when the console is launched it
      is the last call of a successful run. */
  lemma OptionalSteps(w: World, flags: Flags, i: TmplInstaller, order: seq<string>)
    ensures flags.noTests ==> forall e :: e in Exec(w, FinishScript(w, flags, i, order)).trace ==> !e.TestExec?
    ensures flags.noConsole ==> forall e :: e in Exec(w, FinishScript(w, flags, i, order)).trace ==> !e.Console?
    ensures !flags.noConsole && Exec(w, FinishScript(w, flags, i, order)).out.Pass? ==>
      var t := Exec(w, FinishScript(w, flags, i, order)).trace;
      |t| > 0 && t[|t| - 1] == Console(ConsoleAddress)
  {
    var finish := FinishScript(w, flags, i, order);
    ExecMembers(w, finish);
    FinishMembers(w, flags, i, order);
    if !flags.noConsole && Exec(w, finish).out.Pass? {
      ExecPassIssuesAll(w, finish);
      var install := InstallScript(w, i, order);
      var tests := if flags.noTests then Nop else TestScript(w, i);
      var conclude := Seq(tests, Call(Console(ConsoleAddress)));
      assert finish == Seq(install, conclude);
      var t := Calls(finish);
      assert t == Calls(install) + Calls(conclude);
      assert Calls(conclude) == Calls(tests) + [Console(ConsoleAddress)];
      assert t[|t| - 1] == Calls(conclude)[|Calls(conclude)| - 1];
    }
  }

  // ---------------------------------------------------------------------------
  // The directory after an installation

  lemma {:induction false} ApplyImports(w: World, s: Store, order: seq<string>)
    requires forall k :: 0 <= k < |order| ==> !Fails(w, Import(order[k]))
    ensures Apply(w, s, Calls(ImportAll(order))) == s.(imported := s.imported + Elems(order))
    decreases |order|
  {
    if order != [] {
      var init := order[..|order| - 1];
      var last := order[|order| - 1];
      assert forall k :: 0 <= k < |init| ==> init[k] == order[k];
      ApplyImports(w, s, init);
      var ti := Calls(ImportAll(init));
      ImportAllLast(order);
      assert !Fails(w, Import(order[|order| - 1]));
      ApplyImportStep(w, s, ti, last);
      assert s.imported + Elems(init) + {last} == s.imported + Elems(order);
    }
  }

  /** A successful import adds its directory and changes nothing else. */
  lemma ApplyImportStep(w: World, s: Store, t: seq<Event>, d: string)
    requires !Fails(w, Import(d))
    ensures Apply(w, s, t + [Import(d)]) == Apply(w, s, t).(imported := Apply(w, s, t).imported + {d})
  {
    var u := t + [Import(d)];
    assert u[..|u| - 1] == t && u[|u| - 1] == Import(d);
    var before := Apply(w, s, t);
    assert Apply(w, s, u) == StoreStep(w, before, Import(d));
    assert StoreStep(w, before, Import(d)) == before.(imported := before.imported + {d});
  }

  /** A passing script made no failing call. */
  lemma PassMadeNoFailingCall(w: World, s: Script)
    requires Exec(w, s).out.Pass?
    ensures Exec(w, s).trace == Calls(s)
    ensures forall k :: 0 <= k < |Calls(s)| ==> !Fails(w, Calls(s)[k])
  {
    ExecPassIssuesAll(w, s);
    ExecConsistent(w, s);
  }

  lemma StoreAfterDelete(w: World, i: TmplInstaller, s: Store)
    requires Exec(w, DeleteStep(w, i)).out.Pass?
    ensures Apply(w, s, Calls(DeleteStep(w, i))) == Store(None, {})
  {
    DeleteIsForced(w, i);
    PassMadeNoFailingCall(w, DeleteStep(w, i));
    var t := Calls(DeleteStep(w, i));
    assert t[..2][..1] == [ServingCheck(i.cfg.host)];
    assert t[..2][..1][..0] == [];
    assert t[..|t| - 1] == t[..2];
  }

  lemma ApplyAfterInert(w: World, s: Store, r: Script, c: Script, o: Script, e: Event)
    requires Exec(w, Seq(r, Seq(c, Seq(o, Call(e))))).out.Pass?
    requires forall x :: x in Calls(r) ==> Inert(x)
    requires forall x :: x in Calls(c) ==> Inert(x)
    requires forall x :: x in Calls(o) ==> Inert(x)
    ensures !Fails(w, e)
    ensures Apply(w, s, Calls(Seq(r, Seq(c, Seq(o, Call(e)))))) == StoreStep(w, s, e)
  {
    PassLast(w, r, c, o, e);
    var last := Seq(o, Call(e));
    assert Calls(Seq(r, Seq(c, last))) == Calls(r) + Calls(Seq(c, last));
    assert Calls(Seq(c, last)) == Calls(c) + Calls(last);
    assert Calls(last) == Calls(o) + [e];
    InertThen(w, s, Calls(r), Calls(Seq(c, last)));
    InertThen(w, s, Calls(c), Calls(last));
    InertPrefix(w, s, Calls(o), e);
  }

  lemma InertThen(w: World, s: Store, a: seq<Event>, b: seq<Event>)
    requires forall x :: x in a ==> Inert(x)
    ensures Apply(w, s, a + b) == Apply(w, s, b)
  {
    ApplyAppend(w, s, a, b);
    InertPrefixOf(w, s, a);
  }

  lemma PassLast(w: World, r: Script, c: Script, o: Script, e: Event)
    requires Exec(w, Seq(r, Seq(c, Seq(o, Call(e))))).out.Pass?
    ensures !Fails(w, e)
  {
    var last := Seq(o, Call(e));
    assert Exec(w, Seq(r, Seq(c, last))) == Then(Exec(w, r), Exec(w, Seq(c, last)));
    assert Exec(w, Seq(c, last)) == Then(Exec(w, c), Exec(w, last));
    assert Exec(w, last) == Then(Exec(w, o), Step(w, e));
  }

  lemma InertPrefixOf(w: World, s: Store, t: seq<Event>)
    requires forall x :: x in t ==> Inert(x)
    ensures Apply(w, s, t) == s
  {
    assert forall k :: 0 <= k < |t| ==> t[k] in t;
    ApplyInert(w, s, t);
  }

  lemma InertPrefix(w: World, s: Store, pre: seq<Event>, e: Event)
    requires forall x :: x in pre ==> Inert(x)
    ensures Apply(w, s, pre + [e]) == StoreStep(w, s, e)
  {
    assert (pre + [e])[..|pre|] == pre;
    assert forall k :: 0 <= k < |pre| ==> pre[k] in pre;
    ApplyInert(w, s, pre);
  }

  lemma StoreAfterSet(w: World, i: TmplInstaller, s: Store)
    requires Exec(w, SetStep(w, i)).out.Pass?
    ensures var path := ResolvedPath(w, w.absURL(i.tmpl.manifest), AssetDir(i.templateDir, i.tmpl, i.customName, "model"));
            Apply(w, s, Calls(SetStep(w, i))) == s.(manifest := Some(Manifest.SourceOf(path)))
  {
    var url := w.absURL(i.tmpl.manifest);
    var dir := AssetDir(i.templateDir, i.tmpl, i.customName, "model");
    var path := ResolvedPath(w, url, dir);
    var rpc := SetManifestRpc(Manifest.SourceOf(path));
    var res := ResolveScript(w, url, dir);
    var con := Manifest.ConnectScript(i.cfg);
    var openStep := if path == "" then Nop else Call(OpenFile(path));
    assert SetStep(w, i) == Seq(res, Seq(con, Seq(openStep, Call(rpc))));
    assert Calls(con) == [ServingCheck(i.cfg.host), NewClient(i.cfg)];
    ApplyAfterInert(w, s, res, con, openStep, rpc);
  }

  lemma FetchInert(w: World, s: Store, refs: seq<string>, dir: string)
    ensures Apply(w, s, Calls(FetchAll(w, refs, dir))) == s
  {
    FetchAllDownloads(w, refs, dir);
    var t := Calls(FetchAll(w, refs, dir));
    assert forall k :: 0 <= k < |t| ==> t[k] in t;
    ApplyInert(w, s, t);
  }

  lemma StoreAfterImport(w: World, i: TmplInstaller, order: seq<string>, s: Store)
    requires Exec(w, ImportStep(w, i, order)).out.Pass?
    ensures Apply(w, s, Calls(ImportStep(w, i, order))) == s.(imported := s.imported + Elems(order))
  {
    var fetch := FetchAll(w, DataRefs(i.tmpl), AssetDir(i.templateDir, i.tmpl, i.customName, "data"));
    assert Exec(w, ImportAll(order)).out.Pass?;
    FetchInert(w, s, DataRefs(i.tmpl), AssetDir(i.templateDir, i.tmpl, i.customName, "data"));
    ApplyAppend(w, s, Calls(fetch), Calls(ImportAll(order)));
    PassMadeNoFailingCall(w, ImportAll(order));
    ImportAllCalls(order);
    ApplyImports(w, s, order);
  }

  /** A passing sequence passed both parts. */
  lemma TwoPass(w: World, a: Script, b: Script)
    requires Exec(w, Seq(a, b)).out.Pass?
    ensures Exec(w, a).out.Pass? && Exec(w, b).out.Pass?
  {
    assert Exec(w, Seq(a, b)) == Then(Exec(w, a), Exec(w, b));
  }

  /** A passing three-part script passed each part, and issued all their calls. */
  lemma ThreePass(w: World, a: Script, b: Script, c: Script)
    requires Exec(w, Seq(a, Seq(b, c))).out.Pass?
    ensures Exec(w, a).out.Pass? && Exec(w, b).out.Pass? && Exec(w, c).out.Pass?
    ensures Exec(w, Seq(a, Seq(b, c))).trace == Calls(a) + Calls(b) + Calls(c)
  {
    TwoPass(w, a, Seq(b, c));
    TwoPass(w, b, c);
    ExecPassIssuesAll(w, a);
    ExecPassIssuesAll(w, b);
    ExecPassIssuesAll(w, c);
    assert Calls(a) + (Calls(b) + Calls(c)) == Calls(a) + Calls(b) + Calls(c);
  }

  /** After a successful installation, whatever the directory held before, it holds the
      template's manifest (from the file it resolved to) and exactly the collected data
      directories. */
  lemma InstallResetsDirectory(w: World, i: TmplInstaller, order: seq<string>, s: Store)
    requires ValidOrder(w, i, order)
    requires Exec(w, InstallScript(w, i, order)).out.Pass?
    ensures var path := ResolvedPath(w, w.absURL(i.tmpl.manifest), AssetDir(i.templateDir, i.tmpl, i.customName, "model"));
            Apply(w, s, Exec(w, InstallScript(w, i, order)).trace) == Store(Some(Manifest.SourceOf(path)), DataDirsOf(w, i))
  {
    var del, setStep, imp := DeleteStep(w, i), SetStep(w, i), ImportStep(w, i, order);
    assert InstallScript(w, i, order) == Seq(del, Seq(setStep, imp));
    ThreePass(w, del, setStep, imp);
    ApplyAppend(w, s, Calls(del) + Calls(setStep), Calls(imp));
    ApplyAppend(w, s, Calls(del), Calls(setStep));
    StoreAfterDelete(w, i, s);
    StoreAfterSet(w, i, Store(None, {}));
    var path := ResolvedPath(w, w.absURL(i.tmpl.manifest), AssetDir(i.templateDir, i.tmpl, i.customName, "model"));
    StoreAfterImport(w, i, order, Store(Some(Manifest.SourceOf(path)), {}));
  }

  // ---------------------------------------------------------------------------
  // The directory configuration the installer connects with

  /** Every directory client a script may create is made from a configuration in `allowed`. */
  ghost predicate ClientsIn(s: Script, allowed: set<DirectoryConfig>) {
    forall e :: e in Calls(s) && e.NewClient? ==> e.dirCfg in allowed
  }

  lemma SeqClients(a: Script, b: Script, allowed: set<DirectoryConfig>)
    requires ClientsIn(a, allowed) && ClientsIn(b, allowed)
    ensures ClientsIn(Seq(a, b), allowed)
  {
    assert Calls(Seq(a, b)) == Calls(a) + Calls(b);
  }

  lemma WidenClients(s: Script, a: set<DirectoryConfig>, b: set<DirectoryConfig>)
    requires ClientsIn(s, a) && a <= b
    ensures ClientsIn(s, b)
  {
  }

  lemma ConnectClients(cfg: DirectoryConfig)
    ensures ClientsIn(Manifest.ConnectScript(cfg), {cfg})
  {
    assert Calls(Manifest.ConnectScript(cfg)) == [ServingCheck(cfg.host), NewClient(cfg)];
  }

  /** The install steps create their clients from the installer's configuration only;
      the downloads, imports and tests create none. */
  lemma InstallClients(w: World, i: TmplInstaller, order: seq<string>)
    ensures ClientsIn(InstallScript(w, i, order), {i.cfg})
  {
    var url := w.absURL(i.tmpl.manifest);
    var dir := AssetDir(i.templateDir, i.tmpl, i.customName, "model");
    var cmd := Manifest.SetManifestCmd(ResolvedPath(w, url, dir), false, i.cfg);
    var open := if cmd.path == "" then Nop else Call(OpenFile(cmd.path));
    var rpc := Call(SetManifestRpc(Manifest.SourceOf(cmd.path)));
    ConnectClients(i.cfg);
    assert ClientsIn(Call(DeleteManifestRpc), {i.cfg}) by { assert Calls(Call(DeleteManifestRpc)) == [DeleteManifestRpc]; }
    SeqClients(Manifest.ConnectScript(i.cfg), Call(DeleteManifestRpc), {i.cfg});
    assert DeleteStep(w, i) == Seq(Manifest.ConnectScript(i.cfg), Call(DeleteManifestRpc));
    assert ClientsIn(Seq(open, rpc), {i.cfg}) by { assert Calls(Seq(open, rpc)) == Calls(open) + Calls(rpc); }
    SeqClients(Manifest.ConnectScript(i.cfg), Seq(open, rpc), {i.cfg});
    assert ClientsIn(ResolveScript(w, url, dir), {i.cfg});
    SeqClients(ResolveScript(w, url, dir), Manifest.SetScript(cmd), {i.cfg});
    var data := AssetDir(i.templateDir, i.tmpl, i.customName, "data");
    FetchOnlyDownloads(w, DataRefs(i.tmpl), data);
    ImportAllCalls(order);
    SeqClients(FetchAll(w, DataRefs(i.tmpl), data), ImportAll(order), {i.cfg});
    SeqClients(SetStep(w, i), ImportStep(w, i, order), {i.cfg});
    SeqClients(DeleteStep(w, i), Seq(SetStep(w, i), ImportStep(w, i, order)), {i.cfg});
  }

  lemma ConcludeClients(w: World, flags: Flags, i: TmplInstaller)
    ensures ClientsIn(ConcludeScript(w, flags, i), {})
  {
    var dir := AssetDir(i.templateDir, i.tmpl, i.customName, "assertions");
    FetchOnlyDownloads(w, i.tmpl.assertions, dir);
    ExecAllCalls(TestFiles(w, i.tmpl.assertions, dir));
    SeqClients(FetchAll(w, i.tmpl.assertions, dir), ExecAll(TestFiles(w, i.tmpl.assertions, dir)), {});
    var tests := if flags.noTests then Nop else TestScript(w, i);
    var console := if flags.noConsole then Nop else Call(Console(ConsoleAddress));
    assert ClientsIn(console, {}) by { assert Calls(console) == if flags.noConsole then [] else [Console(ConsoleAddress)]; }
    SeqClients(tests, console, {});
  }

  /** The configuration the model service's clients are made from, if the configuration
      names a model service. */
  function ModelClients(w: World, dir0: DirectoryConfig): set<DirectoryConfig> {
    match w.modelListen
    case None => {}
    case Some(listen) => {dir0.(insecure := true, host := listen)}
  }

  lemma ServeClients(w: World, flags: Flags, dir0: DirectoryConfig, tmpl: Template, order: seq<string>)
    ensures ClientsIn(ServeScript(w, flags, dir0, tmpl, order), ModelClients(w, dir0))
  {
    var allowed := ModelClients(w, dir0);
    if w.modelListen.Some? {
      var i := InstallerFor(w, flags, dir0, tmpl, w.modelListen.value);
      InstallClients(w, i, order);
      ConcludeClients(w, flags, i);
      WidenClients(ConcludeScript(w, flags, i), {}, allowed);
      SeqClients(InstallScript(w, i, order), ConcludeScript(w, flags, i), allowed);
    }
    assert ClientsIn(Call(HealthProbe(w.healthAddr, ModelService)), allowed) by {
      assert Calls(Call(HealthProbe(w.healthAddr, ModelService))) == [HealthProbe(w.healthAddr, ModelService)];
    }
    SeqClients(Call(HealthProbe(w.healthAddr, ModelService)), ApplyScript(w, flags, dir0, tmpl, order), allowed);
  }

  lemma PrepareClients(w: World, flags: Flags, tag: string, containerName: string, tmpl: Template,
                       customName: string, allowed: set<DirectoryConfig>)
    ensures ClientsIn(PrepareScript(w, flags, tag, containerName, tmpl, customName), allowed)
  {
    PrepareCallsListed(w, flags, tag, containerName, tmpl, customName);
  }

  lemma SaveConfigClients(w: World, cfg: CLIConfig, allowed: set<DirectoryConfig>)
    ensures ClientsIn(SaveConfigScript(w, cfg), allowed)
  {
    var write := Call(WriteCLIConfig(Join([w.topazDir, w.cliConfigFile]), cfg));
    var mk := if w.topazDirExists then Nop else Call(MakeDir(w.topazDir));
    assert ClientsIn(mk, allowed) by { assert Calls(mk) == if w.topazDirExists then [] else [MakeDir(w.topazDir)]; }
    assert ClientsIn(write, allowed) by { assert Calls(write) == [WriteCLIConfig(Join([w.topazDir, w.cliConfigFile]), cfg)]; }
    assert ClientsIn(Return(w.encode), allowed) by { assert Calls(Return(w.encode)) == []; }
    SeqClients(Return(w.encode), write, allowed);
    SeqClients(mk, Seq(Return(w.encode), write), allowed);
  }

  lemma SaveClients(w: World, flags: Flags, tag: string, dir0: DirectoryConfig, tmpl: Template, order: seq<string>)
    ensures ClientsIn(SaveScript(w, flags, tag, dir0, tmpl, order), ModelClients(w, dir0))
  {
    var allowed := ModelClients(w, dir0);
    var cfg := ConfiguredCLI(w, flags, tmpl);
    PrepareClients(w, flags, tag, cfg.runningContainerName, tmpl, flags.configName, allowed);
    ServeClients(w, flags, dir0, tmpl, order);
    SeqClients(PrepareScript(w, flags, tag, cfg.runningContainerName, tmpl, flags.configName),
               ServeScript(w, flags, dir0, tmpl, order), allowed);
    SaveConfigClients(w, cfg, allowed);
    SeqClients(SaveConfigScript(w, cfg),
               InstallTemplateScript(w, flags, tag, cfg.runningContainerName, dir0, tmpl, order), allowed);
  }

  /** Whatever the collaborators answer, every directory client a template install creates
      is made from the command's directory configuration with TLS verification switched
      off and the model service's listen address as its host; without a model service no
      client is created. */
  lemma InstallConnectsInsecurely(w: World, flags: Flags, tag: string, dir0: DirectoryConfig, order: seq<string>)
    ensures forall e :: e in Exec(w, RunScript(w, flags, tag, dir0, order)).trace && e.NewClient? ==>
      w.modelListen.Some? && e.dirCfg == dir0.(insecure := true, host := w.modelListen.value)
  {
    var allowed := ModelClients(w, dir0);
    var run := RunScript(w, flags, tag, dir0, order);
    var fetch := FetchTemplate(flags.name, flags.templatesURL);
    assert ClientsIn(Call(fetch), allowed) by { assert Calls(Call(fetch)) == [fetch]; }
    if w.template.Ok? {
      var tmpl := w.template.value;
      if !flags.force && !w.confirm {
        assert Calls(run) == [fetch, Prompt(false)];
      } else {
        var asked := if flags.force then Nop else Call(Prompt(true));
        var reconf := ReconfigureScript(w, flags, tag, dir0, tmpl, order);
        if !(flags.configName != "" && !w.nameAllowed(flags.configName)) {
          SaveClients(w, flags, tag, dir0, tmpl, order);
        }
        assert ClientsIn(reconf, allowed);
        assert ClientsIn(asked, allowed) by { assert Calls(asked) == if flags.force then [] else [Prompt(true)]; }
        SeqClients(asked, reconf, allowed);
        SeqClients(Call(fetch), Seq(asked, reconf), allowed);
      }
    }
    assert ClientsIn(run, allowed);
    ExecMembers(w, run);
  }
}
