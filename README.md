# topaz template installation, in Dafny

This project models the part of the topaz CLI that runs `topaz templates install`.
It also models the pieces that command relies on:

- the `topaz directory get/set/delete manifest` commands;
- the gRPC health probe;
- the run-status check of the common context;
- the container naming and image helpers;
- the environment getters for the directory and authorizer clients;
- the console service's configuration.

Every collaborator these commands call is an oracle. Each one is a field of the `World`
datatype in `effects.dfy`. They include:

- the template catalog and the yes/no prompt;
- the file system and the instance controller (`topaz stop/status/config/start`);
- the health endpoint and the directory service's RPCs;
- the importer, the test runner and the console.

Each call the CLI makes is recorded as an `Event` on the trace of the `Cli` object, which
stands for `cc.CommonCtx`. Each command's behaviour is written down as a `Script`, the
calls the command is made of, given as data:

- `Seq` composes two steps the way Go's `if err != nil { return err }` does.
- `Exec(w, s)` gives the trace a script leaves in world `w` and the error it returns.

Each imperative Go function is a Dafny method with the same branches and loops. Each
method is proved to append exactly `Exec(w, script).trace` to the trace and to return
`Exec(w, script).out`. The properties of the commands are lemmas about those scripts:

- the step order of the install;
- aborting on the first error;
- what a declined prompt or a rejected name leaves behind;
- the directory state the install leaves in the directory service.

The directory service's state is a function `Apply` of the trace. It has two parts, the
manifest and the set of imported directories. A `delete manifest` empties it, a
`set manifest` records its source, and an `import` adds a directory.

Modules, one per file:

- `base.dfy` (Base): errors, `Outcome`, `Result`, `Option`.
- `strs.dfy` (Strs): the string and path helpers the source uses: `strings.Contains`,
  `strings.Replace(.., 1)`, `filepath.Base`, `path.Dir` and `path.Join`.
- `client.dfy` (Client): pkg/cli/cc/client.go.
- `container.dfy` (Containers): pkg/cli/cc/container.go.
- `health.dfy` (Health): pkg/cli/cc/health.go.
- `cc.dfy` (RunStatusCheck): `CheckRunStatus` of pkg/cli/cc/cc.go.
- `console.dfy` (Console): pkg/app/console.go.
- `effects.dfy` (Effects): the world, events, scripts, `Exec`, the step ranks and the
  directory store.
- `manifest.dfy` (Manifest): pkg/cli/cmd/directory/manifest.go.
- `install.dfy` (Install): pkg/cli/cmd/templates/install.go.
- `install_props.dfy` (InstallProperties): the properties of the install command.

Two behaviours of the code are modelled as written, and lemmas record them:

- `Containers.ContainerName` tests whether the configuration file's path *contains*
  `config.yaml`. So a custom configuration named `myconfig` gets the default container
  name `topaz`, like the default configuration does (lemma
  `Containers.SubstringNameCollision`).
- The error for a configuration name that fails the restricted-name pattern names the
  template (`cmd.Name`), not the rejected configuration name (install.go:55).
  `BadConfigName(flags.name)` in `InstallProperties.BadConfigNameRejected` states exactly
  that.

The code and the documentation disagree in one place. The comment at install.go:95 says
identity data is loaded before domain data. The code does something else: it merges the
directories of both kinds into one Go map and imports the map's keys in iteration order.
The model follows the code. The import order is a ghost out-parameter `order`, an
arbitrary enumeration of that set, and the properties hold for every such order.

## Model

| member | source | states |
|---|---|---|
| Client.EnvOr | pkg/cli/cc/client.go:20-25 | a getter returns the variable's value when it is set and non-empty, otherwise its default |
| Client.DirectorySvc | pkg/cli/cc/client.go:20-25 | `TOPAZ_DIRECTORY_SVC`, or `localhost:9292` when unset or empty; never empty |
| Client.DirectoryKey | pkg/cli/cc/client.go:27-32 | the value of `TOPAZ_DIRECTORY_KEY`, empty when unset |
| Client.DirectoryToken | pkg/cli/cc/client.go:34-39 | the value of `TOPAZ_DIRECTORY_TOKEN`, empty when unset |
| Client.AuthorizerSvc | pkg/cli/cc/client.go:41-46 | `TOPAZ_AUTHORIZER_SVC`, or `localhost:8282` when unset or empty; never empty |
| Client.AuthorizerKey | pkg/cli/cc/client.go:48-53 | the value of `TOPAZ_AUTHORIZER_KEY` |
| Client.AuthorizerToken | pkg/cli/cc/client.go:55-60 | the value of `TOPAZ_AUTHORIZER_TOKEN` |
| Client.TenantID | pkg/cli/cc/client.go:62-67 | the value of `ASERTO_TENANT_ID` |
| Client.ParseBool | pkg/cli/cc/client.go:71 | `strconv.ParseBool`: accepts exactly the true and false spellings, and yields true exactly for the true spellings |
| Client.ParseFormatRoundTrip | pkg/cli/cc/client.go:71 | parsing the formatted boolean gives it back |
| Client.EnvBool | pkg/cli/cc/client.go:69-76 | a boolean variable is true exactly when its value is a true spelling; a parse error counts as false |
| Client.Insecure | pkg/cli/cc/client.go:69-76 | true iff `TOPAZ_INSECURE` is a true spelling; unparsable means false |
| Client.NoCheck | pkg/cli/cc/client.go:78-85 | true iff `TOPAZ_NO_CHECK` is a true spelling; unparsable means false |
| Client.GettersReadOnlyTheirVariable | pkg/cli/cc/client.go:20-85 | changing any other variable leaves each getter's result unchanged |
| Containers.Container | pkg/cli/cc/container.go:32-42 | a non-empty `CONTAINER` is the answer whatever the arguments; otherwise the answer is a reference with a registry part before a '/' |
| Containers.ContainerRegistry | pkg/cli/cc/container.go:45-50 | `CONTAINER_REGISTRY`, or `ghcr.io/aserto-dev`; never empty |
| Containers.ContainerImage | pkg/cli/cc/container.go:53-58 | `CONTAINER_IMAGE`, or `topaz`; never empty |
| Containers.ContainerTag | pkg/cli/cc/container.go:61-71 | `CONTAINER_TAG`, or the version tag otherwise |
| Containers.ReferenceRoundTrip | pkg/cli/cc/container.go:37-41 | the registry, image and tag can be read back from the reference built of them |
| Containers.ContainerCarriesArguments | pkg/cli/cc/container.go:32-42 | a non-empty `CONTAINER` is the reference; otherwise the reference reads back as the given registry, image and tag, each empty one replaced by its getter's default |
| Containers.ContainerPlatform | pkg/cli/cc/container.go:74-79 | `CONTAINER_PLATFORM`, or `linux/<arch>`; never empty |
| Containers.ContainerName | pkg/cli/cc/container.go:82-90 | `CONTAINER_NAME`; else `topaz` for a path containing `config.yaml`; else `topaz-` plus the file's base name without its extension |
| Containers.ConfigFileContainerName | pkg/cli/cc/container.go:82-90 | the configuration file `<dir>/<n>.yaml` names its instance `topaz-<n>` |
| Containers.SubstringNameCollision | pkg/cli/cc/container.go:86-88 | `myconfig.yaml` and `config.yaml` get the same container name `topaz` |
| Containers.ContainerVersionTag | pkg/cli/cc/container.go:95-102 | a non-empty version overrides the tag, equal to it or not; an empty one leaves the tag |
| Health.ServiceHealthStatus | pkg/cli/cc/health.go:15-52 | dials `addr` with the 30 s timeout; sends nothing when the dial fails; every attempt sends the same check of `service` under the shared 30 s context; at most `budget` attempts; stops at the first SERVING reply; true iff the dial worked and some attempt within the budget saw SERVING; otherwise the whole budget is used |
| Health.NeverServingMeansFalse | pkg/cli/cc/health.go:36-49 | an endpoint that always answers NOT_SERVING is never reported healthy |
| RunStatusCheck.CheckRunStatus | pkg/cli/cc/cc.go:35-52 | false when checks are disabled or the running query fails; otherwise true iff the query's answer matches the expected status |
| RunStatusCheck.EmptyNameMeansDefault | pkg/cli/cc/cc.go:41-43 | an empty container name queries the default container |
| RunStatusCheck.ExactlyOneStatusMatches | pkg/cli/cc/cc.go:51 | when the query answers, exactly one of running and not-running matches |
| Strs.BeforeFirst | pkg/cli/cc/container.go:89 | `strings.Split(s, c)[0]`: a prefix of `s` without `c`, followed by `c` unless it is all of `s` |
| Strs.BaseName | pkg/cli/cc/container.go:89 | `filepath.Base` is never empty and is `/` or a single element without '/'; a slash-free path is its own base name |
| Strs.Dir | pkg/cli/cmd/templates/install.go:306 | `path.Dir` is `.` for a slash-free path; otherwise `/`, `.` or a proper prefix of the path that does not end in '/' |
| Strs.DirBaseSplit | pkg/cli/cmd/templates/install.go:306 | for a path with single slashes and no trailing slash, its directory, a '/' and its base name make the path again |
| Strs.JoinEmptyIff | pkg/cli/cmd/templates/install.go:276 | `path.Join` is empty exactly when every element is |
| Strs.DirBaseOfJoin | pkg/cli/cmd/templates/install.go:62 | joining a directory and a file name puts one '/' between them, and `path.Dir` and `filepath.Base` give the two back |
| Strs.ReplaceFirstAtFirstOccurrence | pkg/app/console.go:127 | `strings.Replace(s, pat, rep, 1)` rewrites exactly the first occurrence |
| Console.AvailableServices | pkg/app/console.go:26-28 | the console offers only the `console` service |
| Console.ServiceAddress | pkg/app/console.go:126-128 | a listen address without `0.0.0.0` is unchanged; otherwise its first `0.0.0.0` becomes `localhost` |
| Console.ServiceAddressOfWildcard | pkg/app/console.go:126-128 | `0.0.0.0:<port>` is served at `localhost:<port>` |
| Console.GatewayAddress | pkg/app/console.go:113-124 | the gateway's FQDN when it has one, otherwise the scheme followed by the service address of its listen address |
| Console.GatewayAddressOfWildcard | pkg/app/console.go:113-128 | a wildcard gateway is reached at `<scheme>localhost<rest>` |
| Console.AnyAPIKey | pkg/app/console.go:80-96 | some configured API key of a configured service, or empty when the service or the keys are missing |
| Console.PrepareConfig | pkg/app/console.go:47-111 | each URL of the console configuration is its service's gateway address, or empty when that service is not configured; reader and directory URLs coincide; the tenant is copied; the API keys are chosen as above |
| Effects.ExecConsistent | pkg/cli/cmd/templates/install.go:235-252 | a script's result is the error of the last call it made, and every call before it passed: the "return on first error" shape of every command |
| Effects.ExecIsPrefix | pkg/cli/cmd/templates/install.go:235-252 | a command's calls are a prefix of the calls its script lists |
| Effects.ExecPassIssuesAll | pkg/cli/cmd/templates/install.go:235-252 | a command that passes made every call its script lists |
| Manifest.GetManifestCmd.Run | pkg/cli/cmd/directory/manifest.go:33-64 | the trace and error are those of the get-manifest script: serving check, client, RPC, the sink (stdout or a created file), the copy |
| Manifest.SetManifestCmd.Run | pkg/cli/cmd/directory/manifest.go:66-86 | the trace and error of the set-manifest script: serving check, client, the source (stdin or an opened file), the RPC |
| Manifest.DeleteManifestCmd.Run | pkg/cli/cmd/directory/manifest.go:88-103 | the trace and error of the delete script: serving check, client, the prompt unless forced, the RPC when forced or confirmed |
| Manifest.Connect | pkg/cli/cmd/directory/manifest.go:34-40 | the serving check of the configured host, then a client made from the command's directory configuration, stopping at the first failure |
| Manifest.SinkOf | pkg/cli/cmd/directory/manifest.go:49-56 | stdout exactly for an empty path, otherwise that file |
| Manifest.SourceOf | pkg/cli/cmd/directory/manifest.go:75-81 | stdin exactly for an empty path, otherwise that file |
| Manifest.NotServingStopsCommands | pkg/cli/cmd/directory/manifest.go:34-36 | with the host not serving, each command makes only the serving check and fails with `ErrNotServing` wrapped with the host |
| Manifest.ClientFailureStopsCommands | pkg/cli/cmd/directory/manifest.go:37-40 | a failing client creation ends each command with that error after two calls |
| Manifest.DeleteOnlyWhenForcedOrConfirmed | pkg/cli/cmd/directory/manifest.go:97-102 | the delete RPC is sent exactly when the service is reached and the deletion is forced or confirmed; the prompt appears exactly when the command is reached unforced |
| Manifest.DeclinedDeleteKeepsDirectory | pkg/cli/cmd/directory/manifest.go:98-102 | a declined prompt passes and leaves the directory state unchanged |
| Manifest.ForcedDeleteResetsDirectory | pkg/cli/cmd/directory/manifest.go:97-100 | a successful forced delete leaves an empty directory store |
| Manifest.SetSendsItsSource | pkg/cli/cmd/directory/manifest.go:75-85 | the RPC reads from the path's source; success records it as the manifest; an unopenable file fails before the RPC |
| Manifest.GetWritesToItsSink | pkg/cli/cmd/directory/manifest.go:49-61 | the copy goes to the path's sink; no file is created for stdout; success copied the manifest |
| Manifest.CommandsAbortOnFirstError | pkg/cli/cmd/directory/manifest.go:33-103 | each command returns the error of its last call, and all calls before it passed |
| Install.AssetName | pkg/cli/cmd/templates/install.go:270-273 | the asset directory is named by the custom name when set, otherwise by the template |
| Install.TmplInstaller.Install | pkg/cli/cmd/templates/install.go:235-252 | delete the manifest, set it, import the data, in that order, stopping at the first error |
| Install.TmplInstaller.Test | pkg/cli/cmd/templates/install.go:254-257 | runs the template tests |
| Install.TmplInstaller.DeleteManifest | pkg/cli/cmd/templates/install.go:259-265 | a forced manifest delete on the installer's directory |
| Install.TmplInstaller.SetManifest | pkg/cli/cmd/templates/install.go:267-291 | resolves the manifest (the file when it exists, else a download into `<asset>/model`), then sets it from that path |
| Install.TmplInstaller.ImportData | pkg/cli/cmd/templates/install.go:293-328 | resolves every identity and domain data file, then imports each collected directory once |
| Install.TmplInstaller.RunTemplateTests | pkg/cli/cmd/templates/install.go:330-365 | resolves every assertion file, then runs a test exec for each, in order |
| Install.CollectDataDirs | pkg/cli/cmd/templates/install.go:300-314 | the loop resolves the references in order, stops at the first failed download, and otherwise collects exactly `DataDirSet` |
| Install.ImportDirs | pkg/cli/cmd/templates/install.go:316-325 | imports distinct directories drawn from the set, all of them unless an import fails |
| Install.CollectTestFiles | pkg/cli/cmd/templates/install.go:337-350 | the loop resolves the assertions in order, stops at the first failed download, and otherwise collects `TestFiles` |
| Install.ExecTests | pkg/cli/cmd/templates/install.go:352-363 | one test exec per file, in order, stopping at the first failure |
| Install.InstallTemplateCmd.Run | pkg/cli/cmd/templates/install.go:37-86 | the version overrides the tag; the CLI configuration, container name and directory configuration end as `ConfigAfterRun` etc. say; the trace and error are those of `RunScript` |
| Install.InstallTemplateCmd.Reconfigure | pkg/cli/cmd/templates/install.go:51-85 | a rejected configuration name only renames the active configuration; otherwise the configuration is reset, saved, and the template installed |
| Install.InstallTemplateCmd.ResetConfig | pkg/cli/cmd/templates/install.go:51-65 | the active and running configuration become `<name>` in the configuration directory; the container name is derived from its file |
| Install.InstallTemplateCmd.SaveAndInstall | pkg/cli/cmd/templates/install.go:67-85 | the configuration is saved, then the template installed; a failed save leaves the directory configuration as it was |
| Install.InstallTemplateCmd.SaveConfig | pkg/cli/cmd/templates/install.go:67-83 | creates the topaz directory unless it exists, encodes and writes the CLI configuration; passes iff all three steps pass |
| Install.InstallTemplateCmd.InstallTemplate | pkg/cli/cmd/templates/install.go:98-145 | the directory configuration ends insecure, pointed at the model service once serving; the trace and error are those of the nine steps |
| Install.InstallTemplateCmd.Serve | pkg/cli/cmd/templates/install.go:107-145 | probes the health endpoint, needs the model service's address, then installs |
| Install.InstallTemplateCmd.Finish | pkg/cli/cmd/templates/install.go:122-144 | install, then the tests unless disabled, then the console unless disabled |
| Install.InstallTemplateCmd.Conclude | pkg/cli/cmd/templates/install.go:127-144 | the tests unless disabled, then the console at `https://localhost:8080/ui/directory` unless disabled |
| Install.InstallTemplateCmd.PrepareTopaz | pkg/cli/cmd/templates/install.go:147-215 | stop, status, configure unless disabled, use, start, stopping at the first error |
| Install.InstallTemplateCmd.Launch | pkg/cli/cmd/templates/install.go:173-212 | configure unless disabled, use, then start with the command's container settings |
| InstallProperties.RunFollowsPhaseOrder | pkg/cli/cmd/templates/install.go:88-145 | the calls of a run follow the step order: fetch, prompt, mkdir, write, stop, status, configure, use, start, health, delete, set, import, test, console |
| InstallProperties.RunAbortsOnFirstError | pkg/cli/cmd/templates/install.go:37-145 | a run's error is the error of its last call, and all calls before it passed |
| InstallProperties.FetchFailureStopsRun | pkg/cli/cmd/templates/install.go:40-43 | a failed template fetch is the only call and its error is returned; nothing is reconfigured |
| InstallProperties.DeclinedPromptIsNoOp | pkg/cli/cmd/templates/install.go:45-50 | declining the prompt passes after fetch and prompt, and changes nothing |
| InstallProperties.BadConfigNameRejected | pkg/cli/cmd/templates/install.go:52-56 | a name that fails the pattern stops the run with the error naming the template, after renaming the active configuration |
| InstallProperties.ConfigurationNaming | pkg/cli/cmd/templates/install.go:51-65 | the configuration is `<name>.yaml` in the configuration directory, active and running, with instance `topaz-<name>` |
| InstallProperties.PrepareRunsInOrder | pkg/cli/cmd/templates/install.go:147-215 | the preparation's calls are a prefix of stop, status, configure, use, start, with all of them on success |
| InstallProperties.HealthGate | pkg/cli/cmd/templates/install.go:112-120 | an unhealthy endpoint or a missing model service ends the install right after the probe, with its own error |
| InstallProperties.DeleteIsForced | pkg/cli/cmd/templates/install.go:259-265 | the installer's delete never prompts; its calls are the serving check of the installer's host, a client made from the installer's configuration, and the delete RPC |
| InstallProperties.InstallConnectsInsecurely | pkg/cli/cmd/templates/install.go:101-124 | every directory client a template install creates is made from the command's directory configuration with `Insecure` set and the model service's listen address as host; without a model service none is created |
| InstallProperties.ManifestResolution | pkg/cli/cmd/templates/install.go:275-290 | an existing manifest file is set as is; otherwise it is downloaded, a failing download ends the step, and the downloaded file is set |
| InstallProperties.DataDirSetMembers | pkg/cli/cmd/templates/install.go:302-314 | a directory is collected iff some data reference resolves to it: the file's own directory when it exists, otherwise the data directory |
| InstallProperties.ImportsEachDirOnce | pkg/cli/cmd/templates/install.go:316-325 | a passing import step imports each collected directory exactly once, after the downloads |
| InstallProperties.DataDownloadFailureStopsInstall | pkg/cli/cmd/templates/install.go:309-312 | a failed data download fails the install before any import, test or console |
| InstallProperties.TestFilesFollowRefs | pkg/cli/cmd/templates/install.go:337-350 | one test file per assertion reference, the resolved path of each |
| InstallProperties.TestsRunInOrder | pkg/cli/cmd/templates/install.go:330-365 | test execs follow the resolutions, one per file in order, all of them on success |
| InstallProperties.OptionalSteps | pkg/cli/cmd/templates/install.go:127-144 | no test exec with the tests disabled, no console with the console disabled; a passing install with the console ends with it |
| InstallProperties.InstallResetsDirectory | pkg/cli/cmd/templates/install.go:235-252 | after a passing install the directory holds exactly the template's manifest source and the collected data directories |

## Left out

- Every collaborator is an oracle field of `World`, recorded as an event when it is called. This covers:
  - `getTemplate` and `PromptYesNo`;
  - `os.Stat`, `os.MkdirAll`, `json.Marshal` and `os.WriteFile`;
  - `config.GetConfig` with its health address and services, as `healthAddr` and `modelListen`;
  - `topaz stop/status/config new/config use/start` and `topaz console`;
  - `ImportCmd` and `TestExecCmd`;
  - `IsServing`, `clients.NewDirectoryClient` and the three manifest RPCs;
  - `os.Open`, `os.Create` and `io.Copy`;
  - `tmpl.AbsURL`, `config.FileExists` and `download`.

  Their own behaviour is not part of this model.
- The UI messages, the `HasTopazDir` warning and the deferred file closes produce no effect the model tracks.
- Health.ServiceHealthStatus: the retry policy of `grpc-go` and wall-clock time are left out. They are a budget of attempts and a sequence of replies.
- `path.Join`, `path.Dir` and `filepath.Join` are modelled without `Clean`. The normalisation of `.`, `..` and repeated slashes is left out.
- Containers.ContainerTag: the version tag is a parameter. How `defaultContainerTag` derives it from the build version with semver is not modelled.
- Containers.ContainerPlatform: `runtime.GOARCH` is a parameter.
- RunStatusCheck.CheckRunStatus: pkg/cli/cc/cc.go calls a zero-argument `ContainerName()`, which is not part of this model. Its result is the `defaultName` parameter, and `dockerx.IsRunning` is the `isRunning` oracle.
- `NewCommonContext` is not modelled.
- In console.go, `NewConsole`, the gRPC and gateway registrations (an HTTP redirect) and `Cleanups` are not modelled: they only wire handlers.
- The console's service-name constants are declared in a file that is not part of this model. The model uses `authorizer`, `reader`, `writer`, `importer`, `exporter`, `model` and `console`.
- Console.AnyAPIKey: which key Go's map iteration picks first is unspecified. The contract says only that it is one of the configured keys.
- Install.TmplInstaller.ImportData: Go's map iteration order is a ghost `order`. Every property holds for any order in which each collected directory appears once.
- The `Stdout` and `Stdin` flags of the get and set manifest commands are not read by the code, so the model ignores them too.
- The import and test-exec events record only the directory or the file. The directory configuration they are run with is the installer's, as for the other steps, and is not recorded.
- The restricted-name pattern is the oracle `nameAllowed`. Its regular expression is not modelled.
- Every oracle answers by its arguments alone. The delete step and the set step both check that the model service's host is serving, so they get the same answer; an instance that stops serving between the two steps is not modelled.
- Strs.Join: the function itself carries no contract; what it promises is stated by Strs.JoinEmptyIff and Strs.DirBaseOfJoin, which keeps the many scripts that build paths cheap to verify.
