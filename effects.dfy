/** What the CLI commands act on, and what they leave behind.

    Every collaborator the commands call (the template catalog, the prompt, the file
    system, the instance controller, the health endpoint, the directory service, the
    test runner, the console) is an oracle: a field of `World` that fixes its answer.
    Every call is recorded as an `Event` in the trace of the `Cli` object, and the
    directory service's state is a function of the trace.

    Each command is specified by a `Script`, the calls it is made of as data. `Exec`
    gives the `Log` a script produces in a world, the events it issues and the error it
    returns: `Seq` composes two scripts the way Go's `if err != nil { return err }`
    composes two calls. `Calls` lists every call a script may make. */
module Effects {

  import opened Base
  import opened Strs
  import Health

  /** Where SetManifest reads from and GetManifest writes to. */
  datatype Source = Stdin | FromFile(path: string)
  datatype Sink = Stdout | ToFile(path: string)

  /** clients.DirectoryConfig. */
  datatype DirectoryConfig = DirectoryConfig(host: string, apiKey: string, token: string,
                                             insecure: bool, tenantID: string)

  /** The template descriptor fetched from the catalog (the fields the installer reads). */
  datatype Template = Template(name: string, policyName: string, policyResource: string,
                               manifest: string, identityData: seq<string>,
                               domainData: seq<string>, assertions: seq<string>)

  /** The container settings handed to `topaz start`. */
  datatype StartArgs = StartArgs(registry: string, image: string, tag: string,
                                 platform: string, name: string, hostname: string)

  /** The CLI's own configuration: the active configuration and what is running. */
  datatype ActiveConfig = ActiveConfig(config: string, configFile: string)
  datatype CLIConfig = CLIConfig(active: ActiveConfig, runningActive: ActiveConfig,
                                 runningContainerName: string)

  /** One collaborator call. */
  datatype Event =
    | FetchTemplate(name: string, catalog: string)
    | Prompt(answer: bool)
    | MakeDir(dir: string)
    | WriteCLIConfig(path: string, cfg: CLIConfig)
    | Stop(pattern: string, wait: bool)
    | Status
    | Configure(configName: string, resource: string, force: bool)
    | Use(configName: string, configDir: string)
    | Start(container: StartArgs, wait: bool)
    | HealthProbe(addr: string, service: string)
    | ServingCheck(host: string)
    | NewClient(dirCfg: DirectoryConfig)
    | DeleteManifestRpc
    | OpenFile(path: string)
    | SetManifestRpc(source: Source)
    | GetManifestRpc
    | CreateFile(path: string)
    | CopyManifest(sink: Sink)
    | Download(url: string, dir: string)
    | Import(dir: string)
    | TestExec(file: string)
    | Console(address: string)

  /** The answers of all collaborators, and the fixed directories of the installation. */
  datatype World = World(
    template: Result<Template>,                 // getTemplate(name, catalog URL)
    confirm: bool,                              // the answer to PromptYesNo
    nameAllowed: string -> bool,                // common.RestrictedNamePattern.MatchString
    cfgDir: string,                             // cc.GetTopazCfgDir()
    topazDir: string,                           // cc.GetTopazDir()
    templateDir: string,                        // cc.GetTopazTemplateDir()
    cliConfigFile: string,                      // common.CLIConfigurationFile
    env: map<string, string>,                   // the process environment
    topazDirExists: bool,
    mkdir: Outcome,                             // os.MkdirAll(topaz dir)
    encode: Outcome,                            // json.Marshal(c.Config)
    writeConfig: Outcome,                       // os.WriteFile(CLI config)
    stop: Outcome,
    status: Outcome,
    configure: Outcome,
    use: Outcome,
    start: Outcome,
    healthAddr: string,                         // cfg.HealthService()
    healthDial: bool,
    healthReplies: nat -> Health.CheckReply,
    retryBudget: nat,
    modelListen: Option<string>,                // the "model" service's gRPC listen address
    serving: string -> bool,                    // c.IsServing(host)
    newClient: DirectoryConfig -> Outcome,      // clients.NewDirectoryClient for a configuration
    deleteRpc: Outcome,
    setRpc: Outcome,
    getRpc: Outcome,
    open: string -> Outcome,                    // os.Open(path)
    create: string -> Outcome,                  // os.Create(path)
    copy: Outcome,                              // io.Copy(sink, manifest)
    absURL: string -> string,                   // tmpl.AbsURL
    fileExists: string -> bool,                   // config.FileExists
    download: (string, string) -> Result<string>,  // download(url, dir): the local file
    importDir: string -> Outcome,               // topaz import of a directory
    testExec: string -> Outcome,                // topaz test exec of a file
    console: Outcome)

  /** What a call returns, given the world's answers. */
  ghost function OutcomeOf(w: World, e: Event): Outcome {
    match e
    case FetchTemplate(_, _) => if w.template.Err? then Fail(w.template.error) else Pass
    case Prompt(_) => Pass
    case MakeDir(_) => w.mkdir
    case WriteCLIConfig(_, _) => w.writeConfig
    case Stop(_, _) => w.stop
    case Status => w.status
    case Configure(_, _, _) => w.configure
    case Use(_, _) => w.use
    case Start(_, _) => w.start
    case HealthProbe(_, _) =>
      if Health.Verdict(w.healthDial, w.healthReplies, w.retryBudget) then Pass else Fail(EndpointNotServing)
    case ServingCheck(h) => if w.serving(h) then Pass else Fail(NotServing(h))
    case NewClient(cfg) => w.newClient(cfg)
    case DeleteManifestRpc => w.deleteRpc
    case OpenFile(p) => w.open(p)
    case SetManifestRpc(_) => w.setRpc
    case GetManifestRpc => w.getRpc
    case CreateFile(p) => w.create(p)
    case CopyManifest(_) => w.copy
    case Download(u, d) => if w.download(u, d).Err? then Fail(w.download(u, d).error) else Pass
    case Import(d) => w.importDir(d)
    case TestExec(f) => w.testExec(f)
    case Console(_) => w.console
  }

  ghost predicate Fails(w: World, e: Event) {
    OutcomeOf(w, e).Fail?
  }

  /** The error a failing call reports. */
  ghost function ErrorOf(w: World, e: Event): Error
    requires Fails(w, e)
  {
    OutcomeOf(w, e).error
  }

  /** The events a command issued and the error it returned. */
  datatype Log = Log(trace: seq<Event>, out: Outcome)

  const Done := Log([], Pass)

  /** A single call, returning its error. */
  ghost function Step(w: World, e: Event): Log {
    Log([e], OutcomeOf(w, e))
  }

  /** `a` then, unless it failed, `b`. */
  function Then(a: Log, b: Log): Log {
    if a.out.Fail? then a else Log(a.trace + b.trace, b.out)
  }

  /** The calls a command is made of, as data: `Seq(a, b)` runs `a` then, unless it
      failed, `b`; `Return(o)` returns `o` without a call. */
  datatype Script = Nop | Call(e: Event) | Return(out: Outcome) | Seq(first: Script, rest: Script)

  /** What a script does in a world. */
  ghost function Exec(w: World, s: Script): Log
    decreases s
  {
    match s
    case Nop => Done
    case Call(e) => Step(w, e)
    case Return(o) => Log([], o)
    case Seq(a, b) => Then(Exec(w, a), Exec(w, b))
  }

  /** All the calls a script may issue, in order, whatever the world answers. */
  function Calls(s: Script): seq<Event>
    decreases s
  {
    match s
    case Nop => []
    case Call(e) => [e]
    case Return(_) => []
    case Seq(a, b) => Calls(a) + Calls(b)
  }

  /** Appending one event to a trace that extends `a`. */
  lemma AppendAssoc(a: seq<Event>, b: seq<Event>, e: Event)
    ensures a + b + [e] == a + (b + [e])
  {
  }

  lemma SeqPasses(t: seq<Event>, w: World, a: Script, b: Script)
    requires Exec(w, a).out.Pass?
    ensures t + Exec(w, Seq(a, b)).trace == t + Exec(w, a).trace + Exec(w, b).trace
    ensures Exec(w, Seq(a, b)).out == Exec(w, b).out
  {
    assert t + (Exec(w, a).trace + Exec(w, b).trace) == t + Exec(w, a).trace + Exec(w, b).trace;
  }

  lemma SeqFails(t: seq<Event>, w: World, a: Script, b: Script)
    requires Exec(w, a).out.Fail?
    ensures t + Exec(w, Seq(a, b)).trace == t + Exec(w, a).trace
    ensures Exec(w, Seq(a, b)).out == Exec(w, a).out
  {
  }

  /** Issuing the first call of `Seq(Call(e), rest)` leaves `rest` to run, when `e` passes. */
  lemma Advance(t: seq<Event>, w: World, e: Event, rest: Script)
    requires OutcomeOf(w, e).Pass?
    ensures t + Exec(w, Seq(Call(e), rest)).trace == (t + [e]) + Exec(w, rest).trace
    ensures Exec(w, Seq(Call(e), rest)).out == Exec(w, rest).out
  {
    SeqPasses(t, w, Call(e), rest);
  }

  /** ... and ends the script when `e` fails. */
  lemma Abort(t: seq<Event>, w: World, e: Event, rest: Script)
    requires OutcomeOf(w, e).Fail?
    ensures t + Exec(w, Seq(Call(e), rest)).trace == t + [e]
    ensures Exec(w, Seq(Call(e), rest)).out == OutcomeOf(w, e)
  {
  }

  // ---------------------------------------------------------------------------
  // Abort on first error

  /** No call follows a failing one, when the last call failed its error is the
      command's error, and a command that succeeds made no failing call. */
  ghost predicate Consistent(w: World, l: Log) {
    && (forall k :: 0 <= k < |l.trace| - 1 ==> !Fails(w, l.trace[k]))
    && (|l.trace| > 0 && Fails(w, l.trace[|l.trace| - 1]) ==> l.out == Fail(ErrorOf(w, l.trace[|l.trace| - 1])))
    && (l.out.Pass? ==> forall k :: 0 <= k < |l.trace| ==> !Fails(w, l.trace[k]))
  }

  lemma StepConsistent(w: World, e: Event)
    ensures Consistent(w, Step(w, e))
  {
  }

  /** Sequencing two commands keeps the abort-on-first-error discipline. */
  lemma ThenConsistent(w: World, a: Log, b: Log)
    requires Consistent(w, a) && Consistent(w, b)
    ensures Consistent(w, Then(a, b))
  {
    if a.out.Pass? {
      var t := a.trace + b.trace;
      forall k | 0 <= k < |t| - 1
        ensures !Fails(w, t[k])
      {
        if k >= |a.trace| {
          assert t[k] == b.trace[k - |a.trace|];
        }
      }
      if |b.trace| > 0 {
        assert t[|t| - 1] == b.trace[|b.trace| - 1];
      }
      if b.out.Pass? {
        forall k | 0 <= k < |t|
          ensures !Fails(w, t[k])
        {
          if k >= |a.trace| {
            assert t[k] == b.trace[k - |a.trace|];
          }
        }
      }
    }
  }

  /** Every script aborts on its first failing call and reports that call's error. */
  lemma {:induction false} ExecConsistent(w: World, s: Script)
    ensures Consistent(w, Exec(w, s))
    decreases s
  {
    match s
    case Nop =>
    case Call(e) =>
      StepConsistent(w, e);
    case Return(_) =>
    case Seq(a, b) =>
      ExecConsistent(w, a);
      ExecConsistent(w, b);
      ThenConsistent(w, Exec(w, a), Exec(w, b));
  }

  /** What a script issues is a prefix of the calls it is made of. */
  lemma {:induction false} ExecIsPrefix(w: World, s: Script)
    ensures Exec(w, s).trace <= Calls(s)
    decreases s
  {
    match s
    case Nop =>
    case Call(_) =>
    case Return(_) =>
    case Seq(a, b) =>
      ExecIsPrefix(w, a);
      ExecIsPrefix(w, b);
      if Exec(w, a).out.Pass? {
        ExecPassIssuesAll(w, a);
        assert Exec(w, s).trace == Calls(a) + Exec(w, b).trace;
      }
  }

  /** A script that succeeds issued all its calls. */
  lemma {:induction false} ExecPassIssuesAll(w: World, s: Script)
    requires Exec(w, s).out.Pass?
    ensures Exec(w, s).trace == Calls(s)
    decreases s
  {
    match s
    case Nop =>
    case Call(_) =>
    case Return(_) =>
    case Seq(a, b) =>
      ExecPassIssuesAll(w, a);
      ExecPassIssuesAll(w, b);
  }

  // ---------------------------------------------------------------------------
  // Phase order

  /** The position of a call in the installation's phase order; -1 for calls that
      belong to several phases (connection checks, downloads, file access). */
  function Rank(e: Event): int {
    match e
    case FetchTemplate(_, _) => 0
    case Prompt(_) => 1
    case MakeDir(_) => 2
    case WriteCLIConfig(_, _) => 3
    case Stop(_, _) => 4
    case Status => 5
    case Configure(_, _, _) => 6
    case Use(_, _) => 7
    case Start(_, _) => 8
    case HealthProbe(_, _) => 9
    case DeleteManifestRpc => 10
    case SetManifestRpc(_) => 11
    case Import(_) => 12
    case TestExec(_) => 13
    case Console(_) => 14
    case _ => -1
  }

  /** Calls a phase may issue more than once. */
  predicate Repeatable(e: Event) {
    e.Import? || e.TestExec?
  }

  /** Ranked calls appear in phase order, and only repeatable calls share a rank. */
  ghost predicate Ordered(t: seq<Event>) {
    forall i, j :: 0 <= i < j < |t| && Rank(t[i]) >= 0 && Rank(t[j]) >= 0 ==>
      Rank(t[i]) < Rank(t[j]) || (Rank(t[i]) == Rank(t[j]) && Repeatable(t[i]))
  }

  ghost predicate RanksWithin(t: seq<Event>, lo: int, hi: int) {
    forall i :: 0 <= i < |t| && Rank(t[i]) >= 0 ==> lo <= Rank(t[i]) <= hi
  }

  lemma AppendOrdered(a: seq<Event>, b: seq<Event>, lo: int, mid: int, hi: int)
    requires Ordered(a) && Ordered(b)
    requires RanksWithin(a, lo, mid) && RanksWithin(b, mid + 1, hi)
    requires lo <= mid + 1 && mid <= hi
    ensures Ordered(a + b) && RanksWithin(a + b, lo, hi)
  {
    var t := a + b;
    forall i, j | 0 <= i < j < |t| && Rank(t[i]) >= 0 && Rank(t[j]) >= 0
      ensures Rank(t[i]) < Rank(t[j]) || (Rank(t[i]) == Rank(t[j]) && Repeatable(t[i]))
    {
      if j < |a| {
      } else if i >= |a| {
        assert t[i] == b[i - |a|] && t[j] == b[j - |a|];
      } else {
        assert t[j] == b[j - |a|];
      }
    }
    forall i | 0 <= i < |t| && Rank(t[i]) >= 0
      ensures lo <= Rank(t[i]) <= hi
    {
      if i >= |a| {
        assert t[i] == b[i - |a|];
      }
    }
  }

  lemma OrderedPrefix(t: seq<Event>, u: seq<Event>)
    requires u <= t && Ordered(t)
    ensures Ordered(u)
  {
    assert forall i :: 0 <= i < |u| ==> u[i] == t[i];
  }

  // ---------------------------------------------------------------------------
  // The directory service's state

  /** What the directory holds: the manifest last set (by where it was read from) and
      the directories imported since the last reset. */
  datatype Store = Store(manifest: Option<Source>, imported: set<string>)

  /** The effect of one call on the directory; a failing call changes nothing. */
  ghost function StoreStep(w: World, s: Store, e: Event): Store {
    if Fails(w, e) then s
    else
      match e
      case DeleteManifestRpc => Store(None, {})
      case SetManifestRpc(src) => s.(manifest := Some(src))
      case Import(d) => s.(imported := s.imported + {d})
      case _ => s
  }

  ghost function Apply(w: World, s: Store, t: seq<Event>): Store
    decreases |t|
  {
    if t == [] then s else StoreStep(w, Apply(w, s, t[..|t| - 1]), t[|t| - 1])
  }

  lemma {:induction false} ApplyAppend(w: World, s: Store, a: seq<Event>, b: seq<Event>)
    ensures Apply(w, s, a + b) == Apply(w, Apply(w, s, a), b)
    decreases |b|
  {
    if b == [] {
      assert a + b == a;
    } else {
      assert (a + b)[..|a + b| - 1] == a + b[..|b| - 1];
      ApplyAppend(w, s, a, b[..|b| - 1]);
    }
  }

  /** Calls that neither delete, set nor import leave the directory as it was. */
  predicate Inert(e: Event) {
    !e.DeleteManifestRpc? && !e.SetManifestRpc? && !e.Import?
  }

  lemma {:induction false} ApplyInert(w: World, s: Store, t: seq<Event>)
    requires forall k :: 0 <= k < |t| ==> Inert(t[k])
    ensures Apply(w, s, t) == s
    decreases |t|
  {
    if t != [] {
      ApplyInert(w, s, t[..|t| - 1]);
    }
  }

  // ---------------------------------------------------------------------------

  /** cc.CommonCtx together with everything it reaches: the world's answers, the trace
      of calls made so far, and the CLI configuration the commands update. */
  class Cli {
    const w: World
    ghost const initial: Store
    var trace: seq<Event>
    var config: CLIConfig

    constructor (w: World, ghost initial: Store, config: CLIConfig)
      ensures this.w == w && this.initial == initial
      ensures trace == [] && this.config == config
    {
      this.w := w;
      this.initial := initial;
      this.trace := [];
      this.config := config;
    }

    /** The directory service's state after the calls made so far. */
    ghost function Directory(): Store
      reads this
    {
      Apply(w, initial, trace)
    }

    /** Records one call. */
    method Emit(e: Event)
      modifies this
      ensures trace == old(trace) + [e] && config == old(config)
    {
      trace := trace + [e];
    }
  }
}
