/** The directory manifest commands: get, set and delete the manifest of a running
    directory service. Each first checks that the service is serving and that a client
    can be created, then performs its one remote call. */
module Manifest {

  import opened Base
  import opened Effects

  datatype GetManifestCmd = GetManifestCmd(path: string, stdout: bool, cfg: DirectoryConfig)
  {
    /** Reads the manifest and copies it to the file at `path`, or to standard output
        when no path is given. */
    method Run(c: Cli) returns (r: Outcome)
      modifies c
      ensures c.trace == old(c.trace) + GetSpec(c.w, this).trace
      ensures r == GetSpec(c.w, this).out
      ensures c.config == old(c.config)
    {
      GetUnfolded(c.w, this);
      r := Connect(c, cfg);
      if r.Fail? {
        return;
      }
      c.Emit(GetManifestRpc);
      if c.w.getRpc.Fail? {
        return c.w.getRpc;
      }
      if path != "" {
        c.Emit(CreateFile(path));
        if c.w.create(path).Fail? {
          return c.w.create(path);
        }
      }
      c.Emit(CopyManifest(SinkOf(path)));
      return c.w.copy;
    }
  }

  datatype SetManifestCmd = SetManifestCmd(path: string, stdin: bool, cfg: DirectoryConfig)
  {
    /** Sends the manifest read from the file at `path`, or from standard input when no
        path is given. */
    method Run(c: Cli) returns (r: Outcome)
      modifies c
      ensures c.trace == old(c.trace) + SetSpec(c.w, this).trace
      ensures r == SetSpec(c.w, this).out
      ensures c.config == old(c.config)
    {
      SetUnfolded(c.w, this);
      r := Connect(c, cfg);
      if r.Fail? {
        return;
      }
      if path != "" {
        c.Emit(OpenFile(path));
        if c.w.open(path).Fail? {
          return c.w.open(path);
        }
      }
      c.Emit(SetManifestRpc(SourceOf(path)));
      return c.w.setRpc;
    }
  }

  datatype DeleteManifestCmd = DeleteManifestCmd(force: bool, cfg: DirectoryConfig)
  {
    /** Deletes the manifest, and with it all directory state, when forced or when the
        user confirms. */
    method Run(c: Cli) returns (r: Outcome)
      modifies c
      ensures c.trace == old(c.trace) + DeleteSpec(c.w, this).trace
      ensures r == DeleteSpec(c.w, this).out
      ensures c.config == old(c.config)
    {
      DeleteUnfolded(c.w, this);
      r := Connect(c, cfg);
      if r.Fail? {
        return;
      }
      var proceed := force;
      if !force {
        var answer := c.w.confirm;
        c.Emit(Prompt(answer));
        proceed := answer;
      }
      if proceed {
        c.Emit(DeleteManifestRpc);
        return c.w.deleteRpc;
      }
      return Pass;
    }
  }

  /** The sink GetManifest writes to, chosen by its path argument. */
  function SinkOf(path: string): (s: Sink)
    ensures s.Stdout? <==> path == ""
    ensures s.ToFile? ==> s.path == path
  {
    if path == "" then Stdout else ToFile(path)
  }

  /** The source SetManifest reads from, chosen by its path argument. */
  function SourceOf(path: string): (s: Source)
    ensures s.Stdin? <==> path == ""
    ensures s.FromFile? ==> s.path == path
  {
    if path == "" then Stdin else FromFile(path)
  }

  /** The guard every manifest command starts with: the service at the configured host
      is serving, then a directory client is created from the whole configuration. */
  function ConnectScript(cfg: DirectoryConfig): Script {
    Seq(Call(ServingCheck(cfg.host)), Call(NewClient(cfg)))
  }

  function GetScript(cmd: GetManifestCmd): Script {
    Seq(ConnectScript(cmd.cfg),
    Seq(Call(GetManifestRpc),
    Seq(if cmd.path == "" then Nop else Call(CreateFile(cmd.path)),
        Call(CopyManifest(SinkOf(cmd.path))))))
  }

  function SetScript(cmd: SetManifestCmd): Script {
    Seq(ConnectScript(cmd.cfg),
    Seq(if cmd.path == "" then Nop else Call(OpenFile(cmd.path)),
        Call(SetManifestRpc(SourceOf(cmd.path)))))
  }

  /** `confirm` is the user's answer to the prompt, asked only when not forced. */
  function DeleteScript(cmd: DeleteManifestCmd, confirm: bool): Script {
    Seq(ConnectScript(cmd.cfg),
        if cmd.force then Call(DeleteManifestRpc)
        else Seq(Call(Prompt(confirm)), if confirm then Call(DeleteManifestRpc) else Nop))
  }

  ghost function ConnectSpec(w: World, cfg: DirectoryConfig): Log {
    Exec(w, ConnectScript(cfg))
  }

  ghost function GetSpec(w: World, cmd: GetManifestCmd): Log {
    Exec(w, GetScript(cmd))
  }

  ghost function SetSpec(w: World, cmd: SetManifestCmd): Log {
    Exec(w, SetScript(cmd))
  }

  ghost function DeleteSpec(w: World, cmd: DeleteManifestCmd): Log {
    Exec(w, DeleteScript(cmd, w.confirm))
  }

  // The specifications as compositions of single steps.

  lemma ConnectUnfolded(w: World, cfg: DirectoryConfig)
    ensures ConnectSpec(w, cfg) == Then(Step(w, ServingCheck(cfg.host)), Step(w, NewClient(cfg)))
  {
    assert Exec(w, Call(ServingCheck(cfg.host))) == Step(w, ServingCheck(cfg.host));
    assert Exec(w, Call(NewClient(cfg))) == Step(w, NewClient(cfg));
  }

  lemma GetUnfolded(w: World, cmd: GetManifestCmd)
    ensures GetSpec(w, cmd) ==
      Then(ConnectSpec(w, cmd.cfg),
      Then(Step(w, GetManifestRpc),
      Then(if cmd.path == "" then Done else Step(w, CreateFile(cmd.path)),
           Step(w, CopyManifest(SinkOf(cmd.path))))))
  {
    var tail := Seq(if cmd.path == "" then Nop else Call(CreateFile(cmd.path)), Call(CopyManifest(SinkOf(cmd.path))));
    assert Exec(w, tail) == Then(if cmd.path == "" then Done else Step(w, CreateFile(cmd.path)),
                                 Step(w, CopyManifest(SinkOf(cmd.path))));
    assert Exec(w, Seq(Call(GetManifestRpc), tail)) == Then(Step(w, GetManifestRpc), Exec(w, tail));
  }

  lemma SetUnfolded(w: World, cmd: SetManifestCmd)
    ensures SetSpec(w, cmd) ==
      Then(ConnectSpec(w, cmd.cfg),
      Then(if cmd.path == "" then Done else Step(w, OpenFile(cmd.path)),
           Step(w, SetManifestRpc(SourceOf(cmd.path)))))
  {
    var tail := Seq(if cmd.path == "" then Nop else Call(OpenFile(cmd.path)), Call(SetManifestRpc(SourceOf(cmd.path))));
    assert Exec(w, tail) == Then(if cmd.path == "" then Done else Step(w, OpenFile(cmd.path)),
                                 Step(w, SetManifestRpc(SourceOf(cmd.path))));
  }

  lemma DeleteUnfolded(w: World, cmd: DeleteManifestCmd)
    ensures DeleteSpec(w, cmd) ==
      Then(ConnectSpec(w, cmd.cfg),
           if cmd.force then Step(w, DeleteManifestRpc)
           else Then(Log([Prompt(w.confirm)], Pass), if w.confirm then Step(w, DeleteManifestRpc) else Done))
  {
    var answer := if w.confirm then Call(DeleteManifestRpc) else Nop;
    assert Exec(w, answer) == if w.confirm then Step(w, DeleteManifestRpc) else Done;
    assert Exec(w, Seq(Call(Prompt(w.confirm)), answer)) == Then(Log([Prompt(w.confirm)], Pass), Exec(w, answer));
    var rest := if cmd.force then Call(DeleteManifestRpc) else Seq(Call(Prompt(w.confirm)), answer);
    assert Exec(w, Seq(ConnectScript(cmd.cfg), rest)) == Then(ConnectSpec(w, cmd.cfg), Exec(w, rest));
  }

  method Connect(c: Cli, cfg: DirectoryConfig) returns (r: Outcome)
    modifies c
    ensures c.trace == old(c.trace) + ConnectSpec(c.w, cfg).trace
    ensures r == ConnectSpec(c.w, cfg).out
    ensures c.config == old(c.config)
  {
    ConnectUnfolded(c.w, cfg);
    c.Emit(ServingCheck(cfg.host));
    if !c.w.serving(cfg.host) {
      return Fail(NotServing(cfg.host));
    }
    c.Emit(NewClient(cfg));
    return c.w.newClient(cfg);
  }

  // ---------------------------------------------------------------------------
  // Properties

  /** A service that is not serving stops every manifest command before any other call,
      with the not-serving error naming the host. */
  lemma NotServingStopsCommands(w: World, cfg: DirectoryConfig, path: string, flag: bool)
    requires !w.serving(cfg.host)
    ensures GetSpec(w, GetManifestCmd(path, flag, cfg)) == Log([ServingCheck(cfg.host)], Fail(NotServing(cfg.host)))
    ensures SetSpec(w, SetManifestCmd(path, flag, cfg)) == Log([ServingCheck(cfg.host)], Fail(NotServing(cfg.host)))
    ensures DeleteSpec(w, DeleteManifestCmd(flag, cfg)) == Log([ServingCheck(cfg.host)], Fail(NotServing(cfg.host)))
  {
    GetUnfolded(w, GetManifestCmd(path, flag, cfg));
    SetUnfolded(w, SetManifestCmd(path, flag, cfg));
    DeleteUnfolded(w, DeleteManifestCmd(flag, cfg));
    ConnectUnfolded(w, cfg);
  }

  /** When no client can be created, no command reaches the directory. */
  lemma ClientFailureStopsCommands(w: World, cfg: DirectoryConfig, path: string, flag: bool)
    requires w.serving(cfg.host) && w.newClient(cfg).Fail?
    ensures var l := Log([ServingCheck(cfg.host), NewClient(cfg)], w.newClient(cfg));
      && GetSpec(w, GetManifestCmd(path, flag, cfg)) == l
      && SetSpec(w, SetManifestCmd(path, flag, cfg)) == l
      && DeleteSpec(w, DeleteManifestCmd(flag, cfg)) == l
  {
    GetUnfolded(w, GetManifestCmd(path, flag, cfg));
    SetUnfolded(w, SetManifestCmd(path, flag, cfg));
    DeleteUnfolded(w, DeleteManifestCmd(flag, cfg));
    ConnectUnfolded(w, cfg);
  }

  /** The manifest is deleted exactly when the command reaches the directory and is
      either forced or confirmed; the user is asked exactly when it is not forced. */
  lemma DeleteOnlyWhenForcedOrConfirmed(w: World, cmd: DeleteManifestCmd)
    ensures var t := DeleteSpec(w, cmd).trace;
      var reached := w.serving(cmd.cfg.host) && w.newClient(cmd.cfg).Pass?;
      && (DeleteManifestRpc in t <==> reached && (cmd.force || w.confirm))
      && ((exists k :: 0 <= k < |t| && t[k].Prompt?) <==> reached && !cmd.force)
  {
    DeleteUnfolded(w, cmd);
    ConnectUnfolded(w, cmd.cfg);
    var t := DeleteSpec(w, cmd).trace;
    var h := cmd.cfg.host;
    if w.serving(h) && w.newClient(cmd.cfg).Pass? {
      if cmd.force {
        assert t == [ServingCheck(h), NewClient(cmd.cfg), DeleteManifestRpc];
      } else if w.confirm {
        assert t == [ServingCheck(h), NewClient(cmd.cfg), Prompt(true), DeleteManifestRpc];
        assert t[2].Prompt?;
      } else {
        assert t == [ServingCheck(h), NewClient(cmd.cfg), Prompt(false)];
        assert t[2].Prompt?;
      }
    } else if w.serving(h) {
      assert t == [ServingCheck(h), NewClient(cmd.cfg)];
    } else {
      assert t == [ServingCheck(h)];
    }
  }

  /** Declining the prompt succeeds and leaves the directory as it was. */
  lemma DeclinedDeleteKeepsDirectory(w: World, cmd: DeleteManifestCmd, s: Store)
    requires w.serving(cmd.cfg.host) && w.newClient(cmd.cfg).Pass?
    requires !cmd.force && !w.confirm
    ensures DeleteSpec(w, cmd).out == Pass
    ensures Apply(w, s, DeleteSpec(w, cmd).trace) == s
  {
    DeleteUnfolded(w, cmd);
    ConnectUnfolded(w, cmd.cfg);
    var t := DeleteSpec(w, cmd).trace;
    assert t == [ServingCheck(cmd.cfg.host), NewClient(cmd.cfg), Prompt(false)];
    ApplyInert(w, s, t);
  }

  /** A successful forced delete leaves an empty directory, whatever it held. */
  lemma ForcedDeleteResetsDirectory(w: World, cfg: DirectoryConfig, s: Store)
    requires DeleteSpec(w, DeleteManifestCmd(true, cfg)).out == Pass
    ensures Apply(w, s, DeleteSpec(w, DeleteManifestCmd(true, cfg)).trace) == Store(None, {})
  {
    DeleteUnfolded(w, DeleteManifestCmd(true, cfg));
    ConnectUnfolded(w, cfg);
    var t := DeleteSpec(w, DeleteManifestCmd(true, cfg)).trace;
    assert t == [ServingCheck(cfg.host), NewClient(cfg), DeleteManifestRpc];
    assert t[..2] == [ServingCheck(cfg.host), NewClient(cfg)];
  }

  /** SetManifest sends what it read from the path it was given (standard input for an
      empty path), and a successful run records that source as the directory's manifest.
      A file that cannot be opened is never sent. */
  lemma SetSendsItsSource(w: World, cmd: SetManifestCmd, s: Store)
    ensures forall src :: SetManifestRpc(src) in SetSpec(w, cmd).trace ==> src == SourceOf(cmd.path)
    ensures SetSpec(w, cmd).out == Pass ==>
      Apply(w, s, SetSpec(w, cmd).trace).manifest == Some(SourceOf(cmd.path))
    ensures cmd.path != "" && w.serving(cmd.cfg.host) && w.newClient(cmd.cfg).Pass? && w.open(cmd.path).Fail? ==>
      SetSpec(w, cmd) == Log([ServingCheck(cmd.cfg.host), NewClient(cmd.cfg), OpenFile(cmd.path)], w.open(cmd.path))
  {
    SetUnfolded(w, cmd);
    ConnectUnfolded(w, cmd.cfg);
    var t := SetSpec(w, cmd).trace;
    if SetSpec(w, cmd).out == Pass {
      assert t[|t| - 1] == SetManifestRpc(SourceOf(cmd.path));
    }
  }

  /** GetManifest copies to the sink its path selects, and creates a file only when a path
      is given. */
  lemma GetWritesToItsSink(w: World, cmd: GetManifestCmd)
    ensures forall snk :: CopyManifest(snk) in GetSpec(w, cmd).trace ==> snk == SinkOf(cmd.path)
    ensures cmd.path == "" ==> forall p :: CreateFile(p) !in GetSpec(w, cmd).trace
    ensures GetSpec(w, cmd).out == Pass ==> CopyManifest(SinkOf(cmd.path)) in GetSpec(w, cmd).trace
  {
    GetUnfolded(w, cmd);
    ConnectUnfolded(w, cmd.cfg);
    var t := GetSpec(w, cmd).trace;
    if GetSpec(w, cmd).out == Pass {
      assert t[|t| - 1] == CopyManifest(SinkOf(cmd.path));
    }
  }

  /** Every manifest command aborts on its first failing call and reports that call's error. */
  lemma CommandsAbortOnFirstError(w: World, g: GetManifestCmd, st: SetManifestCmd, d: DeleteManifestCmd)
    ensures Consistent(w, GetSpec(w, g))
    ensures Consistent(w, SetSpec(w, st))
    ensures Consistent(w, DeleteSpec(w, d))
  {
    ExecConsistent(w, GetScript(g));
    ExecConsistent(w, SetScript(st));
    ExecConsistent(w, DeleteScript(d, w.confirm));
  }
}
