/** CommonCtx.CheckRunStatus (pkg/cli/cc/cc.go): does the instance's container match
    the expected run status? The docker query is the parameter `isRunning`, and the
    default container name it falls back to is the parameter `defaultName`. */
module RunStatusCheck {

  import opened Base

  datatype RunStatus = StatusNotRunning | StatusRunning

  /** The container asked about: the default when none is given. */
  function Queried(containerName: string, defaultName: string): string {
    if containerName == "" then defaultName else containerName
  }

  function CheckRunStatus(noCheck: bool, containerName: string, expected: RunStatus,
                          defaultName: string, isRunning: string -> Result<bool>): (r: bool)
    ensures noCheck ==> !r
    ensures isRunning(Queried(containerName, defaultName)).Err? ==> !r
    ensures r <==> !noCheck && isRunning(Queried(containerName, defaultName)).Ok? &&
                   (isRunning(Queried(containerName, defaultName)).value <==> expected == StatusRunning)
  {
    if noCheck then false
    else
      var name := if containerName == "" then defaultName else containerName;
      match isRunning(name)
      case Err(_) => false
      case Ok(running) => (if running then StatusRunning else StatusNotRunning) == expected
  }

  /** Asking about no container is asking about the default one. */
  lemma EmptyNameMeansDefault(noCheck: bool, expected: RunStatus, defaultName: string,
                              isRunning: string -> Result<bool>)
    ensures CheckRunStatus(noCheck, "", expected, defaultName, isRunning)
         == CheckRunStatus(noCheck, defaultName, expected, defaultName, isRunning)
  {
  }

  /** With the check enabled and the query answering, exactly one of the two statuses matches. */
  lemma ExactlyOneStatusMatches(containerName: string, defaultName: string, isRunning: string -> Result<bool>)
    requires isRunning(Queried(containerName, defaultName)).Ok?
    ensures CheckRunStatus(false, containerName, StatusRunning, defaultName, isRunning)
        != CheckRunStatus(false, containerName, StatusNotRunning, defaultName, isRunning)
  {
  }
}
