/**
 * The decision logic of `main`: from the argument count, the option word,
 * the membership test and the parent lookup to the one action taken and the
 * exit status. Signals are recorded as actions, not sent.
 */
module Dispatch {
  import opened Wrappers
  import opened ProcessInfo
  import opened Ancestry

  datatype Signal = SIGKILL | SIGSTOP

  datatype Action =
    | PrintUsage                        // wrong argument count
    | Send(sig: Signal, target: int)    // kill(target, sig)
    | ReportZombieStatus(pid: int)      // -zs
    | ListNonDirect(pid: int)           // -xn
    | ListImmediate(pid: int)           // -xd
    | ListSiblings(pid: int)            // -xs
    | ContinuePaused(root: int)         // -xc
    | ListDefunct(pid: int)             // -xz
    | ListGrandchildren(pid: int)       // -xg
    | RejectOption                      // "Invalid option."
    | ReportOutsideTree                 // "Process does not belong to the process tree."
    | PrintIds(pid: int, ppid: int)     // "PID: ... PPID: ..."
    | ReportNotInTree                   // "Does not belong to the process tree"

  datatype Decision = Decision(action: Action, exitCode: int)

  /** The ten option words `main` recognises. */
  const Options: seq<string> := ["-rp", "-pr", "-zs", "-xt", "-xn", "-xd", "-xs", "-xc", "-xz", "-xg"]

  /** The action an option word selects for a member of the tree; `None` for an unknown word. */
  function OptionAction(option: string, processID: int, rootProcess: int): (a: Option<Action>)
    ensures a.Some? <==> option in Options
    ensures a.Some? && a.value.Send? <==> option in ["-rp", "-pr", "-xt"]
    ensures a.Some? && a.value.Send? ==>
              a == Some(Send(if option == "-xt" then SIGSTOP else SIGKILL,
                             if option == "-pr" then rootProcess else processID))
    ensures option == "-zs" ==> a == Some(ReportZombieStatus(processID))
    ensures option == "-xn" ==> a == Some(ListNonDirect(processID))
    ensures option == "-xd" ==> a == Some(ListImmediate(processID))
    ensures option == "-xs" ==> a == Some(ListSiblings(processID))
    ensures option == "-xz" ==> a == Some(ListDefunct(processID))
    ensures option == "-xg" ==> a == Some(ListGrandchildren(processID))
    // -xc is the one listing option that acts on the root, not on the process.
    ensures option == "-xc" ==> a == Some(ContinuePaused(rootProcess))
  {
    if option == "-rp" then Some(Send(SIGKILL, processID))
    else if option == "-pr" then Some(Send(SIGKILL, rootProcess))
    else if option == "-zs" then Some(ReportZombieStatus(processID))
    else if option == "-xt" then Some(Send(SIGSTOP, processID))
    else if option == "-xn" then Some(ListNonDirect(processID))
    else if option == "-xd" then Some(ListImmediate(processID))
    else if option == "-xs" then Some(ListSiblings(processID))
    else if option == "-xc" then Some(ContinuePaused(rootProcess))
    else if option == "-xz" then Some(ListDefunct(processID))
    else if option == "-xg" then Some(ListGrandchildren(processID))
    else None
  }

  /**
   * main, after `atoi` has read the two ids. `option` is argv[3] (looked at
   * only when argc is 4), `belongs` the value of BelongsToProcessTree,
   * `parentID` the value of GetParentPID for the process.
   */
  function Decide(argc: int, processID: int, rootProcess: int, option: string, belongs: int, parentID: int): (d: Decision)
    ensures d.exitCode == 0 || d.exitCode == 1
    ensures d.exitCode == 1 <==>
              (argc != 3 && argc != 4) || (argc == 4 && belongs != 0 && option !in Options)
    ensures argc == 4 && belongs == 0 ==> d == Decision(ReportOutsideTree, 0)
    ensures argc == 3 ==> (d.action.PrintIds? <==> parentID != -1 && belongs != 0)
    ensures d.action.Send? ==>
              argc == 4 && belongs != 0 && (d.action.target == processID || d.action.target == rootProcess)
    ensures argc != 3 && argc != 4 ==> d.action == PrintUsage
    ensures argc == 4 && belongs != 0 && option in Options ==>
              d == Decision(OptionAction(option, processID, rootProcess).value, 0)
    ensures argc == 4 && belongs != 0 && option !in Options ==> d.action == RejectOption
    ensures argc == 3 && !d.action.PrintIds? ==> d.action == ReportNotInTree
    ensures d.action.PrintIds? ==> d.action == PrintIds(processID, parentID)
  {
    if argc != 4 && argc != 3 then Decision(PrintUsage, 1)
    else if argc == 4 then
      if belongs != 0 then
        match OptionAction(option, processID, rootProcess)
        case Some(a) => Decision(a, 0)
        case None => Decision(RejectOption, 1)
      else Decision(ReportOutsideTree, 0)
    else if parentID != -1 && belongs != 0 then Decision(PrintIds(processID, parentID), 0)
    else Decision(ReportNotInTree, 0)
  }

  /**
   * With the membership and the parent id read from the same table, every
   * signal goes to the root or to a process whose strict ancestors include
   * the root.
   */
  lemma SignalsStayInTree(os: Snapshot, rank: map<int, nat>, argc: int, pid: int, root: int, option: string)
    requires Ranked(os, rank)
    ensures var d := Decide(argc, pid, root, option, BelongsToProcessTree(os, rank, pid, root), ParentOf(os, pid));
            d.action.Send? ==> d.action.target == root || root in Ancestors(os, rank, d.action.target)
  {
    BelongsIffAncestor(os, rank, pid, root);
  }

  /**
   * Without an option, the ids are printed exactly for a member of the tree:
   * the separate test of the parent id never changes the outcome.
   */
  lemma {:induction false} PrintIdsIffMember(os: Snapshot, rank: map<int, nat>, pid: int, root: int, option: string)
    requires Ranked(os, rank)
    ensures Decide(3, pid, root, option, BelongsToProcessTree(os, rank, pid, root), ParentOf(os, pid)).action.PrintIds?
            <==> root in Ancestors(os, rank, pid)
  {
    BelongsIffAncestor(os, rank, pid, root);
  }

  /** What `-zs` prints for a value of IsZombie. */
  datatype ZombieVerdict = Defunct | NotDefunct | CheckFailed

  function ZombieStatusVerdict(zombieStatus: int): (v: ZombieVerdict)
    ensures v == Defunct <==> zombieStatus == 1
    ensures v == NotDefunct <==> zombieStatus == 0
    ensures v == CheckFailed <==> zombieStatus != 0 && zombieStatus != 1
  {
    if zombieStatus == 1 then Defunct
    else if zombieStatus == 0 then NotDefunct
    else CheckFailed
  }

  /**
   * `-zs` reports an error exactly when the status file cannot be opened,
   * and "Defunct." exactly when the state word contains `Z`.
   */
  lemma ZombieStatusMeaning(os: Snapshot, pid: int)
    ensures ZombieStatusVerdict(ZombieCode(StatusFile(os, pid))) == CheckFailed <==> pid !in os.status
    ensures ZombieStatusVerdict(ZombieCode(StatusFile(os, pid))) == Defunct <==> ShowsZombie(os, pid)
  {
  }
}
