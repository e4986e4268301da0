/**
 * The relative enumerators of the utility. Each reads one child listing
 * (the output of `pgrep -P` or of the `pstree` pipeline), walks it in order,
 * prints some of its pids and keeps a flag that decides whether the
 * "none" message is printed at the end.
 */
module Relatives {
  import opened Wrappers
  import opened ProcessInfo
  import opened Ancestry

  /**
   * What an enumerator prints, apart from headings and wording:
   *  - `Listed(printed, saysNone)`: the listing was read to the end; the pids
   *    printed, in order, and whether the "none" message followed them;
   *  - `Aborted(printed)`: a lookup or a listing command failed; the pids
   *    printed before that, and no "none" message.
   */
  datatype Report = Listed(printed: seq<int>, saysNone: bool) | Aborted(printed: seq<int>)

  /** One step of ContinueAllPausedProcesses: send SIGCONT, or report that the child is not paused. */
  datatype Step = Resume(pid: int) | NotPaused(pid: int)

  /** The elements of `xs` that satisfy `keep`, in their order in `xs`. */
  function Filter(xs: seq<int>, keep: int -> bool): (r: seq<int>)
    ensures |r| <= |xs|
    ensures forall y :: y in r <==> y in xs && keep(y)
  {
    if xs == [] then []
    else
      var last := xs[|xs| - 1];
      Filter(xs[..|xs| - 1], keep) + (if keep(last) then [last] else [])
  }

  /** Filtering one more element of a prefix adds that element exactly when it is kept. */
  lemma FilterExtend(xs: seq<int>, i: nat, keep: int -> bool)
    requires i < |xs|
    ensures Filter(xs[..i + 1], keep) == Filter(xs[..i], keep) + if keep(xs[i]) then [xs[i]] else []
  {
    assert xs[..i + 1][..i] == xs[..i];
  }

  /** Filter sees its predicate only on the elements of `xs`. */
  lemma {:induction false} FilterCongruent(xs: seq<int>, keep: int -> bool, keep': int -> bool)
    requires forall y :: y in xs ==> keep(y) == keep'(y)
    ensures Filter(xs, keep) == Filter(xs, keep')
  {
    if xs != [] {
      FilterCongruent(xs[..|xs| - 1], keep, keep');
    }
  }

  /** ListSiblingProcesses keeps every listed pid but the process itself. */
  function Siblings(pid: int, listing: seq<int>): seq<int> {
    Filter(listing, c => c != pid)
  }

  /** ListNonDirectDescendants keeps the listed pids that are neither the process nor one whose parent is the process. */
  function NonDirect(os: Snapshot, pid: int, listing: seq<int>): seq<int> {
    Filter(listing, c => c != pid && ParentOf(os, c) != pid)
  }

  /** ListDefunctDescendants keeps the listed pids for which IsZombie is non-zero, i.e. true in C. */
  function Defunct(os: Snapshot, listing: seq<int>): seq<int> {
    Filter(listing, c => ZombieCode(StatusFile(os, c)) != 0)
  }

  /** Every pid in `cs` has a child listing. */
  predicate AllListed(os: Snapshot, cs: seq<int>) {
    forall i :: 0 <= i < |cs| ==> cs[i] in os.children
  }

  /** The child listings of `cs`, one after the other. */
  function Grandchildren(os: Snapshot, cs: seq<int>): seq<int>
    requires AllListed(os, cs)
  {
    if cs == [] then []
    else Grandchildren(os, cs[..|cs| - 1]) + os.children[cs[|cs| - 1]]
  }

  /** The position of the first pid in `cs` whose child listing `popen` fails, |cs| if none does. */
  function FirstUnlisted(os: Snapshot, cs: seq<int>): (k: nat)
    ensures k <= |cs|
    ensures AllListed(os, cs[..k])
    ensures k < |cs| ==> cs[k] !in os.children
  {
    if cs == [] || cs[0] !in os.children then 0
    else
      var k := 1 + FirstUnlisted(os, cs[1..]);
      assert forall i :: 1 <= i < k ==> cs[..k][i] == cs[1..][..k - 1][i - 1];
      k
  }

  /** ListImmediateDescendants: print the child listing as it is. */
  method ListImmediateDescendants(os: Snapshot, pid: int) returns (report: Report)
    ensures pid !in os.children ==> report == Aborted([])
    ensures pid in os.children ==> report == Listed(os.children[pid], os.children[pid] == [])
  {
    if pid !in os.children {
      return Aborted([]);
    }
    var listing := os.children[pid];
    var printed := [];
    var found := false;
    var i := 0;
    while i < |listing|
      invariant 0 <= i <= |listing|
      invariant printed == listing[..i]
      invariant found <==> i > 0
    {
      printed := printed + [listing[i]];
      found := true;
      i := i + 1;
    }
    report := Listed(printed, !found);
  }

  /**
   * ListSiblingProcesses: look up the parent, then print its child listing
   * without the process itself. The flag is set for every listed pid, the
   * process included, so an only child gets neither a sibling nor the
   * "none" message.
   */
  method ListSiblingProcesses(os: Snapshot, pid: int) returns (report: Report)
    ensures ParentOf(os, pid) == -1 ==> report == Aborted([])
    ensures ParentOf(os, pid) != -1 && ParentOf(os, pid) !in os.children ==> report == Aborted([])
    ensures ParentOf(os, pid) != -1 && ParentOf(os, pid) in os.children ==>
              var listing := os.children[ParentOf(os, pid)];
              report == Listed(Siblings(pid, listing), listing == [])
    ensures pid !in report.printed
  {
    var parentID := GetParentPID(os, pid);
    if parentID == -1 || parentID !in os.children {
      return Aborted([]);
    }
    var listing := os.children[parentID];
    var printed := [];
    var found := false;
    var i := 0;
    while i < |listing|
      invariant 0 <= i <= |listing|
      invariant printed == Siblings(pid, listing[..i])
      invariant found <==> i > 0
    {
      FilterExtend(listing, i, c => c != pid);
      if listing[i] != pid {
        printed := printed + [listing[i]];
      }
      found := true;
      i := i + 1;
    }
    assert listing[..i] == listing;
    report := Listed(printed, !found);
  }

  /**
   * ListNonDirectDescendants: print the pids of the subtree listing that
   * are not the process and whose parent is not the process. The flag is set
   * for every listed pid, printed or not.
   */
  method ListNonDirectDescendants(os: Snapshot, pid: int) returns (report: Report)
    ensures pid !in os.tree ==> report == Aborted([])
    ensures pid in os.tree ==> report == Listed(NonDirect(os, pid, os.tree[pid]), os.tree[pid] == [])
    ensures forall c :: c in report.printed ==> c != pid && ParentOf(os, c) != pid
  {
    if pid !in os.tree {
      return Aborted([]);
    }
    var listing := os.tree[pid];
    var printed := [];
    var found := false;
    var i := 0;
    while i < |listing|
      invariant 0 <= i <= |listing|
      invariant printed == NonDirect(os, pid, listing[..i])
      invariant found <==> i > 0
    {
      assert listing[..i + 1][..i] == listing[..i];
      var c := listing[i];
      var ppid := GetParentPID(os, c);
      if c != pid && ppid != pid {
        printed := printed + [c];
      }
      found := true;
      i := i + 1;
    }
    assert listing[..i] == listing;
    report := Listed(printed, !found);
  }

  /**
   * ListGrandchildren: for each child, in order, run the child listing of
   * that child and print all of it. An inner `popen` that fails ends the
   * enumeration at once, without the "none" message.
   */
  method ListGrandchildren(os: Snapshot, pid: int) returns (report: Report)
    ensures pid !in os.children ==> report == Aborted([])
    ensures pid in os.children ==>
              var cs := os.children[pid];
              var k := FirstUnlisted(os, cs);
              if k < |cs| then report == Aborted(Grandchildren(os, cs[..k]))
              else report == Listed(Grandchildren(os, cs), Grandchildren(os, cs) == [])
  {
    if pid !in os.children {
      return Aborted([]);
    }
    var cs := os.children[pid];
    var printed := [];
    var found := false;
    var i := 0;
    while i < |cs|
      invariant 0 <= i <= |cs|
      invariant AllListed(os, cs[..i])
      invariant printed == Grandchildren(os, cs[..i])
      invariant found <==> printed != []
    {
      if cs[i] !in os.children {
        FirstUnlistedIs(os, cs, i);
        return Aborted(printed);
      }
      var inner := os.children[cs[i]];
      var j := 0;
      while j < |inner|
        invariant 0 <= j <= |inner|
        invariant printed == Grandchildren(os, cs[..i]) + inner[..j]
        invariant found <==> printed != []
      {
        printed := printed + [inner[j]];
        found := true;
        j := j + 1;
      }
      assert inner[..j] == inner;
      GrandchildrenStep(os, cs, i);
      i := i + 1;
    }
    assert cs[..i] == cs;
    FirstUnlistedIs(os, cs, i);
    report := Listed(printed, !found);
  }

  /** One more listed child adds its own listing at the end. */
  lemma GrandchildrenStep(os: Snapshot, cs: seq<int>, i: nat)
    requires i < |cs| && AllListed(os, cs[..i]) && cs[i] in os.children
    ensures AllListed(os, cs[..i + 1])
    ensures Grandchildren(os, cs[..i + 1]) == Grandchildren(os, cs[..i]) + os.children[cs[i]]
  {
    assert cs[..i + 1][..i] == cs[..i];
  }

  /** FirstUnlisted is the one position where the listings stop working. */
  lemma FirstUnlistedIs(os: Snapshot, cs: seq<int>, k: nat)
    requires k <= |cs| && AllListed(os, cs[..k])
    requires k < |cs| ==> cs[k] !in os.children
    ensures FirstUnlisted(os, cs) == k
  {
  }

  /**
   * ListDefunctDescendants: print the children for which IsZombie is
   * non-zero. Since -1 ("cannot open the status file") is non-zero, a child
   * whose status cannot be read is printed too.
   */
  method ListDefunctDescendants(os: Snapshot, pid: int) returns (report: Report)
    requires pid in os.children ==> StatesReadable(os, os.children[pid])
    ensures pid !in os.children ==> report == Aborted([])
    ensures pid in os.children ==>
              report == Listed(Defunct(os, os.children[pid]), Defunct(os, os.children[pid]) == [])
    ensures forall c :: c in report.printed ==>
              c in os.children[pid] && (c !in os.status || ShowsZombie(os, c))
  {
    if pid !in os.children {
      return Aborted([]);
    }
    var listing := os.children[pid];
    var printed := [];
    var found := false;
    var i := 0;
    while i < |listing|
      invariant 0 <= i <= |listing|
      invariant printed == Defunct(os, listing[..i])
      invariant found <==> printed != []
    {
      FilterExtend(listing, i, c => ZombieCode(StatusFile(os, c)) != 0);
      var zombie := IsZombie(os, listing[i]);
      if zombie != 0 {
        printed := printed + [listing[i]];
        found := true;
      }
      i := i + 1;
    }
    assert listing[..i] == listing;
    report := Listed(printed, !found);
  }

  /**
   * ContinueAllPausedProcesses: for each child of the root, in order,
   * resume it when IsPaused says so and report it as not paused otherwise.
   * `None` when `popen` fails.
   */
  method ContinueAllPausedProcesses(os: Snapshot, root: int) returns (steps: Option<seq<Step>>)
    requires root in os.children ==> StatesReadable(os, os.children[root])
    ensures root !in os.children <==> steps.None?
    ensures root in os.children ==>
              |steps.value| == |os.children[root]| &&
              forall i :: 0 <= i < |os.children[root]| ==>
                var c := os.children[root][i];
                steps.value[i] == (if ShowsPaused(os, c) then Resume(c) else NotPaused(c))
  {
    if root !in os.children {
      return None;
    }
    var listing := os.children[root];
    var done := [];
    var i := 0;
    while i < |listing|
      invariant 0 <= i <= |listing|
      invariant |done| == i
      invariant forall j :: 0 <= j < i ==>
                  done[j] == (if ShowsPaused(os, listing[j]) then Resume(listing[j]) else NotPaused(listing[j]))
    {
      var paused := IsPaused(os, listing[i]);
      if paused != 0 {
        done := done + [Resume(listing[i])];
      } else {
        done := done + [NotPaused(listing[i])];
      }
      i := i + 1;
    }
    steps := Some(done);
  }

  /** `pgrep -P p` prints processes whose status names `p` as their parent. */
  ghost predicate ListingsAgree(os: Snapshot) {
    forall p, c :: p in os.children && c in os.children[p] ==> ParentOf(os, c) == p
  }

  /** `pgrep -P p` prints every process whose status names `p` as their parent. */
  ghost predicate ListingsComplete(os: Snapshot) {
    forall p, c :: p in os.children && ParentOf(os, c) == p ==> c in os.children[p]
  }

  /**
   * With faithful listings, the non-direct descendants are the subtree
   * listing without the process and without its immediate children.
   */
  lemma NonDirectExcludesChildren(os: Snapshot, pid: int, listing: seq<int>)
    requires ListingsAgree(os) && ListingsComplete(os)
    requires pid in os.children
    ensures NonDirect(os, pid, listing) == Filter(listing, c => c != pid && c !in os.children[pid])
  {
    FilterCongruent(listing, c => c != pid && ParentOf(os, c) != pid, c => c != pid && c !in os.children[pid]);
  }

  /** A printed sibling shares the process's parent, when the listings are faithful. */
  lemma SiblingsShareParent(os: Snapshot, pid: int)
    requires ListingsAgree(os)
    requires ParentOf(os, pid) != -1 && ParentOf(os, pid) in os.children
    ensures forall c :: c in Siblings(pid, os.children[ParentOf(os, pid)]) ==>
              c != pid && ParentOf(os, c) == ParentOf(os, pid)
  {
  }

  /** A pid in Grandchildren(os, cs) is exactly one listed under some pid of `cs`. */
  lemma {:induction false} GrandchildrenMembers(os: Snapshot, cs: seq<int>, g: int)
    requires AllListed(os, cs)
    ensures g in Grandchildren(os, cs) <==> exists i :: 0 <= i < |cs| && g in os.children[cs[i]]
  {
    if cs != [] {
      var front := cs[..|cs| - 1];
      assert AllListed(os, front);
      GrandchildrenMembers(os, front, g);
      assert forall i :: 0 <= i < |front| ==> front[i] == cs[i];
    }
  }

  /** With faithful listings, every printed grandchild has the process as its grandparent. */
  lemma GrandchildrenAreTwoLevelsDown(os: Snapshot, pid: int, g: int)
    requires ListingsAgree(os)
    requires pid in os.children && AllListed(os, os.children[pid])
    requires g in Grandchildren(os, os.children[pid])
    ensures ParentOf(os, ParentOf(os, g)) == pid
  {
    var cs := os.children[pid];
    GrandchildrenMembers(os, cs, g);
    var i :| 0 <= i < |cs| && g in os.children[cs[i]];
    assert ParentOf(os, g) == cs[i];
  }
}
