/**
 * `BelongsToProcessTree`: the walk up the parent links of the process
 * table. The C function recurses on `GetParentPID` with no guard against a
 * cycle; here a ghost `rank`, strictly smaller at every parent, stands for
 * the acyclicity of a live process table and makes the walk terminate.
 */
module Ancestry {
  import opened Wrappers
  import opened ProcessInfo

  /** The parent id the status file of `pid` gives, -1 when it gives none. */
  function ParentOf(os: Snapshot, pid: int): int {
    ParentPid(StatusFile(os, pid))
  }

  /**
   * `rank` orders the table: every process with a parent has a rank, and so
   * has its parent, with a strictly smaller one. No chain of parent links
   * can then come back to where it started.
   */
  ghost predicate Ranked(os: Snapshot, rank: map<int, nat>) {
    forall p :: ParentOf(os, p) != -1 ==>
      p in rank && ParentOf(os, p) in rank && rank[ParentOf(os, p)] < rank[p]
  }

  function Height(rank: map<int, nat>, pid: int): nat {
    if pid in rank then rank[pid] else 0
  }

  /**
   * BelongsToProcessTree: 1 when `root` is reached by following parent
   * links upwards from `pid`, before a parent id can no longer be read;
   * `pid` itself is never compared with `root`.
   */
  function BelongsToProcessTree(os: Snapshot, ghost rank: map<int, nat>, pid: int, root: int): (r: int)
    requires Ranked(os, rank)
    ensures r == 0 || r == 1
    decreases Height(rank, pid)
  {
    var parentID := ParentOf(os, pid);
    if parentID == -1 then 0
    else if parentID == root || BelongsToProcessTree(os, rank, parentID, root) == 1 then 1
    else 0
  }

  /**
   * The strict ancestors of `pid`, nearest first: the chain of parent ids
   * up to (not including) the first -1.
   */
  function Ancestors(os: Snapshot, ghost rank: map<int, nat>, pid: int): (chain: seq<int>)
    requires Ranked(os, rank)
    ensures forall i :: 0 <= i < |chain| ==> chain[i] != -1
    ensures chain == [] <==> ParentOf(os, pid) == -1
    ensures chain != [] ==> chain[0] == ParentOf(os, pid)
    ensures |chain| <= Height(rank, pid)
    decreases Height(rank, pid)
  {
    var parentID := ParentOf(os, pid);
    if parentID == -1 then [] else [parentID] + Ancestors(os, rank, parentID)
  }

  /** Each ancestor is the parent of the one before it. */
  lemma {:induction false} AncestorsFollowParents(os: Snapshot, rank: map<int, nat>, pid: int)
    requires Ranked(os, rank)
    ensures forall i :: 0 <= i < |Ancestors(os, rank, pid)| - 1 ==>
              Ancestors(os, rank, pid)[i + 1] == ParentOf(os, Ancestors(os, rank, pid)[i])
    decreases Height(rank, pid)
  {
    var parentID := ParentOf(os, pid);
    if parentID != -1 {
      AncestorsFollowParents(os, rank, parentID);
      var rest := Ancestors(os, rank, parentID);
      var chain := Ancestors(os, rank, pid);
      assert chain == [parentID] + rest;
      forall i | 0 <= i < |chain| - 1
        ensures chain[i + 1] == ParentOf(os, chain[i])
      {
        assert chain[i + 1] == rest[i];
        if i > 0 {
          assert chain[i] == rest[i - 1];
        }
      }
    }
  }

  /** The last ancestor is one whose parent cannot be read. */
  lemma {:induction false} AncestorsEndAtTop(os: Snapshot, rank: map<int, nat>, pid: int)
    requires Ranked(os, rank)
    ensures var chain := Ancestors(os, rank, pid);
            chain != [] ==> ParentOf(os, chain[|chain| - 1]) == -1
    decreases Height(rank, pid)
  {
    var parentID := ParentOf(os, pid);
    if parentID != -1 {
      AncestorsEndAtTop(os, rank, parentID);
      var rest := Ancestors(os, rank, parentID);
      var chain := [parentID] + rest;
      assert Ancestors(os, rank, pid) == chain;
      if rest == [] {
        assert chain[|chain| - 1] == parentID;
      } else {
        assert chain[|chain| - 1] == rest[|rest| - 1];
      }
    }
  }

  /** Membership is exactly "root is a strict ancestor of pid". */
  lemma {:induction false} BelongsIffAncestor(os: Snapshot, rank: map<int, nat>, pid: int, root: int)
    requires Ranked(os, rank)
    ensures BelongsToProcessTree(os, rank, pid, root) == 1 <==> root in Ancestors(os, rank, pid)
    decreases Height(rank, pid)
  {
    var parentID := ParentOf(os, pid);
    if parentID != -1 {
      BelongsIffAncestor(os, rank, parentID, root);
    }
  }

  /** A member of the tree sits strictly above the root in any ranking. */
  lemma {:induction false} MemberOutranksRoot(os: Snapshot, rank: map<int, nat>, pid: int, root: int)
    requires Ranked(os, rank)
    requires BelongsToProcessTree(os, rank, pid, root) == 1
    ensures pid in rank && root in rank && rank[root] < rank[pid]
    decreases Height(rank, pid)
  {
    var parentID := ParentOf(os, pid);
    if parentID != root {
      MemberOutranksRoot(os, rank, parentID, root);
    }
  }

  /** No process belongs to the tree rooted at itself. */
  lemma NotInOwnTree(os: Snapshot, rank: map<int, nat>, root: int)
    requires Ranked(os, rank)
    ensures BelongsToProcessTree(os, rank, root, root) == 0
  {
    if BelongsToProcessTree(os, rank, root, root) == 1 {
      MemberOutranksRoot(os, rank, root, root);
    }
  }

  /** A member of a member's tree is a member. */
  lemma {:induction false} BelongsTransitive(os: Snapshot, rank: map<int, nat>, pid: int, mid: int, root: int)
    requires Ranked(os, rank)
    requires BelongsToProcessTree(os, rank, pid, mid) == 1
    requires BelongsToProcessTree(os, rank, mid, root) == 1
    ensures BelongsToProcessTree(os, rank, pid, root) == 1
    decreases Height(rank, pid)
  {
    var parentID := ParentOf(os, pid);
    if parentID != mid {
      BelongsTransitive(os, rank, parentID, mid, root);
    }
  }

  /** The answer does not depend on which ranking witnesses acyclicity. */
  lemma {:induction false} BelongsIgnoresRank(os: Snapshot, rank: map<int, nat>, rank': map<int, nat>, pid: int, root: int)
    requires Ranked(os, rank) && Ranked(os, rank')
    ensures BelongsToProcessTree(os, rank, pid, root) == BelongsToProcessTree(os, rank', pid, root)
    decreases Height(rank, pid)
  {
    var parentID := ParentOf(os, pid);
    if parentID != -1 {
      BelongsIgnoresRank(os, rank, rank', parentID, root);
    }
  }
}
