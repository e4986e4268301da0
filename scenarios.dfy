/**
 * A small process table: init (1) has the shell 2 as its only child, and 2
 * has two children, the zombie 3 and the stopped 4; 1 itself hangs under 0,
 * which has no status file. The statements below are what the utility
 * reports about any table of that shape, and `Sample` is one such table,
 * written in the kernel's status-file layout.
 */
module Scenarios {
  import opened Wrappers
  import opened ProcessInfo
  import opened Ancestry
  import opened Relatives

  /** The state letter and parent of each process of the sample. */
  function SampleState(pid: int): char {
    if pid == 3 then 'Z' else if pid == 4 then 'T' else 'S'
  }

  function SampleParent(pid: int): int {
    if pid == 1 then 0 else if pid == 2 then 1 else if pid == 3 || pid == 4 then 2 else -1
  }

  /** The child and subtree listings `pgrep` and `pstree` give for the sample. */
  ghost predicate SampleListings(os: Snapshot) {
    0 in os.children && os.children[0] == [1] &&
    1 in os.children && os.children[1] == [2] &&
    2 in os.children && os.children[2] == [3, 4] &&
    3 in os.children && os.children[3] == [] &&
    4 in os.children && os.children[4] == [] &&
    1 in os.tree && os.tree[1] == [1, 2, 3, 4] &&
    2 in os.tree && os.tree[2] == [2, 3, 4]
  }

  /** The parent id GetParentPID reads for every pid is the sample's parent: -1 outside 1 to 4. */
  ghost predicate SampleParents(os: Snapshot) {
    forall p :: ParentOf(os, p) == SampleParent(p)
  }

  /** Exactly 1 to 4 have status files, and their `State:` lines give the sample's states. */
  ghost predicate SampleStates(os: Snapshot) {
    os.status.Keys == {1, 2, 3, 4} &&
    forall p | p in os.status :: StateToken(os.status[p]) == Some([SampleState(p)])
  }

  function SampleStatus(): map<int, seq<string>> {
    map p | p in {1, 2, 3, 4} :: KernelStatus("proc", SampleState(p), " (...)\n", SampleParent(p))
  }

  function Sample(): Snapshot {
    Snapshot(
      SampleStatus(),
      map[0 := [1], 1 := [2], 2 := [3, 4], 3 := [], 4 := []],
      map[1 := [1, 2, 3, 4], 2 := [2, 3, 4], 3 := [3], 4 := [4]])
  }

  lemma SampleHasListings()
    ensures SampleListings(Sample())
  {
  }

  lemma SampleStatusKeys()
    ensures SampleStatus().Keys == {1, 2, 3, 4}
  {
  }

  /** The `PPid:` lines of Sample, read by the utility, give the sample's parents. */
  lemma SampleHasParents()
    ensures SampleParents(Sample())
  {
    SampleStatusKeys();
    var os := Sample();
    forall p
      ensures ParentOf(os, p) == SampleParent(p)
    {
      if p in os.status {
        KernelStatusParent("proc", SampleState(p), " (...)\n", SampleParent(p));
      } else {
        assert !(1 <= p <= 4);
      }
    }
  }

  /** The `State:` lines of Sample, read by the utility, give the sample's states. */
  lemma SampleHasStates()
    ensures SampleStates(Sample())
  {
    SampleStatusKeys();
    var os := Sample();
    forall p | p in os.status
      ensures StateToken(os.status[p]) == Some([SampleState(p)])
    {
      KernelStatusState("proc", SampleState(p), " (...)\n", SampleParent(p));
    }
  }

  /** How many parent links separate a process of the sample from 0. */
  function SampleDepth(pid: int): nat {
    if pid <= 0 then 0 else if pid <= 2 then pid else 3
  }

  const SampleRank: map<int, nat> := map p | 0 <= p <= 4 :: SampleDepth(p)

  /** The parent links climb 3 -> 2 -> 1 -> 0 and stop: the table is ranked. */
  lemma SampleRanked(os: Snapshot)
    requires SampleParents(os)
    ensures Ranked(os, SampleRank)
  {
    forall p | ParentOf(os, p) != -1
      ensures p in SampleRank && ParentOf(os, p) in SampleRank
      ensures SampleRank[ParentOf(os, p)] < SampleRank[p]
    {
      SampleRankedAt(os, p);
    }
  }

  /** The sample's status table holds the processes 1 to 4 only. */
  lemma SampleIds(os: Snapshot, p: int)
    requires os.status.Keys == {1, 2, 3, 4}
    ensures p in os.status <==> 1 <= p <= 4
  {
    assert p in os.status <==> p in os.status.Keys;
  }

  lemma SampleRankedAt(os: Snapshot, p: int)
    requires SampleParents(os)
    requires ParentOf(os, p) != -1
    ensures p in SampleRank && ParentOf(os, p) in SampleRank
    ensures SampleRank[ParentOf(os, p)] < SampleRank[p]
  {
    RankDrops(p);
  }

  /** One parent link of the sample goes down in rank. */
  lemma RankDrops(p: int)
    requires 1 <= p <= 4
    ensures p in SampleRank && SampleParent(p) in SampleRank
    ensures SampleRank[SampleParent(p)] < SampleRank[p]
  {
  }

  /** 3 is in the tree of 1, through 2. */
  lemma SampleInTree(os: Snapshot)
    requires SampleParents(os)
    ensures Ranked(os, SampleRank)
    ensures BelongsToProcessTree(os, SampleRank, 3, 1) == 1
  {
    SampleRanked(os);
    assert BelongsToProcessTree(os, SampleRank, 2, 1) == 1;
  }

  /** 1 is neither in the tree of its descendant 3 nor in its own. */
  lemma SampleNotInTree(os: Snapshot)
    requires SampleParents(os)
    ensures Ranked(os, SampleRank)
    ensures BelongsToProcessTree(os, SampleRank, 1, 3) == 0
    ensures BelongsToProcessTree(os, SampleRank, 1, 1) == 0
  {
    SampleRanked(os);
    assert ParentOf(os, 0) == -1;
    assert BelongsToProcessTree(os, SampleRank, 0, 3) == 0;
    NotInOwnTree(os, SampleRank, 1);
  }

  /** One more step up the parent links. */
  lemma AncestorsStep(os: Snapshot, rank: map<int, nat>, pid: int, parent: int, rest: seq<int>)
    requires Ranked(os, rank)
    requires ParentOf(os, pid) == parent && parent != -1
    requires Ancestors(os, rank, parent) == rest
    ensures Ancestors(os, rank, pid) == [parent] + rest
  {
  }

  /** The ancestors of 3 are 2, 1 and 0, whose status file does not open. */
  lemma SampleAncestors(os: Snapshot)
    requires SampleParents(os)
    ensures Ranked(os, SampleRank)
    ensures Ancestors(os, SampleRank, 3) == [2, 1, 0]
  {
    SampleRanked(os);
    assert ParentOf(os, 0) == -1 && ParentOf(os, 1) == 0;
    assert ParentOf(os, 2) == 1 && ParentOf(os, 3) == 2;
    assert Ancestors(os, SampleRank, 0) == [];
    AncestorsStep(os, SampleRank, 1, 0, []);
    AncestorsStep(os, SampleRank, 2, 1, [0]);
    AncestorsStep(os, SampleRank, 3, 2, [1, 0]);
  }

  /** The siblings of 3 are [4]; the grandchildren of 1 are [3, 4]; the only child 2 of 1 has no sibling. */
  lemma SampleRelatives(os: Snapshot)
    requires SampleListings(os)
    ensures os.children[2] == [3, 4] && Siblings(3, os.children[2]) == [4]
    ensures os.children[1] == [2] && Siblings(2, os.children[1]) == []
    ensures AllListed(os, os.children[1])
    ensures Grandchildren(os, os.children[1]) == [3, 4]
  {
    assert [3, 4][..1] == [3];
    assert [3][..0] == [];
    assert [2][..0] == [];
  }

  /** NonDirectDescendants' test, with the sample's parents in place of the status files. */
  function SampleNonDirectTest(pid: int): int -> bool {
    c => c != pid && SampleParent(c) != pid
  }

  lemma SampleNonDirectOfInitList()
    ensures Filter([1, 2, 3, 4], SampleNonDirectTest(1)) == [3, 4]
  {
    var keep := SampleNonDirectTest(1);
    assert Filter([1], keep) == [] by { assert [1][..0] == []; }
    assert Filter([1, 2], keep) == [] by { assert [1, 2][..1] == [1]; }
    assert Filter([1, 2, 3], keep) == [3] by { assert [1, 2, 3][..2] == [1, 2]; }
    assert [1, 2, 3, 4][..3] == [1, 2, 3];
  }

  lemma SampleNonDirectOfShellList()
    ensures Filter([2, 3, 4], SampleNonDirectTest(2)) == []
  {
    var keep := SampleNonDirectTest(2);
    assert Filter([2], keep) == [] by { assert [2][..0] == []; }
    assert Filter([2, 3], keep) == [] by { assert [2, 3][..1] == [2]; }
    assert [2, 3, 4][..2] == [2, 3];
  }

  /** Where the status files give the sample's parents, ListNonDirectDescendants keeps what the sample's test keeps. */
  lemma SampleNonDirectOn(os: Snapshot, pid: int, listing: seq<int>)
    requires forall c :: c in listing ==> ParentOf(os, c) == SampleParent(c)
    ensures NonDirect(os, pid, listing) == Filter(listing, SampleNonDirectTest(pid))
  {
    FilterCongruent(listing, c => c != pid && ParentOf(os, c) != pid, SampleNonDirectTest(pid));
  }

  /** The non-direct descendants of 1 are 3 and 4: its subtree listing [1, 2, 3, 4] without 1 and its child 2. */
  lemma SampleNonDirectOfInit(os: Snapshot)
    requires SampleParents(os)
    ensures NonDirect(os, 1, [1, 2, 3, 4]) == [3, 4]
  {
    SampleNonDirectOfInitList();
    SampleNonDirectOn(os, 1, [1, 2, 3, 4]);
  }

  /**
   * 2 has no non-direct descendant in its subtree listing [2, 3, 4]; that
   * listing is not empty, so ListNonDirectDescendants prints nothing and no
   * "none" message either.
   */
  lemma SampleNonDirectOfShell(os: Snapshot)
    requires SampleParents(os)
    ensures NonDirect(os, 2, [2, 3, 4]) == []
  {
    SampleNonDirectOfShellList();
    SampleNonDirectOn(os, 2, [2, 3, 4]);
  }

  /** What IsZombie returns for each process of the sample: 1 for the zombie, 0 for the others, -1 for any pid without a status file. */
  function SampleZombieCode(pid: int): int {
    if !(1 <= pid <= 4) then -1 else if SampleState(pid) == 'Z' then 1 else 0
  }

  /** A one-letter state word is a zombie exactly when the letter is `Z`. */
  lemma ZombieCodeOfState(lines: seq<string>, c: char)
    requires StateToken(lines) == Some([c])
    ensures ZombieCode(Some(lines)) == if c == 'Z' then 1 else 0
  {
    assert 'Z' in [c] <==> c == 'Z';
  }

  lemma SampleZombieCodeOf(os: Snapshot, p: int)
    requires SampleStates(os)
    ensures ZombieCode(StatusFile(os, p)) == SampleZombieCode(p)
    ensures StateReadable(StatusFile(os, p))
  {
    SampleIds(os, p);
    if p in os.status {
      ZombieCodeOfState(os.status[p], SampleState(p));
    }
  }

  lemma SampleZombieCodesOn(os: Snapshot, listing: seq<int>)
    requires SampleStates(os)
    ensures forall c :: c in listing ==> ZombieCode(StatusFile(os, c)) == SampleZombieCode(c)
    ensures StatesReadable(os, listing)
  {
    forall c | c in listing
      ensures ZombieCode(StatusFile(os, c)) == SampleZombieCode(c)
      ensures StateReadable(StatusFile(os, c))
    {
      SampleZombieCodeOf(os, c);
    }
  }

  /** ListDefunctDescendants' test, with the sample's states in place of the status files. */
  function SampleDefunctTest(): int -> bool {
    c => SampleZombieCode(c) != 0
  }

  lemma SampleDefunctOfZombie()
    ensures Filter([3], SampleDefunctTest()) == [3]
  {
    assert [3][..0] == [];
  }

  lemma SampleDefunctOfChildren()
    ensures Filter([3, 4], SampleDefunctTest()) == [3]
  {
    SampleDefunctOfZombie();
    assert [3, 4][..1] == [3];
  }

  lemma SampleDefunctWithVanished()
    ensures Filter([3, 4, 5], SampleDefunctTest()) == [3, 5]
  {
    SampleDefunctOfChildren();
    assert [3, 4, 5][..2] == [3, 4];
  }

  /** Where IsZombie answers as in the sample, ListDefunctDescendants keeps what the sample's test keeps. */
  lemma SampleDefunctOn(os: Snapshot, listing: seq<int>)
    requires forall c :: c in listing ==> ZombieCode(StatusFile(os, c)) == SampleZombieCode(c)
    ensures Defunct(os, listing) == Filter(listing, SampleDefunctTest())
  {
    FilterCongruent(listing, c => ZombieCode(StatusFile(os, c)) != 0, SampleDefunctTest());
  }

  /** The zombie 3 shows as defunct and not paused; the stopped 4 as paused and not defunct. */
  lemma SampleStoppedAndZombie(os: Snapshot)
    requires SampleStates(os)
    ensures ShowsZombie(os, 3) && !ShowsPaused(os, 3)
    ensures ShowsPaused(os, 4) && !ShowsZombie(os, 4)
  {
    SampleIds(os, 3);
    SampleIds(os, 4);
    assert 'Z' in ['Z'] && 'T' !in ['Z'];
    assert 'T' in ['T'] && 'Z' !in ['T'];
  }

  /** Of the children [3, 4] that `pgrep -P 2` lists, only the zombie 3 is printed as defunct. */
  lemma SampleDefunct(os: Snapshot)
    requires SampleStates(os)
    ensures StatesReadable(os, [3, 4])
    ensures Defunct(os, [3, 4]) == [3]
  {
    SampleZombieCodesOn(os, [3, 4]);
    SampleDefunctOn(os, [3, 4]);
    SampleDefunctOfChildren();
  }

  /**
   * A process 5 that `pgrep` still lists under 2 but whose status file is
   * gone by the time it is read is treated as absent everywhere, except by
   * ListDefunctDescendants, which prints it: IsZombie returns -1 for it, and
   * -1 is true in C.
   */
  lemma VanishedChildIsDefunct(os: Snapshot)
    requires SampleStates(os)
    ensures ParentOf(os, 5) == -1
    ensures ZombieCode(StatusFile(os, 5)) == -1 && PausedCode(StatusFile(os, 5)) == 0
    ensures StatesReadable(os, [3, 4, 5])
    ensures Defunct(os, [3, 4, 5]) == [3, 5]
  {
    SampleIds(os, 5);
    SampleZombieCodesOn(os, [3, 4, 5]);
    SampleDefunctOn(os, [3, 4, 5]);
    SampleDefunctWithVanished();
  }
}
