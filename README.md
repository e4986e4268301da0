# process_util in Dafny

A model of `process_util.c`, a command-line utility that answers questions
about the Linux process tree and acts on it. Given a process id, a root
process id and an option, it
- checks whether the process belongs to the tree rooted at the root, by
  walking `PPid:` links in `/proc/<pid>/status`;
- lists immediate children, siblings, grandchildren, non-direct descendants
  or defunct (zombie) children;
- kills, stops or continues processes;
- or prints the process and parent ids.

## How the operating system is represented

Everything the utility reads comes from one `ProcessInfo.Snapshot`, taken at
a single instant:
- `status[p]` holds the pieces `fgets` returns from `/proc/p/status`, in
  order: each line, or each piece of at most 255 characters of a longer
  line. There is no entry when `fopen` fails.
- `children[p]` holds the pids `pgrep -P p` prints, in order. There is no
  entry when `popen` fails.
- `tree[p]` holds the pids the `pstree -p p | grep ...` pipeline prints, in
  order. There is no entry when `popen` fails.

Signals are not sent. `main`'s choice of what to do becomes a
`Dispatch.Decision` value: an action and an exit code. The enumerators
return a `Relatives.Report`, which records the pids printed, in order, and
whether the "none" message follows them.

## Modules

- `Text`: the C text primitives the status readers use.
  - `strncmp` prefix tests (`StartsWith`, `FindLine`).
  - `sscanf("%d")` (`ScanDecimal`) and `sscanf("%s")` (`ScanToken`).
  - `printf("%d")` (`DecimalString`), as the partner of the integer scan.
  - A NUL ends a C string. The `%s` scan stops at one. The prefix test and
    the `%d` scan never get past one, because a NUL is not white space, a
    sign, a digit or a character of `PPid:`/`State:`.
- `ProcessInfo`: the status-file readers.
  - `GetParentPID`, `IsPaused` and `IsZombie`, as loops over the lines with
    an early exit.
  - The functions `ParentPid`, `PausedCode` and `ZombieCode` that specify
    them.
- `Ancestry`:
  - `BelongsToProcessTree`, the recursive walk up the parent links.
  - `Ancestors`, the chain of strict ancestors it follows.
- `Relatives`: the loops of `ListImmediateDescendants`,
  `ListSiblingProcesses`, `ListNonDirectDescendants`, `ListGrandchildren`,
  `ListDefunctDescendants` and `ContinueAllPausedProcesses`, each proved
  equal to a function over the listing.
- `Dispatch`: the decision logic of `main`.
- `Scenarios`: a small concrete process table, written in the kernel's
  status-file layout, and what the utility reports about it. In it, init (1)
  has a shell (2) as its only child, and the shell has a zombie (3) and a
  stopped process (4).

## Behaviours of the source the model pins down

- A process whose status file cannot be opened is printed by
  `ListDefunctDescendants`. `IsZombie` returns -1 for it, and the caller
  only tests for non-zero (`Scenarios.VanishedChildIsDefunct`).
- `ListSiblingProcesses` and `ListNonDirectDescendants` set their "found"
  flag for every listed pid, including the ones they skip. So the "none"
  message appears only when the listing itself is empty: an only child gets
  neither a sibling nor the message.
- With an option, an unknown option word is only rejected (exit code 1) when
  the membership test succeeds. Otherwise the utility reports that the
  process is outside the tree and exits with 0.
- Without an option, the separate `parentID != -1` test is redundant: the
  ids are printed exactly when the root is a strict ancestor
  (`Dispatch.PrintIdsIffMember`).
- Membership is strict: a process never belongs to its own tree
  (`Ancestry.NotInOwnTree`). The walk compares each parent id with the root
  before it looks for a further parent, so the tree rooted at 0 holds every
  process whose chain reaches init, even though 0 has no status file.

## Model

| member | source | states |
|---|---|---|
| ProcessInfo.GetParentPID | process_util.c:9-38 | -1 when the status file cannot be opened or has no `PPid:` line; otherwise the value of `ParentPid`: the integer after the first `PPid:` line, or -1 when that line holds no integer |
| ProcessInfo.ParentPidOfFirstPPidLine | process_util.c:25-33 | when every earlier line does not start with `PPid:`, the first line that does decides the result, whatever lines follow it: its integer, or -1 when it holds none |
| ProcessInfo.ParentPidIgnoresLaterLines | process_util.c:25-33 | lines appended after the first `PPid:` line never change the parent id (the loop breaks there) |
| ProcessInfo.ParentPidOfKernelLine | process_util.c:26-31 | a `PPid:` line in the kernel's layout (tag, white space, the decimal id, newline) yields exactly that id, negative ids included |
| ProcessInfo.KernelStatusParent | process_util.c:25-33 | a three-line status file in the kernel's field format (`Name:`, `State:`, `PPid:` lines) yields the parent id it was written with; `ParentPidOfKernelLine` covers any number of other lines before `PPid:` |
| ProcessInfo.ReadStateToken | process_util.c:207-215 | the word after the first `State:` line: `None` when there is no `State:` line, otherwise the `%s` scan of that first line |
| ProcessInfo.StateWordEndsAtNul | process_util.c:209-210 | the state word of a `State:` line ends at a NUL: what follows it is past the end of the C string `sscanf` reads |
| ProcessInfo.PausedIgnoresTextAfterNul | process_util.c:217-222 | the line `State:\tS\0T\n` makes `IsPaused` return 0: a `T` after the NUL is not seen |
| ProcessInfo.KernelStatusState | process_util.c:279-285 | a three-line status file in the kernel's field format yields its one-letter state code as the state word |
| ProcessInfo.IsPaused | process_util.c:192-223 | 0 when the status file cannot be opened; 1 exactly when the state word contains `T`; always 0 or 1 |
| ProcessInfo.IsZombie | process_util.c:264-295 | -1 exactly when the status file cannot be opened; 1 exactly when the state word contains `Z`; 0 otherwise |
| Text.StartsWithIsStrncmp | process_util.c:26 | the prefix test is `strncmp(line, tag, n) == 0`: the line is at least as long as the tag and agrees with it character by character (also lines 209 and 281) |
| Text.ScanDecimalMeaning | process_util.c:27 | `sscanf("%d")`: a value exactly when white space is followed by an optional sign and at least one digit, i.e. exactly when sscanf would return 1; a negative value only after a minus sign |
| Text.ScanTokenMeaning | process_util.c:210 | `sscanf("%s")` (also line 282): `None` exactly when only white space comes before the end of the string or a NUL; otherwise the longest run of characters without white space or NUL after the white space |
| Text.FindLine | process_util.c:25-26 | the index of the first line starting with the prefix, with no earlier such line; `None` exactly when no line starts with it |
| Text.FindLineAfter | process_util.c:25-26 | a line with the prefix after lines without it is the one found, whatever follows |
| Text.FindLineIgnoresLaterLines | process_util.c:25-33 | once a line with the prefix exists, appending lines does not change what is found |
| Text.ScanDecimalOfDecimalString | process_util.c:27 | round trip of `printf("%d")` and `sscanf("%d")`: white space, the decimal text of any integer n, then a non-digit, scans back to n |
| Text.ScanTokenOfWord | process_util.c:210 | round trip of `%s`: white space, a word without white space or NUL, then white space, a NUL or the end, scans back to that word |
| Ancestry.BelongsToProcessTree | process_util.c:42-54 | the result is 0 or 1; defined on any table ranked so that every parent sits strictly lower than its child |
| Ancestry.Ancestors | process_util.c:42-54 | the chain the walk visits: never -1, empty exactly when the parent cannot be read, starting with the parent, no longer than the rank |
| Ancestry.AncestorsFollowParents | process_util.c:43-49 | each element of the chain is the parent of the one before it |
| Ancestry.AncestorsEndAtTop | process_util.c:43-46 | the last element of a non-empty chain is one whose parent cannot be read |
| Ancestry.BelongsIffAncestor | process_util.c:42-54 | membership is 1 exactly when the root is one of the strict ancestors of the process |
| Ancestry.MemberOutranksRoot | process_util.c:49-50 | a member of a tree sits strictly above its root in any ranking |
| Ancestry.NotInOwnTree | process_util.c:42-54 | on an acyclic table no process belongs to the tree rooted at itself |
| Ancestry.BelongsTransitive | process_util.c:49-50 | a member of a member's tree is a member of the outer tree |
| Ancestry.BelongsIgnoresRank | process_util.c:42-54 | the answer does not depend on which ranking witnesses acyclicity |
| Relatives.Filter | process_util.c:70-77 | the kept elements, in order: an element is in the result exactly when it is in the listing and passes the test |
| Relatives.FilterCongruent | process_util.c:73 | filters whose tests agree on the listing give the same result |
| Relatives.FirstUnlisted | process_util.c:161-171 | the position of the first child whose `popen` fails: every child before it has a listing, and it has none |
| Relatives.ListImmediateDescendants | process_util.c:86-110 | nothing when `popen` fails; otherwise the listing verbatim (empty when `pgrep` itself fails), with "No immediate descendents." exactly when it is empty |
| Relatives.ListSiblingProcesses | process_util.c:113-145 | nothing when the parent lookup is -1 or `popen` fails; otherwise the parent's listing without the process, in order, with "No sibling process/es." exactly when that listing is empty; the process is never printed |
| Relatives.ListNonDirectDescendants | process_util.c:57-83 | the subtree listing without the process and without pids whose parent is the process, in order; every printed pid meets both tests; "No non-direct descendents." exactly when the listing is empty |
| Relatives.ListGrandchildren | process_util.c:148-189 | the child listings of the children, concatenated in order; when an inner `popen` fails, what was printed before it and no message; otherwise "No Grandchild." exactly when the concatenation is empty |
| Relatives.GrandchildrenMembers | process_util.c:161-181 | a pid is printed as a grandchild exactly when it is in the listing of some child |
| Relatives.GrandchildrenAreTwoLevelsDown | process_util.c:148-189 | when the listings agree with the status files, every printed grandchild has the process as its grandparent |
| Relatives.ListDefunctDescendants | process_util.c:298-324 | the children for which `IsZombie` is non-zero, in order, with the message exactly when none is printed; every printed pid is a child that is a zombie or whose status file cannot be opened |
| Relatives.ContinueAllPausedProcesses | process_util.c:226-250 | nothing when `popen` fails; otherwise one step per child, in listing order: resume exactly when the child shows as paused, report "not paused" otherwise |
| Relatives.NonDirectExcludesChildren | process_util.c:70-75 | when the listings agree with the status files, the non-direct descendants are the subtree listing without the process and its immediate children |
| Relatives.SiblingsShareParent | process_util.c:113-145 | when the listings agree with the status files, every printed sibling is another process with the same parent |
| Dispatch.OptionAction | process_util.c:340-402 | an action exactly for the ten option words, and which one for each word. A signal exactly for `-rp`, `-pr` and `-xt`: SIGSTOP for `-xt`, otherwise SIGKILL, sent to the root for `-pr` and to the process otherwise. `-zs`, `-xn`, `-xd`, `-xs`, `-xz` and `-xg` act on the process; `-xc` continues the children of the root |
| Dispatch.Decide | process_util.c:326-417 | exit code 1 exactly for a wrong argument count (usage) or for an unknown option given for a member (rejected). A member with one of the ten options gets that option's action with exit code 0. A non-member with an option is reported outside the tree with exit code 0 whatever the option. Without an option, the process id and its parent id are printed exactly when the parent id is known and the process belongs, and "not in the tree" is reported otherwise |
| Dispatch.SignalsStayInTree | process_util.c:336-374 | every signal goes to the root or to a process that has the root among its strict ancestors |
| Dispatch.PrintIdsIffMember | process_util.c:407-415 | without an option the ids are printed exactly when the root is a strict ancestor, so the separate parent-id test never decides |
| Dispatch.ZombieStatusVerdict | process_util.c:359-366 | what `-zs` prints for IsZombie's value: 1 gives "Defunct.", 0 gives "Not Defunct.", any other value the error message |
| Dispatch.ZombieStatusMeaning | process_util.c:356-366 | `-zs` reports an error exactly when the status file cannot be opened, and "Defunct." exactly when the state word contains `Z` |
| Scenarios.SampleHasParents | process_util.c:9-38 | the sample table's status files give the intended parents |
| Scenarios.SampleHasStates | process_util.c:207-213 | the sample table's status files give the intended one-letter states |
| Scenarios.SampleInTree | process_util.c:42-54 | the zombie 3 belongs to the tree of init 1, through the shell 2 |
| Scenarios.SampleNotInTree | process_util.c:42-54 | init 1 belongs neither to the tree of its descendant 3 nor to its own |
| Scenarios.SampleAncestors | process_util.c:42-54 | the ancestors of 3 are 2, 1 and 0, where the walk stops because 0 has no status file |
| Scenarios.SampleRelatives | process_util.c:113-189 | the siblings of 3 are [4]; the only child 2 has no sibling; the grandchildren of 1 are [3, 4] |
| Scenarios.SampleNonDirectOfInit | process_util.c:70-75 | the non-direct descendants of 1 in its subtree listing [1, 2, 3, 4] are [3, 4] |
| Scenarios.SampleNonDirectOfShell | process_util.c:70-82 | the shell 2 has no non-direct descendant in its non-empty subtree listing, so nothing is printed and no message either |
| Scenarios.SampleStoppedAndZombie | process_util.c:289-294 | the zombie shows as defunct and not paused; the stopped process as paused and not defunct |
| Scenarios.SampleDefunct | process_util.c:311-317 | of the children [3, 4], only the zombie 3 is printed as defunct |
| Scenarios.VanishedChildIsDefunct | process_util.c:273-277 | a listed child whose status file is gone has no parent, `IsZombie` -1 and `IsPaused` 0, and is printed as defunct |

## Left out

- The I/O itself: `fopen`, `fgets` and `fclose` on `/proc`, and `popen`/`pclose` of `pgrep` and `pstree`, are replaced by the maps of a `Snapshot`. A failure to open is an absent key.
- The `pstree -p | grep -o` pipeline that extracts pids from the tree drawing is external tooling. Its output is taken as the `tree` listing.
- `kill` with SIGKILL, SIGSTOP and SIGCONT, and `ContinuePausedProcess`, are OS side effects. They become recorded actions (`Dispatch.Action`, `Relatives.Step`); whether `kill` succeeds is not modelled.
- Message wording, headings, `perror` and `stderr` are left out. Only the printed pids and whether the "none" message appears are modelled.
- `atoi` on `argv` and on the listing lines is left out. The ids arrive as integers.
- `sscanf("%d")` overflow is left out: the parsed integer is unbounded, and no 32-bit wrap or saturation is modelled.
- The split into `fgets` pieces is taken as given: `status` holds the pieces, not the file's bytes, so the model does not compute the 255-character split itself. A piece from the middle of a long line is compared with the tags like any line, as in C.
- `sscanf("%s")` into the 50-byte `status` buffer can overflow on a longer word. This is not modelled.
- A status file with no `State:` line, or with nothing after the tag, leaves `status` uninitialised in C, which is undefined behaviour.
- ProcessInfo.IsPaused: requires the status file to be unreadable or to give a state word, because of that undefined behaviour.
- ProcessInfo.IsZombie: requires the status file to be unreadable or to give a state word, for the same reason.
- Relatives.ListDefunctDescendants: requires every listed child to give a state word or be unreadable, for the same reason.
- Relatives.ContinueAllPausedProcesses: requires every listed child to give a state word or be unreadable, for the same reason.
- Ancestry.BelongsToProcessTree: requires a ranking that makes the parent links acyclic, which a live kernel's table is. The C recursion has no guard. On a cyclic table it still ends when the root lies on the walk before the cycle repeats (line 49 returns 1 at once), and recurses without end only when the walk enters a cycle that does not contain the root. The model leaves out every cyclic table, including the ones where the C would end.
- ProcessInfo.GetParentPID: its ensures gives the result through `ParentPid`. That the first `PPid:` line alone decides it is stated as the separate lemma `ParentPidOfFirstPPidLine`, together with `ParentPidIgnoresLaterLines`.
- Races between reads are left out: every read of one run sees the same `Snapshot`, so a process cannot vanish between two lookups (a listed child whose file is already gone is still modelled).
