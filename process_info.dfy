/**
 * Reading `/proc/<pid>/status`: the parent id (`GetParentPID`) and the
 * paused / zombie tests on the `State:` field (`IsPaused`, `IsZombie`).
 *
 * The operating system is replaced by a `Snapshot`, read at one instant:
 * the lines of every status file that can be opened, and the output of the
 * two child-listing commands the utility runs.
 */
module ProcessInfo {
  import opened Wrappers
  import opened Text

  /**
   * One instant of the process table, as the utility observes it.
   *  - `status[p]`: the pieces `fgets` returns from `/proc/p/status`, in
   *    order: each line, or each piece of at most 255 characters of a longer
   *    line; no entry when `fopen` fails (no such process, or no permission).
   *  - `children[p]`: the pids `pgrep -P p` prints, in order;
   *    no entry when `popen` fails.
   *  - `tree[p]`: the pids the `pstree -p p | grep ...` pipeline prints,
   *    in order; no entry when `popen` fails.
   */
  datatype Snapshot = Snapshot(
    status: map<int, seq<string>>,
    children: map<int, seq<int>>,
    tree: map<int, seq<int>>)

  /** The status file of `pid`, or `None` when it cannot be opened. */
  function StatusFile(os: Snapshot, pid: int): Option<seq<string>> {
    if pid in os.status then Some(os.status[pid]) else None
  }

  const PPidTag := "PPid:"
  const StateTag := "State:"

  /**
   * The value `GetParentPID` returns for a status file: the integer after
   * the first `PPid:` line, and -1 when the file cannot be opened, when no
   * line starts with `PPid:`, or when that line holds no integer.
   */
  function ParentPid(file: Option<seq<string>>): int {
    match file
    case None => -1
    case Some(lines) =>
      match FindLine(lines, PPidTag)
      case None => -1
      case Some(i) =>
        match ScanDecimal(lines[i][|PPidTag|..])
        case None => -1
        case Some(v) => v
  }

  /**
   * The first word after the first `State:` line (`sscanf("%s")`), or `None`
   * when there is no such line or nothing but white space follows it. In both
   * of those cases the C code goes on to read an uninitialised buffer.
   */
  function StateToken(lines: seq<string>): Option<string> {
    match FindLine(lines, StateTag)
    case None => None
    case Some(i) => ScanToken(lines[i][|StateTag|..])
  }

  /** The file cannot be opened, or it has a `State:` line with a word after it. */
  predicate StateReadable(file: Option<seq<string>>) {
    file.None? || StateToken(file.value).Some?
  }

  /** Every process in `pids` has a status file that is either unreadable or gives a state. */
  predicate StatesReadable(os: Snapshot, pids: seq<int>) {
    forall c :: c in pids ==> StateReadable(StatusFile(os, c))
  }

  /** The status file of `pid` opens and its state word contains `T` (stopped). */
  predicate ShowsPaused(os: Snapshot, pid: int) {
    pid in os.status && StateToken(os.status[pid]).Some? && 'T' in StateToken(os.status[pid]).value
  }

  /** The status file of `pid` opens and its state word contains `Z` (zombie). */
  predicate ShowsZombie(os: Snapshot, pid: int) {
    pid in os.status && StateToken(os.status[pid]).Some? && 'Z' in StateToken(os.status[pid]).value
  }

  /**
   * The value `IsPaused` returns: 0 when the file cannot be opened, 1 when
   * the state word contains `T`, 0 otherwise. (A file without a state word
   * is outside the model; 0 is given for it only to make this total.)
   */
  function PausedCode(file: Option<seq<string>>): int {
    match file
    case None => 0
    case Some(lines) =>
      match StateToken(lines)
      case Some(word) => if 'T' in word then 1 else 0
      case None => 0
  }

  /**
   * The value `IsZombie` returns: -1 when the file cannot be opened, 1 when
   * the state word contains `Z`, 0 otherwise. (A file without a state word
   * is outside the model, as for PausedCode.)
   */
  function ZombieCode(file: Option<seq<string>>): int {
    match file
    case None => -1
    case Some(lines) =>
      match StateToken(lines)
      case Some(word) => if 'Z' in word then 1 else 0
      case None => 0
  }

  /**
   * GetParentPID: scan the status lines up to the first `PPid:` line and
   * parse the integer after the tag.
   */
  method GetParentPID(os: Snapshot, pid: int) returns (parentID: int)
    ensures pid !in os.status ==> parentID == -1
    ensures pid in os.status && FindLine(os.status[pid], PPidTag).None? ==> parentID == -1
    ensures parentID == ParentPid(StatusFile(os, pid))
  {
    parentID := -1;
    if pid !in os.status {
      return;
    }
    var lines := os.status[pid];
    var i := 0;
    while i < |lines|
      invariant 0 <= i <= |lines|
      invariant forall j :: 0 <= j < i ==> !StartsWith(lines[j], PPidTag)
      invariant parentID == -1
    {
      if StartsWith(lines[i], PPidTag) {
        FindLineAt(lines, PPidTag, i);
        var scanned := ScanDecimal(lines[i][|PPidTag|..]);
        if scanned.Some? {
          parentID := scanned.value;
        } else {
          parentID := -1;
        }
        break;
      }
      i := i + 1;
    }
  }

  /**
   * The scan shared by IsPaused and IsZombie: the word after the first
   * `State:` line.
   */
  method ReadStateToken(lines: seq<string>) returns (token: Option<string>)
    ensures FindLine(lines, StateTag).None? ==> token.None?
    ensures forall i ::
              0 <= i < |lines| && StartsWith(lines[i], StateTag) &&
              (forall j :: 0 <= j < i ==> !StartsWith(lines[j], StateTag))
              ==> token == ScanToken(lines[i][|StateTag|..])
    ensures token == StateToken(lines)
  {
    token := None;
    var i := 0;
    while i < |lines|
      invariant 0 <= i <= |lines|
      invariant forall j :: 0 <= j < i ==> !StartsWith(lines[j], StateTag)
      invariant token.None?
    {
      if StartsWith(lines[i], StateTag) {
        FindLineAt(lines, StateTag, i);
        token := ScanToken(lines[i][|StateTag|..]);
        break;
      }
      i := i + 1;
    }
    forall k | 0 <= k < |lines| && StartsWith(lines[k], StateTag) &&
               (forall j :: 0 <= j < k ==> !StartsWith(lines[j], StateTag))
      ensures FindLine(lines, StateTag) == Some(k)
    {
      FindLineAt(lines, StateTag, k);
    }
  }

  /** IsPaused: 1 iff the status file opens and its state word contains `T`. */
  method IsPaused(os: Snapshot, pid: int) returns (paused: int)
    requires StateReadable(StatusFile(os, pid))
    ensures pid !in os.status ==> paused == 0
    ensures paused == 1 <==> ShowsPaused(os, pid)
    ensures paused == 0 || paused == 1
    ensures paused == PausedCode(StatusFile(os, pid))
  {
    if pid !in os.status {
      return 0;
    }
    var token := ReadStateToken(os.status[pid]);
    if 'T' in token.value {
      paused := 1;
    } else {
      paused := 0;
    }
  }

  /** IsZombie: -1 when the status file cannot be opened, else 1 iff its state word contains `Z`. */
  method IsZombie(os: Snapshot, pid: int) returns (zombie: int)
    requires StateReadable(StatusFile(os, pid))
    ensures zombie == -1 <==> pid !in os.status
    ensures zombie == 1 <==> ShowsZombie(os, pid)
    ensures zombie == ZombieCode(StatusFile(os, pid))
  {
    if pid !in os.status {
      return -1;
    }
    var token := ReadStateToken(os.status[pid]);
    if 'Z' in token.value {
      zombie := 1;
    } else {
      zombie := 0;
    }
  }

  /** Lines after the first `PPid:` line never change the parent id. */
  lemma ParentPidIgnoresLaterLines(lines: seq<string>, later: seq<string>)
    requires FindLine(lines, PPidTag).Some?
    ensures ParentPid(Some(lines + later)) == ParentPid(Some(lines))
  {
    FindLineIgnoresLaterLines(lines, later, PPidTag);
    var i := FindLine(lines, PPidTag).value;
    assert (lines + later)[i] == lines[i];
  }

  /** The first line that starts with `PPid:` decides the parent id, whatever follows it. */
  lemma ParentPidOfFirstPPidLine(before: seq<string>, line: string, after: seq<string>)
    requires forall j :: 0 <= j < |before| ==> !StartsWith(before[j], PPidTag)
    requires StartsWith(line, PPidTag)
    ensures ParentPid(Some(before + [line] + after)) ==
              match ScanDecimal(line[|PPidTag|..])
              case None => -1
              case Some(v) => v
  {
    FindLineAfter(before, line, after, PPidTag);
    assert (before + [line] + after)[|before|] == line;
  }

  /**
   * A status file in the kernel's layout, whose first `PPid:` line is
   * `PPid:` + white space + the decimal parent id + a line end, yields that
   * parent id.
   */
  lemma ParentPidOfKernelLine(before: seq<string>, ws: string, ppid: int, after: seq<string>)
    requires forall j :: 0 <= j < |before| ==> !StartsWith(before[j], PPidTag)
    requires forall k :: 0 <= k < |ws| ==> IsSpace(ws[k])
    ensures ParentPid(Some(before + [PPidTag + ws + DecimalString(ppid) + "\n"] + after)) == ppid
  {
    var rest := ws + DecimalString(ppid) + "\n";
    var line := PPidTag + ws + DecimalString(ppid) + "\n";
    assert line == PPidTag + rest;
    assert line[..|PPidTag|] == PPidTag && line[|PPidTag|..] == rest;
    ParentPidOfFirstPPidLine(before, line, after);
    ScanDecimalOfDecimalString(ws, ppid, "\n");
  }

  /**
   * A status file in the kernel's layout: a `Name:` line, a `State:` line
   * whose first word is the one-letter state code (the kernel follows it
   * with a description such as ` (sleeping)`), and a `PPid:` line.
   */
  function KernelStatus(name: string, state: char, description: string, ppid: int): seq<string> {
    ["Name:\t" + name + "\n",
     StateTag + "\t" + [state] + description,
     PPidTag + "\t" + DecimalString(ppid) + "\n"]
  }

  /** The kernel's layout yields the parent id it was written with. */
  lemma KernelStatusParent(name: string, state: char, description: string, ppid: int)
    ensures ParentPid(Some(KernelStatus(name, state, description, ppid))) == ppid
  {
    var nameLine := "Name:\t" + name + "\n";
    var stateLine := StateTag + "\t" + [state] + description;
    var ppidLine := PPidTag + "\t" + DecimalString(ppid) + "\n";
    assert nameLine[0] == 'N' && stateLine[0] == 'S';
    assert KernelStatus(name, state, description, ppid) == [nameLine, stateLine] + [ppidLine] + [];
    ParentPidOfKernelLine([nameLine, stateLine], "\t", ppid, []);
  }

  /**
   * The state word ends at a NUL in the `State:` line: what follows the NUL
   * is past the end of the C string `sscanf` reads.
   */
  lemma StateWordEndsAtNul(word: string, rest: string)
    requires word != [] && forall i :: 0 <= i < |word| ==> WordChar(word[i])
    ensures StateToken([StateTag + "\t" + word + "\0" + rest]) == Some(word)
  {
    var line := StateTag + "\t" + word + "\0" + rest;
    assert line[..|StateTag|] == StateTag;
    assert FindLine([line], StateTag) == Some(0);
    assert line[|StateTag|..] == "\t" + word + ("\0" + rest);
    ScanTokenOfWord("\t", word, "\0" + rest);
  }

  /** A `T` hidden behind a NUL does not make a sleeping process paused. */
  lemma PausedIgnoresTextAfterNul()
    ensures PausedCode(Some([StateTag + "\tS\0T\n"])) == 0
  {
    StateWordEndsAtNul("S", "T\n");
    assert StateTag + "\tS\0T\n" == StateTag + "\t" + "S" + "\0" + "T\n";
    assert 'T' !in "S";
  }

  /** The kernel's layout yields the state letter it was written with. */
  lemma KernelStatusState(name: string, state: char, description: string, ppid: int)
    requires WordChar(state)
    requires description == [] || !WordChar(description[0])
    ensures StateToken(KernelStatus(name, state, description, ppid)) == Some([state])
  {
    var lines := KernelStatus(name, state, description, ppid);
    var stateLine := StateTag + "\t" + [state] + description;
    assert lines[0][0] == 'N' && lines[1] == stateLine;
    assert stateLine[..|StateTag|] == StateTag;
    assert FindLine(lines, StateTag) == Some(1);
    assert stateLine[|StateTag|..] == "\t" + [state] + description;
    ScanTokenOfWord("\t", [state], description);
  }
}
