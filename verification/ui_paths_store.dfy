/**
 * The store of UI paths learned on macOS: a learned path is saved to disk as a
 * record of `u32`-indexed steps with a version and a timestamp, loaded back as
 * owned path steps, and kept in a process-wide slot. File system calls, the
 * clock and JSON decoding are parameters: their outcomes are given.
 */
module UiPathsStore {
  import opened Base
  import opened AxPath

  const U32Limit: nat := 0x1_0000_0000
  newtype u32 = x: int | 0 <= x < 0x1_0000_0000

  const ErrRead: string := "读取 UI 路径失败: "
  const ErrParse: string := "解析 UI 路径失败: "
  const ErrClock: string := "获取时间失败: "
  const ErrWritePaths: string := "写入 UI 路径失败: "
  const ErrWriteTree: string := "写入 UI 树失败: "

  /** A step as it is saved: the index is a `u32`. */
  datatype UiPathStep = UiPathStep(roles: seq<string>, index: u32, titleContains: Option<string>)

  /** A step as learning produces it: the index is a `usize`. */
  datatype PathStepSpec = PathStepSpec(roles: seq<string>, index: nat, titleContains: Option<string>)

  datatype LearnedPaths = LearnedPaths(sessionList: seq<PathStepSpec>, messageList: seq<PathStepSpec>, input: seq<PathStepSpec>)

  datatype StoredUiPaths = StoredUiPaths(
    version: u32,
    savedAt: nat,
    sessionListPath: seq<UiPathStep>,
    messageListPath: seq<UiPathStep>,
    inputPath: seq<UiPathStep>)

  /** The paths in the form path resolution takes. */
  datatype UiPaths = UiPaths(sessionList: seq<AxPathStep>, messageList: seq<AxPathStep>, input: seq<AxPathStep>)

  datatype UiPathsStatus = UiPathsStatus(
    saved: bool,
    savedAt: Option<nat>,
    version: Option<u32>,
    pathsFile: Option<string>,
    treeFile: Option<string>)

  /** The outcome of reading the paths file. */
  datatype FileRead = NotFound | ReadFailed(message: string) | Contents(text: string)

  // ---------------------------------------------------------------- conversions

  /** `path_step_from_learned`: `index as u32` keeps the low 32 bits. */
  function PathStepFromLearned(step: PathStepSpec): (s: UiPathStep)
    ensures s.roles == step.roles && s.titleContains == step.titleContains
    ensures s.index as int == step.index % U32Limit
  {
    UiPathStep(step.roles, (step.index % U32Limit) as u32, step.titleContains)
  }

  /** `path_step_to_owned`: the `u32` index widens to `usize` unchanged. */
  function PathStepToOwned(step: UiPathStep): (s: AxPathStep)
    ensures s.roles == step.roles && s.titleContains == step.titleContains && s.index == step.index as nat
  {
    AxPathStep(step.roles, step.titleContains, step.index as nat)
  }

  function StepsFromLearned(steps: seq<PathStepSpec>): (r: seq<UiPathStep>)
    ensures |r| == |steps|
    ensures forall k :: 0 <= k < |r| ==> r[k] == PathStepFromLearned(steps[k])
  {
    seq(|steps|, k requires 0 <= k < |steps| => PathStepFromLearned(steps[k]))
  }

  function StepsToOwned(steps: seq<UiPathStep>): (r: seq<AxPathStep>)
    ensures |r| == |steps|
    ensures forall k :: 0 <= k < |r| ==> r[k] == PathStepToOwned(steps[k])
  {
    seq(|steps|, k requires 0 <= k < |steps| => PathStepToOwned(steps[k]))
  }

  /** `UiPaths::from`. */
  function UiPathsFrom(stored: StoredUiPaths): UiPaths {
    UiPaths(StepsToOwned(stored.sessionListPath), StepsToOwned(stored.messageListPath), StepsToOwned(stored.inputPath))
  }

  /** Each of the three paths keeps its length and order, and each step its
      roles, title fragment and index. */
  lemma UiPathsFromSpec(stored: StoredUiPaths)
    ensures var p := UiPathsFrom(stored);
      && |p.sessionList| == |stored.sessionListPath|
      && |p.messageList| == |stored.messageListPath|
      && |p.input| == |stored.inputPath|
    ensures var p := UiPathsFrom(stored);
      forall k :: 0 <= k < |p.sessionList| ==>
        var (a, b) := (p.sessionList[k], stored.sessionListPath[k]);
        a.roles == b.roles && a.titleContains == b.titleContains && a.index == b.index as nat
    ensures var p := UiPathsFrom(stored);
      forall k :: 0 <= k < |p.messageList| ==>
        var (a, b) := (p.messageList[k], stored.messageListPath[k]);
        a.roles == b.roles && a.titleContains == b.titleContains && a.index == b.index as nat
    ensures var p := UiPathsFrom(stored);
      forall k :: 0 <= k < |p.input| ==>
        var (a, b) := (p.input[k], stored.inputPath[k]);
        a.roles == b.roles && a.titleContains == b.titleContains && a.index == b.index as nat
  {
  }

  /** `stored_from_learned`, given the clock's seconds since the epoch (or the
      error of a clock set before it). */
  function StoredFromLearned(learned: LearnedPaths, clock: Result<nat, string>): (r: Result<StoredUiPaths, string>)
    ensures clock.Err? <==> r.Err?
    ensures r.Err? ==> r.error == ErrClock + clock.error
    ensures r.Ok? ==> r.value.version == 1 && r.value.savedAt == clock.value
  {
    match clock
    case Err(e) => Err(ErrClock + e)
    case Ok(secs) =>
      Ok(StoredUiPaths(1, secs, StepsFromLearned(learned.sessionList), StepsFromLearned(learned.messageList),
                       StepsFromLearned(learned.input)))
  }

  /** Every index of a learned path fits in 32 bits. */
  predicate Fits(steps: seq<PathStepSpec>) {
    forall k :: 0 <= k < |steps| ==> steps[k].index < U32Limit
  }

  function Owned(step: PathStepSpec): AxPathStep {
    AxPathStep(step.roles, step.titleContains, step.index)
  }

  function AllOwned(steps: seq<PathStepSpec>): (r: seq<AxPathStep>)
    ensures |r| == |steps|
  {
    seq(|steps|, k requires 0 <= k < |steps| => Owned(steps[k]))
  }

  lemma StepsRoundTrip(steps: seq<PathStepSpec>)
    requires Fits(steps)
    ensures StepsToOwned(StepsFromLearned(steps)) == AllOwned(steps)
  {
    var a := StepsToOwned(StepsFromLearned(steps));
    forall k | 0 <= k < |steps| ensures a[k] == AllOwned(steps)[k] {
      assert steps[k].index % U32Limit == steps[k].index;
    }
  }

  /** Saving and loading gives back the learned paths when every index fits in
      32 bits. */
  lemma LearnedRoundTrip(learned: LearnedPaths, secs: nat)
    requires Fits(learned.sessionList) && Fits(learned.messageList) && Fits(learned.input)
    ensures var stored := StoredFromLearned(learned, Ok(secs)).value;
      UiPathsFrom(stored) == UiPaths(AllOwned(learned.sessionList), AllOwned(learned.messageList), AllOwned(learned.input))
  {
    StepsRoundTrip(learned.sessionList);
    StepsRoundTrip(learned.messageList);
    StepsRoundTrip(learned.input);
  }

  /** An index of 2^32 or more is saved wrapped: 2^32 comes back as 0. */
  lemma LearnedIndexWraps(roles: seq<string>)
    ensures PathStepToOwned(PathStepFromLearned(PathStepSpec(roles, U32Limit, None))).index == 0
  {
  }

  // ---------------------------------------------------------------- status

  /** `status_from_stored`: whether the tree file exists is a parameter. */
  function StatusFromStored(stored: StoredUiPaths, pathsFile: string, treeFile: string, treeExists: bool): (s: UiPathsStatus)
    ensures s.saved && s.savedAt == Some(stored.savedAt) && s.version == Some(stored.version)
    ensures s.pathsFile == Some(pathsFile)
    ensures s.treeFile.Some? <==> treeExists
    ensures s.treeFile.Some? ==> s.treeFile.value == treeFile
  {
    UiPathsStatus(true, Some(stored.savedAt), Some(stored.version), Some(pathsFile), if treeExists then Some(treeFile) else None)
  }

  const NotSaved: UiPathsStatus := UiPathsStatus(false, None, None, None, None)

  /** `read_status`: `files` is the two file locations (or the error of finding
      the configuration directory), `read` the outcome of reading the paths
      file, and `parse` the JSON decoding of its text. */
  function ReadStatus(files: Result<(string, string), string>, read: FileRead,
                      parse: string -> Result<StoredUiPaths, string>, treeExists: bool): Result<UiPathsStatus, string> {
    match files
    case Err(e) => Err(e)
    case Ok((pathsFile, treeFile)) =>
      match read
      case NotFound => Ok(NotSaved)
      case ReadFailed(msg) => Err(ErrRead + msg)
      case Contents(text) =>
        match parse(text)
        case Err(msg) => Err(ErrParse + msg)
        case Ok(stored) => Ok(StatusFromStored(stored, pathsFile, treeFile, treeExists))
  }

  /** A missing paths file is "not saved" with every other field empty, not an
      error; any other read failure and a file that does not decode are errors;
      a decoded file is reported saved. */
  lemma ReadStatusSpec(files: Result<(string, string), string>, read: FileRead,
                       parse: string -> Result<StoredUiPaths, string>, treeExists: bool)
    ensures files.Ok? && read.NotFound? ==>
      ReadStatus(files, read, parse, treeExists) == Ok(UiPathsStatus(false, None, None, None, None))
    ensures var r := ReadStatus(files, read, parse, treeExists);
      r.Ok? && r.value.saved <==> files.Ok? && read.Contents? && parse(read.text).Ok?
    ensures var r := ReadStatus(files, read, parse, treeExists);
      files.Ok? && read.ReadFailed? ==> r == Err(ErrRead + read.message)
  {
  }

  // ---------------------------------------------------------------- the slot

  /** The process-wide slot holding the current paths. */
  class PathsSlot {
    var paths: Option<UiPaths>

    constructor ()
      ensures paths == None
    {
      paths := None;
    }

    /** `get_paths`. */
    function GetPaths(): Option<UiPaths>
      reads this
    {
      paths
    }

    /** `set_paths`: a later `get_paths` returns exactly `p`. */
    method SetPaths(p: UiPaths)
      modifies this
      ensures GetPaths() == Some(p)
    {
      paths := Some(p);
    }

    /** `load_from_disk`: a missing file is no paths and leaves the slot alone;
        a decoded file is converted, stored and returned. */
    method LoadFromDisk(pathsFile: Result<string, string>, read: FileRead, parse: string -> Result<StoredUiPaths, string>)
      returns (r: Result<Option<UiPaths>, string>)
      modifies this
      ensures r == match pathsFile
        case Err(e) => Err(e)
        case Ok(_) =>
          match read
          case NotFound => Ok(None)
          case ReadFailed(msg) => Err(ErrRead + msg)
          case Contents(text) =>
            match parse(text)
            case Err(msg) => Err(ErrParse + msg)
            case Ok(stored) => Ok(Some(UiPathsFrom(stored)))
      ensures r.Ok? && r.value.Some? ==> paths == r.value
      ensures !(r.Ok? && r.value.Some?) ==> paths == old(paths)
    {
      if pathsFile.Err? {
        return Err(pathsFile.error);
      }
      match read
      case NotFound =>
        return Ok(None);
      case ReadFailed(msg) =>
        return Err(ErrRead + msg);
      case Contents(text) =>
        var parsed := parse(text);
        if parsed.Err? {
          return Err(ErrParse + parsed.error);
        }
        var p := UiPathsFrom(parsed.value);
        SetPaths(p);
        return Ok(Some(p));
    }

    /** `save_learned_paths`: the record is built (clock), the file locations
        found, the paths file and then the tree file written (each write's
        failure given); only when all succeed is the slot updated, and the two
        locations are returned. */
    method SaveLearnedPaths(learned: LearnedPaths, clock: Result<nat, string>, files: Result<(string, string), string>,
                            writePaths: Option<string>, writeTree: Option<string>)
      returns (r: Result<seq<string>, string>)
      modifies this
      ensures clock.Err? ==> r == Err(ErrClock + clock.error)
      ensures clock.Ok? && files.Err? ==> r == Err(files.error)
      ensures clock.Ok? && files.Ok? && writePaths.Some? ==> r == Err(ErrWritePaths + writePaths.value)
      ensures clock.Ok? && files.Ok? && writePaths.None? && writeTree.Some? ==> r == Err(ErrWriteTree + writeTree.value)
      ensures r.Ok? <==> clock.Ok? && files.Ok? && writePaths.None? && writeTree.None?
      ensures r.Ok? ==> r.value == [files.value.0, files.value.1]
                        && paths == Some(UiPathsFrom(StoredFromLearned(learned, clock).value))
      ensures r.Err? ==> paths == old(paths)
    {
      var stored := StoredFromLearned(learned, clock);
      if stored.Err? {
        return Err(stored.error);
      }
      if files.Err? {
        return Err(files.error);
      }
      if writePaths.Some? {
        return Err(ErrWritePaths + writePaths.value);
      }
      if writeTree.Some? {
        return Err(ErrWriteTree + writeTree.value);
      }
      SetPaths(UiPathsFrom(stored.value));
      return Ok([files.value.0, files.value.1]);
    }
  }

  // ---------------------------------------------------------------- examples

  /** One step per path converts to one owned step with its index, fragment
      and roles. */
  lemma ConvertsStoredExample()
    ensures var stored := StoredUiPaths(1, 1,
      [UiPathStep(["AXGroup"], 2, Some("Sessions"))],
      [UiPathStep(["AXList"], 0, None)],
      [UiPathStep(["AXTextArea"], 1, None)]);
      var p := UiPathsFrom(stored);
      |p.sessionList| == 1 && p.sessionList[0].index == 2 && p.sessionList[0].titleContains == Some("Sessions")
      && p.messageList[0].roles == ["AXList"]
  {
  }
}
