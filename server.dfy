/**
 * The session logic of `AutoHackBackend`: per-client session records, the start,
 * stop and status handlers, and `run_hack_process`, the loop that compiles the
 * three programs and then generates, runs and judges one test case per iteration
 * until a limit is reached, the user stops it, or a generator fails.
 *
 * The programs, the checker and the user are collaborators. A run is driven by a
 * script: how each compilation ends, and for iteration t (1-based) the entry
 * `steps[t - 1]` saying how input and answer generation ended, what the candidate
 * run returned, what `basicChecker` would say about it, and whether a stop request
 * arrived while the iteration was awaiting a send. Every message handed to
 * `send_message`, every `save_error_data` call and every checker call is logged.
 */
module Server {
  import opened Wrappers
  import opened Bytes
  import opened Decimal
  import Text
  import Run
  import HackPaths
  import FolderSize

  // ---------------------------------------------------------------------------
  // Sessions and messages

  /** The fields of `self.sessions[client_id]` the handlers read and write. */
  datatype Session = Session(
    initialized: bool, running: bool, dataCount: int, errorDataCount: int,
    startTime: Option<real>, symlinkFallback: bool)

  /** The messages handed to `send_message`; float statistics are left out of their data. */
  datatype Message =
    | InitSuccess(clientId: string, storagePath: string, symlinkFallback: bool)
    | Error(message: string, errorType: string)
    | CompilationError(message: string, fileName: string)
    | StatusUpdate(stage: string, text: string)
    | ProgressUpdate(dataCount: int, errorCount: int, stage: string)
    | StatisticsUpdate
    | ErrorFound(errorNumber: int, dataNumber: int, message: string)
    | Completed(totalData: int, errorData: int)
    | Warning(message: string)
    | Stopped(message: string)
    | Status(initialized: bool, running: bool, dataCount: int, errorDataCount: int)
    | StatusUninitialized
    | RecordSaved

  /** The messages `process_message` dispatches on; anything else is ignored. */
  datatype Incoming =
    | Init(setup: Result<bool, string>)
    | Start(now: real)
    | Stop
    | GetStatus
    | SaveRecord(comment: string, now: real)
    | Unknown(messageType: string)

  /**
   * One `save_error_data` call: the error number, the three path templates and the
   * three contents. The files it writes are `InputFile`, `AnswerFile` and `OutputFile`.
   */
  datatype SavedData = SavedData(
    errorNumber: int, inputPath: string, answerPath: string, outputPath: string,
    input: seq<byte>, answer: seq<byte>, output: seq<byte>)

  /**
   * The configuration entries `run_hack_process` reads once compilation is done.
   * `getConfigEntry` gives None for a key the configuration lacks. Only
   * `refresh_speed` is modelled as possibly missing: it is the one entry read here
   * that DEFAULT_CONFIG lacks, and merging keeps exactly the keys of the defaults.
   */
  datatype Settings = Settings(
    inputPath: string, answerPath: string, outputPath: string,
    maximumDataLimit: int, errorDataLimit: int, refreshSpeed: Option<int>)
  {
    /** `data_count % refresh_speed` can be evaluated: the entry is present and not 0. */
    predicate Refreshes() {
      refreshSpeed.Some? && refreshSpeed.value != 0
    }
  }

  /** How one iteration's collaborators behave (see the module comment). */
  datatype Step = Step(
    input: Result<seq<byte>, int>, answer: Result<seq<byte>, int>,
    run: Run.ExecResult, verdict: (bool, string), stopAfter: bool)

  /**
   * How `run_hack_process` ended. `Suspended` is the model's horizon: the loop would
   * start another iteration but the script has no entry for it.
   */
  datatype Outcome =
    | CompilationFailed(fileName: string)
    | InputGenerationFailed
    | AnswerGenerationFailed
    | Crashed(message: string)
    | Finished
    | Suspended
  {
    /** An iteration of the loop ended the process. */
    predicate Early() {
      InputGenerationFailed? || AnswerGenerationFailed? || Crashed?
    }
  }

  datatype Report = Report(outcome: Outcome, dataCount: int, errorCount: int)

  const FILE_LIST: seq<string> := ["source code", "standard code", "generator code"]
  /** `file_info[1].capitalize()` for the three entries of FILE_LIST. */
  const CAPITALIZED: seq<string> := ["Source code", "Standard code", "Generator code"]

  /** `str(ZeroDivisionError)` for `data_count % 0`. */
  const MODULO_BY_ZERO: string := "integer modulo by zero"

  /** `str(TypeError)` for `data_count % None`. */
  const MODULO_BY_NONE: string := "unsupported operand type(s) for %: 'int' and 'NoneType'"

  /** What `data_count % refresh_speed` raises when it cannot be evaluated. */
  function ModuloFailure(refreshSpeed: Option<int>): (message: string)
    ensures message == MODULO_BY_NONE <==> refreshSpeed.None?
  {
    if refreshSpeed.None? then MODULO_BY_NONE else MODULO_BY_ZERO
  }

  const STORAGE_WARNING: string := "Hack data storage folder size exceeds 256 MB: "

  /** 256 MB, the storage size above which a warning is sent. */
  const STORAGE_WARNING_SIZE: int := 256 * 1024 * 1024

  /** `str(CompilationError(fileName, message))`. */
  function CompilationErrorText(capitalized: string, message: string): string {
    capitalized + " compilation failed.\n\n" + message
  }

  function InputGenerationErrorText(returnCode: int): string {
    "Input generation failed with return code " + IntToString(returnCode) + "."
  }

  function AnswerGenerationErrorText(returnCode: int): string {
    "Answer generation failed with return code " + IntToString(returnCode) + "."
  }

  /** `f"{result.returnCode}"`. */
  function ReturnCodeText(code: Option<int>): string {
    if code.Some? then IntToString(code.value) else "None"
  }

  // ---------------------------------------------------------------------------
  // The loop's decisions

  /** The guard of the main loop; a limit of 0 or less means unlimited. */
  predicate Continues(s: Settings, dataCount: int, errorCount: int, running: bool) {
    (s.maximumDataLimit <= 0 || dataCount < s.maximumDataLimit)
    && (s.errorDataLimit <= 0 || errorCount < s.errorDataLimit)
    && running
  }

  /** When the loop leaves while still running, a positive limit has been reached. */
  lemma StopCondition(s: Settings, dataCount: int, errorCount: int)
    ensures !Continues(s, dataCount, errorCount, true) <==>
      (s.maximumDataLimit > 0 && dataCount >= s.maximumDataLimit)
      || (s.errorDataLimit > 0 && errorCount >= s.errorDataLimit)
    ensures s.maximumDataLimit <= 0 && s.errorDataLimit <= 0 ==>
      (Continues(s, dataCount, errorCount, true) && !Continues(s, dataCount, errorCount, false))
  {
  }

  /** How a candidate run is judged. */
  datatype Verdict = MemoryLimitExceeded | TimeLimitExceeded | RuntimeError(code: Option<int>) | WrongAnswer(detail: string) | Accepted

  /** The run needs the checker: no memory or time breach and return code 0. */
  predicate Clean(r: Run.ExecResult) {
    !r.memoryOut && !r.timeOut && r.returnCode == Some(0)
  }

  /** Memory first, then time, then the return code, and only then the checker's verdict. */
  function Classify(r: Run.ExecResult, verdict: (bool, string)): Verdict {
    if r.memoryOut then MemoryLimitExceeded
    else if r.timeOut then TimeLimitExceeded
    else if r.returnCode != Some(0) then RuntimeError(r.returnCode)
    else if !verdict.0 then WrongAnswer(verdict.1)
    else Accepted
  }

  /** The checker's verdict only matters for a clean run, and a clean run is judged by it alone. */
  lemma CheckerOnlyForCleanRuns(r: Run.ExecResult, v1: (bool, string), v2: (bool, string))
    ensures !Clean(r) ==> Classify(r, v1) == Classify(r, v2) && Classify(r, v1) != Accepted
    ensures Clean(r) ==> (Classify(r, v1) == Accepted <==> v1.0)
  {
  }

  /** A memory breach wins over a time breach and a bad return code, and a time breach over the code. */
  lemma ClassifyPriority(r: Run.ExecResult, v: (bool, string))
    ensures r.memoryOut ==> Classify(r, v) == MemoryLimitExceeded
    ensures !r.memoryOut && r.timeOut ==> Classify(r, v) == TimeLimitExceeded
    ensures Classify(r, v).RuntimeError? ==> !r.memoryOut && !r.timeOut && Classify(r, v).code != Some(0)
  {
  }

  /** The `error_message` for a failing verdict of data number `t`. */
  function ErrorText(v: Verdict, t: int): string {
    match v
    case MemoryLimitExceeded => "Memory limit exceeded for data " + IntToString(t) + "."
    case TimeLimitExceeded => "Time limit exceeded for data " + IntToString(t) + "."
    case RuntimeError(code) => "Runtime error for data " + IntToString(t) + " with return code " + ReturnCodeText(code) + "."
    case WrongAnswer(detail) => "Wrong answer for data " + IntToString(t) + ". - " + detail
    case Accepted => ""
  }

  predicate IsError(s: Step) {
    Classify(s.run, s.verdict) != Accepted
  }

  /** No stop request arrived while the first `n` data were being processed. */
  predicate NoStopBefore(steps: seq<Step>, n: int)
  {
    forall k :: 0 <= k < n && k < |steps| ==> !steps[k].stopAfter
  }

  /** A data processed without a stop request extends the stretch without one. */
  lemma NoStopExtends(steps: seq<Step>, n: nat)
    requires NoStopBefore(steps, n - 1)
    requires !(n > 0 && n - 1 < |steps| && steps[n - 1].stopAfter)
    ensures NoStopBefore(steps, n)
  {
  }

  /** Input and answer were generated for every step. */
  predicate Generated(steps: seq<Step>) {
    forall k :: 0 <= k < |steps| ==> steps[k].input.Ok? && steps[k].answer.Ok?
  }

  /** The data numbers (1-based iteration numbers) of the failing iterations, in order. */
  function ErrorNumbers(steps: seq<Step>): (e: seq<int>)
    ensures |e| <= |steps|
    ensures forall j :: 0 <= j < |e| ==> 1 <= e[j] <= |steps|
    decreases |steps|
  {
    if steps == [] then []
    else
      var init := ErrorNumbers(steps[..|steps| - 1]);
      if IsError(steps[|steps| - 1]) then init + [|steps|] else init
  }

  /** The data numbers for which the checker was called, in order. */
  function CheckedNumbers(steps: seq<Step>): seq<int>
    decreases |steps|
  {
    if steps == [] then []
    else
      var init := CheckedNumbers(steps[..|steps| - 1]);
      if Clean(steps[|steps| - 1].run) then init + [|steps|] else init
  }

  /** The mismatch records of error number `n` for a step. */
  function Record(s: Settings, n: int, step: Step): SavedData
    requires step.input.Ok? && step.answer.Ok?
  {
    SavedData(n, s.inputPath, s.answerPath, s.outputPath,
      step.input.value, step.answer.value, step.run.stdout)
  }

  /** The file a save writes its input to. */
  function InputFile(cwd: string, d: SavedData): string {
    HackPaths.HackDataFilePath(cwd, d.errorNumber, d.inputPath)
  }

  /** The file a save writes its answer to. */
  function AnswerFile(cwd: string, d: SavedData): string {
    HackPaths.HackDataFilePath(cwd, d.errorNumber, d.answerPath)
  }

  /** The file a save writes the candidate's output to. */
  function OutputFile(cwd: string, d: SavedData): string {
    HackPaths.HackDataFilePath(cwd, d.errorNumber, d.outputPath)
  }

  /** The `save_error_data` calls of a sequence of completed iterations. */
  function Saves(s: Settings, steps: seq<Step>): seq<SavedData>
    requires Generated(steps)
    decreases |steps|
  {
    if steps == [] then []
    else
      var init := steps[..|steps| - 1];
      var last := steps[|steps| - 1];
      Saves(s, init) + (if IsError(last) then [Record(s, |ErrorNumbers(init)| + 1, last)] else [])
  }

  /** `statistics_update` is due at data number `t` (refresh speed `r`, previous iteration failing or not). */
  predicate StatisticsDue(t: int, r: int, previousError: bool)
    requires r != 0
  {
    t % r == 0 || previousError
  }

  /** The data numbers at which statistics are sent. */
  function StatisticsPoints(steps: seq<Step>, r: int): seq<int>
    requires r != 0
    decreases |steps|
  {
    if steps == [] then []
    else
      var n := |steps|;
      var init := StatisticsPoints(steps[..n - 1], r);
      if StatisticsDue(n, r, n >= 2 && IsError(steps[n - 2])) then init + [n] else init
  }

  /** The pairs (error_number, data_number) of `error_found` messages to a client. */
  function ErrorReports(clientId: string, log: seq<(string, Message)>): seq<(int, int)>
    decreases |log|
  {
    if log == [] then []
    else
      var last := log[|log| - 1];
      ErrorReports(clientId, log[..|log| - 1])
        + (if last.0 == clientId && last.1.ErrorFound? then [(last.1.errorNumber, last.1.dataNumber)] else [])
  }

  /** How many `statistics_update` messages a client was sent. */
  function StatisticsCount(clientId: string, log: seq<(string, Message)>): nat
    decreases |log|
  {
    if log == [] then 0
    else
      var last := log[|log| - 1];
      StatisticsCount(clientId, log[..|log| - 1]) + (if last.0 == clientId && last.1.StatisticsUpdate? then 1 else 0)
  }

  /** Sending one more message extends the reports and the statistics count by that message alone. */
  lemma LogAppend(clientId: string, log: seq<(string, Message)>, m: Message)
    ensures ErrorReports(clientId, log + [(clientId, m)]) == ErrorReports(clientId, log)
      + (if m.ErrorFound? then [(m.errorNumber, m.dataNumber)] else [])
    ensures StatisticsCount(clientId, log + [(clientId, m)]) == StatisticsCount(clientId, log) + (if m.StatisticsUpdate? then 1 else 0)
  {
    assert (log + [(clientId, m)])[..|log|] == log;
  }

  /** Error numbers paired with data numbers: the j-th failing iteration gets error number j + 1. */
  function Numbered(e: seq<int>): (r: seq<(int, int)>)
    ensures |r| == |e|
    ensures forall j :: 0 <= j < |e| ==> r[j] == (j + 1, e[j])
  {
    seq(|e|, j requires 0 <= j < |e| => (j + 1, e[j]))
  }

  // ---------------------------------------------------------------------------
  // Properties of the loop's bookkeeping

  /** Every failing iteration, and only those, has its data number among the error numbers. */
  lemma {:induction false} ErrorNumbersExact(steps: seq<Step>, t: int)
    ensures t in ErrorNumbers(steps) <==> 1 <= t <= |steps| && IsError(steps[t - 1])
    decreases |steps|
  {
    if steps != [] {
      var init := steps[..|steps| - 1];
      ErrorNumbersExact(init, t);
      if 1 <= t < |steps| {
        assert init[t - 1] == steps[t - 1];
      }
    }
  }

  /** Error numbers are strictly increasing, so no data number is reported twice. */
  lemma {:induction false} ErrorNumbersIncreasing(steps: seq<Step>)
    ensures forall i, j :: 0 <= i < j < |ErrorNumbers(steps)| ==> ErrorNumbers(steps)[i] < ErrorNumbers(steps)[j]
    decreases |steps|
  {
    if steps != [] {
      ErrorNumbersIncreasing(steps[..|steps| - 1]);
    }
  }

  /** There is one save per failing iteration. */
  lemma {:induction false} SavesLength(s: Settings, steps: seq<Step>)
    requires Generated(steps)
    ensures |Saves(s, steps)| == |ErrorNumbers(steps)|
    decreases |steps|
  {
    if steps != [] {
      SavesLength(s, steps[..|steps| - 1]);
    }
  }

  /** The data of a shorter prefix was generated too. */
  lemma GeneratedPrefix(steps: seq<Step>, m: nat, n: nat)
    requires n <= m <= |steps| && Generated(steps[..m])
    ensures Generated(steps[..n])
  {
    forall k | 0 <= k < n ensures steps[..n][k] == steps[..m][k] { }
  }

  /** The j-th save of the first `m` iterations has error number j + 1 and the data of the j-th failing one. */
  lemma {:induction false} SaveAt(s: Settings, steps: seq<Step>, m: nat, j: nat)
    requires m <= |steps| && Generated(steps[..m]) && j < |ErrorNumbers(steps[..m])|
    ensures |Saves(s, steps[..m])| == |ErrorNumbers(steps[..m])|
    ensures ErrorNumbers(steps[..m])[j] <= m
    ensures Saves(s, steps[..m])[j] == Record(s, j + 1, steps[ErrorNumbers(steps[..m])[j] - 1])
    decreases m
  {
    var n := m - 1;
    GeneratedPrefix(steps, m, n);
    ExtendNumbers(steps, n);
    ExtendSaves(s, steps, n);
    SavesLength(s, steps[..n]);
    SavesLength(s, steps[..m]);
    var before, after := Saves(s, steps[..n]), Saves(s, steps[..m]);
    var numbers := ErrorNumbers(steps[..n]);
    if j < |numbers| {
      SaveAt(s, steps, n, j);
      assert after[j] == before[j];
      assert ErrorNumbers(steps[..m])[j] == numbers[j];
    } else {
      assert IsError(steps[n]);
      assert after[j] == Record(s, j + 1, steps[n]);
      assert ErrorNumbers(steps[..m])[j] == m;
    }
  }

  /** Every save has the error number of its position and the data of the matching failing iteration. */
  lemma SavesNumbered(s: Settings, steps: seq<Step>)
    requires Generated(steps)
    ensures |Saves(s, steps)| == |ErrorNumbers(steps)|
    ensures forall j :: 0 <= j < |ErrorNumbers(steps)| ==>
      Saves(s, steps)[j] == Record(s, j + 1, steps[ErrorNumbers(steps)[j] - 1])
  {
    SavesLength(s, steps);
    assert steps[..|steps|] == steps;
    forall j | 0 <= j < |ErrorNumbers(steps)|
      ensures Saves(s, steps)[j] == Record(s, j + 1, steps[ErrorNumbers(steps)[j] - 1])
    {
      SaveAt(s, steps, |steps|, j);
    }
  }

  /** Saves never overwrite each other: with "$(id)" in the template, every save writes its own input file. */
  lemma SavedInputFilesDistinct(cwd: string, s: Settings, steps: seq<Step>, i: nat, j: nat)
    requires Generated(steps)
    requires Text.Occurs(s.inputPath, HackPaths.PLACEHOLDER)
    requires i < j < |Saves(s, steps)|
    ensures InputFile(cwd, Saves(s, steps)[i]) != InputFile(cwd, Saves(s, steps)[j])
  {
    SavesNumbered(s, steps);
    InputFilesDistinct(cwd, Saves(s, steps)[i], Saves(s, steps)[j]);
  }

  /** Two saves with different error numbers and the same template naming the id write different input files. */
  lemma InputFilesDistinct(cwd: string, d1: SavedData, d2: SavedData)
    requires d1.inputPath == d2.inputPath && Text.Occurs(d1.inputPath, HackPaths.PLACEHOLDER)
    requires d1.errorNumber != d2.errorNumber
    ensures InputFile(cwd, d1) != InputFile(cwd, d2)
  {
    if InputFile(cwd, d1) == InputFile(cwd, d2) {
      HackPaths.DataFilePathInjective(cwd, d1.errorNumber, d2.errorNumber, d1.inputPath);
    }
  }

  /** The checker is called for exactly the iterations whose run was clean. */
  lemma {:induction false} CheckedExactlyClean(steps: seq<Step>, t: int)
    ensures t in CheckedNumbers(steps) <==> 1 <= t <= |steps| && Clean(steps[t - 1].run)
    decreases |steps|
  {
    if steps != [] {
      var init := steps[..|steps| - 1];
      CheckedExactlyClean(init, t);
      if 1 <= t < |steps| {
        assert init[t - 1] == steps[t - 1];
      }
      assert forall u :: u in CheckedNumbers(init) ==> u in CheckedNumbers(steps);
    }
  }

  /** An iteration after a failing one always sends statistics. */
  lemma {:induction false} StatisticsAfterError(steps: seq<Step>, r: int, t: int)
    requires r != 0
    requires 1 <= t < |steps| && IsError(steps[t - 1])
    ensures t + 1 in StatisticsPoints(steps, r)
    decreases |steps|
  {
    var init := steps[..|steps| - 1];
    if t + 1 < |steps| {
      assert init[t - 1] == steps[t - 1];
      StatisticsAfterError(init, r, t);
    }
  }

  /** Without failing iterations, statistics are sent at exactly the multiples of the refresh speed. */
  lemma {:induction false} StatisticsPeriodic(steps: seq<Step>, r: int, t: int)
    requires r != 0
    requires forall k :: 0 <= k < |steps| ==> !IsError(steps[k])
    ensures t in StatisticsPoints(steps, r) <==> 1 <= t <= |steps| && t % r == 0
    decreases |steps|
  {
    if steps != [] {
      var init := steps[..|steps| - 1];
      StatisticsPeriodic(init, r, t);
    }
  }

  /** Each `error_found` report pairs the error number with the data number of the same iteration. */
  lemma ReportsMatchSaves(s: Settings, steps: seq<Step>, j: nat)
    requires Generated(steps)
    requires j < |ErrorNumbers(steps)|
    ensures |Saves(s, steps)| == |ErrorNumbers(steps)|
    ensures Numbered(ErrorNumbers(steps))[j].0 == Saves(s, steps)[j].errorNumber
    ensures IsError(steps[Numbered(ErrorNumbers(steps))[j].1 - 1])
  {
    SavesNumbered(s, steps);
    ErrorNumbersExact(steps, ErrorNumbers(steps)[j]);
  }

  /** The first `n + 1` script entries are the first `n` followed by entry `n`. */
  lemma PrefixStep(steps: seq<Step>, n: nat)
    requires n < |steps|
    ensures |steps[..n + 1]| == n + 1
    ensures steps[..n + 1][..n] == steps[..n]
    ensures steps[..n + 1][n] == steps[n]
    ensures n > 0 ==> steps[..n + 1][n - 1] == steps[n - 1]
  {
  }

  /** One more completed iteration adds its own data number to the failures and checker calls, if any. */
  lemma ExtendNumbers(steps: seq<Step>, n: nat)
    requires n < |steps|
    ensures ErrorNumbers(steps[..n + 1]) == ErrorNumbers(steps[..n]) + (if IsError(steps[n]) then [n + 1] else [])
    ensures CheckedNumbers(steps[..n + 1]) == CheckedNumbers(steps[..n]) + (if Clean(steps[n].run) then [n + 1] else [])
  {
    PrefixStep(steps, n);
  }

  /** One more completed iteration adds its own save, if it failed. */
  lemma ExtendSaves(s: Settings, steps: seq<Step>, n: nat)
    requires n < |steps|
    requires Generated(steps[..n]) && steps[n].input.Ok? && steps[n].answer.Ok?
    ensures Generated(steps[..n + 1])
    ensures Saves(s, steps[..n + 1]) == Saves(s, steps[..n])
      + (if IsError(steps[n]) then [Record(s, |ErrorNumbers(steps[..n])| + 1, steps[n])] else [])
  {
    PrefixStep(steps, n);
  }

  /** One more completed iteration adds its own `error_found` report, if it failed. */
  lemma ExtendReports(steps: seq<Step>, n: nat)
    requires n < |steps|
    ensures Numbered(ErrorNumbers(steps[..n + 1])) == Numbered(ErrorNumbers(steps[..n]))
      + (if IsError(steps[n]) then [(|ErrorNumbers(steps[..n])| + 1, n + 1)] else [])
  {
    ExtendNumbers(steps, n);
  }

  /** One more completed iteration adds its own statistics message, if one is due. */
  lemma ExtendStatistics(steps: seq<Step>, r: int, n: nat)
    requires n < |steps| && r != 0
    ensures StatisticsPoints(steps[..n + 1], r) == StatisticsPoints(steps[..n], r)
      + (if StatisticsDue(n + 1, r, n > 0 && IsError(steps[n - 1])) then [n + 1] else [])
  {
    PrefixStep(steps, n);
  }

  /**
   * The records of the loop after `n` completed iterations: the error count, the saves,
   * the checker calls, the `error_found` reports and the statistics messages, each the
   * values before the loop (`saved0`, `checked0`, `sent0`) extended by what the first
   * `n` script entries call for.
   */
  ghost predicate Recorded(clientId: string, s: Settings, steps: seq<Step>, n: nat, errorCount: int,
                           saved: seq<SavedData>, checked: seq<int>, sent: seq<(string, Message)>,
                           saved0: seq<SavedData>, checked0: seq<int>, sent0: seq<(string, Message)>)
  {
    n <= |steps| && Generated(steps[..n])
    && errorCount == |ErrorNumbers(steps[..n])|
    && saved == saved0 + Saves(s, steps[..n])
    && checked == checked0 + CheckedNumbers(steps[..n])
    && ErrorReports(clientId, sent) == ErrorReports(clientId, sent0) + Numbered(ErrorNumbers(steps[..n]))
    && (s.Refreshes() ==>
          StatisticsCount(clientId, sent) == StatisticsCount(clientId, sent0) + |StatisticsPoints(steps[..n], s.refreshSpeed.value)|)
  }

  /** One completed iteration that records what its script entry calls for keeps the records up to date. */
  lemma RecordedStep(clientId: string, s: Settings, steps: seq<Step>, n: nat, errorCount: int, lastStatusError: bool,
                     saved: seq<SavedData>, checked: seq<int>, sent: seq<(string, Message)>,
                     saved': seq<SavedData>, checked': seq<int>, sent': seq<(string, Message)>,
                     saved0: seq<SavedData>, checked0: seq<int>, sent0: seq<(string, Message)>)
    requires n < |steps| && steps[n].input.Ok? && steps[n].answer.Ok? && s.Refreshes()
    requires Recorded(clientId, s, steps, n, errorCount, saved, checked, sent, saved0, checked0, sent0)
    requires lastStatusError == (n > 0 && IsError(steps[n - 1]))
    requires saved' == saved + (if IsError(steps[n]) then [Record(s, errorCount + 1, steps[n])] else [])
    requires checked' == checked + (if Clean(steps[n].run) then [n + 1] else [])
    requires ErrorReports(clientId, sent') == ErrorReports(clientId, sent) + (if IsError(steps[n]) then [(errorCount + 1, n + 1)] else [])
    requires StatisticsCount(clientId, sent') ==
      StatisticsCount(clientId, sent) + (if StatisticsDue(n + 1, s.refreshSpeed.value, lastStatusError) then 1 else 0)
    ensures Recorded(clientId, s, steps, n + 1, errorCount + (if IsError(steps[n]) then 1 else 0),
                     saved', checked', sent', saved0, checked0, sent0)
  {
    StepSaves(s, steps, n, errorCount, saved, saved', saved0);
    StepChecked(steps, n, checked, checked', checked0);
    StepReports(clientId, steps, n, errorCount, sent, sent', sent0);
    StepStatistics(clientId, s.refreshSpeed.value, steps, n, lastStatusError, sent, sent', sent0);
  }

  /** The saves after one more iteration are those before, then its own if it failed. */
  lemma StepSaves(s: Settings, steps: seq<Step>, n: nat, errorCount: int,
                  saved: seq<SavedData>, saved': seq<SavedData>, saved0: seq<SavedData>)
    requires n < |steps| && Generated(steps[..n]) && steps[n].input.Ok? && steps[n].answer.Ok?
    requires errorCount == |ErrorNumbers(steps[..n])|
    requires saved == saved0 + Saves(s, steps[..n])
    requires saved' == saved + (if IsError(steps[n]) then [Record(s, errorCount + 1, steps[n])] else [])
    ensures Generated(steps[..n + 1])
    ensures saved' == saved0 + Saves(s, steps[..n + 1])
  {
    ExtendSaves(s, steps, n);
    AppendAssoc(saved0, Saves(s, steps[..n]), if IsError(steps[n]) then [Record(s, errorCount + 1, steps[n])] else []);
  }

  /** The checker calls after one more iteration are those before, then its own if its run was clean. */
  lemma StepChecked(steps: seq<Step>, n: nat, checked: seq<int>, checked': seq<int>, checked0: seq<int>)
    requires n < |steps|
    requires checked == checked0 + CheckedNumbers(steps[..n])
    requires checked' == checked + (if Clean(steps[n].run) then [n + 1] else [])
    ensures checked' == checked0 + CheckedNumbers(steps[..n + 1])
  {
    ExtendNumbers(steps, n);
    AppendAssoc(checked0, CheckedNumbers(steps[..n]), if Clean(steps[n].run) then [n + 1] else []);
  }

  /** The error count and `error_found` reports after one more iteration follow its failure, if any. */
  lemma StepReports(clientId: string, steps: seq<Step>, n: nat, errorCount: int,
                    sent: seq<(string, Message)>, sent': seq<(string, Message)>, sent0: seq<(string, Message)>)
    requires n < |steps|
    requires errorCount == |ErrorNumbers(steps[..n])|
    requires ErrorReports(clientId, sent) == ErrorReports(clientId, sent0) + Numbered(ErrorNumbers(steps[..n]))
    requires ErrorReports(clientId, sent') == ErrorReports(clientId, sent) + (if IsError(steps[n]) then [(errorCount + 1, n + 1)] else [])
    ensures errorCount + (if IsError(steps[n]) then 1 else 0) == |ErrorNumbers(steps[..n + 1])|
    ensures ErrorReports(clientId, sent') == ErrorReports(clientId, sent0) + Numbered(ErrorNumbers(steps[..n + 1]))
  {
    ExtendNumbers(steps, n);
    ExtendReports(steps, n);
    AppendAssoc(ErrorReports(clientId, sent0), Numbered(ErrorNumbers(steps[..n])),
                if IsError(steps[n]) then [(errorCount + 1, n + 1)] else []);
  }

  /** The statistics messages after one more iteration are those before, then one if due. */
  lemma StepStatistics(clientId: string, r: int, steps: seq<Step>, n: nat, lastStatusError: bool,
                       sent: seq<(string, Message)>, sent': seq<(string, Message)>, sent0: seq<(string, Message)>)
    requires n < |steps| && r != 0
    requires lastStatusError == (n > 0 && IsError(steps[n - 1]))
    requires StatisticsCount(clientId, sent) == StatisticsCount(clientId, sent0) + |StatisticsPoints(steps[..n], r)|
    requires StatisticsCount(clientId, sent') == StatisticsCount(clientId, sent) + (if StatisticsDue(n + 1, r, lastStatusError) then 1 else 0)
    ensures StatisticsCount(clientId, sent') == StatisticsCount(clientId, sent0) + |StatisticsPoints(steps[..n + 1], r)|
  {
    ExtendStatistics(steps, r, n);
  }

  /** Appending is associative. */
  lemma AppendAssoc<T>(a: seq<T>, b: seq<T>, c: seq<T>)
    ensures (a + b) + c == a + (b + c)
  {
  }

  /** Messages other than `error_found` and `statistics_update` leave the records as they are. */
  lemma RecordedQuiet(clientId: string, s: Settings, steps: seq<Step>, n: nat, errorCount: int,
                      saved: seq<SavedData>, checked: seq<int>, sent: seq<(string, Message)>, sent': seq<(string, Message)>,
                      saved0: seq<SavedData>, checked0: seq<int>, sent0: seq<(string, Message)>)
    requires Recorded(clientId, s, steps, n, errorCount, saved, checked, sent, saved0, checked0, sent0)
    requires ErrorReports(clientId, sent') == ErrorReports(clientId, sent)
    requires StatisticsCount(clientId, sent') == StatisticsCount(clientId, sent)
    ensures Recorded(clientId, s, steps, n, errorCount, saved, checked, sent', saved0, checked0, sent0)
  {
  }

  /** Before the first iteration the records are those from before the loop. */
  lemma RecordedStart(clientId: string, s: Settings, steps: seq<Step>,
                      saved0: seq<SavedData>, checked0: seq<int>, sent: seq<(string, Message)>, sent0: seq<(string, Message)>)
    requires ErrorReports(clientId, sent) == ErrorReports(clientId, sent0)
    requires StatisticsCount(clientId, sent) == StatisticsCount(clientId, sent0)
    ensures Recorded(clientId, s, steps, 0, 0, saved0, checked0, sent, saved0, checked0, sent0)
  {
    assert steps[..0] == [];
    assert saved0 + [] == saved0 && checked0 + [] == checked0;
    assert ErrorReports(clientId, sent0) + [] == ErrorReports(clientId, sent0);
  }

  // ---------------------------------------------------------------------------
  // The backend

  /**
   * The dictionary `self.sessions[client_id]`, shared by reference: `run_hack_process`
   * keeps the object it found at its start and `handle_stop` writes to the same one.
   */
  class SessionState {
    var initialized: bool
    var running: bool
    var dataCount: int
    var errorDataCount: int
    var startTime: Option<real>
    var symlinkFallback: bool

    /** The dictionary `handle_init` stores. */
    constructor (symlinkFallback: bool)
      ensures Value() == Session(true, false, 0, 0, None, symlinkFallback)
    {
      initialized := true;
      running := false;
      dataCount := 0;
      errorDataCount := 0;
      startTime := None;
      this.symlinkFallback := symlinkFallback;
    }

    /** The current contents of the dictionary. */
    function Value(): Session
      reads this
    {
      Session(initialized, running, dataCount, errorDataCount, startTime, symlinkFallback)
    }
  }

  class Backend {
    /** The working directory the storage paths are under. */
    const cwd: string
    var sessions: map<string, SessionState>
    var sent: seq<(string, Message)>
    var saved: seq<SavedData>
    /** The data numbers `basicChecker` was called for. */
    var checked: seq<int>

    constructor (cwd: string)
      ensures this.cwd == cwd
      ensures sessions == map[] && sent == [] && saved == [] && checked == []
    {
      this.cwd := cwd;
      sessions := map[];
      sent := [];
      saved := [];
      checked := [];
    }

    /** The session record of a client, if it has one. */
    function SessionOf(clientId: string): Option<Session>
      reads this, sessions.Values
    {
      if clientId in sessions then Some(sessions[clientId].Value()) else None
    }

    /** `send_message(client_id, message)`; whether the client is still connected is not modelled. */
    method Send(clientId: string, m: Message)
      modifies this`sent
      ensures sent == old(sent) + [(clientId, m)]
    {
      sent := sent + [(clientId, m)];
    }

    /** `send_message` of a message that is neither a report nor statistics. */
    method SendQuiet(clientId: string, m: Message)
      requires !m.ErrorFound? && !m.StatisticsUpdate?
      modifies this`sent
      ensures sent == old(sent) + [(clientId, m)]
      ensures ErrorReports(clientId, sent) == ErrorReports(clientId, old(sent))
      ensures StatisticsCount(clientId, sent) == StatisticsCount(clientId, old(sent))
    {
      Send(clientId, m);
      LogAppend(clientId, old(sent), m);
    }

    /**
     * `handle_init(client_id, data)`: `setup` is how the directory, logger, config and
     * link preparation ended: whether the symlink fallback was needed, or the text of
     * the exception raised. A new dictionary replaces any earlier one of the client.
     */
    method HandleInit(clientId: string, setup: Result<bool, string>)
      modifies this`sessions, this`sent
      ensures setup.Ok? ==>
        (sessions.Keys == old(sessions).Keys + {clientId}
         && fresh(sessions[clientId]) && sessions[clientId].Value() == Session(true, false, 0, 0, None, setup.value)
         && (forall c :: c in old(sessions) && c != clientId ==> sessions[c] == old(sessions)[c])
         && sent == old(sent) + [(clientId, InitSuccess(clientId, HackPaths.HackDataStorageFolderPath(cwd, clientId), setup.value))])
      ensures setup.Err? ==>
        sessions == old(sessions) && sent == old(sent) + [(clientId, Error(setup.error, "init_error"))]
    {
      if setup.Err? {
        Send(clientId, Error(setup.error, "init_error"));
        return;
      }
      var session := new SessionState(setup.value);
      sessions := sessions[clientId := session];
      Send(clientId, InitSuccess(clientId, HackPaths.HackDataStorageFolderPath(cwd, clientId), setup.value));
    }

    /** `handle_start(client_id)`; `launched` says that `run_hack_process` was scheduled. */
    method HandleStart(clientId: string, now: real) returns (launched: bool)
      modifies this`sent, if clientId in sessions then {sessions[clientId]} else {}
      ensures launched <==> clientId in sessions && !old(sessions[clientId].running)
      ensures clientId !in sessions ==> sent == old(sent) + [(clientId, Error("Session not initialized", "session_error"))]
      ensures clientId in sessions && old(sessions[clientId].running) ==>
        sessions[clientId].Value() == old(sessions[clientId].Value())
        && sent == old(sent) + [(clientId, Error("Already running", "state_error"))]
      ensures launched ==>
        sessions[clientId].Value() == old(sessions[clientId].Value()).(running := true, dataCount := 0, errorDataCount := 0, startTime := Some(now))
        && sent == old(sent)
    {
      if clientId !in sessions {
        Send(clientId, Error("Session not initialized", "session_error"));
        return false;
      }
      var session := sessions[clientId];
      if session.running {
        Send(clientId, Error("Already running", "state_error"));
        return false;
      }
      session.running := true;
      session.dataCount := 0;
      session.errorDataCount := 0;
      session.startTime := Some(now);
      launched := true;
    }

    /** `handle_stop(client_id)`: clears `running`, so the loop guard fails at its next check. */
    method HandleStop(clientId: string)
      modifies this`sent, (if clientId in sessions then {sessions[clientId]} else {})`running
      ensures clientId in sessions ==>
        !sessions[clientId].running && sent == old(sent) + [(clientId, Stopped("Process stopped by user"))]
      ensures clientId !in sessions ==> sent == old(sent)
      ensures ErrorReports(clientId, sent) == ErrorReports(clientId, old(sent))
      ensures StatisticsCount(clientId, sent) == StatisticsCount(clientId, old(sent))
    {
      if clientId in sessions {
        sessions[clientId].running := false;
        Send(clientId, Stopped("Process stopped by user"));
        LogAppend(clientId, old(sent), Stopped("Process stopped by user"));
      }
    }

    /** `handle_get_status(client_id)`: reports without changing anything. */
    method HandleGetStatus(clientId: string)
      modifies this`sent
      ensures SessionOf(clientId).None? ==> sent == old(sent) + [(clientId, StatusUninitialized)]
      ensures SessionOf(clientId).Some? ==>
        var s := SessionOf(clientId).value;
        sent == old(sent) + [(clientId, Status(s.initialized, s.running, s.dataCount, s.errorDataCount))]
    {
      if clientId !in sessions {
        Send(clientId, StatusUninitialized);
        return;
      }
      var s := sessions[clientId];
      Send(clientId, Status(s.initialized, s.running, s.dataCount, s.errorDataCount));
    }

    /** `save_error_data(error_count, ...)`: one call, writing the three files named after the error number. */
    method SaveErrorData(errorCount: int, input: seq<byte>, answer: seq<byte>, output: seq<byte>, s: Settings)
      modifies this`saved
      ensures saved == old(saved) + [SavedData(errorCount, s.inputPath, s.answerPath, s.outputPath, input, answer, output)]
    {
      saved := saved + [SavedData(errorCount, s.inputPath, s.answerPath, s.outputPath, input, answer, output)];
    }

    /** The compilation stage: the three programs in FILE_LIST order, stopping at the first failure. */
    method CompileAll(clientId: string, compile: seq<Option<string>>) returns (failed: Option<nat>)
      requires |compile| == |FILE_LIST|
      modifies this`sent
      ensures failed.Some? ==> (failed.value < |FILE_LIST| && compile[failed.value].Some?
        && forall k :: 0 <= k < failed.value ==> compile[k].None?)
      ensures failed.None? <==> forall k :: 0 <= k < |FILE_LIST| ==> compile[k].None?
      ensures ErrorReports(clientId, sent) == ErrorReports(clientId, old(sent))
      ensures StatisticsCount(clientId, sent) == StatisticsCount(clientId, old(sent))
      ensures failed.Some? ==> |sent| > 0 && sent[|sent| - 1] == (clientId,
        CompilationError(CompilationErrorText(CAPITALIZED[failed.value], compile[failed.value].value), FILE_LIST[failed.value]))
    {
      SendQuiet(clientId, StatusUpdate("compiling", "开始编译..."));
      for k := 0 to |FILE_LIST|
        invariant forall j :: 0 <= j < k ==> compile[j].None?
        invariant ErrorReports(clientId, sent) == ErrorReports(clientId, old(sent))
        invariant StatisticsCount(clientId, sent) == StatisticsCount(clientId, old(sent))
      {
        SendQuiet(clientId, StatusUpdate("compiling", "编译 " + FILE_LIST[k] + "..."));
        if compile[k].Some? {
          SendQuiet(clientId, CompilationError(CompilationErrorText(CAPITALIZED[k], compile[k].value), FILE_LIST[k]));
          return Some(k);
        }
      }
      SendQuiet(clientId, StatusUpdate("compiled", "编译完成"));
      failed := None;
    }

    /** The statistics point of data number `t`: sent on multiples of the refresh speed and after a failure. */
    method SendStatistics(clientId: string, s: Settings, t: int, lastStatusError: bool) returns (newLastStatusError: bool)
      requires s.Refreshes()
      modifies this`sent
      ensures newLastStatusError == (lastStatusError && !StatisticsDue(t, s.refreshSpeed.value, lastStatusError))
      ensures sent == old(sent) + (if StatisticsDue(t, s.refreshSpeed.value, lastStatusError) then [(clientId, StatisticsUpdate)] else [])
      ensures ErrorReports(clientId, sent) == ErrorReports(clientId, old(sent))
      ensures StatisticsCount(clientId, sent) ==
        StatisticsCount(clientId, old(sent)) + (if StatisticsDue(t, s.refreshSpeed.value, lastStatusError) then 1 else 0)
    {
      newLastStatusError := lastStatusError;
      if t % s.refreshSpeed.value == 0 || newLastStatusError {
        newLastStatusError := false;
        Send(clientId, StatisticsUpdate);
        LogAppend(clientId, old(sent), StatisticsUpdate);
      }
    }

    /**
     * The classification of data number `t` from the candidate's result on, and for a
     * failure the save and the `error_found` message. Returns the new error count and
     * whether the iteration failed (the new `last_status_error`).
     */
    method Judge(clientId: string, session: SessionState, s: Settings, t: int, step: Step, errorCount: int)
      returns (newErrorCount: int, errorFound: bool)
      requires step.input.Ok? && step.answer.Ok?
      modifies this`sent, this`saved, this`checked, session`errorDataCount
      ensures errorFound == IsError(step)
      ensures newErrorCount == errorCount + (if IsError(step) then 1 else 0)
      ensures checked == old(checked) + (if Clean(step.run) then [t] else [])
      ensures saved == old(saved) + (if IsError(step) then [Record(s, newErrorCount, step)] else [])
      ensures session.errorDataCount == if IsError(step) then newErrorCount else old(session.errorDataCount)
      ensures sent == old(sent)
        + (if IsError(step) then [(clientId, ErrorFound(newErrorCount, t, ErrorText(Classify(step.run, step.verdict), t)))] else [])
      ensures ErrorReports(clientId, sent) == ErrorReports(clientId, old(sent)) + (if IsError(step) then [(newErrorCount, t)] else [])
      ensures StatisticsCount(clientId, sent) == StatisticsCount(clientId, old(sent))
    {
      newErrorCount := errorCount;
      var result := step.run;
      // The branches of the classification, each naming the verdict it reaches.
      var verdict := Accepted;
      if result.memoryOut {
        verdict := MemoryLimitExceeded;
      } else if result.timeOut {
        verdict := TimeLimitExceeded;
      } else if result.returnCode != Some(0) {
        verdict := RuntimeError(result.returnCode);
      } else {
        checked := checked + [t];
        var checkerResult := step.verdict;
        if !checkerResult.0 {
          verdict := WrongAnswer(checkerResult.1);
        }
      }
      assert verdict == Classify(step.run, step.verdict);
      errorFound := verdict != Accepted;
      var errorMessage := ErrorText(verdict, t);
      if errorFound {
        newErrorCount := newErrorCount + 1;
        session.errorDataCount := newErrorCount;
        SaveErrorData(newErrorCount, step.input.value, step.answer.value, result.stdout, s);
        Send(clientId, ErrorFound(newErrorCount, t, errorMessage));
        LogAppend(clientId, old(sent), ErrorFound(newErrorCount, t, errorMessage));
      }
    }

    /**
     * The first half of the loop body for data number `n + 1`: the progress messages,
     * input and answer generation, and the candidate's run up to the statistics point,
     * where a refresh speed of 0 or a missing one raises. `abort` is how the process ends early, if it does.
     */
    method Generate(clientId: string, session: SessionState, s: Settings, n: nat, errorCount: int, step: Step)
      returns (abort: Option<Outcome>)
      modifies this`sent, session`dataCount, session`running
      ensures session.dataCount == n + 1
      ensures session.running == (abort.None? && old(session.running))
      ensures ErrorReports(clientId, sent) == ErrorReports(clientId, old(sent))
      ensures StatisticsCount(clientId, sent) == StatisticsCount(clientId, old(sent))
      ensures abort.None? <==> step.input.Ok? && step.answer.Ok? && s.Refreshes()
      ensures abort == Some(InputGenerationFailed) <==> step.input.Err?
      ensures abort == Some(AnswerGenerationFailed) <==> step.input.Ok? && step.answer.Err?
      ensures abort == Some(Crashed(ModuloFailure(s.refreshSpeed))) <==> step.input.Ok? && step.answer.Ok? && !s.Refreshes()
      ensures abort.Some? ==> LastIs(sent, (clientId, AbortMessage(s, step)))
    {
      var dataCount := n + 1;
      session.dataCount := dataCount;
      SendQuiet(clientId, ProgressUpdate(dataCount, errorCount, "generating_input"));
      if step.input.Err? {
        SendQuiet(clientId, Error(InputGenerationErrorText(step.input.error), "input_generation_error"));
        session.running := false;
        return Some(InputGenerationFailed);
      }
      SendQuiet(clientId, ProgressUpdate(dataCount, errorCount, "generating_answer"));
      if step.answer.Err? {
        SendQuiet(clientId, Error(AnswerGenerationErrorText(step.answer.error), "answer_generation_error"));
        session.running := false;
        return Some(AnswerGenerationFailed);
      }
      SendQuiet(clientId, ProgressUpdate(dataCount, errorCount, "running_source"));
      if !s.Refreshes() {
        // `data_count % refresh_speed` raises; the handler reports it and `finally` clears `running`.
        SendQuiet(clientId, Error(ModuloFailure(s.refreshSpeed), "runtime_error"));
        session.running := false;
        return Some(Crashed(ModuloFailure(s.refreshSpeed)));
      }
      abort := None;
    }

    /**
     * The second half of the loop body for data number `n + 1`: the statistics point, the
     * judgement, and a stop request arriving meanwhile.
     */
    method Evaluate(clientId: string, session: SessionState, s: Settings, steps: seq<Step>, n: nat, errorCount: int,
                    lastStatusError: bool, ghost saved0: seq<SavedData>, ghost checked0: seq<int>, ghost sent0: seq<(string, Message)>)
      returns (newErrorCount: int, newLastStatusError: bool)
      requires n < |steps| && clientId in sessions && sessions[clientId] == session
      requires steps[n].input.Ok? && steps[n].answer.Ok? && s.Refreshes()
      requires Recorded(clientId, s, steps, n, errorCount, saved, checked, sent, saved0, checked0, sent0)
      requires lastStatusError == (n > 0 && IsError(steps[n - 1]))
      modifies this`sent, this`saved, this`checked, session`errorDataCount, session`running
      ensures session.errorDataCount == if IsError(steps[n]) then newErrorCount else old(session.errorDataCount)
      ensures session.running == (old(session.running) && !steps[n].stopAfter)
      ensures newErrorCount == errorCount + (if IsError(steps[n]) then 1 else 0)
      ensures newLastStatusError == IsError(steps[n])
      ensures Recorded(clientId, s, steps, n + 1, newErrorCount, saved, checked, sent, saved0, checked0, sent0)
    {
      var step := steps[n];
      newLastStatusError := SendStatistics(clientId, s, n + 1, lastStatusError);
      var errorFound;
      newErrorCount, errorFound := Judge(clientId, session, s, n + 1, step, errorCount);
      if errorFound {
        newLastStatusError := true;
      }
      if step.stopAfter {
        HandleStop(clientId);
      }
      RecordedStep(clientId, s, steps, n, errorCount, lastStatusError,
        old(saved), old(checked), old(sent), saved, checked, sent, saved0, checked0, sent0);
    }

    /** One iteration of the loop for data number `n + 1`, from the progress messages to the stop check. */
    method Iteration(clientId: string, session: SessionState, s: Settings, steps: seq<Step>, n: nat, errorCount: int,
                     lastStatusError: bool, ghost saved0: seq<SavedData>, ghost checked0: seq<int>, ghost sent0: seq<(string, Message)>)
      returns (abort: Option<Outcome>, newErrorCount: int, newLastStatusError: bool)
      requires n < |steps| && clientId in sessions && sessions[clientId] == session
      requires Recorded(clientId, s, steps, n, errorCount, saved, checked, sent, saved0, checked0, sent0)
      requires lastStatusError == (n > 0 && IsError(steps[n - 1]))
      modifies this`sent, this`saved, this`checked, session`dataCount, session`errorDataCount, session`running
      ensures abort.None? <==> steps[n].input.Ok? && steps[n].answer.Ok? && s.Refreshes()
      ensures abort.Some? ==> abort.value.InputGenerationFailed? || abort.value.AnswerGenerationFailed? || abort.value.Crashed?
      ensures abort.Some? ==> EndedEarly(clientId, s, steps, abort.value, n + 1, sent)
      ensures newErrorCount == errorCount + (if abort.None? && IsError(steps[n]) then 1 else 0)
      ensures abort.None? ==> newLastStatusError == IsError(steps[n])
      ensures session.dataCount == n + 1
      ensures session.errorDataCount == if newErrorCount != errorCount then newErrorCount else old(session.errorDataCount)
      ensures session.running == (old(session.running) && abort.None? && !steps[n].stopAfter)
      ensures Recorded(clientId, s, steps, if abort.None? then n + 1 else n, newErrorCount, saved, checked, sent, saved0, checked0, sent0)
    {
      ghost var sentC := sent;
      abort := Generate(clientId, session, s, n, errorCount, steps[n]);
      RecordedQuiet(clientId, s, steps, n, errorCount, saved, checked, sentC, sent, saved0, checked0, sent0);
      newErrorCount, newLastStatusError := errorCount, lastStatusError;
      if abort.None? {
        newErrorCount, newLastStatusError := Evaluate(clientId, session, s, steps, n, errorCount, lastStatusError, saved0, checked0, sent0);
      }
    }

    /**
     * The body of the loop for data number `n + 1`, entered with the loop's records and
     * flags up to date and its guard true (`running0`, `dataCount0` and `errorDataCount0`
     * are the session's values before the loop). `outcome` is Finished when the loop goes
     * on, with the records and flags up to date for one more data; otherwise the process
     * ends early, with the records of the data before.
     */
    method Advance(clientId: string, session: SessionState, s: Settings, steps: seq<Step>, n: nat, errorCount: int,
                   lastStatusError: bool, ghost running0: bool, ghost dataCount0: int, ghost errorDataCount0: int,
                   ghost saved0: seq<SavedData>, ghost checked0: seq<int>, ghost sent0: seq<(string, Message)>)
      returns (outcome: Outcome, dataCount: int, errorDataCount: int, newLastStatusError: bool, ghost done: nat)
      requires n < |steps| && clientId in sessions && sessions[clientId] == session
      requires Looping(clientId, s, steps, n, errorCount, lastStatusError, session.dataCount, session.errorDataCount,
        session.running, running0, dataCount0, errorDataCount0, saved, checked, sent, saved0, checked0, sent0)
      requires Continues(s, n, errorCount, session.running)
      modifies this`sent, this`saved, this`checked, session`dataCount, session`errorDataCount, session`running
      ensures dataCount == n + 1
      ensures outcome == Finished || outcome.Early()
      ensures outcome == Finished ==>
        done == dataCount &&
        Looping(clientId, s, steps, dataCount, errorDataCount, newLastStatusError, session.dataCount, session.errorDataCount,
          session.running, running0, dataCount0, errorDataCount0, saved, checked, sent, saved0, checked0, sent0)
      ensures outcome.Early() ==>
        session.dataCount == dataCount
        && session.errorDataCount == (if errorDataCount > 0 then errorDataCount else errorDataCount0)
        && (s.maximumDataLimit > 0 ==> dataCount <= s.maximumDataLimit)
        && (s.errorDataLimit > 0 ==> errorDataCount <= s.errorDataLimit)
        && running0 && NoStopBefore(steps, dataCount - 1)
        && Recorded(clientId, s, steps, done, errorDataCount, saved, checked, sent, saved0, checked0, sent0)
      ensures outcome.Early() ==>
        done == Done(Report(outcome, dataCount, errorDataCount)) && !session.running
        && EndedEarly(clientId, s, steps, outcome, dataCount, sent)
        && (outcome.Crashed? ==> dataCount == 1 && errorDataCount == 0)
    {
      NoStopExtends(steps, n);
      var abort;
      abort, errorDataCount, newLastStatusError :=
        Iteration(clientId, session, s, steps, n, errorCount, lastStatusError, saved0, checked0, sent0);
      dataCount := n + 1;
      done := if abort.None? then n + 1 else n;
      outcome := if abort.Some? then abort.value else Finished;
    }

    /**
     * The `while` loop of `run_hack_process`, from the script entry of data number 1 on.
     * `outcome` is Finished when the guard failed, Suspended when the script ran out
     * first, and otherwise the reason the loop body ended the process.
     */
    method RunLoop(clientId: string, session: SessionState, s: Settings, steps: seq<Step>,
                   ghost saved0: seq<SavedData>, ghost checked0: seq<int>, ghost sent0: seq<(string, Message)>)
      returns (outcome: Outcome, dataCount: int, errorDataCount: int)
      requires clientId in sessions && sessions[clientId] == session
      requires Recorded(clientId, s, steps, 0, 0, saved, checked, sent, saved0, checked0, sent0)
      modifies this`sent, this`saved, this`checked, session`dataCount, session`errorDataCount, session`running
      ensures !outcome.CompilationFailed?
      ensures 0 <= dataCount <= |steps|
      ensures 0 <= Done(Report(outcome, dataCount, errorDataCount)) <= dataCount
      ensures Recorded(clientId, s, steps, Done(Report(outcome, dataCount, errorDataCount)), errorDataCount, saved, checked, sent, saved0, checked0, sent0)
      ensures session.dataCount == if dataCount > 0 then dataCount else old(session.dataCount)
      ensures session.errorDataCount == if errorDataCount > 0 then errorDataCount else old(session.errorDataCount)
      ensures session.running == (old(session.running) && (outcome == Finished || outcome == Suspended)
        && !(dataCount > 0 && steps[dataCount - 1].stopAfter))
      ensures outcome.Early() ==> EndedEarly(clientId, s, steps, outcome, dataCount, sent)
      ensures outcome.Crashed? ==> dataCount == 1 && errorDataCount == 0
      ensures s.maximumDataLimit > 0 ==> dataCount <= s.maximumDataLimit
      ensures s.errorDataLimit > 0 ==> errorDataCount <= s.errorDataLimit
      ensures dataCount > 0 ==> old(session.running)
      ensures NoStopBefore(steps, dataCount - 1)
      ensures outcome == Finished ==>
        (s.maximumDataLimit > 0 && dataCount == s.maximumDataLimit)
        || (s.errorDataLimit > 0 && errorDataCount == s.errorDataLimit)
        || !old(session.running)
        || (dataCount > 0 && steps[dataCount - 1].stopAfter)
      ensures outcome == Suspended ==> dataCount == |steps| && Continues(s, dataCount, errorDataCount, session.running)
    {
      dataCount := 0;
      errorDataCount := 0;
      var lastStatusError := false;
      outcome := Finished;
      ghost var dataCount0, errorDataCount0, running0 := session.dataCount, session.errorDataCount, session.running;
      ghost var done := 0;
      while Continues(s, dataCount, errorDataCount, session.running)
        invariant Looping(clientId, s, steps, dataCount, errorDataCount, lastStatusError, session.dataCount, session.errorDataCount,
          session.running, running0, dataCount0, errorDataCount0, saved, checked, sent, saved0, checked0, sent0)
        invariant done == dataCount
        invariant outcome == Finished
        decreases |steps| - dataCount
      {
        if dataCount == |steps| {
          outcome := Suspended;
          break;
        }
        outcome, dataCount, errorDataCount, lastStatusError, done := Advance(clientId, session, s, steps, dataCount,
          errorDataCount, lastStatusError, running0, dataCount0, errorDataCount0, saved0, checked0, sent0);
        if outcome != Finished {
          break;
        }
      }
    }

    /** After the loop: `running` cleared, `completed` sent, and the storage size warning if due. */
    method Finish(clientId: string, session: SessionState, dataCount: int, errorCount: int, storage: Option<seq<FolderSize.Entry>>)
      modifies this`sent, session`running
      ensures !session.running
      ensures session.dataCount == old(session.dataCount) && session.errorDataCount == old(session.errorDataCount)
      ensures sent == old(sent) + [(clientId, Completed(dataCount, errorCount))]
        + (if StorageWarningDue(storage) then [(clientId, Warning(STORAGE_WARNING + HackPaths.StorageRoot(cwd)))] else [])
      ensures ErrorReports(clientId, sent) == ErrorReports(clientId, old(sent))
      ensures StatisticsCount(clientId, sent) == StatisticsCount(clientId, old(sent))
    {
      session.running := false;
      SendQuiet(clientId, Completed(dataCount, errorCount));
      if StorageWarningDue(storage) {
        SendQuiet(clientId, Warning(STORAGE_WARNING + HackPaths.StorageRoot(cwd)));
      }
    }

    /**
     * `_finish` after a loop that ran to its end: the client's last messages are the
     * completion report and the storage warning, and the records the loop left stay valid.
     */
    method Conclude(clientId: string, session: SessionState, s: Settings, steps: seq<Step>, dataCount: int, errorCount: int,
                    storage: Option<seq<FolderSize.Entry>>, ghost done: nat,
                    ghost saved0: seq<SavedData>, ghost checked0: seq<int>, ghost sent0: seq<(string, Message)>)
      requires Recorded(clientId, s, steps, done, errorCount, saved, checked, sent, saved0, checked0, sent0)
      modifies this`sent, session`running
      ensures !session.running
      ensures session.dataCount == old(session.dataCount) && session.errorDataCount == old(session.errorDataCount)
      ensures EndsWith(sent, FinishMessages(clientId, cwd, dataCount, errorCount, storage))
      ensures Recorded(clientId, s, steps, done, errorCount, saved, checked, sent, saved0, checked0, sent0)
    {
      ghost var sentD := sent;
      Finish(clientId, session, dataCount, errorCount, storage);
      EndsWithAppend(sentD, FinishMessages(clientId, cwd, dataCount, errorCount, storage));
      RecordedQuiet(clientId, s, steps, done, errorCount, saved, checked, sentD, sent, saved0, checked0, sent0);
    }

    /**
     * The part of `run_hack_process` before its loop: the three compilations, a stop
     * request arriving meanwhile, and the `running` status message. `failed` is the
     * index in FILE_LIST of the first program that did not compile.
     */
    method Prepare(clientId: string, session: SessionState, s: Settings, compile: seq<Option<string>>, stopDuringCompile: bool,
                   steps: seq<Step>) returns (failed: Option<nat>)
      requires |compile| == |FILE_LIST| && clientId in sessions && sessions[clientId] == session
      modifies this`sent, session`running
      ensures failed.Some? ==> failed.value < |FILE_LIST| && compile[failed.value].Some? && !session.running
      ensures failed.Some? ==> forall k :: 0 <= k < failed.value ==> compile[k].None?
      ensures failed.Some? ==> LastIs(sent, (clientId, CompilationError(
        CompilationErrorText(CAPITALIZED[failed.value], compile[failed.value].value), FILE_LIST[failed.value])))
      ensures failed.None? <==> forall k :: 0 <= k < |FILE_LIST| ==> compile[k].None?
      ensures failed.None? ==> session.running == (old(session.running) && !stopDuringCompile)
      ensures Recorded(clientId, s, steps, 0, 0, saved, checked, sent, saved, checked, old(sent))
    {
      failed := CompileAll(clientId, compile);
      if failed.Some? {
        session.running := false;
        RecordedStart(clientId, s, steps, saved, checked, sent, old(sent));
        return;
      }
      if stopDuringCompile {
        HandleStop(clientId);
      }
      ghost var sentB := sent;
      Send(clientId, StatusUpdate("running", "开始生成测试数据..."));
      LogAppend(clientId, sentB, StatusUpdate("running", "开始生成测试数据..."));
      RecordedStart(clientId, s, steps, saved, checked, sent, old(sent));
    }

    /**
     * `run_hack_process` once every program compiled: the loop and, when its guard
     * fails, the `completed` message and the storage check.
     */
    method RunCompiled(clientId: string, session: SessionState, s: Settings, steps: seq<Step>, storage: Option<seq<FolderSize.Entry>>,
                       ghost saved0: seq<SavedData>, ghost checked0: seq<int>, ghost sent0: seq<(string, Message)>) returns (r: Report)
      requires clientId in sessions && sessions[clientId] == session
      requires Recorded(clientId, s, steps, 0, 0, saved, checked, sent, saved0, checked0, sent0)
      modifies this`sent, this`saved, this`checked, session`dataCount, session`errorDataCount, session`running
      ensures r.outcome != Suspended <==> !session.running
      ensures !r.outcome.CompilationFailed?
      ensures 0 <= r.dataCount <= |steps|
      ensures s.maximumDataLimit > 0 ==> r.dataCount <= s.maximumDataLimit
      ensures s.errorDataLimit > 0 ==> r.errorCount <= s.errorDataLimit
      ensures session.dataCount == if r.dataCount > 0 then r.dataCount else old(session.dataCount)
      ensures session.errorDataCount == if r.errorCount > 0 then r.errorCount else old(session.errorDataCount)
      ensures r.outcome.Early() ==> EndedEarly(clientId, s, steps, r.outcome, r.dataCount, sent)
      ensures r.outcome.Crashed? ==> r.dataCount == 1 && r.errorCount == 0
      ensures r.outcome == Finished ==> EndsWith(sent, FinishMessages(clientId, cwd, r.dataCount, r.errorCount, storage))
      ensures 0 <= Done(r) <= r.dataCount
      ensures Recorded(clientId, s, steps, Done(r), r.errorCount, saved, checked, sent, saved0, checked0, sent0)
      ensures r.dataCount > 0 ==> old(session.running)
      ensures forall k :: 0 <= k < r.dataCount - 1 ==> !steps[k].stopAfter
      ensures r.outcome == Finished ==>
        (s.maximumDataLimit > 0 && r.dataCount == s.maximumDataLimit)
        || (s.errorDataLimit > 0 && r.errorCount == s.errorDataLimit)
        || !old(session.running)
        || (r.dataCount > 0 && steps[r.dataCount - 1].stopAfter)
      ensures r.outcome == Suspended ==> r.dataCount == |steps| && Continues(s, r.dataCount, r.errorCount, true)
    {
      var outcome, dataCount, errorDataCount := RunLoop(clientId, session, s, steps, saved0, checked0, sent0);
      if outcome == Finished {
        Conclude(clientId, session, s, steps, dataCount, errorDataCount, storage, dataCount, saved0, checked0, sent0);
      }
      r := Report(outcome, dataCount, errorDataCount);
    }

    /**
     * `run_hack_process(client_id)`. `compile` holds how the three compilations end (a
     * failure's message or None), `stopDuringCompile` whether a stop request arrived
     * before the loop started, `storage` the entries below the storage root (None when
     * it does not exist).
     */
    method RunHackProcess(clientId: string, s: Settings, compile: seq<Option<string>>, stopDuringCompile: bool,
                          steps: seq<Step>, storage: Option<seq<FolderSize.Entry>>) returns (r: Report)
      requires clientId in sessions
      requires |compile| == |FILE_LIST|
      // Only the counters and `running` of this client's session change.
      modifies this`sent, this`saved, this`checked,
        {sessions[clientId]}`dataCount, {sessions[clientId]}`errorDataCount, {sessions[clientId]}`running
      // `running` is false whenever the process returns.
      ensures r.outcome != Suspended <==> !sessions[clientId].running
      // A compilation failure means no iteration.
      ensures r.outcome.CompilationFailed? <==> exists k :: 0 <= k < |FILE_LIST| && compile[k].Some?
      ensures r.outcome.CompilationFailed? ==>
        r.dataCount == 0 && r.errorCount == 0 && saved == old(saved) && checked == old(checked)
      // Counters, limits and the session's copy of the counters.
      ensures 0 <= r.dataCount <= |steps|
      ensures s.maximumDataLimit > 0 ==> r.dataCount <= s.maximumDataLimit
      ensures s.errorDataLimit > 0 ==> r.errorCount <= s.errorDataLimit
      ensures sessions[clientId].dataCount == if r.dataCount > 0 then r.dataCount else old(sessions[clientId].dataCount)
      ensures sessions[clientId].errorDataCount ==
        if r.errorCount > 0 then r.errorCount else old(sessions[clientId].errorDataCount)
      // Early ends: the failure is in the last iteration's script entry.
      ensures r.outcome.InputGenerationFailed? ==> r.dataCount >= 1 && steps[r.dataCount - 1].input.Err?
      ensures r.outcome.AnswerGenerationFailed? ==>
        r.dataCount >= 1 && steps[r.dataCount - 1].input.Ok? && steps[r.dataCount - 1].answer.Err?
      ensures r.outcome.Crashed? ==> !s.Refreshes() && r.dataCount == 1 && r.errorCount == 0
      // The last messages the client receives.
      ensures forall k :: 0 <= k < |FILE_LIST| && compile[k].Some? && (forall j :: 0 <= j < k ==> compile[j].None?) ==>
        r.outcome == CompilationFailed(FILE_LIST[k])
        && LastIs(sent, (clientId, CompilationError(CompilationErrorText(CAPITALIZED[k], compile[k].value), FILE_LIST[k])))
      ensures r.outcome.InputGenerationFailed? || r.outcome.AnswerGenerationFailed? || r.outcome.Crashed? ==>
        LastIs(sent, (clientId, AbortMessage(s, steps[r.dataCount - 1])))
      ensures r.outcome == Finished ==> EndsWith(sent, FinishMessages(clientId, cwd, r.dataCount, r.errorCount, storage))
      // The bookkeeping of the iterations that ran to their end.
      ensures 0 <= Done(r) <= r.dataCount
      ensures Recorded(clientId, s, steps, Done(r), r.errorCount, saved, checked, sent, old(saved), old(checked), old(sent))
      // A stop request takes effect at the next check of the guard.
      ensures r.dataCount > 0 ==> !stopDuringCompile && old(sessions[clientId].running)
      ensures forall k :: 0 <= k < r.dataCount - 1 ==> !steps[k].stopAfter
      // Why the loop ended.
      ensures r.outcome == Finished ==>
        (s.maximumDataLimit > 0 && r.dataCount == s.maximumDataLimit)
        || (s.errorDataLimit > 0 && r.errorCount == s.errorDataLimit)
        || !old(sessions[clientId].running)
        || stopDuringCompile
        || (r.dataCount > 0 && steps[r.dataCount - 1].stopAfter)
      ensures r.outcome == Suspended ==> r.dataCount == |steps| && Continues(s, r.dataCount, r.errorCount, true)
    {
      var session := sessions[clientId];
      var failed := Prepare(clientId, session, s, compile, stopDuringCompile, steps);
      if failed.Some? {
        return Report(CompilationFailed(FILE_LIST[failed.value]), 0, 0);
      }
      r := RunCompiled(clientId, session, s, steps, storage, old(saved), old(checked), old(sent));
    }

    /** `process_message(client_id, message)`; `launched` says a run was scheduled. */
    method ProcessMessage(clientId: string, m: Incoming) returns (launched: bool)
      modifies this`sessions, this`sent, if clientId in sessions then {sessions[clientId]} else {}
      ensures launched ==> m.Start? && clientId in sessions && old(clientId in sessions && !sessions[clientId].running)
      ensures !m.Init? ==> sessions == old(sessions)
      ensures m.GetStatus? || m.SaveRecord? || m.Unknown? ==> SessionOf(clientId) == old(SessionOf(clientId))
      // init: a fresh session and init_success, or only init_error
      ensures m.Init? && m.setup.Ok? ==>
        sessions.Keys == old(sessions).Keys + {clientId}
        && fresh(sessions[clientId]) && sessions[clientId].Value() == Session(true, false, 0, 0, None, m.setup.value)
        && (forall c :: c in old(sessions) && c != clientId ==> sessions[c] == old(sessions)[c])
        && sent == old(sent) + [(clientId, InitSuccess(clientId, HackPaths.HackDataStorageFolderPath(cwd, clientId), m.setup.value))]
      ensures m.Init? && m.setup.Err? ==>
        sessions == old(sessions) && sent == old(sent) + [(clientId, Error(m.setup.error, "init_error"))]
      // start: launches exactly an idle session, otherwise reports why not
      ensures m.Start? ==> (launched <==> clientId in sessions && !old(sessions[clientId].running))
      ensures m.Start? && clientId !in sessions ==> sent == old(sent) + [(clientId, Error("Session not initialized", "session_error"))]
      ensures m.Start? && clientId in sessions && old(sessions[clientId].running) ==>
        sessions[clientId].Value() == old(sessions[clientId].Value())
        && sent == old(sent) + [(clientId, Error("Already running", "state_error"))]
      ensures m.Start? && launched ==>
        sessions[clientId].Value() == old(sessions[clientId].Value()).(running := true, dataCount := 0, errorDataCount := 0, startTime := Some(m.now))
        && sent == old(sent)
      // stop: clears running and confirms, for an existing session
      ensures m.Stop? && clientId in sessions ==>
        !sessions[clientId].running && sent == old(sent) + [(clientId, Stopped("Process stopped by user"))]
      ensures m.Stop? && clientId !in sessions ==> sent == old(sent)
      // get_status: the session's flags and counters, or the uninitialised status
      ensures m.GetStatus? && SessionOf(clientId).None? ==> sent == old(sent) + [(clientId, StatusUninitialized)]
      ensures m.GetStatus? && SessionOf(clientId).Some? ==>
        var s := SessionOf(clientId).value;
        sent == old(sent) + [(clientId, Status(s.initialized, s.running, s.dataCount, s.errorDataCount))]
      // save_record: record_saved exactly when the record is saved
      ensures m.SaveRecord? ==>
        sent == old(sent) + (if SaveRecordOutcome(SessionOf(clientId), m.now) == Saved then [(clientId, RecordSaved)] else [])
      ensures m.Unknown? ==> sent == old(sent)
    {
      launched := false;
      match m {
        case Init(setup) => HandleInit(clientId, setup);
        case Start(now) => launched := HandleStart(clientId, now);
        case Stop => HandleStop(clientId);
        case GetStatus => HandleGetStatus(clientId);
        case SaveRecord(comment, now) =>
          var outcome := SaveRecord(clientId, comment, now);
        case Unknown(_) =>
      }
    }

    /** `save_record(client_id, comment)`: appends a line to the record file and confirms it. */
    method SaveRecord(clientId: string, comment: string, now: real) returns (r: RecordOutcome)
      modifies this`sent
      ensures r == SaveRecordOutcome(SessionOf(clientId), now)
      ensures sent == old(sent) + (if r == Saved then [(clientId, RecordSaved)] else [])
    {
      if clientId !in sessions {
        return NoSession;
      }
      var session := sessions[clientId];
      if session.startTime.None? {
        return NotStarted;
      }
      var totalTime := now - session.startTime.value;
      if totalTime == 0.0 || session.dataCount == 0 {
        return Raised("ZeroDivisionError");
      }
      Send(clientId, RecordSaved);
      r := Saved;
    }
  }

  // ---------------------------------------------------------------------------
  // Saving a record

  /** How `save_record` ends: nothing to do, the record saved, or an exception raised. */
  datatype RecordOutcome = NoSession | NotStarted | Raised(error: string) | Saved

  /**
   * `save_record` as written. Its guard tests whether the key "start_time" exists, but
   * `handle_init` always creates it (holding None), so a session that never started
   * reaches `end_time - None` and raises TypeError; `data_count / total_time` and
   * `total_time / data_count` raise ZeroDivisionError on a zero.
   */
  function SaveRecordAsWritten(session: Option<Session>, now: real): RecordOutcome {
    if session.None? then NoSession
    else if session.value.startTime.None? then Raised("TypeError")
    else if now - session.value.startTime.value == 0.0 || session.value.dataCount == 0 then Raised("ZeroDivisionError")
    else Saved
  }

  /** `save_record` with the guard its test means: a session that never started has nothing to record. */
  function SaveRecordOutcome(session: Option<Session>, now: real): (r: RecordOutcome)
    ensures r == NotStarted <==> session.Some? && session.value.startTime.None?
    ensures r == Saved <==> (session.Some? && session.value.startTime.Some?
      && now != session.value.startTime.value && session.value.dataCount != 0)
    ensures r.Raised? ==> r.error == "ZeroDivisionError"
  {
    if session.None? then NoSession
    else if session.value.startTime.None? then NotStarted
    else if now - session.value.startTime.value == 0.0 || session.value.dataCount == 0 then Raised("ZeroDivisionError")
    else Saved
  }

  /** The session `handle_init` creates makes `save_record` as written raise, and the corrected one return quietly. */
  lemma FreshSessionRecord(symlinkFallback: bool, now: real)
    ensures SaveRecordAsWritten(Some(Session(true, false, 0, 0, None, symlinkFallback)), now) == Raised("TypeError")
    ensures SaveRecordOutcome(Some(Session(true, false, 0, 0, None, symlinkFallback)), now) == NotStarted
  {
  }

  /** Once a run has started, the corrected `save_record` behaves exactly as written. */
  lemma RecordAgreesOnceStarted(session: Option<Session>, now: real)
    requires session.None? || session.value.startTime.Some?
    ensures SaveRecordOutcome(session, now) == SaveRecordAsWritten(session, now)
  {
  }

  // ---------------------------------------------------------------------------
  // The storage size warning

  /**
   * The warning check as written: `os.path.getsize` of a directory is the size of the
   * directory entry itself (a few kilobytes), not of the files below it.
   */
  function StorageWarningAsWritten(present: bool, directoryEntrySize: nat, entries: seq<FolderSize.Entry>): bool {
    present && directoryEntrySize > STORAGE_WARNING_SIZE
  }

  /** The warning check meant by its message: the total size of the files below the storage root. */
  function StorageWarningDue(storage: Option<seq<FolderSize.Entry>>): (r: bool)
    ensures r <==> storage.Some? && FolderSize.TotalSize(storage.value) > STORAGE_WARNING_SIZE
  {
    storage.Some? && FolderSize.TotalSize(storage.value) > STORAGE_WARNING_SIZE
  }

  /** A storage folder holding one 300 MB file: the test as written stays silent, the corrected one warns. */
  lemma StorageWarningMissed()
    ensures !StorageWarningAsWritten(true, 4096, [FolderSize.File(300 * 1024 * 1024)])
    ensures StorageWarningDue(Some([FolderSize.File(300 * 1024 * 1024)]))
  {
    assert FolderSize.TotalSize([FolderSize.File(300 * 1024 * 1024)]) == 300 * 1024 * 1024 by {
      assert [FolderSize.File(300 * 1024 * 1024)][..0] == [];
    }
  }

  /** Saving more data never withdraws the warning: adding a file anywhere keeps it due. */
  lemma StorageWarningStays(entries: seq<FolderSize.Entry>, path: seq<nat>, size: nat)
    requires StorageWarningDue(Some(entries))
    ensures StorageWarningDue(Some(FolderSize.AddFileAt(entries, path, size)))
  {
    FolderSize.AddFileAtGrows(entries, path, size);
  }

  /** The number of iterations that ran to their end. */
  function Done(r: Report): int {
    if r.outcome.InputGenerationFailed? || r.outcome.AnswerGenerationFailed? || r.outcome.Crashed? then r.dataCount - 1
    else r.dataCount
  }

  /**
   * The error message an iteration ends the process with, named by the first check
   * its script entry fails: the input, the answer, then the statistics point.
   */
  function AbortMessage(s: Settings, step: Step): Message {
    if step.input.Err? then Error(InputGenerationErrorText(step.input.error), "input_generation_error")
    else if step.answer.Err? then Error(AnswerGenerationErrorText(step.answer.error), "answer_generation_error")
    else Error(ModuloFailure(s.refreshSpeed), "runtime_error")
  }

  /** What the client receives once the loop guard fails: `completed`, then the storage warning if due. */
  function FinishMessages(clientId: string, cwd: string, dataCount: int, errorCount: int,
                          storage: Option<seq<FolderSize.Entry>>): seq<(string, Message)> {
    [(clientId, Completed(dataCount, errorCount))]
      + (if StorageWarningDue(storage) then [(clientId, Warning(STORAGE_WARNING + HackPaths.StorageRoot(cwd)))] else [])
  }

  /**
   * The invariant of the loop of `run_hack_process` after `dataCount` data: the records
   * are up to date, the session holds the counters (`dataCount0` and `errorDataCount0`
   * until they first change) and `running` (`running0` until a stop request), and the
   * limits and the refresh speed were respected.
   */
  ghost predicate Looping(clientId: string, s: Settings, steps: seq<Step>, dataCount: int, errorDataCount: int,
                          lastStatusError: bool, sessionDataCount: int, sessionErrorCount: int, running: bool,
                          running0: bool, dataCount0: int, errorDataCount0: int,
                          saved: seq<SavedData>, checked: seq<int>, sent: seq<(string, Message)>,
                          saved0: seq<SavedData>, checked0: seq<int>, sent0: seq<(string, Message)>)
  {
    0 <= dataCount <= |steps|
    && Recorded(clientId, s, steps, dataCount, errorDataCount, saved, checked, sent, saved0, checked0, sent0)
    && sessionDataCount == (if dataCount > 0 then dataCount else dataCount0)
    && sessionErrorCount == (if errorDataCount > 0 then errorDataCount else errorDataCount0)
    && running == (running0 && !(dataCount > 0 && steps[dataCount - 1].stopAfter))
    && lastStatusError == (dataCount > 0 && IsError(steps[dataCount - 1]))
    && (!s.Refreshes() ==> dataCount == 0)
    && (s.maximumDataLimit > 0 ==> dataCount <= s.maximumDataLimit)
    && (s.errorDataLimit > 0 ==> errorDataCount <= s.errorDataLimit)
    && (dataCount > 0 ==> running0)
    && NoStopBefore(steps, dataCount - 1)
    && (dataCount == 0 ==> errorDataCount == 0)
  }

  /** The last message of the log is `m`. */
  predicate LastIs(log: seq<(string, Message)>, m: (string, Message)) {
    |log| > 0 && log[|log| - 1] == m
  }

  /**
   * An iteration that ended the process early at data number `dataCount` did so for the
   * reason its script entry gives, and its error message is the last one the client received.
   */
  predicate EndedEarly(clientId: string, s: Settings, steps: seq<Step>, o: Outcome, dataCount: int, log: seq<(string, Message)>) {
    0 < dataCount <= |steps|
    && (o.InputGenerationFailed? <==> steps[dataCount - 1].input.Err?)
    && (o.AnswerGenerationFailed? <==> steps[dataCount - 1].input.Ok? && steps[dataCount - 1].answer.Err?)
    && (o.Crashed? ==> !s.Refreshes())
    && LastIs(log, (clientId, AbortMessage(s, steps[dataCount - 1])))
  }

  /** The message log ends with `tail`. */
  predicate EndsWith(log: seq<(string, Message)>, tail: seq<(string, Message)>) {
    |tail| <= |log| && log[|log| - |tail|..] == tail
  }

  lemma EndsWithAppend(log: seq<(string, Message)>, tail: seq<(string, Message)>)
    ensures EndsWith(log + tail, tail)
  {
    assert (log + tail)[|log|..] == tail;
  }
}
