/**
 * `autohack.core.run`: the limit monitor of `CodeRunner` and the outcome rules of
 * compiling, generating and running. A process is described by how it ended; the
 * monitor sees the process through a sequence of samples, one per loop iteration.
 */
module Run {
  import opened Wrappers
  import opened Bytes

  // ---------------------------------------------------------------------------
  // CodeRunner.memoryMonitor

  /**
   * One turn of the monitor loop: the seconds elapsed since the process started, and
   * the virtual memory size read from it (None when the process had gone by then).
   * When the samples run out the process has gone before the next reading.
   */
  datatype Sample = Sample(elapsed: real, vms: Option<nat>)

  /** The four fields the monitor writes. */
  datatype MonitorState = MonitorState(totalTime: Option<real>, timeOut: bool, maxMemory: Option<nat>, memoryOut: bool)

  const INITIAL: MonitorState := MonitorState(None, false, None, false)

  /** `max(self.maxMemory, vms)` when no reading yet counts as 0. */
  function RunningMax(m: Option<nat>, vms: nat): nat {
    if m.None? || m.value < vms then vms else m.value
  }

  function MemoryOf(m: Option<nat>): nat {
    if m.None? then 0 else m.value
  }

  /** The monitor stopped itself by killing the process. */
  predicate Tripped(st: MonitorState) {
    st.timeOut || st.memoryOut
  }

  /** The state the monitor leaves behind, starting from `st`. */
  function Monitor(samples: seq<Sample>, timeLimit: Option<real>, memoryLimit: Option<nat>, st: MonitorState): MonitorState
    decreases |samples|
  {
    if samples == [] then st
    else
      var s := samples[0];
      var timed := st.(totalTime := Some(s.elapsed));
      if timeLimit.Some? && s.elapsed > timeLimit.value then timed.(timeOut := true)
      else if s.vms.None? then timed
      else
        var measured := timed.(maxMemory := Some(RunningMax(st.maxMemory, s.vms.value)));
        if memoryLimit.Some? && measured.maxMemory.value > memoryLimit.value then measured.(memoryOut := true)
        else Monitor(samples[1..], timeLimit, memoryLimit, measured)
  }

  class CodeRunner {
    var totalTime: Option<real>
    var timeOut: bool
    var maxMemory: Option<nat>
    var memoryOut: bool

    function State(): MonitorState
      reads this
    {
      MonitorState(totalTime, timeOut, maxMemory, memoryOut)
    }

    constructor ()
      ensures State() == INITIAL
    {
      totalTime, timeOut, maxMemory, memoryOut := None, false, None, false;
    }

    /** `memoryMonitor(pid, timeLimit, memoryLimit)`: time first, then memory, then on. */
    method MemoryMonitor(samples: seq<Sample>, timeLimit: Option<real>, memoryLimit: Option<nat>)
      modifies this
      ensures State() == Monitor(samples, timeLimit, memoryLimit, old(State()))
    {
      var i := 0;
      while i < |samples|
        invariant 0 <= i <= |samples|
        invariant Monitor(samples[i..], timeLimit, memoryLimit, State()) == Monitor(samples, timeLimit, memoryLimit, old(State()))
        decreases |samples| - i
      {
        assert samples[i..][0] == samples[i] && samples[i..][1..] == samples[i + 1..];
        totalTime := Some(samples[i].elapsed);
        if timeLimit.Some? && samples[i].elapsed > timeLimit.value {
          timeOut := true;
          return;
        }
        if samples[i].vms.None? {
          return;
        }
        maxMemory := Some(RunningMax(maxMemory, samples[i].vms.value));
        if memoryLimit.Some? && maxMemory.value > memoryLimit.value {
          memoryOut := true;
          return;
        }
        i := i + 1;
      }
    }
  }

  /** Starting without a flag, the monitor sets at most one of them. */
  lemma {:induction false} AtMostOneFlag(samples: seq<Sample>, tl: Option<real>, ml: Option<nat>, st: MonitorState)
    requires !st.timeOut && !st.memoryOut
    ensures var r := Monitor(samples, tl, ml, st); !(r.timeOut && r.memoryOut)
    decreases |samples|
  {
    if samples != [] {
      var s := samples[0];
      if !(tl.Some? && s.elapsed > tl.value) && s.vms.Some? {
        AtMostOneFlag(samples[1..], tl, ml, st.(totalTime := Some(s.elapsed), maxMemory := Some(RunningMax(st.maxMemory, s.vms.value))));
      }
    }
  }

  /** A sample over the time limit sets timeOut and leaves memory alone, whatever the memory reading. */
  lemma TimeCheckedFirst(samples: seq<Sample>, tl: Option<real>, ml: Option<nat>, st: MonitorState)
    requires samples != [] && tl.Some? && samples[0].elapsed > tl.value
    ensures var r := Monitor(samples, tl, ml, st);
      r.timeOut && r.memoryOut == st.memoryOut && r.maxMemory == st.maxMemory && r.totalTime == Some(samples[0].elapsed)
  {
  }

  /** The recorded maximum never decreases. */
  lemma {:induction false} MaxMemoryMonotone(samples: seq<Sample>, tl: Option<real>, ml: Option<nat>, st: MonitorState)
    ensures MemoryOf(Monitor(samples, tl, ml, st).maxMemory) >= MemoryOf(st.maxMemory)
    ensures st.maxMemory.Some? ==> Monitor(samples, tl, ml, st).maxMemory.Some?
    decreases |samples|
  {
    if samples != [] {
      var s := samples[0];
      if !(tl.Some? && s.elapsed > tl.value) && s.vms.Some? {
        MaxMemoryMonotone(samples[1..], tl, ml, st.(totalTime := Some(s.elapsed), maxMemory := Some(RunningMax(st.maxMemory, s.vms.value))));
      }
    }
  }

  /** Every memory reading the monitor made is at most the recorded maximum. */
  lemma {:induction false} MaxMemoryIsMaximum(samples: seq<Sample>, tl: Option<real>, ml: Option<nat>, st: MonitorState, k: nat)
    requires k < |samples| && samples[k].vms.Some?
    requires forall j :: 0 <= j <= k ==> !(tl.Some? && samples[j].elapsed > tl.value)
    requires forall j :: 0 <= j < k ==> samples[j].vms.Some?
    requires forall j :: 0 <= j < k ==> !(ml.Some? && RunningMax(MaxBefore(samples, st, j), samples[j].vms.value) > ml.value)
    ensures samples[k].vms.value <= MemoryOf(Monitor(samples, tl, ml, st).maxMemory)
    decreases k
  {
    var s := samples[0];
    var next := st.(totalTime := Some(s.elapsed), maxMemory := Some(RunningMax(st.maxMemory, s.vms.value)));
    if k == 0 {
      MaxMemoryMonotone(samples[1..], tl, ml, next);
    } else {
      forall j | 0 <= j < k - 1 ensures MaxBefore(samples[1..], next, j) == MaxBefore(samples, st, j + 1) {
        MaxBeforeShift(samples, st, j);
      }
      MaxMemoryIsMaximum(samples[1..], tl, ml, next, k - 1);
    }
  }

  /** The maximum recorded before sample j is read, if readings 0..j-1 all happened. */
  function MaxBefore(samples: seq<Sample>, st: MonitorState, j: nat): Option<nat>
    requires j <= |samples|
    requires forall i :: 0 <= i < j ==> samples[i].vms.Some?
    decreases j
  {
    if j == 0 then st.maxMemory else Some(RunningMax(MaxBefore(samples, st, j - 1), samples[j - 1].vms.value))
  }

  lemma {:induction false} MaxBeforeShift(samples: seq<Sample>, st: MonitorState, j: nat)
    requires 1 <= j + 1 <= |samples|
    requires forall i :: 0 <= i <= j ==> samples[i].vms.Some?
    ensures MaxBefore(samples[1..], st.(totalTime := Some(samples[0].elapsed), maxMemory := Some(RunningMax(st.maxMemory, samples[0].vms.value))), j)
         == MaxBefore(samples, st, j + 1)
    decreases j
  {
    if j > 0 {
      MaxBeforeShift(samples, st, j - 1);
    }
  }

  /** Once the monitor kills the process, later samples have no effect: it stops at the first breach. */
  lemma {:induction false} StopsAtFirstBreach(samples: seq<Sample>, rest: seq<Sample>, tl: Option<real>, ml: Option<nat>, st: MonitorState)
    requires !Tripped(st)
    requires Tripped(Monitor(samples, tl, ml, st))
    ensures Monitor(samples + rest, tl, ml, st) == Monitor(samples, tl, ml, st)
    decreases |samples|
  {
    var s := samples[0];
    assert (samples + rest)[0] == s && (samples + rest)[1..] == samples[1..] + rest;
    if !(tl.Some? && s.elapsed > tl.value) && s.vms.Some? && !(ml.Some? && RunningMax(st.maxMemory, s.vms.value) > ml.value) {
      StopsAtFirstBreach(samples[1..], rest, tl, ml, st.(totalTime := Some(s.elapsed), maxMemory := Some(RunningMax(st.maxMemory, s.vms.value))));
    }
  }

  /** Without limits nothing is ever flagged; a vanished process ends the monitor quietly. */
  lemma {:induction false} NoLimitNoFlag(samples: seq<Sample>, st: MonitorState)
    ensures var r := Monitor(samples, None, None, st); r.timeOut == st.timeOut && r.memoryOut == st.memoryOut
    decreases |samples|
  {
    if samples != [] && samples[0].vms.Some? {
      NoLimitNoFlag(samples[1..], st.(totalTime := Some(samples[0].elapsed), maxMemory := Some(RunningMax(st.maxMemory, samples[0].vms.value))));
    }
  }

  /** A memoryOut result means the recorded maximum is over the limit. */
  lemma {:induction false} MemoryOutMeansOverLimit(samples: seq<Sample>, tl: Option<real>, ml: Option<nat>, st: MonitorState)
    requires !st.memoryOut
    ensures var r := Monitor(samples, tl, ml, st);
      r.memoryOut ==> ml.Some? && r.maxMemory.Some? && r.maxMemory.value > ml.value
    decreases |samples|
  {
    if samples != [] {
      var s := samples[0];
      if !(tl.Some? && s.elapsed > tl.value) && s.vms.Some? {
        MemoryOutMeansOverLimit(samples[1..], tl, ml, st.(totalTime := Some(s.elapsed), maxMemory := Some(RunningMax(st.maxMemory, s.vms.value))));
      }
    }
  }

  // ---------------------------------------------------------------------------
  // The monitor as written: `max(None, vms)` raises TypeError on the first reading.

  /** How the monitor thread ended as written: by returning, or with an uncaught TypeError. */
  datatype WrittenEnd = Returned | Crashed

  function MonitorAsWritten(samples: seq<Sample>, timeLimit: Option<real>, memoryLimit: Option<nat>, st: MonitorState): (MonitorState, WrittenEnd)
    decreases |samples|
  {
    if samples == [] then (st, Returned)
    else
      var s := samples[0];
      var timed := st.(totalTime := Some(s.elapsed));
      if timeLimit.Some? && s.elapsed > timeLimit.value then (timed.(timeOut := true), Returned)
      else if s.vms.None? then (timed, Returned)
      else if st.maxMemory.None? then (timed, Crashed)
      else
        var measured := timed.(maxMemory := Some(RunningMax(st.maxMemory, s.vms.value)));
        if memoryLimit.Some? && measured.maxMemory.value > memoryLimit.value then (measured.(memoryOut := true), Returned)
        else MonitorAsWritten(samples[1..], timeLimit, memoryLimit, measured)
  }

  /**
   * As written, a program that runs past the time limit is never flagged when its
   * first sample is within the limit: the thread dies at its first memory reading.
   */
  lemma AsWrittenMissesTimeLimit()
    ensures var samples := [Sample(0.5, Some(1000)), Sample(2.0, Some(1000))];
      MonitorAsWritten(samples, Some(1.0), None, INITIAL) == (MonitorState(Some(0.5), false, None, false), Crashed)
      && Monitor(samples, Some(1.0), None, INITIAL) == MonitorState(Some(2.0), true, Some(1000), false)
  {
    var samples := [Sample(0.5, Some(1000)), Sample(2.0, Some(1000))];
    assert samples[1..] == [Sample(2.0, Some(1000))];
    assert samples[1..][1..] == [];
  }

  /** Once one reading exists, the written monitor and the corrected one agree. */
  lemma {:induction false} AsWrittenAgreesAfterFirstReading(samples: seq<Sample>, tl: Option<real>, ml: Option<nat>, st: MonitorState)
    requires st.maxMemory.Some?
    ensures MonitorAsWritten(samples, tl, ml, st) == (Monitor(samples, tl, ml, st), Returned)
    decreases |samples|
  {
    if samples != [] {
      var s := samples[0];
      if !(tl.Some? && s.elapsed > tl.value) && s.vms.Some? {
        AsWrittenAgreesAfterFirstReading(samples[1..], tl, ml, st.(totalTime := Some(s.elapsed), maxMemory := Some(RunningMax(st.maxMemory, s.vms.value))));
      }
    }
  }

  // ---------------------------------------------------------------------------
  // CodeRunner.Result and the process helpers

  /** `CodeRunner.Result`; `stderr` is None when the stream was not captured. */
  datatype ExecResult = ExecResult(
    totalTime: Option<real>, timeOut: bool, maxMemory: Option<nat>, memoryOut: bool,
    returnCode: Option<int>, stdout: seq<byte>, stderr: Option<seq<byte>>)

  /** How a process ended: it could not be started (OSError), or it exited with a code and output. */
  datatype Launch = SpawnFailed | Exited(returnCode: int, stdout: seq<byte>, stderr: seq<byte>)

  /**
   * `autohackRuntimeError(output, returncode)`: the failure the helpers evidently mean
   * to raise, carrying the output and the exit code.
   */
  datatype RuntimeFailure = RuntimeFailure(output: seq<byte>, returnCode: int)

  /** `compileCode(command)`: quiet on success and when the compiler cannot be started. */
  function CompileCode(p: Launch): (r: Option<RuntimeFailure>)
    ensures r.Some? <==> p.Exited? && p.returnCode != 0
    ensures r.Some? ==> r.value == RuntimeFailure(p.stdout, p.returnCode)
  {
    if p.SpawnFailed? then None
    else if p.returnCode != 0 then Some(RuntimeFailure(p.stdout, p.returnCode))
    else None
  }

  /** `generateInput(command)`: empty data when the generator cannot be started. */
  function GenerateInput(p: Launch): (r: Result<seq<byte>, RuntimeFailure>)
    ensures p.SpawnFailed? ==> r == Ok([])
    ensures p.Exited? && p.returnCode != 0 ==> r == Err(RuntimeFailure(p.stdout, p.returnCode))
    ensures p.Exited? && p.returnCode == 0 ==> r == Ok(p.stdout)
  {
    if p.SpawnFailed? then Ok([])
    else if p.returnCode != 0 then Err(RuntimeFailure(p.stdout, p.returnCode))
    else Ok(p.stdout)
  }

  /** `generateAnswer(command, input)`: `p` is how the standard program ran on that input; the rule is `generateInput`'s. */
  function GenerateAnswer(p: Launch): Result<seq<byte>, RuntimeFailure> {
    GenerateInput(p)
  }

  /**
   * `str(NameError)` for the name `autohackRuntimeError`: no module of the program
   * defines it, so evaluating `raise autohackRuntimeError(...)` raises this instead.
   */
  const UNDEFINED_RUNTIME_ERROR: string := "name 'autohackRuntimeError' is not defined"

  /** `compileCode(command)` as written: the failing branch raises NameError, carrying nothing. */
  function CompileCodeAsWritten(p: Launch): (r: Option<string>)
    ensures r.Some? <==> CompileCode(p).Some?
  {
    if CompileCode(p).Some? then Some(UNDEFINED_RUNTIME_ERROR) else None
  }

  /** `generateInput(command)` and `generateAnswer(command, input)` as written. */
  function GenerateInputAsWritten(p: Launch): (r: Result<seq<byte>, string>)
    ensures r.Ok? <==> GenerateInput(p).Ok?
    ensures r.Ok? ==> r.value == GenerateInput(p).value
  {
    match GenerateInput(p)
    case Ok(data) => Ok(data)
    case Err(_) => Err(UNDEFINED_RUNTIME_ERROR)
  }

  /**
   * As written, every failing compilation or generation raises the same NameError, so
   * neither the output nor the exit code reaches a caller; the intended error tells
   * any two failures apart by them.
   */
  lemma AsWrittenLosesFailure(p1: Launch, p2: Launch)
    requires p1.Exited? && p2.Exited? && p1.returnCode != 0 && p2.returnCode != 0
    ensures CompileCodeAsWritten(p1) == CompileCodeAsWritten(p2) == Some(UNDEFINED_RUNTIME_ERROR)
    ensures GenerateInputAsWritten(p1) == GenerateInputAsWritten(p2) == Err(UNDEFINED_RUNTIME_ERROR)
    ensures CompileCode(p1) == CompileCode(p2) <==> p1.stdout == p2.stdout && p1.returnCode == p2.returnCode
  {
  }

  /** The three helpers apply one rule: generation fails exactly when compilation would. */
  lemma SameOutcomeRules(p: Launch)
    ensures GenerateAnswer(p) == GenerateInput(p)
    ensures GenerateInput(p).Err? <==> CompileCode(p).Some?
    ensures GenerateInput(p).Err? ==> GenerateInput(p).error == CompileCode(p).value
  {
  }

  /**
   * `runSourceCode(command, input, timeLimit, memoryLimit)` with the monitor's view of the
   * run. The program's error stream goes to `DEVNULL`, so a run that started reports no
   * `stderr` (None); one that could not start reports empty output on both streams.
   */
  method RunSourceCode(p: Launch, samples: seq<Sample>, timeLimit: Option<real>, memoryLimit: Option<nat>)
    returns (r: ExecResult)
    ensures p.SpawnFailed? ==> r == ExecResult(None, false, None, false, Some(0), [], Some([]))
    ensures p.Exited? ==>
      var m := Monitor(samples, timeLimit, memoryLimit, INITIAL);
      r == ExecResult(m.totalTime, m.timeOut, m.maxMemory, m.memoryOut, Some(p.returnCode), p.stdout, None)
    ensures !(r.timeOut && r.memoryOut)
  {
    if p.SpawnFailed? {
      return ExecResult(None, false, None, false, Some(0), [], Some([]));
    }
    var runner := new CodeRunner();
    runner.MemoryMonitor(samples, timeLimit, memoryLimit);
    AtMostOneFlag(samples, timeLimit, memoryLimit, INITIAL);
    r := ExecResult(runner.totalTime, runner.timeOut, runner.maxMemory, runner.memoryOut, Some(p.returnCode), p.stdout, None);
  }
}
