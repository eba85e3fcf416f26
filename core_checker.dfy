/**
 * The checker framework of `autohack.core.checker`: the built-in checkers, the
 * classification of a testlib checker's exit code, and `getChecker`, which prefers
 * a user file `<name>.py` over the built-in table and validates what it loads.
 * Loading a Python module and inspecting signatures are represented by data: a user
 * module is described by what its attributes are.
 */
module CoreChecker {
  import opened Wrappers
  import opened Text
  import opened Decimal

  datatype CheckResult = CheckResult(passed: bool, message: string)

  // ---------------------------------------------------------------------------
  // builtin_basic

  const DIFFERENT_LINE_COUNT: string := "Output and answer have different number of lines."
  const MATCHES: string := "Output matches the answer."

  /** `text.rstrip("\n").splitlines()`. */
  function Lines(text: string): seq<string> {
    SplitLines(TrimEnd(text, {'\n'}))
  }

  function LineMismatch(i: nat): string {
    "Line " + NatToString(i + 1) + " does not match."
  }

  /** `builtinBasicChecker(input, output, answer, args)` on decoded texts. */
  method BuiltinBasicChecker(output: string, answer: string) returns (r: CheckResult)
    ensures var o := Lines(output); var a := Lines(answer);
      (r.passed <==> |o| == |a| && forall i :: 0 <= i < |o| ==> RStrip(o[i]) == RStrip(a[i]))
      && (|o| != |a| ==> r.message == DIFFERENT_LINE_COUNT)
      && (r.passed ==> r.message == MATCHES)
      && (|o| == |a| && !r.passed ==>
            exists i :: 0 <= i < |o| && RStrip(o[i]) != RStrip(a[i])
              && (forall k :: 0 <= k < i ==> RStrip(o[k]) == RStrip(a[k]))
              && r.message == LineMismatch(i))
  {
    var outputLines := Lines(output);
    var answerLines := Lines(answer);
    if |outputLines| != |answerLines| {
      return CheckResult(false, DIFFERENT_LINE_COUNT);
    }
    for i := 0 to |outputLines|
      invariant forall k :: 0 <= k < i ==> RStrip(outputLines[k]) == RStrip(answerLines[k])
    {
      if RStrip(outputLines[i]) != RStrip(answerLines[i]) {
        return CheckResult(false, LineMismatch(i));
      }
    }
    return CheckResult(true, MATCHES);
  }

  /** The line-mismatch message names one line only: distinct lines give distinct messages. */
  lemma LineMismatchInjective(i: nat, j: nat)
    requires LineMismatch(i) == LineMismatch(j)
    ensures i == j
  {
    var m := LineMismatch(i);
    var n := |m| - |" does not match."|;
    assert m[5..n] == NatToString(i + 1);
    assert LineMismatch(j)[5..n] == NatToString(j + 1);
    IntToStringInjective(i + 1, j + 1);
  }

  // ---------------------------------------------------------------------------
  // builtin_always_ac

  const ALWAYS_AC: string := "Always AC checker."

  /** `builtinAlwaysACChecker(input, output, answer, args)`. */
  function AlwaysAcChecker(input: string, output: string, answer: string): CheckResult {
    CheckResult(true, ALWAYS_AC)
  }

  /** Every input, empty ones included, is accepted with the same message. */
  lemma AlwaysAccepts(input: string, output: string, answer: string)
    ensures AlwaysAcChecker(input, output, answer).passed
    ensures AlwaysAcChecker(input, output, answer) == AlwaysAcChecker([], [], [])
  {
  }

  // ---------------------------------------------------------------------------
  // builtin_testlib: what happens once the checker process has exited

  datatype ErrorKind = FileNotFound | ImportFailure | AttributeFailure | TypeFailure | RuntimeFailure | CompileFailure
  datatype Error = Error(kind: ErrorKind, message: string)

  const NO_RESULT_FILE: string := "Testlib checker did not produce a result file."

  /**
   * The verdict of `builtinTestlibChecker` from whether the result file exists, its
   * decoded content and the checker's exit code (0 ok, 1 wrong answer, 2 presentation
   * error, 3 checker failure, 4 extra output, 5 points, 8 unexpected end of file,
   * 16 + score partial).
   */
  function TestlibVerdict(resultExists: bool, content: string, code: int): (r: Result<CheckResult, Error>)
    ensures !resultExists ==> r == Err(Error(FileNotFound, NO_RESULT_FILE))
    ensures resultExists && code == 3 ==>
      r == Err(Error(RuntimeFailure, "Testlib checker runtime error. Checker output: " + Strip(content)))
    ensures resultExists && code != 3 ==>
      r.Ok? && (r.value.passed <==> code == 0)
      && r.value.message == Strip(content) + " (Code " + IntToString(code) + ")"
  {
    if !resultExists then Err(Error(FileNotFound, NO_RESULT_FILE))
    else
      var resultContent := Strip(content);
      if code == 0 then Ok(CheckResult(true, resultContent + " (Code " + IntToString(code) + ")"))
      else if code == 3 then Err(Error(RuntimeFailure, "Testlib checker runtime error. Checker output: " + resultContent))
      else Ok(CheckResult(false, resultContent + " (Code " + IntToString(code) + ")"))
  }

  /** The message ends with the exit code, so the code can be read back from a verdict. */
  lemma TestlibCodeRecoverable(content: string, c1: int, c2: int)
    requires c1 != 3 && c2 != 3
    requires TestlibVerdict(true, content, c1) == TestlibVerdict(true, content, c2)
    ensures c1 == c2
  {
    var p := Strip(content) + " (Code ";
    var m1 := p + IntToString(c1) + ")";
    var m2 := p + IntToString(c2) + ")";
    assert m1 == m2;
    assert m1[|p|..|m1| - 1] == IntToString(c1);
    assert m2[|p|..|m2| - 1] == IntToString(c2);
    IntToStringInjective(c1, c2);
  }

  // ---------------------------------------------------------------------------
  // getChecker

  /** A parameter or return annotation as `inspect.signature` reports it. */
  datatype Annotation = DictType | BytesType | NoneValue | TupleBoolStr | Unannotated | OtherType(name: string)
  datatype Signature = Signature(params: seq<Annotation>, result: Annotation)

  /** An attribute of a loaded module, or the value an `activate` call returned. */
  datatype Value = Absent | NotCallable | Callable(sig: Signature)

  /**
   * A user checker file once found: whether an import spec could be made for it, its
   * `activate` and `deactivate` attributes, and what calling `activate(args)` does
   * (returns a value or raises with a message).
   */
  datatype UserModule = UserModule(specLoads: bool, activate: Value, activation: Result<Value, string>, deactivate: Value)

  datatype Checker = BuiltinBasic | BuiltinAlwaysAc | BuiltinTestlib | UserChecker(name: string, sig: Signature)
  datatype Deactivate = EmptyDeactivate | TestlibDeactivate | UserDeactivate(name: string)
  datatype Builtin = Builtin(name: string, checker: Checker, deactivate: Deactivate)

  /** `BUILTIN`. */
  const BUILTIN: seq<Builtin> := [
    Builtin("builtin_basic", BuiltinBasic, EmptyDeactivate),
    Builtin("builtin_always_ac", BuiltinAlwaysAc, EmptyDeactivate),
    Builtin("builtin_testlib", BuiltinTestlib, TestlibDeactivate)
  ]

  const ACTIVATE_PARAMS: seq<Annotation> := [DictType]
  const CHECKER_PARAMS: seq<Annotation> := [BytesType, BytesType, BytesType, DictType]
  const DEACTIVATE_SIGNATURE: Signature := Signature([DictType], NoneValue)

  /**
   * `checkerFolder / f"{checkerName}.py"`: a pathlib join, so an absolute checker name
   * replaces the folder.
   */
  function CheckerPath(folder: string, name: string): (p: string)
    ensures IsAbsolute(name) ==> p == name + ".py"
    ensures !IsAbsolute(name) ==> p == folder + "/" + name + ".py"
  {
    JoinPath(folder, name + ".py")
  }

  /** An absolute checker name is looked up, and reported, without the folder. */
  lemma AbsoluteCheckerExample(folder: string)
    ensures CheckerPath(folder, "/opt/chk") == "/opt/chk.py"
  {
  }

  /**
   * `func(args)` for a built-in: only the testlib checker does work on activation
   * (it compiles the checker), and `testlibCompile` is how that compilation ended.
   */
  function ActivateBuiltin(b: Builtin, testlibCompile: Option<string>): Result<(Checker, Deactivate), Error> {
    if b.checker == BuiltinTestlib && testlibCompile.Some? then Err(Error(CompileFailure, testlibCompile.value))
    else Ok((b.checker, b.deactivate))
  }

  /** The deactivate function kept: the module's own only when it takes a dict and returns None. */
  function ChooseDeactivate(name: string, d: Value): (r: Deactivate)
    ensures r == UserDeactivate(name) <==> d == Callable(DEACTIVATE_SIGNATURE)
    ensures r != UserDeactivate(name) ==> r == EmptyDeactivate
  {
    if d.Callable? && d.sig == DEACTIVATE_SIGNATURE then UserDeactivate(name) else EmptyDeactivate
  }

  /** The checks `getChecker` makes on a user module, in the order it makes them. */
  function ValidateUser(name: string, m: UserModule): (r: Result<(Checker, Deactivate), Error>)
    ensures r.Ok? <==>
      m.specLoads && m.activate.Callable? && m.activate.sig.params == ACTIVATE_PARAMS
      && m.activation.Ok? && m.activation.value.Callable?
      && m.activation.value.sig.params == CHECKER_PARAMS && m.activation.value.sig.result == TupleBoolStr
    ensures r.Ok? ==> r.value == (UserChecker(name, m.activation.value.sig), ChooseDeactivate(name, m.deactivate))
  {
    if !m.specLoads then
      Err(Error(ImportFailure, "Could not load spec for checker \"" + name + "\"."))
    else if !m.activate.Callable? then
      Err(Error(AttributeFailure, "Checker '" + name + "' does not have a 'activate' function."))
    else if m.activate.sig.params != ACTIVATE_PARAMS then
      Err(Error(TypeFailure, "Checker's 'activate' function parameters must be of types (dict)."))
    else if m.activation.Err? then
      Err(Error(RuntimeFailure, "Error while activating checker '" + name + "': " + m.activation.error))
    else if !m.activation.value.Callable? then
      Err(Error(TypeFailure, "Checker '" + name + "' activate did not return a callable."))
    else if m.activation.value.sig.params != CHECKER_PARAMS then
      Err(Error(TypeFailure, "Checker '" + name + "' function parameters must be of types (bytes, bytes, bytes, dict)."))
    else if m.activation.value.sig.result != TupleBoolStr then
      Err(Error(TypeFailure, "Checker '" + name + "' function must return tuple[bool, str]."))
    else
      Ok((UserChecker(name, m.activation.value.sig), ChooseDeactivate(name, m.deactivate)))
  }

  /** `activate` is not called unless its signature is right: what it would do then is irrelevant. */
  lemma ActivateNotCalledOnBadSignature(name: string, m: UserModule, other: Result<Value, string>)
    requires !m.specLoads || !m.activate.Callable? || m.activate.sig.params != ACTIVATE_PARAMS
    ensures ValidateUser(name, m) == ValidateUser(name, m.(activation := other))
    ensures ValidateUser(name, m).Err?
  {
  }

  /** An exception from `activate` is wrapped in a message naming the checker. */
  lemma ActivationErrorWrapped(name: string, m: UserModule)
    requires m.specLoads && m.activate.Callable? && m.activate.sig.params == ACTIVATE_PARAMS
    requires m.activation.Err?
    ensures ValidateUser(name, m)
         == Err(Error(RuntimeFailure, "Error while activating checker '" + name + "': " + m.activation.error))
  {
  }

  /**
   * `getChecker(checkerFolder, checkerName, args)`. `userFiles` maps the paths of the
   * checker files that exist to what they contain.
   */
  method GetChecker(folder: string, name: string, userFiles: map<string, UserModule>, testlibCompile: Option<string>)
    returns (r: Result<(Checker, Deactivate), Error>)
    ensures CheckerPath(folder, name) in userFiles ==> r == ValidateUser(name, userFiles[CheckerPath(folder, name)])
    ensures CheckerPath(folder, name) !in userFiles ==>
      (forall k :: 0 <= k < |BUILTIN| && BUILTIN[k].name == name ==> r == ActivateBuiltin(BUILTIN[k], testlibCompile))
      && ((forall k :: 0 <= k < |BUILTIN| ==> BUILTIN[k].name != name) <==>
            r == Err(Error(FileNotFound, "Checker \"" + CheckerPath(folder, name) + "\" not found.")))
  {
    var checkerPath := CheckerPath(folder, name);
    if checkerPath !in userFiles {
      for k := 0 to |BUILTIN|
        invariant forall j :: 0 <= j < k ==> BUILTIN[j].name != name
      {
        if BUILTIN[k].name == name {
          BuiltinNamesDistinct();
          return ActivateBuiltin(BUILTIN[k], testlibCompile);
        }
      }
      return Err(Error(FileNotFound, "Checker \"" + checkerPath + "\" not found."));
    }
    r := ValidateUser(name, userFiles[checkerPath]);
  }

  lemma BuiltinNamesDistinct()
    ensures forall j, k :: 0 <= j < k < |BUILTIN| ==> BUILTIN[j].name != BUILTIN[k].name
  {
  }
}
