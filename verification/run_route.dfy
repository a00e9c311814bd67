/**
 * POST /api/run: request validation, choice of stdin, the per-language
 * shell command, and the result built from how that command ended. The
 * temporary directory, the file writes and the process are not run here:
 * their outcomes are parameters.
 */
module RunRoute {
  import opened Wrappers
  import opened Text
  import opened Types

  const MissingFieldsMessage := "Missing required fields: code, language, problemId"
  const MissingInputMessage := "Either testCases or customInput must be provided"
  const NoOutputMessage := "Program executed successfully (no output)"
  const ExecutionErrorPrefix := "Execution error: "
  /** The class name Java sources are compiled and run under. */
  const JavaClassName := "Solution"

  /** getFileExtension: the source file extension for a language identifier, "txt" for an unknown one. */
  function FileExtension(language: string): (ext: string)
    ensures ParseLanguage(language).None? <==> ext == "txt"
  {
    match language
    case "javascript" => "js"
    case "python" => "py"
    case "java" => "java"
    case "cpp" => "cpp"
    case "c" => "c"
    case _ => "txt"
  }

  /** Every supported language has a real extension, never the "txt" fallback. */
  lemma SupportedLanguagesHaveExtensions(l: Language)
    ensures FileExtension(LanguageName(l)) != "txt"
  {
  }

  /** The extension of each supported language's source file. */
  lemma ExtensionsAsListed()
    ensures FileExtension("javascript") == "js" && FileExtension("python") == "py"
    ensures FileExtension("java") == "java" && FileExtension("cpp") == "cpp" && FileExtension("c") == "c"
  {
  }

  /** Distinct supported languages get distinct extensions, so their source files never share a name. */
  lemma ExtensionsDistinct(l1: Language, l2: Language)
    requires l1 != l2
    ensures FileExtension(LanguageName(l1)) != FileExtension(LanguageName(l2))
  {
  }

  /** path.join for a directory and a plain file name. */
  function PathJoin(dir: string, name: string): string {
    dir + "/" + name
  }

  function InputPath(dir: string): string { PathJoin(dir, "input.txt") }

  function CodePath(dir: string, l: Language): string {
    PathJoin(dir, "code." + FileExtension(LanguageName(l)))
  }

  function Quote(s: string): string { "\"" + s + "\"" }

  /** The redirection that feeds the input file to a program. */
  function StdinRedirect(dir: string): string { " < " + Quote(InputPath(dir)) }

  /** A file executeCode writes before running anything. */
  datatype FileWrite = FileWrite(path: string, content: string)

  /** The files written into the temporary directory, in order: the input, the source, and for Java the source again as Solution.java. */
  function Files(l: Language, dir: string, code: string, input: string): (ws: seq<FileWrite>)
    ensures |ws| == (if l == Java then 3 else 2)
    ensures ws[0] == FileWrite(InputPath(dir), input)
    ensures ws[1] == FileWrite(CodePath(dir, l), code)
    ensures l == Java ==> ws[2] == FileWrite(PathJoin(dir, JavaClassName + ".java"), code)
  {
    [FileWrite(InputPath(dir), input), FileWrite(CodePath(dir, l), code)]
      + (if l == Java then [FileWrite(PathJoin(dir, JavaClassName + ".java"), code)] else [])
  }

  /** The program invocation of the last step, before its stdin redirection. */
  function Launch(l: Language, dir: string): string {
    match l
    case JavaScript => "node " + Quote(CodePath(dir, l))
    case Python => "python " + Quote(CodePath(dir, l))
    case Java => "java " + Quote(JavaClassName)
    case Cpp => Quote(PathJoin(dir, "output"))
    case C => Quote(PathJoin(dir, "output"))
  }

  /** The commands the shell runs one after another; `Command` joins them with `&&`. */
  function Steps(l: Language, dir: string): seq<string> {
    var run := Launch(l, dir) + StdinRedirect(dir);
    match l
    case JavaScript => [run]
    case Python => [run]
    case Java => ["cd " + Quote(dir), "javac " + Quote(JavaClassName + ".java"), run]
    case Cpp => ["g++ " + Quote(CodePath(dir, l)) + " -o " + Quote(PathJoin(dir, "output")), run]
    case C => ["gcc " + Quote(CodePath(dir, l)) + " -o " + Quote(PathJoin(dir, "output")), run]
  }

  /** The shell command executeCode hands to exec. */
  function Command(l: Language, dir: string): string {
    Join(Steps(l, dir), " && ")
  }

  /** Interpreted languages run in a single step; compiled ones compile first and run last. */
  lemma CommandShape(l: Language, dir: string)
    ensures |Steps(l, dir)| == 1 <==> l == JavaScript || l == Python
    ensures l == Java || l == Cpp || l == C ==> |Steps(l, dir)| >= 2
    ensures l == JavaScript || l == Python ==> Command(l, dir) == Steps(l, dir)[0]
  {
  }

  /** Every command ends by running the program with stdin read from input.txt. */
  lemma CommandReadsInput(l: Language, dir: string)
    ensures EndsWith(Command(l, dir), StdinRedirect(dir))
  {
    var steps := Steps(l, dir);
    var last := steps[|steps| - 1];
    assert last == Launch(l, dir) + StdinRedirect(dir);
    JoinEndsWithLast(steps, " && ");
    EndsWithAppended(Launch(l, dir), StdinRedirect(dir));
    EndsWithTrans(Command(l, dir), last, StdinRedirect(dir));
  }

  /**
   * How many steps of an `a && b && c` chain the shell executes, given the
   * exit code each step would end with: it stops after the first failing one.
   */
  function StepsRun(exitCodes: seq<int>): (n: nat)
    ensures n <= |exitCodes|
    ensures |exitCodes| > 0 ==> n > 0
    ensures forall i :: 0 <= i < n - 1 ==> exitCodes[i] == 0
    ensures n < |exitCodes| ==> exitCodes[n - 1] != 0
  {
    if |exitCodes| == 0 then 0
    else if exitCodes[0] != 0 then 1
    else 1 + StepsRun(exitCodes[1..])
  }

  /** The last step, the program itself, runs exactly when every step before it, the compilation, exited with 0. */
  lemma {:induction false} RunOnlyAfterCompile(exitCodes: seq<int>)
    requires |exitCodes| > 0
    ensures StepsRun(exitCodes) == |exitCodes| <==> forall i :: 0 <= i < |exitCodes| - 1 ==> exitCodes[i] == 0
  {
    if |exitCodes| > 1 && exitCodes[0] == 0 {
      RunOnlyAfterCompile(exitCodes[1..]);
      assert forall i :: 1 <= i < |exitCodes| - 1 ==> exitCodes[i] == exitCodes[1..][i - 1];
    }
  }

  /** How exec ended: resolved with the captured streams, or rejected with an error. */
  datatype ProcessOutcome = Resolved(stdout: string, stderr: string) | Rejected(message: string)

  /** Everything executeCode learns from the outside world. */
  datatype Environment = Environment(
    tempDir: Option<string>,     // the directory mkdtemp created; None when it failed
    writesSucceed: bool,         // every writeFile into that directory succeeded
    process: ProcessOutcome,     // how the command ended
    elapsedMs: nat,              // Date.now() - startTime when the result is built
    memoryKb: nat,               // the random memory figure reported on success
    fsErrorMessage: string)      // the message of a failed mkdtemp or writeFile

  /** What executeCode did: its result, the files it wrote, the command it ran, the directory it removed. */
  datatype Execution = Execution(
    result: ExecutionResult,
    written: seq<FileWrite>,
    command: Option<string>,
    removedDir: Option<string>)

  /** `stdout || stderr || 'Program executed successfully (no output)'`. */
  function Output(stdout: string, stderr: string): (out: string)
    ensures stdout != "" ==> out == stdout
    ensures stdout == "" && stderr != "" ==> out == stderr
    ensures stdout == "" && stderr == "" ==> out == NoOutputMessage
  {
    if stdout != "" then stdout else if stderr != "" then stderr else NoOutputMessage
  }

  function Failed(message: string, elapsedMs: nat): ExecutionResult {
    ExecutionResult(false, None, Some(ExecutionErrorPrefix + message), Some(elapsedMs), Some(0))
  }

  /**
   * executeCode. It succeeds only when the directory was made, the files
   * written and the command resolved; a failure reports memory 0 and an
   * error starting "Execution error: "; the directory, once created, is removed on every path.
   */
  function ExecuteCode(code: string, l: Language, input: string, env: Environment): (e: Execution)
    ensures e.result.success <==> env.tempDir.Some? && env.writesSucceed && env.process.Resolved?
    ensures e.removedDir == env.tempDir
    ensures e.result.runtime == Some(env.elapsedMs)
    ensures e.result.success ==>
      && e.result.output == Some(Output(env.process.stdout, env.process.stderr))
      && e.result.error == None
      && e.result.memoryUsage == Some(env.memoryKb)
    ensures !e.result.success ==>
      && e.result.output == None && e.result.memoryUsage == Some(0)
      && e.result.error.Some? && StartsWith(e.result.error.value, ExecutionErrorPrefix)
    ensures e.command.Some? <==> env.tempDir.Some? && env.writesSucceed
    ensures e.command.Some? ==>
      e.command == Some(Command(l, env.tempDir.value)) && e.written == Files(l, env.tempDir.value, code, input)
  {
    match env.tempDir
    case None => Execution(Failed(env.fsErrorMessage, env.elapsedMs), [], None, None)
    case Some(dir) =>
      if !env.writesSucceed then
        Execution(Failed(env.fsErrorMessage, env.elapsedMs), [], None, Some(dir))
      else
        var ran := Some(Command(l, dir));
        var files := Files(l, dir, code, input);
        match env.process
        case Resolved(out, err) =>
          Execution(ExecutionResult(true, Some(Output(out, err)), None, Some(env.elapsedMs), Some(env.memoryKb)),
                    files, ran, Some(dir))
        case Rejected(message) =>
          Execution(Failed(message, env.elapsedMs), files, ran, Some(dir))
  }

  /** The exit status of an `&&` chain: that of the last step the shell ran, or 0 when there is none. */
  function ChainStatus(exitCodes: seq<int>): int {
    var n := StepsRun(exitCodes);
    if n == 0 then 0 else exitCodes[n - 1]
  }

  /** The chain exits with 0 exactly when every step does. */
  lemma ChainSucceedsIffAllZero(exitCodes: seq<int>)
    ensures ChainStatus(exitCodes) == 0 <==> forall i :: 0 <= i < |exitCodes| ==> exitCodes[i] == 0
  {
  }

  /** exec resolves with the captured streams when the shell exits with 0, and rejects otherwise. */
  function ExecOutcome(exitCodes: seq<int>, stdout: string, stderr: string, failure: string): ProcessOutcome {
    if ChainStatus(exitCodes) == 0 then Resolved(stdout, stderr) else Rejected(failure)
  }

  /**
   * executeCode with the command's steps ending in the given exit codes: it
   * succeeds exactly when every step, compilation included, exits with 0, and a
   * failed compilation fails the run without the program being started.
   */
  lemma ExecuteCodeFollowsSteps(code: string, l: Language, input: string, env: Environment,
                                exitCodes: seq<int>, stdout: string, stderr: string, failure: string)
    requires env.process == ExecOutcome(exitCodes, stdout, stderr, failure)
    requires env.tempDir.Some? ==> |exitCodes| == |Steps(l, env.tempDir.value)|
    ensures ExecuteCode(code, l, input, env).result.success <==>
      env.tempDir.Some? && env.writesSucceed && forall i :: 0 <= i < |exitCodes| ==> exitCodes[i] == 0
    ensures |exitCodes| >= 2 && exitCodes[0] != 0 ==>
      !ExecuteCode(code, l, input, env).result.success && StepsRun(exitCodes) == 1 < |exitCodes|
  {
    ChainSucceedsIffAllZero(exitCodes);
  }

  /**
   * The program's stdin: a customInput that is not blank, untrimmed;
   * otherwise the first test case's input; with neither, nothing.
   */
  function SelectStdin(customInput: string, testCases: seq<TestCase>): (r: Option<string>)
    ensures !IsBlank(customInput) ==> r == Some(customInput)
    ensures IsBlank(customInput) && |testCases| > 0 ==> r == Some(testCases[0].input)
    ensures r.None? <==> IsBlank(customInput) && |testCases| == 0
  {
    if customInput != "" && |Trim(customInput)| > 0 then Some(customInput)
    else if |testCases| > 0 then Some(testCases[0].input)
    else None
  }

  /** The request body; missing strings are "", a missing problemId is 0 and missing test cases are []. */
  datatype RunRequest = RunRequest(
    code: string,
    language: string,
    problemId: int,
    testCases: seq<TestCase>,
    customInput: string)

  /** The HTTP status, the JSON body, and the execution when one happened. */
  datatype RunResponse = RunResponse(httpStatus: int, body: ExecutionResult, execution: Option<Execution>)

  function BadRequest(message: string): RunResponse {
    RunResponse(400, ExecutionResult(false, None, Some(message), None, None), None)
  }

  /** `!code || !language || !problemId`. */
  predicate MissingFields(req: RunRequest) {
    req.code == "" || req.language == "" || req.problemId == 0
  }

  /**
   * POST: missing fields, then an unsupported language, then missing input
   * are refused with 400 before anything runs; otherwise the code runs on
   * the selected stdin and its result is the body.
   */
  function Post(req: RunRequest, env: Environment): (r: RunResponse)
    ensures MissingFields(req) ==> r == BadRequest(MissingFieldsMessage)
    ensures !MissingFields(req) && ParseLanguage(req.language).None? ==>
      r == BadRequest("Unsupported language: " + req.language)
    ensures !MissingFields(req) && ParseLanguage(req.language).Some? && SelectStdin(req.customInput, req.testCases).None? ==>
      r == BadRequest(MissingInputMessage)
    ensures r.execution.Some? <==>
      !MissingFields(req) && ParseLanguage(req.language).Some? && SelectStdin(req.customInput, req.testCases).Some?
    ensures r.execution.Some? ==>
      && r.httpStatus == 200
      && r.execution.value == ExecuteCode(req.code, ParseLanguage(req.language).value,
                                          SelectStdin(req.customInput, req.testCases).value, env)
      && r.body == r.execution.value.result
    ensures r.execution.None? ==> r.httpStatus == 400 && !r.body.success
  {
    if MissingFields(req) then BadRequest(MissingFieldsMessage)
    else match ParseLanguage(req.language)
      case None => BadRequest("Unsupported language: " + req.language)
      case Some(l) =>
        match SelectStdin(req.customInput, req.testCases)
        case None => BadRequest(MissingInputMessage)
        case Some(input) =>
          var e := ExecuteCode(req.code, l, input, env);
          RunResponse(200, e.result, Some(e))
  }
}
