/**
 * The records of the application (problems, test cases, submissions,
 * attempts, execution results) and the fixed values they use.
 */
module Types {
  import opened Wrappers

  datatype Difficulty = Easy | Medium | Hard

  datatype TestCase = TestCase(input: string, expectedOutput: string, explanation: Option<string>)

  /** A problem as the submission store keeps it; its creation timestamp is not modelled. */
  datatype Problem = Problem(
    id: int,
    title: string,
    description: string,
    difficulty: Difficulty,
    testCases: seq<TestCase>,
    solution: Option<string>)

  datatype SubmissionStatus = Accepted | WrongAnswer | RuntimeError | TimeLimitExceeded

  /** A judged submission; `language` is whatever the client sent, it is never checked. */
  datatype Submission = Submission(
    id: int,
    problemId: int,
    code: string,
    language: string,
    status: SubmissionStatus,
    runtime: Option<int>,
    memoryUsage: Option<int>)

  datatype ProblemAttempt = ProblemAttempt(id: int, problemId: int)

  datatype ProblemStatus = NotAttempted | Attempted | Submitted

  /** A problem of the JSON problem file, with its `solve` flag ("" when the file has none). */
  datatype JsonProblem = JsonProblem(problem: Problem, solve: string)

  /** A problem as the list services hand it to the page. */
  datatype ProblemWithStatus = ProblemWithStatus(problem: Problem, solve: string, status: ProblemStatus)

  datatype Language = JavaScript | Python | Java | Cpp | C

  /** The outcome of running or judging code, as sent back to the client. */
  datatype ExecutionResult = ExecutionResult(
    success: bool,
    output: Option<string>,
    error: Option<string>,
    runtime: Option<int>,
    memoryUsage: Option<int>)

  /** The solve flags of the problem file. */
  const Unsolved: string := "0"
  const Solved: string := "1"

  /** Keys the store and the services search by. */
  function IdOf(p: Problem): int { p.id }
  function SubmissionProblemIdOf(s: Submission): int { s.problemId }
  function AttemptProblemIdOf(a: ProblemAttempt): int { a.problemId }
  function JsonProblemIdOf(p: JsonProblem): int { p.problem.id }
  function ListedProblemIdOf(p: ProblemWithStatus): int { p.problem.id }

  /** The identifier the client sends for a language. */
  function LanguageName(l: Language): string {
    match l
    case JavaScript => "javascript"
    case Python => "python"
    case Java => "java"
    case Cpp => "cpp"
    case C => "c"
  }

  /** The supported language a client identifier names, if any. */
  function ParseLanguage(s: string): (r: Option<Language>)
    ensures r.Some? ==> LanguageName(r.value) == s
    ensures forall l :: LanguageName(l) == s ==> r == Some(l)
  {
    if s == "javascript" then Some(JavaScript)
    else if s == "python" then Some(Python)
    else if s == "java" then Some(Java)
    else if s == "cpp" then Some(Cpp)
    else if s == "c" then Some(C)
    else None
  }

  /** `solve || "0"`: a solve flag with JavaScript's falsy empty string read as unsolved. */
  function SolveOrUnsolved(solve: string): (r: string)
    ensures r != ""
    ensures solve != "" ==> r == solve
    ensures solve == "" ==> r == Unsolved
  {
    if solve == "" then Unsolved else solve
  }
}
