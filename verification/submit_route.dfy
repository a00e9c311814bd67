/**
 * POST /api/submit: a fixed chain of placeholder checks decides the verdict,
 * and every well-formed request leaves exactly one submission in the store.
 * The elapsed time and the random memory figure arrive as parameters.
 */
module SubmitRoute {
  import opened Wrappers
  import opened Text
  import opened Types
  import opened Database
  import DbService

  /** Runtimes above this many milliseconds exceed the time limit. */
  const TimeLimitMs := 2000
  /** Code shorter than this many UTF-16 code units is judged too simple. */
  const MinCodeLength := 50

  const CodeEmptyMessage := "Code cannot be empty"
  const MissingFunctionJsMessage := "JavaScript code must contain a function"
  const MissingFunctionPythonMessage := "Python code must contain a function definition"
  const TooSimpleMessage := "Solution appears too simple. Test case 3 failed."
  const TimeLimitMessage := "Time limit exceeded"
  const AcceptedMessage := "All test cases passed! Solution accepted."
  const MissingFieldsMessage := "Missing required fields"

  /** A verdict: the client-facing result and the status stored with the submission. */
  datatype Judgement = Judgement(result: ExecutionResult, status: SubmissionStatus)

  /** The language check fails: JavaScript without `function`, or Python without `def`. */
  ghost predicate LacksKeyword(code: string, language: string) {
    || (language == "javascript" && !(exists i :: OccursAt(code, "function", i)))
    || (language == "python" && !(exists i :: OccursAt(code, "def", i)))
  }

  function Rejected(error: string, status: SubmissionStatus, runtime: Option<int>, memoryUsage: Option<int>): Judgement {
    Judgement(ExecutionResult(false, None, Some(error), runtime, memoryUsage), status)
  }

  /**
   * validateSubmission. The checks run in order (blank code, language
   * keyword, length, runtime) and the first that fails decides the verdict.
   */
  function ValidateSubmission(code: string, language: string, runtime: nat, memoryUsage: nat): (j: Judgement)
    ensures j.result.success <==> j.status == Accepted
    ensures j.status == Accepted <==>
      !IsBlank(code) && !LacksKeyword(code, language) && Utf16Length(code) >= MinCodeLength && runtime <= TimeLimitMs
    ensures IsBlank(code) ==> j == Rejected(CodeEmptyMessage, RuntimeError, None, None)
    ensures !IsBlank(code) && LacksKeyword(code, language) ==>
      j == Rejected(if language == "javascript" then MissingFunctionJsMessage else MissingFunctionPythonMessage,
                    RuntimeError, None, None)
    ensures !IsBlank(code) && !LacksKeyword(code, language) && Utf16Length(code) < MinCodeLength ==>
      j == Rejected(TooSimpleMessage, WrongAnswer, Some(runtime), Some(memoryUsage))
    ensures !IsBlank(code) && !LacksKeyword(code, language) && Utf16Length(code) >= MinCodeLength && runtime > TimeLimitMs ==>
      j == Rejected(TimeLimitMessage, TimeLimitExceeded, Some(TimeLimitMs), Some(memoryUsage))
    ensures j.status == Accepted ==>
      j.result == ExecutionResult(true, Some(AcceptedMessage), None, Some(runtime), Some(memoryUsage))
  {
    if |Trim(code)| == 0 then
      Rejected(CodeEmptyMessage, RuntimeError, None, None)
    else if language == "javascript" && !Contains(code, "function") then
      Rejected(MissingFunctionJsMessage, RuntimeError, None, None)
    else if language == "python" && !Contains(code, "def") then
      Rejected(MissingFunctionPythonMessage, RuntimeError, None, None)
    else if Utf16Length(code) < MinCodeLength then
      Rejected(TooSimpleMessage, WrongAnswer, Some(runtime), Some(memoryUsage))
    else if runtime > TimeLimitMs then
      Rejected(TimeLimitMessage, TimeLimitExceeded, Some(TimeLimitMs), Some(memoryUsage))
    else
      Judgement(ExecutionResult(true, Some(AcceptedMessage), None, Some(runtime), Some(memoryUsage)), Accepted)
  }

  /** Only JavaScript and Python are checked for a keyword: in any other language a Runtime Error means blank code. */
  lemma KeywordCheckOnlyForScripts(code: string, language: string, runtime: nat, memoryUsage: nat)
    requires language != "javascript" && language != "python"
    ensures ValidateSubmission(code, language, runtime, memoryUsage).status == RuntimeError <==> IsBlank(code)
  {
  }

  /**
   * The length check counts UTF-16 code units, as `code.length` does: 25
   * characters outside the Basic Multilingual Plane make 50 units, which is long enough.
   */
  lemma AstralCodeLongEnough(code: string, runtime: nat, memoryUsage: nat)
    requires |code| == 25 && forall i :: 0 <= i < |code| ==> code[i] as int >= 0x10000
    requires runtime <= TimeLimitMs
    ensures ValidateSubmission(code, "cpp", runtime, memoryUsage).status == Accepted
  {
    Utf16LengthAllAstral(code);
    assert !IsWhitespace(code[0]);
  }

  /** Apart from Wrong Answer, a reported runtime never exceeds the limit: a slow run is reported as exactly 2000. */
  lemma ReportedRuntimeClamped(code: string, language: string, runtime: nat, memoryUsage: nat)
    ensures var j := ValidateSubmission(code, language, runtime, memoryUsage);
      j.status != WrongAnswer && j.result.runtime.Some? ==> j.result.runtime.value <= TimeLimitMs
    ensures var j := ValidateSubmission(code, language, runtime, memoryUsage);
      j.status == TimeLimitExceeded ==> j.result.runtime == Some(TimeLimitMs)
  {
  }

  /** The request body; a missing string is "" and a missing problemId is 0, the values JavaScript treats as falsy. */
  datatype SubmitRequest = SubmitRequest(code: string, language: string, problemId: int)

  datatype SubmitResponse = SubmitResponse(
    httpStatus: int,
    success: bool,
    output: Option<string>,
    error: Option<string>,
    runtime: Option<int>,
    memoryUsage: Option<int>,
    submissionId: Option<int>)

  /** `!code || !language || !problemId`. */
  predicate MissingFields(req: SubmitRequest) {
    req.code == "" || req.language == "" || req.problemId == 0
  }

  /**
   * POST: a request lacking a field is refused with 400 and stores nothing;
   * otherwise exactly one submission carrying the verdict is appended, and
   * the verdict is echoed with the new submission's id.
   */
  function Post(store: Store, req: SubmitRequest, runtime: nat, memoryUsage: nat): (r: (SubmitResponse, Store))
    ensures MissingFields(req) ==>
      r.1 == store && r.0 == SubmitResponse(400, false, None, Some(MissingFieldsMessage), None, None, None)
    ensures !MissingFields(req) ==>
      var j := ValidateSubmission(req.code, req.language, runtime, memoryUsage);
      var id := store.nextIds.submissions;
      && r.0 == SubmitResponse(200, j.result.success, j.result.output, j.result.error,
                               j.result.runtime, j.result.memoryUsage, Some(id))
      && r.1.submissions == store.submissions +
           [Submission(id, req.problemId, req.code, req.language, j.status, j.result.runtime, j.result.memoryUsage)]
      && r.1.problems == store.problems && r.1.attempts == store.attempts
      && r.1.nextIds == store.nextIds.(submissions := id + 1)
    ensures Valid(store) ==> Valid(r.1)
  {
    if MissingFields(req) then
      (SubmitResponse(400, false, None, Some(MissingFieldsMessage), None, None, None), store)
    else
      var j := ValidateSubmission(req.code, req.language, runtime, memoryUsage);
      var (store', id) := DbService.CreateSubmission(store,
        SubmissionDraft(req.problemId, req.code, req.language, j.status, j.result.runtime, j.result.memoryUsage));
      (SubmitResponse(200, j.result.success, j.result.output, j.result.error,
                      j.result.runtime, j.result.memoryUsage, Some(id)), store')
  }

  /** Whitespace-only code gets past the field check but is rejected as empty, and is still stored. */
  lemma BlankCodeStoredAsRuntimeError(store: Store, req: SubmitRequest, runtime: nat, memoryUsage: nat)
    requires !MissingFields(req) && IsBlank(req.code)
    ensures var (resp, store') := Post(store, req, runtime, memoryUsage);
      && resp.success == false && resp.error == Some(CodeEmptyMessage)
      && |store'.submissions| == |store.submissions| + 1
      && store'.submissions[|store.submissions|].status == RuntimeError
  {
  }
}
