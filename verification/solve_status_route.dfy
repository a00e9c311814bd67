/**
 * The /api/solve-status route over the problem file. The file is the parsed
 * problem list, or None when it cannot be read or parsed; writing it back may
 * fail, which is an outcome passed in.
 */
module SolveStatusRoute {
  import opened Wrappers
  import opened Types
  import opened Seqs
  import Text

  /** The JSON response: HTTP status, success flag and the optional message and solve flag fields. */
  datatype Response = Response(httpStatus: int, success: bool, message: Option<string>, solveStatus: Option<string>)

  const IdRequiredMessage: string := "Problem ID is required"
  const UpdateFailedMessage: string := "Failed to update solve status"
  const ReadFailedMessage: string := "Failed to read solve status"

  /** The 404 message; `shown` is the id as the request spelled it. */
  function NotFoundMessage(shown: string): string {
    "Problem " + shown + " not found"
  }

  /** The 200 message of an update. */
  function UpdatedMessage(problemId: int, solveStatus: string): string {
    "Problem " + Text.IntToString(problemId) + " solve status updated to " + solveStatus
  }

  /** The problem list with the solve flag of the problem at index k replaced. */
  function SetSolveAt(problems: seq<JsonProblem>, k: nat, status: string): (r: seq<JsonProblem>)
    requires k < |problems|
    ensures |r| == |problems|
    ensures r[k].problem == problems[k].problem && r[k].solve == status
    ensures forall i :: 0 <= i < |problems| && i != k ==> r[i] == problems[i]
  {
    problems[k := problems[k].(solve := status)]
  }

  /** The POST body: the problem's id and the flag to store. */
  datatype PostBody = PostBody(problemId: int, solveStatus: string)

  /**
   * POST: set the solve flag of the first problem with the given id and write
   * the file back. Returns the response and the file afterwards. An
   * unreadable body or file, or a failed write, is a 500 that leaves the file
   * as it was.
   */
  function Post(file: Option<seq<JsonProblem>>, body: Option<PostBody>, writeSucceeds: bool): (r: (Response, Option<seq<JsonProblem>>))
    ensures r.0.httpStatus != 200 ==> r.1 == file && !r.0.success
    ensures body.None? || file.None? ==> r.0 == Response(500, false, Some(UpdateFailedMessage), None)
    ensures body.Some? && file.Some? ==>
      match FirstIndexWith(file.value, JsonProblemIdOf, body.value.problemId)
      case None =>
        r.0.httpStatus == 404 && r.0.message == Some(NotFoundMessage(Text.IntToString(body.value.problemId)))
      case Some(k) =>
        if writeSucceeds then
          r.0 == Response(200, true, Some(UpdatedMessage(body.value.problemId, body.value.solveStatus)), None)
          && r.1 == Some(SetSolveAt(file.value, k, body.value.solveStatus))
        else r.0.httpStatus == 500
  {
    if body.None? || file.None? then (Response(500, false, Some(UpdateFailedMessage), None), file)
    else
      var id := body.value.problemId;
      match FirstIndexWith(file.value, JsonProblemIdOf, id)
      case None => (Response(404, false, Some(NotFoundMessage(Text.IntToString(id))), None), file)
      case Some(k) =>
        if writeSucceeds then
          (Response(200, true, Some(UpdatedMessage(id, body.value.solveStatus)), None),
           Some(SetSolveAt(file.value, k, body.value.solveStatus)))
        else (Response(500, false, Some(UpdateFailedMessage), None), file)
  }

  /**
   * GET: look up the solve flag of a problem. `problemId` is the query
   * parameter (None when absent) and `parsed` is what parseInt makes of it
   * (None for NaN). The id check comes before the file is read.
   */
  function Get(file: Option<seq<JsonProblem>>, problemId: Option<string>, parsed: Option<int>): (r: Response)
    ensures problemId.None? || problemId.value == "" ==> r == Response(400, false, Some(IdRequiredMessage), None)
    ensures problemId.Some? && problemId.value != "" && file.None? ==>
      r == Response(500, false, Some(ReadFailedMessage), None)
    ensures r.httpStatus == 200 <==> r.success
    ensures r.httpStatus == 200 ==>
      file.Some? && parsed.Some? && r.message.None?
      && (exists k ::
            && 0 <= k < |file.value| && JsonProblemIdOf(file.value[k]) == parsed.value
            && (forall i :: 0 <= i < k ==> JsonProblemIdOf(file.value[i]) != parsed.value)
            && r.solveStatus == Some(Types.SolveOrUnsolved(file.value[k].solve)))
    ensures problemId.Some? && problemId.value != "" && file.Some? && r.httpStatus != 200 ==>
      r.httpStatus == 404 && r.message == Some(NotFoundMessage(problemId.value))
      && (parsed.None? || forall i :: 0 <= i < |file.value| ==> JsonProblemIdOf(file.value[i]) != parsed.value)
  {
    if problemId.None? || problemId.value == "" then Response(400, false, Some(IdRequiredMessage), None)
    else if file.None? then Response(500, false, Some(ReadFailedMessage), None)
    else if parsed.None? then Response(404, false, Some(NotFoundMessage(problemId.value)), None)
    else
      match FirstIndexWith(file.value, JsonProblemIdOf, parsed.value)
      case None => Response(404, false, Some(NotFoundMessage(problemId.value)), None)
      case Some(k) => Response(200, true, None, Some(Types.SolveOrUnsolved(file.value[k].solve)))
  }

  /** A successful POST followed by a GET of the same id returns the posted flag ("0" for an empty one). */
  lemma PostThenGet(file: seq<JsonProblem>, id: int, status: string, shown: string)
    requires FirstIndexWith(file, JsonProblemIdOf, id).Some?
    requires shown != ""
    ensures var after := Post(Some(file), Some(PostBody(id, status)), true).1;
      Get(after, Some(shown), Some(id)) == Response(200, true, None, Some(Types.SolveOrUnsolved(status)))
  {
    var k := FirstIndexWith(file, JsonProblemIdOf, id).value;
    var after := SetSolveAt(file, k, status);
    assert Post(Some(file), Some(PostBody(id, status)), true).1 == Some(after);
    FirstIndexUnchanged(file, after, k, id);
  }

  /** Changing only the solve flag keeps every id in place, so the first match stays at the same index. */
  lemma FirstIndexUnchanged(file: seq<JsonProblem>, after: seq<JsonProblem>, k: nat, id: int)
    requires FirstIndexWith(file, JsonProblemIdOf, id) == Some(k)
    requires |after| == |file|
    requires forall i :: 0 <= i < |file| ==> after[i].problem == file[i].problem
    ensures FirstIndexWith(after, JsonProblemIdOf, id) == Some(k)
  {
    assert forall i :: 0 <= i < |file| ==> JsonProblemIdOf(after[i]) == JsonProblemIdOf(file[i]);
    FirstIndexSameKeys(after, JsonProblemIdOf, file, JsonProblemIdOf, id);
  }
}
