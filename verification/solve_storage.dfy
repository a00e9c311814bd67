/**
 * The browser's `problemSolveStatus` entry: a JSON object from problem id to
 * solve flag. None stands for an entry that is absent (or empty, which the
 * services treat the same way). Both ProblemService and JsonService read and
 * write it with the same code.
 */
module SolveStorage {
  import opened Wrappers
  import opened Types

  type Stored = Option<map<int, string>>

  /** The object the services start from: the stored one, or `{}`. */
  function Statuses(stored: Stored): map<int, string> {
    stored.GetOr(map[])
  }

  /** updateSolveStatus's storage step: read the object, set the problem's flag, write it back. */
  function Write(stored: Stored, problemId: int, status: string): (r: map<int, string>)
    ensures problemId in r && r[problemId] == status
    ensures forall other :: other != problemId ==> (other in r <==> other in Statuses(stored))
    ensures forall other :: other != problemId && other in r ==> r[other] == Statuses(stored)[other]
  {
    Statuses(stored)[problemId := status]
  }

  /** getSolveStatus: the stored flag when there is a non-empty one, otherwise "0". */
  function Read(stored: Stored, problemId: int): (r: string)
    ensures r != ""
    ensures stored.Some? && problemId in stored.value && stored.value[problemId] != "" ==> r == stored.value[problemId]
    ensures stored.None? || problemId !in stored.value || stored.value[problemId] == "" ==> r == Unsolved
  {
    if stored.None? then Unsolved
    else if problemId in stored.value then SolveOrUnsolved(stored.value[problemId])
    else Unsolved
  }

  /** Reading back a flag just written gives that flag, or "0" for an empty one; other problems read as before. */
  lemma ReadAfterWrite(stored: Stored, problemId: int, status: string, other: int)
    ensures Read(Some(Write(stored, problemId, status)), problemId) == SolveOrUnsolved(status)
    ensures other != problemId ==>
      Read(Some(Write(stored, problemId, status)), other) == Read(stored, other)
  {
  }

  /** Writing the same flag twice stores the same object as writing it once. */
  lemma WriteIdempotent(stored: Stored, problemId: int, status: string)
    ensures Write(Some(Write(stored, problemId, status)), problemId, status) == Write(stored, problemId, status)
  {
  }

  /**
   * updateSolveStatus of both services: the API call's outcome decides only
   * which path writes (the success path or the error fallback); both write
   * the same object.
   */
  function Update(stored: Stored, problemId: int, status: string, apiSucceeded: bool): (r: map<int, string>)
    ensures Read(Some(r), problemId) == SolveOrUnsolved(status)
    ensures forall other :: other != problemId ==> Read(Some(r), other) == Read(stored, other)
  {
    ReadAfterWrite(stored, problemId, status, problemId);
    assert forall other :: other != problemId ==> Read(Some(Write(stored, problemId, status)), other) == Read(stored, other) by {
      forall other | other != problemId {
        ReadAfterWrite(stored, problemId, status, other);
      }
    }
    if apiSucceeded then Write(stored, problemId, status)
    else Write(stored, problemId, status)
  }
}
