/**
 * JsonService, the browser-side service: the fetched problem list with every
 * solve flag forced to "0", lookups in it, and the solve flags in the
 * browser's storage. The fetch result is a parameter: None when the response
 * was not ok or could not be parsed.
 */
module JsonService {
  import opened Wrappers
  import opened Types
  import opened Seqs
  import SolveStorage
  import ProblemService

  /** One problem as the page gets it from the JSON services: unsolved and not attempted, whatever the file says. */
  function MarkUnsolved(p: JsonProblem): (r: ProblemWithStatus)
    ensures r.problem == p.problem
    ensures r.solve == Unsolved && r.status == NotAttempted
  {
    ProblemWithStatus(p.problem, Unsolved, NotAttempted)
  }

  /** The list mapping both JSON services share. */
  function MarkAllUnsolved(ps: seq<JsonProblem>): (r: seq<ProblemWithStatus>)
    ensures |r| == |ps|
    ensures forall i :: 0 <= i < |ps| ==> r[i] == MarkUnsolved(ps[i])
  {
    seq(|ps|, i requires 0 <= i < |ps| => MarkUnsolved(ps[i]))
  }

  /** getAllProblems: every fetched problem in order, marked unsolved; [] when the fetch failed. */
  function GetAllProblems(fetched: Option<seq<JsonProblem>>): (r: seq<ProblemWithStatus>)
    ensures fetched.None? ==> r == []
    ensures fetched.Some? ==> |r| == |fetched.value|
    ensures fetched.Some? ==> forall i :: 0 <= i < |r| ==> r[i].problem == fetched.value[i].problem
    ensures forall i :: 0 <= i < |r| ==> r[i].solve == Unsolved && r[i].status == NotAttempted
  {
    match fetched
    case None => []
    case Some(ps) => MarkAllUnsolved(ps)
  }

  /** getProblemById: the first problem with the id, always with solve "0", or null. */
  function GetProblemById(fetched: Option<seq<JsonProblem>>, id: int): (r: Option<ProblemWithStatus>)
    ensures IsFirstWith(GetAllProblems(fetched), ListedProblemIdOf, id, r)
    ensures r.Some? ==> r.value.solve == Unsolved
  {
    match FirstWith(GetAllProblems(fetched), ListedProblemIdOf, id)
    case None => None
    case Some(p) => Some(p.(solve := SolveOrUnsolved(p.solve)))
  }

  /**
   * The JSON services and ProblemService list the same problems in the same
   * order; their lists are equal exactly when no problem in the file is
   * marked solved (every flag is absent or "0").
   */
  lemma SameListWhenNothingSolved(ps: seq<JsonProblem>)
    ensures GetAllProblems(Some(ps)) == ProblemService.GetAllProblems(Some(ps)) <==>
      forall i :: 0 <= i < |ps| ==> ps[i].solve == "" || ps[i].solve == Unsolved
  {
    var mine := GetAllProblems(Some(ps));
    var theirs := ProblemService.GetAllProblems(Some(ps));
    if mine == theirs {
      forall i | 0 <= i < |ps|
        ensures ps[i].solve == "" || ps[i].solve == Unsolved
      {
        assert mine[i].solve == theirs[i].solve;
      }
    }
  }

  /** updateSolveStatus: the storage write happens both after a successful API call and in the error fallback. */
  function UpdateSolveStatus(stored: SolveStorage.Stored, problemId: int, status: string, apiSucceeded: bool): (r: map<int, string>)
    ensures SolveStorage.Read(Some(r), problemId) == SolveOrUnsolved(status)
    ensures forall other :: other != problemId ==> SolveStorage.Read(Some(r), other) == SolveStorage.Read(stored, other)
  {
    SolveStorage.Update(stored, problemId, status, apiSucceeded)
  }

  /** getSolveStatus: the stored flag if truthy, otherwise "0". */
  function GetSolveStatus(stored: SolveStorage.Stored, problemId: int): (r: string)
    ensures r != ""
    ensures stored.Some? && problemId in stored.value && stored.value[problemId] != "" ==> r == stored.value[problemId]
    ensures stored.None? || problemId !in stored.value || stored.value[problemId] == "" ==> r == Unsolved
  {
    SolveStorage.Read(stored, problemId)
  }
}
