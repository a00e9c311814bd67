/**
 * ProblemService: the problem list read from the problem file (on the server)
 * or fetched (in the browser), normalised for the page, and the solve flags
 * kept in the browser's storage. The file or fetch result is a parameter:
 * None when reading, fetching or parsing failed.
 */
module ProblemService {
  import opened Wrappers
  import opened Types
  import opened Seqs
  import SolveStorage

  /** One problem as the page gets it: solve defaulted to "0" when falsy, status not attempted. */
  function Process(p: JsonProblem): (r: ProblemWithStatus)
    ensures r.problem == p.problem && r.status == NotAttempted
    ensures r.solve != ""
    ensures p.solve != "" ==> r.solve == p.solve
  {
    ProblemWithStatus(p.problem, SolveOrUnsolved(p.solve), NotAttempted)
  }

  /** processProblems: normalise every problem, keeping length and order. */
  function ProcessProblems(ps: seq<JsonProblem>): (r: seq<ProblemWithStatus>)
    ensures |r| == |ps|
    ensures forall i :: 0 <= i < |ps| ==> r[i].problem == ps[i].problem && r[i].status == NotAttempted
    ensures forall i :: 0 <= i < |ps| ==> r[i].solve == SolveOrUnsolved(ps[i].solve)
  {
    seq(|ps|, i requires 0 <= i < |ps| => Process(ps[i]))
  }

  /** getAllProblems (both the server and the client path): the normalised list, or [] when loading failed. */
  function GetAllProblems(load: Option<seq<JsonProblem>>): (r: seq<ProblemWithStatus>)
    ensures load.None? ==> r == []
    ensures load.Some? ==> r == ProcessProblems(load.value)
  {
    match load
    case None => []
    case Some(ps) => ProcessProblems(ps)
  }

  /** getProblemById: the first listed problem with the id, solve defaulted again, or null. */
  function GetProblemById(load: Option<seq<JsonProblem>>, id: int): (r: Option<ProblemWithStatus>)
    ensures IsFirstWith(GetAllProblems(load), ListedProblemIdOf, id, r)
    ensures r.Some? ==> r.value.solve != ""
  {
    match FirstWith(GetAllProblems(load), ListedProblemIdOf, id)
    case None => None
    case Some(p) => Some(p.(solve := SolveOrUnsolved(p.solve)))
  }

  /** Looking a problem up by id finds the normalised form of the first file entry with that id. */
  lemma GetProblemByIdFromFile(ps: seq<JsonProblem>, id: int)
    ensures GetProblemById(Some(ps), id) ==
      match FirstIndexWith(ps, JsonProblemIdOf, id)
      case None => None
      case Some(k) => Some(Process(ps[k]))
  {
    var listed := ProcessProblems(ps);
    FirstIndexSameKeys(listed, ListedProblemIdOf, ps, JsonProblemIdOf, id);
  }

  /** updateSolveStatus: the storage write happens whether the API call succeeded or not. */
  function UpdateSolveStatus(stored: SolveStorage.Stored, problemId: int, status: string, apiSucceeded: bool): (r: map<int, string>)
    ensures SolveStorage.Read(Some(r), problemId) == SolveOrUnsolved(status)
    ensures forall other :: other != problemId ==> SolveStorage.Read(Some(r), other) == SolveStorage.Read(stored, other)
  {
    SolveStorage.Update(stored, problemId, status, apiSucceeded)
  }

  /** getSolveStatus: the stored flag if truthy, otherwise "0". */
  function GetSolveStatus(stored: SolveStorage.Stored, problemId: int): (r: string)
    ensures r != ""
    ensures stored.Some? && problemId in stored.value && stored.value[problemId] != "" ==> r == stored.value[problemId]
    ensures stored.None? || problemId !in stored.value || stored.value[problemId] == "" ==> r == Unsolved
  {
    SolveStorage.Read(stored, problemId)
  }
}
