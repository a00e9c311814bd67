/**
 * ServerJsonService: the same list mapping as JsonService, over the problem
 * file read on the server. The read result is a parameter: None when reading
 * or parsing failed.
 */
module ServerJsonService {
  import opened Wrappers
  import opened Types
  import opened Seqs
  import JsonService

  /** getAllProblems: every problem of the file in order, marked unsolved; [] when the read failed. */
  function GetAllProblems(read: Option<seq<JsonProblem>>): (r: seq<ProblemWithStatus>)
    ensures read.None? ==> r == []
    ensures read.Some? ==> |r| == |read.value|
    ensures read.Some? ==> forall i :: 0 <= i < |r| ==> r[i].problem == read.value[i].problem
    ensures forall i :: 0 <= i < |r| ==> r[i].solve == Unsolved && r[i].status == NotAttempted
  {
    match read
    case None => []
    case Some(ps) => JsonService.MarkAllUnsolved(ps)
  }

  /** getProblemById: the first problem with the id, with solve "0", or null. */
  function GetProblemById(read: Option<seq<JsonProblem>>, id: int): (r: Option<ProblemWithStatus>)
    ensures IsFirstWith(GetAllProblems(read), ListedProblemIdOf, id, r)
    ensures r.Some? ==> r.value.solve == Unsolved
    ensures r.Some? <==> exists i :: 0 <= i < |GetAllProblems(read)| && GetAllProblems(read)[i].problem.id == id
  {
    match FirstWith(GetAllProblems(read), ListedProblemIdOf, id)
    case None => None
    case Some(p) => Some(p.(solve := SolveOrUnsolved(p.solve)))
  }

  /** Given the same problem list, the server and the browser service agree on every lookup. */
  lemma AgreesWithBrowserService(ps: Option<seq<JsonProblem>>, id: int)
    ensures GetAllProblems(ps) == JsonService.GetAllProblems(ps)
    ensures GetProblemById(ps, id) == JsonService.GetProblemById(ps, id)
  {
  }
}
