/**
 * The JSON-file store behind the submission pages: three tables, one id
 * counter per table, and a `prepare(query)` whose `all`, `get` and `run`
 * dispatch on which words the query text contains, not on what it says.
 */
module Database {
  import opened Wrappers
  import opened Seqs
  import opened Types

  datatype Counters = Counters(problems: int, submissions: int, attempts: int)

  /** The whole database: the tables in insertion order and the next id of each. */
  datatype Store = Store(
    problems: seq<Problem>,
    submissions: seq<Submission>,
    attempts: seq<ProblemAttempt>,
    nextIds: Counters)

  /** The columns an insert into `problems` binds. */
  datatype ProblemDraft = ProblemDraft(
    title: string,
    description: string,
    difficulty: Difficulty,
    testCases: seq<TestCase>,
    solution: Option<string>)

  /** The columns an insert into `submissions` binds. */
  datatype SubmissionDraft = SubmissionDraft(
    problemId: int,
    code: string,
    language: string,
    status: SubmissionStatus,
    runtime: Option<int>,
    memoryUsage: Option<int>)

  datatype Table = Problems | Submissions | Attempts

  /**
   * The statements the services prepare. Inserts carry the values bound to
   * their placeholders; the selects take one parameter when they are run.
   */
  datatype Query =
    | ProblemsWithStatus        // SELECT p.*, CASE ... FROM problems p LEFT JOIN submissions s ... ORDER BY p.id
    | ProblemById               // SELECT * FROM problems WHERE id = ?
    | SubmissionsByProblem      // SELECT * FROM submissions WHERE problem_id = ? ORDER BY submitted_at DESC
    | LatestSubmission          // ... the same with LIMIT 1
    | AcceptedSubmission        // SELECT id FROM submissions WHERE problem_id = ? AND status = 'Accepted' LIMIT 1
    | AttemptByProblem          // SELECT id FROM problem_attempts WHERE problem_id = ? LIMIT 1
    | InsertProblem(problem: ProblemDraft)
    | InsertSubmission(submission: SubmissionDraft)
    | InsertAttempt(problemId: int)

  /** A record handed back by `all` or `get`. */
  datatype Row = ProblemRow(p: Problem) | SubmissionRow(s: Submission) | AttemptRow(a: ProblemAttempt)

  /** The table named right after `FROM` in the query text, if any. */
  function FromTable(q: Query): Option<Table> {
    match q
    case ProblemsWithStatus => Some(Problems)
    case ProblemById => Some(Problems)
    case SubmissionsByProblem => Some(Submissions)
    case LatestSubmission => Some(Submissions)
    case AcceptedSubmission => Some(Submissions)
    case AttemptByProblem => Some(Attempts)
    case _ => None
  }

  /** The query text contains `WHERE id = ?`. */
  predicate SelectsById(q: Query) {
    q.ProblemById?
  }

  /** The store with three empty tables and every counter at 1. */
  const Empty: Store := Store([], [], [], Counters(1, 1, 1))

  /** Ids strictly increase in insertion order, start at 1, and stay below `next`. */
  ghost predicate IdsOrdered(ids: seq<int>, next: int) {
    && 1 <= next
    && (forall i, j :: 0 <= i < j < |ids| ==> ids[i] < ids[j])
    && (forall i :: 0 <= i < |ids| ==> 1 <= ids[i] < next)
  }

  function ProblemIds(ps: seq<Problem>): seq<int> {
    seq(|ps|, i requires 0 <= i < |ps| => ps[i].id)
  }

  function SubmissionIds(ss: seq<Submission>): seq<int> {
    seq(|ss|, i requires 0 <= i < |ss| => ss[i].id)
  }

  function AttemptIds(xs: seq<ProblemAttempt>): seq<int> {
    seq(|xs|, i requires 0 <= i < |xs| => xs[i].id)
  }

  /** The store invariant every operation keeps. */
  ghost predicate Valid(s: Store) {
    && IdsOrdered(ProblemIds(s.problems), s.nextIds.problems)
    && IdsOrdered(SubmissionIds(s.submissions), s.nextIds.submissions)
    && IdsOrdered(AttemptIds(s.attempts), s.nextIds.attempts)
  }

  /** Within every table of a valid store, no two records share an id. */
  lemma ValidIdsUnique(s: Store)
    requires Valid(s)
    ensures forall i, j :: 0 <= i < j < |s.problems| ==> s.problems[i].id != s.problems[j].id
    ensures forall i, j :: 0 <= i < j < |s.submissions| ==> s.submissions[i].id != s.submissions[j].id
    ensures forall i, j :: 0 <= i < j < |s.attempts| ==> s.attempts[i].id != s.attempts[j].id
  {
    assert forall i :: 0 <= i < |s.problems| ==> ProblemIds(s.problems)[i] == s.problems[i].id;
    assert forall i :: 0 <= i < |s.submissions| ==> SubmissionIds(s.submissions)[i] == s.submissions[i].id;
    assert forall i :: 0 <= i < |s.attempts| ==> AttemptIds(s.attempts)[i] == s.attempts[i].id;
  }

  /** The database on module load: the persisted file when it reads and parses, otherwise an empty store. */
  function InitializeDB(persisted: Option<Store>): (s: Store)
    ensures persisted.Some? ==> s == persisted.value
    ensures persisted.None? ==> s.problems == [] && s.submissions == [] && s.attempts == []
    ensures persisted.None? ==> s.nextIds == Counters(1, 1, 1) && Valid(s)
  {
    match persisted
    case Some(stored) => stored
    case None => Empty
  }

  /** `prepare(q).all(...)`: a whole table in insertion order, whatever the WHERE and ORDER BY say. */
  function All(s: Store, q: Query): (rows: seq<Row>)
    ensures FromTable(q) == Some(Problems) ==>
      |rows| == |s.problems| && forall i :: 0 <= i < |rows| ==> rows[i] == ProblemRow(s.problems[i])
    ensures FromTable(q) == Some(Submissions) ==>
      |rows| == |s.submissions| && forall i :: 0 <= i < |rows| ==> rows[i] == SubmissionRow(s.submissions[i])
    ensures FromTable(q) == Some(Attempts) ==>
      |rows| == |s.attempts| && forall i :: 0 <= i < |rows| ==> rows[i] == AttemptRow(s.attempts[i])
    ensures FromTable(q) == None ==> rows == []
  {
    match FromTable(q)
    case Some(Problems) => seq(|s.problems|, i requires 0 <= i < |s.problems| => ProblemRow(s.problems[i]))
    case Some(Submissions) => seq(|s.submissions|, i requires 0 <= i < |s.submissions| => SubmissionRow(s.submissions[i]))
    case Some(Attempts) => seq(|s.attempts|, i requires 0 <= i < |s.attempts| => AttemptRow(s.attempts[i]))
    case None => []
  }

  /** The problem inside a `get` result, if it is a problem row. */
  function ProblemOf(r: Option<Row>): Option<Problem> {
    match r
    case Some(ProblemRow(p)) => Some(p)
    case _ => None
  }

  function SubmissionOf(r: Option<Row>): Option<Submission> {
    match r
    case Some(SubmissionRow(x)) => Some(x)
    case _ => None
  }

  function AttemptOf(r: Option<Row>): Option<ProblemAttempt> {
    match r
    case Some(AttemptRow(a)) => Some(a)
    case _ => None
  }

  /** The row kind the lookup on `t` hands back. */
  predicate RowOfTable(r: Option<Row>, t: Table) {
    match r
    case None => true
    case Some(row) =>
      match t
      case Problems => row.ProblemRow?
      case Submissions => row.SubmissionRow?
      case Attempts => row.AttemptRow?
  }

  /**
   * `prepare(q).get(param)`: the problem lookup finds by id; any query on
   * `submissions` or `problem_attempts` finds the first record whose
   * problemId is `param`, ignoring every other condition; anything else is null.
   */
  function Get(s: Store, q: Query, param: int): (r: Option<Row>)
    ensures FromTable(q) == Some(Problems) && SelectsById(q) ==>
      RowOfTable(r, Problems) && IsFirstWith(s.problems, IdOf, param, ProblemOf(r))
    ensures FromTable(q) == Some(Submissions) ==>
      RowOfTable(r, Submissions) && IsFirstWith(s.submissions, SubmissionProblemIdOf, param, SubmissionOf(r))
    ensures FromTable(q) == Some(Attempts) ==>
      RowOfTable(r, Attempts) && IsFirstWith(s.attempts, AttemptProblemIdOf, param, AttemptOf(r))
    ensures FromTable(q) == None || (FromTable(q) == Some(Problems) && !SelectsById(q)) ==> r == None
  {
    if FromTable(q) == Some(Problems) && SelectsById(q) then
      match FirstWith(s.problems, IdOf, param)
      case Some(p) => Some(ProblemRow(p))
      case None => None
    else if FromTable(q) == Some(Submissions) then
      match FirstWith(s.submissions, SubmissionProblemIdOf, param)
      case Some(x) => Some(SubmissionRow(x))
      case None => None
    else if FromTable(q) == Some(Attempts) then
      match FirstWith(s.attempts, AttemptProblemIdOf, param)
      case Some(a) => Some(AttemptRow(a))
      case None => None
    else
      None
  }

  /** The problem record an insert creates under `id`. */
  function NewProblem(id: int, d: ProblemDraft): Problem {
    Problem(id, d.title, d.description, d.difficulty, d.testCases, d.solution)
  }

  function NewSubmission(id: int, d: SubmissionDraft): Submission {
    Submission(id, d.problemId, d.code, d.language, d.status, d.runtime, d.memoryUsage)
  }

  /**
   * `prepare(q).run(...)`: an insert takes the table's counter as the new id,
   * bumps that counter, appends the record and returns the id as
   * lastInsertRowid; any other statement changes nothing and returns 0.
   */
  function Run(s: Store, q: Query): (r: (Store, int))
    ensures q.InsertProblem? ==>
      && r.1 == s.nextIds.problems
      && r.0.problems == s.problems + [NewProblem(r.1, q.problem)]
      && r.0.nextIds == s.nextIds.(problems := s.nextIds.problems + 1)
      && r.0.submissions == s.submissions && r.0.attempts == s.attempts
    ensures q.InsertSubmission? ==>
      && r.1 == s.nextIds.submissions
      && r.0.submissions == s.submissions + [NewSubmission(r.1, q.submission)]
      && r.0.nextIds == s.nextIds.(submissions := s.nextIds.submissions + 1)
      && r.0.problems == s.problems && r.0.attempts == s.attempts
    ensures q.InsertAttempt? ==>
      && r.1 == s.nextIds.attempts
      && r.0.attempts == s.attempts + [ProblemAttempt(r.1, q.problemId)]
      && r.0.nextIds == s.nextIds.(attempts := s.nextIds.attempts + 1)
      && r.0.problems == s.problems && r.0.submissions == s.submissions
    ensures !(q.InsertProblem? || q.InsertSubmission? || q.InsertAttempt?) ==> r == (s, 0)
    ensures Valid(s) ==> Valid(r.0)
  {
    match q
    case InsertProblem(d) =>
      var id := s.nextIds.problems;
      var s' := s.(problems := s.problems + [NewProblem(id, d)],
                   nextIds := s.nextIds.(problems := id + 1));
      assert ProblemIds(s'.problems) == ProblemIds(s.problems) + [id];
      (s', id)
    case InsertSubmission(d) =>
      var id := s.nextIds.submissions;
      var s' := s.(submissions := s.submissions + [NewSubmission(id, d)],
                   nextIds := s.nextIds.(submissions := id + 1));
      assert SubmissionIds(s'.submissions) == SubmissionIds(s.submissions) + [id];
      (s', id)
    case InsertAttempt(pid) =>
      var id := s.nextIds.attempts;
      var s' := s.(attempts := s.attempts + [ProblemAttempt(id, pid)],
                   nextIds := s.nextIds.(attempts := id + 1));
      assert AttemptIds(s'.attempts) == AttemptIds(s.attempts) + [id];
      (s', id)
    case _ => (s, 0)
  }

  /** `db.clearAllData()`: every table emptied and every counter back to 1, whatever the store held. */
  function ClearAllData(s: Store): (r: Store)
    ensures r.problems == [] && r.submissions == [] && r.attempts == []
    ensures r.nextIds == Counters(1, 1, 1)
    ensures Valid(r)
  {
    Empty
  }
}
