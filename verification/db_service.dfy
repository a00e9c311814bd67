/**
 * The service layer over the store. Each lookup issues a SQL-looking query
 * that the store answers by table name only, so the filters and orderings
 * written in the queries never take effect.
 */
module DbService {
  import opened Wrappers
  import opened Seqs
  import opened Types
  import opened Database

  /** Some submission of the table belongs to `pid`. */
  ghost predicate HasSubmission(s: Store, pid: int) {
    exists i :: 0 <= i < |s.submissions| && s.submissions[i].problemId == pid
  }

  /** Some submission of `pid` was accepted. */
  ghost predicate HasAccepted(s: Store, pid: int) {
    exists i :: 0 <= i < |s.submissions| && s.submissions[i].problemId == pid && s.submissions[i].status == Accepted
  }

  /** Some attempt of `pid` was recorded. */
  ghost predicate HasAttempt(s: Store, pid: int) {
    exists i :: 0 <= i < |s.attempts| && s.attempts[i].problemId == pid
  }

  /**
   * getAllProblems: its join query names `FROM problems`, so the store hands
   * back the bare problems table and the computed status column never appears.
   */
  function GetAllProblems(s: Store): (r: seq<Problem>)
    ensures r == s.problems
  {
    var rows := All(s, ProblemsWithStatus);
    seq(|rows|, i requires 0 <= i < |rows| => rows[i].p)
  }

  /** getProblemById: the first problem with that id, or null. */
  function GetProblemById(s: Store, id: int): (r: Option<Problem>)
    ensures IsFirstWith(s.problems, IdOf, id, r)
    ensures r.Some? ==> r.value in s.problems && r.value.id == id
    ensures r.None? <==> forall i :: 0 <= i < |s.problems| ==> s.problems[i].id != id
  {
    ProblemOf(Get(s, ProblemById, id))
  }

  /** createProblem: the id the insert assigned, the problems counter before the call. */
  function CreateProblem(s: Store, d: ProblemDraft): (r: (Store, int))
    ensures r.1 == s.nextIds.problems
    ensures r.0.problems == s.problems + [NewProblem(r.1, d)]
    ensures r.0.submissions == s.submissions && r.0.attempts == s.attempts
    ensures r.0.nextIds == s.nextIds.(problems := r.1 + 1)
    ensures Valid(s) ==> Valid(r.0)
  {
    Run(s, InsertProblem(d))
  }

  /** createSubmission: the id the insert assigned, the submissions counter before the call. */
  function CreateSubmission(s: Store, d: SubmissionDraft): (r: (Store, int))
    ensures r.1 == s.nextIds.submissions
    ensures r.0.submissions == s.submissions + [NewSubmission(r.1, d)]
    ensures r.0.problems == s.problems && r.0.attempts == s.attempts
    ensures r.0.nextIds == s.nextIds.(submissions := r.1 + 1)
    ensures Valid(s) ==> Valid(r.0)
  {
    Run(s, InsertSubmission(d))
  }

  /** getSubmissionsByProblem: the whole submissions table in insertion order, whatever `problemId` is. */
  function GetSubmissionsByProblem(s: Store, problemId: int): (r: seq<Submission>)
    ensures r == s.submissions
  {
    var rows := All(s, SubmissionsByProblem);
    seq(|rows|, i requires 0 <= i < |rows| => rows[i].s)
  }

  /** getLatestSubmission: the first-inserted submission of the problem, not the latest, or null. */
  function GetLatestSubmission(s: Store, problemId: int): (r: Option<Submission>)
    ensures IsFirstWith(s.submissions, SubmissionProblemIdOf, problemId, r)
    ensures r.None? <==> !HasSubmission(s, problemId)
  {
    SubmissionOf(Get(s, LatestSubmission, problemId))
  }

  /** recordAttempt: the id the insert assigned, the attempts counter before the call. */
  function RecordAttempt(s: Store, problemId: int): (r: (Store, int))
    ensures r.1 == s.nextIds.attempts
    ensures r.0.attempts == s.attempts + [ProblemAttempt(r.1, problemId)]
    ensures r.0.problems == s.problems && r.0.submissions == s.submissions
    ensures r.0.nextIds == s.nextIds.(attempts := r.1 + 1)
    ensures Valid(s) ==> Valid(r.0)
  {
    Run(s, InsertAttempt(problemId))
  }

  /**
   * getProblemStatus: 'submitted' over 'attempted' over 'not-attempted'. The
   * store's submissions lookup drops `status = 'Accepted'`, so any submission
   * at all makes the problem 'submitted'.
   */
  function GetProblemStatus(s: Store, problemId: int): (r: ProblemStatus)
    ensures r == Submitted <==> HasSubmission(s, problemId)
    ensures r == Attempted <==> !HasSubmission(s, problemId) && HasAttempt(s, problemId)
    ensures r == NotAttempted <==> !HasSubmission(s, problemId) && !HasAttempt(s, problemId)
  {
    var accepted := Get(s, AcceptedSubmission, problemId);
    if accepted.Some? then Submitted
    else
      var attempt := Get(s, AttemptByProblem, problemId);
      if attempt.Some? then Attempted else NotAttempted
  }

  /** clearAllData: after it no problem has a submission or an attempt. */
  function ClearAllData(s: Store): (r: Store)
    ensures r.problems == [] && r.submissions == [] && r.attempts == []
    ensures r.nextIds == Counters(1, 1, 1)
    ensures forall pid :: GetProblemStatus(r, pid) == NotAttempted
  {
    Database.ClearAllData(s)
  }

  // What the queries ask for, were the store to honour WHERE and ORDER BY.

  /** The elements of `xs` that `keep` selects, in their order. */
  function Keep(xs: seq<Submission>, keep: Submission -> bool): (r: seq<Submission>)
    ensures |r| <= |xs|
    ensures forall x :: x in r <==> x in xs && keep(x)
  {
    if |xs| == 0 then []
    else
      var rest := Keep(xs[1..], keep);
      assert forall x :: x in xs ==> x == xs[0] || x in xs[1..];
      if keep(xs[0]) then [xs[0]] + rest else rest
  }

  /** Submission ids strictly increase along `xs`. */
  ghost predicate IdsIncrease(xs: seq<Submission>) {
    forall i, j :: 0 <= i < j < |xs| ==> xs[i].id < xs[j].id
  }

  /** In a sequence with increasing ids, the head's id is below every later one. */
  lemma HeadBelowRest(xs: seq<Submission>)
    requires |xs| > 0 && IdsIncrease(xs)
    ensures forall x :: x in xs[1..] ==> xs[0].id < x.id
  {
    forall x | x in xs[1..] ensures xs[0].id < x.id {
      var k :| 0 <= k < |xs[1..]| && xs[1..][k] == x;
      assert xs[k + 1] == x;
    }
  }

  /** Putting an element with a smaller id than all others in front keeps ids increasing. */
  lemma ConsIncrease(x: Submission, rest: seq<Submission>)
    requires IdsIncrease(rest)
    requires forall y :: y in rest ==> x.id < y.id
    ensures IdsIncrease([x] + rest)
  {
    var r := [x] + rest;
    forall i, j | 0 <= i < j < |r| ensures r[i].id < r[j].id {
      assert r[j] == rest[j - 1];
      if i > 0 {
        assert r[i] == rest[i - 1];
      }
    }
  }

  /** Selecting keeps the relative order, so increasing ids stay increasing. */
  lemma {:induction false} KeepKeepsOrder(xs: seq<Submission>, keep: Submission -> bool)
    requires IdsIncrease(xs)
    ensures IdsIncrease(Keep(xs, keep))
  {
    if |xs| > 0 {
      assert IdsIncrease(xs[1..]);
      KeepKeepsOrder(xs[1..], keep);
      if keep(xs[0]) {
        HeadBelowRest(xs);
        ConsIncrease(xs[0], Keep(xs[1..], keep));
      }
    }
  }

  /** `xs` back to front. */
  function Reverse(xs: seq<Submission>): (r: seq<Submission>)
    ensures |r| == |xs|
    ensures forall i :: 0 <= i < |r| ==> r[i] == xs[|xs| - 1 - i]
  {
    if |xs| == 0 then [] else Reverse(xs[1..]) + [xs[0]]
  }

  /** In a valid store submission ids increase in insertion order. */
  lemma ValidSubmissionsIncrease(s: Store)
    requires Valid(s)
    ensures IdsIncrease(s.submissions)
  {
    assert forall i :: 0 <= i < |s.submissions| ==> SubmissionIds(s.submissions)[i] == s.submissions[i].id;
  }

  /** The submissions of `problemId` only, newest first: what getSubmissionsByProblem's query asks for. */
  function IntendedSubmissionsByProblem(s: Store, problemId: int): (r: seq<Submission>)
    ensures forall x :: x in r <==> x in s.submissions && x.problemId == problemId
    ensures Valid(s) ==> forall i, j :: 0 <= i < j < |r| ==> r[i].id > r[j].id
  {
    var mine := Keep(s.submissions, (x: Submission) => x.problemId == problemId);
    var r := Reverse(mine);
    assert forall x :: x in r <==> x in mine by {
      forall x ensures x in r <==> x in mine {
        if x in mine {
          var k :| 0 <= k < |mine| && mine[k] == x;
          assert r[|mine| - 1 - k] == x;
        }
      }
    }
    assert Valid(s) ==> IdsIncrease(mine) by {
      if Valid(s) {
        ValidSubmissionsIncrease(s);
        KeepKeepsOrder(s.submissions, (x: Submission) => x.problemId == problemId);
      }
    }
    r
  }

  /** The newest submission of `problemId`: what getLatestSubmission's query asks for. */
  function IntendedLatestSubmission(s: Store, problemId: int): (r: Option<Submission>)
    ensures r.None? <==> !HasSubmission(s, problemId)
    ensures r.Some? ==> r.value in s.submissions && r.value.problemId == problemId
    ensures Valid(s) && r.Some? ==>
      forall i :: 0 <= i < |s.submissions| && s.submissions[i].problemId == problemId ==>
        s.submissions[i].id <= r.value.id
  {
    var newestFirst := IntendedSubmissionsByProblem(s, problemId);
    assert HasSubmission(s, problemId) ==> |newestFirst| > 0 by {
      if HasSubmission(s, problemId) {
        var i :| 0 <= i < |s.submissions| && s.submissions[i].problemId == problemId;
        assert s.submissions[i] in newestFirst;
      }
    }
    if |newestFirst| == 0 then None
    else
      assert newestFirst[0] in newestFirst;
      assert Valid(s) ==> forall i :: 0 <= i < |s.submissions| && s.submissions[i].problemId == problemId ==>
        s.submissions[i].id <= newestFirst[0].id by {
        if Valid(s) {
          forall i | 0 <= i < |s.submissions| && s.submissions[i].problemId == problemId
            ensures s.submissions[i].id <= newestFirst[0].id
          {
            assert s.submissions[i] in newestFirst;
            var k :| 0 <= k < |newestFirst| && newestFirst[k] == s.submissions[i];
          }
        }
      }
      Some(newestFirst[0])
  }

  /** The status getProblemStatus's queries ask for: 'submitted' only once a submission was accepted. */
  function IntendedProblemStatus(s: Store, problemId: int): (r: ProblemStatus)
    ensures r == Submitted <==> HasAccepted(s, problemId)
    ensures r == Attempted <==> !HasAccepted(s, problemId) && HasAttempt(s, problemId)
    ensures r == NotAttempted <==> !HasAccepted(s, problemId) && !HasAttempt(s, problemId)
  {
    var accepted := Keep(s.submissions, (x: Submission) => x.problemId == problemId && x.status == Accepted);
    assert HasAccepted(s, problemId) <==> |accepted| > 0 by {
      if HasAccepted(s, problemId) {
        var i :| 0 <= i < |s.submissions| && s.submissions[i].problemId == problemId && s.submissions[i].status == Accepted;
        assert s.submissions[i] in accepted;
      }
      if |accepted| > 0 {
        assert accepted[0] in s.submissions;
      }
    }
    if |accepted| > 0 then Submitted
    else if Get(s, AttemptByProblem, problemId).Some? then Attempted
    else NotAttempted
  }

  /** A store whose only submission is a rejected one for problem 1. */
  const OneWrongAnswer: Store :=
    Store([], [Submission(1, 1, "x", "python", WrongAnswer, None, None)], [], Counters(1, 2, 1))

  /** A Wrong Answer submission alone already makes the problem 'submitted'. */
  lemma AcceptedFilterIgnored()
    ensures Valid(OneWrongAnswer)
    ensures GetProblemStatus(OneWrongAnswer, 1) == Submitted
    ensures IntendedProblemStatus(OneWrongAnswer, 1) == NotAttempted
  {
    assert OneWrongAnswer.submissions[0].problemId == 1;
    assert SubmissionIds(OneWrongAnswer.submissions) == [1];
  }

  /** A store holding one submission for problem 2. */
  const OtherProblemSubmission: Store :=
    Store([], [Submission(1, 2, "def solve(): pass", "python", Accepted, Some(5), Some(200))], [], Counters(1, 2, 1))

  /** Asking for problem 1's submissions returns problem 2's. */
  lemma ProblemFilterIgnored()
    ensures GetSubmissionsByProblem(OtherProblemSubmission, 1) == OtherProblemSubmission.submissions
    ensures |GetSubmissionsByProblem(OtherProblemSubmission, 1)| == 1
    ensures IntendedSubmissionsByProblem(OtherProblemSubmission, 1) == []
  {
  }

  /** Two submissions for problem 1, ids 1 then 2. */
  const TwoSubmissions: Store :=
    Store([], [Submission(1, 1, "a", "c", WrongAnswer, Some(5), Some(200)),
               Submission(2, 1, "b", "c", Accepted, Some(7), Some(300))], [], Counters(1, 3, 1))

  /** The "latest" submission returned is the oldest one. */
  lemma LatestIsOldest()
    ensures Valid(TwoSubmissions)
    ensures GetLatestSubmission(TwoSubmissions, 1) == Some(TwoSubmissions.submissions[0])
    ensures IntendedLatestSubmission(TwoSubmissions, 1) == Some(TwoSubmissions.submissions[1])
  {
    var subs := TwoSubmissions.submissions;
    assert SubmissionIds(subs) == [1, 2];
    OfTwo(TwoSubmissions, subs[0], subs[1]);
  }

  /** With two submissions of one problem, the first is found as written and the second is the newest. */
  lemma OfTwo(s: Store, a: Submission, b: Submission)
    requires s.submissions == [a, b] && a.problemId == b.problemId && a.id < b.id
    ensures GetLatestSubmission(s, a.problemId) == Some(a)
    ensures IntendedLatestSubmission(s, a.problemId) == Some(b)
  {
    assert s.submissions[0] == a && SubmissionProblemIdOf(a) == a.problemId;
    assert IsFirstWith(s.submissions, SubmissionProblemIdOf, a.problemId, Some(a));
    FirstWithDetermined(s.submissions, SubmissionProblemIdOf, a.problemId, Some(a));
    var want := IntendedLatestSubmission(s, a.problemId);
    assert HasSubmission(s, a.problemId) by { assert s.submissions[0].problemId == a.problemId; }
    assert want.value == a || want.value == b;
    assert want.value.id >= b.id by { assert s.submissions[1] == b; }
  }
}
