/**
 * ProblemsList: the page's list state (problems, current page, page size),
 * the page slice, the solve toggle applied to the local list and priming
 * the hook's cache with the initial flags. React's rendering and effect
 * scheduling are not modelled; each handler is one step on the state.
 */
module ProblemsList {
  import opened Wrappers
  import opened Types
  import Pagination
  import SolveStatusHook

  /** The page size the list starts with. */
  const DefaultItemsPerPage: int := 10

  /** The page sizes the selector offers. */
  const ItemsPerPageOptions: seq<int> := [10, 20, 50, 100]

  /** The component's state. */
  datatype ListState = ListState(problems: seq<ProblemWithStatus>, currentPage: int, itemsPerPage: int)

  /** The state a fresh list starts in. */
  function Initial(initialProblems: seq<ProblemWithStatus>): (r: ListState)
    ensures r.problems == initialProblems && r.currentPage == 1
    ensures r.itemsPerPage == DefaultItemsPerPage && r.itemsPerPage in ItemsPerPageOptions
  {
    ListState(initialProblems, 1, DefaultItemsPerPage)
  }

  /** Math.ceil(totalItems / itemsPerPage). */
  function TotalPages(totalItems: nat, itemsPerPage: int): (r: nat)
    requires itemsPerPage > 0
    ensures totalItems <= r * itemsPerPage
    ensures r > 0 ==> (r - 1) * itemsPerPage < totalItems
    ensures r == 0 <==> totalItems == 0
  {
    (totalItems + itemsPerPage - 1) / itemsPerPage
  }

  /** A JavaScript slice index: negative counts from the end, and both ends are clamped to the sequence. */
  function SliceIndex(i: int, len: nat): (r: nat)
    ensures r <= len
    ensures 0 <= i <= len ==> r == i
  {
    if i < 0 then (if len + i < 0 then 0 else len + i)
    else if i > len then len
    else i
  }

  /** Array.prototype.slice. */
  function Slice<T>(xs: seq<T>, start: int, end: int): (r: seq<T>)
    ensures 0 <= start <= end <= |xs| ==> r == xs[start..end]
    ensures 0 <= start && |xs| <= end ==> r == xs[Pagination.Min(start, |xs|)..]
    ensures |r| <= |xs|
  {
    var s := SliceIndex(start, |xs|);
    var e := SliceIndex(end, |xs|);
    if s < e then xs[s..e] else []
  }

  /** The problems shown on a page. */
  function PageOf(problems: seq<ProblemWithStatus>, page: int, itemsPerPage: int): (r: seq<ProblemWithStatus>)
    requires page >= 1 && itemsPerPage > 0
    ensures 0 <= (page - 1) * itemsPerPage
    ensures |r| <= itemsPerPage
    ensures (page - 1) * itemsPerPage + itemsPerPage <= |problems| ==>
      r == problems[(page - 1) * itemsPerPage..(page - 1) * itemsPerPage + itemsPerPage]
  {
    var startIndex := (page - 1) * itemsPerPage;
    MulMonotone(0, page - 1, itemsPerPage);
    Slice(problems, startIndex, startIndex + itemsPerPage)
  }

  /** The problems on the current page. */
  function CurrentProblems(st: ListState): (r: seq<ProblemWithStatus>)
    requires st.currentPage >= 1 && st.itemsPerPage > 0
    ensures |r| <= st.itemsPerPage
  {
    PageOf(st.problems, st.currentPage, st.itemsPerPage)
  }

  /**
   * On a page that exists, the shown problems are exactly those numbered
   * StartItem to EndItem in the "Showing a to b of n" line.
   */
  lemma PageMatchesRange(problems: seq<ProblemWithStatus>, page: int, itemsPerPage: int)
    requires itemsPerPage > 0
    requires 1 <= page <= TotalPages(|problems|, itemsPerPage)
    ensures var first := Pagination.StartItem(page, itemsPerPage);
      var last := Pagination.EndItem(page, itemsPerPage, |problems|);
      1 <= first <= last <= |problems|
      && PageOf(problems, page, itemsPerPage) == problems[first - 1..last]
  {
    var n := TotalPages(|problems|, itemsPerPage);
    assert (page - 1) * itemsPerPage <= (n - 1) * itemsPerPage;
  }

  /** The pages 1 to n, one after another. */
  function Pages(problems: seq<ProblemWithStatus>, itemsPerPage: int, n: nat): seq<ProblemWithStatus>
    requires itemsPerPage > 0
  {
    if n == 0 then [] else Pages(problems, itemsPerPage, n - 1) + PageOf(problems, n, itemsPerPage)
  }

  /** Page n is the stretch of the list between the ends of pages n - 1 and n, each cut off at the list's end. */
  lemma PageIsStretch(problems: seq<ProblemWithStatus>, itemsPerPage: int, n: nat, start: int)
    requires itemsPerPage > 0 && n > 0
    requires start == (n - 1) * itemsPerPage
    ensures 0 <= start
    ensures PageOf(problems, n, itemsPerPage) ==
      problems[Pagination.Min(start, |problems|)..Pagination.Min(start + itemsPerPage, |problems|)]
  {
    MulMonotone(0, n - 1, itemsPerPage);
  }

  /** The first n pages are the list's first n * itemsPerPage problems (or all of them). */
  lemma {:induction false} PagesArePrefix(problems: seq<ProblemWithStatus>, itemsPerPage: int, n: nat)
    requires itemsPerPage > 0
    ensures Pages(problems, itemsPerPage, n) == problems[..Pagination.Min(n * itemsPerPage, |problems|)]
  {
    if n > 0 {
      var start := (n - 1) * itemsPerPage;
      PagesArePrefix(problems, itemsPerPage, n - 1);
      PageIsStretch(problems, itemsPerPage, n, start);
      assert n * itemsPerPage == start + itemsPerPage;
      var a := Pagination.Min(start, |problems|);
      var b := Pagination.Min(start + itemsPerPage, |problems|);
      assert problems[..a] + problems[a..b] == problems[..b];
    }
  }

  /** Reading every page in turn gives back the whole list, in order. */
  lemma PagesCoverList(problems: seq<ProblemWithStatus>, itemsPerPage: int)
    requires itemsPerPage > 0
    ensures Pages(problems, itemsPerPage, TotalPages(|problems|, itemsPerPage)) == problems
  {
    PagesArePrefix(problems, itemsPerPage, TotalPages(|problems|, itemsPerPage));
  }

  /** The pagination controls are rendered only when there is more than one page. */
  predicate ShowsPagination(st: ListState)
    requires st.itemsPerPage > 0
  {
    TotalPages(|st.problems|, st.itemsPerPage) > 1
  }

  /** There is more than one page exactly when the list does not fit on one. */
  lemma PaginationWhenOverflowing(st: ListState)
    requires st.itemsPerPage > 0
    ensures ShowsPagination(st) <==> |st.problems| > st.itemsPerPage
  {
    var k := st.itemsPerPage;
    var r := TotalPages(|st.problems|, k);
    assert r > 1 ==> (r - 1) * k >= k by {
      if r > 1 { MulMonotone(1, r - 1, k); }
    }
    assert r <= 1 ==> r * k <= k by {
      if r <= 1 { MulMonotone(r, 1, k); }
    }
  }

  lemma MulMonotone(a: int, b: int, k: int)
    requires a <= b && k > 0
    ensures a * k <= b * k
  {
  }

  /** onPageChange: go to the page. */
  function ChangePage(st: ListState, page: int): (r: ListState)
    ensures r.problems == st.problems && r.itemsPerPage == st.itemsPerPage && r.currentPage == page
  {
    st.(currentPage := page)
  }

  /**
   * onItemsPerPageChange: set the page size; the effect keyed on the page
   * size then resets the current page to 1 (it does not run when the size
   * stays the same).
   */
  function ChangeItemsPerPage(st: ListState, items: int): (r: ListState)
    ensures r.problems == st.problems && r.itemsPerPage == items
    ensures items != st.itemsPerPage ==> r.currentPage == 1
    ensures items == st.itemsPerPage ==> r == st
  {
    if items == st.itemsPerPage then st else ListState(st.problems, 1, items)
  }

  /** The local update after a toggle: every problem with the id gets the new flag. */
  function ApplyToggle(problems: seq<ProblemWithStatus>, problemId: int, solve: string): (r: seq<ProblemWithStatus>)
    ensures |r| == |problems|
    ensures forall i :: 0 <= i < |problems| && problems[i].problem.id == problemId ==>
      r[i] == problems[i].(solve := solve)
    ensures forall i :: 0 <= i < |problems| && problems[i].problem.id != problemId ==> r[i] == problems[i]
  {
    seq(|problems|, i requires 0 <= i < |problems| =>
      if problems[i].problem.id == problemId then problems[i].(solve := solve) else problems[i])
  }

  /**
   * handleToggleSolveStatus: toggle through the hook, then write the flag the
   * toggle resolved with into the local list.
   */
  function HandleToggleSolveStatus(
    st: ListState, hook: SolveStatusHook.HookState, problemId: int, currentSolve: string, serviceSucceeds: bool
  ): (r: (ListState, SolveStatusHook.HookState))
    ensures var t := SolveStatusHook.ToggleSolveStatus(hook, problemId, currentSolve, serviceSucceeds);
      r.1 == t.state
      && r.0.currentPage == st.currentPage && r.0.itemsPerPage == st.itemsPerPage
      && |r.0.problems| == |st.problems|
      && (forall i :: 0 <= i < |st.problems| && st.problems[i].problem.id == problemId ==>
            r.0.problems[i].solve == t.resolved && r.0.problems[i].problem == st.problems[i].problem)
      && (forall i :: 0 <= i < |st.problems| && st.problems[i].problem.id != problemId ==>
            r.0.problems[i] == st.problems[i])
  {
    var t := SolveStatusHook.ToggleSolveStatus(hook, problemId, currentSolve, serviceSucceeds);
    (st.(problems := ApplyToggle(st.problems, problemId, t.resolved)), t.state)
  }

  /** A toggle whose update failed puts the old flag back, so a problem showing that flag is unchanged. */
  lemma FailedToggleKeepsList(st: ListState, hook: SolveStatusHook.HookState, problemId: int, currentSolve: string)
    requires SolveStatusHook.Proceeds(hook, problemId, SolveStatusHook.Toggle(currentSolve))
    requires forall i :: 0 <= i < |st.problems| && st.problems[i].problem.id == problemId ==>
      st.problems[i].solve == currentSolve
    ensures HandleToggleSolveStatus(st, hook, problemId, currentSolve, false).0 == st
  {
    var r := HandleToggleSolveStatus(st, hook, problemId, currentSolve, false).0;
    assert r.problems == st.problems;
  }

  /** Position k holds the last problem of the list with its id. */
  ghost predicate LastWithId(problems: seq<ProblemWithStatus>, k: int)
    requires 0 <= k < |problems|
  {
    forall j :: k < j < |problems| ==> problems[j].problem.id != problems[k].problem.id
  }

  /**
   * The mount effect: cache every initial problem's flag (`solve || "0"`),
   * in list order.
   */
  function PrimeCache(hook: SolveStatusHook.HookState, problems: seq<ProblemWithStatus>): (r: SolveStatusHook.HookState)
    ensures r.pending == hook.pending && r.updating == hook.updating && r.updatingProblemId == hook.updatingProblemId
    decreases |problems|
  {
    if |problems| == 0 then hook
    else
      var last := problems[|problems| - 1];
      var before := PrimeCache(hook, problems[..|problems| - 1]);
      SolveStatusHook.SetCachedStatus(before, last.problem.id, SolveOrUnsolved(last.solve))
  }

  /** Priming leaves the cached flag of an id that is not listed as it was. */
  lemma {:induction false} PrimeCacheKeepsUnlisted(hook: SolveStatusHook.HookState, problems: seq<ProblemWithStatus>, id: int)
    requires forall i :: 0 <= i < |problems| ==> problems[i].problem.id != id
    ensures SolveStatusHook.GetCachedStatus(PrimeCache(hook, problems), id) == SolveStatusHook.GetCachedStatus(hook, id)
    decreases |problems|
  {
    if |problems| > 0 {
      PrimeCacheKeepsUnlisted(hook, problems[..|problems| - 1], id);
    }
  }

  /** After priming, a listed id holds the flag of its last entry, so a later duplicate wins. */
  lemma {:induction false} PrimeCacheLastWins(hook: SolveStatusHook.HookState, problems: seq<ProblemWithStatus>, k: int)
    requires 0 <= k < |problems| && LastWithId(problems, k)
    ensures SolveStatusHook.GetCachedStatus(PrimeCache(hook, problems), problems[k].problem.id) ==
      Some(SolveOrUnsolved(problems[k].solve))
    decreases |problems|
  {
    var n := |problems| - 1;
    if k < n {
      var prefix := problems[..n];
      assert problems[n].problem.id != problems[k].problem.id;
      assert LastWithId(prefix, k);
      PrimeCacheLastWins(hook, prefix, k);
    }
  }
}
