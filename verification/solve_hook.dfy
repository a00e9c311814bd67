/**
 * The useSolveStatus hook: a module-wide cache of solve flags and a set of
 * problems with an update in flight, plus the hook's own "updating" state.
 * The service call is an outcome passed in (it succeeded or it threw); the
 * 100 ms debounce and the interleaving of concurrent calls are not modelled,
 * each call runs to completion before the next.
 */
module SolveStatusHook {
  import opened Wrappers
  import opened Types

  /**
   * cache and pending are shared by every use of the hook; updating and
   * updatingProblemId belong to one hook instance.
   */
  datatype HookState = HookState(
    cache: map<int, string>,
    pending: set<int>,
    updating: bool,
    updatingProblemId: Option<int>)

  /** Empty cache, nothing pending, nothing updating. */
  const Initial: HookState := HookState(map[], {}, false, None)

  /** The result of updateSolveStatus: the state afterwards, whether the service was called and whether the call threw. */
  datatype UpdateOutcome = UpdateOutcome(state: HookState, called: bool, threw: bool)

  /** Whether an update goes past the two early returns: nothing pending for the problem and a different cached value. */
  predicate Proceeds(h: HookState, problemId: int, status: string) {
    problemId !in h.pending && !(problemId in h.cache && h.cache[problemId] == status)
  }

  /** isUpdating: the problem is this instance's current update or it is pending anywhere. */
  predicate IsUpdating(h: HookState, problemId: int) {
    h.updatingProblemId == Some(problemId) || problemId in h.pending
  }

  /** The part of an update before the service call: mark the problem pending and updating. */
  function BeginUpdate(h: HookState, problemId: int): (r: HookState)
    ensures r.cache == h.cache
    ensures r.pending == h.pending + {problemId}
    ensures r.updating && IsUpdating(r, problemId)
  {
    h.(pending := h.pending + {problemId}, updating := true, updatingProblemId := Some(problemId))
  }

  /**
   * The part after the service call: on success cache the new status, on
   * failure keep the cache; on both paths drop the problem from the pending
   * set and clear the updating state.
   */
  function FinishUpdate(h: HookState, problemId: int, status: string, succeeded: bool): (r: HookState)
    ensures succeeded ==> r.cache == h.cache[problemId := status]
    ensures !succeeded ==> r.cache == h.cache
    ensures r.pending == h.pending - {problemId}
    ensures !r.updating && r.updatingProblemId == None
    ensures !IsUpdating(r, problemId)
  {
    var cache := if succeeded then h.cache[problemId := status] else h.cache;
    HookState(cache, h.pending - {problemId}, false, None)
  }

  /** updateSolveStatus, with the outcome of the service call given. */
  function UpdateSolveStatus(h: HookState, problemId: int, status: string, serviceSucceeds: bool): (r: UpdateOutcome)
    ensures !Proceeds(h, problemId, status) ==> r == UpdateOutcome(h, false, false)
    ensures Proceeds(h, problemId, status) ==> r.called && r.threw == !serviceSucceeds
    ensures Proceeds(h, problemId, status) && serviceSucceeds ==> r.state.cache == h.cache[problemId := status]
    ensures Proceeds(h, problemId, status) && !serviceSucceeds ==> r.state.cache == h.cache
    ensures Proceeds(h, problemId, status) ==>
      r.state.pending == h.pending && !r.state.updating && !IsUpdating(r.state, problemId)
  {
    if !Proceeds(h, problemId, status) then UpdateOutcome(h, false, false)
    else
      var during := BeginUpdate(h, problemId);
      UpdateOutcome(FinishUpdate(during, problemId, status, serviceSucceeds), true, !serviceSucceeds)
  }

  /** Repeating an update that succeeded does nothing: the cached value already matches. */
  lemma RepeatedUpdateIsNoop(h: HookState, problemId: int, status: string, first: bool, second: bool)
    requires UpdateSolveStatus(h, problemId, status, first).called && first
    ensures var h1 := UpdateSolveStatus(h, problemId, status, first).state;
      UpdateSolveStatus(h1, problemId, status, second) == UpdateOutcome(h1, false, false)
  {
  }

  /** The flag a toggle asks for: "0" becomes "1", anything else becomes "0". */
  function Toggle(current: string): (r: string)
    ensures r == Solved || r == Unsolved
    ensures r == Solved <==> current == Unsolved
  {
    if current == Unsolved then Solved else Unsolved
  }

  /** On the two flags a toggle flips the value, and toggling twice gives it back. */
  lemma ToggleInvolution(current: string)
    requires current == Unsolved || current == Solved
    ensures Toggle(current) != current
    ensures Toggle(Toggle(current)) == current
  {
  }

  /** toggleSolveStatus: the value the promise resolves with, and the state afterwards. */
  datatype ToggleOutcome = ToggleOutcome(resolved: string, state: HookState)

  /** toggleSolveStatus: update to the toggled flag; resolve with it, or with the old flag when the update threw. */
  function ToggleSolveStatus(h: HookState, problemId: int, current: string, serviceSucceeds: bool): (r: ToggleOutcome)
    ensures r.state == UpdateSolveStatus(h, problemId, Toggle(current), serviceSucceeds).state
    ensures r.resolved == current <==> Proceeds(h, problemId, Toggle(current)) && !serviceSucceeds
    ensures r.resolved != current ==> r.resolved == Toggle(current)
  {
    var u := UpdateSolveStatus(h, problemId, Toggle(current), serviceSucceeds);
    ToggleOutcome(if u.threw then current else Toggle(current), u.state)
  }

  /** A successful toggle of a flag caches the flipped flag for that problem. */
  lemma ToggleCachesFlip(h: HookState, problemId: int, current: string)
    requires current == Unsolved || current == Solved
    requires Proceeds(h, problemId, Toggle(current))
    ensures var r := ToggleSolveStatus(h, problemId, current, true);
      r.resolved != current && GetCachedStatus(r.state, problemId) == Some(r.resolved)
  {
  }

  /** getCachedStatus: the cached flag, if any. */
  function GetCachedStatus(h: HookState, problemId: int): (r: Option<string>)
    ensures r.Some? <==> problemId in h.cache
    ensures r.Some? ==> r.value == h.cache[problemId]
  {
    if problemId in h.cache then Some(h.cache[problemId]) else None
  }

  /** setCachedStatus: record a flag without calling the service. */
  function SetCachedStatus(h: HookState, problemId: int, status: string): (r: HookState)
    ensures r.pending == h.pending && r.updating == h.updating && r.updatingProblemId == h.updatingProblemId
    ensures GetCachedStatus(r, problemId) == Some(status)
    ensures forall other :: other != problemId ==> GetCachedStatus(r, other) == GetCachedStatus(h, other)
  {
    h.(cache := h.cache[problemId := status])
  }

  /** A flag just set is then an unchanged value, so updating to it calls nothing. */
  lemma SetThenUpdateIsNoop(h: HookState, problemId: int, status: string, serviceSucceeds: bool)
    ensures var h1 := SetCachedStatus(h, problemId, status);
      !UpdateSolveStatus(h1, problemId, status, serviceSucceeds).called
  {
  }
}
