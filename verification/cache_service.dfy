/**
 * CacheService: a map of single problems and one problem list guarded by a
 * five-minute expiry. The clock reading is a parameter (milliseconds).
 */
module CacheService {
  import opened Wrappers
  import opened Types

  /** Five minutes, in milliseconds. */
  const CacheExpiry: int := 5 * 60 * 1000

  /** list is None when no list is cached (JavaScript null). */
  datatype CacheState = CacheState(
    problems: map<int, Problem>,
    list: Option<seq<ProblemWithStatus>>,
    lastCacheTime: int)

  const Initial: CacheState := CacheState(map[], None, 0)

  /** setProblem: cache one problem under an id. */
  function SetProblem(c: CacheState, id: int, p: Problem): (r: CacheState)
    ensures r.list == c.list && r.lastCacheTime == c.lastCacheTime
    ensures GetProblem(r, id) == Some(p)
    ensures forall other :: other != id ==> GetProblem(r, other) == GetProblem(c, other)
  {
    c.(problems := c.problems[id := p])
  }

  /** getProblem: the cached problem, or null when the id is unknown. */
  function GetProblem(c: CacheState, id: int): (r: Option<Problem>)
    ensures r.Some? <==> id in c.problems
    ensures r.Some? ==> r.value == c.problems[id]
  {
    if id in c.problems then Some(c.problems[id]) else None
  }

  /** setProblemsList: cache a list, stamped with the current time. */
  function SetProblemsList(c: CacheState, l: seq<ProblemWithStatus>, now: int): (r: CacheState)
    ensures r.problems == c.problems
    ensures r.list == Some(l) && r.lastCacheTime == now
    ensures IsCacheValid(r, now)
  {
    c.(list := Some(l), lastCacheTime := now)
  }

  /** Whether a list cached at `since` has expired at `now`; exactly at the expiry it is still fresh. */
  predicate Expired(since: int, now: int) {
    now - since > CacheExpiry
  }

  /** The result of getProblemsList: the list, if any, and the cache afterwards. */
  datatype ListLookup = ListLookup(list: Option<seq<ProblemWithStatus>>, cache: CacheState)

  /**
   * getProblemsList: the cached list while fresh; an expired list is dropped
   * (and the time reset) before returning null.
   */
  function GetProblemsList(c: CacheState, now: int): (r: ListLookup)
    ensures c.list.None? ==> r == ListLookup(None, c)
    ensures c.list.Some? && !Expired(c.lastCacheTime, now) ==> r == ListLookup(c.list, c)
    ensures c.list.Some? && Expired(c.lastCacheTime, now) ==>
      r.list.None? && r.cache == ClearProblemsListCache(c)
    ensures r.cache.problems == c.problems
  {
    if c.list.None? then ListLookup(None, c)
    else if Expired(c.lastCacheTime, now) then ListLookup(None, ClearProblemsListCache(c))
    else ListLookup(c.list, c)
  }

  /** clearProblem: forget one id's problem. */
  function ClearProblem(c: CacheState, id: int): (r: CacheState)
    ensures r.list == c.list && r.lastCacheTime == c.lastCacheTime
    ensures GetProblem(r, id).None?
    ensures forall other :: other != id ==> GetProblem(r, other) == GetProblem(c, other)
  {
    c.(problems := c.problems - {id})
  }

  /** clearProblemsListCache: drop the list and reset its time. */
  function ClearProblemsListCache(c: CacheState): (r: CacheState)
    ensures r.problems == c.problems
    ensures r.list.None? && r.lastCacheTime == 0
  {
    c.(list := None, lastCacheTime := 0)
  }

  /** clearAll: empty both caches. */
  function ClearAll(c: CacheState): (r: CacheState)
    ensures r == Initial
    ensures forall id :: GetProblem(r, id).None?
    ensures forall now :: GetProblemsList(r, now).list.None?
  {
    ClearProblemsListCache(c.(problems := map[]))
  }

  /** isCacheValid: a list is cached and has not expired. */
  predicate IsCacheValid(c: CacheState, now: int) {
    c.list.Some? && !Expired(c.lastCacheTime, now)
  }

  /** The cache is valid exactly when getProblemsList would return a list. */
  lemma ValidIffListReturned(c: CacheState, now: int)
    ensures IsCacheValid(c, now) <==> GetProblemsList(c, now).list.Some?
  {
  }

  /** A list set at time t is returned unchanged up to and including t + expiry, and not after. */
  lemma ListFreshForExpiry(c: CacheState, l: seq<ProblemWithStatus>, t: int, now: int)
    ensures var lookup := GetProblemsList(SetProblemsList(c, l, t), now);
      (lookup.list == Some(l) <==> now <= t + CacheExpiry)
      && (lookup.list.None? <==> now > t + CacheExpiry)
  {
  }

  /** Once a lookup found the list expired, it stays gone until a new list is set. */
  lemma ExpiredLookupIsFinal(c: CacheState, now: int, later: int)
    requires c.list.Some? && Expired(c.lastCacheTime, now)
    ensures GetProblemsList(GetProblemsList(c, now).cache, later) == ListLookup(None, GetProblemsList(c, now).cache)
  {
  }
}
