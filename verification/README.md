# Algo-battle core, modelled in Dafny

This project models the server routes and services of a small coding-practice
web application, plus its list page. The model covers:

- **The JSON-file store.** Three tables (problems, submissions, attempts) with one id counter each. Its
  `prepare(query)` answers `all`, `get` and `run` by looking at which table
  name the query text contains.
- **The service layer over the store.** Create, look up, record attempts, compute a problem's status, clear everything.
- **Seeding.** Clear the store, then insert the five sample problems.
- **`POST /api/submit`.** A placeholder judge decides the verdict, and the submission is
  always stored.
- **`POST /api/run`.** Request validation, the choice of stdin, the files written and the
  shell command per language, and the result built from how the command
  ended.
- **`/api/solve-status`.** GET and POST of the solve flag ("0" or "1") kept in the
  problem file.
- **The list services.** `ProblemService`, `JsonService` and `ServerJsonService`, and the browser-storage copy of
  the solve flags they keep.
- **The `useSolveStatus` hook and `CacheService`.** The hook has a shared flag cache and pending set.
  `CacheService` is a five-minute problem-list cache.
- **The problem list page.** Page slicing, the pagination controls, the page-size reset, and applying
  a toggle to the local list.

Every operation is a pure function over immutable state. The outside world
enters as parameters:

- whether a file could be read and parsed;
- whether a write succeeded;
- how a process ended;
- the clock reading;
- the random memory figure;
- what `parseInt` returned.

The modules follow the source files: `Database`, `DbService`, `SeedData`,
`SubmitRoute`, `RunRoute`, `SolveStatusRoute`, `SolveStorage`,
`ProblemService`, `JsonService`, `ServerJsonService`, `SolveStatusHook`,
`CacheService`, `Pagination` and `ProblemsList`. `Types`, `Text`, `Seqs` and
`Wrappers` hold the records, the JavaScript string operations, first-match
search (`find` / `findIndex`) and `Option`.

## Model

| member | source | states |
|---|---|---|
| Types.ParseLanguage | src/app/api/run/route.ts:133-134 | An identifier is accepted exactly when it is the name of one of the five supported languages, and the language found has that name (both directions of the round trip). |
| Types.SolveOrUnsolved | src/lib/problem-service.ts:131 | Defaulting a solve flag never yields an empty flag: a non-empty flag is kept, an empty one reads as unsolved ("0"). |
| Text.Trim | src/app/api/submit/route.ts:15 | The trimmed text is empty exactly when every character is ECMAScript whitespace, and a non-empty result neither starts nor ends with whitespace. |
| Text.Utf16LengthIsCharCount | src/app/api/submit/route.ts:47 | The JavaScript `length` equals the number of characters exactly when none lies outside the Basic Multilingual Plane. |
| Text.Contains | src/app/api/submit/route.ts:24 | `includes` holds exactly when the keyword occurs at some position of the code. |
| Seqs.FirstIndexWith | src/app/api/solve-status/route.ts:16 | `findIndex` gives an index whose key matches with no earlier match, and gives -1 (None) exactly when no element matches. |
| Seqs.FirstWith | src/lib/database.ts:83 | `find` returns the first element whose key matches, or nothing exactly when none does. |
| Seqs.FirstWithUnique | src/lib/database.ts:91 | At most one result can be the first match, so a `find` result is determined by the table and the key. |
| Database.InitializeDB | src/lib/database.ts:21-41 | A persisted store that reads and parses is used as it is. Otherwise the store starts with empty tables and every counter at 1, which satisfies the store invariant. |
| Database.ValidIdsUnique | src/lib/database.ts:104-151 | Because ids come from per-table counters, no two records of a table share an id. |
| Database.All | src/lib/database.ts:55-79 | A case-by-case description of the selection, not a property: `all` returns the whole table that the query names, in insertion order, whatever its WHERE or ORDER BY says. A query naming no table returns an empty list. |
| Database.Get | src/lib/database.ts:80-103 | The problem lookup by id, and any query on submissions or attempts, return the first record whose id or problemId is the parameter, ignoring every other condition. Anything else returns null. |
| Database.Run | src/lib/database.ts:104-151 | An insert returns the table's counter as the new id, appends exactly one record with that id, bumps only that counter and keeps the other tables. Any other statement changes nothing and returns 0. The store invariant (increasing ids below the counter) is preserved. |
| Database.ClearAllData | src/lib/database.ts:159-170 | Whatever the store held, afterwards every table is empty and every counter is back to 1. |
| DbService.GetAllProblems | src/lib/db-service.ts:8-29 | The join query is answered as a plain `FROM problems`, so the result is exactly the problems table in insertion order. |
| DbService.GetProblemById | src/lib/db-service.ts:31-43 | Returns the first problem with the id, or null exactly when no problem has it. |
| DbService.CreateProblem | src/lib/db-service.ts:45-60 | The new id is the counter before the call. The problem is appended under it and nothing else changes. |
| DbService.CreateSubmission | src/lib/db-service.ts:63-79 | The new id is the counter before the call. The submission is appended under it with the given fields, and the store invariant is kept. |
| DbService.GetSubmissionsByProblem | src/lib/db-service.ts:81-94 | As written, returns every submission of every problem, oldest first, whatever problemId is asked for. |
| DbService.GetLatestSubmission | src/lib/db-service.ts:96-112 | As written, returns the first-inserted submission of the problem, and null exactly when the problem has none. |
| DbService.RecordAttempt | src/lib/db-service.ts:115-123 | Appends one attempt for the problem under the attempts counter and returns that id. The store invariant is kept. |
| DbService.GetProblemStatus | src/lib/db-service.ts:126-142 | As written: 'submitted' exactly when the problem has any submission, 'attempted' when it has none but has an attempt, 'not-attempted' otherwise. |
| DbService.ClearAllData | src/lib/db-service.ts:145-147 | After clearing, every problem id reports 'not-attempted'. |
| DbService.IntendedSubmissionsByProblem | src/lib/db-service.ts:82-86 | The query's intent: exactly the submissions of that problem, with ids strictly decreasing (newest first) in a valid store. |
| DbService.IntendedLatestSubmission | src/lib/db-service.ts:97-102 | The query's intent: a submission of the problem with the largest id, and null exactly when there is none. |
| DbService.IntendedProblemStatus | src/lib/db-service.ts:127-141 | The queries' intent: 'submitted' exactly when some submission of the problem was Accepted. |
| DbService.AcceptedFilterIgnored | src/lib/db-service.ts:127-133 | In a valid store holding one Wrong Answer submission, the status is 'submitted' as written but 'not-attempted' as intended. |
| DbService.ProblemFilterIgnored | src/lib/db-service.ts:82-86 | Asking for problem 1's submissions returns a submission of problem 2. |
| DbService.LatestIsOldest | src/lib/db-service.ts:97-102 | Of two submissions with ids 1 and 2, the "latest" returned is id 1. The intended one is id 2. |
| SeedData.CreateAllAppends | src/lib/seed-data.ts:214-216 | Creating drafts in turn appends them in order with consecutive ids from the counter, advances only that counter and keeps the invariant. |
| SeedData.SeedDatabase | src/lib/seed-data.ts:207-217 | After seeding, the problems are exactly the drafts in listed order with ids 1..n. No submissions or attempts remain, and the counters are n+1, 1, 1. |
| SeedData.SeedForgetsPriorState | src/lib/seed-data.ts:210-216 | The seeded store does not depend on what the store held before. |
| SeedData.SeedIdempotent | src/lib/seed-data.ts:207-217 | Seeding twice gives the same store as seeding once. |
| SeedData.SeededLookups | src/lib/seed-data.ts:207-217 | After seeding, a lookup finds a problem exactly for ids 1..n, and finds the draft listed at that position. Every id reports 'not-attempted'. |
| SeedData.SampleSeeding | src/lib/seed-data.ts:207-217 | Seeding with the five sample problems numbers them 1 to 5 and leaves the problems counter at 6 and the others at 1. |
| SeedData.ClimbingStairsCasesAgree | src/lib/seed-data.ts:187-203 | The three Climbing Stairs cases are inputs 2, 3, 4, and each expects the number of 1-or-2 step ways to climb that many stairs. |
| SubmitRoute.ValidateSubmission | src/app/api/submit/route.ts:6-85 | The checks run in order: blank code, missing `function`/`def`, shorter than 50 UTF-16 code units (`code.length`, where a character outside the Basic Multilingual Plane counts twice), over 2000 ms. The first failing check decides the error, the status and whether runtime and memory are reported. A submission is Accepted (and successful) exactly when all checks pass. |
| SubmitRoute.AstralCodeLongEnough | src/app/api/submit/route.ts:47-49 | 25 non-blank characters outside the Basic Multilingual Plane are 50 code units, so C++ code made of them passes the length check and is Accepted within the time limit. |
| SubmitRoute.KeywordCheckOnlyForScripts | src/app/api/submit/route.ts:24-38 | Outside JavaScript and Python, the verdict is Runtime Error exactly when the code is blank. |
| SubmitRoute.ReportedRuntimeClamped | src/app/api/submit/route.ts:59-67 | Except for Wrong Answer, a reported runtime never exceeds the 2000 ms limit. A Time Limit Exceeded verdict reports exactly 2000. |
| SubmitRoute.Post | src/app/api/submit/route.ts:87-118 | A falsy field gives 400 and leaves the store unchanged. Otherwise exactly one submission carrying the verdict is appended, and the response echoes the verdict with the new submission's id. |
| SubmitRoute.BlankCodeStoredAsRuntimeError | src/app/api/submit/route.ts:91-109 | Whitespace-only code passes the field check, is answered "Code cannot be empty", and is still stored as a Runtime Error. |
| RunRoute.FileExtension | src/app/api/run/route.ts:110-119 | The extension is the "txt" fallback exactly when the identifier names no supported language. |
| RunRoute.SupportedLanguagesHaveExtensions | src/app/api/run/route.ts:110-119 | No supported language gets the "txt" fallback. |
| RunRoute.ExtensionsAsListed | src/app/api/run/route.ts:110-116 | javascript, python, java, cpp and c get the extensions js, py, java, cpp and c. |
| RunRoute.ExtensionsDistinct | src/app/api/run/route.ts:110-119 | Different supported languages get different extensions, so their source files never share a name. |
| RunRoute.Files | src/app/api/run/route.ts:26-49 | A case-by-case description of the selection, not a property: the input file is written first, then the source file. Java alone gets a third file, the source again as Solution.java. |
| RunRoute.CommandShape | src/app/api/run/route.ts:38-61 | JavaScript and Python run in one step, which is the whole command. The compiled languages chain at least two steps, compiling before running. |
| RunRoute.CommandReadsInput | src/app/api/run/route.ts:40-60 | Every command ends by running the program with stdin redirected from input.txt. |
| RunRoute.StepsRun | src/app/api/run/route.ts:50-60 | The shell runs the steps of an `&&` chain up to and including the first one that fails, and all of them when none fails. |
| RunRoute.RunOnlyAfterCompile | src/app/api/run/route.ts:50-60 | The program itself (the last step) runs exactly when every earlier step exited with 0. |
| RunRoute.ChainSucceedsIffAllZero | src/app/api/run/route.ts:50-60 | An `&&` chain exits with 0 (the status of the last step it ran) exactly when every step exits with 0. |
| RunRoute.ExecuteCodeFollowsSteps | src/app/api/run/route.ts:50-70 | When exec resolves exactly on a 0 exit of the chain, executeCode succeeds exactly when the directory and files were made and every step, compilation included, exited with 0. A failed compilation fails the run, and the program is never started. |
| RunRoute.Output | src/app/api/run/route.ts:83 | A case-by-case description of the selection, not a property: the output is stdout if non-empty, else stderr if non-empty, else the "no output" message. |
| RunRoute.ExecuteCode | src/app/api/run/route.ts:15-107 | Success exactly when the directory was made, the files were written and the command resolved. Failures report memory 0 and an error starting "Execution error: ". The runtime is always reported. The created directory is removed on every path. The command runs exactly when the writes succeeded. |
| RunRoute.SelectStdin | src/app/api/run/route.ts:144-154 | Non-blank custom input is used untrimmed. Otherwise the first test case's input is used. There is no input exactly when the custom input is blank and there are no test cases. |
| RunRoute.Post | src/app/api/run/route.ts:121-164 | Missing fields, then an unsupported language, then missing input are each refused with 400 before anything runs. Code runs exactly when all three checks pass, and the body is the execution result. |
| SolveStatusRoute.SetSolveAt | src/app/api/solve-status/route.ts:16-18 | Only the solve flag of the matched problem changes. Every other entry and the problem itself are kept. |
| SolveStatusRoute.Post | src/app/api/solve-status/route.ts:7-40 | An unreadable body or file gives 500. An unknown id gives 404. Otherwise the first problem with the id gets the flag and the write-back decides between 200 and 500. Any non-200 leaves the file as it was. |
| SolveStatusRoute.Get | src/app/api/solve-status/route.ts:42-79 | A missing or empty id gives 400 before the file is read. An unreadable file gives 500. 200 means the parsed id matched, and the response carries the first match's flag with "" read as "0". Otherwise the response is 404 naming the id as spelled. |
| SolveStatusRoute.PostThenGet | src/app/api/solve-status/route.ts:16-65 | After a successful POST of a flag, a GET of the same id returns that flag ("0" for an empty one). |
| SolveStorage.Write | src/lib/json-service.ts:82-85 | The stored object maps the problem to the new flag, and every other problem keeps its entry. |
| SolveStorage.Read | src/lib/json-service.ts:98-109 | The read value is never empty: a stored non-empty flag is returned as it is, and anything else reads as "0". |
| SolveStorage.ReadAfterWrite | src/lib/json-service.ts:84-103 | Reading back a flag just written returns it, and reads of other problems are unaffected. |
| SolveStorage.WriteIdempotent | src/lib/json-service.ts:81-85 | Writing the same flag twice stores the same object as writing it once. |
| SolveStorage.Update | src/lib/json-service.ts:60-95 | Whether the API call succeeded or threw, the flag is written to storage and reads back as the new flag. Other problems read as before. |
| ProblemService.Process | src/lib/problem-service.ts:129-138 | A processed problem keeps its data, is not attempted, and has a non-empty flag that equals the file's flag when that one is set. |
| ProblemService.ProcessProblems | src/lib/problem-service.ts:127-141 | Normalising keeps the length, the order and every problem, and defaults only empty flags to "0". |
| ProblemService.GetAllProblems | src/lib/problem-service.ts:9-51 | A failed load gives an empty list. Otherwise the result is the normalised file list. |
| ProblemService.GetProblemById | src/lib/problem-service.ts:54-72 | Returns the first listed problem with the id, with a non-empty flag, or null exactly when none matches. |
| ProblemService.GetProblemByIdFromFile | src/lib/problem-service.ts:54-72 | The lookup finds the normalised form of the first file entry with the id, and null exactly when the file has no such entry. |
| ProblemService.UpdateSolveStatus | src/lib/problem-service.ts:75-110 | On both the success and the fallback path, the stored flag reads back as the new one and other problems are untouched. |
| ProblemService.GetSolveStatus | src/lib/problem-service.ts:113-124 | The stored flag if it is non-empty, otherwise "0"; never empty. |
| JsonService.MarkUnsolved | src/lib/json-service.ts:20-29 | A listed problem keeps its data and is unsolved and not attempted, whatever the file says. |
| JsonService.MarkAllUnsolved | src/lib/json-service.ts:20-29 | The mapping keeps length and order and marks each entry unsolved. |
| JsonService.GetAllProblems | src/lib/json-service.ts:9-36 | A failed fetch gives []. Otherwise the result is every fetched problem in order, each with flag "0" and not attempted. |
| JsonService.GetProblemById | src/lib/json-service.ts:39-57 | Returns the first listed problem with the id (always with flag "0"), or null exactly when none matches. |
| JsonService.SameListWhenNothingSolved | src/lib/json-service.ts:19-31 | This service's list equals ProblemService's list exactly when no problem in the file carries a flag other than empty or "0". |
| JsonService.UpdateSolveStatus | src/lib/json-service.ts:60-95 | On both paths the stored flag reads back as the new one, and other problems are untouched. |
| JsonService.GetSolveStatus | src/lib/json-service.ts:98-109 | The stored flag if it is non-empty, otherwise "0"; never empty. |
| ServerJsonService.GetAllProblems | src/lib/server-json-service.ts:11-35 | A failed read gives []. Otherwise the result is every problem of the file in order, unsolved and not attempted. |
| ServerJsonService.GetProblemById | src/lib/server-json-service.ts:38-56 | The first problem with the id, flag "0"; found exactly when some listed problem has the id. |
| ServerJsonService.AgreesWithBrowserService | src/lib/server-json-service.ts:18-30 | Given the same problem list, the server and the browser service return the same list and the same lookups. |
| SolveStatusHook.BeginUpdate | src/hooks/useSolveStatus.ts:36-38 | Starting an update marks the problem pending and updating (isUpdating holds) and leaves the cache alone. |
| SolveStatusHook.FinishUpdate | src/hooks/useSolveStatus.ts:40-51 | The new flag is cached only when the service call succeeded. On both paths the problem leaves the pending set and isUpdating no longer holds for it. |
| SolveStatusHook.UpdateSolveStatus | src/hooks/useSolveStatus.ts:23-52 | A pending problem or an unchanged flag returns without calling the service. Otherwise the service is called, it throws exactly when it failed, the cache gains the flag only on success, and the pending set is as before. |
| SolveStatusHook.RepeatedUpdateIsNoop | src/hooks/useSolveStatus.ts:29-43 | Repeating an update that succeeded calls nothing and changes nothing. |
| SolveStatusHook.Toggle | src/hooks/useSolveStatus.ts:60 | The requested flag is always "0" or "1", and it is "1" exactly when the current flag is "0". |
| SolveStatusHook.ToggleInvolution | src/hooks/useSolveStatus.ts:60 | On "0" and "1" a toggle changes the flag, and toggling twice gives it back. |
| SolveStatusHook.ToggleSolveStatus | src/hooks/useSolveStatus.ts:54-74 | The promise resolves with the old flag exactly when the update went ahead and threw. Otherwise it resolves with the toggled flag. |
| SolveStatusHook.ToggleCachesFlip | src/hooks/useSolveStatus.ts:60-67 | A successful toggle of "0" or "1" resolves with the other flag and caches exactly that flag. |
| SolveStatusHook.GetCachedStatus | src/hooks/useSolveStatus.ts:82-84 | A flag is returned exactly for problems that are in the cache, and it is the cached one. |
| SolveStatusHook.SetCachedStatus | src/hooks/useSolveStatus.ts:87-89 | The problem's cached flag becomes the given one. Other problems and the update state are untouched. |
| SolveStatusHook.SetThenUpdateIsNoop | src/hooks/useSolveStatus.ts:29-33 | After a flag is set in the cache, updating to that same flag does not call the service. |
| CacheService.SetProblem | src/lib/cache-service.ts:10-12 | The id then reads back as the problem. Other ids and the list cache are unchanged. |
| CacheService.GetProblem | src/lib/cache-service.ts:15-17 | Returns a problem exactly for cached ids, and it is the cached one. |
| CacheService.SetProblemsList | src/lib/cache-service.ts:20-23 | The list is stored with the current time and the cache is valid at that time. |
| CacheService.GetProblemsList | src/lib/cache-service.ts:26-36 | A fresh list is returned unchanged. An expired one is dropped, with its time reset, before null is returned. Single-problem entries are never touched. |
| CacheService.ClearProblem | src/lib/cache-service.ts:39-41 | The id no longer reads back. Other ids and the list are unchanged. |
| CacheService.ClearProblemsListCache | src/lib/cache-service.ts:44-47 | The list and its time are reset and the problem entries are kept. |
| CacheService.ClearAll | src/lib/cache-service.ts:50-53 | Afterwards no id and no list can be read at any time. |
| CacheService.ValidIffListReturned | src/lib/cache-service.ts:56-59 | isCacheValid holds exactly when getProblemsList would return a list. |
| CacheService.ListFreshForExpiry | src/lib/cache-service.ts:26-36 | A list set at time t is returned up to and including t + 300000 ms, and null is returned after that. |
| CacheService.ExpiredLookupIsFinal | src/lib/cache-service.ts:29-35 | Once a lookup found the list expired, every later lookup returns null until a new list is set. |
| Pagination.EndItem | src/components/problems-list/PaginationControls.tsx:25 | The last shown position is the page's end or the item count, whichever is smaller. |
| Pagination.Previous | src/components/problems-list/PaginationControls.tsx:27-31 | Previous asks for a page exactly when the current page is above 1, and the page it asks for is the one before. |
| Pagination.Next | src/components/problems-list/PaginationControls.tsx:33-37 | Next asks for a page exactly when the current page is below the last, and the page it asks for is the one after. |
| Pagination.DisabledExactlyWhenInert | src/components/problems-list/PaginationControls.tsx:67-111 | On an existing page, each button is disabled exactly when its handler would do nothing. |
| Pagination.PageWindow | src/components/problems-list/PaginationControls.tsx:80-91 | At most five consecutive page numbers are shown, all within range, and all pages when there are at most five. The current page is always among them. |
| Pagination.WindowCentred | src/components/problems-list/PaginationControls.tsx:88-90 | Away from both ends of a long range, the window is the current page with two neighbours on each side. |
| Pagination.WindowDistinct | src/components/problems-list/PaginationControls.tsx:80-91 | The window's page numbers strictly increase, so no page is shown twice. |
| ProblemsList.Initial | src/components/problems-list/ProblemsList.tsx:16-18 | The list starts on page 1 with its initial problems and 10 items per page (`DEFAULT_ITEMS_PER_PAGE`), one of the sizes the selector offers. |
| ProblemsList.TotalPages | src/components/problems-list/ProblemsList.tsx:59 | The page count is the least whose pages hold every item, and it is zero exactly for an empty list. |
| ProblemsList.Slice | src/components/problems-list/ProblemsList.tsx:62 | Within bounds `slice` is the subsequence, an end past the list is clamped, and the result is never longer than the list. |
| ProblemsList.PageOf | src/components/problems-list/ProblemsList.tsx:60-62 | A page never holds more than the page size, and a page that fits entirely is exactly its stretch of the list. |
| ProblemsList.CurrentProblems | src/components/problems-list/ProblemsList.tsx:58-62 | The current page never shows more problems than the page size. |
| ProblemsList.PageMatchesRange | src/components/problems-list/ProblemsList.tsx:58-62 | On an existing page, the shown problems are exactly the items numbered from "Showing a" to "to b" in the controls. |
| ProblemsList.PagesArePrefix | src/components/problems-list/ProblemsList.tsx:59-62 | The first n pages together are the list's first n × size problems, or the whole list. |
| ProblemsList.PagesCoverList | src/components/problems-list/ProblemsList.tsx:59-62 | Reading every page in turn gives back the whole list in order, with nothing lost or repeated. |
| ProblemsList.PaginationWhenOverflowing | src/components/problems-list/ProblemsList.tsx:106 | The controls are shown exactly when the list holds more problems than one page. |
| ProblemsList.ChangePage | src/components/problems-list/ProblemsList.tsx:64-66 | A field-by-field description, not a property: changing the page keeps the problems and the page size. |
| ProblemsList.ChangeItemsPerPage | src/components/problems-list/ProblemsList.tsx:35-38 | A new page size sends the list back to page 1. Choosing the same size changes nothing. |
| ProblemsList.ApplyToggle | src/components/problems-list/ProblemsList.tsx:45-51 | Every entry with the id gets the new flag and every other entry is untouched. |
| ProblemsList.HandleToggleSolveStatus | src/components/problems-list/ProblemsList.tsx:40-55 | Entries with the id show the flag the toggle resolved with. Every other entry, the page and the page size are kept, and the hook state is the toggle's. |
| ProblemsList.FailedToggleKeepsList | src/components/problems-list/ProblemsList.tsx:40-51 | A toggle whose update threw leaves the local list exactly as it was. |
| ProblemsList.PrimeCache | src/components/problems-list/ProblemsList.tsx:27-33 | Priming the cache never touches the pending set or the update state. |
| ProblemsList.PrimeCacheKeepsUnlisted | src/components/problems-list/ProblemsList.tsx:27-33 | Ids that are not listed keep their cached flag. |
| ProblemsList.PrimeCacheLastWins | src/components/problems-list/ProblemsList.tsx:27-33 | A listed id ends up with the flag of its last entry (with an empty flag read as "0") in the list. |

## Left out

- File and network I/O are not modelled: `fs` reads and writes, `fetch`, `localStorage`, `saveDB` and JSON (de)serialisation. Each read is a parameter that is None when reading or parsing fails. Each write that can fail is a boolean outcome.
- Record timestamps (`createdAt`, `submittedAt`, `attemptedAt`) come from the clock and are not stored.
- The snake_case column aliases (`problem_id`, `test_cases`, …) that the store adds to returned rows are not modelled. The model hands back the records themselves.
- DbService.GetAllProblems: the source declares rows with a `status` column, but the store never evaluates the join, so the rows carry none. The model returns the bare problems and states that.
- `Date.now()` and `Math.random()` are not modelled. SubmitRoute takes the elapsed runtime and the memory figure as parameters. Because the source's runtime is at most about 100 ms, Time Limit Exceeded is practically unreachable there, though it is modelled.
- validateSubmission's catch branch is left out: nothing inside its try can throw for string input.
- The submit and run routes' catch branches ("Internal server error", 500 for an unparsable request body) are left out. Their bodies are modelled as already-parsed records with JavaScript's falsy defaults.
- The `default` branch of executeCode's language switch is left out: POST has already rejected every other language.
- The processes, compilers and the 10-second exec timeout are left out. `RunRoute.ExecuteCodeFollowsSteps` ties the command's steps to the outcome only under the abstraction that exec resolves exactly when the chain exits with 0. A process that fails or times out is a `Rejected` outcome. Which write failed, and a failure while removing the directory, are not distinguished.
- SolveStatusRoute.Post: the posted `problemId` is an integer. A string id sent in the body would never `===` a numeric id, and would give 404.
- The GET `problemId` is parsed by `parseInt`, whose result is a parameter.
- The hook's 100 ms debounce, timer cancellation, React state scheduling and the interleaving of concurrent updates are not modelled. Each call runs to completion before the next.
- `JsonService.updateSolveStatus` catches its own errors. Its call from the hook therefore throws only when the storage fallback itself throws, which is the hook's `serviceSucceeds = false` case.
- JSON parse errors of the stored `problemSolveStatus` object are not modelled. Inside getSolveStatus they read as "0", which is the same as absent. Inside updateSolveStatus they propagate.
- ProblemService's `getAllProblemsServer` and `getAllProblemsClient` differ only in how the list is loaded. With the load as a parameter they are one function, `ProblemService.GetAllProblems`.
- The page's rendering, the `mounted` guard and its skeleton, the header and all styling are left out. So is handleToggleSolveStatus's try/catch, which never fires because toggleSolveStatus always resolves.
- StartItem, WindowStart, PageNumber, ShowsPagination, IsUpdating and similar helpers carry no contract of their own. Their behaviour is stated through the members above that use them.
- Console logging is left out.
- The sample problem texts are spelled out in pieces joined with `Text.Concat`. Only the Climbing Stairs test cases have a property stated about them.
- SeedData.SeedDatabase is stated for any list of drafts. The application's call with `SeedData.SampleProblems()` is stated by `SeedData.SampleSeeding`, which gives the ids and counters. It does not give the seeded problems' texts.

## Findings

| source | as written | input that shows it | evidently intended | confidence | as-written member | corrected member |
|---|---|---|---|---|---|---|
| src/lib/db-service.ts:127-133 | getProblemStatus asks for an Accepted submission, but the store's `get` on `FROM submissions` matches problemId only, so any submission makes the problem 'submitted' | a store whose only submission is a Wrong Answer for problem 1 | 'submitted' only once some submission of the problem is Accepted | high; not executed | DbService.AcceptedFilterIgnored | DbService.IntendedProblemStatus |
| src/lib/db-service.ts:81-94 | getSubmissionsByProblem returns the whole submissions table, oldest first | a store with one submission, for problem 2, queried for problem 1 | only that problem's submissions, newest first | high; not executed | DbService.ProblemFilterIgnored | DbService.IntendedSubmissionsByProblem |
| src/lib/db-service.ts:96-112 | getLatestSubmission returns the first-inserted submission of the problem | two submissions of problem 1, ids 1 and 2 | the newest submission (id 2) | high; not executed | DbService.LatestIsOldest | DbService.IntendedLatestSubmission |
