# Kakao Together automatic participation: a Dafny model of the engine

The browser extension's service worker runs a participation engine. On a timer or on
demand it does the following:

1. It scans the "now fundraising" listing of together.kakao.com page by page. It
   collects the items not yet participated in and stops at the first item that was
   already participated in.
2. It keeps the items whose status is `STATUS_FUNDING`.
3. For each of them it sends a like and then a comment drawn at random from a
   comment pool.
4. It stores the ids of the items whose comment went through, the time of the run,
   and a summary entry in an execution log capped at 50 entries.

A small set of control messages (`getStatus`, `toggleEnabled`, `executeNow`,
`getSettings`, `updateSettings`) reads and writes the stored settings. The options
page edits the comment pool before saving it.

The model is sequential and deterministic. Everything the engine learns from outside
is an input, bundled in `Types.Env`:

- the reply to each listing page;
- the reply to the k-th comment request;
- the value `Math.random()` returns for the k-th comment;
- the start time and the measured duration.

The requests a run issues are returned as a trace of `Call`s.

Files:

- `types.dfy`: items, HTTP replies, the stored record (one `Option` field per storage
  key), run results and log entries.
- `ordered_set.dfy`: the insertion-ordered JavaScript `Set` used for participated ids.
- `discovery.dfy`: the reference definition `Discover` of the paginated scan, with its
  properties.
- `participation.dfy`: the per-item loop. `Participate` is its reference definition
  and `ProcessItems` is the loop, proved equal to it.
- `execution_log.dfy`: the bounded log.
- `settings.dfy`: storage writes, default seeding, and the flag and pool views.
- `engine.dfy`: the `Automation` class (`isRunning`, `store`) and its methods, the
  reference run `Run`, and the run properties.
- `options_page.dfy`: `addComment`, `removeComment` and `resetToDefault` of the
  options page, as functions on the page's settings.

Behaviours of the code that the model keeps as written:

- **Empty discovery.** An empty discovery result is an error ("기부 목록을 가져올 수
  없습니다."), not a soft success.
- **Failed likes.** A failed like is swallowed inside the like call. It neither skips
  the item nor adds an error, so only comment failures count as item errors.
- **What a run stores.** The participated ids, the run time and the log entry are
  written only on the path that reaches the loop. A guard rejection, a failed or
  empty discovery, or a listing without funding items writes nothing.
- **Reply shapes.** A guard rejection replies with `success: false` and the reason
  only (`Types.Refused`). Every later exit replies with the full record, whose
  `processedCount` is 0 and `errors` empty when the run stopped before the loop.
- **The enabled flag.** An absent `isEnabled` is falsy for the run guard but reported
  as `true` by `getStatus` and `getSettings`.
- **Empty comment pool.** A stored empty comment pool is kept, because `[]` is truthy.
  The comment then carries `undefined`, modelled as `None`.
- **Comment error text.** A non-2xx comment reply produces an error message with its
  prefix twice: "댓글 작성 실패: 댓글 작성 실패: <status> - <text>".

## Model

| member | source | states |
|---|---|---|
| Discovery.TakeUnseenSpec | src/background/background.js:330-338 | the items of one page kept before the first seen id form a prefix of the page, contain no seen id, and stop exactly at a seen id or at the page end |
| Discovery.TakeUnseenIs | src/background/background.js:330-338 | conversely, a prefix with no seen id that ends at a seen id or at the page end is exactly what the page contributes |
| Discovery.DiscoverExact | src/background/background.js:326-345 | a successful scan returns exactly the concatenated content of the requested pages, cut before the first id already participated in; no returned id was participated in |
| Discovery.DiscoverRequestsConsecutive | src/background/background.js:306-366 | pages are requested as n, n+1, ... without gaps, at least one, never past page 50 |
| Discovery.DiscoverContinuesOnlyIf | src/background/background.js:340-366 | every requested page but the last had content, no seen id, `!last`, page < totalPages and page < 50; the last requested page fails one of these, so after the boundary no further page is requested |
| Discovery.DiscoverFailsOnFailedPage | src/background/background.js:319-321 | discovery fails exactly when the last requested page failed, with that page's error wrapped in the discovery message, and returns no partial list |
| Discovery.DiscoverReadsOnlyRequested | src/background/background.js:306-311 | two listings that agree on the requested pages give the same scan: no other page influences the result |
| OrderedSet.InsertSpec | src/background/background.js:204 | `add` keeps the existing elements in order, contains the new one, changes nothing when it was present, and keeps the elements distinct |
| OrderedSet.DedupSound | src/background/background.js:179 | a `Set` built from an array holds exactly the array's elements, each once |
| OrderedSet.DedupGrows | src/background/background.js:216-219 | adding ids never drops or reorders the ids already in the set |
| OrderedSet.DedupOfDistinct | src/background/background.js:178-179 | a stored array without repeats round-trips through a `Set` unchanged |
| Participation.CommentIndex | src/background/background.js:409 | the random comment index lies in [0, length) for a non-empty pool |
| Participation.ChooseComment | src/background/background.js:407-409 | a comment is chosen exactly when the pool is non-empty, and it is an element of the pool |
| Participation.PicksFromPool | src/background/background.js:407-409 | the k-th comment of a run, drawn with the k-th random fraction, exists exactly when the pool is non-empty and is an element of the pool |
| Participation.ParticipatePartition | src/background/background.js:182-214 | every funding item lands in exactly one bucket: processed count equals the number of accepted comments, errors are the rest |
| Participation.ParticipateJoined | src/background/background.js:199-205 | an item's id joins the participated set exactly when its comment succeeded; a like failure plays no part |
| Participation.ErrorRecordedAt | src/background/background.js:207-209 | once the loop has passed an item whose comment failed, the errors hold `title || id`: comment error for it |
| Participation.ParticipateErrorsRecorded | src/background/background.js:207-209 | every item whose comment failed has its error string `title || id`: comment error among the errors |
| Participation.ParticipateErrorsTraced | src/background/background.js:207-209 | conversely, every error string comes from an item whose comment failed, with that failure's text |
| Participation.ParticipateCalls | src/background/background.js:182-200 | each item gets a like request followed by one comment request, in item order, the comment carrying the text chosen for that item |
| Participation.ProcessItems | src/background/background.js:178-214 | the loop's ids, count and errors equal the reference tally, the ids being the stored ids followed by the accepted ones, each once; its requests are a like and a comment per item in order; processed + errors = items |
| ExecutionLog.LastAtMost | src/background/background.js:105 | `slice(-k)` for k > 0 yields min(k, n) elements, the last ones in order |
| ExecutionLog.AppendBoundedKeepsNewest | src/background/background.js:442-454 | after an append the log holds min(50, n+1) entries, the new one last, preceded by the newest old entries in their order: only the oldest are evicted |
| ExecutionLog.AppendBoundedBelowCap | src/background/background.js:446-451 | below the cap the append loses nothing |
| Settings.Merge | src/background/background.js:129-131 | a storage write overwrites exactly the keys the patch holds and keeps every other key |
| Settings.MissingDefaultsEmpty | src/background/background.js:49-57 | the set of defaults to write is empty exactly when no key is absent |
| Settings.SeedingFillsOnlyAbsent | src/background/background.js:38-60 | seeding never overwrites a stored value, gives every absent key its default, leaves no key absent, and leaves a complete store unchanged |
| Settings.SeedingIdempotent | src/background/background.js:38-60 | seeding twice is seeding once |
| Settings.Toggled | src/background/background.js:109-111 | the toggled flag is true exactly when the stored flag was not true (absent becomes true) |
| Settings.ToggleTwice | src/background/background.js:109-117 | toggling twice from a stored flag restores it |
| Settings.ReportedVersusGuard | src/background/background.js:139-141 | an absent flag is reported enabled but refused by the run guard; a stored flag is reported as the guard reads it |
| Settings.CommentPool | src/background/background.js:407-408 | the pool is the stored comments when present (even empty) and the built-in five otherwise |
| Engine.FundingOnlyKeeps | src/background/background.js:164-166 | an item is kept exactly when it was discovered and has status `STATUS_FUNDING`, and no more items are kept than listed |
| Engine.FundingOnlyConcat | src/background/background.js:164-166 | the filter distributes over concatenation, so the kept items stay in listing order and repeat as often as listed |
| Engine.FundingOnlySingle | src/background/background.js:164-166 | a single item is kept exactly when its status is `STATUS_FUNDING` |
| Engine.RunGuards | src/background/background.js:135-142 | a run while running or while not enabled is refused with only `success: false` and its reason, writes nothing and issues no request |
| Engine.RunEarlyExitKeepsStore | src/background/background.js:144-247 | a run stopping before the loop leaves the store unchanged and requests the scanned listing pages only; past the guards a failed discovery replies with its error, an empty one with the empty-list error, and a listing without funding items is the only early exit that succeeds, with processed 0 and the nothing-to-do message |
| Engine.RunPartition | src/background/background.js:182-214 | a run reaching the loop succeeds with processed + errors = funding items, processed = accepted comments, and every error traced to a failed comment |
| Engine.RunParticipatedGrows | src/background/background.js:216-220 | the stored ids afterwards are the old ones in order followed by the processed ones, each once, so the set only grows; the run time is stored with them |
| Engine.RunLogsOnce | src/background/background.js:222-231 | a full run appends one entry (cap 50) with the start time, total = discovered, new = funding, skipped = total - new, the processed count and the errors of the reply |
| Engine.DiscoverStopsAtSeen | src/background/background.js:330-345 | with id 7 participated in and page 1 listing 9, 8, 7, 6, discovery returns 9 and 8 and requests no second page |
| Engine.ThreeItemsOverTwoPages | src/background/background.js:134-261 | with nothing participated in and three funding items over two pages all accepted, the run processes 3, stores the three ids in order and logs total 3, new 3, skipped 0 |
| Engine.Automation.constructor | src/background/background.js:3-4 | the engine starts idle |
| Engine.Automation.SetupDefaultSettings | src/background/background.js:38-60 | the store becomes the seeded store, and a write happens exactly when some key was absent |
| Engine.Automation.GetStatus | src/background/background.js:98-107 | a successful status reply with the reported flag, the stored run time, the in-flight flag and the last five (or fewer) log entries in order |
| Engine.Automation.ToggleEnabled | src/background/background.js:109-118 | stores and reports the negation of the stored flag, nothing else changes |
| Engine.Automation.GetSettings | src/background/background.js:120-127 | a successful reply with the comment pool and the reported flag |
| Engine.Automation.UpdateSettings | src/background/background.js:129-132 | the store becomes the merge of the old store and the sent settings |
| Engine.Automation.ScanPage | src/background/background.js:330-338 | the inner loop keeps exactly the page's items before the first seen id, and flags old content exactly when it stopped early |
| Engine.Automation.FetchContentList | src/background/background.js:292-376 | the loop's outcome and the pages it requested are those of the reference scan from page 1 with the stored ids as the seen set |
| Engine.Automation.SaveExecutionLog | src/background/background.js:442-454 | the log becomes the bounded append of the entry, every other key unchanged |
| Engine.Automation.ProcessAndRecord | src/background/background.js:178-231 | the loop and the writes after it produce the reply, store and requests of the reference full run, leaving the in-flight flag alone |
| Engine.Automation.ExecuteAutomation | src/background/background.js:134-261 | reply, new store and requests equal the reference run; the in-flight flag is back to its old value on every path |
| Engine.Automation.HandleMessage | src/background/background.js:71-96 | each known action answers with its handler's reply and effect; only `executeNow` issues requests; an unknown action answers "Unknown action" and changes nothing |
| Engine.Automation.ToggleTwiceRestores | src/background/background.js:109-118 | two toggles both succeed, report the negated and then the original flag, and leave the store as it was |
| OptionsPage.TrimStart | src/options/Options.jsx:65 | leading white space only is removed, and the rest starts with a non-space character |
| OptionsPage.TrimEnd | src/options/Options.jsx:65 | trailing white space only is removed, and the rest ends with a non-space character |
| OptionsPage.TrimSlice | src/options/Options.jsx:65 | the trimmed text is the slice of the input that starts right after the leading white space |
| OptionsPage.TrimTrailing | src/options/Options.jsx:65 | everything after the trimmed text in the input is white space |
| OptionsPage.TrimBorders | src/options/Options.jsx:65 | the trimmed text is empty or neither starts nor ends with white space |
| OptionsPage.AddComment | src/options/Options.jsx:64-72 | adding never removes or reorders comments and never changes the enabled flag |
| OptionsPage.AddCommentRejects | src/options/Options.jsx:65 | blank input, or input whose trimmed form is present, changes neither settings nor the input box |
| OptionsPage.AddCommentAppends | src/options/Options.jsx:66-69 | otherwise the trimmed input is appended at the end, the earlier comments and the flag are unchanged, the pool grows by one |
| OptionsPage.AddCommentKeepsDistinct | src/options/Options.jsx:65-69 | a pool without repeats stays without repeats |
| OptionsPage.WithoutIndexFrom | src/options/Options.jsx:77 | the index filter drops exactly the element at the index, if in range, keeping the rest in order |
| OptionsPage.RemoveCommentDeletes | src/options/Options.jsx:74-79 | removal deletes exactly the comment at the index and keeps the others in order; an out-of-range index changes nothing |
| OptionsPage.ResetRestoresEnginePool | src/options/Options.jsx:81-94 | a confirmed reset sets the pool to the engine's built-in five comments and keeps the flag; without confirmation nothing changes |

## Left out

- HTTP transport: URLs, headers, cookies and JSON decoding are not modelled. Each
  listing page and each comment reply is an input. The like reply is no input at all,
  because the like call swallows every error; like requests still appear in the trace.
- `checkLoginStatus` is not modelled. It is never called.
- Delays and pacing: the `delay` helper and the random waits before likes, before
  comments and after errors. Only the random comment choice is modelled, as an input
  fraction in [0, 1).
- Platform wiring: the install and message listeners, the six-hour alarm and the
  notifications shown after a run.
- Console logging.
- Time: `Date` values are opaque. The start time is an ISO text and the duration an
  integer, both inputs.
- Concurrency: `isRunning` is a plain field in a sequential model. Interleavings of
  concurrent runs and messages, including a settings update in the middle of a run,
  are not modelled. The code re-reads `comments` from storage for every comment; the
  model reads the pool once per run, which is the same as long as nothing writes the
  store during the run.
- Engine.Automation.HandleMessage: does not model the catch that turns a storage
  exception into `{success: false, error}`, because storage never fails in this model.
- Engine.Automation.UpdateSettings: only the five known keys are modelled. Other keys
  a caller sends are not stored in this model.
- The numeric conversion of an item id in the comment request body is not modelled.
  Ids are compared as strings.
- Participation.CommentIndex: `Math.random()` is taken as a real fraction, not an IEEE
  double. The product is exact, with no rounding.
- The options page: rendering, loading and saving through messages, `alert`, and the
  direct storage clears of the log and the participated ids. Only the three pool
  updaters are modelled. The `confirm` answer of `resetToDefault` is an input.
  `OptionsPage.PageSettings` holds only the comments and the flag. Other fields a
  settings reply carries are kept by the spread and are not modelled.
- The popup and the build configuration are not part of this model.
