# 4get.js download coordinator, modelled in Dafny

`4get.js` downloads every media file of a 4chan thread. It keeps watching the thread until the thread dies or is archived. A master process fetches the thread page and turns its file blocks into `[url, fileName]` jobs. It hands those jobs round-robin to a pool of worker processes. Each time a worker reports a job done, it gets the next job. Once `concurrentDownloads` reports have found the queue empty, the master either shuts the pool down or polls the page again after 30 seconds.

This project models the master side as a class, `Coordinator.Fourget`. The source's object fields are its fields: queue `files`, counter `workersFinished`, flag `watch`, counter `downloaded`, directory `dir`, and the clamped `workers` / `concurrentDownloads`. Its handlers are methods that update those fields step by step:

- `OnFetch` is the `'fetch'` handler.
- `OnParse` is the `'parse'` handler, whose saturation loop is `Saturate`.
- `OnReport` is the report handler.
- `DispatchDownload` and `BroadcastToWorkers` are the methods of the same names.

Messages to workers are appended to a `trace` of `(recipient, command)` pairs. The `id` argument 0 (`AnyWorker`) of `BroadcastToWorkers` stands for JavaScript's `false`: such a call leaves one trace entry per worker. Calls of `fetch`, including the one a re-poll timer makes, are counted in `fetchRequests`.

Three ghost fields carry the bookkeeping the source leaves implicit:

- `inFlight`: jobs sent and not yet reported.
- `cycleDispatched`: jobs handed out by the last saturation loop.
- `awaitingPage`: page requests not yet answered.

With these, the accounting invariant `Accounted` can be stated. Each handler is shown to keep it, provided the event it handles answers something outstanding: a page answers a request, a report answers a job in flight. Every handler's contract also gives the new value of each ghost counter, so the contracts chain from one event to the next: through a whole cycle of reports `cycleDispatched` stays the count of the saturation loop, and the re-poll that ends a watched cycle leaves exactly one page request outstanding for the next `OnFetch`.

The pure helpers are functions with lemmas:

- `Config`: the constructor's defaults and clamps.
- `Naming`: the file-name rule of `parse` and the directory name of `setAndCreateDir`.
- `ThreadUrl`: `validateThreadUrl`. Its regular expression is a "some substring matches" predicate, and the function decides it with a scan, proved equivalent.
- `RunTime`: the `runTime` breakdown and text.
- `Protocol`: message routing, round-robin order and the worker's outcome per job.
- `Text`: JavaScript's `split('/')`, joining, and number-to-text conversion.

Quirks of the code that the model keeps:

- The parse handler sets the queue to `old + old + batch`, because `concat` is given the old queue twice (4get.js:138). New references are therefore not simply appended. `OnFetch` shows that when a page answers an outstanding request the queue is empty, so the doubling has no effect in the runs the accounting invariant describes.
- The download directory is set and announced to every worker on every non-empty batch, not once per run (4get.js:132-135).
- An empty poll dispatches nothing (4get.js:145-150), so no report arrives. The finished count is only raised by a report (4get.js:200), so such a cycle never ends. `OnReport` proves the cycle-end branch needs a full cycle.
- A dead thread stops watching but sends no shutdown (4get.js:112-117).
- The directory name is `board_slug_id` (4get.js:311-312).
- Milliseconds in `runTime` are not zero-padded (4get.js:459).
- Counts given on the command line are strings (4get.js:32-33). A command-line `0` is therefore kept, so `url 0` forks no worker. The cap compares with the number 4 (4get.js:38), but the slot clamp compares two command-line strings as text (4get.js:42): `url 2 10` leaves two download slots, because "2" sorts after "10".

## Model

| member | source | states |
|---|---|---|
| Config.Clamp | 4get.js:38-43 | at most four workers, exactly four when more are asked for; concurrent downloads never below the workers nor below the request; unchanged if already at least the workers, otherwise raised to the workers |
| Config.Resolve | 4get.js:32-43 | for every input at most four workers and at least as many download slots as workers; unless both counts are command-line strings with at most four workers, the numeric `Clamp` of the looked-up counts (a non-zero option, else any command-line value, else the core count or eight); when they are, the slots drop to the worker count exactly when the slot numeral sorts before the worker numeral as text |
| Config.DigitTextOrder | 4get.js:42 | a one-digit count sorts before another as text exactly when it is smaller |
| Config.TextBefore | 4get.js:42 | JavaScript's `<` on two strings: a result of true means the strings differ; the empty string is before exactly the non-empty ones; when the first characters differ, the smaller one decides |
| Config.ZeroArgumentKept | 4get.js:32 | a command-line `0` is kept: no workers, eight download slots |
| Config.TextComparisonLowersSlots | 4get.js:32-43 | command-line `2 10` gives two workers and two download slots |
| Config.ClampIdempotent | 4get.js:38-43 | clamped settings are left alone by a second clamp |
| Config.ManyWorkersCapped | 4get.js:38-39 | a request of more than four workers yields four |
| Config.UsageExampleSettings | 4get.js:483-484 | command-line `8 16` gives four workers and sixteen downloads |
| Coordinator.Fourget.constructor | 4get.js:29-60 | the fields start as the source sets them (directory `cwd + sep`, empty queue, watching, nothing downloaded) with the settings `Resolve` gives, and the accounting invariant holds |
| Coordinator.Fourget.Start | 4get.js:62-109 | starts exactly when `validateThreadUrl` accepts the link; then the worker ids are 1..workers and exactly one fetch is requested; otherwise nothing changes |
| Coordinator.Fourget.Fetch | 4get.js:259-271 | one more page request is counted and outstanding |
| Coordinator.Fourget.OnFetch | 4get.js:112-128 | an error or status other than 200 clears watching and changes nothing else (no parse, no dispatch, no shutdown); an archived page clears watching and is still parsed and dispatched; an answered request keeps the accounting invariant, and its parse starts from an empty queue |
| Coordinator.Fourget.Parse | 4get.js:277-302 | one reference per file block, in page order, as `FileFor` gives it, handed to the parse handler |
| Coordinator.Fourget.OnParse | 4get.js:130-151 | the queue becomes old + old + batch; the directory notice goes to all workers when the batch is non-empty; the first `min(concurrentDownloads, queue length)` entries go out in order and round-robin, the rest stays queued in order; with nothing in flight the accounting invariant holds afterwards |
| Coordinator.Fourget.AnnounceDir | 4get.js:132-135 | a non-empty batch sets the download directory and sends it to every worker; an empty one changes neither |
| Coordinator.Fourget.Saturate | 4get.js:143-150 | the loop takes exactly `min(concurrentDownloads, queue length)` entries from the front, sending the `k`-th to the `k`-th round-robin pick, and leaves the rest of the queue unchanged |
| Coordinator.Fourget.SetAndCreateDir | 4get.js:308-321 | the download directory becomes `cwd/DirName(url)/`, which is returned |
| Coordinator.Fourget.BroadcastToWorkers | 4get.js:348-363 | a truthy known id receives exactly one message and the count is 1; `false` or an unknown id sends one message to each worker in order and the count is the number of workers |
| Coordinator.Fourget.OnReport | 4get.js:88-103 | `downloaded` grows by one on a download report and not on a skip; the worker gets its next job as `DispatchDownload` says, and the ghost counters change as `DispatchDownload`'s do after one job in flight is retired; if the report answers a job in flight the accounting invariant is kept, and the cycle-end branch can only fire when the last saturation loop filled every slot and this was the last job in flight |
| Coordinator.Fourget.DispatchDownload | 4get.js:191-219 | a non-empty queue sends its head to worker `id` only and leaves the finished count alone; an empty queue counts the worker finished; at `concurrentDownloads` finished, when not watching one shutdown goes to every worker and the count stays, when watching the count resets and exactly one fetch is requested; a job sent adds its routed job count to those in flight, a re-poll closes the cycle (`cycleDispatched` 0) and leaves one more page request outstanding, and otherwise the ghost counters are unchanged |
| Coordinator.Fourget.WorkerFinished | 4get.js:199-217 | with the queue empty the worker counts as finished; at `concurrentDownloads` finished, when not watching one shutdown goes to every worker, and when watching the finished count resets to 0 and one fetch is requested; nothing is sent otherwise; a re-poll closes the cycle and leaves one more page request outstanding; if a slot was freed the accounting invariant is kept |
| Naming.FileFor | 4get.js:284-297 | the job's URL is `http:` + href; the name is the title or else the link text unless that name is on the ignore list, in which case it is segment 4 of the URL split on `/` |
| Naming.FilesOf | 4get.js:283-298 | one job per block, the `i`-th from the `i`-th block |
| Naming.GeneratedNameOfMediaLink | 4get.js:285-287 | for `//host/board/name` the generated name is `name` |
| Naming.GenericUploadKeepsBoardName | 4get.js:53-57 | an upload called `image.jpg` keeps the board's generated file name |
| Naming.DirName | 4get.js:309-313 | the directory name is a single path segment: it holds no `/` |
| Naming.DirNameOfParts | 4get.js:309-313 | for a URL of seven `/`-parts the name is parts 3, 6 and 5 joined by `_`, for any other count of at least six parts it is parts 3 and 5 |
| Naming.DirNameWithoutSlug | 4get.js:313 | `scheme//host/board/thread/id` names the directory `board_id` |
| Naming.DirNameWithSlug | 4get.js:311-312 | `scheme//host/board/thread/id/slug` names the directory `board_slug_id` |
| Naming.UsageExampleDir | 4get.js:481-482 | `http://boards.4chan.org/wg/thread/6581245` is saved in `wg_6581245` |
| Naming.SluggedExampleDir | 4get.js:310-312 | `.../wg/thread/123456/my-slug` is saved in `wg_my-slug_123456` |
| Text.Split | 4get.js:309 | split on a separator yields at least one part, no part holds the separator, and joining the parts gives back the string |
| Text.SplitLength | 4get.js:311 | the number of parts is the number of separators plus one |
| Text.SplitSepFree | 4get.js:309 | a string without the separator splits into itself |
| Text.SplitAfterPiece | 4get.js:309 | a separator-free piece followed by the separator splits off as the first part |
| Text.SplitJoin | 4get.js:309 | splitting a join of separator-free parts gives the parts back |
| Text.Decimal | 4get.js:448-462 | the text of a count is decimal digits without a leading zero (`0` reads "0") |
| Text.DecimalRoundTrip | 4get.js:448-462 | reading the digits back gives the count |
| Text.IntText | 4get.js:459 | the text starts with `-` exactly for a negative number; the rest is decimal digits without a leading zero (except for 0) that read back as the magnitude |
| ThreadUrl.FindMarker | 4get.js:337 | finds `/thread/` followed by a digit exactly when one ends the current non-white-space run |
| ThreadUrl.BodyFrom | 4get.js:337 | decides `\S+/thread/\d` at a position |
| ThreadUrl.MatchFrom | 4get.js:337 | decides whether the whole expression matches at a position |
| ThreadUrl.SearchFrom | 4get.js:337 | decides whether a match starts at the position or later |
| ThreadUrl.ValidateThreadUrl | 4get.js:336-338 | accepts a link exactly when some substring matches `https?://boards.4chan.org/\S+/thread/\d+/?\S*` |
| ThreadUrl.ThreadLinkAccepted | 4get.js:337 | every `http(s)://boards.4chan.org/<board>/thread/<digit>...` with a non-empty board free of white space is accepted |
| ThreadUrl.UsageExampleAccepted | 4get.js:481 | the usage example `http://boards.4chan.org/wg/thread/6581245` is accepted |
| ThreadUrl.SecureSluggedAccepted | 4get.js:337 | `https://boards.4chan.org/wg/thread/123456/my-slug` is accepted |
| ThreadUrl.MissingThreadIdRefused | 4get.js:337 | a string with no `/thread/` followed by a digit is refused |
| ThreadUrl.OtherHostRefused | 4get.js:337 | a string without `4chan` anywhere is refused |
| ThreadUrl.UnanchoredMatch | 4get.js:337 | text before or after an accepted link keeps it accepted |
| RunTime.Decompose | 4get.js:427-444 | for `diff > 0` the parts add up to `diff` with hours below 24, minutes and seconds below 60 and milliseconds below 1000; otherwise all parts are 0 but the milliseconds, which are `diff` |
| RunTime.DecomposeUnique | 4get.js:434-444 | any in-range parts adding up to a positive `diff` are the ones `runTime` computes |
| RunTime.NonPositiveReadsZero | 4get.js:425-463 | a difference of zero or less reads `0s` |
| RunTime.SubSecondText | 4get.js:458-460 | under a second the text is `0.<ms>s` |
| RunTime.UnpaddedMilliseconds | 4get.js:459 | 1005 ms read `1.5s`: milliseconds are not zero-padded |
| RunTime.RetryDelayText | 4get.js:214 | a difference of 30000 ms reads `30.0s` |
| RunTime.DaysDropMilliseconds | 4get.js:445-463 | with days shown the seconds carry milliseconds only when they are zero: `1d 0.500s` and `1d 1s` |
| RunTime.Format | 4get.js:445-464 | the text always ends in the seconds' unit `s` |
| RunTime.RunTimeText | 4get.js:424-466 | the text of any difference ends in `s` |
| RunTime.SecondsText | 4get.js:445-463 | from one second to a minute the text is `<secs>.<ms>s`, the milliseconds unpadded and shown even when zero |
| RunTime.MinutesText | 4get.js:445-463 | from one minute to an hour the text is `<mins>m ` and then `<secs>.<ms>s`, or `0s` on a whole minute |
| RunTime.FormatDropsMilliseconds | 4get.js:447-460 | once days or hours show, non-zero seconds are written without a decimal point |
| RunTime.LongRunsDropMilliseconds | 4get.js:434-460 | from one hour on, a difference with non-zero seconds reads without a decimal point |
| Protocol.Ids | 4get.js:81-86 | `n` forked workers have the ids 1..n in order |
| Protocol.ToAll | 4get.js:355-360 | one message per worker, in worker order |
| Protocol.Route | 4get.js:348-363 | a truthy known id gets the only message; otherwise every worker gets one |
| Protocol.RoundRobin | 4get.js:143-150 | the `k`-th pick lies in 1..workers and is `k + 1` during the first round |
| Protocol.RoundRobinPeriodic | 4get.js:147 | the picks repeat every `workers` steps |
| Protocol.RoundRobinStep | 4get.js:147-148 | the first pick is 1 and each next pick is the previous plus one, wrapped to 1 past `workers` |
| Protocol.SaturationStep | 4get.js:146-149 | the loop's wrapped counter is the current round-robin pick, and sending the current job after the messages sent so far extends them as `Dispatches` says |
| Protocol.DispatchesRoundRobin | 4get.js:143-150 | with the cluster's ids, the loop sends each job exactly once, in queue order, the `k`-th to the `k`-th pick |
| Protocol.DispatchesToKnown | 4get.js:143-150 | for any worker list that holds every pick, the `k`-th of the first `n` jobs is one message to the `k`-th pick, and nothing else is sent |
| Protocol.DispatchesJobCount | 4get.js:143-150 | the loop hands out one job per entry taken, or none before workers exist |
| Protocol.RouteOneJob | 4get.js:352-354 | a job sent to a known worker counts once |
| Protocol.WorkerOutcome | 4get.js:235-253 | a file already on disk is skipped; otherwise a download is reported exactly when the request completes without a request error, whatever its HTTP status |

## Left out

- Process and IPC plumbing (`cluster.fork`, `process.send`, the `'message'` listeners, `process.disconnect`): messages are entries of `trace`, and worker reports are calls of `OnReport`. Reports with other commands are ignored by the master, and workers send none.
- The network and filesystem I/O of the worker's `downloadFile` and of the master's page request in `fetch` (4get.js:259-271). The page result is the argument of `OnFetch`. The worker's per-job outcome is `WorkerOutcome` over "file on disk" and "request error". An HTTP error page is saved and reported as a download, as the code does (4get.js:243-252). The close/error race, where one job can be reported twice, is not modelled.
- HTML parsing with cheerio and `isArchived`: a page is its archived flag and a sequence of file blocks (href, optional title, link text).
- Timers and the clock: the 30-second `setTimeout` is an immediate fetch request counted in `fetchRequests`. `clearInterval` is dropped, since `_runEvery` is never set. `runTime` takes the millisecond difference as a parameter.
- Creating the directory on disk (`statSync`, `mkdirSync`): `SetAndCreateDir` only sets `dir`. `path.sep` is taken as `/`.
- Logging, `usage`, `process.exit` for an invalid link (modelled as `Start` returning false), and all `chalk` styling.
- Config.Resolve: a command-line value is taken to be a numeral without leading zeros, `Decimal(n)`. Other text (`abc`, `04`, an empty string) and the `NaN` it would give in comparisons are not modelled. An options value is a non-negative whole number.
- ThreadUrl.ValidateThreadUrl: the URL is a string and not `false`. White space is the ECMAScript set, and `.` is any character but a line terminator. A Dafny `char` is a whole Unicode scalar value, while the expression works on UTF-16 code units. For `\S` and `\d` this makes no difference. A `.` of the host, however, matches a character outside the Basic Multilingual Plane here but only half of its surrogate pair in the code, so a host with such a character in place of a dot is accepted by the model and refused by the code.
- Naming.DirName: a URL with fewer than six parts gives the text `undefined` for a missing part, as JavaScript's string concatenation does. A missing URL segment in `FileFor` is `None`.
- Coordinator.Fourget.OnReport: the accounting clauses assume every report answers a job in flight and comes from a known worker. A stray or duplicated report is outside them.
- Worker processes dying while the pool runs, which would shrink the worker set, are not modelled.
