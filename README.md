# Tor page scanner: a Dafny model of its sequential core

The scanner (`main.go`) reads a list of target URLs. It checks that its
traffic leaves through the Tor SOCKS5 proxy, then hands every target to a
pool of workers. For each target a worker saves the page body under
`output/` and a full-page screenshot under `screenshots/`, and it appends
one line per outcome to the scan report.

This project models the four pieces of sequential logic inside that program
and proves what they promise:

- **Artifact naming** (`Artifacts`). `sanitize` makes three
  `strings.ReplaceAll` passes: remove `http://`, remove `https://`, turn `/`
  into `_`. The two artifact paths are built from the result.
  `strings.ReplaceAll`, `strings.TrimSpace` (with Go's `unicode.IsSpace`) and
  `strings.Contains` are modelled in `Text`.
- **Target clean-up** (`Dispatch`). The producer loop in `main` trims every
  list entry and sends the non-blank ones in order.
- **The worker** (`Pool`). Each target goes through fetch, then a
  fresh browser session, then the screenshot, then release. Failures are
  logged and the worker moves on to the next target. `RenderSession` is the
  allocator and context pair made by `torChromeContext`. Its release closure
  cancels the context and then the allocator.
- **The connectivity gate** (`Gate`). `checkTor` passes exactly when the
  check page's body contains `Congratulations`.
- **`main`** (`Driver`) sequences all of the above.

Side effects are recorded as a trace of `Events.Event` values, in the order
they happen:

- a fetch attempt;
- an artifact written at a path;
- a session created;
- a screenshot attempt;
- a context cancelled;
- an allocator cancelled;
- a report line.

Properties are stated in two ways:

- as projections of the trace (`Events.Project`): which targets were fetched,
  captured, or logged as successes;
- as a replay against the session discipline (`Events.Replay`): a session is
  created only when none is open, a screenshot runs only in an open session,
  and the context is cancelled before the allocator.

The network and the browser are parameters. `fetch(i)` and `capture(i)` give
the outcome of the `i`-th target's fetch and screenshot. The outcomes of
client construction, of the check request and of loading the list are
arguments of `Driver.Scan`.

`strings.ReplaceAll` removes `http://` and `https://` wherever they occur in
a URL, not only at its front. For example, inside a query string:
`Artifacts.SanitizeStripsEmbeddedScheme` shows `a.com/?u=http://b` becoming
`a.com_?u=b`.

## Model

| member | source | states |
|---|---|---|
| Text.TrimLeadingSpec | main.go:72 | dropping leading space keeps a suffix, everything dropped is white space and the rest starts with a non-space |
| Text.TrimTrailingSpec | main.go:72 | dropping trailing space keeps a prefix, everything dropped is white space and the rest ends with a non-space |
| Text.IsSpace | main.go:72 | the white-space table of `unicode.IsSpace`: no visible ASCII character (`!` to `~`) is white space |
| Text.TrimSpace | main.go:72 | `strings.TrimSpace` returns a string with no white space at either end, never longer than its input |
| Text.TrimSpaceEmpty | main.go:72-73 | a trimmed entry is empty exactly when the entry is all white space |
| Text.TrimSpaceSlice | main.go:72 | the trimmed entry is a contiguous slice of the entry with only white space cut off either side |
| Text.TrimSpaceOfTrimmed | main.go:72 | an entry with no white space at its ends is left unchanged |
| Text.TrimSpaceIdempotent | main.go:72 | trimming twice equals trimming once |
| Text.TrimLeadingSpaces | main.go:72 | a white-space prefix is removed completely |
| Text.TrimTrailingSpaces | main.go:72 | a white-space suffix is removed completely |
| Text.TrimSpaceAround | main.go:72 | white-space padding around a trimmed string is removed, giving back that string |
| Text.OccursStep | main.go:199 | a pattern occurs in a string exactly when it is a prefix of it or occurs in its tail |
| Text.Contains | main.go:199 | the left-to-right `strings.Contains` scan succeeds exactly when the pattern occurs at some index |
| Text.ContainsChars | main.go:199 | a string containing a pattern contains every character of it |
| Text.ReplaceAll | main.go:185-187 | Go's `strings.ReplaceAll`: a non-overlapping, left-to-right scan; its meaning is stated by the `Text.ReplaceAll*` lemmas |
| Text.ReplaceAllEmptyPattern | main.go:185-187 | Go's general behaviour for an empty pattern, a case `sanitize` never reaches: the replacement goes before every character and at the end, giving `|s| + (|s| + 1) * |rep|` characters |
| Text.ReplaceAllAbsent | main.go:185-187 | `ReplaceAll` with a non-empty pattern that does not occur returns the string unchanged |
| Text.ReplaceAllShrinks | main.go:185-186 | removing a non-empty pattern never lengthens the string |
| Text.ReplaceAllChar | main.go:187 | replacing one character by another keeps the length and changes exactly those positions |
| Text.ReplaceAllKeepsPrefix | main.go:185-186 | a prefix in which no match starts is copied unchanged before the rest is processed |
| Artifacts.Sanitize | main.go:184-189 | the sanitized name has no `/` and is never longer than the URL |
| Artifacts.SanitizeHasNoScheme | main.go:185-187 | the name contains neither `http://` nor `https://` |
| Artifacts.SanitizeIdempotent | main.go:184-189 | sanitizing a sanitized name changes nothing |
| Artifacts.SanitizeSchemeFree | main.go:185-188 | a URL with no scheme marker maps character for character, with only `/` changed to `_` |
| Artifacts.HttpPassDropsHttp | main.go:185 | the first pass drops a leading `http://` |
| Artifacts.HttpPassKeepsHttps | main.go:185 | the first pass finds no `http://` inside a leading `https://` and copies it |
| Artifacts.HttpPassDropsEmbedded | main.go:185 | the first pass copies text that holds no `http://` of its own and drops the `http://` that follows it |
| Artifacts.HttpPassAfterStrayH | main.go:185 | a stray `h` before `http://` is kept and the marker after it dropped: `hhttp://x` becomes `hx` |
| Artifacts.SanitizeDropsEmbedded | main.go:185-187 | in a URL without `:` around one `http://`, the marker is dropped wherever it sits and only `/` is rewritten |
| Artifacts.NoSchemeWithoutColon | main.go:185-186 | a string without `:` contains neither scheme marker |
| Artifacts.SanitizeSchemeInsensitive | main.go:185-187 | `http://` + rest, `https://` + rest and rest itself all sanitize to the same name |
| Artifacts.SanitizePlainExample | main.go:187 | `a.com/x` becomes `a.com_x` |
| Artifacts.SanitizeCollision | main.go:185-187 | `https://a.com/x` and `http://a.com/x` both become `a.com_x` |
| Artifacts.SanitizeStripsEmbeddedScheme | main.go:185 | a scheme marker in the middle of a URL is removed as well |
| Artifacts.ArtifactPath | main.go:146 | an artifact path is the directory, `/`, the sanitized name and the extension, in that order |
| Artifacts.HtmlPath | main.go:146 | a page body is stored under `output/` with the extension `.html` |
| Artifacts.PngPath | main.go:181 | a screenshot is stored under `screenshots/` with the extension `.png` |
| Artifacts.ArtifactInDirectory | main.go:146 | after `<dir>/` the path has no further separator, so the artifact sits directly in its directory |
| Artifacts.ArtifactPathCollides | main.go:146 | two URLs share an artifact path exactly when they share a sanitized name |
| Artifacts.SchemeVariantsShareArtifacts | main.go:146 | the `http://` and `https://` forms of a target write to the same page and screenshot files |
| Artifacts.HtmlAndPngDiffer | main.go:181 | a page body and a screenshot never share a path |
| Gate.CheckTor | main.go:191-203 | the check passes exactly when a body was read and contains `Congratulations`; a transport error is passed on; a body without the marker fails with the fixed message |
| Gate.CheckTorFindsMarker | main.go:199 | the marker is found anywhere in the body |
| Dispatch.Cleaned | main.go:72-73 | one list entry yields at most one target, and a target it yields is non-empty with no white space at either end |
| Dispatch.Dispatched | main.go:71-76 | the producer never sends more targets than the list holds |
| Dispatch.DispatchTargets | main.go:71-76 | the loop sends exactly `Dispatched(targets)`, and every target it sends is non-blank and trimmed |
| Dispatch.DispatchedClean | main.go:72-73 | no dispatched target is empty or has white space at either end |
| Dispatch.DispatchedOrigins | main.go:71-76 | the dispatched targets are exactly the non-blank trimmed entries, in increasing list order, each entry that is not blank being sent |
| Dispatch.DispatchedIdempotent | main.go:71-76 | cleaning an already cleaned list changes nothing |
| Dispatch.DispatchedAppend | main.go:71-76 | cleaning a concatenated list cleans each part in turn |
| Dispatch.DispatchExample | main.go:71-76 | a blank entry is dropped and a padded entry is sent trimmed |
| Events.ReplayCounts | main.go:109-117 | along a trace that keeps the session discipline, creations equal context and allocator cancellations plus the sessions still open |
| Events.SessionsReleasedOnce | main.go:109-117 | a trace that starts and ends with no open session cancels one context and one allocator per session created |
| Pool.RenderSession.constructor | main.go:149-158 | a session uses the Chromium binary, the SOCKS5 proxy, headless and no-sandbox, and its context and allocator are live |
| Pool.RenderSession.Release | main.go:160-163 | the release closure cancels the context and then the allocator, leaving neither live |
| Pool.FetchEvents | main.go:134-146 | `fetchHTML` is one GET of the URL, followed by the page written to its `.html` path only when the fetch succeeds; its projections are stated by `Pool.StageProjections`, `Pool.StageWrites` and `Pool.ReplayFetch` |
| Pool.ScreenshotEvents | main.go:166-182 | `takeScreenshot` is one screenshot attempt, followed by the image written to its `.png` path only when the capture succeeds; its projections are stated by `Pool.StageProjections`, `Pool.StageWrites` and `Pool.ReplayScreenshot` |
| Pool.TakeScreenshot | main.go:166-182 | a screenshot is attempted in a live context, and the image is written under `screenshots/` only when the capture succeeds |
| Pool.Worker | main.go:100-119 | the worker's trace is the per-target traces in order; it creates one session per successful fetch and releases every one of them |
| Pool.TaskTrace | main.go:101-118 | the three paths of one loop iteration: fetch error logged; screenshot error logged after the session is created and before it is released; release, then SUCCESS. Its properties are the `Pool.Task*` lemmas below |
| Pool.WorkerTrace | main.go:100-119 | the worker's trace is the targets' traces in the order received, at least two events per target |
| Pool.StageProjections | main.go:103-111 | the fetch and screenshot stages contribute only their attempts to any projection that ignores writes |
| Pool.ReleaseProjection | main.go:160-163 | the release adds no fetch, screenshot or report entry |
| Pool.TaskProjectionFetchFailed | main.go:103-106 | a target whose fetch fails yields its fetch attempt and its HTML error line, and nothing else that is observed |
| Pool.TaskProjectionHead | main.go:103-111 | up to its screenshot, a fetched target yields its fetch attempt and then its screenshot attempt |
| Pool.TaskProjectionCaptureFailed | main.go:109-114 | a target whose screenshot fails yields its fetch and screenshot attempts and then the screenshot error line |
| Pool.TaskProjectionSucceeded | main.go:109-118 | a target that succeeds yields its fetch and screenshot attempts and then the SUCCESS line |
| Pool.TaskFetched | main.go:103 | each target is fetched exactly once |
| Pool.TaskCaptured | main.go:103-111 | a target's screenshot is attempted exactly when its fetch succeeds |
| Pool.TaskSucceeded | main.go:111-118 | one target is logged as SUCCESS exactly when its fetch and its screenshot both succeed |
| Pool.TaskOutcome | main.go:103-118 | one target gets exactly one outcome line |
| Pool.WorkerFetchesEachOnce | main.go:100-106 | every target received is fetched exactly once, in order |
| Pool.WorkerCapturesOnlyFetched | main.go:103-111 | screenshots are attempted for exactly the targets whose fetch succeeded, in order |
| Pool.WorkerSuccessIff | main.go:111-118 | SUCCESS is logged for exactly the targets whose fetch and screenshot both succeed, in order |
| Pool.WorkerOneOutcomeEach | main.go:100-119 | every target gets exactly one outcome line, an error or SUCCESS, in order |
| Pool.ReplayFetch | main.go:134-146 | the fetch stage neither opens nor closes a session |
| Pool.ReplayScreenshot | main.go:166-181 | the screenshot stage runs inside the open session and leaves it open |
| Pool.ReplayRelease | main.go:160-163 | the release closes the open session, context first |
| Pool.TaskReplay | main.go:109-117 | every target keeps the session discipline and ends with no session open, on both the screenshot-error and the success path |
| Pool.WorkerSessionsBalanced | main.go:100-119 | the whole worker trace keeps the session discipline and ends with no session open |
| Pool.StageWrites | main.go:134-182 | the fetch stage writes the page to its `.html` path exactly when the fetch succeeds; the screenshot stage writes the image to its `.png` path exactly when the capture succeeds; nothing else is written |
| Pool.HeadWrites | main.go:103-111 | up to its screenshot, a fetched target has written its page and, when the capture succeeded, its image |
| Pool.ReleaseWrites | main.go:160-163 | the release writes nothing |
| Pool.TaskWrites | main.go:103-118 | one target writes its page exactly when its fetch succeeds, then its image exactly when its screenshot succeeds too, and nothing else |
| Pool.WorkerWrites | main.go:100-119 | the worker's writes are exactly `ArtifactsWritten`: per target in order, the page on a successful fetch and the image when both stages succeed |
| Pool.HeadSessions | main.go:103-111 | up to its screenshot a fetched target has created exactly one session, and the release creates none |
| Pool.TaskSessions | main.go:103-109 | a target creates a session exactly when its fetch succeeds |
| Pool.WorkerSessionCount | main.go:109-117 | sessions created, contexts cancelled and allocators cancelled each equal the number of successful fetches |
| Pool.FetchFailureStopsTarget | main.go:103-106 | after a failed fetch there is no session, no screenshot attempt and no artifact for that target |
| Driver.Scan | main.go:32-82 | usage exactly when fewer than two arguments; the pool runs exactly when client, gate and list all succeed; nothing is fetched on an abort; a client failure or a list-load failure gives exactly the start-up line(s) followed by that fatal error; a gate failure gives exactly `Checking Tor` then `Tor connection failed`; a finished run is the preamble followed by the worker over the cleaned list |
| Driver.PoolRunTrace | main.go:63-79 | a run that reaches the pool logs `Checking Tor` and the verification line first, and then at least two events per cleaned target |
| Driver.PreambleInert | main.go:45-56 | the start-up report lines fetch nothing, write nothing, log no success and open no session |
| Driver.ScanFetchesDispatched | main.go:63-79 | a finished run fetches exactly the cleaned targets, in order |
| Driver.ScanWrites | main.go:63-79 | a finished run writes exactly the pages and images `ArtifactsWritten` lists for the cleaned targets |
| Driver.ScanSucceeds | main.go:63-79 | a finished run logs SUCCESS for exactly the cleaned targets whose two stages succeed |
| Driver.ScanReleasesSessions | main.go:63-79 | a finished run keeps the session discipline and ends with every session released |
| Driver.ScanExample | main.go:71-76 | with one blank entry, one padded entry and a failed first fetch, both targets are fetched and only the second is captured and logged as SUCCESS |

## Left out

- The worker pool's concurrency is not modelled: the five goroutines, the unbuffered channel and the `sync.WaitGroup` (main.go:63-69, 78-79, 97-98). One sequential worker takes the dispatched targets in order, so every ordering statement above is per worker. The program itself guarantees no order across workers.
- `torHTTPClient` (the SOCKS5 dialer, the HTTP client and its 90-second timeout) and every `client.Get` are network I/O. Their outcomes are parameters: `client`, `tor`, `fetch(i)` and `capture(i)`.
- chromedp is not modelled: allocator and context construction, `Navigate`, the 8-second `Sleep`, `FullScreenshot` at quality 90 and the 60-second `context.WithTimeout`. Only session creation, the screenshot attempt, its outcome and the two cancellations are events.
- File-system writes are left out. `os.WriteFile` appears only as a "written at path" event on success. A write that fails is folded into the stage's error outcome. `os.MkdirAll` and opening the report file are left out.
- `loadYAML` (a YAML library) is represented by `Driver.TargetList`: either a load error or the list of entries.
- Console output is left out: the usage text, the `[WORKER id]` lines and the final completion message. Report lines are modelled by kind and content, not by exact text or timestamps.
- `log.Fatal` ends the run. This is modelled as the `Aborted` exit after the logged line.
- Strings are sequences of Unicode scalar values. How `strings.TrimSpace` and `strings.ReplaceAll` treat bytes that are not valid UTF-8 is not modelled.
