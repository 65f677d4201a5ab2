# Video converter: job orchestration, progress and client channels

A Dafny model of the core of a small video-conversion web service. The server
(`server.js`) accepts an upload, creates a job record in a process-wide map,
and drives it through an ffprobe duration probe, an ffmpeg transcode and two
ffmpeg packaging stages (HLS and DASH). While the transcode runs, it turns
ffmpeg's `time=` diagnostics into a percentage. Clients learn about the job in
three ways:

- a status endpoint;
- a server-sent event stream whose `sendUpdate` runs once a second;
- artifact endpoints that serve files only once the job is done.

A one-hour timer removes a done job. The browser page (`public/app.js`)
follows the job through an `EventSource` and falls back to polling the status
endpoint once a second.

The model has these modules:

- `Text` (text.dfy): the string built-ins the server relies on. These are
  `split` on one character, the decimal value of a digit string, and the
  decimal text of an integer.
- `Timestamp` (timestamp.dfy): `Number` on fields over `[0-9.]`, and
  `parseTimestamp`.
- `ProgressExtractor` (progress.dfy): the regex `time=([0-9:.]+)`,
  `Math.round` and the progress callback of the transcode stage.
- `Jobs` (jobs.dfy): the status lifecycle, the job record, `runFfmpeg`,
  `probeDuration` (a loop accumulating stdout), and the job that a whole run
  ends with. That job is specified as functions of the stage outcomes.
- `Registry` (registry.dfy): the `jobs` map as a class. Each synchronous
  segment of `runConversion` between two `await`s is one method, as are the
  upload handler, its `catch` and the cleanup timer. A ghost history of
  statuses per job, and the invariant that it is always an allowed path, are
  kept by every method.
- `Notifications` (notifications.dfy): the status endpoint, `sendUpdate`, and
  the event stream a client receives over time.
- `Artifacts` (artifacts.dfy): the not-ready gate, POSIX `path.basename`, and
  the default asset names of the download, HLS and DASH handlers.
- `Client` (client.dfy): the page as a class. It has the handlers that change
  `pollTimer` and `eventSource`, and the `setProgress` clamp. Its invariant
  says that at most one polling loop runs, never beside an open event source,
  and that no channel is active while the page is idle.

Each stage of the conversion is an input rather than a process: how each
ffmpeg child ended, the diagnostics chunks, and the probe's value. Time is
real arithmetic; `Math.round(x)` is `floor(x + 0.5)`.

Two details of the code that the model keeps as written:

- The duration guard (server.js:227) is JavaScript truthiness, so it accepts
  any non-zero duration. A negative probe value passes it, although it can
  never raise progress.
- The timestamp token (server.js:221) is any run of `[0-9:.]` after `time=`.
  It need not have the shape `HH:MM:SS[.fraction]`.

## Model

| member | source | states |
|---|---|---|
| Text.Split | server.js:340 | `value.split(":")` yields one more piece than the separator occurs, and no piece contains the separator |
| Text.JoinSplit | server.js:340 | joining the pieces with the separator gives the split text back |
| Text.DecimalRoundTrip | server.js:255 | the decimal text of an exit code is all digits and reads back as that code |
| Timestamp.FieldNumber | server.js:340 | `Number` of a field over `[0-9.]`: the value of its digits, with the digits after a single `.` as the fraction, never negative; NaN is `None` |
| Timestamp.DigitFieldNumber | server.js:340 | `Number` of a digit-only field is its decimal value; the empty field is 0 |
| Timestamp.FieldNumberNaN | server.js:340-341 | within `[0-9.]`, `Number` gives NaN exactly for a lone `.` or a field with two or more `.` |
| Timestamp.FieldNumberWithFraction | server.js:340 | `i.f` with digit strings reads as the integer part plus the fraction `0.f` |
| Timestamp.SplitFields | server.js:340 | every piece of a split timestamp is a field over `[0-9.]` |
| Timestamp.ParseTimestamp | server.js:339-346 | a parsed timestamp is never negative; its full behaviour is given by the two lemmas below |
| Timestamp.ParseTimestampDefined | server.js:339-346 | `parseTimestamp` is non-null exactly when there are two `:` and none of the three fields is NaN |
| Timestamp.ParseTimestampFields | server.js:339-346 | for `h:m:s` the result is `h*3600 + m*60 + s` when all three fields are numbers, and null otherwise |
| Timestamp.EmptyFieldsAreZero | server.js:340-345 | `"::"` parses as 0 seconds, because empty fields count as 0 |
| Timestamp.TwoFieldsRejected | server.js:341-342 | `"01:30"` has two fields and parses as null |
| ProgressExtractor.TimeRun | server.js:221 | the capture is the greedy run: every character is in `[0-9:.]` and the next one is not |
| ProgressExtractor.FirstMatchFrom | server.js:221 | the match found is the leftmost `time=` followed by a timestamp character; none is missed |
| ProgressExtractor.TimeCapture | server.js:221-224 | there is no capture exactly when nothing matches; otherwise it is the non-empty maximal run after the leftmost match |
| ProgressExtractor.CaptureOfLabel | server.js:221 | a chunk `time=<stamp>` captures exactly `<stamp>` |
| ProgressExtractor.Round | server.js:229 | `Math.round` gives the nearest integer, with halves rounded up |
| ProgressExtractor.ProgressUpdate | server.js:219-231 | one chunk never lowers progress and never raises it above `max(prev, 99)` |
| ProgressExtractor.ProgressUnchanged | server.js:222-227 | progress is unchanged without a match, with a null or zero duration, or with an unparseable timestamp |
| ProgressExtractor.ProgressEstimate | server.js:226-229 | otherwise progress is `max(prev, round(100 * min(s/d, 0.99)))` |
| ProgressExtractor.ProgressAfter | server.js:219-231 | the stderr callback over all chunks in order: progress never falls below where it started and stays at most `max(start, 99)` |
| ProgressExtractor.ProgressAfterPrefix | server.js:219-231 | progress never goes back: what a prefix of the chunks produced is at most what all of them produce, and the rest add nothing beyond 99 |
| ProgressExtractor.UnknownDurationKeepsProgress | server.js:227 | with an unknown or zero duration no sequence of chunks moves progress |
| ProgressExtractor.SixtySecondScenario | server.js:219-231 | with duration 60, `time=00:00:30.00` gives 50 and `time=00:01:00.00` gives 99 |
| Jobs.StatusNameRoundTrip | server.js:186-239 | every status name reads back as its status, so no two statuses share a name |
| Jobs.PathIsLifecyclePrefix | server.js:186-241 | every history of allowed changes is a prefix of `queued, probing, converting, packaging-hls, packaging-dash, done`, or such a prefix that reached `converting` and then turned to `error` |
| Jobs.PathExtend | server.js:186-239 | an allowed status change extends a history into a history |
| Jobs.NewJob | server.js:37-58 | a new job is `queued` with progress 0 and null duration and error; its directories are `<outputs>/<id>` and the `output.mp4`, `hls` and `dash` entries under it |
| Jobs.NewJobInvariant | server.js:46-58 | a new job satisfies the record invariant |
| Jobs.JobDirDeterminesId | server.js:39 | two ids with the same working directory are the same id |
| Jobs.RunFfmpeg | server.js:244-258 | the stage resolves exactly on a close with code 0; a spawn error rejects with its own message |
| Jobs.ExitCodeInMessage | server.js:255 | a non-zero exit rejects with `ffmpeg exited with <code>`, and the code can be read back from the message |
| Jobs.ProbeDuration | server.js:307-337 | the probe never rejects: a spawn error gives null; a close gives the finite parse of all stdout chunks concatenated in order |
| Jobs.RejectionIffStageFails | server.js:232-256 | the run rejects exactly when some ffmpeg stage does not close with 0, and resolves exactly when its statuses are the whole lifecycle after `queued` |
| Jobs.RunHistoryIsPath | server.js:186-241 | the statuses of any run, followed by `error` when it rejects, form an allowed history; a successful run walks the whole lifecycle |
| Jobs.AfterRun | server.js:180-241 | the record `runConversion` settles with: `done` at 100 exactly when no stage fails, otherwise the stage it stopped in with the progress the transcode reached; id, error and probed duration as expected |
| Jobs.RunResult | server.js:63-69 | `runConversion` plus the upload handler's `catch`: the job ends `done` or `error`, `done` exactly when nothing rejects, and on `error` it holds the rejection's message |
| Jobs.RunResultOutcome | server.js:180-241 | a run from `queued` ends terminal and consistent: `done` at 100 with no error exactly when nothing rejects; otherwise `error` with the first failing stage's message and the progress the transcode reached (at most 99) |
| Jobs.ProbeNeverDecidesOutcome | server.js:307-337 | the probe's value never changes the final status or error |
| Jobs.UnknownDurationRun | server.js:227 | without a usable duration a failed run keeps the progress it started with |
| Jobs.RunKeepsIdentity | server.js:186-240 | a run changes only status, progress, duration and error; the id, paths and creation time are kept, and the duration is the probe's value |
| Registry.ChangeStatus | server.js:186-239 | an allowed status change of a consistent record keeps the whole registry consistent |
| Registry.JobRegistry.Lookup | server.js:64 | `jobs.get(id)` is present exactly when the id is in the map, and it is that record |
| Registry.JobRegistry.constructor | server.js:28 | the map starts empty, with no timer armed |
| Registry.JobRegistry.Create | server.js:60 | `jobs.set` files the new record under its fresh id, and nothing else changes |
| Registry.JobRegistry.BeginProbe | server.js:180-186 | a missing job changes nothing; otherwise it becomes `probing` |
| Registry.JobRegistry.FinishProbe | server.js:187-188 | the probed duration is recorded and the job becomes `converting` |
| Registry.JobRegistry.OnTranscodeOutput | server.js:219-231 | one chunk updates only the job's progress, which never goes down and stays at most 99 |
| Registry.JobRegistry.FinishTranscode | server.js:234 | the job becomes `packaging-hls` |
| Registry.JobRegistry.FinishHls | server.js:236 | the job becomes `packaging-dash` |
| Registry.JobRegistry.Complete | server.js:239-241 | the job becomes `done` at progress 100, and its cleanup is scheduled |
| Registry.JobRegistry.ScheduleCleanup | server.js:348-354 | a timer is armed only for a job that exists |
| Registry.JobRegistry.FireCleanup | server.js:354-368 | only an armed timer fires; a missing id changes nothing; otherwise exactly that entry, which was `done`, is deleted and every other one is kept |
| Registry.JobRegistry.Reject | server.js:63-69 | a missing job changes nothing; otherwise it becomes `error` with the message, and its progress is kept |
| Registry.JobRegistry.Convert | server.js:186-232 | after the probe and the transcode's output, the job is `converting` with the probe's duration and the progress the chunks produced in order |
| Registry.JobRegistry.Package | server.js:232-241 | the packaging stages stop at the first failing one with its message; otherwise the job is `done` at 100 with cleanup scheduled |
| Registry.JobRegistry.RunConversion | server.js:180-242 | a missing job changes nothing; otherwise the job ends as `AfterRun` says, its history grows by the run's statuses, and it rejects with the first failing stage's message |
| Registry.JobRegistry.HandleConvert | server.js:32-69 | without a file the answer is "Missing file" and nothing changes; otherwise the job is created, answered with its id, and ends as a run plus the `catch` make it |
| Notifications.UrlsDetermineJob | server.js:112-116 | the download, HLS and DASH links of different jobs never coincide |
| Notifications.SendUpdate | server.js:98-125 | a missing job gives only the `error` event with the stream left open; otherwise exactly one `progress` event, then a `done` event with the three links exactly when done; the stream ends exactly on `done` or `error` |
| Notifications.UpdateOfConsistentJob | server.js:106-124 | for a consistent job, `done` is sent exactly when progress 100 is reported, and the stream ends without `done` exactly when an error is reported |
| Notifications.Tick | server.js:117-128 | one interval tick: the stream only grows, by at most two events; once ended it stays as it is; a missing job never ends it |
| Notifications.Replay | server.js:98-128 | the stream after a sequence of ticks holds at most two events per tick, and it has ended only if some tick saw the job |
| Notifications.TickKeepsWellFormed | server.js:98-128 | one more update keeps the stream well formed, never retracts an event, and writes nothing once the stream has ended |
| Notifications.ReplayWellFormed | server.js:98-128 | over any sequence of job states the client gets at most one `done` event, as the last event, and the stream only ends on `done` or `error` |
| Notifications.ReplayPrefix | server.js:127-128 | the stream after fewer ticks is a prefix of the stream after more |
| Notifications.ReplayAfterEnd | server.js:117-123 | once the interval is cleared, later job changes write nothing |
| Notifications.Subscribe | server.js:86-133 | an unknown job gets 404; a known job's stream opens with its progress event and is well formed |
| Notifications.StatusOf | server.js:72-83 | an unknown job gets 404 "Not found"; otherwise the reply is its id, status, progress and error |
| Notifications.StatusOfRegistry | server.js:72-83 | for a consistent registry the reply names the requested id and reports a percentage, 100 exactly when done, and an error exactly when failed |
| Artifacts.Basename | server.js:151 | POSIX `path.basename`: the result has no `/` and is no longer than the path |
| Artifacts.BasenameIsSegment | server.js:151 | `path.basename` gives a name without `/`, taken right after a `/` (or at the start) and followed only by `/` |
| Artifacts.BasenameEmpty | server.js:151 | the basename is empty exactly when the path is all `/` |
| Artifacts.BasenameOfPlainName | server.js:151 | a name without `/` (`.` and `..` included) is its own basename |
| Artifacts.BasenameIdempotent | server.js:167 | sanitising twice is sanitising once |
| Artifacts.AssetName | server.js:150-151 | the served name has no `/`; an absent or empty request falls back to the default |
| Artifacts.DefaultAssets | server.js:150 | without a name, HLS serves `index.m3u8` and DASH serves `stream.mpd` |
| Artifacts.Download | server.js:135-142 | "Not ready" exactly when the job is missing or not done; otherwise the output file, offered as `<id>.mp4` |
| Artifacts.ServeAsset | server.js:144-157 | "Not ready" exactly when the job is missing or not done; otherwise the sanitised name joined under the directory |
| Artifacts.Hls | server.js:144-158 | the HLS handler answers "Not ready" exactly when the job is missing or not done |
| Artifacts.Dash | server.js:160-174 | the DASH handler answers "Not ready" exactly when the job is missing or not done |
| Artifacts.ServedDirectlyUnderPackage | server.js:150-152 | whatever name is requested, the served path is the package directory, a `/`, and one segment without `/` |
| Client.Clamp | public/app.js:21-24 | the value shown is within [0, 100]: the value itself when in range, otherwise the nearer bound |
| Client.Page.constructor | public/app.js:13-15 | no file, no poll timer, no event source, not busy |
| Client.Page.SetProgress | public/app.js:21-24 | the progress bar holds the clamped value |
| Client.Page.ResetDownload | public/app.js:32-42 | every link is hidden and points at `#` |
| Client.Page.ClearTimers | public/app.js:44-54 | afterwards there is neither a poll timer nor an event source, and the held polling loop is stopped |
| Client.Page.StartPolling | public/app.js:172-173 | a new polling loop starts and is held in `pollTimer`, without a guard |
| Client.Page.HandleFiles | public/app.js:56-66 | an empty list changes nothing; otherwise the first file is selected, every link is hidden and points at `#`, and progress is 0; busy, the job and the channels are kept |
| Client.Page.ConvertClicked | public/app.js:87-97 | without a file only the status "Select a file first." changes; otherwise the page is busy, every link is hidden and points at `#`, progress is 0, and both channels are torn down before the upload; the file and the job are kept |
| Client.Page.ListenProgress | public/app.js:125-170 | opens the event source, or polls when constructing it throws; at most one polling loop results |
| Client.Page.OnUploadReply | public/app.js:99-122 | a job id starts listening; a failed upload or missing id reports the error and leaves the page idle with no channel and the job unchanged; the file, progress and links are never touched |
| Client.Page.OnProgressEvent | public/app.js:128-136 | shows the clamped progress and the status |
| Client.Page.OnDoneEvent | public/app.js:138-159 | shows every link the event carries, reports done at 100, clears busy and tears down both channels |
| Client.Page.OnEventSourceError | public/app.js:161-166 | switches from the event source to exactly one polling loop |
| Client.Page.OnPollTick | public/app.js:173-211 | a non-OK reply keeps polling with nothing changed; a body shows its clamped progress; `done` shows the server's three links, reports 100 and tears down; `error` or a thrown error reports the message, clears busy and tears down; only `done` touches the links |
| Client.ClassifyStatusName | public/app.js:186-201 | the page recognises exactly the server's names for `done` and `error`, and no other status name |
| Client.Page.CopyText | public/app.js:223-231 | an empty link or `#` is not copied and "No link available" is shown; otherwise the clipboard's answer is returned |

## Left out

- Express routing, multer's upload limits, JSON and SSE wire formatting, and
  `res.download`/`sendFile`. These are I/O; each handler's decision is
  modelled. The 404 "Not found" from a failed `sendFile` is not modelled.
- `fs.mkdirSync`, `fs.unlink` and `fs.rm`, including the file removal when a
  cleanup timer fires. A throwing `mkdirSync` inside a packaging stage is
  covered by that stage's `SpawnError(message)` outcome.
- Spawning ffmpeg and ffprobe, and their literal argument lists
  (server.js:190-218, 261-305). Each process's end (spawn error, or close with
  a code or with null) is an input.
- Jobs.ProbeDuration: `parseFloat(output.trim())` filtered by
  `Number.isFinite` is the parameter `finite`. IEEE-754 behaviour of
  `parseFloat`, `Number` and `Math.round` is replaced by exact reals.
- Timestamp.ParseTimestamp: defined only on text over `[0-9:.]`, which is all
  the regex can capture. `Number` on other text is not modelled.
- Timers are not modelled as time: the one-second interval ticks, the
  one-hour cleanup delay and the two-second status flash. A tick or a timer
  firing is an explicit call; the status flash's revert is left out.
- Concurrency is only partly modelled. Each synchronous segment of
  `runConversion` is one atomic method, so other requests can be placed
  between them. `RunConversion` and `HandleConvert` compose the segments with
  nothing in between. The client's handlers are atomic events. A poll tick
  whose request is still in flight when the channels are torn down is not
  modelled.
- Registry.JobRegistry.Create: requires a fresh id. `randomUUID` is taken to
  be collision-free.
- `path.join` normalisation is not modelled: joining is `dir + "/" + name`.
  So Artifacts.ServedDirectlyUnderPackage does not claim confinement. A name
  of `..` passes `basename` unchanged (Artifacts.BasenameOfPlainName), and
  the real `path.join` would resolve it to the job directory.
- Windows semantics of `path.basename` are not modelled, only POSIX.
- DOM updates other than the state the handlers read or reveal: classes,
  disabled inputs and drag-and-drop styling. The clipboard and
  `execCommand` are the input `clipboardAnswer`.
- ProgressExtractor.SixtySecondScenario: the two examples have each
  two-digit field as a parameter fixed by its precondition (`"00"`, `"01"`,
  `"30"`), not a single literal chunk. This keeps the proof within the
  verifier's budget.
- The progress stream's `req.on("close")` handler (server.js:130-132) is
  not modelled as its own step. A client that disconnects simply stops
  receiving: its stream is a prefix of the full one (Notifications.ReplayPrefix).
- Error jobs never get a cleanup timer, so their records and files stay until
  the process exits. The model keeps this behaviour: the registry invariant
  allows timers only for done jobs.
- The client polls forever when the status endpoint keeps answering non-OK,
  for example after a server restart forgot the job.
  Client.Page.OnPollTick states this behaviour; it is not treated as a
  defect.
