# Video enhancer job processing, modelled in Dafny

This project models the server-side core of a video enhancer. That core is two Next.js routes.

- **`app/api/process-video/route.ts`** receives an uploaded video and its quality settings. It stores the upload and creates an entry in an in-memory job map. It then starts an ffmpeg job in the background. The settings become an ordered chain of filter directives: denoise (`hqdn3d`), sharpen (`unsharp`), contrast (`eq`) and a 2× lanczos upscale. Each directive is added only when its own guard holds. The engine's `start`, `progress`, `end` and `error` events overwrite the job's record. A failure handler on the background launch writes a failure record too.
- **`app/api/cleanup/route.ts`** is the retention sweep. It walks the uploads directory and then the output directory. It deletes every file whose age is strictly greater than the retention window, and it reports how many files it deleted.

Files and modules:

- `Wrappers.dfy`: `Option`.
- `Text.dfy`: how JavaScript renders integers and one-decimal numbers, plus `join`/`split`. Each rendering has a parser, and the round trips are proved.
- `Filters.dfy`: the settings, the filter list, its rendering and the filter chain string.
- `Progress.dfy`: the rounding and capping of the engine's percentage, and the phase messages.
- `Storage.dfy`: the two public directories, as a `FileSystem` object that maps each file to its modification time.
- `Jobs.dfy`: the job records, the `JobStore` class with one method per handler, the engine as a sequence of events, `processVideo`, the background launch and the `POST` handler.
- `Cleanup.dfy`: the sweep, as a specification function and as a method with one loop per directory.

Modelling choices:

- **Settings.** They arrive unvalidated, so every numeric field is an unbounded `int`. The denoise slider moves in whole steps. Sharpness and contrast move in steps of 0.1, so they are kept in tenths: contrast 1.0 is `10`.
- **Progress.** The engine's percentage is an `Option<real>`. `None` stands for a percentage that is missing or NaN. `Math.round` is `Floor(x + 1/2)`.
- **The engine.** It is a sequence of events. A launch can also fail before any event arrives. Every handler runs for every event it receives, because the source has no guard after a terminal state. The promise settles on the first terminal event. When that is a failure, the launch's failure handler writes its record at once, before the engine's next event.
- **Job ids, clocks, write outcomes and directory listings.** These are parameters.

Where the route's behaviour may surprise a reader, the model follows the code:

- The recorded progress is not kept monotone. `Jobs.ProgressMayFall` shows a later, lower report overwriting a higher one.
- Progress has no lower clamp. A negative engine percentage is recorded as a negative number; see `Progress.NoLowerClamp`.
- Malformed settings give status 500, not a client error. The settings are parsed before the missing-video check, so this happens even when no video is sent.
- The server applies no size limit to uploads.
- Nothing stops a terminal record from being overwritten if the engine sends more events.

## Model

Each group of rows below is about a specification function that models the cited lines directly:
- `Filters.FilterList`, `Filters.Name`, `Filters.Arguments` and `Filters.Render` model the filter pushes at app/api/process-video/route.ts:93-113.
- `Progress.PhaseOf` and `Progress.Message` model the threshold chain at lines 132-144.
- `Jobs.Record`, `Jobs.Replay` and `Jobs.ReplayCaught` model the writes of the event handlers at lines 123-170 and of the launch's failure handler at lines 60-68. `Jobs.Settle` models the promise settling, and `Jobs.AfterLaunch` models the whole background launch.
- `Cleanup.Visit`, `Cleanup.SweepDir` and `Cleanup.SweepAll` model one iteration, one directory's loop and the whole sweep of app/api/cleanup/route.ts:13-39.

`Storage.FileSystem`'s `WriteFile`, `Stat` and `Unlink` stand in for `fs/promises` and have no rows of their own. `Stat` finds a file's modification time when the file exists. `Unlink` fails, changing nothing, on a missing or undeletable entry.

| member | source | states |
|---|---|---|
| `Text.IntRoundTrip` | app/api/process-video/route.ts:97 | the decimal text interpolated for an integer setting parses back to that integer |
| `Text.TenthsRoundTrip` | app/api/process-video/route.ts:102 | the text of a one-decimal setting (`2`, `1.5`, `-0.5`) parses back to the same number of tenths |
| `Text.SplitJoin` | app/api/process-video/route.ts:116 | splitting a `join(sep)` at `sep` gives the list back when no element contains `sep` |
| `Filters.BuildFilters` | app/api/process-video/route.ts:93-113 | the pushes build exactly the filter list of the settings |
| `Filters.FilterListShape` | app/api/process-video/route.ts:95-113 | the list follows the order denoise, sharpen, contrast, upscale; a filter is present iff its guard holds (`denoise > 0`, `sharpness > 0`, `contrast != 1.0`, `useAI`), with the setting's own value as its parameter |
| `Filters.VideoFilterArgument` | app/api/process-video/route.ts:115-117 | `videoFilters` is skipped, leaving the video unfiltered, exactly when no filter applies |
| `Filters.ChainSplitsIntoDirectives` | app/api/process-video/route.ts:116 | no directive contains a comma, so the chain splits back into the directives one by one |
| `Filters.RenderSplitsIntoArguments` | app/api/process-video/route.ts:97-112 | after `name=`, each directive splits at colons into exactly its arguments |
| `Filters.DenoiseArguments` | app/api/process-video/route.ts:97 | `hqdn3d` gets four identical slots, each holding the denoise value |
| `Filters.SharpenArguments` | app/api/process-video/route.ts:102 | `unsharp` gets `5:5:<sharpness>:5:5:0` |
| `Filters.ContrastArguments` | app/api/process-video/route.ts:107 | `eq` gets a single `contrast=<contrast>` option |
| `Filters.RenderedUpscale` | app/api/process-video/route.ts:112 | the upscale directive is the fixed `scale=iw*2:ih*2:flags=lanczos`, whatever the settings |
| `Filters.RenderInjective` | app/api/process-video/route.ts:96-113 | distinct filters produce distinct directives |
| `Filters.VideoFilterArgumentDeterminesFilters` | app/api/process-video/route.ts:93-117 | two settings that give the same `videoFilters` argument call for the same filter list |
| `Filters.NeutralSettingsPassThrough` | app/api/process-video/route.ts:96-117 | denoise 0, sharpness 0, contrast 1.0 and AI off add no filter and skip `videoFilters` |
| `Filters.AllFourFilters` | app/api/process-video/route.ts:96-117 | denoise 4, sharpness 1.0, contrast 2.0 and AI on give the four directives in order, joined by commas |
| `Progress.Round` | app/api/process-video/route.ts:131 | `Math.round` gives the integer within half a unit, with halves going up |
| `Progress.ReportedPercent` | app/api/process-video/route.ts:131 | the recorded percent is never above 99; it is 99 iff the engine reports at least 98.5, otherwise it is the nearest integer; a missing percent gives 0 |
| `Progress.PhaseIsBandOfTwenty` | app/api/process-video/route.ts:132-144 | the phase is the percent's band of twenty, with everything below 20 in the first band and everything from 80 up in the last; in the first band, `useAI` alone picks upscaling or starting |
| `Progress.PhaseMonotone` | app/api/process-video/route.ts:132-144 | a larger percent never announces an earlier phase |
| `Progress.MessagesDistinct` | app/api/process-video/route.ts:132-144 | each phase has its own message |
| `Progress.FinalizingFrom` | app/api/process-video/route.ts:131-143 | the finalizing message appears exactly when the engine reports 79.5 or more |
| `Progress.NoLowerClamp` | app/api/process-video/route.ts:131 | below 98.5 the recorded percent is exactly the rounded engine percent, with no lower clamp: every engine percent below -0.5 is recorded as a negative number |
| `Jobs.InputFileNameDeterminesJob` | app/api/process-video/route.ts:49 | two UUID-shaped job ids never share an input file name, whatever the extensions |
| `Jobs.VideoUrlDeterminesJob` | app/api/process-video/route.ts:157 | distinct jobs get distinct download URLs and output files |
| `Jobs.CreatedRecord` | app/api/process-video/route.ts:53-57 | creation writes a well-shaped `processing` record at progress 0 |
| `Jobs.StartedRecord` | app/api/process-video/route.ts:123-128 | `start` writes a well-shaped `processing` record at progress 5 |
| `Jobs.ProgressRecord` | app/api/process-video/route.ts:146-150 | `progress` writes a `processing` record whose progress is the capped percent and whose message is that percent's phase |
| `Jobs.CompletedRecord` | app/api/process-video/route.ts:152-158 | `end` writes a `complete` record at 100 that carries the job's `/output/<jobId>_output.mp4` URL and no error |
| `Jobs.FailedRecord` | app/api/process-video/route.ts:161-168 | `error` writes an `error` record at 0 that carries the error's message and no URL |
| `Jobs.LaunchFailureRecord` | app/api/process-video/route.ts:60-68 | the launch's failure handler writes an `error` record at 0 that carries the failure's message |
| `Jobs.LaunchFailureRecordIsFailedRecord` | app/api/process-video/route.ts:60-68 | the failure handler's record is the same as the `error` handler's |
| `Jobs.Record` | app/api/process-video/route.ts:123-168 | every handler writes a well-shaped record: URL iff complete, error iff error |
| `Jobs.ReplayLast` | app/api/process-video/route.ts:123-170 | a run of events leaves the job with its last event's record, whatever came before, and leaves other jobs alone |
| `Jobs.SettleByLast` | app/api/process-video/route.ts:152-170 | under the engine's contract, a run resolves on `end` and rejects with the message on `error` |
| `Jobs.FailureRewriteIsIdempotent` | app/api/process-video/route.ts:60-68 | for every sequence of events, the failure handler's write right after a rejecting `error` leaves the job map as the handlers alone leave it |
| `Jobs.LaunchOutcome` | app/api/process-video/route.ts:60-68 | a launch leaves the job with its last event's record (complete with its URL after `end`, failed with the message after `error`, processing otherwise), or failed with the launch's message, and changes no other job |
| `Jobs.EndAfterFailureCompletes` | app/api/process-video/route.ts:60-68 | `start`, `error`, `end` leaves the job complete: the failure handler runs before the `end` handler, which then overwrites its record |
| `Jobs.AfterLaunchWellShaped` | types/index.ts:10-16 | a launch keeps every record in the map well-shaped |
| `Jobs.ProgressMayFall` | app/api/process-video/route.ts:146-150 | a report of 10 after a report of 50 sets the progress back to 10 |
| `Jobs.EncoderCommand` | app/api/process-video/route.ts:87-122 | the download URL the completion record gives (line 157) names exactly the file the command writes in the output directory (line 87), and the bitrate and preset never change the filter chain |
| `Jobs.BuildCommand` | app/api/process-video/route.ts:90-122 | building the command step by step gives the command above |
| `Jobs.JobStore.constructor` | app/api/process-video/route.ts:10-19 | the job map starts out empty |
| `Jobs.JobStore.Create` | app/api/process-video/route.ts:53-57 | sets only this job's entry, to the creation record, keeping every record well-shaped |
| `Jobs.JobStore.OnStart` | app/api/process-video/route.ts:123-129 | sets only this job's entry, to the start record |
| `Jobs.JobStore.OnProgress` | app/api/process-video/route.ts:130-151 | sets only this job's entry, to the progress record of this report |
| `Jobs.JobStore.OnEnd` | app/api/process-video/route.ts:152-160 | sets only this job's entry, to the completion record |
| `Jobs.JobStore.OnError` | app/api/process-video/route.ts:161-170 | sets only this job's entry, to the failure record of this error |
| `Jobs.JobStore.OnLaunchFailure` | app/api/process-video/route.ts:60-68 | sets only this job's entry, to the launch-failure record |
| `Jobs.JobStore.Handle` | app/api/process-video/route.ts:123-170 | delivers one event to its handler |
| `Jobs.Deliver` | app/api/process-video/route.ts:119-171 | delivering the events in order leaves the map as the handlers' writes, with the failure handler's write right after a rejecting event, and the settlement is the first terminal event |
| `Jobs.ProcessVideo` | app/api/process-video/route.ts:77-173 | builds the command and runs the handlers; a launch that fails first writes only the failure handler's record and rejects |
| `Jobs.Launch` | app/api/process-video/route.ts:60-68 | the background launch leaves the job map as the handlers leave it, with the failure handler's write as soon as the promise rejects |
| `Jobs.SubmitOutcome` | app/api/process-video/route.ts:21-74 | a job id comes back iff the settings parse, a video is present and storage succeeds; malformed settings give 500 even without a video; 400 comes exactly from valid settings with no video |
| `Jobs.Submit` | app/api/process-video/route.ts:21-74 | the upload is written and then the job is created, both only on acceptance; every rejection leaves the files and the job map unchanged; the set of entries `unlink` refuses is never changed |
| `Cleanup.DefaultRetentionWindow` | app/api/cleanup/route.ts:10-11 | with no configuration the window is 24 hours, 86 400 000 ms |
| `Cleanup.SweepDirEffect` | app/api/cleanup/route.ts:17-26 | one directory's loop only removes listed files of that directory whose age exceeds the window, removes all of them unless a `stat` or `unlink` fails, never removes an undeletable entry, changes no modification time, and adds one to the count per removal |
| `Cleanup.SweepAllEffect` | app/api/cleanup/route.ts:13-44 | a successful sweep deletes exactly the listed expired files, and `deletedFiles` equals the number of files gone from both directories |
| `Cleanup.UndeletableExpiredFileFails` | app/api/cleanup/route.ts:22-24 | a listed, expired entry that `unlink` cannot remove makes the sweep fail |
| `Cleanup.MissingInDirFails` | app/api/cleanup/route.ts:17-20 | a listed name with no file behind it makes its `stat` reject and the directory's loop fail |
| `Cleanup.MissingListedFileFails` | app/api/cleanup/route.ts:15-33 | a listed name in either directory with no file behind it makes the whole sweep fail |
| `Cleanup.NothingRejectsInDir` | app/api/cleanup/route.ts:17-26 | a loop over distinct names, each with a file behind it and none both expired and undeletable, succeeds |
| `Cleanup.NothingRejectsSucceeds` | app/api/cleanup/route.ts:13-44 | when every listed name has a file and no listed expired entry is undeletable, the sweep succeeds |
| `Cleanup.UploadsBeforeOutput` | app/api/cleanup/route.ts:15-39 | if the uploads loop fails, the sweep ends in exactly the state that loop left, so its deletions stay made and no output file has been touched |
| `Cleanup.MissingDirectoriesAreEmpty` | app/api/cleanup/route.ts:16-29 | unreadable directories count as empty: nothing is deleted and the count is 0 |
| `Cleanup.OneOldOneNew` | app/api/cleanup/route.ts:17-38 | with one file older than the window and one newer, only the older is deleted and the count is 1; a file whose age equals the window is kept |
| `Cleanup.CleanDirectory` | app/api/cleanup/route.ts:17-26 | the loop's effect on the files, the count and the success flag is the specification's; it stops at the first `stat` or `unlink` that rejects |
| `Cleanup.Clean` | app/api/cleanup/route.ts:6-50 | the route's file effect is the specified sweep; it reports `deletedFiles` on success and fails when a `stat` or an `unlink` rejects |

## Left out

- Concurrency: jobs, pollers and the sweep interleave in the running server, but every operation here runs to completion before the next one starts. `Jobs.Submit` only creates the job. `Jobs.Launch` is the background work, run afterwards with the same job id.
- HTTP framing, `formData()` parsing, JSON response bodies and `console.error` logging are not modelled. A response is reduced to its outcome and status code.
- The ffmpeg engine is not modelled: its dynamic imports, `setFfmpegPath` and the fluent builder. A failure before the engine runs is the `LaunchFailed` case, and the engine itself is the sequence of events it emits. The command is a value. `videoBitrate` and the preset are passed through.
- Directory creation (`mkdir`) and the outcome of writing the upload are folded into one `storageOk` parameter. A failed write leaves no partial file.
- `uuidv4()` is a parameter; only its character set is assumed, in `Jobs.InputFileNameDeterminesJob`. `path.extname` is a parameter, the upload's `extension`. Upload bytes are not modelled.
- Settings of another shape are not modelled. This covers strings in numeric fields and a missing `settings` field, which `JSON.parse` turns into `null` and which then fails inside the worker. Settings are either well-formed or unparsable.
- Text.IntToString: writes every integer in plain digits, and `Text.TenthsToString` writes every number of tenths in plain digits too. JavaScript switches to exponent notation from 10^21 in magnitude (`1e+21`), for an integer setting and for a tenths setting alike. That is far beyond any slider value, so the model does not cover that notation.
- Floating point is not modelled. Sharpness and contrast are exact tenths; a slider value such as 0.30000000000000004 would render differently.
- The initial "Processando vídeo..." message is never recorded, because every branch of the threshold chain overwrites it, so it is not modelled.
- Cleanup.Clean: reads the clock once for the whole sweep, where the route calls `Date.now()` once per file. A file can therefore cross the window during a sweep in the route but not in the model.
- Cleanup.Clean: takes the retention hours as an already-parsed integer. A `FILE_RETENTION_HOURS` that `parseInt` turns into NaN makes every age comparison false in the route; the model does not cover it.
- The listings returned by `readdir` are parameters, in whatever order the caller gives them. `Cleanup.NothingRejectsSucceeds` assumes, as `readdir` guarantees, that no name is listed twice. A listed name with no file behind it makes `stat` fail, as in the route. Every reason for `unlink` to reject an existing entry (a sub-directory, a missing permission) is one set of undeletable paths.
- The progress and download routes, the health probe, the React page (including its client-side 500 MB check) and the UI components are not part of this model.
