# Clip generator backend: job state model

This project models the job-state core of a small clip generator service
(`app.js`). A client submits a video URL. The service starts a job, downloads
the video with an external downloader, cuts three fixed 20-second highlight
segments with an external transcoder, and reports progress through a polling
endpoint.

All job state lives in three process-wide dictionaries keyed by job id:

- `progressMap`: a percentage, or -1 for a failed job;
- `stepMap`: a human-readable step text;
- `resultMap`: the clip list, written only when a job finishes.

The model has four modules:

- `Wrappers` (`wrappers.dfy`): an `Option` type, standing for JavaScript's `undefined`/`null` and the `??` operator.
- `Jobs` (`jobs.dfy`): the pure parts. These are the progress read with its defaults, the URL check, the construction of clip records and clip URLs, and the progress formula. It also holds a specification of one pipeline run, given the outcomes of the external tools: which external calls it makes, which writes it makes to the three dictionaries and in what order, and what it leaves in the store.
- `JobProperties` (`job_properties.dfy`): the properties of that specification, proved as lemmas.
- `JobServer` (`job_store.dfy`): the imperative part. A `JobStore` class holds the three dictionaries as `map` fields, and a ghost field `history` holds every write made to them, in order. Each assignment of the service is one call of `WriteProgress`, `WriteStep` or `WriteResult`. Each of these updates one entry and appends that write to `history`. The class's other methods are the submission handler, the pipeline with its cutting loop, and the progress read. Each method that changes state states exactly what the three maps and the write log hold afterwards.

The external world enters as parameters:

- the downloader's outcome (`downloadOk`) and one outcome per cut (`cutOk`);
- the identifiers the UUID generator would return (`newId`, `clipIds`);
- the `PORT` environment variable (`env`), from which `PortText` computes the port text used in clip URLs.

The pipeline's contract fixes the sequence of writes it appends to `history`, and not only the final maps. The lemmas state the progress values and step texts written, in order; they also show that replaying the writes gives the final maps. The pipeline also returns the external calls it made, in order.

The model follows the code in these details:

- there is no expiry timer, so job records are never removed;
- clip URLs are hard-wired to `http://localhost:<PORT>/clips/<file>`;
- the final step text is "Finalizing clips…".

## Model

| member | source | states |
|---|---|---|
| `Wrappers.Option.GetOr` | app.js:41-43 | the `??` default: the stored value when present, the default otherwise |
| `Jobs.Poll` | app.js:40-44 | each field of a progress read comes from its own map; an id in none of the maps reads as progress 0, step "Preparing…", clips null; clips are present exactly when the result map has the id |
| `JobServer.JobStore.Read` | app.js:37-45 | the progress endpoint returns the store's snapshot for the id, with the defaults for an unknown id |
| `Jobs.AcceptsUrl` | app.js:53 | a submission is accepted exactly when the URL is present and begins with the four characters "http" (so missing, empty and non-http URLs are rejected) |
| `JobServer.SubmitResponse.Status` | app.js:54-70 | an accepted submission is answered with 200, a rejected one with 400 |
| `JobServer.JobStore.Submit` | app.js:50-70 | a rejected URL gives 400 with the fixed error text and leaves all three maps and the write log unchanged; an accepted one answers with the new id, writes progress 0 then step "Starting…" for it (both logged) and leaves the clip map alone, so a never-seen id then reads back with clips null; the clips-iff-done invariant is kept for such an id |
| `Jobs.PortText` | app.js:20 | the port in clip URLs is the PORT variable when set and non-empty, else 4000 |
| `Jobs.DecimalText` | app.js:128 | the decimal rendering of a number is a non-empty string of digits that reads back as the number, one digit long exactly below 10, and starting with 0 only for 0 itself |
| `JobProperties.TitleText` | app.js:128 | the title of the clip at position i is "Highlight " followed by the decimal numeral of i + 1, without leading zeros |
| `JobProperties.FirstTitles` | app.js:128 | the clips at positions 0, 1, 2 are titled "Highlight 1", "Highlight 2", "Highlight 3" |
| `Jobs.VideoFileName` | app.js:75 | the downloaded video of a job is named by the job id followed by ".mp4" |
| `JobProperties.VideoFilesDistinct` | app.js:75 | two jobs download into the same file exactly when they have the same id |
| `JobProperties.ClipUrlText` | app.js:130-131 | a clip's URL (built from the file name of app.js:109) is "http://localhost:", the port, "/clips/clip-", the clip id and ".mp4" |
| `JobProperties.ClipUrlsDistinct` | app.js:130-131 | on one port, two clips have the same URL exactly when they have the same clip id |
| `Jobs.MakeClip` | app.js:126-132 | the record pushed after a cut carries the clip id, the title for its position, the duration "00:20", and equal preview and download URLs |
| `Jobs.CutProgress` | app.js:123-124 | after the k-th successful cut progress is 30 + 20k (30 plus k thirds of 60, rounded down) |
| `Jobs.ProgressUpTo` | app.js:93-124 | after the download and k successful cuts the progress values written number k + 1, starting at 30 and ending at 30 + 20k |
| `JobProperties.ProgressUpToAt` | app.js:93-124 | after the download and k successful cuts the progress values written are 30, 50, …, 30 + 20k, one per step |
| `Jobs.LeadingSuccesses` | app.js:107-121 | the number of cuts that succeed before the first failing one: all cuts before it succeeded and the cut at that position failed |
| `Jobs.CutsAttempted` | app.js:87-121 | a run starts at most one cut per fixed segment |
| `Jobs.CutCall` | app.js:109-121 | the cut of the segment at position i reads the job's video, starts at 10 + 30i seconds, lasts 20 seconds and writes `clip-<id>.mp4` |
| `Jobs.CallsUpTo` | app.js:87-121 | after k cuts have been started, the run has made exactly k + 1 external calls, the first being the download into the job's video file |
| `JobProperties.CallsUpToAt` | app.js:87-121 | the first external call is the download into `<jobId>.mp4`; the call after it at offset i cuts the i-th fixed segment into `clip-<id>.mp4` |
| `Jobs.ToolCalls` | app.js:87-121 | a run makes one download call, first, then one call per cut started |
| `Jobs.ClipsUpTo` | app.js:100-132 | after k successful cuts the clip list has exactly k entries |
| `JobProperties.ClipsUpToAt` | app.js:126-132 | the clip at position i is the record built for the i-th cut, with the i-th clip id |
| `JobProperties.StoredClip` | app.js:126-132 | each clip of a full clip list has its clip id, duration "00:20", and preview URL equal to download URL `http://localhost:<port>/clips/clip-<id>.mp4` |
| `Jobs.RunResult` | app.js:138-150 | a run ends with progress 100 or -1; it ends with 100 exactly when the download and every cut succeed; a clip list is stored exactly when progress is 100 |
| `Jobs.ProgressTrace` | app.js:93-150 | the progress values a run writes: just -1 when the download fails; otherwise 30, one value per successful cut, and a last value that is 100 on success and -1 on failure |
| `Jobs.CutWrites` | app.js:123-124 | the cutting loop makes one progress write per successful cut |
| `JobProperties.CutWritesObserved` | app.js:107-133 | the cutting loop's writes are progress writes of the job with 50, 70, 90 in order, up to the first failure; it writes no step text |
| `JobProperties.ReplayCutWrites` | app.js:107-133 | after the cutting loop only the job's progress entry has changed, to the value for the last successful cut |
| `JobProperties.CuttingProgress` | app.js:93-150 | after the download the progress values written, in order, are 30, then one value per successful cut, then 100 or -1 |
| `JobProperties.CuttingSteps` | app.js:98-150 | after the download the step texts written, in order, are "Cutting highlight clips…", then "Finalizing clips…" on success or "Processing failed" on failure |
| `JobProperties.CuttingWritesOwnJob` | app.js:93-150 | every write after the download is to the job's own entries |
| `JobProperties.RunProgress` | app.js:85-150 | the progress values among a run's writes are exactly those of `ProgressTrace` |
| `JobProperties.RunSteps` | app.js:85-150 | the step texts among a run's writes are "Downloading video…" then "Processing failed" when the download fails; otherwise "Downloading video…", "Cutting highlight clips…", then "Finalizing clips…" or "Processing failed" |
| `JobProperties.RunOwnJob` | app.js:85-150 | every write of a run is to the run's own job id |
| `JobProperties.RunWritesObserved` | app.js:85-150 | the writes of a run, in order: each is to the job's own entries, the progress values written are those of `ProgressTrace`, and the step texts written are those of `RunSteps` |
| `JobProperties.ReplayCutting` | app.js:93-150 | replaying the writes made after the download over any store changes only the job's entries and leaves them as `RunResult` says |
| `JobProperties.ReplayRun` | app.js:85-150 | replaying a run's writes over any store changes only the job's three entries and leaves them as `RunResult` says, so the write log and the final state agree |
| `JobProperties.ProgressObserved` | app.js:63-149 | the progress values written, in order, from the 0 written at submission on, are strictly increasing and below 100 until the last write; the last write is 100 on success and -1 on failure; a successful run writes exactly 0, 30, 50, 70, 90, 100 |
| `JobProperties.SubmissionProgress` | app.js:63-149 | the progress values a whole submission writes, in order, are the 0 of the initialisation followed by those of `ProgressTrace`, so `ProgressObserved` speaks of exactly the values the handler writes |
| `JobProperties.SuccessfulRun` | app.js:107-140 | a successful run ends with progress 100, step "Finalizing clips…" and three clips in order titled Highlight 1, 2, 3, each with duration "00:20", preview URL equal to download URL `http://localhost:<port>/clips/clip-<id>.mp4`, and the supplied clip ids, so distinct ids give pairwise distinct clips |
| `JobProperties.SuccessfulRunCalls` | app.js:75-121 | a successful run downloads into `<jobId>.mp4`, then cuts (10 s, 20 s), (40 s, 20 s), (70 s, 20 s) in that order |
| `JobProperties.FailedRun` | app.js:85-150 | a run whose download or some cut fails ends with progress -1, step "Processing failed" and no clip list; it makes the download call and then only the cuts up to the failing one; every cut started before the last succeeded; with a downloaded video the last cut started is the one that failed; without one no cut is started |
| `JobProperties.OtherJobsUnaffected` | app.js:85-150 | writing one job's entries leaves every other job's read unchanged |
| `JobProperties.RecordKeepsClipsIffDone` | app.js:138-150 | writing a job with no clips yet, with progress 100 exactly when clips are written, keeps the store-wide invariant that a job has clips exactly when its progress is 100 |
| `JobServer.JobStore.constructor` | app.js:15-17 | the store starts with three empty maps and an empty write log |
| `JobServer.JobStore.WriteProgress` | app.js:63-149 | one assignment to the progress map (lines 63, 93, 123-124, 139 and 149): that entry changes, the other maps do not, and the write is appended to the log |
| `JobServer.JobStore.WriteStep` | app.js:64-150 | one assignment to the step map (lines 64, 85, 98, 138 and 150): that entry changes, the other maps do not, and the write is appended to the log |
| `JobServer.JobStore.WriteResult` | app.js:140 | one assignment to the clip map: that entry changes, the other maps do not, and the write is appended to the log |
| `JobServer.JobStore.Fail` | app.js:147-150 | the catch block sets the job's progress to -1, then its step to "Processing failed", and leaves its clip entry alone |
| `JobServer.JobStore.Finish` | app.js:138-140 | the final stage writes step "Finalizing clips…", then progress 100, then the clip list |
| `JobServer.JobStore.CutSegments` | app.js:107-133 | the cutting loop starts cuts in segment order up to the first failure; after each success it writes the progress for that many cuts and appends the clip record; it returns the calls and clips the specification functions give, logs exactly `CutWrites` for the successful cuts, and changes only this job's progress entry |
| `JobServer.JobStore.AfterDownload` | app.js:93-150 | the run after the download writes progress 30 and step "Cutting highlight clips…", runs the cutting loop, then finishes or fails; its log is exactly `CuttingWrites`, and the job's entries end as `RunResult` says |
| `JobServer.JobStore.RunPipeline` | app.js:72-151 | one pipeline run makes exactly the external calls of `ToolCalls` and appends exactly the writes of `RunWrites` to the log, whose progress values and step texts, in order, are those `RunWritesObserved` lists; afterwards the job's three entries are those of `RunResult`; no other key of any map changes; the clips-iff-done invariant is kept for a job with no clips yet |
| `JobServer.JobStore.ProcessVideo` | app.js:50-152 | a whole submission, with clip URLs on the port `PortText` gives: a rejected URL changes nothing, logs nothing and makes no external call; an accepted one answers with the new id, logs the initialisation and then the run's writes, and leaves the new job's three entries as `RunResult` says and every other entry as before; a fresh job then reads back as `RunResult` says |

## Left out

- HTTP routing, CORS, JSON body parsing, static serving of clip files and the liveness endpoint (app.js:19-32, 154-156): plumbing with no logic.
- The downloader and the transcoder (app.js:87-91, 112-121) are foreign processes. A download call keeps the URL and the output file name; a cut call keeps the input file name, the start second, the duration and the output file name. Whether each call succeeds is a flag supplied by the caller. The downloader's fixed `format` and `mergeOutputFormat` options (app.js:89-90) and the transcoder's `-movflags faststart` output option (app.js:116) are not modelled.
- UUID generation (app.js:60, 108) is a foreign library. Its ids are parameters. Freshness is a hypothesis where a property needs it, never a requirement of the handlers.
- Filesystem operations: the directory check and creation (app.js:78-80), the removal of the downloaded video (app.js:142-144), console logging, and the directory part of the video and clip paths. Faults in these are not modelled. In the code, a fault in the removal at app.js:143 would set progress -1 after clips were already stored. The model assumes the removal does not fault, and the clips-iff-done invariant holds under that assumption.
- The fire-and-forget ordering of the response and the pipeline, and interleavings of concurrent jobs (app.js:66-72): one run is a sequential method. Independence across jobs is stated as a frame condition: only the run's own job id changes in any map.
- The floating-point formula `Math.floor(((i + 1) / 3) * 60)` (app.js:123-124) is replaced by integer division. For the three fixed segments both give 50, 70 and 90.
- Submission bodies whose `youtubeUrl` is not a string (a number, say): in the code, `startsWith` would throw outside the try block. The model takes the field as an optional string.
- JavaScript object keys that collide with inherited properties (a job id such as "constructor") are not modelled. The three dictionaries are plain maps.
- A job-expiry timer is not modelled because the code has none.
- What a poller actually sees is not modelled. The handler yields to the event loop only while it waits for the downloader (app.js:87) or the transcoder (app.js:112-121), and after the run, so a poll is served only at those points. A poller therefore sees a subsequence of the write log: never "Starting…" (it is overwritten before the first wait), never progress 30 together with "Downloading video…", and never the 90 of the third cut (the final writes overwrite it before the handler yields again). On success it sees progress 0 with "Downloading video…", then 30, 50 and 70 with "Cutting highlight clips…", then 100 with "Finalizing clips…" and the clips. The lemmas state the values written, in order, not which of them a poll can catch.
