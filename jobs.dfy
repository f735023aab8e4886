/**
 * The job-state vocabulary of the clip generator backend and the pure parts of
 * its request handling: the progress read with its defaults, the URL check of
 * a submission, the construction of clip records, and a specification of what
 * one run of the download-and-cut pipeline does, given the outcomes of the two
 * external tools.
 */
module Jobs {
  import opened Wrappers

  /** A job identifier (a UUID string in the service). */
  type JobId = string
  /** A clip identifier, generated independently of the job's. */
  type ClipId = string

  /** One clip record as the progress endpoint returns it. */
  datatype Clip = Clip(id: ClipId, title: string, duration: string, previewUrl: string, downloadUrl: string)

  /** The body of a progress read: progress, step text and the clip list or null. */
  datatype Snapshot = Snapshot(progress: int, step: string, clips: Option<seq<Clip>>)

  /** A fixed highlight segment: start offset and duration, in seconds. */
  datatype Segment = Segment(start: nat, duration: nat)

  /** A call into an external program, in the order the pipeline makes it. */
  datatype ToolCall =
    | Download(url: string, output: string)
    | Cut(input: string, start: nat, duration: nat, output: string)

  // Step texts, in the order a run writes them.
  const Preparing := "Preparing…"
  const Starting := "Starting…"
  const Downloading := "Downloading video…"
  const Cutting := "Cutting highlight clips…"
  const Finalizing := "Finalizing clips…"
  const Failed := "Processing failed"

  const InvalidUrlError := "Invalid or missing YouTube URL"

  // Progress values.
  const FailedProgress: int := -1
  const DownloadedProgress: int := 30
  const CutSpan: int := 60
  const DoneProgress: int := 100

  const ClipDuration := "00:20"
  const DefaultPort := "4000"

  /** The three segments cut from every video, in order. */
  const Segments: seq<Segment> := [Segment(10, 20), Segment(40, 20), Segment(70, 20)]

  /* ---------------------------------------------------------------------
     Progress read
     --------------------------------------------------------------------- */

  /**
   * What a poll of `id` returns: each field comes from its own map, with
   * progress 0, step "Preparing…" and clips null for an absent key.
   */
  function Poll(progressMap: map<JobId, int>, stepMap: map<JobId, string>,
                resultMap: map<JobId, seq<Clip>>, id: JobId): (s: Snapshot)
    ensures id !in progressMap && id !in stepMap && id !in resultMap ==>
              s == Snapshot(0, Preparing, None)
    ensures s.progress == (if id in progressMap then progressMap[id] else 0)
    ensures s.step == (if id in stepMap then stepMap[id] else Preparing)
    ensures s.clips.Some? <==> id in resultMap
    ensures id in resultMap ==> s.clips.value == resultMap[id]
  {
    Snapshot(Lookup(progressMap, id).GetOr(0), Lookup(stepMap, id).GetOr(Preparing), Lookup(resultMap, id))
  }

  /** A dictionary read: `None` for a key that is absent. */
  function Lookup<V>(m: map<JobId, V>, id: JobId): Option<V> {
    if id in m then Some(m[id]) else None
  }

  /** A second write to the same key hides the first. */
  lemma OverwriteEntry<V>(m: map<JobId, V>, id: JobId, first: V, second: V)
    ensures m[id := first][id := second] == m[id := second]
  {
  }

  /* ---------------------------------------------------------------------
     Submission check
     --------------------------------------------------------------------- */

  predicate StartsWith(s: string, prefix: string) {
    |prefix| <= |s| && s[..|prefix|] == prefix
  }

  /**
   * The submission check: the URL must be present, non-empty (JavaScript
   * falsiness) and begin with "http".
   */
  function AcceptsUrl(youtubeUrl: Option<string>): (ok: bool)
    ensures ok <==> youtubeUrl.Some? && |youtubeUrl.value| >= 4 &&
                    youtubeUrl.value[0] == 'h' && youtubeUrl.value[1] == 't' &&
                    youtubeUrl.value[2] == 't' && youtubeUrl.value[3] == 'p'
  {
    !(youtubeUrl.None? || youtubeUrl.value == "" || !StartsWith(youtubeUrl.value, "http"))
  }

  /* ---------------------------------------------------------------------
     Clip records
     --------------------------------------------------------------------- */

  /** The port text used in clip URLs: the PORT variable, or 4000 when it is unset or empty. */
  function PortText(env: Option<string>): (port: string)
    ensures env.Some? && env.value != "" ==> port == env.value
    ensures env.None? || env.value == "" ==> port == DefaultPort
  {
    if env.Some? && env.value != "" then env.value else DefaultPort
  }

  /** The number a string of decimal digits denotes. */
  function DecimalValue(s: string): nat
    requires forall i :: 0 <= i < |s| ==> '0' <= s[i] <= '9'
    decreases |s|
  {
    if s == [] then 0
    else DecimalValue(s[..|s| - 1]) * 10 + (s[|s| - 1] as int - '0' as int)
  }

  /** The decimal text of a natural number, as a template literal renders it. */
  function DecimalText(n: nat): (s: string)
    ensures |s| >= 1
    ensures forall i :: 0 <= i < |s| ==> '0' <= s[i] <= '9'
    ensures DecimalValue(s) == n
    ensures n < 10 <==> |s| == 1
    ensures s[0] == '0' <==> n == 0
    decreases n
  {
    if n < 10 then [('0' as int + n) as char]
    else
      var front, last := DecimalText(n / 10), [('0' as int + n % 10) as char];
      assert (front + last)[..|front + last| - 1] == front;
      assert (front + last)[0] == front[0];
      front + last
  }

  /** Title of the clip at 0-based position `i`: "Highlight " and the 1-based position in decimal. */
  function Title(i: nat): string {
    "Highlight " + DecimalText(i + 1)
  }

  /** Name of the file a clip is written to. */
  function ClipFileName(clipId: ClipId): string {
    "clip-" + clipId + ".mp4"
  }

  /** Public URL of a clip file: host and port are fixed to localhost and PORT. */
  function ClipUrl(port: string, fileName: string): string {
    "http://localhost:" + port + "/clips/" + fileName
  }

  /** Name of the downloaded source video of a job: the job id and ".mp4". */
  function VideoFileName(jobId: JobId): (name: string)
    ensures |name| == |jobId| + 4
    ensures name[..|jobId|] == jobId && name[|jobId|..] == ".mp4"
  {
    jobId + ".mp4"
  }

  /** The record pushed after the cut at 0-based position `i` succeeds. */
  function MakeClip(i: nat, clipId: ClipId, port: string): (c: Clip)
    ensures c.id == clipId && c.title == Title(i) && c.duration == ClipDuration
    ensures c.previewUrl == c.downloadUrl
  {
    var url := ClipUrl(port, ClipFileName(clipId));
    Clip(clipId, Title(i), ClipDuration, url, url)
  }

  /** The clip list after the first `k` cuts have succeeded. */
  function ClipsUpTo(clipIds: seq<ClipId>, port: string, k: nat): (clips: seq<Clip>)
    requires k <= |clipIds|
    ensures |clips| == k
    decreases k
  {
    if k == 0 then [] else ClipsUpTo(clipIds, port, k - 1) + [MakeClip(k - 1, clipIds[k - 1], port)]
  }

  /* ---------------------------------------------------------------------
     Progress during cutting
     --------------------------------------------------------------------- */

  /**
   * Progress written after the k-th successful cut: 30 plus k thirds of 60,
   * rounded down.
   */
  function CutProgress(k: nat): (p: int)
    ensures p == DownloadedProgress + 20 * k
  {
    DownloadedProgress + (k * CutSpan) / |Segments|
  }

  /** The progress values written once the video is downloaded and the first `k` cuts have succeeded. */
  function ProgressUpTo(k: nat): (ps: seq<int>)
    ensures |ps| == k + 1
    ensures ps[0] == DownloadedProgress && ps[k] == DownloadedProgress + 20 * k
    decreases k
  {
    if k == 0 then [DownloadedProgress] else ProgressUpTo(k - 1) + [CutProgress(k)]
  }

  /* ---------------------------------------------------------------------
     Specification of one pipeline run
     --------------------------------------------------------------------- */

  /** Tool outcomes are well formed when there is one per fixed segment, and one clip id per cut. */
  predicate WellFormedRun(cutOk: seq<bool>, clipIds: seq<ClipId>) {
    |cutOk| == |Segments| && |clipIds| == |Segments|
  }

  /** How many cuts succeed before the first failure (all of them when none fails). */
  function LeadingSuccesses(ok: seq<bool>): (r: nat)
    ensures r <= |ok|
    ensures forall i :: 0 <= i < r ==> ok[i]
    ensures r < |ok| ==> !ok[r]
    decreases |ok|
  {
    if ok == [] || !ok[0] then 0 else 1 + LeadingSuccesses(ok[1..])
  }

  /** The count of leading successes is the position of the first failure. */
  lemma LeadingSuccessesIs(ok: seq<bool>, i: nat)
    requires i <= |ok|
    requires forall j :: 0 <= j < i ==> ok[j]
    requires i < |ok| ==> !ok[i]
    ensures LeadingSuccesses(ok) == i
  {
  }

  /** A run succeeds when the download and every cut succeed. */
  predicate Succeeds(downloadOk: bool, cutOk: seq<bool>) {
    downloadOk && LeadingSuccesses(cutOk) == |cutOk|
  }

  /** How many cuts a run starts: none without a video, else up to and including the first failing one. */
  function CutsAttempted(downloadOk: bool, cutOk: seq<bool>): (n: nat)
    ensures n <= |cutOk|
  {
    if !downloadOk then 0
    else if LeadingSuccesses(cutOk) == |cutOk| then |cutOk|
    else LeadingSuccesses(cutOk) + 1
  }

  /** The cut requested for the segment at 0-based position `i`. */
  function CutCall(jobId: JobId, i: nat, clipId: ClipId): (call: ToolCall)
    requires i < |Segments|
    ensures call == Cut(VideoFileName(jobId), 10 + 30 * i, 20, ClipFileName(clipId))
  {
    Cut(VideoFileName(jobId), Segments[i].start, Segments[i].duration, ClipFileName(clipId))
  }

  /** The external calls made once the first `k` cuts have been started: the download, then the cuts. */
  function CallsUpTo(url: string, jobId: JobId, clipIds: seq<ClipId>, k: nat): (calls: seq<ToolCall>)
    requires k <= |clipIds| && k <= |Segments|
    ensures |calls| == k + 1
    ensures calls[0] == Download(url, VideoFileName(jobId))
    decreases k
  {
    if k == 0 then [Download(url, VideoFileName(jobId))]
    else CallsUpTo(url, jobId, clipIds, k - 1) + [CutCall(jobId, k - 1, clipIds[k - 1])]
  }

  /** The external calls a run makes, in order: one download, then the attempted cuts. */
  function ToolCalls(url: string, jobId: JobId, downloadOk: bool, cutOk: seq<bool>,
                     clipIds: seq<ClipId>): (calls: seq<ToolCall>)
    requires WellFormedRun(cutOk, clipIds)
    ensures |calls| == 1 + CutsAttempted(downloadOk, cutOk)
    ensures calls[0] == Download(url, VideoFileName(jobId))
  {
    CallsUpTo(url, jobId, clipIds, CutsAttempted(downloadOk, cutOk))
  }

  /** The progress values a run writes for its job, in order. */
  function ProgressTrace(downloadOk: bool, cutOk: seq<bool>): (trace: seq<int>)
    ensures !downloadOk ==> trace == [FailedProgress]
    ensures downloadOk ==> |trace| == LeadingSuccesses(cutOk) + 2 && trace[0] == DownloadedProgress
    ensures |trace| >= 1 && trace[|trace| - 1] == (if Succeeds(downloadOk, cutOk) then DoneProgress else FailedProgress)
  {
    if !downloadOk then [FailedProgress]
    else ProgressUpTo(LeadingSuccesses(cutOk)) +
         [if Succeeds(downloadOk, cutOk) then DoneProgress else FailedProgress]
  }

  /** What a run leaves for its job: the finished snapshot, or the failure state with no clips. */
  function RunResult(downloadOk: bool, cutOk: seq<bool>, clipIds: seq<ClipId>, port: string): (r: Snapshot)
    requires WellFormedRun(cutOk, clipIds)
    ensures r.progress == DoneProgress || r.progress == FailedProgress
    ensures r.clips.Some? <==> r.progress == DoneProgress
    ensures r.progress == DoneProgress <==> Succeeds(downloadOk, cutOk)
  {
    if Succeeds(downloadOk, cutOk)
    then Snapshot(DoneProgress, Finalizing, Some(ClipsUpTo(clipIds, port, |Segments|)))
    else Snapshot(FailedProgress, Failed, None)
  }

  /** The store-wide invariant: a job has a clip list exactly when its progress is 100. */
  ghost predicate ClipsIffDone(progressMap: map<JobId, int>, resultMap: map<JobId, seq<Clip>>) {
    && (forall id :: id in resultMap ==> id in progressMap && progressMap[id] == DoneProgress)
    && (forall id :: id in progressMap && progressMap[id] == DoneProgress ==> id in resultMap)
  }

  /* ---------------------------------------------------------------------
     Writes to the store, in the order they are made
     --------------------------------------------------------------------- */

  /** One assignment to one entry of one of the three dictionaries. */
  datatype Write =
    | ProgressWrite(id: JobId, progress: int)
    | StepWrite(id: JobId, step: string)
    | ResultWrite(id: JobId, clips: seq<Clip>)

  /** The three dictionaries as one value. */
  datatype Tables = Tables(progressMap: map<JobId, int>, stepMap: map<JobId, string>,
                           resultMap: map<JobId, seq<Clip>>)

  function Apply(t: Tables, w: Write): Tables {
    match w
    case ProgressWrite(id, p) => t.(progressMap := t.progressMap[id := p])
    case StepWrite(id, text) => t.(stepMap := t.stepMap[id := text])
    case ResultWrite(id, clips) => t.(resultMap := t.resultMap[id := clips])
  }

  /** The dictionaries after the writes `ws`, in order, starting from `t`. */
  function Replay(t: Tables, ws: seq<Write>): Tables
    decreases |ws|
  {
    if ws == [] then t else Replay(Apply(t, ws[0]), ws[1..])
  }

  /** The progress values among `ws`, in order. */
  function ProgressValues(ws: seq<Write>): seq<int>
    decreases |ws|
  {
    if ws == [] then []
    else (if ws[0].ProgressWrite? then [ws[0].progress] else []) + ProgressValues(ws[1..])
  }

  /** The step texts among `ws`, in order. */
  function StepTexts(ws: seq<Write>): seq<string>
    decreases |ws|
  {
    if ws == [] then []
    else (if ws[0].StepWrite? then [ws[0].step] else []) + StepTexts(ws[1..])
  }

  /** The initialisation of an accepted submission. */
  function SubmitWrites(jobId: JobId): seq<Write> {
    [ProgressWrite(jobId, 0), StepWrite(jobId, Starting)]
  }

  /** The catch block. */
  function FailWrites(jobId: JobId): seq<Write> {
    [ProgressWrite(jobId, FailedProgress), StepWrite(jobId, Failed)]
  }

  /** The final stage of a successful run. */
  function FinishWrites(jobId: JobId, clips: seq<Clip>): seq<Write> {
    [StepWrite(jobId, Finalizing), ProgressWrite(jobId, DoneProgress), ResultWrite(jobId, clips)]
  }

  /** The writes of the cutting loop once the first `k` cuts have succeeded: one progress value per cut. */
  function CutWrites(jobId: JobId, k: nat): (ws: seq<Write>)
    ensures |ws| == k
    decreases k
  {
    if k == 0 then [] else CutWrites(jobId, k - 1) + [ProgressWrite(jobId, CutProgress(k))]
  }

  /** The writes of a run once the video is downloaded: progress 30, the cutting step, the cuts, then the end. */
  function CuttingWrites(jobId: JobId, cutOk: seq<bool>, clipIds: seq<ClipId>, port: string): seq<Write>
    requires WellFormedRun(cutOk, clipIds)
  {
    [ProgressWrite(jobId, DownloadedProgress), StepWrite(jobId, Cutting)]
    + CutWrites(jobId, LeadingSuccesses(cutOk))
    + (if Succeeds(true, cutOk) then FinishWrites(jobId, ClipsUpTo(clipIds, port, |Segments|))
       else FailWrites(jobId))
  }

  /** Every write one pipeline run makes, in order, given the outcomes of the external tools. */
  function RunWrites(jobId: JobId, downloadOk: bool, cutOk: seq<bool>, clipIds: seq<ClipId>,
                     port: string): seq<Write>
    requires WellFormedRun(cutOk, clipIds)
  {
    [StepWrite(jobId, Downloading)] +
    if !downloadOk then FailWrites(jobId) else CuttingWrites(jobId, cutOk, clipIds, port)
  }
}
