/**
 * The process-wide job state and the two request handlers that change or read
 * it. The three dictionaries of the service are fields of one `JobStore`
 * object; the submission handler validates the URL and initialises the job,
 * then runs the pipeline, which overwrites the job's entries step by step.
 * Identifiers from the UUID generator, the port text and the outcomes of the
 * downloader and the transcoder are parameters.
 */
module JobServer {
  import opened Wrappers
  import opened Jobs
  import opened JobProperties

  /** The JSON answer to a submission. */
  datatype SubmitResponse = Accepted(jobId: JobId) | Rejected(error: string) {
    /** The HTTP status the answer is sent with. */
    function Status(): (code: int)
      ensures code == 200 <==> Accepted?
      ensures code == 400 <==> Rejected?
    {
      if Accepted? then 200 else 400
    }
  }

  class JobStore {
    var progressMap: map<JobId, int>
    var stepMap: map<JobId, string>
    var resultMap: map<JobId, seq<Clip>>
    /** Every write to the three dictionaries so far, in order. */
    ghost var history: seq<Write>

    /** The state at start-up: no job is known and nothing has been written. */
    constructor ()
      ensures progressMap == map[] && stepMap == map[] && resultMap == map[]
      ensures history == []
    {
      progressMap, stepMap, resultMap := map[], map[], map[];
      history := [];
    }

    /** A job has a clip list exactly when its progress is 100. */
    ghost predicate Consistent()
      reads this
    {
      ClipsIffDone(progressMap, resultMap)
    }

    /** The progress endpoint: the job's snapshot, with defaults for an unknown id. */
    method Read(id: JobId) returns (s: Snapshot)
      ensures s == Poll(progressMap, stepMap, resultMap, id)
      ensures id !in progressMap && id !in stepMap && id !in resultMap ==> s == Snapshot(0, Preparing, None)
    {
      s := Poll(progressMap, stepMap, resultMap, id);
    }

    /** `progressMap[id] = p`. */
    method WriteProgress(id: JobId, p: int)
      modifies this
      ensures progressMap == old(progressMap)[id := p]
      ensures stepMap == old(stepMap) && resultMap == old(resultMap)
      ensures history == old(history) + [ProgressWrite(id, p)]
    {
      progressMap := progressMap[id := p];
      history := history + [ProgressWrite(id, p)];
    }

    /** `stepMap[id] = text`. */
    method WriteStep(id: JobId, text: string)
      modifies this
      ensures stepMap == old(stepMap)[id := text]
      ensures progressMap == old(progressMap) && resultMap == old(resultMap)
      ensures history == old(history) + [StepWrite(id, text)]
    {
      stepMap := stepMap[id := text];
      history := history + [StepWrite(id, text)];
    }

    /** `resultMap[id] = clips`. */
    method WriteResult(id: JobId, clips: seq<Clip>)
      modifies this
      ensures resultMap == old(resultMap)[id := clips]
      ensures progressMap == old(progressMap) && stepMap == old(stepMap)
      ensures history == old(history) + [ResultWrite(id, clips)]
    {
      resultMap := resultMap[id := clips];
      history := history + [ResultWrite(id, clips)];
    }

    /**
     * The synchronous part of a submission. A missing or non-http URL is
     * answered with 400 and changes nothing; otherwise the new job starts at
     * progress 0, step "Starting…". The clip map is not written, so a job id
     * never seen before reads back with no clips.
     */
    method Submit(youtubeUrl: Option<string>, newId: JobId) returns (resp: SubmitResponse)
      modifies this
      ensures AcceptsUrl(youtubeUrl) ==>
        && resp == Accepted(newId)
        && progressMap == old(progressMap)[newId := 0]
        && stepMap == old(stepMap)[newId := Starting]
        && history == old(history) + SubmitWrites(newId)
      ensures !AcceptsUrl(youtubeUrl) ==>
        && resp == Rejected(InvalidUrlError) && resp.Status() == 400
        && progressMap == old(progressMap) && stepMap == old(stepMap)
        && history == old(history)
      ensures resultMap == old(resultMap)
      ensures AcceptsUrl(youtubeUrl) && newId !in old(resultMap) ==>
        Poll(progressMap, stepMap, resultMap, newId) == Snapshot(0, Starting, None)
      ensures old(Consistent()) && newId !in old(resultMap) ==> Consistent()
    {
      if !AcceptsUrl(youtubeUrl) {
        return Rejected(InvalidUrlError);
      }
      if old(Consistent()) && newId !in resultMap {
        RecordKeepsClipsIffDone(progressMap, resultMap, newId, Snapshot(0, Starting, None));
      }
      WriteProgress(newId, 0);
      WriteStep(newId, Starting);
      resp := Accepted(newId);
    }

    /** The catch block: the job is marked failed; its clip entry is left alone. */
    method Fail(jobId: JobId)
      modifies this
      ensures progressMap == old(progressMap)[jobId := FailedProgress]
      ensures stepMap == old(stepMap)[jobId := Failed]
      ensures resultMap == old(resultMap)
      ensures history == old(history) + FailWrites(jobId)
    {
      WriteProgress(jobId, FailedProgress);
      WriteStep(jobId, Failed);
    }

    /** The final stage of a successful run: step, progress 100, then the clip list. */
    method Finish(jobId: JobId, clips: seq<Clip>)
      modifies this
      ensures stepMap == old(stepMap)[jobId := Finalizing]
      ensures progressMap == old(progressMap)[jobId := DoneProgress]
      ensures resultMap == old(resultMap)[jobId := clips]
      ensures history == old(history) + FinishWrites(jobId, clips)
    {
      WriteStep(jobId, Finalizing);
      WriteProgress(jobId, DoneProgress);
      WriteResult(jobId, clips);
    }

    /**
     * The pipeline of one job: download, then the three fixed cuts in order,
     * then the final state; the first failure sets progress -1 and step
     * "Processing failed" and stops the run. Returns the external calls made,
     * in order; every write it makes is appended to the log. Only `jobId`'s
     * entries change.
     */
    method RunPipeline(jobId: JobId, youtubeUrl: string, port: string,
                       downloadOk: bool, cutOk: seq<bool>, clipIds: seq<ClipId>)
      returns (calls: seq<ToolCall>)
      requires WellFormedRun(cutOk, clipIds)
      modifies this
      ensures calls == ToolCalls(youtubeUrl, jobId, downloadOk, cutOk, clipIds)
      ensures history == old(history) + RunWrites(jobId, downloadOk, cutOk, clipIds, port)
      ensures var r := RunResult(downloadOk, cutOk, clipIds, port);
        && progressMap == old(progressMap)[jobId := r.progress]
        && stepMap == old(stepMap)[jobId := r.step]
        && resultMap == (if r.clips.Some? then old(resultMap)[jobId := r.clips.value] else old(resultMap))
      ensures old(Consistent()) && jobId !in old(resultMap) ==> Consistent()
    {
      WriteStep(jobId, Downloading);
      if !downloadOk {
        calls := [Download(youtubeUrl, VideoFileName(jobId))];
        Fail(jobId);
        OverwriteEntry(old(stepMap), jobId, Downloading, Failed);
      } else {
        calls := AfterDownload(jobId, youtubeUrl, port, cutOk, clipIds);
        OverwriteEntry(old(stepMap), jobId, Downloading, RunResult(downloadOk, cutOk, clipIds, port).step);
      }
      if old(Consistent()) && jobId !in old(resultMap) {
        RecordKeepsClipsIffDone(old(progressMap), old(resultMap), jobId, RunResult(downloadOk, cutOk, clipIds, port));
      }
    }

    /**
     * The rest of a run once the video is downloaded: progress 30 and the
     * cutting step, the cuts, then either the final stage or, at the first
     * failing cut, the catch block.
     */
    method AfterDownload(jobId: JobId, youtubeUrl: string, port: string, cutOk: seq<bool>, clipIds: seq<ClipId>)
      returns (calls: seq<ToolCall>)
      requires WellFormedRun(cutOk, clipIds)
      modifies this
      ensures calls == ToolCalls(youtubeUrl, jobId, true, cutOk, clipIds)
      ensures history == old(history) + CuttingWrites(jobId, cutOk, clipIds, port)
      ensures var r := RunResult(true, cutOk, clipIds, port);
        && progressMap == old(progressMap)[jobId := r.progress]
        && stepMap == old(stepMap)[jobId := r.step]
        && resultMap == (if r.clips.Some? then old(resultMap)[jobId := r.clips.value] else old(resultMap))
    {
      WriteProgress(jobId, DownloadedProgress);
      WriteStep(jobId, Cutting);
      ghost var head := [ProgressWrite(jobId, DownloadedProgress), StepWrite(jobId, Cutting)];
      assert history == old(history) + head;
      var clips;
      calls, clips := CutSegments(jobId, youtubeUrl, port, cutOk, clipIds);
      var done := |clips|;
      LeadingSuccessesIs(cutOk, done);
      ghost var last := if done == 0 then DownloadedProgress else CutProgress(done);
      OverwriteEntry(old(progressMap), jobId, DownloadedProgress, last);
      assert history == old(history) + (head + CutWrites(jobId, done));
      if done < |Segments| {
        // the cut at position `done` failed
        Fail(jobId);
        OverwriteEntry(old(stepMap), jobId, Cutting, Failed);
        OverwriteEntry(old(progressMap), jobId, last, FailedProgress);
      } else {
        Finish(jobId, clips);
        OverwriteEntry(old(stepMap), jobId, Cutting, Finalizing);
        OverwriteEntry(old(progressMap), jobId, last, DoneProgress);
      }
    }

    /**
     * The cutting stage: the fixed segments in order, each cut from the
     * downloaded video into a fresh clip file. After each successful cut the
     * progress becomes 30 plus that many thirds of 60 and the clip record is
     * added; the first failing cut ends the stage. Returns the calls of the
     * run so far (the download, then the cuts started) and the clip records
     * of the successful cuts. It writes one progress value per successful
     * cut; the step and clip maps and every other job are untouched.
     */
    method CutSegments(jobId: JobId, youtubeUrl: string, port: string,
                       cutOk: seq<bool>, clipIds: seq<ClipId>)
      returns (calls: seq<ToolCall>, clips: seq<Clip>)
      requires WellFormedRun(cutOk, clipIds)
      modifies this
      ensures var done := LeadingSuccesses(cutOk);
        && calls == CallsUpTo(youtubeUrl, jobId, clipIds, CutsAttempted(true, cutOk))
        && clips == ClipsUpTo(clipIds, port, done)
        && history == old(history) + CutWrites(jobId, done)
        && progressMap == (if done == 0 then old(progressMap) else old(progressMap)[jobId := CutProgress(done)])
      ensures stepMap == old(stepMap) && resultMap == old(resultMap)
    {
      calls, clips := [Download(youtubeUrl, VideoFileName(jobId))], [];
      var i := 0;
      while i < |Segments|
        invariant 0 <= i <= LeadingSuccesses(cutOk)
        invariant calls == CallsUpTo(youtubeUrl, jobId, clipIds, i)
        invariant clips == ClipsUpTo(clipIds, port, i)
        invariant history == old(history) + CutWrites(jobId, i)
        invariant progressMap == (if i == 0 then old(progressMap) else old(progressMap)[jobId := CutProgress(i)])
        invariant stepMap == old(stepMap) && resultMap == old(resultMap)
      {
        calls := calls + [CutCall(jobId, i, clipIds[i])];
        if !cutOk[i] {
          break;
        }
        if i > 0 {
          OverwriteEntry(old(progressMap), jobId, CutProgress(i), CutProgress(i + 1));
        }
        WriteProgress(jobId, CutProgress(i + 1));
        assert history == old(history) + CutWrites(jobId, i + 1) by {
          assert CutWrites(jobId, i + 1) == CutWrites(jobId, i) + [ProgressWrite(jobId, CutProgress(i + 1))];
        }
        clips := clips + [MakeClip(i, clipIds[i], port)];
        i := i + 1;
      }
    }

    /**
     * A whole submission: the synchronous check and initialisation, then, for
     * an accepted URL, the pipeline of the new job, with clip URLs on the
     * port the environment gives. A rejected submission makes no external
     * call and changes nothing. An accepted one leaves the new job's entries
     * as the run left them, and no other job's read changes.
     */
    method ProcessVideo(youtubeUrl: Option<string>, newId: JobId, env: Option<string>,
                        downloadOk: bool, cutOk: seq<bool>, clipIds: seq<ClipId>)
      returns (resp: SubmitResponse, calls: seq<ToolCall>)
      requires WellFormedRun(cutOk, clipIds)
      modifies this
      ensures !AcceptsUrl(youtubeUrl) ==>
        && resp == Rejected(InvalidUrlError) && calls == [] && history == old(history)
        && progressMap == old(progressMap) && stepMap == old(stepMap) && resultMap == old(resultMap)
      ensures AcceptsUrl(youtubeUrl) ==>
        var r := RunResult(downloadOk, cutOk, clipIds, PortText(env));
        && resp == Accepted(newId)
        && calls == ToolCalls(youtubeUrl.value, newId, downloadOk, cutOk, clipIds)
        && history == old(history) + SubmitWrites(newId) + RunWrites(newId, downloadOk, cutOk, clipIds, PortText(env))
        && progressMap == old(progressMap)[newId := r.progress]
        && stepMap == old(stepMap)[newId := r.step]
        && resultMap == (if r.clips.Some? then old(resultMap)[newId := r.clips.value] else old(resultMap))
      ensures AcceptsUrl(youtubeUrl) && newId !in old(resultMap) ==>
        Poll(progressMap, stepMap, resultMap, newId) == RunResult(downloadOk, cutOk, clipIds, PortText(env))
      ensures forall other :: other != newId ==>
        Poll(progressMap, stepMap, resultMap, other) == old(Poll(progressMap, stepMap, resultMap, other))
      ensures old(Consistent()) && newId !in old(resultMap) ==> Consistent()
    {
      calls := [];
      resp := Submit(youtubeUrl, newId);
      if resp.Accepted? {
        var r := RunResult(downloadOk, cutOk, clipIds, PortText(env));
        calls := RunPipeline(newId, youtubeUrl.value, PortText(env), downloadOk, cutOk, clipIds);
        OverwriteEntry(old(progressMap), newId, 0, r.progress);
        OverwriteEntry(old(stepMap), newId, Starting, r.step);
      }
    }
  }
}
