/**
 * Properties of a pipeline run, stated over the specification functions of
 * module Jobs: the progress values a run writes, in order, the clip list a
 * successful run stores, what a failing run leaves behind and which external
 * calls it makes, and that one job's writes leave every other job's read alone.
 */
module JobProperties {
  import opened Wrappers
  import opened Jobs

  predicate StrictlyIncreasing(s: seq<int>) {
    forall i, j :: 0 <= i < j < |s| ==> s[i] < s[j]
  }

  /** After the download and k successful cuts, the progress values written are 30, 50, ..., 30 + 20k. */
  lemma {:induction false} ProgressUpToAt(k: nat)
    ensures |ProgressUpTo(k)| == k + 1
    ensures forall i :: 0 <= i <= k ==> ProgressUpTo(k)[i] == DownloadedProgress + 20 * i
  {
    if k > 0 {
      ProgressUpToAt(k - 1);
    }
  }

  /** The clip at position i of a clip list is the record built for the i-th cut. */
  lemma {:induction false} ClipsUpToAt(clipIds: seq<ClipId>, port: string, k: nat, i: nat)
    requires i < k <= |clipIds|
    ensures ClipsUpTo(clipIds, port, k)[i] == MakeClip(i, clipIds[i], port)
  {
    if i < k - 1 {
      ClipsUpToAt(clipIds, port, k - 1, i);
    }
  }

  /** The first external call is the download; the one after it at offset i is the cut of the i-th segment. */
  lemma {:induction false} CallsUpToAt(url: string, jobId: JobId, clipIds: seq<ClipId>, k: nat, i: nat)
    requires i < k <= |clipIds| && k <= |Segments|
    ensures CallsUpTo(url, jobId, clipIds, k)[0] == Download(url, VideoFileName(jobId))
    ensures CallsUpTo(url, jobId, clipIds, k)[i + 1] == CutCall(jobId, i, clipIds[i])
  {
    if i < k - 1 {
      CallsUpToAt(url, jobId, clipIds, k - 1, i);
    } else if k > 1 {
      CallsUpToAt(url, jobId, clipIds, k - 1, 0);
    }
  }

  /**
   * The progress values written over a run, in order, starting from the 0
   * written at submission: strictly increasing and below 100 until the last write,
   * which is 100 on success and -1 on failure. On success it is exactly
   * 0, 30, 50, 70, 90, 100.
   */
  lemma ProgressObserved(downloadOk: bool, cutOk: seq<bool>)
    requires |cutOk| == |Segments|
    ensures var seen := [0] + ProgressTrace(downloadOk, cutOk);
      && StrictlyIncreasing(seen[..|seen| - 1])
      && (forall i :: 0 <= i < |seen| - 1 ==> 0 <= seen[i] < DoneProgress)
      && seen[|seen| - 1] == (if Succeeds(downloadOk, cutOk) then DoneProgress else FailedProgress)
      && (Succeeds(downloadOk, cutOk) ==> seen == [0, 30, 50, 70, 90, 100])
  {
    var seen := [0] + ProgressTrace(downloadOk, cutOk);
    if downloadOk {
      var k := LeadingSuccesses(cutOk);
      ProgressUpToAt(k);
      var written := ProgressUpTo(k);
      assert seen[..|seen| - 1] == [0] + written;
      forall i | 1 <= i < |seen| - 1
        ensures seen[i] == DownloadedProgress + 20 * (i - 1)
      {
        assert seen[i] == written[i - 1];
      }
      if Succeeds(downloadOk, cutOk) {
        assert seen == [0, 30, 50, 70, 90, 100];
      }
    }
  }

  /**
   * A successful run stores three clips in order: titled Highlight 1, 2 and 3,
   * each 00:20 long, with preview and download URL both pointing at the clip
   * file on localhost, and with the ids it was given, so distinct ids give
   * distinct clips.
   */
  lemma SuccessfulRun(cutOk: seq<bool>, clipIds: seq<ClipId>, port: string)
    requires WellFormedRun(cutOk, clipIds)
    requires Succeeds(true, cutOk)
    ensures var r := RunResult(true, cutOk, clipIds, port);
      && r.progress == DoneProgress && r.step == Finalizing && r.clips.Some?
      && |r.clips.value| == 3
      && r.clips.value[0].title == "Highlight 1"
      && r.clips.value[1].title == "Highlight 2"
      && r.clips.value[2].title == "Highlight 3"
      && (forall i :: 0 <= i < 3 ==>
            && r.clips.value[i].id == clipIds[i]
            && r.clips.value[i].duration == "00:20"
            && r.clips.value[i].previewUrl == r.clips.value[i].downloadUrl
            && r.clips.value[i].downloadUrl == "http://localhost:" + port + "/clips/clip-" + clipIds[i] + ".mp4")
      && ((forall i, j :: 0 <= i < j < 3 ==> clipIds[i] != clipIds[j]) ==>
            forall i, j :: 0 <= i < j < 3 ==> r.clips.value[i].id != r.clips.value[j].id)
  {
    var clips := ClipsUpTo(clipIds, port, |Segments|);
    forall i | 0 <= i < 3
      ensures clips[i].id == clipIds[i] && clips[i].duration == "00:20"
      ensures clips[i].previewUrl == clips[i].downloadUrl
      ensures clips[i].downloadUrl == "http://localhost:" + port + "/clips/clip-" + clipIds[i] + ".mp4"
    {
      StoredClip(clipIds, port, i);
    }
    ClipsUpToAt(clipIds, port, |Segments|, 0);
    ClipsUpToAt(clipIds, port, |Segments|, 1);
    ClipsUpToAt(clipIds, port, |Segments|, 2);
    FirstTitles();
  }

  /** The clip at position i of a full clip list, field by field. */
  lemma StoredClip(clipIds: seq<ClipId>, port: string, i: nat)
    requires i < 3 && |clipIds| == |Segments|
    ensures var c := ClipsUpTo(clipIds, port, |Segments|)[i];
      && c.id == clipIds[i] && c.duration == "00:20"
      && c.previewUrl == c.downloadUrl
      && c.downloadUrl == "http://localhost:" + port + "/clips/clip-" + clipIds[i] + ".mp4"
  {
    ClipsUpToAt(clipIds, port, |Segments|, i);
    ClipUrlText(port, clipIds[i]);
  }

  /** The first three clips are titled Highlight 1, Highlight 2 and Highlight 3. */
  lemma FirstTitles()
    ensures Title(0) == "Highlight 1" && Title(1) == "Highlight 2" && Title(2) == "Highlight 3"
  {
    assert DecimalText(1) == "1" && DecimalText(2) == "2" && DecimalText(3) == "3";
  }

  /**
   * A failing run (download or some cut fails) ends with progress -1, step
   * "Processing failed" and no clip list. It asks for one download and then
   * only the cuts up to the first failing one: every cut it starts before the
   * last one succeeded, and when the video was downloaded the last cut it
   * started is the one that failed; no cut is started without the video.
   */
  lemma FailedRun(url: string, jobId: JobId, downloadOk: bool, cutOk: seq<bool>,
                  clipIds: seq<ClipId>, port: string)
    requires WellFormedRun(cutOk, clipIds)
    requires !Succeeds(downloadOk, cutOk)
    ensures RunResult(downloadOk, cutOk, clipIds, port) == Snapshot(FailedProgress, Failed, None)
    ensures var calls := ToolCalls(url, jobId, downloadOk, cutOk, clipIds);
            var n := CutsAttempted(downloadOk, cutOk);
      && |calls| == 1 + n
      && calls[0] == Download(url, VideoFileName(jobId))
      && (forall j :: 0 <= j < n ==> calls[j + 1] == CutCall(jobId, j, clipIds[j]))
      && (forall i :: 0 <= i < n - 1 ==> cutOk[i])
      && (downloadOk ==> 0 < n && !cutOk[n - 1])
      && (!downloadOk ==> n == 0)
  {
    var n := CutsAttempted(downloadOk, cutOk);
    var calls := ToolCalls(url, jobId, downloadOk, cutOk, clipIds);
    forall j | 0 <= j < n
      ensures calls[j + 1] == CutCall(jobId, j, clipIds[j])
    {
      CallsUpToAt(url, jobId, clipIds, n, j);
    }
    if n > 0 {
      CallsUpToAt(url, jobId, clipIds, n, 0);
    }
  }

  /** A successful run asks for one download and then all three cuts, in segment order. */
  lemma SuccessfulRunCalls(url: string, jobId: JobId, cutOk: seq<bool>, clipIds: seq<ClipId>)
    requires WellFormedRun(cutOk, clipIds)
    requires Succeeds(true, cutOk)
    ensures ToolCalls(url, jobId, true, cutOk, clipIds) ==
      [ Download(url, jobId + ".mp4"),
        Cut(jobId + ".mp4", 10, 20, "clip-" + clipIds[0] + ".mp4"),
        Cut(jobId + ".mp4", 40, 20, "clip-" + clipIds[1] + ".mp4"),
        Cut(jobId + ".mp4", 70, 20, "clip-" + clipIds[2] + ".mp4") ]
  {
    var calls := ToolCalls(url, jobId, true, cutOk, clipIds);
    forall j | 0 <= j < 3
      ensures calls[0] == Download(url, VideoFileName(jobId))
      ensures calls[j + 1] == CutCall(jobId, j, clipIds[j])
    {
      CallsUpToAt(url, jobId, clipIds, 3, j);
    }
  }

  /**
   * Writing one job's three entries leaves the read of every other job as it
   * was, whether or not a clip list is written.
   */
  lemma OtherJobsUnaffected(progressMap: map<JobId, int>, stepMap: map<JobId, string>,
                            resultMap: map<JobId, seq<Clip>>, jobId: JobId, r: Snapshot, other: JobId)
    requires other != jobId
    ensures var resultMap' := if r.clips.Some? then resultMap[jobId := r.clips.value] else resultMap;
      Poll(progressMap[jobId := r.progress], stepMap[jobId := r.step], resultMap', other) ==
      Poll(progressMap, stepMap, resultMap, other)
  {
  }

  /**
   * Writing a job that has no clip list yet, with a progress of 100 exactly
   * when a clip list is written with it, keeps every job's clip list present
   * exactly when its progress is 100.
   */
  lemma RecordKeepsClipsIffDone(progressMap: map<JobId, int>, resultMap: map<JobId, seq<Clip>>,
                                jobId: JobId, r: Snapshot)
    requires ClipsIffDone(progressMap, resultMap)
    requires jobId !in resultMap
    requires r.clips.Some? <==> r.progress == DoneProgress
    ensures ClipsIffDone(progressMap[jobId := r.progress],
                         if r.clips.Some? then resultMap[jobId := r.clips.value] else resultMap)
  {
  }

  /* ---------------------------------------------------------------------
     The write log of a run
     --------------------------------------------------------------------- */

  lemma {:induction false} ProgressValuesAppend(a: seq<Write>, b: seq<Write>)
    ensures ProgressValues(a + b) == ProgressValues(a) + ProgressValues(b)
    decreases |a|
  {
    if a == [] {
      assert a + b == b;
    } else {
      assert (a + b)[0] == a[0] && (a + b)[1..] == a[1..] + b;
      ProgressValuesAppend(a[1..], b);
    }
  }

  lemma {:induction false} StepTextsAppend(a: seq<Write>, b: seq<Write>)
    ensures StepTexts(a + b) == StepTexts(a) + StepTexts(b)
    decreases |a|
  {
    if a == [] {
      assert a + b == b;
    } else {
      assert (a + b)[0] == a[0] && (a + b)[1..] == a[1..] + b;
      StepTextsAppend(a[1..], b);
    }
  }

  lemma {:induction false} ReplayAppend(t: Tables, a: seq<Write>, b: seq<Write>)
    ensures Replay(t, a + b) == Replay(Replay(t, a), b)
    decreases |a|
  {
    if a == [] {
      assert a + b == b;
    } else {
      assert (a + b)[0] == a[0] && (a + b)[1..] == a[1..] + b;
      ReplayAppend(Apply(t, a[0]), a[1..], b);
    }
  }

  /** The first write of a log, then the rest. */
  lemma Cons(t: Tables, w: Write, ws: seq<Write>)
    ensures ProgressValues([w] + ws) == (if w.ProgressWrite? then [w.progress] else []) + ProgressValues(ws)
    ensures StepTexts([w] + ws) == (if w.StepWrite? then [w.step] else []) + StepTexts(ws)
    ensures Replay(t, [w] + ws) == Replay(Apply(t, w), ws)
  {
    assert ([w] + ws)[0] == w && ([w] + ws)[1..] == ws;
  }

  /** A log of two writes, one at a time. */
  lemma Unroll2(t: Tables, ws: seq<Write>)
    requires |ws| == 2
    ensures ProgressValues(ws) == ProgressValues([ws[0]]) + ProgressValues([ws[1]])
    ensures StepTexts(ws) == StepTexts([ws[0]]) + StepTexts([ws[1]])
    ensures Replay(t, ws) == Apply(Apply(t, ws[0]), ws[1])
  {
    assert ws == [ws[0]] + [ws[1]];
    Cons(t, ws[0], [ws[1]]);
    Cons(Apply(t, ws[0]), ws[1], []);
    assert [ws[1]] + [] == [ws[1]];
  }

  /** A log of three writes, one at a time. */
  lemma Unroll3(t: Tables, ws: seq<Write>)
    requires |ws| == 3
    ensures ProgressValues(ws) == ProgressValues([ws[0]]) + ProgressValues([ws[1]]) + ProgressValues([ws[2]])
    ensures StepTexts(ws) == StepTexts([ws[0]]) + StepTexts([ws[1]]) + StepTexts([ws[2]])
    ensures Replay(t, ws) == Apply(Apply(Apply(t, ws[0]), ws[1]), ws[2])
  {
    assert ws == [ws[0]] + ws[1..];
    Cons(t, ws[0], ws[1..]);
    Unroll2(Apply(t, ws[0]), ws[1..]);
    Cons(t, ws[0], []);
    assert [ws[0]] + [] == [ws[0]];
  }

  /**
   * The cutting loop writes only progress: after the 30 of the download,
   * its values are those of `ProgressUpTo`, and it writes no step text.
   */
  lemma {:induction false} CutWritesObserved(jobId: JobId, k: nat)
    ensures forall i :: 0 <= i < k ==> CutWrites(jobId, k)[i] == ProgressWrite(jobId, CutProgress(i + 1))
    ensures [DownloadedProgress] + ProgressValues(CutWrites(jobId, k)) == ProgressUpTo(k)
    ensures StepTexts(CutWrites(jobId, k)) == []
  {
    if k > 0 {
      var w := ProgressWrite(jobId, CutProgress(k));
      CutWritesObserved(jobId, k - 1);
      ProgressValuesAppend(CutWrites(jobId, k - 1), [w]);
      StepTextsAppend(CutWrites(jobId, k - 1), [w]);
      assert ProgressValues([w]) == [CutProgress(k)];
      assert StepTexts([w]) == [];
    }
  }

  /** Replaying the cutting loop's writes leaves only the last progress value of the job. */
  lemma {:induction false} ReplayCutWrites(t: Tables, jobId: JobId, k: nat)
    ensures Replay(t, CutWrites(jobId, k)) ==
      if k == 0 then t else t.(progressMap := t.progressMap[jobId := CutProgress(k)])
  {
    if k > 0 {
      var w := ProgressWrite(jobId, CutProgress(k));
      ReplayAppend(t, CutWrites(jobId, k - 1), [w]);
      ReplayCutWrites(t, jobId, k - 1);
      assert Replay(Replay(t, CutWrites(jobId, k - 1)), [w]) == Apply(Replay(t, CutWrites(jobId, k - 1)), w);
      if k > 1 {
        OverwriteEntry(t.progressMap, jobId, CutProgress(k - 1), CutProgress(k));
      }
    }
  }

  /** Every write of `ws` is to the entries of `jobId`. */
  predicate AllFor(ws: seq<Write>, jobId: JobId) {
    forall i :: 0 <= i < |ws| ==> ws[i].id == jobId
  }

  /** After the download, the progress values written, in order: 30, then one value per successful cut, then 100 or -1. */
  lemma CuttingProgress(jobId: JobId, cutOk: seq<bool>, clipIds: seq<ClipId>, port: string)
    requires WellFormedRun(cutOk, clipIds)
    ensures ProgressValues(CuttingWrites(jobId, cutOk, clipIds, port)) ==
      ProgressUpTo(LeadingSuccesses(cutOk)) + [if Succeeds(true, cutOk) then DoneProgress else FailedProgress]
  {
    var t0 := Tables(map[], map[], map[]);
    var k := LeadingSuccesses(cutOk);
    var head := [ProgressWrite(jobId, DownloadedProgress), StepWrite(jobId, Cutting)];
    var cuts := CutWrites(jobId, k);
    var tail := if Succeeds(true, cutOk) then FinishWrites(jobId, ClipsUpTo(clipIds, port, |Segments|))
                else FailWrites(jobId);
    CutWritesObserved(jobId, k);
    ProgressValuesAppend(head, cuts);
    ProgressValuesAppend(head + cuts, tail);
    Unroll2(t0, head);
    assert ProgressValues(head) == [DownloadedProgress];
    if Succeeds(true, cutOk) {
      Unroll3(t0, tail);
    } else {
      Unroll2(t0, tail);
    }
  }

  /** After the download, the step texts written, in order: "Cutting highlight clips…", then "Finalizing clips…" or "Processing failed". */
  lemma CuttingSteps(jobId: JobId, cutOk: seq<bool>, clipIds: seq<ClipId>, port: string)
    requires WellFormedRun(cutOk, clipIds)
    ensures StepTexts(CuttingWrites(jobId, cutOk, clipIds, port)) ==
      [Cutting, if Succeeds(true, cutOk) then Finalizing else Failed]
  {
    var t0 := Tables(map[], map[], map[]);
    var k := LeadingSuccesses(cutOk);
    var head := [ProgressWrite(jobId, DownloadedProgress), StepWrite(jobId, Cutting)];
    var cuts := CutWrites(jobId, k);
    var tail := if Succeeds(true, cutOk) then FinishWrites(jobId, ClipsUpTo(clipIds, port, |Segments|))
                else FailWrites(jobId);
    CutWritesObserved(jobId, k);
    StepTextsAppend(head, cuts);
    StepTextsAppend(head + cuts, tail);
    Unroll2(t0, head);
    assert StepTexts(head) == [Cutting];
    if Succeeds(true, cutOk) {
      Unroll3(t0, tail);
    } else {
      Unroll2(t0, tail);
    }
  }

  /** Every write after the download is to the job's own entries. */
  lemma CuttingWritesOwnJob(jobId: JobId, cutOk: seq<bool>, clipIds: seq<ClipId>, port: string)
    requires WellFormedRun(cutOk, clipIds)
    ensures AllFor(CuttingWrites(jobId, cutOk, clipIds, port), jobId)
  {
    var k := LeadingSuccesses(cutOk);
    var head := [ProgressWrite(jobId, DownloadedProgress), StepWrite(jobId, Cutting)];
    var cuts := CutWrites(jobId, k);
    var tail := if Succeeds(true, cutOk) then FinishWrites(jobId, ClipsUpTo(clipIds, port, |Segments|))
                else FailWrites(jobId);
    CutWritesObserved(jobId, k);
    AllForAppend(head, cuts, jobId);
    AllForAppend(head + cuts, tail, jobId);
  }

  lemma AllForAppend(a: seq<Write>, b: seq<Write>, jobId: JobId)
    requires AllFor(a, jobId) && AllFor(b, jobId)
    ensures AllFor(a + b, jobId)
  {
    forall i | 0 <= i < |a + b|
      ensures (a + b)[i].id == jobId
    {
      if i < |a| {
        assert (a + b)[i] == a[i];
      } else {
        assert (a + b)[i] == b[i - |a|];
      }
    }
  }

  /** The progress values a run writes are those of `ProgressTrace`. */
  lemma RunProgress(jobId: JobId, downloadOk: bool, cutOk: seq<bool>, clipIds: seq<ClipId>, port: string)
    requires WellFormedRun(cutOk, clipIds)
    ensures ProgressValues(RunWrites(jobId, downloadOk, cutOk, clipIds, port)) == ProgressTrace(downloadOk, cutOk)
  {
    var t0 := Tables(map[], map[], map[]);
    var first := StepWrite(jobId, Downloading);
    if downloadOk {
      var rest := CuttingWrites(jobId, cutOk, clipIds, port);
      Cons(t0, first, rest);
      CuttingProgress(jobId, cutOk, clipIds, port);
    } else {
      Cons(t0, first, FailWrites(jobId));
      Unroll2(t0, FailWrites(jobId));
    }
  }

  /** The step texts a run writes. */
  lemma RunSteps(jobId: JobId, downloadOk: bool, cutOk: seq<bool>, clipIds: seq<ClipId>, port: string)
    requires WellFormedRun(cutOk, clipIds)
    ensures StepTexts(RunWrites(jobId, downloadOk, cutOk, clipIds, port)) ==
      if !downloadOk then [Downloading, Failed]
      else [Downloading, Cutting, if Succeeds(downloadOk, cutOk) then Finalizing else Failed]
  {
    var t0 := Tables(map[], map[], map[]);
    var first := StepWrite(jobId, Downloading);
    if downloadOk {
      var rest := CuttingWrites(jobId, cutOk, clipIds, port);
      Cons(t0, first, rest);
      CuttingSteps(jobId, cutOk, clipIds, port);
    } else {
      Cons(t0, first, FailWrites(jobId));
      Unroll2(t0, FailWrites(jobId));
    }
  }

  /** Every write of a run is to the run's own job. */
  lemma RunOwnJob(jobId: JobId, downloadOk: bool, cutOk: seq<bool>, clipIds: seq<ClipId>, port: string)
    requires WellFormedRun(cutOk, clipIds)
    ensures AllFor(RunWrites(jobId, downloadOk, cutOk, clipIds, port), jobId)
  {
    var rest := if !downloadOk then FailWrites(jobId) else CuttingWrites(jobId, cutOk, clipIds, port);
    if downloadOk {
      CuttingWritesOwnJob(jobId, cutOk, clipIds, port);
    }
    AllForAppend([StepWrite(jobId, Downloading)], rest, jobId);
  }

  /**
   * The writes of a run, in order: every write is to the job's own
   * entries; the progress values written are those of `ProgressTrace`;
   * the step texts written are "Downloading video…", then
   * "Cutting highlight clips…" once the video is there, then "Finalizing
   * clips…" on success or "Processing failed" on failure.
   */
  lemma RunWritesObserved(jobId: JobId, downloadOk: bool, cutOk: seq<bool>,
                          clipIds: seq<ClipId>, port: string)
    requires WellFormedRun(cutOk, clipIds)
    ensures var ws := RunWrites(jobId, downloadOk, cutOk, clipIds, port);
      && AllFor(ws, jobId)
      && ProgressValues(ws) == ProgressTrace(downloadOk, cutOk)
      && StepTexts(ws) ==
           if !downloadOk then [Downloading, Failed]
           else if Succeeds(downloadOk, cutOk) then [Downloading, Cutting, Finalizing]
           else [Downloading, Cutting, Failed]
  {
    RunProgress(jobId, downloadOk, cutOk, clipIds, port);
    RunSteps(jobId, downloadOk, cutOk, clipIds, port);
    RunOwnJob(jobId, downloadOk, cutOk, clipIds, port);
  }

  /**
   * The progress values a whole submission writes, in order: the 0 of the
   * initialisation, then those of `ProgressTrace`. This is the sequence
   * `ProgressObserved` is about.
   */
  lemma SubmissionProgress(jobId: JobId, downloadOk: bool, cutOk: seq<bool>,
                           clipIds: seq<ClipId>, port: string)
    requires WellFormedRun(cutOk, clipIds)
    ensures ProgressValues(SubmitWrites(jobId) + RunWrites(jobId, downloadOk, cutOk, clipIds, port)) ==
      [0] + ProgressTrace(downloadOk, cutOk)
  {
    ProgressValuesAppend(SubmitWrites(jobId), RunWrites(jobId, downloadOk, cutOk, clipIds, port));
    Unroll2(Tables(map[], map[], map[]), SubmitWrites(jobId));
    RunProgress(jobId, downloadOk, cutOk, clipIds, port);
  }

  /**
   * Replaying the writes of a run after the download over any dictionaries
   * changes only the job's own entries, and leaves them as `RunResult` says.
   */
  lemma ReplayCutting(t: Tables, jobId: JobId, cutOk: seq<bool>, clipIds: seq<ClipId>, port: string)
    requires WellFormedRun(cutOk, clipIds)
    ensures var r := RunResult(true, cutOk, clipIds, port);
      Replay(t, CuttingWrites(jobId, cutOk, clipIds, port)) ==
      Tables(t.progressMap[jobId := r.progress], t.stepMap[jobId := r.step],
             if r.clips.Some? then t.resultMap[jobId := r.clips.value] else t.resultMap)
  {
    var k := LeadingSuccesses(cutOk);
    var head := [ProgressWrite(jobId, DownloadedProgress), StepWrite(jobId, Cutting)];
    var cuts := CutWrites(jobId, k);
    var tail := if Succeeds(true, cutOk) then FinishWrites(jobId, ClipsUpTo(clipIds, port, |Segments|))
                else FailWrites(jobId);
    ReplayAppend(t, head + cuts, tail);
    ReplayAppend(t, head, cuts);
    Unroll2(t, head);
    var t1 := Replay(t, head);
    assert t1 == Tables(t.progressMap[jobId := DownloadedProgress], t.stepMap[jobId := Cutting], t.resultMap);
    ReplayCutWrites(t1, jobId, k);
    var last := if k == 0 then DownloadedProgress else CutProgress(k);
    OverwriteEntry(t.progressMap, jobId, DownloadedProgress, last);
    var t2 := Replay(t1, cuts);
    assert t2 == Tables(t.progressMap[jobId := last], t.stepMap[jobId := Cutting], t.resultMap);
    if Succeeds(true, cutOk) {
      Unroll3(t2, tail);
      OverwriteEntry(t.stepMap, jobId, Cutting, Finalizing);
      OverwriteEntry(t.progressMap, jobId, last, DoneProgress);
    } else {
      Unroll2(t2, tail);
      OverwriteEntry(t.stepMap, jobId, Cutting, Failed);
      OverwriteEntry(t.progressMap, jobId, last, FailedProgress);
    }
  }

  /**
   * Replaying the writes of a run over any dictionaries changes only the
   * job's own entries, and leaves them as `RunResult` says: the log of a
   * run and the state it leaves agree.
   */
  lemma ReplayRun(t: Tables, jobId: JobId, downloadOk: bool, cutOk: seq<bool>,
                  clipIds: seq<ClipId>, port: string)
    requires WellFormedRun(cutOk, clipIds)
    ensures var r := RunResult(downloadOk, cutOk, clipIds, port);
      Replay(t, RunWrites(jobId, downloadOk, cutOk, clipIds, port)) ==
      Tables(t.progressMap[jobId := r.progress], t.stepMap[jobId := r.step],
             if r.clips.Some? then t.resultMap[jobId := r.clips.value] else t.resultMap)
  {
    var first := StepWrite(jobId, Downloading);
    var rest := if !downloadOk then FailWrites(jobId) else CuttingWrites(jobId, cutOk, clipIds, port);
    Cons(t, first, rest);
    var t1 := Apply(t, first);
    var r := RunResult(downloadOk, cutOk, clipIds, port);
    if downloadOk {
      ReplayCutting(t1, jobId, cutOk, clipIds, port);
    } else {
      Unroll2(t1, rest);
    }
    OverwriteEntry(t.stepMap, jobId, Downloading, r.step);
  }

  /** The title of the clip at position i is "Highlight " followed by the numeral of i + 1, without leading zeros. */
  lemma TitleText(i: nat)
    ensures var t := Title(i);
      && |t| > 10 && t[..10] == "Highlight "
      && (forall j :: 10 <= j < |t| ==> '0' <= t[j] <= '9')
      && t[10] != '0' && DecimalValue(t[10..]) == i + 1
  {
  }

  /** Distinct jobs download into distinct files. */
  lemma VideoFilesDistinct(a: JobId, b: JobId)
    ensures VideoFileName(a) == VideoFileName(b) <==> a == b
  {
  }

  /** A clip's URL is "http://localhost:", the port, "/clips/clip-", the clip id and ".mp4". */
  lemma ClipUrlText(port: string, clipId: ClipId)
    ensures ClipUrl(port, ClipFileName(clipId)) == "http://localhost:" + port + "/clips/clip-" + clipId + ".mp4"
  {
  }

  /** On one port, distinct clip ids give distinct clip URLs. */
  lemma ClipUrlsDistinct(port: string, a: ClipId, b: ClipId)
    ensures ClipUrl(port, ClipFileName(a)) == ClipUrl(port, ClipFileName(b)) <==> a == b
  {
    var ua, ub := ClipUrl(port, ClipFileName(a)), ClipUrl(port, ClipFileName(b));
    var n := |port| + 29;
    ClipUrlText(port, a);
    ClipUrlText(port, b);
    if ua == ub {
      assert |a| == |b|;
      assert a == ua[n..n + |a|] == ub[n..n + |b|] == b;
    }
  }
}
