/** The job record of the server (server.js) and the pure rules behind
    `runConversion`: the status lifecycle, the resolve/reject rules of
    `runFfmpeg` and `probeDuration`, and the job a conversion run ends with. */
module Jobs {
  import opened Wrappers
  import opened Text
  import opened ProgressExtractor

  /** The values of `job.status`. */
  datatype Status = Queued | Probing | Converting | PackagingHls | PackagingDash | Done | Error

  /** The status as written in the job record and sent to clients. */
  function StatusName(s: Status): string
  {
    match s
    case Queued => "queued"
    case Probing => "probing"
    case Converting => "converting"
    case PackagingHls => "packaging-hls"
    case PackagingDash => "packaging-dash"
    case Done => "done"
    case Error => "error"
  }

  /** Reading a status name back; the round trip below shows that the
      names are all different. */
  function ParseStatus(name: string): Option<Status>
  {
    if name == "queued" then Some(Queued)
    else if name == "probing" then Some(Probing)
    else if name == "converting" then Some(Converting)
    else if name == "packaging-hls" then Some(PackagingHls)
    else if name == "packaging-dash" then Some(PackagingDash)
    else if name == "done" then Some(Done)
    else if name == "error" then Some(Error)
    else None
  }

  /** Every status name reads back as that status, so different statuses
      are written differently. */
  lemma StatusNameRoundTrip(s: Status)
    ensures ParseStatus(StatusName(s)) == Some(s)
  {
  }

  predicate IsTerminal(s: Status)
  {
    s == Done || s == Error
  }

  /** The statuses in which an ffmpeg stage is running, so that a rejection
      can arrive. */
  predicate IsStage(s: Status)
  {
    s == Converting || s == PackagingHls || s == PackagingDash
  }

  /** The success path of `runConversion`, starting from the created job. */
  const Lifecycle: seq<Status> := [Queued, Probing, Converting, PackagingHls, PackagingDash, Done]

  /** One status change the server can make: one step along the lifecycle,
      or to `error` while a stage runs. */
  predicate Allowed(a: Status, b: Status)
  {
    match a
    case Queued => b == Probing
    case Probing => b == Converting
    case Converting => b == PackagingHls || b == Error
    case PackagingHls => b == PackagingDash || b == Error
    case PackagingDash => b == Done || b == Error
    case Done => false
    case Error => false
  }

  /** The statuses a job has had, from its creation, one allowed change at a time. */
  predicate IsPath(p: seq<Status>)
  {
    |p| >= 1 && p[0] == Queued &&
    forall i :: 0 <= i < |p| - 1 ==> Allowed(p[i], p[i + 1])
  }

  /** Every status history is a prefix of the lifecycle, possibly ending in
      `error` right after a stage status. */
  lemma {:induction false} PathIsLifecyclePrefix(p: seq<Status>)
    requires IsPath(p)
    ensures |p| <= |Lifecycle|
    ensures p == Lifecycle[..|p|] ||
      (|p| >= 4 && p[..|p| - 1] == Lifecycle[..|p| - 1] && p[|p| - 1] == Error)
  {
    if |p| > 1 {
      var q := p[..|p| - 1];
      assert IsPath(q) by {
        forall i | 0 <= i < |q| - 1 ensures Allowed(q[i], q[i + 1]) {
          assert q[i] == p[i] && q[i + 1] == p[i + 1];
        }
      }
      PathIsLifecyclePrefix(q);
      assert Allowed(p[|p| - 2], p[|p| - 1]);
      assert q == Lifecycle[..|q|];
      assert p[|p| - 2] == Lifecycle[|p| - 2];
      assert p == q + [p[|p| - 1]];
    }
  }

  /** Extending a history by an allowed change keeps it a history. */
  lemma PathExtend(p: seq<Status>, s: Status)
    requires IsPath(p) && Allowed(p[|p| - 1], s)
    ensures IsPath(p + [s])
  {
    var q := p + [s];
    forall i | 0 <= i < |q| - 1 ensures Allowed(q[i], q[i + 1]) {
      if i < |p| - 1 {
        assert q[i] == p[i] && q[i + 1] == p[i + 1];
      }
    }
  }

  /** The job record kept in the `jobs` map. `None` stands for `null`. */
  datatype Job = Job(
    id: string,
    status: Status,
    progress: int,
    duration: Option<real>,
    inputPath: string,
    jobDir: string,
    outputPath: string,
    hlsDir: string,
    dashDir: string,
    error: Option<string>,
    createdAt: int)

  /** `path.join(dir, name)` for a name without separators. */
  function JoinPath(dir: string, name: string): string
  {
    dir + "/" + name
  }

  /** The record the upload handler creates for a new id. */
  function NewJob(id: string, inputPath: string, outputsDir: string, now: int): (j: Job)
    ensures j.id == id && j.status == Queued && j.progress == 0
    ensures j.duration.None? && j.error.None?
    ensures j.jobDir == JoinPath(outputsDir, id) && j.inputPath == inputPath && j.createdAt == now
    ensures j.outputPath == JoinPath(j.jobDir, "output.mp4")
    ensures j.hlsDir == JoinPath(j.jobDir, "hls") && j.dashDir == JoinPath(j.jobDir, "dash")
  {
    var jobDir := JoinPath(outputsDir, id);
    Job(id, Queued, 0, None, inputPath, jobDir, JoinPath(jobDir, "output.mp4"),
        JoinPath(jobDir, "hls"), JoinPath(jobDir, "dash"), None, now)
  }

  /** The working directory determines the id, so jobs with different ids
      never share a directory (up to the normalisation `path.join` does). */
  lemma JobDirDeterminesId(a: string, b: string, outputsDir: string)
    requires JoinPath(outputsDir, a) == JoinPath(outputsDir, b)
    ensures a == b
  {
    var x, y := JoinPath(outputsDir, a), JoinPath(outputsDir, b);
    assert |a| == |b|;
    forall k | 0 <= k < |a| ensures a[k] == b[k] {
      assert x[|outputsDir| + 1 + k] == a[k];
      assert y[|outputsDir| + 1 + k] == b[k];
    }
  }

  /** Invariant of every job record in the map: progress is a percentage
      that reaches 100 only when done, the error is set exactly in the
      `error` status, and nothing has happened yet while queued. */
  predicate JobInvariant(j: Job)
  {
    0 <= j.progress <= 100 &&
    (j.status == Done <==> j.progress == 100) &&
    (j.error.Some? <==> j.status == Error) &&
    (j.status == Queued ==> j.duration.None?) &&
    (j.status == Queued || j.status == Probing ==> j.progress == 0)
  }

  lemma NewJobInvariant(id: string, inputPath: string, outputsDir: string, now: int)
    ensures JobInvariant(NewJob(id, inputPath, outputsDir, now))
  {
  }

  /** How an ffmpeg or ffprobe child process ended: the `error` event
      (spawn failure) or the `close` event with its exit code (`None` when
      the process was killed by a signal). */
  datatype ProcessEnd = SpawnError(message: string) | Closed(code: Option<int>)

  /** How the promise of `runFfmpeg` settles. */
  datatype StageOutcome = Succeeded | Failed(message: string)

  const ExitPrefix: string := "ffmpeg exited with "

  /** `runFfmpeg`: resolve on exit code 0, otherwise reject with the spawn
      error or with `ffmpeg exited with <code>`. */
  function RunFfmpeg(end: ProcessEnd): (r: StageOutcome)
    ensures r.Succeeded? <==> end == Closed(Some(0))
    ensures end.SpawnError? ==> r == Failed(end.message)
  {
    match end
    case SpawnError(message) => Failed(message)
    case Closed(code) =>
      if code == Some(0) then Succeeded
      else if code.None? then Failed(ExitPrefix + "null")
      else Failed(ExitPrefix + IntToString(code.value))
  }

  /** The rejection message of a non-zero exit names the exit code, which can
      be read back from the message. */
  lemma ExitCodeInMessage(code: nat)
    requires code != 0
    ensures RunFfmpeg(Closed(Some(code))).Failed?
    ensures var m := RunFfmpeg(Closed(Some(code))).message;
      |m| > |ExitPrefix| && m[..|ExitPrefix|] == ExitPrefix &&
      AllDigits(m[|ExitPrefix|..]) && DigitsValue(m[|ExitPrefix|..]) == code
  {
    var digits := NatToDecimal(code);
    var m := ExitPrefix + digits;
    assert m[..|ExitPrefix|] == ExitPrefix && m[|ExitPrefix|..] == digits;
    DecimalRoundTrip(code);
  }

  /** The concatenation of the chunks written to ffprobe's standard output. */
  function Concat(chunks: seq<string>): string
  {
    if |chunks| == 0 then "" else Concat(chunks[..|chunks| - 1]) + chunks[|chunks| - 1]
  }

  /** How the ffprobe child ended: its `error` event, or its `close` event. */
  datatype ProbeEnd = ProbeSpawnError | ProbeClosed

  /** `probeDuration`: stdout chunks are appended to `output` as they arrive;
      on `close` the value is `parseFloat(output.trim())` when finite, else
      `null`; on a spawn error it is `null`. The promise never rejects.
      `finite` stands for `parseFloat(output.trim())` filtered by
      `Number.isFinite`. */
  method ProbeDuration(chunks: seq<string>, end: ProbeEnd, finite: string -> Option<real>)
    returns (duration: Option<real>)
    ensures end.ProbeSpawnError? ==> duration.None?
    ensures end.ProbeClosed? ==> duration == finite(Concat(chunks))
  {
    if end.ProbeSpawnError? {
      return None;
    }
    var output := "";
    var i := 0;
    while i < |chunks|
      invariant 0 <= i <= |chunks|
      invariant output == Concat(chunks[..i])
    {
      assert chunks[..i + 1][..i] == chunks[..i];
      output := output + chunks[i];
      i := i + 1;
    }
    assert chunks[..i] == chunks;
    duration := finite(output);
  }

  /** The inputs of one conversion run: what the probe resolved to, the
      chunks of the transcode's diagnostic output, and how each of the three
      ffmpeg processes (transcode, HLS, DASH) ended. */
  datatype ConversionRun = ConversionRun(
    probe: Option<real>,
    transcodeOutput: seq<string>,
    transcode: ProcessEnd,
    hls: ProcessEnd,
    dash: ProcessEnd)

  /** The message `runConversion` rejects with: that of the first stage
      that fails, or `None` when it resolves. */
  function Rejection(run: ConversionRun): Option<string>
  {
    if RunFfmpeg(run.transcode).Failed? then Some(RunFfmpeg(run.transcode).message)
    else if RunFfmpeg(run.hls).Failed? then Some(RunFfmpeg(run.hls).message)
    else if RunFfmpeg(run.dash).Failed? then Some(RunFfmpeg(run.dash).message)
    else None
  }

  /** The status `runConversion` is in when it settles: that of the first
      failing stage, or `done`. */
  function StoppedAt(run: ConversionRun): Status
  {
    if RunFfmpeg(run.transcode).Failed? then Converting
    else if RunFfmpeg(run.hls).Failed? then PackagingHls
    else if RunFfmpeg(run.dash).Failed? then PackagingDash
    else Done
  }

  /** The statuses set after the transcode, up to the one it settles in. */
  function PackagingTrail(run: ConversionRun): seq<Status>
  {
    match StoppedAt(run)
    case Converting => []
    case PackagingHls => [PackagingHls]
    case PackagingDash => [PackagingHls, PackagingDash]
    case _ => [PackagingHls, PackagingDash, Done]
  }

  /** The statuses `runConversion` sets, in order, up to the one it settles in. */
  function StatusTrail(run: ConversionRun): seq<Status>
  {
    [Probing, Converting] + PackagingTrail(run)
  }

  /** The record once the probe has resolved and the transcode's output has
      been read: the duration recorded and the progress updated chunk by chunk. */
  function Converted(job: Job, probe: Option<real>, chunks: seq<string>): Job
  {
    job.(status := Converting, duration := probe, progress := ProgressAfter(chunks, probe, job.progress))
  }

  /** The record after packaging: the status it stopped in, and progress 100
      when done. */
  function Packaged(job: Job, run: ConversionRun): Job
  {
    if StoppedAt(run) == Done then job.(status := Done, progress := 100)
    else job.(status := StoppedAt(run))
  }

  /** The record `runConversion` leaves behind when it settles. */
  function AfterRun(job: Job, run: ConversionRun): (r: Job)
    ensures r.status == Done <==> Rejection(run).None?
    ensures r.status == Done ==> r.progress == 100
    ensures r.status != Done ==>
      IsStage(r.status) && r.progress == ProgressAfter(run.transcodeOutput, run.probe, job.progress)
    ensures r.id == job.id && r.error == job.error && r.duration == run.probe
  {
    Packaged(Converted(job, run.probe, run.transcodeOutput), run)
  }

  /** The record after `runConversion` and the upload handler's `catch`:
      a rejection turns the job into `error` with the rejection's message. */
  function RunResult(job: Job, run: ConversionRun): (r: Job)
    ensures r.status == Done || r.status == Error
    ensures r.status == Done <==> Rejection(run).None?
    ensures r.status == Error ==> r.error == Rejection(run)
    ensures r.status == Done ==> r.progress == 100 && r.error == job.error
  {
    var settled := AfterRun(job, run);
    match Rejection(run)
    case None => settled
    case Some(message) => settled.(status := Error, error := Some(message))
  }

  /** A run rejects exactly when some ffmpeg process did not close with 0,
      and then it stops at the first such stage. */
  lemma RejectionIffStageFails(run: ConversionRun)
    ensures Rejection(run).None? <==>
      run.transcode == Closed(Some(0)) && run.hls == Closed(Some(0)) && run.dash == Closed(Some(0))
    ensures Rejection(run).None? <==> StatusTrail(run) == Lifecycle[1..]
  {
  }

  /** The statuses of a run, after creation and followed by `error` when the
      run rejects, form a history of allowed changes. */
  lemma RunHistoryIsPath(run: ConversionRun)
    ensures IsPath([Queued] + StatusTrail(run))
    ensures Rejection(run).Some? ==> IsPath([Queued] + StatusTrail(run) + [Error])
    ensures Rejection(run).None? ==> [Queued] + StatusTrail(run) == Lifecycle
  {
  }

  /** A successful run ends `done` at 100 with no error; a failed one ends in
      `error` with the message of the first failing stage and the progress the
      transcode reached, which is below 100. */
  lemma RunResultOutcome(job: Job, run: ConversionRun)
    requires job.status == Queued && JobInvariant(job)
    ensures var r := RunResult(job, run);
      JobInvariant(r) && IsTerminal(r.status) &&
      (r.status == Done <==> Rejection(run).None?) &&
      (r.status == Done ==> r.progress == 100 && r.error.None?) &&
      (r.status == Error ==>
         r.error == Rejection(run) &&
         r.progress == ProgressAfter(run.transcodeOutput, run.probe, 0) && r.progress <= 99)
  {
  }

  /** The probe never fails a job: whatever it resolves to, the run ends in
      the same status with the same error. */
  lemma ProbeNeverDecidesOutcome(job: Job, run: ConversionRun, other: Option<real>)
    ensures RunResult(job, run).status == RunResult(job, run.(probe := other)).status
    ensures RunResult(job, run).error == RunResult(job, run.(probe := other)).error
  {
  }

  /** Without a usable duration the transcode never moves progress. */
  lemma UnknownDurationRun(job: Job, run: ConversionRun)
    requires run.probe.None? || run.probe == Some(0.0)
    requires Rejection(run).Some?
    ensures RunResult(job, run).progress == job.progress
  {
    UnknownDurationKeepsProgress(run.transcodeOutput, run.probe, job.progress);
  }

  /** The run changes only status, progress, duration and error; the id,
      the paths and the creation time are kept. */
  lemma RunKeepsIdentity(job: Job, run: ConversionRun)
    ensures var r := RunResult(job, run);
      r.id == job.id && r.inputPath == job.inputPath && r.jobDir == job.jobDir &&
      r.outputPath == job.outputPath && r.hlsDir == job.hlsDir &&
      r.dashDir == job.dashDir && r.createdAt == job.createdAt && r.duration == run.probe
  {
  }
}
