/** The process-wide `jobs` map of the server (server.js) and the handlers
    that change it: the upload handler, each segment of `runConversion`
    between two `await`s, the upload handler's `catch`, and the cleanup timer.
    Each segment is one atomic method; other requests (status, progress,
    artifacts) may run between any two of them. */
module Registry {
  import opened Wrappers
  import opened ProgressExtractor
  import opened Jobs

  /** The answer of `POST /api/convert`. */
  datatype ConvertResponse = MissingFile | Accepted(jobId: string)

  /** The invariant of the registry's state: every record is consistent,
      is filed under its own id, and its status history is a path ending
      in its current status; armed cleanup timers belong to done jobs. */
  ghost predicate Consistent(jobs: map<string, Job>, history: map<string, seq<Status>>, timers: set<string>)
  {
    (forall id :: id in jobs ==>
      jobs[id].id == id && JobInvariant(jobs[id]) &&
      id in history && IsPath(history[id]) &&
      history[id][|history[id]| - 1] == jobs[id].status) &&
    (forall id :: id in timers ==> id in jobs && jobs[id].status == Done)
  }

  /** Filing one consistent record with its history keeps the state consistent. */
  lemma FileJob(jobs: map<string, Job>, history: map<string, seq<Status>>, timers: set<string>,
                id: string, job: Job, path: seq<Status>)
    requires Consistent(jobs, history, timers)
    requires job.id == id && JobInvariant(job) && IsPath(path) && path[|path| - 1] == job.status
    requires id in timers ==> job.status == Done
    ensures Consistent(jobs[id := job], history[id := path], timers)
  {
  }

  /** Recording one allowed status change of a job keeps the state consistent. */
  lemma ChangeStatus(jobs: map<string, Job>, history: map<string, seq<Status>>, timers: set<string>,
                     id: string, job: Job)
    requires Consistent(jobs, history, timers) && id in jobs && id !in timers
    requires job.id == id && JobInvariant(job) && Allowed(jobs[id].status, job.status)
    ensures Consistent(jobs[id := job], history[id := history[id] + [job.status]], timers)
  {
    PathExtend(history[id], job.status);
    FileJob(jobs, history, timers, id, job, history[id] + [job.status]);
  }

  /** Two updates of one key leave only the second. */
  lemma UpdateTwice<V>(m: map<string, V>, k: string, a: V, b: V)
    ensures m[k := a][k := b] == m[k := b]
  {
  }

  /** Re-filing a key under its own value changes nothing. */
  lemma UpdateSame<V>(m: map<string, V>, k: string)
    requires k in m
    ensures m[k := m[k]] == m
  {
  }

  /** A history extended by one status and then another is the history
      extended by both. */
  lemma ExtendTwice(m: map<string, seq<Status>>, k: string, h: seq<Status>, a: Status, b: Status)
    ensures m[k := h + [a]][k := h + [a] + [b]] == m[k := h + [a, b]]
  {
    assert h + [a] + [b] == h + [a, b];
  }

  /** The same with a history already extended by two statuses. */
  lemma ExtendThrice(m: map<string, seq<Status>>, k: string, h: seq<Status>, a: Status, b: Status, c: Status)
    ensures m[k := h + [a, b]][k := h + [a, b] + [c]] == m[k := h + [a, b, c]]
  {
    assert h + [a, b] + [c] == h + [a, b, c];
  }

  /** Before any chunk, the converted record only has the duration and
      the status set. */
  lemma ConvertedNone(job: Job, probe: Option<real>)
    ensures Converted(job, probe, []) == job.(duration := probe, status := Converting)
  {
  }

  /** One more chunk updates only the progress, through the stderr callback. */
  lemma ConvertedStep(job: Job, probe: Option<real>, chunks: seq<string>, i: nat)
    requires i < |chunks|
    ensures Converted(job, probe, chunks[..i + 1]) ==
      Converted(job, probe, chunks[..i]).(progress :=
        ProgressUpdate(chunks[i], probe, Converted(job, probe, chunks[..i]).progress))
  {
    assert chunks[..i + 1][..i] == chunks[..i];
  }

  /** The history of a whole run: probing, converting, then the packaging
      trail, filed one step at a time. */
  lemma ExtendRun(m: map<string, seq<Status>>, k: string, h: seq<Status>, t: seq<Status>)
    ensures m[k := h + [Probing]][k := h + [Probing] + [Converting]][k := h + [Probing] + [Converting] + t] ==
      m[k := h + ([Probing, Converting] + t)]
  {
    assert h + [Probing] + [Converting] + t == h + ([Probing, Converting] + t);
  }

  class JobRegistry {
    /** `jobs`: id to job record. */
    var jobs: map<string, Job>
    /** Ids whose one-hour cleanup timer is armed and has not fired yet. */
    var cleanupTimers: set<string>
    /** Every status each job has had, in order: what the status and
        progress endpoints can have observed. */
    ghost var history: map<string, seq<Status>>

    ghost predicate Valid()
      reads this
    {
      Consistent(jobs, history, cleanupTimers)
    }

    /** `jobs.get(id)`. */
    function Lookup(id: string): (r: Option<Job>)
      reads this
      ensures r.Some? <==> id in jobs
      ensures r.Some? ==> r.value == jobs[id]
    {
      if id in jobs then Some(jobs[id]) else None
    }

    constructor ()
      ensures Valid()
      ensures jobs == map[] && cleanupTimers == {}
    {
      jobs := map[];
      cleanupTimers := {};
      history := map[];
    }

    /** `jobs.set(jobId, job)` for a freshly created record. The id comes
        from `randomUUID`, so it is not in use. */
    method Create(id: string, inputPath: string, outputsDir: string, now: int)
      requires Valid() && id !in jobs
      modifies this
      ensures Valid()
      ensures jobs == old(jobs)[id := NewJob(id, inputPath, outputsDir, now)]
      ensures history == old(history)[id := [Queued]]
      ensures cleanupTimers == old(cleanupTimers)
    {
      jobs := jobs[id := NewJob(id, inputPath, outputsDir, now)];
      history := history[id := [Queued]];
    }

    /** The first segment of `runConversion`: return when the job is gone,
        otherwise set `probing` and start the probe. */
    method BeginProbe(id: string) returns (found: bool)
      requires Valid() && (id in jobs ==> jobs[id].status == Queued)
      modifies this
      ensures Valid()
      ensures found <==> id in old(jobs)
      ensures found ==> jobs == old(jobs)[id := old(jobs)[id].(status := Probing)]
      ensures found ==> history == old(history)[id := old(history)[id] + [Probing]]
      ensures !found ==> jobs == old(jobs) && history == old(history)
      ensures cleanupTimers == old(cleanupTimers)
    {
      found := id in jobs;
      if found {
        ChangeStatus(jobs, history, cleanupTimers, id, jobs[id].(status := Probing));
        jobs := jobs[id := jobs[id].(status := Probing)];
        history := history[id := history[id] + [Probing]];
      }
    }

    /** After the probe resolves: record the duration and set `converting`. */
    method FinishProbe(id: string, duration: Option<real>)
      requires Valid() && id in jobs && jobs[id].status == Probing
      modifies this
      ensures Valid()
      ensures jobs == old(jobs)[id := old(jobs)[id].(duration := duration, status := Converting)]
      ensures history == old(history)[id := old(history)[id] + [Converting]]
      ensures cleanupTimers == old(cleanupTimers)
    {
      ChangeStatus(jobs, history, cleanupTimers, id, jobs[id].(duration := duration, status := Converting));
      jobs := jobs[id := jobs[id].(duration := duration, status := Converting)];
      history := history[id := history[id] + [Converting]];
    }

    /** The transcode's stderr callback for one chunk. Progress never goes
        down and stays below 100 while converting. */
    method OnTranscodeOutput(id: string, chunk: string)
      requires Valid() && id in jobs && jobs[id].status == Converting
      modifies this
      ensures Valid()
      ensures jobs == old(jobs)[id := old(jobs)[id].(progress :=
                ProgressUpdate(chunk, old(jobs)[id].duration, old(jobs)[id].progress))]
      ensures old(jobs)[id].progress <= jobs[id].progress <= 99
      ensures history == old(history) && cleanupTimers == old(cleanupTimers)
    {
      var job := jobs[id];
      var updated := job.(progress := ProgressUpdate(chunk, job.duration, job.progress));
      FileJob(jobs, history, cleanupTimers, id, updated, history[id]);
      assert history[id := history[id]] == history;
      jobs := jobs[id := updated];
    }

    /** After the transcode resolves: set `packaging-hls`. */
    method FinishTranscode(id: string)
      requires Valid() && id in jobs && jobs[id].status == Converting
      modifies this
      ensures Valid()
      ensures jobs == old(jobs)[id := old(jobs)[id].(status := PackagingHls)]
      ensures history == old(history)[id := old(history)[id] + [PackagingHls]]
      ensures cleanupTimers == old(cleanupTimers)
    {
      ChangeStatus(jobs, history, cleanupTimers, id, jobs[id].(status := PackagingHls));
      jobs := jobs[id := jobs[id].(status := PackagingHls)];
      history := history[id := history[id] + [PackagingHls]];
    }

    /** After the HLS packaging resolves: set `packaging-dash`. */
    method FinishHls(id: string)
      requires Valid() && id in jobs && jobs[id].status == PackagingHls
      modifies this
      ensures Valid()
      ensures jobs == old(jobs)[id := old(jobs)[id].(status := PackagingDash)]
      ensures history == old(history)[id := old(history)[id] + [PackagingDash]]
      ensures cleanupTimers == old(cleanupTimers)
    {
      ChangeStatus(jobs, history, cleanupTimers, id, jobs[id].(status := PackagingDash));
      jobs := jobs[id := jobs[id].(status := PackagingDash)];
      history := history[id := history[id] + [PackagingDash]];
    }

    /** After the DASH packaging resolves: set `done` at 100 and schedule
        the cleanup. */
    method Complete(id: string)
      requires Valid() && id in jobs && jobs[id].status == PackagingDash
      modifies this
      ensures Valid()
      ensures jobs == old(jobs)[id := old(jobs)[id].(status := Done, progress := 100)]
      ensures history == old(history)[id := old(history)[id] + [Done]]
      ensures cleanupTimers == old(cleanupTimers) + {id}
    {
      ChangeStatus(jobs, history, cleanupTimers, id, jobs[id].(status := Done, progress := 100));
      jobs := jobs[id := jobs[id].(status := Done, progress := 100)];
      history := history[id := history[id] + [Done]];
      ScheduleCleanup(id);
    }

    /** `scheduleCleanup`: arm the timer when the job exists. */
    method ScheduleCleanup(id: string)
      requires Valid() && (id in jobs ==> jobs[id].status == Done)
      modifies this`cleanupTimers
      ensures Valid()
      ensures cleanupTimers == if id in jobs then old(cleanupTimers) + {id} else old(cleanupTimers)
    {
      if id in jobs {
        cleanupTimers := cleanupTimers + {id};
      }
    }

    /** The cleanup timer's callback: nothing when the id is gone; otherwise
        the files are removed (not modelled) and exactly that entry is
        deleted. Afterwards the id is absent, so a second firing changes
        nothing. Only an armed timer fires, and timers are armed only for
        done jobs, so a job that is removed was done. */
    method FireCleanup(id: string)
      requires Valid() && (id in cleanupTimers || id !in jobs)
      modifies this`jobs, this`cleanupTimers
      ensures Valid()
      ensures id in old(jobs) ==> old(jobs)[id].status == Done
      ensures id !in old(jobs) ==> jobs == old(jobs)
      ensures id !in jobs && jobs.Keys == old(jobs).Keys - {id}
      ensures forall other :: other in jobs ==> jobs[other] == old(jobs)[other]
      ensures cleanupTimers == old(cleanupTimers) - {id}
      ensures history == old(history)
    {
      if id in jobs {
        jobs := jobs - {id};
      }
      cleanupTimers := cleanupTimers - {id};
    }

    /** The upload handler's `catch`: when the job still exists, set `error`
        with the rejection's message; the progress is left as it was. */
    method Reject(id: string, message: string)
      requires Valid() && (id in jobs ==> IsStage(jobs[id].status))
      modifies this
      ensures Valid()
      ensures id !in old(jobs) ==> jobs == old(jobs) && history == old(history)
      ensures id in old(jobs) ==>
        jobs == old(jobs)[id := old(jobs)[id].(status := Error, error := Some(message))] &&
        history == old(history)[id := old(history)[id] + [Error]]
      ensures cleanupTimers == old(cleanupTimers)
    {
      if id in jobs {
        ChangeStatus(jobs, history, cleanupTimers, id, jobs[id].(status := Error, error := Some(message)));
        jobs := jobs[id := jobs[id].(status := Error, error := Some(message))];
        history := history[id := history[id] + [Error]];
      }
    }

    /** The probe's continuation and the transcode: record the duration,
        set `converting`, and feed each chunk of diagnostics to the stderr
        callback in arrival order. */
    method Convert(id: string, probe: Option<real>, chunks: seq<string>)
      requires Valid() && id in jobs && jobs[id].status == Probing
      modifies this
      ensures Valid() && id in jobs
      ensures jobs == old(jobs)[id := Converted(old(jobs)[id], probe, chunks)]
      ensures history == old(history)[id := old(history)[id] + [Converting]]
      ensures cleanupTimers == old(cleanupTimers)
    {
      ghost var start, m0 := jobs[id], jobs;
      FinishProbe(id, probe);
      ConvertedNone(start, probe);
      var i := 0;
      while i < |chunks|
        invariant 0 <= i <= |chunks|
        invariant Valid() && id in jobs
        invariant jobs == m0[id := Converted(start, probe, chunks[..i])]
        invariant history == old(history)[id := old(history)[id] + [Converting]]
        invariant cleanupTimers == old(cleanupTimers)
      {
        ghost var before := Converted(start, probe, chunks[..i]);
        OnTranscodeOutput(id, chunks[i]);
        ConvertedStep(start, probe, chunks, i);
        UpdateTwice(m0, id, before, before.(progress := ProgressUpdate(chunks[i], probe, before.progress)));
        i := i + 1;
      }
      assert chunks[..i] == chunks;
    }

    /** The packaging stages after the transcode's process ended: each
        stage that fails ends the run with its rejection; otherwise the
        job is done. */
    method Package(id: string, run: ConversionRun) returns (rejection: Option<string>)
      requires Valid() && id in jobs && jobs[id].status == Converting
      modifies this
      ensures Valid()
      ensures rejection == Rejection(run)
      ensures jobs == old(jobs)[id := Packaged(old(jobs)[id], run)]
      ensures history == old(history)[id := old(history)[id] + PackagingTrail(run)]
      ensures cleanupTimers == if rejection.None? then old(cleanupTimers) + {id} else old(cleanupTimers)
    {
      ghost var j0, h0, m0, hm0 := jobs[id], history[id], jobs, history;
      var transcode := RunFfmpeg(run.transcode);
      if transcode.Failed? {
        UpdateSame(m0, id);
        assert h0 + [] == h0;
        UpdateSame(hm0, id);
        return Some(transcode.message);
      }
      FinishTranscode(id);
      var hls := RunFfmpeg(run.hls);
      if hls.Failed? {
        return Some(hls.message);
      }
      FinishHls(id);
      UpdateTwice(m0, id, j0.(status := PackagingHls), j0.(status := PackagingDash));
      ExtendTwice(hm0, id, h0, PackagingHls, PackagingDash);
      var dash := RunFfmpeg(run.dash);
      if dash.Failed? {
        assert PackagingTrail(run) == [PackagingHls, PackagingDash];
        return Some(dash.message);
      }
      Complete(id);
      UpdateTwice(m0, id, j0.(status := PackagingDash), j0.(status := Done, progress := 100));
      ExtendThrice(hm0, id, h0, PackagingHls, PackagingDash, Done);
      assert PackagingTrail(run) == [PackagingHls, PackagingDash, Done];
      rejection := None;
    }

    /** `runConversion` with no other request in between: return when the
        job is gone, otherwise probe, transcode and package. */
    method RunConversion(id: string, run: ConversionRun) returns (rejection: Option<string>)
      requires Valid() && (id in jobs ==> jobs[id].status == Queued)
      modifies this
      ensures Valid()
      ensures id !in old(jobs) ==>
        rejection.None? && jobs == old(jobs) &&
        history == old(history) && cleanupTimers == old(cleanupTimers)
      ensures id in old(jobs) ==>
        rejection == Rejection(run) &&
        jobs == old(jobs)[id := AfterRun(old(jobs)[id], run)] &&
        history == old(history)[id := old(history)[id] + StatusTrail(run)] &&
        cleanupTimers == (if rejection.None? then old(cleanupTimers) + {id} else old(cleanupTimers))
    {
      var found := BeginProbe(id);
      if !found {
        return None;
      }
      ghost var j0, h0 := old(jobs)[id], old(history)[id];
      ghost var probing := j0.(status := Probing);
      ghost var converted := Converted(probing, run.probe, run.transcodeOutput);
      Convert(id, run.probe, run.transcodeOutput);
      UpdateTwice(old(jobs), id, probing, converted);
      rejection := Package(id, run);
      UpdateTwice(old(jobs), id, converted, Packaged(converted, run));
      assert converted == Converted(j0, run.probe, run.transcodeOutput);
      ExtendRun(old(history), id, h0, PackagingTrail(run));
    }

    /** `POST /api/convert`: without an uploaded file answer 400 "Missing
        file" and change nothing; otherwise create the job, answer with its
        id and run the conversion, turning a rejection into `error`. */
    method HandleConvert(upload: Option<string>, id: string, outputsDir: string, now: int, run: ConversionRun)
      returns (response: ConvertResponse)
      requires Valid() && id !in jobs
      modifies this
      ensures Valid()
      ensures upload.None? ==>
        response == MissingFile && jobs == old(jobs) &&
        cleanupTimers == old(cleanupTimers) && history == old(history)
      ensures upload.Some? ==>
        response == Accepted(id) &&
        jobs == old(jobs)[id := RunResult(NewJob(id, upload.value, outputsDir, now), run)] &&
        history == old(history)[id := [Queued] + StatusTrail(run) +
                                      (if Rejection(run).Some? then [Error] else [])] &&
        cleanupTimers == (if Rejection(run).None? then old(cleanupTimers) + {id} else old(cleanupTimers))
    {
      if upload.None? {
        return MissingFile;
      }
      ghost var job := NewJob(id, upload.value, outputsDir, now);
      ghost var settled := AfterRun(job, run);
      ghost var trail := [Queued] + StatusTrail(run);
      Create(id, upload.value, outputsDir, now);
      response := Accepted(id);
      var rejection := RunConversion(id, run);
      UpdateTwice(old(jobs), id, job, settled);
      UpdateTwice(old(history), id, [Queued], trail);
      if rejection.Some? {
        assert settled.status == StoppedAt(run) && IsStage(StoppedAt(run));
        Reject(id, rejection.value);
        UpdateTwice(old(jobs), id, settled, settled.(status := Error, error := Some(rejection.value)));
        UpdateTwice(old(history), id, trail, trail + [Error]);
      } else {
        assert trail + [] == trail;
      }
    }
  }
}
