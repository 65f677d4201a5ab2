/** What a client learns about a job: the status endpoint
    (`GET /api/status/:id`) and the server-sent event stream of
    `GET /api/progress/:id`, whose `sendUpdate` runs once on connection and
    then on every tick of an interval until it ends the stream. */
module Notifications {
  import opened Wrappers
  import opened Jobs
  import Registry

  /** One server-sent event: `progress` with the job's status, progress and
      error; `done` with the three artifact links; or `error` when the job
      is no longer known. */
  datatype Event =
    | ProgressEvent(status: Status, progress: int, error: Option<string>)
    | DoneEvent(downloadUrl: string, hlsUrl: string, dashUrl: string)
    | NotFoundEvent

  /** What one `sendUpdate` call writes, and whether it ends the stream
      (clearing its interval). */
  datatype Update = Update(events: seq<Event>, endStream: bool)

  const DownloadPrefix := "/api/download/"
  const HlsPrefix := "/api/hls/"
  const HlsPlaylist := "/index.m3u8"
  const DashPrefix := "/api/dash/"
  const DashManifest := "/stream.mpd"

  function DownloadUrl(id: string): string { DownloadPrefix + id }
  function HlsUrl(id: string): string { HlsPrefix + id + HlsPlaylist }
  function DashUrl(id: string): string { DashPrefix + id + DashManifest }

  /** The links of a done job name that job: different ids never share a
      link. */
  lemma UrlsDetermineJob(a: string, b: string)
    ensures DownloadUrl(a) == DownloadUrl(b) ==> a == b
    ensures HlsUrl(a) == HlsUrl(b) ==> a == b
    ensures DashUrl(a) == DashUrl(b) ==> a == b
  {
    if DownloadUrl(a) == DownloadUrl(b) {
      assert a == DownloadUrl(a)[|DownloadPrefix|..];
    }
    if HlsUrl(a) == HlsUrl(b) {
      assert a == HlsUrl(a)[|HlsPrefix|..|HlsUrl(a)| - |HlsPlaylist|];
      assert b == HlsUrl(b)[|HlsPrefix|..|HlsUrl(b)| - |HlsPlaylist|];
    }
    if DashUrl(a) == DashUrl(b) {
      assert a == DashUrl(a)[|DashPrefix|..|DashUrl(a)| - |DashManifest|];
      assert b == DashUrl(b)[|DashPrefix|..|DashUrl(b)| - |DashManifest|];
    }
  }

  /** `sendUpdate`: a missing job yields only the `error` event and leaves
      the stream open; an existing job yields exactly one `progress` event,
      followed by a `done` event with its links exactly when it is done;
      the stream ends exactly when the job is done or failed. */
  function SendUpdate(current: Option<Job>): (u: Update)
    ensures current.None? ==> u.events == [NotFoundEvent] && !u.endStream
    ensures current.Some? ==>
      1 <= |u.events| <= 2 &&
      u.events[0] == ProgressEvent(current.value.status, current.value.progress, current.value.error)
    ensures current.Some? ==> (|u.events| == 2 <==> current.value.status == Done)
    ensures current.Some? && |u.events| == 2 ==>
      var id := current.value.id;
      u.events[1] == DoneEvent(DownloadUrl(id), HlsUrl(id), DashUrl(id))
    ensures current.Some? ==> (u.endStream <==> IsTerminal(current.value.status))
    ensures forall k :: 0 <= k < |u.events| && u.events[k].DoneEvent? ==> k == |u.events| - 1 && u.endStream
  {
    match current
    case None => Update([NotFoundEvent], false)
    case Some(job) =>
      var progress := ProgressEvent(job.status, job.progress, job.error);
      if job.status == Done then
        Update([progress, DoneEvent(DownloadUrl(job.id), HlsUrl(job.id), DashUrl(job.id))], true)
      else
        Update([progress], job.status == Error)
  }

  /** For a consistent record, the update carries a `done` event exactly
      when it reports progress 100, and ends without one exactly when it
      reports an error message. */
  lemma UpdateOfConsistentJob(job: Job)
    requires JobInvariant(job)
    ensures var u := SendUpdate(Some(job));
      (|u.events| == 2 <==> u.events[0].progress == 100) &&
      (u.endStream && |u.events| == 1 <==> u.events[0].error.Some?)
  {
  }

  /** The stream as the client has received it so far. */
  datatype Stream = Stream(events: seq<Event>, ended: bool)

  /** One call of `sendUpdate` on the job as it is at that moment; once the
      interval is cleared nothing more is written. */
  function Tick(s: Stream, current: Option<Job>): (t: Stream)
    ensures s.events <= t.events && |t.events| <= |s.events| + 2
    ensures s.ended ==> t == s
    ensures !s.ended && current.None? ==> !t.ended
  {
    if s.ended then s
    else
      var u := SendUpdate(current);
      Stream(s.events + u.events, u.endStream)
  }

  /** The stream after `sendUpdate` has seen each of `observations` in turn. */
  function Replay(observations: seq<Option<Job>>): (r: Stream)
    ensures |r.events| <= 2 * |observations|
    ensures r.ended ==> exists k :: 0 <= k < |observations| && observations[k].Some?
  {
    if |observations| == 0 then Stream([], false)
    else Tick(Replay(observations[..|observations| - 1]), observations[|observations| - 1])
  }

  /** A `done` event is the last thing a stream carries, and ends it; an
      ended stream closes on a `done` event or on a progress event
      reporting `error`. */
  ghost predicate WellFormed(s: Stream)
  {
    (forall k :: 0 <= k < |s.events| && s.events[k].DoneEvent? ==> k == |s.events| - 1 && s.ended) &&
    (s.ended ==>
      |s.events| > 0 &&
      (s.events[|s.events| - 1].DoneEvent? ||
       (s.events[|s.events| - 1].ProgressEvent? && s.events[|s.events| - 1].status == Error)))
  }

  /** One more call of `sendUpdate` keeps the stream well formed, and never
      retracts what was already sent. */
  lemma TickKeepsWellFormed(s: Stream, current: Option<Job>)
    requires WellFormed(s)
    ensures WellFormed(Tick(s, current))
    ensures s.events <= Tick(s, current).events
    ensures s.ended ==> Tick(s, current) == s
  {
    if !s.ended {
      var u := SendUpdate(current);
      var t := Tick(s, current);
      assert forall k :: 0 <= k < |s.events| ==> t.events[k] == s.events[k];
      assert forall k :: |s.events| <= k < |t.events| ==> t.events[k] == u.events[k - |s.events|];
    }
  }

  /** Whatever the job goes through while the client listens, it receives
      at most one `done` event, that event is the last one, and the stream
      only ends on `done` or on `error`. */
  lemma {:induction false} ReplayWellFormed(observations: seq<Option<Job>>)
    ensures WellFormed(Replay(observations))
  {
    if |observations| > 0 {
      ReplayWellFormed(observations[..|observations| - 1]);
      TickKeepsWellFormed(Replay(observations[..|observations| - 1]), observations[|observations| - 1]);
    }
  }

  /** Events already sent are never taken back: the stream after a prefix
      of the observations is a prefix of the stream after all of them. */
  lemma {:induction false} ReplayPrefix(observations: seq<Option<Job>>, n: nat)
    requires n <= |observations|
    ensures Replay(observations[..n]).events <= Replay(observations).events
    decreases |observations|
  {
    if n < |observations| {
      var last := |observations| - 1;
      assert observations[..last][..n] == observations[..n];
      ReplayPrefix(observations[..last], n);
      ReplayWellFormed(observations[..last]);
      TickKeepsWellFormed(Replay(observations[..last]), observations[last]);
    } else {
      assert observations[..n] == observations;
    }
  }

  /** Once `sendUpdate` has ended the stream and cleared its interval,
      whatever happens to the job afterwards writes nothing more. */
  lemma {:induction false} ReplayAfterEnd(observations: seq<Option<Job>>, more: seq<Option<Job>>)
    requires Replay(observations).ended
    ensures Replay(observations + more) == Replay(observations)
    decreases |more|
  {
    if |more| > 0 {
      var all := observations + more;
      assert all[..|all| - 1] == observations + more[..|more| - 1];
      ReplayAfterEnd(observations, more[..|more| - 1]);
    } else {
      assert observations + more == observations;
    }
  }

  /** The answer of `GET /api/progress/:id`: 404 when the job is unknown at
      connection time, otherwise a stream. */
  datatype ProgressResponse = ProgressNotFound | EventStream(stream: Stream)

  /** Connect to the progress stream: `initial` is the job when the request
      arrives (the first `sendUpdate` runs in the same turn and sees it),
      `later` what each interval tick sees. A known job's stream opens with
      its progress. */
  function Subscribe(initial: Option<Job>, later: seq<Option<Job>>): (r: ProgressResponse)
    ensures r.ProgressNotFound? <==> initial.None?
    ensures r.EventStream? ==>
      |r.stream.events| > 0 &&
      r.stream.events[0] == ProgressEvent(initial.value.status, initial.value.progress, initial.value.error)
    ensures r.EventStream? ==> WellFormed(r.stream)
  {
    if initial.None? then ProgressNotFound
    else
      var observations := [initial] + later;
      ReplayWellFormed(observations);
      ReplayPrefix(observations, 1);
      assert observations[..1] == [initial];
      assert Replay([initial]) == Tick(Replay([]), initial);
      EventStream(Replay(observations))
  }

  /** The answer of `GET /api/status/:id`. */
  datatype StatusReply =
    | StatusNotFound
    | StatusBody(id: string, status: Status, progress: int, error: Option<string>)

  /** 404 "Not found" for an unknown job, otherwise its id, status,
      progress and error. */
  function StatusOf(job: Option<Job>): (r: StatusReply)
    ensures r.StatusNotFound? <==> job.None?
    ensures r.StatusBody? ==>
      r.id == job.value.id && r.status == job.value.status &&
      r.progress == job.value.progress && r.error == job.value.error
  {
    match job
    case None => StatusNotFound
    case Some(j) => StatusBody(j.id, j.status, j.progress, j.error)
  }

  /** What a poller can rely on: the reply for a known id names that job,
      reports a percentage, reports 100 exactly when done and an error
      exactly when failed. */
  lemma StatusOfRegistry(reg: Registry.JobRegistry, id: string)
    requires reg.Valid()
    ensures StatusOf(reg.Lookup(id)).StatusNotFound? <==> id !in reg.jobs
    ensures var r := StatusOf(reg.Lookup(id));
      r.StatusBody? ==>
        r.id == id && 0 <= r.progress <= 100 &&
        (r.status == Done <==> r.progress == 100) &&
        (r.status == Error <==> r.error.Some?)
  {
  }
}
