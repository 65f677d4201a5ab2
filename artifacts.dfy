/** The artifact endpoints of the server (server.js): `GET /api/download/:id`,
    `GET /api/hls/:id/:file?` and `GET /api/dash/:id/:file?`. Each answers
    404 "Not ready" unless the job exists and is done; the HLS and DASH
    handlers reduce the requested name with POSIX `path.basename` and serve
    it from the job's package directory. */
module Artifacts {
  import opened Wrappers
  import opened Jobs

  /** What a handler decides to do; sending the file itself is I/O. */
  datatype ArtifactResponse =
    | NotReady
    | SendDownload(path: string, downloadName: string)
    | SendFile(path: string)

  const HlsDefault := "index.m3u8"
  const DashDefault := "stream.mpd"
  const DownloadExtension := ".mp4"

  /** The gate shared by the three handlers. */
  predicate Ready(job: Option<Job>)
  {
    job.Some? && job.value.status == Done
  }

  /** `path` without its trailing `/` characters. */
  function TrimTrailingSlashes(path: string): (t: string)
    ensures t <= path
    ensures |t| == 0 || t[|t| - 1] != '/'
    ensures forall k :: |t| <= k < |path| ==> path[k] == '/'
    ensures |t| == 0 <==> forall k :: 0 <= k < |path| ==> path[k] == '/'
  {
    if |path| > 0 && path[|path| - 1] == '/' then TrimTrailingSlashes(path[..|path| - 1])
    else path
  }

  /** The text after the last `/` of `path` (all of it when it has none). */
  function LastSegment(path: string): (s: string)
    ensures '/' !in s
    ensures |s| == 0 <==> |path| == 0 || path[|path| - 1] == '/'
    ensures |s| <= |path| && s == path[|path| - |s|..]
    ensures |s| < |path| ==> path[|path| - |s| - 1] == '/'
  {
    if |path| == 0 || path[|path| - 1] == '/' then ""
    else
      var init := path[..|path| - 1];
      var s := LastSegment(init);
      assert init[|init| - |s|..] + [path[|path| - 1]] == path[|path| - |s| - 1..];
      s + [path[|path| - 1]]
  }

  /** POSIX `path.basename` without a suffix: drop the trailing `/`s, then
      keep what follows the last `/`. */
  function Basename(path: string): (b: string)
    ensures '/' !in b && |b| <= |path|
  {
    LastSegment(TrimTrailingSlashes(path))
  }

  /** The basename is one segment of the path: it contains no `/`, it sits
      in the path right after a `/` (or at its start) and is followed only
      by `/`s. */
  lemma BasenameIsSegment(path: string)
    ensures var t, b := TrimTrailingSlashes(path), Basename(path);
      '/' !in b && |b| <= |t| <= |path| && path[|t| - |b|..|t|] == b &&
      (|t| == |b| || path[|t| - |b| - 1] == '/') &&
      forall k :: |t| <= k < |path| ==> path[k] == '/'
  {
    var t := TrimTrailingSlashes(path);
    SliceOfPrefix(path, t, |t| - |Basename(path)|);
  }

  /** A slice of a prefix is the same slice of the whole. */
  lemma SliceOfPrefix(path: string, t: string, start: nat)
    requires t <= path && start <= |t|
    ensures path[start..|t|] == t[start..]
  {
    assert t == path[..|t|];
  }

  /** The basename is empty exactly when the path holds nothing but `/`s. */
  lemma BasenameEmpty(path: string)
    ensures |Basename(path)| == 0 <==> forall k :: 0 <= k < |path| ==> path[k] == '/'
  {
  }

  /** A name without `/` is its own basename; in particular `.` and `..` pass
      through unchanged, so the result is not confined to one directory
      level by this step alone. */
  lemma {:induction false} BasenameOfPlainName(name: string)
    requires '/' !in name
    ensures Basename(name) == name
    decreases |name|
  {
    if |name| > 0 {
      var init := name[..|name| - 1];
      assert '/' !in init by {
        assert forall k :: 0 <= k < |init| ==> init[k] == name[k];
      }
      BasenameOfPlainName(init);
      assert TrimTrailingSlashes(init) == init;
      assert name == init + [name[|name| - 1]];
    }
  }

  /** Sanitising twice is sanitising once. */
  lemma BasenameIdempotent(path: string)
    ensures Basename(Basename(path)) == Basename(path)
  {
    BasenameOfPlainName(Basename(path));
  }

  /** `basename(req.params.file || default)`: an absent or empty name falls
      back to the default. */
  function AssetName(requested: Option<string>, default: string): (name: string)
    ensures '/' !in name
    ensures requested.None? || requested.value == "" ==> name == Basename(default)
    ensures requested.Some? && requested.value != "" ==> name == Basename(requested.value)
  {
    Basename(if requested.None? || requested.value == "" then default else requested.value)
  }

  /** Without a name the HLS handler serves the master playlist and the
      DASH handler the manifest. */
  lemma DefaultAssets()
    ensures AssetName(None, HlsDefault) == HlsDefault
    ensures AssetName(Some(""), HlsDefault) == HlsDefault
    ensures AssetName(None, DashDefault) == DashDefault
    ensures AssetName(Some(""), DashDefault) == DashDefault
  {
    BasenameOfPlainName(HlsDefault);
    BasenameOfPlainName(DashDefault);
  }

  /** `GET /api/download/:id`: the converted MP4, offered as `<id>.mp4`. */
  function Download(job: Option<Job>): (r: ArtifactResponse)
    ensures r.NotReady? <==> !Ready(job)
    ensures !r.NotReady? ==>
      r == SendDownload(job.value.outputPath, job.value.id + DownloadExtension)
  {
    if !Ready(job) then NotReady
    else SendDownload(job.value.outputPath, job.value.id + DownloadExtension)
  }

  /** The shared body of the HLS and DASH handlers: gate, choose the name,
      sanitise it, and serve it from `dir`. */
  function ServeAsset(job: Option<Job>, dir: string, requested: Option<string>, default: string): (r: ArtifactResponse)
    ensures r.NotReady? <==> !Ready(job)
    ensures !r.NotReady? ==>
      r.SendFile? && r.path == JoinPath(dir, AssetName(requested, default))
  {
    if !Ready(job) then NotReady
    else SendFile(JoinPath(dir, AssetName(requested, default)))
  }

  /** `GET /api/hls/:id/:file?`. */
  function Hls(job: Option<Job>, requested: Option<string>): (r: ArtifactResponse)
    ensures r.NotReady? <==> !Ready(job)
  {
    if job.None? then NotReady
    else ServeAsset(job, job.value.hlsDir, requested, HlsDefault)
  }

  /** `GET /api/dash/:id/:file?`. */
  function Dash(job: Option<Job>, requested: Option<string>): (r: ArtifactResponse)
    ensures r.NotReady? <==> !Ready(job)
  {
    if job.None? then NotReady
    else ServeAsset(job, job.value.dashDir, requested, DashDefault)
  }

  /** Whatever name is requested, the file served is one path segment
      directly under the job's HLS or DASH directory. */
  lemma ServedDirectlyUnderPackage(job: Option<Job>, requested: Option<string>)
    requires Ready(job)
    ensures var r := Hls(job, requested);
      r.SendFile? && |r.path| > |job.value.hlsDir| &&
      r.path[..|job.value.hlsDir| + 1] == job.value.hlsDir + "/" &&
      '/' !in r.path[|job.value.hlsDir| + 1..]
    ensures var r := Dash(job, requested);
      r.SendFile? && |r.path| > |job.value.dashDir| &&
      r.path[..|job.value.dashDir| + 1] == job.value.dashDir + "/" &&
      '/' !in r.path[|job.value.dashDir| + 1..]
  {
    JoinedUnder(job.value.hlsDir, AssetName(requested, HlsDefault));
    JoinedUnder(job.value.dashDir, AssetName(requested, DashDefault));
  }

  /** Joining a directory and a name is the directory, a `/`, and the name. */
  lemma JoinedUnder(dir: string, name: string)
    ensures var p := JoinPath(dir, name);
      |p| > |dir| && p[..|dir| + 1] == dir + "/" && p[|dir| + 1..] == name
  {
  }
}
