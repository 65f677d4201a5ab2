/** The browser page (public/app.js): its module-level state and the
    handlers that change it. The page reaches the server through two
    channels, an `EventSource` on the progress stream and a one-second
    polling loop on the status endpoint; the point of the handlers is that
    at most one polling loop runs, never beside an open event source, and
    that both channels are gone once the job reaches a final status. */
module Client {
  import opened Wrappers
  import opened Notifications
  import Jobs

  /** `setProgress`'s clamp to the progress bar's range. */
  function Clamp(value: int): (c: int)
    ensures 0 <= c <= 100
    ensures 0 <= value <= 100 ==> c == value
    ensures value < 0 ==> c == 0
    ensures value > 100 ==> c == 100
  {
    if value > 100 then 100 else if value < 0 then 0 else value
  }

  /** How a polling tick reads the reported status: the two final ones,
      or anything else (including none). */
  datatype Reported = ReportedDone | ReportedError | ReportedOther

  function Classify(statusName: string): Reported
  {
    if statusName == "done" then ReportedDone
    else if statusName == "error" then ReportedError
    else ReportedOther
  }

  /** The page recognises exactly the server's names of the two final
      statuses, and no other status name. */
  lemma ClassifyStatusName(s: Jobs.Status)
    ensures Classify(Jobs.StatusName(s)) == ReportedDone <==> s == Jobs.Done
    ensures Classify(Jobs.StatusName(s)) == ReportedError <==> s == Jobs.Error
  {
  }

  /** The status line's texts. */
  function StatusLine(statusName: string): string { "Status: " + statusName }
  function ErrorLine(message: string): string { "Error: " + message }

  /** The message shown for a failed job: its error, or a generic one when
      it has none. */
  function FailureMessage(error: Option<string>): string
  {
    if error.None? || error.value == "" then "Conversion failed" else error.value
  }

  const NoLink := "#"
  const SelectFirst := "Select a file first."
  const NoLinkAvailable := "No link available"

  /** What the upload request came back with: a non-OK response, an OK
      response with the payload's `jobId` (absent or empty counts as
      missing), or a thrown error with its message. */
  datatype UploadReply = UploadNotOk | UploadOk(jobId: Option<string>) | UploadThrew(message: string)

  /** What one polling tick's request came back with: a non-OK response,
      a status body, or a thrown error with its message. */
  datatype PollReply =
    | PollNotOk
    | PollBody(progress: Option<int>, status: string, error: Option<string>)
    | PollThrew(message: string)

  class Page {
    /** `currentFile`, by name. */
    var currentFile: Option<string>
    /** The status line's text. */
    var status: string
    /** The progress bar's value. */
    var progress: int
    /** `setBusy`: the file input and the convert button are disabled. */
    var busy: bool
    /** The upload request of the current conversion is in flight. */
    var uploading: bool
    /** The job whose progress the page follows. */
    var jobId: string
    /** `pollTimer` is non-null. */
    var pollTimer: bool
    /** How many polling intervals the browser is running: the one held in
        `pollTimer`, plus any that were overwritten without being cleared. */
    var pollLoops: nat
    /** `eventSource` is non-null and open. */
    var eventSourceOpen: bool
    /** The three links and whether each (with its copy button) is shown. */
    var downloadHref: string
    var hlsHref: string
    var dashHref: string
    var downloadShown: bool
    var hlsShown: bool
    var dashShown: bool

    /** At most one polling loop, and it is the one `pollTimer` holds; never
        polling beside an open event source; no channel while the upload is
        in flight; no channel at all while the page is idle. */
    ghost predicate Valid()
      reads this
    {
      pollLoops <= 1 && (pollLoops == 1 <==> pollTimer) &&
      !(pollTimer && eventSourceOpen) &&
      (uploading ==> busy && !pollTimer && !eventSourceOpen) &&
      (!busy ==> !pollTimer && !eventSourceOpen && !uploading) &&
      0 <= progress <= 100
    }

    /** The three links as shown: where each points and whether it (with
        its copy button) is visible. */
    ghost function Links(): (string, string, string, bool, bool, bool)
      reads this
    {
      (downloadHref, hlsHref, dashHref, downloadShown, hlsShown, dashShown)
    }

    /** The page as loaded. */
    constructor ()
      ensures Valid()
      ensures currentFile.None? && !busy && progress == 0
      ensures !pollTimer && pollLoops == 0 && !eventSourceOpen
    {
      currentFile := None;
      status := "";
      progress := 0;
      busy := false;
      uploading := false;
      jobId := "";
      pollTimer := false;
      pollLoops := 0;
      eventSourceOpen := false;
      downloadHref, hlsHref, dashHref := NoLink, NoLink, NoLink;
      downloadShown, hlsShown, dashShown := false, false, false;
    }

    /** `setProgress`. */
    method SetProgress(value: int)
      modifies this`progress
      ensures progress == Clamp(value)
    {
      progress := Clamp(value);
    }

    /** `resetDownload`: hide every link and point it nowhere. */
    method ResetDownload()
      modifies this`downloadHref, this`hlsHref, this`dashHref,
               this`downloadShown, this`hlsShown, this`dashShown
      ensures downloadHref == NoLink && hlsHref == NoLink && dashHref == NoLink
      ensures !downloadShown && !hlsShown && !dashShown
    {
      downloadHref, hlsHref, dashHref := NoLink, NoLink, NoLink;
      downloadShown, hlsShown, dashShown := false, false, false;
    }

    /** `clearTimers`: stop the polling interval held in `pollTimer` and
        close the event source, whichever exist. */
    method ClearTimers()
      requires pollTimer ==> pollLoops >= 1
      modifies this`pollTimer, this`pollLoops, this`eventSourceOpen
      ensures !pollTimer && !eventSourceOpen
      ensures pollLoops == if old(pollTimer) then old(pollLoops) - 1 else old(pollLoops)
    {
      if pollTimer {
        pollLoops := pollLoops - 1;
        pollTimer := false;
      }
      if eventSourceOpen {
        eventSourceOpen := false;
      }
    }

    /** `startPolling`: start a new interval and keep it in `pollTimer`,
        without looking at what `pollTimer` held before; the callers are
        what keep a second loop from starting. */
    method StartPolling(id: string)
      modifies this`pollTimer, this`pollLoops, this`jobId
      ensures pollTimer && pollLoops == old(pollLoops) + 1 && jobId == id
    {
      pollTimer := true;
      pollLoops := pollLoops + 1;
      jobId := id;
    }

    /** Point each link at a URL and show it (with its copy button), for
        each URL that is given. */
    method RevealLinks(downloadUrl: string, hlsUrl: string, dashUrl: string)
      modifies this`downloadHref, this`hlsHref, this`dashHref,
               this`downloadShown, this`hlsShown, this`dashShown
      ensures downloadUrl != "" ==> downloadShown && downloadHref == downloadUrl
      ensures hlsUrl != "" ==> hlsShown && hlsHref == hlsUrl
      ensures dashUrl != "" ==> dashShown && dashHref == dashUrl
      ensures downloadUrl == "" ==> downloadShown == old(downloadShown) && downloadHref == old(downloadHref)
      ensures hlsUrl == "" ==> hlsShown == old(hlsShown) && hlsHref == old(hlsHref)
      ensures dashUrl == "" ==> dashShown == old(dashShown) && dashHref == old(dashHref)
    {
      if downloadUrl != "" {
        downloadHref, downloadShown := downloadUrl, true;
      }
      if hlsUrl != "" {
        hlsHref, hlsShown := hlsUrl, true;
      }
      if dashUrl != "" {
        dashHref, dashShown := dashUrl, true;
      }
    }

    /** The common end of a conversion as the page sees it: a final status
        line, not busy, both channels torn down. */
    method Settle(text: string)
      requires Valid() && busy && !uploading
      modifies this`status, this`busy, this`pollTimer, this`pollLoops, this`eventSourceOpen
      ensures Valid()
      ensures status == text && !busy
      ensures !pollTimer && pollLoops == 0 && !eventSourceOpen
    {
      status := text;
      ClearTimers();
      busy := false;
    }

    /** `handleFiles`: an empty selection changes nothing; otherwise the
        first file becomes the current one and the links and progress are
        reset. */
    method HandleFiles(files: seq<string>)
      requires Valid()
      modifies this`currentFile, this`status, this`progress,
               this`downloadHref, this`hlsHref, this`dashHref,
               this`downloadShown, this`hlsShown, this`dashShown
      ensures Valid()
      ensures |files| == 0 ==>
        currentFile == old(currentFile) && status == old(status) && progress == old(progress) &&
        downloadShown == old(downloadShown) && hlsShown == old(hlsShown) && dashShown == old(dashShown) &&
        downloadHref == old(downloadHref) && hlsHref == old(hlsHref) && dashHref == old(dashHref)
      ensures |files| > 0 ==>
        currentFile == Some(files[0]) && status == "Selected: " + files[0] && progress == 0 &&
        !downloadShown && !hlsShown && !dashShown &&
        downloadHref == NoLink && hlsHref == NoLink && dashHref == NoLink
      ensures busy == old(busy) && uploading == old(uploading) && jobId == old(jobId)
      ensures pollTimer == old(pollTimer) && pollLoops == old(pollLoops) && eventSourceOpen == old(eventSourceOpen)
    {
      if |files| == 0 {
        return;
      }
      currentFile := Some(files[0]);
      status := "Selected: " + files[0];
      ResetDownload();
      SetProgress(0);
    }

    /** The convert button's handler up to the upload request. The button
        is disabled while busy, so a click only comes from an idle page.
        Without a file only the status line changes; otherwise the page
        becomes busy, is reset, and both channels are torn down before the
        upload starts. */
    method ConvertClicked() returns (started: bool)
      requires Valid() && !busy
      modifies this`status, this`busy, this`uploading, this`progress,
               this`pollTimer, this`pollLoops, this`eventSourceOpen,
               this`downloadHref, this`hlsHref, this`dashHref,
               this`downloadShown, this`hlsShown, this`dashShown
      ensures Valid()
      ensures started <==> old(currentFile).Some?
      ensures !started ==>
        status == SelectFirst && !busy && !uploading &&
        currentFile == old(currentFile) && progress == old(progress) &&
        downloadShown == old(downloadShown) && hlsShown == old(hlsShown) && dashShown == old(dashShown) &&
        downloadHref == old(downloadHref) && hlsHref == old(hlsHref) && dashHref == old(dashHref) &&
        jobId == old(jobId) && pollLoops == old(pollLoops) &&
        pollTimer == old(pollTimer) && eventSourceOpen == old(eventSourceOpen)
      ensures started ==>
        busy && uploading && status == "Uploading..." && progress == 0 &&
        !downloadShown && !hlsShown && !dashShown &&
        downloadHref == NoLink && hlsHref == NoLink && dashHref == NoLink &&
        !pollTimer && pollLoops == 0 && !eventSourceOpen
      ensures currentFile == old(currentFile) && jobId == old(jobId)
    {
      if currentFile.None? {
        status := SelectFirst;
        return false;
      }
      busy := true;
      ResetDownload();
      SetProgress(0);
      status := "Uploading...";
      ClearTimers();
      uploading := true;
      started := true;
    }

    /** `listenProgress`: open the event source on the job's stream; when
        constructing it throws, fall back to polling. */
    method ListenProgress(id: string, constructorThrows: bool)
      requires Valid() && busy && !pollTimer && !eventSourceOpen && !uploading
      modifies this`pollTimer, this`pollLoops, this`jobId, this`eventSourceOpen
      ensures Valid() && jobId == id
      ensures eventSourceOpen <==> !constructorThrows
      ensures pollTimer <==> constructorThrows
    {
      jobId := id;
      if constructorThrows {
        StartPolling(id);
      } else {
        eventSourceOpen := true;
      }
    }

    /** The convert handler after the upload request settles: a job id
        starts listening; anything else reports the error and leaves the
        page idle with no channel. */
    method OnUploadReply(reply: UploadReply, constructorThrows: bool)
      requires Valid() && uploading
      modifies this`uploading, this`status, this`busy,
               this`pollTimer, this`pollLoops, this`jobId, this`eventSourceOpen
      ensures Valid() && !uploading
      ensures (reply.UploadOk? && reply.jobId.Some? && reply.jobId.value != "") ==>
        busy && status == "Converting..." && jobId == reply.jobId.value &&
        (eventSourceOpen <==> !constructorThrows) && (pollTimer <==> constructorThrows)
      ensures !(reply.UploadOk? && reply.jobId.Some? && reply.jobId.value != "") ==>
        !busy && !pollTimer && !eventSourceOpen &&
        status == ErrorLine(match reply
                               case UploadThrew(message) => message
                               case UploadNotOk => "Upload failed"
                               case UploadOk(_) => "Missing job id") &&
        jobId == old(jobId)
      ensures currentFile == old(currentFile) && progress == old(progress) && Links() == old(Links())
    {
      uploading := false;
      match reply
      case UploadNotOk =>
        status := ErrorLine("Upload failed");
        busy := false;
      case UploadThrew(message) =>
        status := ErrorLine(message);
        busy := false;
      case UploadOk(id) =>
        if id.None? || id.value == "" {
          status := ErrorLine("Missing job id");
          busy := false;
        } else {
          status := "Converting...";
          ListenProgress(id.value, constructorThrows);
        }
    }

    /** The event source's `progress` listener: show the progress (clamped)
        and the status. */
    method OnProgressEvent(value: Option<int>, statusName: string)
      requires Valid() && eventSourceOpen
      modifies this`progress, this`status
      ensures Valid()
      ensures progress == if value.Some? then Clamp(value.value) else old(progress)
      ensures status == if statusName != "" then StatusLine(statusName) else old(status)
    {
      if value.Some? {
        SetProgress(value.value);
      }
      if statusName != "" {
        status := StatusLine(statusName);
      }
    }

    /** The event source's `done` listener: show each link the event
        carries, report done at 100, leave busy and tear down both
        channels. */
    method OnDoneEvent(downloadUrl: string, hlsUrl: string, dashUrl: string)
      requires Valid() && eventSourceOpen
      modifies this`status, this`progress, this`busy,
               this`pollTimer, this`pollLoops, this`eventSourceOpen,
               this`downloadHref, this`hlsHref, this`dashHref,
               this`downloadShown, this`hlsShown, this`dashShown
      ensures Valid()
      ensures downloadUrl != "" ==> downloadShown && downloadHref == downloadUrl
      ensures hlsUrl != "" ==> hlsShown && hlsHref == hlsUrl
      ensures dashUrl != "" ==> dashShown && dashHref == dashUrl
      ensures downloadUrl == "" ==> downloadShown == old(downloadShown) && downloadHref == old(downloadHref)
      ensures hlsUrl == "" ==> hlsShown == old(hlsShown) && hlsHref == old(hlsHref)
      ensures dashUrl == "" ==> dashShown == old(dashShown) && dashHref == old(dashHref)
      ensures status == "Done" && progress == 100 && !busy
      ensures !pollTimer && pollLoops == 0 && !eventSourceOpen
      ensures currentFile == old(currentFile) && jobId == old(jobId)
    {
      RevealLinks(downloadUrl, hlsUrl, dashUrl);
      SetProgress(100);
      Settle("Done");
    }

    /** The event source's `onerror`: unless a poll timer exists, tear
        down and fall back to polling. With an open event source no poll
        timer exists, so this always switches to exactly one polling loop. */
    method OnEventSourceError()
      requires Valid() && eventSourceOpen
      modifies this`pollTimer, this`pollLoops, this`jobId, this`eventSourceOpen
      ensures Valid()
      ensures pollTimer && pollLoops == 1 && !eventSourceOpen && jobId == old(jobId)
    {
      if !pollTimer {
        ClearTimers();
        StartPolling(jobId);
      }
    }

    /** One tick of the polling interval, once its request settles. A
        non-OK response changes nothing and polling goes on. A body updates
        progress and status; `done` shows the three links built from the
        job id (the same the `done` event carries), reports done at 100,
        leaves busy and tears down both channels; `error` reports the job's
        error, leaves busy and tears down. A thrown error reports its
        message, leaves busy and tears down. */
    method OnPollTick(reply: PollReply)
      requires Valid() && pollTimer
      modifies this`status, this`progress, this`busy,
               this`pollTimer, this`pollLoops, this`eventSourceOpen,
               this`downloadHref, this`hlsHref, this`dashHref,
               this`downloadShown, this`hlsShown, this`dashShown
      ensures Valid()
      ensures reply.PollNotOk? ==>
        status == old(status) && progress == old(progress) && busy == old(busy) &&
        pollTimer && pollLoops == 1
      ensures reply.PollBody? && Classify(reply.status) == ReportedDone ==>
        downloadShown && hlsShown && dashShown &&
        downloadHref == DownloadUrl(jobId) && hlsHref == HlsUrl(jobId) && dashHref == DashUrl(jobId) &&
        status == "Done" && progress == 100 && !busy
      ensures reply.PollBody? && Classify(reply.status) == ReportedError ==>
        status == ErrorLine(FailureMessage(reply.error)) && !busy
      ensures reply.PollThrew? ==> status == ErrorLine(reply.message) && !busy
      ensures (reply.PollThrew? || (reply.PollBody? && Classify(reply.status) != ReportedOther)) ==>
        !pollTimer && pollLoops == 0 && !eventSourceOpen
      ensures reply.PollBody? && Classify(reply.status) == ReportedOther ==>
        pollTimer && pollLoops == 1 && busy == old(busy) &&
        progress == (if reply.progress.Some? then Clamp(reply.progress.value) else old(progress)) &&
        status == (if reply.status != "" then StatusLine(reply.status) else old(status))
      ensures !(reply.PollBody? && Classify(reply.status) == ReportedDone) ==> Links() == old(Links())
      ensures reply.PollBody? && Classify(reply.status) != ReportedDone ==>
        progress == if reply.progress.Some? then Clamp(reply.progress.value) else old(progress)
      ensures !reply.PollBody? ==> progress == old(progress)
      ensures jobId == old(jobId) && currentFile == old(currentFile)
    {
      match reply
      case PollNotOk =>
        return;
      case PollThrew(message) =>
        Settle(ErrorLine(message));
      case PollBody(value, statusName, error) =>
        if value.Some? {
          SetProgress(value.value);
        }
        match Classify(statusName)
        case ReportedDone =>
          RevealLinks(DownloadUrl(jobId), HlsUrl(jobId), DashUrl(jobId));
          SetProgress(100);
          Settle("Done");
        case ReportedError =>
          Settle(ErrorLine(FailureMessage(error)));
        case ReportedOther =>
          if statusName != "" {
            status := StatusLine(statusName);
          }
    }

    /** `copyText`'s guard: an empty link or `#` is not copied and the
        status says so; otherwise the clipboard's answer (an input here) is
        the result. */
    method CopyText(text: string, clipboardAnswer: bool) returns (copied: bool)
      modifies this`status
      ensures text == "" || text == NoLink ==> !copied && status == NoLinkAvailable
      ensures text != "" && text != NoLink ==> copied == clipboardAnswer && status == old(status)
    {
      if text == "" || text == NoLink {
        status := NoLinkAvailable;
        return false;
      }
      copied := clipboardAnswer;
    }
  }
}
