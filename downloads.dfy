/** The download registry of the Tauri back end, as values: one `DownloadInfo`
    record per download id, the status events the helper process sends, and the
    transition of the registry under each command, as pure functions.
    The class `Registry.ActiveDownloads` performs the same transitions in place
    and is specified by these functions. */
module Downloads {
  import opened Outcomes

  // Values of `DownloadInfo.status` written by the back end
  const Starting: string := "starting"
  const Downloading: string := "downloading"
  const Completed: string := "completed"
  const Failed: string := "failed"
  const Cancelled: string := "cancelled"
  const UnknownStatus: string := "unknown"

  // Values of the `status` field of a status event that have their own rule
  const Success: string := "success"
  const Error: string := "error"
  const Progress: string := "progress"

  const Webview2Provider: string := "webview2"
  const CancelledByUser: string := "Download cancelled by user"
  const ExtractedSuffix: string := "_extracted"

  /** One download attempt (the `DownloadInfo` struct). `progress` is an `f32`
      in the source; it is only compared, set to constants and set to the value an
      event reports, never computed with, so it is a real here. */
  datatype DownloadInfo = DownloadInfo(
    id: string,
    filename: string,
    url: string,
    progress: real,
    status: string,
    path: Option<string>,
    error: Option<string>,
    provider: Option<string>,
    downloadedAt: Option<string>,
    extracted: bool,
    extractedPath: Option<string>,
    extractionStatus: Option<string>,
    extractionProgress: Option<real>)

  /** One member of the JSON object a status event is: missing, present with the
      JSON type the back end asks for, or present with another type (null included). */
  datatype Field<T> = Absent | Present(value: T) | Mistyped

  /** `response.get(name).and_then(as_...)`: the value only when it has the expected type. */
  function Typed<T>(f: Field<T>): Option<T> {
    if f.Present? then Some(f.value) else None
  }

  /** A status event as the helper process prints it on one line of its output. */
  datatype StatusEvent = StatusEvent(
    downloadId: Field<string>,
    status: Field<string>,
    progress: Field<real>,
    path: Field<string>,
    filename: Field<string>,
    message: Field<string>,
    downloadStarted: Field<bool>)

  /** The status string of an event; a missing or non-string status reads as "unknown". */
  function EventStatus(ev: StatusEvent): string {
    if ev.status.Present? then ev.status.value else UnknownStatus
  }

  /** `downloadStarted` is true only when it is the JSON boolean `true`. */
  predicate EventStarted(ev: StatusEvent) {
    ev.downloadStarted == Present(true)
  }

  /** The registry at one instant: the records by id and the ids that hold a
      cancellation token (only the presence of a token matters). */
  datatype Snapshot = Snapshot(downloads: map<string, DownloadInfo>, tokens: set<string>)

  // ---------------------------------------------------------------------
  // webview2_response

  /** The record a start notification registers for an id not yet in the map. */
  function StartNotificationRecord(id: string, ev: StatusEvent): DownloadInfo {
    DownloadInfo(id, UnwrapOr(Typed(ev.filename), "Unknown file"), "", 0.1, Downloading,
                 None, None, Some(Webview2Provider), None, false, None, Some("idle"), Some(0.0))
  }

  /** The rule for an event about a record that exists: it rewrites only the
      lifecycle fields and leaves identity, source and extraction state alone. */
  function ApplyStatus(d: DownloadInfo, ev: StatusEvent, now: string): (d': DownloadInfo)
    ensures d'.id == d.id && d'.url == d.url && d'.provider == d.provider
    ensures d'.extracted == d.extracted && d'.extractedPath == d.extractedPath
    ensures d'.extractionStatus == d.extractionStatus && d'.extractionProgress == d.extractionProgress
  {
    var status := EventStatus(ev);
    if status == Success then
      if ev.path.Present? then
        d.(status := Completed, progress := 100.0, path := Some(ev.path.value),
           downloadedAt := Some(now),
           filename := if ev.filename.Present? then ev.filename.value else d.filename)
      else
        d.(status := Downloading, progress := if d.progress < 10.0 then 10.0 else d.progress)
    else if status == Error then
      d.(status := Failed, error := Typed(ev.message))
    else if status == Progress then
      if ev.progress.Present? && (ev.progress.value > d.progress || EventStarted(ev)) then
        d.(progress := ev.progress.value, status := Downloading)
      else
        d
    else
      d.(status := UnknownStatus, error := Some("Unknown status: " + status))
  }

  /** An event for an unknown id is turned into a record only when the id is
      non-empty and the status is one of success, error and progress. */
  predicate Synthesises(id: string, ev: StatusEvent) {
    |id| > 0 && EventStatus(ev) in {Success, Error, Progress}
  }

  /** The record synthesised from an event about an unknown id. A success counts
      as completed when the event has a `path` member of any JSON type. */
  function SynthesisedRecord(id: string, ev: StatusEvent): DownloadInfo {
    var status := EventStatus(ev);
    DownloadInfo(
      id,
      UnwrapOr(Typed(ev.filename), "Unknown file"),
      "",
      if status == Progress then UnwrapOr(Typed(ev.progress), 0.0) else 0.0,
      if status == Success then (if ev.path.Absent? then Downloading else Completed)
      else if status == Progress then Downloading
      else if status == Error then Failed
      else UnknownStatus,
      Typed(ev.path),
      if status == Error then Typed(ev.message) else None,
      Some(Webview2Provider),
      None,
      false,
      None,
      Some("idle"),
      Some(0.0))
  }

  /** The token table after an event for `id`: success and error drop its token. */
  function TokensAfter(tokens: set<string>, id: string, ev: StatusEvent): set<string> {
    if EventStatus(ev) in {Success, Error} then tokens - {id} else tokens
  }

  /** The registry after `webview2_response` handles `ev` at time `now`.
      An event without a string `downloadId` is refused and changes nothing;
      otherwise only the event's own id is touched, and no record is removed. */
  function RespondTo(s: Snapshot, ev: StatusEvent, now: string): (s': Snapshot)
    ensures !ev.downloadId.Present? ==> s' == s
    ensures ev.downloadId.Present? ==>
      var id := ev.downloadId.value;
      && s.downloads.Keys <= s'.downloads.Keys <= s.downloads.Keys + {id}
      && (forall k :: k in s.downloads && k != id ==> s'.downloads[k] == s.downloads[k])
      && s'.tokens <= s.tokens
      && (forall k :: k in s.tokens && k != id ==> k in s'.tokens)
  {
    if !ev.downloadId.Present? then s
    else
      var id := ev.downloadId.value;
      var m := if EventStarted(ev) && id !in s.downloads
               then s.downloads[id := StartNotificationRecord(id, ev)]
               else s.downloads;
      var m' := if id in m then m[id := ApplyStatus(m[id], ev, now)]
                else if Synthesises(id, ev) then m[id := SynthesisedRecord(id, ev)]
                else m;
      Snapshot(m', TokensAfter(s.tokens, id, ev))
  }

  /** What `webview2_response` returns. */
  function ResponseResult(ev: StatusEvent): Result<()> {
    if ev.downloadId.Present? then Ok(()) else Err("Missing downloadId in WebView2 response")
  }

  // ---------------------------------------------------------------------
  // Helper termination

  /** After the helper exits, an error is reported only for a non-zero (or
      missing) exit code, and only when the record exists and is neither
      completed nor failed. A cancelled record is not excluded. */
  predicate ReportsTermination(s: Snapshot, id: string, exitCode: Option<int>) {
    && exitCode != Some(0)
    && id in s.downloads
    && s.downloads[id].status != Completed
    && s.downloads[id].status != Failed
  }

  /** The error event synthesised for an abnormal exit; `payload` is the debug
      rendering of the termination payload. */
  function TerminationEvent(id: string, payload: string): StatusEvent {
    StatusEvent(Present(id), Present(Error), Absent, Absent, Absent,
                Present("WebView2 process terminated unexpectedly with code: " + payload), Absent)
  }

  function AfterTermination(s: Snapshot, id: string, exitCode: Option<int>, payload: string, now: string): Snapshot {
    if ReportsTermination(s, id, exitCode) then RespondTo(s, TerminationEvent(id, payload), now) else s
  }

  // ---------------------------------------------------------------------
  // start_webview2_download, cancel_active_download, register_manual_download

  /** The record `start_webview2_download` registers before the helper runs. */
  function StartingRecord(id: string, url: string, filename: string): DownloadInfo {
    DownloadInfo(id, filename, url, 0.0, Starting, None, None, Some(Webview2Provider),
                 None, false, None, Some("idle"), Some(0.0))
  }

  function StartIn(s: Snapshot, url: string, filename: string, id: string): Snapshot {
    Snapshot(s.downloads[id := StartingRecord(id, url, filename)], s.tokens + {id})
  }

  /** What `start_webview2_download` returns once its registry block has run:
      the helper binary is looked up only after the record and token exist. */
  function StartResult(helperFound: bool): Result<()> {
    if helperFound then Ok(()) else Err("WebView2 binary not found in any expected location")
  }

  /** Cancellation acts only when the id holds a token: the token goes, and the
      record, if any, becomes cancelled. */
  function CancelIn(s: Snapshot, id: string): Snapshot {
    if id !in s.tokens then s
    else
      var m := if id in s.downloads
               then s.downloads[id := s.downloads[id].(status := Cancelled, progress := 0.0,
                                                        error := Some(CancelledByUser))]
               else s.downloads;
      Snapshot(m, s.tokens - {id})
  }

  /** What `cancel_active_download` returns; `helperFound` says whether the
      helper binary exists, which is checked after the registry was changed. */
  function CancelResult(s: Snapshot, id: string, helperFound: bool): Result<()> {
    if id !in s.tokens then Err("No active download found for id: " + id)
    else if !helperFound then Err("WebView2 binary not found")
    else Ok(())
  }

  /** The completed record `register_manual_download` stores; `onDisk` answers
      whether a path exists on disk, `now` is the registration time. */
  function ManualRecord(id: string, filename: string, path: string, now: string,
                        onDisk: string -> bool): DownloadInfo
  {
    var extractedPath := path + ExtractedSuffix;
    var extracted := onDisk(extractedPath);
    DownloadInfo(id, filename, "", 100.0, Completed, Some(path), None, None, Some(now),
                 extracted,
                 if extracted then Some(extractedPath) else None,
                 Some(if extracted then "completed" else "idle"),
                 Some(if extracted then 100.0 else 0.0))
  }

  function RegisterManualIn(s: Snapshot, id: string, filename: string, path: string, now: string,
                            onDisk: string -> bool): Snapshot
  {
    Snapshot(s.downloads[id := ManualRecord(id, filename, path, now, onDisk)], s.tokens)
  }

  // ---------------------------------------------------------------------
  // Extraction status kept by unarchive_file

  function ExtractionStartedIn(s: Snapshot, id: string): Snapshot {
    if id in s.downloads
    then Snapshot(s.downloads[id := s.downloads[id].(extractionStatus := Some("extracting"),
                                                      extractionProgress := Some(0.0))], s.tokens)
    else s
  }

  function ExtractionCompletedIn(s: Snapshot, id: string, outputDir: string): Snapshot {
    if id in s.downloads
    then Snapshot(s.downloads[id := s.downloads[id].(extractionStatus := Some("completed"),
                                                      extractionProgress := Some(100.0),
                                                      extracted := true,
                                                      extractedPath := Some(outputDir))], s.tokens)
    else s
  }

  function ExtractionFailedIn(s: Snapshot, id: string): Snapshot {
    if id in s.downloads
    then Snapshot(s.downloads[id := s.downloads[id].(extractionStatus := Some("failed"),
                                                      extractionProgress := Some(0.0))], s.tokens)
    else s
  }

  /** The registry after `unarchive_file`, given what the archive extractor reported. */
  function UnarchiveIn(s: Snapshot, id: string, outputDir: string, extraction: Result<()>): Snapshot {
    var started := ExtractionStartedIn(s, id);
    if extraction.Ok? then ExtractionCompletedIn(started, id, outputDir)
    else ExtractionFailedIn(started, id)
  }
}
