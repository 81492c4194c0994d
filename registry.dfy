/** The `ActiveDownloads` state of the back end and the commands that change it
    in place. Each command is one atomic step (the source holds the registry's
    write lock for the whole update) and is specified by the pure transition of
    module `Downloads` that it performs. */
module Registry {
  import opened Outcomes
  import opened Downloads

  class ActiveDownloads {
    /** The records, by download id. */
    var downloads: map<string, DownloadInfo>
    /** The ids that hold a cancellation token. */
    var tokens: set<string>

    function Value(): Snapshot
      reads this
    {
      Snapshot(downloads, tokens)
    }

    /** `ActiveDownloads::default()`: no records, no tokens. */
    constructor ()
      ensures downloads == map[] && tokens == {}
    {
      downloads := map[];
      tokens := {};
    }

    /** `webview2_response`: handles one status event from the helper process. */
    method Webview2Response(ev: StatusEvent, now: string) returns (res: Result<()>)
      modifies this
      ensures res == ResponseResult(ev)
      ensures Value() == RespondTo(old(Value()), ev, now)
    {
      if !ev.downloadId.Present? {
        return Err("Missing downloadId in WebView2 response");
      }
      var id := ev.downloadId.value;
      var status := EventStatus(ev);
      var started := EventStarted(ev);

      if started && id !in downloads {
        downloads := downloads[id := StartNotificationRecord(id, ev)];
      }

      if id in downloads {
        var d := downloads[id];
        if status == Success {
          if ev.path.Present? {
            d := d.(status := Completed, progress := 100.0, path := Some(ev.path.value),
                    downloadedAt := Some(now));
            if ev.filename.Present? {
              d := d.(filename := ev.filename.value);
            }
          } else {
            d := d.(status := Downloading);
            if d.progress < 10.0 {
              d := d.(progress := 10.0);
            }
          }
        } else if status == Error {
          d := d.(status := Failed, error := Typed(ev.message));
        } else if status == Progress {
          if ev.progress.Present? {
            if ev.progress.value > d.progress || started {
              d := d.(progress := ev.progress.value, status := Downloading);
            }
          }
        } else {
          d := d.(status := UnknownStatus, error := Some("Unknown status: " + status));
        }
        downloads := downloads[id := d];
      } else if |id| > 0 && (status == Success || status == Error || status == Progress) {
        downloads := downloads[id := SynthesisedRecord(id, ev)];
      }

      if status == Success || status == Error {
        tokens := tokens - {id};
      }
      res := Ok(());
    }

    /** `start_webview2_download` from its registry block on: a starting record
        and a fresh token for the id, replacing whatever was there, and then the
        lookup of the helper binary (`helperFound`), whose failure is reported
        after the registry has been changed. */
    method StartWebview2Download(url: string, filename: string, downloadId: string, helperFound: bool)
      returns (res: Result<()>)
      modifies this
      ensures res == StartResult(helperFound)
      ensures Value() == StartIn(old(Value()), url, filename, downloadId)
    {
      downloads := downloads[downloadId := StartingRecord(downloadId, url, filename)];
      tokens := tokens + {downloadId};
      if !helperFound {
        return Err("WebView2 binary not found in any expected location");
      }
      res := Ok(());
    }

    /** `cancel_active_download`. `helperFound` stands for the check that the
        helper binary exists, made after the registry has been changed. */
    method CancelActiveDownload(downloadId: string, helperFound: bool) returns (res: Result<()>)
      modifies this
      ensures res == CancelResult(old(Value()), downloadId, helperFound)
      ensures Value() == CancelIn(old(Value()), downloadId)
    {
      if downloadId in tokens {
        tokens := tokens - {downloadId};
        if downloadId in downloads {
          var d := downloads[downloadId];
          d := d.(status := Cancelled, progress := 0.0, error := Some(CancelledByUser));
          downloads := downloads[downloadId := d];
        }
        if !helperFound {
          return Err("WebView2 binary not found");
        }
        res := Ok(());
      } else {
        res := Err("No active download found for id: " + downloadId);
      }
    }

    /** `register_manual_download`: records a file already on disk as completed,
        probing `<path>_extracted` with `onDisk`. */
    method RegisterManualDownload(downloadId: string, filename: string, path: string, now: string,
                                  onDisk: string -> bool)
      modifies this
      ensures Value() == RegisterManualIn(old(Value()), downloadId, filename, path, now, onDisk)
    {
      var extractedPath := path + ExtractedSuffix;
      var extracted := onDisk(extractedPath);
      downloads := downloads[downloadId := DownloadInfo(
        downloadId, filename, "", 100.0, Completed, Some(path), None, None, Some(now),
        extracted,
        if extracted then Some(extractedPath) else None,
        Some(if extracted then "completed" else "idle"),
        Some(if extracted then 100.0 else 0.0))];
    }

    /** The three registry updates of `unarchive_file`; `extraction` is what the
        archive extractor reported, and is also what the command returns. */
    method UnarchiveFile(downloadId: string, outputDir: string, extraction: Result<()>)
      returns (res: Result<()>)
      modifies this
      ensures res == extraction
      ensures Value() == UnarchiveIn(old(Value()), downloadId, outputDir, extraction)
    {
      if downloadId in downloads {
        var d := downloads[downloadId];
        downloads := downloads[downloadId := d.(extractionStatus := Some("extracting"),
                                                extractionProgress := Some(0.0))];
      }
      if extraction.Ok? {
        if downloadId in downloads {
          var d := downloads[downloadId];
          downloads := downloads[downloadId := d.(extractionStatus := Some("completed"),
                                                  extractionProgress := Some(100.0),
                                                  extracted := true,
                                                  extractedPath := Some(outputDir))];
        }
      } else {
        if downloadId in downloads {
          var d := downloads[downloadId];
          downloads := downloads[downloadId := d.(extractionStatus := Some("failed"),
                                                  extractionProgress := Some(0.0))];
        }
      }
      res := extraction;
    }

    /** The `Terminated` arm of the helper's event loop: decides whether to
        report an error and, if so, feeds the synthesised error event through
        `Webview2Response`. */
    method HelperTerminated(downloadId: string, exitCode: Option<int>, payload: string, now: string)
      modifies this
      ensures Value() == AfterTermination(old(Value()), downloadId, exitCode, payload, now)
    {
      if exitCode != Some(0) {
        var shouldReport := downloadId in downloads
          && downloads[downloadId].status != Completed
          && downloads[downloadId].status != Failed;
        if shouldReport {
          var ignored := Webview2Response(TerminationEvent(downloadId, payload), now);
        }
      }
    }
  }
}
