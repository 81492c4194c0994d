/** What the download registry's transitions guarantee, and what they do not. */
module DownloadLemmas {
  import opened Outcomes
  import opened Downloads

  // ---------------------------------------------------------------------
  // webview2_response, one event at a time

  /** A start notification for an id not in the map registers a webview2
      record with an empty url and idle extraction; the event's own status is
      then applied to that record. */
  lemma StartNotificationRegisters(s: Snapshot, ev: StatusEvent, now: string)
    requires ev.downloadId.Present? && EventStarted(ev) && ev.downloadId.value !in s.downloads
    ensures var id := ev.downloadId.value;
      var status := EventStatus(ev);
      && id in RespondTo(s, ev, now).downloads
      && var d := RespondTo(s, ev, now).downloads[id];
      && d.id == id && d.url == "" && d.provider == Some(Webview2Provider)
      && d.filename == UnwrapOr(Typed(ev.filename), "Unknown file")
      && !d.extracted && d.extractedPath == None
      && d.extractionStatus == Some("idle") && d.extractionProgress == Some(0.0)
      && (status == Progress ==>
            d.status == Downloading
            && d.progress == (if ev.progress.Present? then ev.progress.value else 0.1))
      && (status == Success && ev.path.Present? ==>
            d.status == Completed && d.progress == 100.0 && d.path == Some(ev.path.value))
      && (status == Success && !ev.path.Present? ==> d.status == Downloading && d.progress == 10.0)
      && (status == Error ==> d.status == Failed && d.error == Typed(ev.message))
      && (status !in {Success, Error, Progress} ==>
            d.status == UnknownStatus && d.error == Some("Unknown status: " + status))
  {
  }

  /** `success` on an existing record: with a string path it completes the
      record (progress 100, that path, the event's filename if it has one);
      without one it marks the record downloading and raises its progress to at
      least 10, never lowering it. */
  lemma SuccessOnExistingRecord(s: Snapshot, ev: StatusEvent, now: string)
    requires ev.downloadId.Present? && ev.downloadId.value in s.downloads
    requires EventStatus(ev) == Success
    ensures var id := ev.downloadId.value;
      var d := s.downloads[id];
      var d' := RespondTo(s, ev, now).downloads[id];
      && (ev.path.Present? ==>
            && d'.status == Completed && d'.progress == 100.0
            && d'.path == Some(ev.path.value) && d'.downloadedAt == Some(now)
            && d'.filename == (if ev.filename.Present? then ev.filename.value else d.filename)
            && d'.error == d.error)
      && (!ev.path.Present? ==>
            && d'.status == Downloading
            && d'.progress >= 10.0 && d'.progress >= d.progress
            && (d'.progress == 10.0 || d'.progress == d.progress)
            && d' == d.(status := Downloading, progress := d'.progress))
      && id !in RespondTo(s, ev, now).tokens
  {
  }

  /** `progress` on an existing record changes it only when the event carries
      a number that is strictly greater than the stored progress, or the event
      is a start notification; otherwise the record is left exactly as it was.
      Progress events never touch the token table. */
  lemma ProgressOnExistingRecord(s: Snapshot, ev: StatusEvent, now: string)
    requires ev.downloadId.Present? && ev.downloadId.value in s.downloads
    requires EventStatus(ev) == Progress
    ensures var id := ev.downloadId.value;
      var d := s.downloads[id];
      var d' := RespondTo(s, ev, now).downloads[id];
      var moves := ev.progress.Present? && (ev.progress.value > d.progress || EventStarted(ev));
      && (moves ==> d' == d.(progress := ev.progress.value, status := Downloading))
      && (!moves ==> d' == d)
      && (!EventStarted(ev) ==> d'.progress >= d.progress)
      && RespondTo(s, ev, now).tokens == s.tokens
  {
  }

  /** `error` fails an existing record with the event's message; any status
      other than success, error and progress marks it unknown. */
  lemma ErrorOrOtherOnExistingRecord(s: Snapshot, ev: StatusEvent, now: string)
    requires ev.downloadId.Present? && ev.downloadId.value in s.downloads
    requires EventStatus(ev) !in {Success, Progress}
    ensures var id := ev.downloadId.value;
      var status := EventStatus(ev);
      var d := s.downloads[id];
      var d' := RespondTo(s, ev, now).downloads[id];
      && (status == Error ==>
            d' == d.(status := Failed, error := Typed(ev.message))
            && id !in RespondTo(s, ev, now).tokens)
      && (status != Error ==>
            d' == d.(status := UnknownStatus, error := Some("Unknown status: " + status))
            && RespondTo(s, ev, now).tokens == s.tokens)
  {
  }

  /** An event for an id that is not in the map (and is no start notification)
      adds a record exactly when the id is non-empty and the status is success,
      error or progress; the record is completed for a success with a `path`
      member, downloading for another success or a progress, failed for an error. */
  lemma EventForUnknownId(s: Snapshot, ev: StatusEvent, now: string)
    requires ev.downloadId.Present? && ev.downloadId.value !in s.downloads
    requires !EventStarted(ev)
    ensures var id := ev.downloadId.value;
      var status := EventStatus(ev);
      var s' := RespondTo(s, ev, now);
      && (id in s'.downloads <==> |id| > 0 && status in {Success, Error, Progress})
      && (id !in s'.downloads ==> s'.downloads == s.downloads)
      && (id in s'.downloads ==>
            var d := s'.downloads[id];
            && d.id == id && d.provider == Some(Webview2Provider) && d.url == ""
            && d.path == Typed(ev.path)
            && (status == Success && !ev.path.Absent? ==> d.status == Completed)
            && (status == Success && ev.path.Absent? ==> d.status == Downloading)
            && (status == Progress ==>
                  d.status == Downloading && d.progress == UnwrapOr(Typed(ev.progress), 0.0))
            && (status == Error ==> d.status == Failed && d.error == Typed(ev.message))
            && (status != Progress ==> d.progress == 0.0))
  {
  }

  /** A synthesised success is "completed" whenever the event has a `path`
      member, even one that is not a string: the record is then completed with
      no path, and with progress 0. */
  lemma SynthesisedCompletionWithoutPath(s: Snapshot, ev: StatusEvent, now: string)
    requires ev.downloadId.Present? && |ev.downloadId.value| > 0 && ev.downloadId.value !in s.downloads
    requires !EventStarted(ev) && EventStatus(ev) == Success && ev.path.Mistyped?
    ensures var d := RespondTo(s, ev, now).downloads[ev.downloadId.value];
      d.status == Completed && d.path == None && d.progress == 0.0
  {
  }

  /** Token bookkeeping: after a success or an error no token remains for the
      event's id; any other event leaves the token table as it was. */
  lemma EventTokens(s: Snapshot, ev: StatusEvent, now: string)
    requires ev.downloadId.Present?
    ensures var s' := RespondTo(s, ev, now);
      && (EventStatus(ev) in {Success, Error} ==> s'.tokens == s.tokens - {ev.downloadId.value})
      && (EventStatus(ev) !in {Success, Error} ==> s'.tokens == s.tokens)
  {
  }

  /** Terminal states are not sticky: a later, larger progress reopens a
      completed record as downloading. */
  lemma CompletedReopenedByProgress(s: Snapshot, id: string, p: real, now: string)
    requires id in s.downloads && s.downloads[id].status == Completed && p > s.downloads[id].progress
    ensures var ev := StatusEvent(Present(id), Present(Progress), Present(p), Absent, Absent, Absent, Absent);
      RespondTo(s, ev, now).downloads[id].status == Downloading
  {
  }

  // ---------------------------------------------------------------------
  // Cancellation, start, manual registration, extraction

  /** Without a token, cancellation reports an error and changes nothing. */
  lemma CancelWithoutToken(s: Snapshot, id: string, helperFound: bool)
    requires id !in s.tokens
    ensures CancelIn(s, id) == s
    ensures CancelResult(s, id, helperFound) == Err("No active download found for id: " + id)
  {
  }

  /** With a token, cancellation removes it and marks the record, if there is
      one, cancelled with progress 0 and a user-cancel message; nothing else changes.
      It succeeds unless the helper binary is missing. */
  lemma CancelWithToken(s: Snapshot, id: string, helperFound: bool)
    requires id in s.tokens
    ensures var s' := CancelIn(s, id);
      && s'.tokens == s.tokens - {id}
      && s'.downloads.Keys == s.downloads.Keys
      && (forall k :: k in s.downloads && k != id ==> s'.downloads[k] == s.downloads[k])
      && (id in s.downloads ==>
            s'.downloads[id] == s.downloads[id].(status := Cancelled, progress := 0.0,
                                                 error := Some(CancelledByUser)))
    ensures CancelResult(s, id, helperFound).Ok? <==> helperFound
  {
  }

  /** Starting a download makes it cancellable, and cancelling it right away
      leaves a cancelled record and no token. */
  lemma StartThenCancel(s: Snapshot, url: string, filename: string, id: string)
    ensures var s1 := StartIn(s, url, filename, id);
      && s1.downloads[id].status == Starting && id in s1.tokens
      && CancelResult(s1, id, true) == Ok(())
      && var s2 := CancelIn(s1, id);
      && s2.downloads[id].status == Cancelled && id !in s2.tokens
  {
  }

  /** Manual registration stores a completed record with progress 100 and the
      given path; it counts as extracted exactly when `<path>_extracted` exists,
      and then records that sibling as its extracted path. */
  lemma ManualRegistration(s: Snapshot, id: string, filename: string, path: string, now: string,
                           onDisk: string -> bool)
    ensures var s' := RegisterManualIn(s, id, filename, path, now, onDisk);
      var d := s'.downloads[id];
      var sibling := path + "_extracted";
      && d.id == id && d.filename == filename && d.status == Completed && d.progress == 100.0
      && d.path == Some(path) && d.error == None && d.provider == None
      && (d.extracted <==> onDisk(sibling))
      && (d.extractedPath.Some? <==> onDisk(sibling))
      && (d.extractedPath.Some? ==> d.extractedPath.value == sibling)
      && (onDisk(sibling) ==> d.extractionStatus == Some("completed") && d.extractionProgress == Some(100.0))
      && (!onDisk(sibling) ==> d.extractionStatus == Some("idle") && d.extractionProgress == Some(0.0))
      && s'.tokens == s.tokens
      && (forall k :: k in s.downloads && k != id ==> s'.downloads[k] == s.downloads[k])
  {
  }

  /** Extraction bookkeeping never touches the download lifecycle: only the
      id's extraction fields change, every other record and the tokens stay as
      they were. A success records the output directory as the extracted path. */
  lemma UnarchiveKeepsLifecycle(s: Snapshot, id: string, outputDir: string, extraction: Result<()>)
    ensures var s' := UnarchiveIn(s, id, outputDir, extraction);
      && s'.tokens == s.tokens && s'.downloads.Keys == s.downloads.Keys
      && (forall k :: k in s.downloads && k != id ==> s'.downloads[k] == s.downloads[k])
      && (id in s.downloads && extraction.Ok? ==>
            s'.downloads[id] == s.downloads[id].(extractionStatus := Some("completed"),
                                                 extractionProgress := Some(100.0),
                                                 extracted := true,
                                                 extractedPath := Some(outputDir)))
      && (id in s.downloads && extraction.Err? ==>
            s'.downloads[id] == s.downloads[id].(extractionStatus := Some("failed"),
                                                 extractionProgress := Some(0.0)))
  {
  }

  // ---------------------------------------------------------------------
  // Helper termination

  /** A clean exit (code 0) never changes the registry. */
  lemma CleanExitChangesNothing(s: Snapshot, id: string, payload: string, now: string)
    ensures AfterTermination(s, id, Some(0), payload, now) == s
  {
  }

  /** After an abnormal exit the helper's record, if it exists, is settled:
      completed or failed. When it was neither, it is now failed with the
      termination message, and its token is gone. */
  lemma AbnormalExitSettles(s: Snapshot, id: string, exitCode: Option<int>, payload: string, now: string)
    requires exitCode != Some(0) && id in s.downloads
    ensures var s' := AfterTermination(s, id, exitCode, payload, now);
      && s'.downloads[id].status in {Completed, Failed}
      && (s.downloads[id].status !in {Completed, Failed} ==>
            && s'.downloads[id].status == Failed
            && s'.downloads[id].error
               == Some("WebView2 process terminated unexpectedly with code: " + payload)
            && id !in s'.tokens)
      && (s.downloads[id].status in {Completed, Failed} ==> s' == s)
  {
    if s.downloads[id].status !in {Completed, Failed} {
      ErrorOrOtherOnExistingRecord(s, TerminationEvent(id, payload), now);
    }
  }

  /** A download the user cancelled is turned into a failure when its helper
      then exits abnormally. */
  lemma AbnormalExitOverridesCancel(s: Snapshot, id: string, exitCode: Option<int>, payload: string, now: string)
    requires exitCode != Some(0) && id in s.downloads && s.downloads[id].status == Cancelled
    ensures AfterTermination(s, id, exitCode, payload, now).downloads[id].status == Failed
  {
    AbnormalExitSettles(s, id, exitCode, payload, now);
  }

  // ---------------------------------------------------------------------
  // Registry invariants

  /** Every record is stored under its own id, and an extracted record says where. */
  ghost predicate WellFormed(s: Snapshot) {
    forall k :: k in s.downloads ==>
      s.downloads[k].id == k && (s.downloads[k].extracted ==> s.downloads[k].extractedPath.Some?)
  }

  /** No settled (completed, failed or cancelled) record holds a token. */
  ghost predicate SettledWithoutToken(s: Snapshot) {
    forall k :: k in s.downloads && s.downloads[k].status in {Completed, Failed, Cancelled} ==> k !in s.tokens
  }

  lemma RespondPreservesInvariants(s: Snapshot, ev: StatusEvent, now: string)
    ensures WellFormed(s) ==> WellFormed(RespondTo(s, ev, now))
    ensures SettledWithoutToken(s) ==> SettledWithoutToken(RespondTo(s, ev, now))
  {
  }

  lemma StartPreservesInvariants(s: Snapshot, url: string, filename: string, id: string)
    ensures WellFormed(s) ==> WellFormed(StartIn(s, url, filename, id))
    ensures SettledWithoutToken(s) ==> SettledWithoutToken(StartIn(s, url, filename, id))
  {
  }

  lemma CancelPreservesInvariants(s: Snapshot, id: string)
    ensures WellFormed(s) ==> WellFormed(CancelIn(s, id))
    ensures SettledWithoutToken(s) ==> SettledWithoutToken(CancelIn(s, id))
  {
  }

  lemma UnarchivePreservesInvariants(s: Snapshot, id: string, outputDir: string, extraction: Result<()>)
    ensures WellFormed(s) ==> WellFormed(UnarchiveIn(s, id, outputDir, extraction))
    ensures SettledWithoutToken(s) ==> SettledWithoutToken(UnarchiveIn(s, id, outputDir, extraction))
  {
  }

  lemma TerminationPreservesInvariants(s: Snapshot, id: string, exitCode: Option<int>, payload: string, now: string)
    ensures WellFormed(s) ==> WellFormed(AfterTermination(s, id, exitCode, payload, now))
    ensures SettledWithoutToken(s) ==> SettledWithoutToken(AfterTermination(s, id, exitCode, payload, now))
  {
    RespondPreservesInvariants(s, TerminationEvent(id, payload), now);
  }

  lemma RegisterManualPreservesWellFormed(s: Snapshot, id: string, filename: string, path: string,
                                          now: string, onDisk: string -> bool)
    requires WellFormed(s)
    ensures WellFormed(RegisterManualIn(s, id, filename, path, now, onDisk))
  {
  }

  /** When the helper binary is missing, starting a download reports an error
      but leaves a starting record holding a token, which no helper will settle. */
  lemma FailedStartLeavesStartingRecord(s: Snapshot, url: string, filename: string, id: string)
    ensures StartResult(false).Err?
    ensures var s' := StartIn(s, url, filename, id);
      s'.downloads[id].status == Starting && id in s'.tokens
  {
  }

  /** Manual registration does not drop the id's token: registering over a
      running download leaves a completed record that still holds one. */
  lemma RegisterManualKeepsToken(s: Snapshot, url: string, now: string, onDisk: string -> bool)
    ensures var s' := RegisterManualIn(StartIn(s, url, "a.zip", "d"), "d", "a.zip", "/tmp/a.zip", now, onDisk);
      s'.downloads["d"].status == Completed && "d" in s'.tokens && !SettledWithoutToken(s')
  {
  }

  // ---------------------------------------------------------------------
  // Sequences of status events

  /** The registry after handling each timestamped event in turn. */
  function Replay(s: Snapshot, evs: seq<(StatusEvent, string)>): Snapshot
    decreases |evs|
  {
    if evs == [] then s else Replay(RespondTo(s, evs[0].0, evs[0].1), evs[1..])
  }

  /** Status events never create tokens and never remove records. */
  lemma {:induction false} ReplayShrinksTokensKeepsRecords(s: Snapshot, evs: seq<(StatusEvent, string)>)
    ensures Replay(s, evs).tokens <= s.tokens
    ensures s.downloads.Keys <= Replay(s, evs).downloads.Keys
    decreases |evs|
  {
    if evs != [] {
      ReplayShrinksTokensKeepsRecords(RespondTo(s, evs[0].0, evs[0].1), evs[1..]);
    }
  }

  /** Once any success or error event for an id has been handled, that id holds
      no token, whatever events follow. */
  lemma {:induction false} ReplayTerminalEventClearsToken(s: Snapshot, evs: seq<(StatusEvent, string)>, i: nat, id: string)
    requires i < |evs| && evs[i].0.downloadId == Present(id)
    requires EventStatus(evs[i].0) in {Success, Error}
    ensures id !in Replay(s, evs).tokens
    decreases |evs|
  {
    var s1 := RespondTo(s, evs[0].0, evs[0].1);
    if i == 0 {
      assert id !in s1.tokens;
      ReplayShrinksTokensKeepsRecords(s1, evs[1..]);
    } else {
      ReplayTerminalEventClearsToken(s1, evs[1..], i - 1, id);
    }
  }

  /** A download's progress never goes down under any status events, for any
      ids, as long as none is a start notification and no reported progress
      exceeds 100 (the value a success with a path sets). */
  lemma {:induction false} ReplayProgressNeverDrops(s: Snapshot, evs: seq<(StatusEvent, string)>, id: string)
    requires id in s.downloads && s.downloads[id].progress <= 100.0
    requires forall j :: 0 <= j < |evs| ==>
      !EventStarted(evs[j].0) && (evs[j].0.progress.Present? ==> evs[j].0.progress.value <= 100.0)
    ensures id in Replay(s, evs).downloads
    ensures s.downloads[id].progress <= Replay(s, evs).downloads[id].progress <= 100.0
    decreases |evs|
  {
    if evs != [] {
      var s1 := RespondTo(s, evs[0].0, evs[0].1);
      assert s1.downloads[id].progress >= s.downloads[id].progress;
      ReplayProgressNeverDrops(s1, evs[1..], id);
    }
  }

  /** A start notification resets the progress of a record that already exists:
      the start flag lets any progress value through, even a smaller one. */
  lemma StartNotificationLowersProgress(d: DownloadInfo, now: string)
    requires d.progress == 50.0
    ensures var s := Snapshot(map[d.id := d], {});
      var ev := StatusEvent(Present(d.id), Present(Progress), Present(5.0), Absent, Absent, Absent, Present(true));
      RespondTo(s, ev, now).downloads[d.id].progress == 5.0
  {
  }

  /** A success with a path sets progress to 100 even when the record was
      further along, so a progress above 100 drops. */
  lemma SuccessCapsProgress(d: DownloadInfo, now: string)
    requires d.progress == 150.0
    ensures var s := Snapshot(map[d.id := d], {});
      var ev := StatusEvent(Present(d.id), Present(Success), Absent, Present("/tmp/a.zip"), Absent, Absent, Absent);
      RespondTo(s, ev, now).downloads[d.id].progress == 100.0
  {
  }

  // ---------------------------------------------------------------------
  // Scenarios

  /** Start, progress 42, then success with a path: the record ends completed. */
  lemma StartProgressSuccessScenario(now: string)
    ensures var s0 := StartIn(Snapshot(map[], {}), "http://x/file.zip", "file.zip", "d1");
      var s1 := RespondTo(s0, StatusEvent(Present("d1"), Present(Progress), Present(42.0), Absent, Absent, Absent, Absent), now);
      var s2 := RespondTo(s1, StatusEvent(Present("d1"), Present(Success), Absent, Present("/tmp/file.zip"), Absent, Absent, Absent), now);
      && s0.downloads["d1"].status == Starting
      && s1.downloads["d1"].status == Downloading && s1.downloads["d1"].progress == 42.0
      && s2.downloads["d1"].status == Completed && s2.downloads["d1"].progress == 100.0
      && s2.downloads["d1"].path == Some("/tmp/file.zip")
      && "d1" !in s2.tokens
  {
  }

  /** An error for an id never seen before is recorded as a failed download. */
  lemma ErrorForUnknownIdScenario(now: string)
    ensures var s := RespondTo(Snapshot(map[], {}), StatusEvent(Present("d2"), Present(Error), Absent, Absent, Absent, Present("disk full"), Absent), now);
      s.downloads["d2"].status == Failed && s.downloads["d2"].error == Some("disk full")
  {
  }
}
