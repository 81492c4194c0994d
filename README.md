# Download registry of the Chanomhub desktop back end, in Dafny

The Tauri back end of Chanomhub Desktop leaves the actual downloading to an external
helper process. The back end keeps a registry of downloads in one `ActiveDownloads` value.
The registry has two parts:

- a map from download id to a `DownloadInfo` record;
- a side table of cancellation tokens.

The registry changes in response to these inputs:

- a user starts a download;
- the helper reports a status event (`success`, `error`, `progress` or anything else);
- a user cancels a download;
- the helper exits abnormally;
- a user registers a file already on disk;
- the archive extractor reports progress.

At start-up, records left in flight by a previous run are reconciled. Finished downloads
can be promoted into a saved-games list kept in `AppState`. That list keeps the launch
configuration and icon the user attached to each game.

This project models that core:

- `outcomes.dfy` (module `Outcomes`): `Option` and `Result`.
- `downloads.dfy` (module `Downloads`): the records, the status events and the registry
  as a value (`Snapshot`: records plus the set of ids holding a token). Each command's
  effect on the registry is a pure function here.
  - A JSON member of an event is a `Field`: absent, present with the expected type, or
    present with another type. Only one reading tells the last case apart from an absent
    member: the `path` member is tested for presence at main.rs:846, but read as a string
    at main.rs:723 and 856. Every other member is read through its expected type.
- `registry.dfy` (module `Registry`): class `ActiveDownloads`, whose methods change
  `downloads` and `tokens` in place as the commands of `main.rs` do. Each method is proved
  to perform exactly the pure transition of `Downloads`.
- `download_lemmas.dfy` (module `DownloadLemmas`) holds what the transitions guarantee:
  - event by event;
  - over whole sequences of events, proved by induction;
  - two registry invariants, and which commands keep them.
- `state.dfy` (module `State`) covers `AppState`, its normalisation on load, the saved-game
  record and restart reconciliation (`cleanup_active_downloads`, a loop that rewrites
  records in place).
- `games.dfy` (module `Games`) covers `save_games`, `get_saved_games` and
  `save_launch_config`.

Statuses stay strings, as in the source, because a registry read back from disk may hold
any string. `progress` is an `f32` in the source. Here it is a `real`: it is only compared,
set to constants and set to the value an event reports, never computed with. Clocks and
file-system probes become parameters:

- `now` is the timestamp the source takes from `chrono::Utc::now()`;
- `onDisk` answers `Path::exists`;
- `helperFound` says whether the helper binary was found (by `start_webview2_download` and
  `cancel_active_download`, both after they have changed the registry). `helperFound = false`
  also stands for the other failures on the way to that binary, which the source reports
  with different texts (see Left out):
  - the resource directory cannot be resolved (main.rs:979, 1235);
  - the binary path is not valid UTF-8 (main.rs:995, 1268).
- `extraction` is the outcome the archive extractor reported;
- `exitCode` and `payload` describe how the helper exited.

The behaviour modelled is the code's, including these points:

- **Terminal states are not sticky.** A later, larger `progress` event reopens a completed
  record (`CompletedReopenedByProgress`).
- **Helper exit.** After a non-zero exit, only `completed` and `failed` records are spared.
  A `cancelled` record becomes `failed` (`AbnormalExitOverridesCancel`).
- **Synthesised success.** For an event that is not a start notification, a success for an unknown id is recorded as `completed` whenever
  the event has a `path` member, even a non-string one. Such a record keeps progress 0
  and has no path (`SynthesisedCompletionWithoutPath`).
- **Manual registration keeps tokens.** Registering over a running download keeps its
  token, so a completed record can still be cancellable (`RegisterManualKeepsToken`).
  Status events, start, cancel, extraction and helper exit all keep "no settled record
  holds a token" (`SettledWithoutToken`). Restart reconciliation keeps it only because
  tokens are never persisted (main.rs:35), so the reloaded registry holds none
  (`CleanupAfterLoadKeepsInvariants`). With a token it would not
  (`CleanupWithTokenBreaksInvariant`).
- **Progress can drop in two ways.** Without start notifications, and with reported values
  of at most 100, progress never decreases (`ReplayProgressNeverDrops`). A start
  notification lets any progress value through, even for a record that already exists,
  so 50 can become 5 (`StartNotificationLowersProgress`). The test is the event's
  `downloadStarted` flag, not whether the record was just created. A success with a path
  sets progress to 100 even from above 100 (`SuccessCapsProgress`).
- **A failed start is stranded.** `start_webview2_download` creates the `starting` record
  and its token before it looks for the helper binary. When the binary is missing, the
  command fails and no helper will ever settle that record
  (`FailedStartLeavesStartingRecord`).

## Model

| member | source | states |
|---|---|---|
| `Downloads.ApplyStatus` | src-tauri/src/main.rs:720-819 | An event about an existing record rewrites only its lifecycle fields. Id, url, provider and extraction state are kept. |
| `Downloads.RespondTo` | src-tauri/src/main.rs:643-914 | An event without a string `downloadId` changes nothing. Otherwise only the event's id is touched. No record is removed and no token is added. |
| `Registry.ActiveDownloads.constructor` | src-tauri/src/main.rs:31-37 | An empty registry holds no records and no tokens. |
| `Registry.ActiveDownloads.Webview2Response` | src-tauri/src/main.rs:643-914 | The in-place update performs exactly `RespondTo`. It returns Err "Missing downloadId in WebView2 response" exactly when the id is missing. |
| `Registry.ActiveDownloads.StartWebview2Download` | src-tauri/src/main.rs:1194-1262 | A `starting` webview2 record (progress 0, the url and filename, idle extraction) replaces any old one. The id gains a token. Then Err "WebView2 binary not found in any expected location" is returned if the helper binary is missing, with the change kept. |
| `Registry.ActiveDownloads.CancelActiveDownload` | src-tauri/src/main.rs:960-1018 | The in-place update performs `CancelIn`. Without a token the result is Err "No active download found for id: …". Otherwise the result is Ok, or Err when the helper binary is missing, after the change. |
| `Registry.ActiveDownloads.RegisterManualDownload` | src-tauri/src/main.rs:1026-1072 | The in-place update performs `RegisterManualIn`. |
| `Registry.ActiveDownloads.UnarchiveFile` | src-tauri/src/main.rs:66-174 | The registry moves through the extracting update, then the completed or failed one (`UnarchiveIn`). The extractor's outcome is returned; the UI notices that can also fail are not modelled (see Left out). |
| `Registry.ActiveDownloads.HelperTerminated` | src-tauri/src/main.rs:1316-1355 | An error event is fed through the response handler only when `ReportsTermination` holds (`AfterTermination`). |
| `DownloadLemmas.StartNotificationRegisters` | src-tauri/src/main.rs:678-718 | `downloadStarted=true` for an unknown id registers a record: webview2, empty url, idle/0 extraction, the event's filename or "Unknown file". The event's status is then applied: progress p (or 0.1), success 10 or completed 100, error failed, anything else unknown. |
| `DownloadLemmas.SuccessOnExistingRecord` | src-tauri/src/main.rs:722-763 | Success with a string path gives completed, progress 100, that path and time `now`. The event's filename is taken if it has one. Success without a path gives downloading, with progress raised to at least 10 and never lowered. The token goes. |
| `DownloadLemmas.ProgressOnExistingRecord` | src-tauri/src/main.rs:787-805 | Progress changes the record only if the value is strictly greater or `downloadStarted` is set; otherwise the record is unchanged. Without a start notification, progress never drops. Tokens are untouched. |
| `DownloadLemmas.ErrorOrOtherOnExistingRecord` | src-tauri/src/main.rs:764-818 | Error gives failed, with `message` as the error. Any other status gives unknown, with error "Unknown status: <s>". |
| `DownloadLemmas.EventForUnknownId` | src-tauri/src/main.rs:820-906 | For an event that is not a start notification, an unknown id gains a record if and only if it is non-empty and the status is success/error/progress; otherwise the map is unchanged. The new record is completed for success with a `path` member, downloading for other success or progress, failed (with message) for error. |
| `DownloadLemmas.SynthesisedCompletionWithoutPath` | src-tauri/src/main.rs:844-859 | For an event that is not a start notification: for every registry and every success event for a new non-empty id whose `path` member is not a string, the synthesised record is completed, with no path and progress 0. |
| `DownloadLemmas.EventTokens` | src-tauri/src/main.rs:908-910 | After success or error, exactly the event id's token is gone. Other events leave the tokens as they were. |
| `DownloadLemmas.CompletedReopenedByProgress` | src-tauri/src/main.rs:789-791 | A larger progress on a completed record sets it back to downloading. |
| `DownloadLemmas.CancelWithoutToken` | src-tauri/src/main.rs:1015-1016 | Cancel without a token returns Err and changes nothing. |
| `DownloadLemmas.CancelWithToken` | src-tauri/src/main.rs:968-974 | Cancel removes the token. An existing record becomes cancelled, with progress 0 and "Download cancelled by user". Nothing else changes. The result is Ok if and only if the helper is found. |
| `DownloadLemmas.StartThenCancel` | src-tauri/src/main.rs:1199-1217 | A started download is starting and cancellable. Cancelling it leaves it cancelled, with no token. |
| `DownloadLemmas.ManualRegistration` | src-tauri/src/main.rs:1040-1068 | The record is completed, with progress 100, `path=Some(path)`, no error and no provider. It is extracted if and only if `<path>_extracted` exists, with that extracted path exactly then. Extraction is completed/100 if extracted, else idle/0. Tokens and other records are unchanged. |
| `DownloadLemmas.UnarchiveKeepsLifecycle` | src-tauri/src/main.rs:84-169 | Extraction updates change only the id's extraction fields: every other record, the ids and the tokens stay whole. On success the record becomes exactly the old one with extraction completed/100, `extracted` set and the output directory as its extracted path. On failure it becomes exactly the old one with extraction failed/0. |
| `DownloadLemmas.CleanExitChangesNothing` | src-tauri/src/main.rs:1318 | Exit code 0 leaves the registry unchanged. |
| `DownloadLemmas.AbnormalExitSettles` | src-tauri/src/main.rs:1319-1353 | After a non-zero exit, an existing record is completed or failed. If it was neither, it is now failed, with the termination message and no token. |
| `DownloadLemmas.AbnormalExitOverridesCancel` | src-tauri/src/main.rs:1326-1327 | A cancelled record becomes failed when its helper exits abnormally. |
| `DownloadLemmas.RespondPreservesInvariants` | src-tauri/src/main.rs:678-910 | Status events keep two invariants. Every record is stored under its own id, and extracted implies an extracted path. No completed/failed/cancelled record holds a token. |
| `DownloadLemmas.StartPreservesInvariants` | src-tauri/src/main.rs:1199-1217 | Starting keeps both invariants. |
| `DownloadLemmas.CancelPreservesInvariants` | src-tauri/src/main.rs:968-974 | Cancelling keeps both invariants. |
| `DownloadLemmas.UnarchivePreservesInvariants` | src-tauri/src/main.rs:159-169 | Extraction updates keep both invariants. |
| `DownloadLemmas.TerminationPreservesInvariants` | src-tauri/src/main.rs:1339-1353 | Helper termination keeps both invariants. |
| `DownloadLemmas.RegisterManualPreservesWellFormed` | src-tauri/src/main.rs:1043-1068 | Manual registration keeps records under their ids, with extracted implying a path. |
| `DownloadLemmas.FailedStartLeavesStartingRecord` | src-tauri/src/main.rs:1199-1262 | With the helper binary missing, the start command returns Err, yet the record is left starting and holding a token. |
| `DownloadLemmas.RegisterManualKeepsToken` | src-tauri/src/main.rs:1043-1068 | Registering over a started download leaves a completed record that still holds a token. |
| `DownloadLemmas.ReplayShrinksTokensKeepsRecords` | src-tauri/src/main.rs:706-910 | Over any sequence of status events, tokens only disappear and records are never removed. |
| `DownloadLemmas.ReplayTerminalEventClearsToken` | src-tauri/src/main.rs:908-910 | Once a success or error for an id has been handled, that id has no token, whatever follows. |
| `DownloadLemmas.ReplayProgressNeverDrops` | src-tauri/src/main.rs:720-910 | Under any sequence of status events, of any kind and for any ids, a record's progress never decreases and stays at most 100. This holds when no event is a start notification and no reported progress exceeds 100. |
| `DownloadLemmas.StartNotificationLowersProgress` | src-tauri/src/main.rs:789 | A start notification with progress 5 lowers an existing record's progress from 50 to 5. |
| `DownloadLemmas.SuccessCapsProgress` | src-tauri/src/main.rs:725 | A success with a path lowers a progress of 150 to 100. |
| `DownloadLemmas.StartProgressSuccessScenario` | src-tauri/src/main.rs:1199-1217 | Start d1, then progress 42, then success with a path. d1 is starting, then downloading at 42, then completed at 100 with that path and no token. |
| `DownloadLemmas.ErrorForUnknownIdScenario` | src-tauri/src/main.rs:839-878 | An error "disk full" for an unseen id gives a failed record with that error. |
| `State.AppState.Default` | src-tauri/src/state.rs:47-55 | The default state has token, cloudinary, download_dir and games all None. |
| `State.AppState.NormaliseLoaded` | src-tauri/src/state.rs:176-181 | A missing games list becomes `Some([])`, and an existing one is kept. A missing download_dir becomes the default, and an existing one is kept. Token and cloudinary are untouched. |
| `State.LoadWithoutConfigFile` | src-tauri/src/state.rs:165-181 | With no config file the state has an empty games list, the default directory, and no token or cloudinary settings. |
| `State.CleanupIn` | src-tauri/src/state.rs:240-247 | Reconciliation keeps the ids and tokens, and leaves no record starting or downloading. |
| `State.CleanupActiveDownloads` | src-tauri/src/state.rs:240-247 | The in-place loop over the records performs exactly `CleanupIn`. |
| `State.CleanupEffect` | src-tauri/src/state.rs:241-245 | A starting/downloading record becomes failed with "Download interrupted due to application restart". Every other record is unchanged. |
| `State.CleanupWritesOnlyStatusAndError` | src-tauri/src/state.rs:243-244 | Only `status` and `error` are written. |
| `State.CleanupIdempotent` | src-tauri/src/state.rs:242-245 | Cleaning up twice gives the same registry as cleaning up once. |
| `State.CleanupAfterLoadKeepsInvariants` | src-tauri/src/state.rs:240-247 | On a reloaded registry, which holds no tokens, reconciliation keeps both registry invariants. |
| `State.CleanupWithTokenBreaksInvariant` | src-tauri/src/state.rs:242-245 | Reconciling a downloading record that still held a token would leave a failed record with a token. |
| `State.DownloadingRecordFailsAfterRestart` | src-tauri/src/state.rs:242-244 | A downloading record comes back failed, with a non-empty error. |
| `Games.FirstIndexOf` | src-tauri/src/main.rs:1091 | The result is the first position holding the id, or none if and only if no game has it. |
| `Games.ConvertGames` | src-tauri/src/main.rs:1087-1105 | The output has the same length and id order as the input. Download fields are copied, and `path` defaults to "". launch_config/icon_path come from the first stored game with that id, or are None when there is none. |
| `Games.SaveGames` | src-tauri/src/main.rs:1074-1111 | The saved-games list becomes the merged list. Other settings are untouched. |
| `Games.SaveGamesIdempotent` | src-tauri/src/main.rs:1085-1107 | Saving the same downloads twice stores the same list as saving them once. |
| `Games.KeepExisting` | src-tauri/src/main.rs:1126-1144 | The result is no longer than the list. The full list is kept, unchanged, if and only if every game's file or extracted folder exists. That nothing is added, and which games survive, is stated by `KeepExistingCounts`. |
| `Games.KeepExistingCounts` | src-tauri/src/main.rs:1126-1144 | Every copy of a game whose file or extracted folder exists is kept, and no copy of another game. An empty path, or no extracted path, counts as existing. |
| `Games.KeepExistingAppend` | src-tauri/src/main.rs:1126-1144 | Filtering a concatenation is concatenating the filtered parts, so the kept games stay in their original order. |
| `Games.KeepExistingCons` | src-tauri/src/main.rs:1126-1144 | The defining equation of the filter, restated at `[g] + rest` as a helper for `KeepExistingAppend` and `KeepExistingCounts`: the first game is kept if and only if its files are present, ahead of the filtered rest. |
| `Games.GetSavedGames` | src-tauri/src/main.rs:1113-1154 | The result is the filtered list. It is stored back only when its length differs. |
| `Games.SaveLaunchConfig` | src-tauri/src/main.rs:377-405 | The config and icon are set on the first game with the id. A missing id returns Err "Game with id … not found", but a missing list has already become empty. |
| `Games.LaunchConfigSurvivesResave` | src-tauri/src/main.rs:392-396 | A launch configuration just attached is kept when the game is saved again. |

## Left out

- Persistence is an opaque step and is not modelled:
  - `save_*_to_file` and `load_*_from_file`;
  - `verify_config_file`;
  - serde (de)serialisation.

  The model carries on as if every write succeeded. Where the source returns a write's Err after a state change, the model's result differs. For `unarchive_file` the final state differs too (see the `Registry.ActiveDownloads.UnarchiveFile` line below).
- Lock failures (`RwLock`/`Mutex` poisoning) and concurrency are not modelled. Each command is one atomic step.
- UI side channels are not modelled: `app.emit` events, notifications and dialogs.
- Spawning the helper process and reading its output (main.rs:1266-1359) are not modelled. This includes JSON line parsing and the `CommandEvent::Error` arm. Only the termination decision and its effect are modelled.
- The checks `start_webview2_download` makes before its registry block are not modelled: the WebView2 runtime and the save folder.
- `Registry.ActiveDownloads.StartWebview2Download`: of the steps after the registry block, only the binary lookup is modelled. Every one of these failures leaves the record starting with its token:
  - A failure to resolve the resource directory (main.rs:1235) returns Err "Failed to get resource dir: …". The model returns the binary-not-found text (`helperFound = false`) there.
  - An invalid binary path (main.rs:1268) returns Err "Invalid binary path". The model returns the binary-not-found text there too.
  - A failed spawn (main.rs:1266-1271) or final emit (main.rs:1361-1369) also returns Err. These are process and UI side channels, outside this model.
  - A failed write of the registry file (main.rs:1219) returns Err before the binary lookup. The model returns `StartResult(helperFound)` instead.
- `Registry.ActiveDownloads.CancelActiveDownload`: after the token is removed and the record is cancelled, the source can return other errors. The registry change is the same in every case, in the source and in the model; only the result differs:
  - A failure to resolve the resource directory (main.rs:979) returns Err "Failed to get resource dir: …". The model returns "WebView2 binary not found" (`helperFound = false`) there.
  - An invalid binary path (main.rs:995) returns Err "Invalid binary path". The model returns "WebView2 binary not found" there too.
  - The cancel spawn, emit and notification errors are not modelled. These are process and UI side channels.
- `Registry.ActiveDownloads.UnarchiveFile`: its UI notices can fail and return Err, and the model always returns the extractor's outcome instead. These notices are outside this model. Four UI cases, and one write failure, differ from the model:
  - if the first emit (main.rs:73-81) fails, the registry is not touched;
  - if the completion emit (main.rs:113-121) fails, the record stays `extracting`;
  - if the completion notification (main.rs:137-142) fails, the command returns Err after a successful extraction;
  - if the failure emit (main.rs:148-157) fails, the record stays `extracting` and the emit's error is returned;
  - if the write of the registry file after the `extracting` update (main.rs:93) fails, the command returns Err at once. The extractor never runs and the record stays `extracting`, whereas `UnarchiveIn` always ends in completed or failed.
- Foreign or OS-specific commands are not part of this model:
  - `launch_game`;
  - `extract_icon`;
  - `ensure_webview2_runtime`;
  - the archive extractor itself;
  - the cloud upload;
  - `fetch_article_by_slug`;
  - the token/cloudinary setters.
- `progress as f32` rounding is not modelled: progress is a real.
- `Registry.ActiveDownloads.HelperTerminated`: the branch where the read lock cannot be taken (no report) is not modelled. The termination payload's debug text is an opaque string.
