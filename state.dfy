/** The persisted application settings (`AppState`), the saved-game record,
    and the restart reconciliation of the download registry. */
module State {
  import opened Outcomes
  import opened Downloads
  import Registry
  import DownloadLemmas

  datatype CloudinaryConfig = CloudinaryConfig(cloudName: string, apiKey: string, apiSecret: string)

  /** How a saved game is launched; the user attaches it to a game. */
  datatype LaunchConfig = LaunchConfig(executablePath: string, launchMethod: string,
                                       customCommand: Option<string>)

  /** A completed download promoted into the saved-games list. */
  datatype DownloadedGameInfo = DownloadedGameInfo(
    id: string,
    filename: string,
    path: string,
    extracted: bool,
    extractedPath: Option<string>,
    downloadedAt: Option<string>,
    launchConfig: Option<LaunchConfig>,
    iconPath: Option<string>)

  class AppState {
    var token: Option<string>
    var cloudinary: Option<CloudinaryConfig>
    var downloadDir: Option<string>
    var games: Option<seq<DownloadedGameInfo>>

    /** `AppState::default()`: nothing is set. */
    constructor Default()
      ensures token == None && cloudinary == None && downloadDir == None && games == None
    {
      token := None;
      cloudinary := None;
      downloadDir := None;
      games := None;
    }

    /** The normalisation `load_state_from_file` applies to the state it read
        (or to the default one): a missing games list becomes empty, a missing
        download directory becomes `defaultDir` (the resource directory's
        `downloads`, or nothing when it cannot be made); anything present stays. */
    method NormaliseLoaded(defaultDir: Option<string>)
      modifies this
      ensures games == (if old(games).None? then Some([]) else old(games))
      ensures downloadDir == (if old(downloadDir).Some? then old(downloadDir) else defaultDir)
      ensures token == old(token) && cloudinary == old(cloudinary)
    {
      if games.None? {
        games := Some([]);
      }
      if downloadDir.None? {
        downloadDir := defaultDir;
      }
    }
  }

  /** Loading a fresh install (no config file) gives an empty games list, the
      default download directory and nothing else. */
  method LoadWithoutConfigFile(defaultDir: Option<string>) returns (st: AppState)
    ensures fresh(st)
    ensures st.games == Some([]) && st.downloadDir == defaultDir
    ensures st.token == None && st.cloudinary == None
  {
    st := new AppState.Default();
    st.NormaliseLoaded(defaultDir);
  }

  // ---------------------------------------------------------------------
  // cleanup_active_downloads

  const InterruptedByRestart: string := "Download interrupted due to application restart"

  /** Statuses of a download that was still running when the application stopped. */
  predicate InFlight(status: string) {
    status == Starting || status == Downloading
  }

  /** One record after restart reconciliation. */
  function Reconciled(d: DownloadInfo): DownloadInfo {
    if InFlight(d.status) then d.(status := Failed, error := Some(InterruptedByRestart)) else d
  }

  /** The registry after restart reconciliation: the same ids and tokens, and
      no record left starting or downloading. */
  function CleanupIn(s: Snapshot): (s': Snapshot)
    ensures s'.downloads.Keys == s.downloads.Keys && s'.tokens == s.tokens
    ensures forall k :: k in s'.downloads ==> !InFlight(s'.downloads[k].status)
  {
    Snapshot(map k | k in s.downloads :: Reconciled(s.downloads[k]), s.tokens)
  }

  /** `cleanup_active_downloads`: rewrites every in-flight record in place. */
  method CleanupActiveDownloads(ad: Registry.ActiveDownloads)
    modifies ad
    ensures ad.Value() == CleanupIn(old(ad.Value()))
  {
    ghost var before := ad.downloads;
    var pending := ad.downloads.Keys;
    while pending != {}
      invariant pending <= ad.downloads.Keys == before.Keys
      invariant ad.tokens == old(ad.tokens)
      invariant forall k :: k in before && k !in pending ==> ad.downloads[k] == Reconciled(before[k])
      invariant forall k :: k in pending ==> ad.downloads[k] == before[k]
      decreases pending
    {
      var k :| k in pending;
      var d := ad.downloads[k];
      if d.status == Starting || d.status == Downloading {
        ad.downloads := ad.downloads[k := d.(status := Failed, error := Some(InterruptedByRestart))];
      }
      pending := pending - {k};
    }
    assert ad.downloads == CleanupIn(old(ad.Value())).downloads;
  }

  /** Every record that was starting or downloading is now failed with the
      restart message; every other record is exactly as it was. */
  lemma CleanupEffect(s: Snapshot, id: string)
    requires id in s.downloads
    ensures var d := s.downloads[id];
      var d' := CleanupIn(s).downloads[id];
      && (InFlight(d.status) ==>
            d' == d.(status := Failed, error := Some(InterruptedByRestart)))
      && (!InFlight(d.status) ==> d' == d)
  {
  }

  /** Cleanup only ever writes the `status` and `error` fields. */
  lemma CleanupWritesOnlyStatusAndError(s: Snapshot, id: string)
    requires id in s.downloads
    ensures CleanupIn(s).downloads[id] == s.downloads[id].(status := CleanupIn(s).downloads[id].status,
                                                           error := CleanupIn(s).downloads[id].error)
  {
  }

  /** Reconciling twice is the same as reconciling once. */
  lemma CleanupIdempotent(s: Snapshot)
    ensures CleanupIn(CleanupIn(s)) == CleanupIn(s)
  {
  }

  /** Tokens are not persisted, so the registry read back at start-up holds
      none; reconciling it then keeps both registry invariants. */
  lemma CleanupAfterLoadKeepsInvariants(s: Snapshot)
    requires s.tokens == {} && DownloadLemmas.WellFormed(s)
    ensures DownloadLemmas.WellFormed(CleanupIn(s))
    ensures DownloadLemmas.SettledWithoutToken(CleanupIn(s))
  {
  }

  /** With a token still held, reconciliation would leave a failed record
      holding it: the invariant rests on tokens not surviving a restart. */
  lemma CleanupWithTokenBreaksInvariant(d: DownloadInfo)
    requires d.status == Downloading
    ensures !DownloadLemmas.SettledWithoutToken(CleanupIn(Snapshot(map[d.id := d], {d.id})))
  {
    assert CleanupIn(Snapshot(map[d.id := d], {d.id})).downloads[d.id].status == Failed;
  }

  /** A download persisted while downloading comes back failed, with a non-empty reason. */
  lemma DownloadingRecordFailsAfterRestart(s: Snapshot, id: string)
    requires id in s.downloads && s.downloads[id].status == Downloading
    ensures CleanupIn(s).downloads[id].status == Failed
    ensures CleanupIn(s).downloads[id].error.Some? && |CleanupIn(s).downloads[id].error.value| > 0
  {
  }
}
