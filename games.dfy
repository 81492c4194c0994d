/** The saved-games list kept in `AppState`: saving a batch of finished
    downloads (merging in what the user attached to each game), listing the
    games whose files are still there, and attaching a launch configuration. */
module Games {
  import opened Outcomes
  import opened Downloads
  import opened State

  /** The position of the first game with the given id (`iter().find`). */
  function FirstIndexOf(games: seq<DownloadedGameInfo>, id: string): (r: Option<nat>)
    ensures r.Some? ==>
      && r.value < |games| && games[r.value].id == id
      && forall j :: 0 <= j < r.value ==> games[j].id != id
    ensures r.None? <==> forall j :: 0 <= j < |games| ==> games[j].id != id
  {
    if games == [] then None
    else if games[0].id == id then Some(0)
    else match FirstIndexOf(games[1..], id)
      case None => None
      case Some(k) => Some(k + 1)
  }

  // ---------------------------------------------------------------------
  // save_games

  /** The stored game that a re-saved game with this id inherits from. */
  function PreviousGame(existing: seq<DownloadedGameInfo>, id: string): Option<DownloadedGameInfo> {
    match FirstIndexOf(existing, id)
    case Some(i) => Some(existing[i])
    case None => None
  }

  /** One finished download as a saved game: its own fields, with the launch
      configuration and icon of the game previously stored under its id. */
  function ToSavedGame(game: DownloadInfo, existing: seq<DownloadedGameInfo>): DownloadedGameInfo {
    var previous := PreviousGame(existing, game.id);
    DownloadedGameInfo(
      game.id,
      game.filename,
      UnwrapOr(game.path, ""),
      game.extracted,
      game.extractedPath,
      game.downloadedAt,
      if previous.Some? then previous.value.launchConfig else None,
      if previous.Some? then previous.value.iconPath else None)
  }

  /** The list `save_games` stores: one entry per given download, in the same
      order and with the same id and download fields; the user's launch
      configuration and icon come from the first stored game with that id, and
      are absent when there was none. */
  function ConvertGames(existing: seq<DownloadedGameInfo>, games: seq<DownloadInfo>): (r: seq<DownloadedGameInfo>)
    ensures |r| == |games|
    ensures forall i :: 0 <= i < |r| ==>
      && r[i].id == games[i].id && r[i].filename == games[i].filename
      && (games[i].path.Some? ==> r[i].path == games[i].path.value)
      && (games[i].path.None? ==> r[i].path == "")
      && r[i].extracted == games[i].extracted && r[i].extractedPath == games[i].extractedPath
      && r[i].downloadedAt == games[i].downloadedAt
    ensures forall i :: 0 <= i < |r| && (forall j :: 0 <= j < |existing| ==> existing[j].id != games[i].id) ==>
      r[i].launchConfig == None && r[i].iconPath == None
    ensures forall i, j :: 0 <= i < |r| && 0 <= j < |existing| && existing[j].id == games[i].id
                           && (forall k :: 0 <= k < j ==> existing[k].id != games[i].id) ==>
      r[i].launchConfig == existing[j].launchConfig && r[i].iconPath == existing[j].iconPath
  {
    seq(|games|, i requires 0 <= i < |games| => ToSavedGame(games[i], existing))
  }

  /** `save_games`: replaces the saved-games list by the merged one. */
  method SaveGames(st: AppState, games: seq<DownloadInfo>)
    modifies st
    ensures st.games == Some(ConvertGames(UnwrapOr(old(st.games), []), games))
    ensures st.token == old(st.token) && st.cloudinary == old(st.cloudinary)
    ensures st.downloadDir == old(st.downloadDir)
  {
    var existing := UnwrapOr(st.games, []);
    st.games := Some(ConvertGames(existing, games));
  }

  /** Saving the same downloads twice stores the same list as saving them once:
      the second merge finds the launch configuration and icon the first one kept. */
  lemma SaveGamesIdempotent(existing: seq<DownloadedGameInfo>, games: seq<DownloadInfo>)
    ensures ConvertGames(ConvertGames(existing, games), games) == ConvertGames(existing, games)
  {
    var once := ConvertGames(existing, games);
    var twice := ConvertGames(once, games);
    forall i | 0 <= i < |games|
      ensures twice[i] == once[i]
    {
      var id := games[i].id;
      assert once[i].id == id;
      var j := FirstIndexOf(once, id).value;
      assert once[j].id == id && games[j].id == id;
      assert PreviousGame(once, id) == Some(once[j]);
      assert once[j].launchConfig == once[i].launchConfig && once[j].iconPath == once[i].iconPath;
    }
  }

  // ---------------------------------------------------------------------
  // get_saved_games

  /** A saved game is kept while its file or its extracted folder is there;
      an empty path, or no extracted path at all, counts as present. */
  predicate FilesPresent(g: DownloadedGameInfo, onDisk: string -> bool) {
    var pathExists := g.path == "" || onDisk(g.path);
    var extractedExists := match g.extractedPath
      case None => true
      case Some(p) => p == "" || onDisk(p);
    pathExists || extractedExists
  }

  /** The games `get_saved_games` keeps, front to back: none added, and the
      whole list exactly when every game is present. Which games survive, and
      how many copies of each, is `KeepExistingCounts`; their order is
      `KeepExistingAppend`. */
  function KeepExisting(games: seq<DownloadedGameInfo>, onDisk: string -> bool): (r: seq<DownloadedGameInfo>)
    ensures |r| <= |games|
    ensures |r| == |games| <==> forall i :: 0 <= i < |games| ==> FilesPresent(games[i], onDisk)
    ensures |r| == |games| ==> r == games
  {
    if games == [] then []
    else
      var rest := KeepExisting(games[1..], onDisk);
      if FilesPresent(games[0], onDisk) then [games[0]] + rest else rest
  }

  /** Filtering a list is filtering its parts in turn: together with
      `KeepExistingCons` this fixes the result completely, order included. */
  lemma {:induction false} KeepExistingAppend(a: seq<DownloadedGameInfo>, b: seq<DownloadedGameInfo>,
                                              onDisk: string -> bool)
    ensures KeepExisting(a + b, onDisk) == KeepExisting(a, onDisk) + KeepExisting(b, onDisk)
    decreases |a|
  {
    if a == [] {
      assert a + b == b;
    } else {
      var head := if FilesPresent(a[0], onDisk) then [a[0]] else [];
      calc {
        KeepExisting(a + b, onDisk);
        { assert a + b == [a[0]] + (a[1..] + b); }
        KeepExisting([a[0]] + (a[1..] + b), onDisk);
        { KeepExistingCons(a[0], a[1..] + b, onDisk); }
        head + KeepExisting(a[1..] + b, onDisk);
        { KeepExistingAppend(a[1..], b, onDisk); }
        head + (KeepExisting(a[1..], onDisk) + KeepExisting(b, onDisk));
        (head + KeepExisting(a[1..], onDisk)) + KeepExisting(b, onDisk);
        { assert a == [a[0]] + a[1..]; KeepExistingCons(a[0], a[1..], onDisk); }
        KeepExisting(a, onDisk) + KeepExisting(b, onDisk);
      }
    }
  }

  /** Every copy of a present game survives the filter, and no copy of a
      missing one does: the kept games are exactly the listed ones whose files
      are present. */
  lemma {:induction false} KeepExistingCounts(games: seq<DownloadedGameInfo>, onDisk: string -> bool)
    ensures forall g :: multiset(KeepExisting(games, onDisk))[g]
                        == if FilesPresent(g, onDisk) then multiset(games)[g] else 0
    ensures forall g :: g in KeepExisting(games, onDisk) <==> g in games && FilesPresent(g, onDisk)
    decreases |games|
  {
    if games != [] {
      assert games == [games[0]] + games[1..];
      KeepExistingCons(games[0], games[1..], onDisk);
      KeepExistingCounts(games[1..], onDisk);
    }
  }

  /** The first game is kept exactly when its files are present, and the rest
      is filtered after it. */
  lemma KeepExistingCons(g: DownloadedGameInfo, rest: seq<DownloadedGameInfo>, onDisk: string -> bool)
    ensures KeepExisting([g] + rest, onDisk)
            == (if FilesPresent(g, onDisk) then [g] else []) + KeepExisting(rest, onDisk)
  {
    assert ([g] + rest)[1..] == rest;
  }

  /** `get_saved_games`: returns the games whose files are present, and stores
      that list only when some game was dropped. */
  method GetSavedGames(st: AppState, onDisk: string -> bool) returns (valid: seq<DownloadedGameInfo>)
    modifies st
    ensures valid == KeepExisting(UnwrapOr(old(st.games), []), onDisk)
    ensures st.games == (if |valid| != |UnwrapOr(old(st.games), [])| then Some(valid) else old(st.games))
    ensures st.token == old(st.token) && st.cloudinary == old(st.cloudinary)
    ensures st.downloadDir == old(st.downloadDir)
  {
    var games := UnwrapOr(st.games, []);
    valid := KeepExisting(games, onDisk);
    if |valid| != |games| {
      st.games := Some(valid);
    }
  }

  // ---------------------------------------------------------------------
  // save_launch_config

  /** `save_launch_config`: attaches a launch configuration and icon to the
      first game with the given id. A missing list is first made empty, and
      stays so even when the game is then not found. */
  method SaveLaunchConfig(st: AppState, gameId: string, config: LaunchConfig, iconPath: Option<string>)
    returns (res: Result<()>)
    modifies st
    ensures var games := UnwrapOr(old(st.games), []);
      match FirstIndexOf(games, gameId)
      case None =>
        res == Err("Game with id " + gameId + " not found") && st.games == Some(games)
      case Some(i) =>
        res == Ok(()) && st.games == Some(games[i := games[i].(launchConfig := Some(config), iconPath := iconPath)])
    ensures st.token == old(st.token) && st.cloudinary == old(st.cloudinary)
    ensures st.downloadDir == old(st.downloadDir)
  {
    if st.games.None? {
      st.games := Some([]);
    }
    var games := st.games.value;
    var i := 0;
    while i < |games| && games[i].id != gameId
      invariant 0 <= i <= |games|
      invariant forall j :: 0 <= j < i ==> games[j].id != gameId
    {
      i := i + 1;
    }
    if i == |games| {
      return Err("Game with id " + gameId + " not found");
    }
    st.games := Some(games[i := games[i].(launchConfig := Some(config), iconPath := iconPath)]);
    res := Ok(());
  }

  /** After a launch configuration was attached, saving the games again keeps it. */
  lemma LaunchConfigSurvivesResave(games: seq<DownloadedGameInfo>, gameId: string, config: LaunchConfig,
                                   iconPath: Option<string>, downloads: seq<DownloadInfo>, i: nat)
    requires FirstIndexOf(games, gameId).Some?
    requires i < |downloads| && downloads[i].id == gameId
    ensures var k := FirstIndexOf(games, gameId).value;
      var updated := games[k := games[k].(launchConfig := Some(config), iconPath := iconPath)];
      var saved := ConvertGames(updated, downloads);
      saved[i].launchConfig == Some(config) && saved[i].iconPath == iconPath
  {
    var k := FirstIndexOf(games, gameId).value;
    var updated := games[k := games[k].(launchConfig := Some(config), iconPath := iconPath)];
    assert updated[k].id == gameId;
    assert forall j :: 0 <= j < k ==> updated[j].id != gameId;
  }
}
