/** The main menu's host button: the chosen map and player cap become the
    session context and a Steam lobby request. The dropdown index and the
    player-count field are fields the menu's widgets write. */
module MainMenu {
  import opened Common
  import opened UnityMath
  import opened SessionData
  import opened MapCatalog
  import opened SteamLobby
  import opened Effects
  import GameFlow

  /** The catalog's map list, with a missing catalog or list read as empty
      (every consumer treats the two alike). */
  function Maps(catalog: Option<Catalog>): (maps: seq<MapEntry>)
    ensures catalog.None? || catalog.value.maps.None? ==> maps == []
    ensures catalog.Some? && catalog.value.maps.Some? ==> maps == catalog.value.maps.value
  {
    match catalog
    case None => []
    case Some(c) => c.maps.GetOr([])
  }

  /** The dropdown's index floored at 0: "no selection" (-1) picks the first map. */
  function SelectedIndex(dropdownIndex: int): (idx: nat)
    ensures dropdownIndex >= 0 ==> idx == dropdownIndex
    ensures dropdownIndex < 0 ==> idx == 0
  {
    Max(0, dropdownIndex)
  }

  /** The scene name of the selected map; "" when there is no map at all.
      An index past the end of a non-empty list is not checked and the array
      access throws: `None` stands for that exception. */
  function SelectedSceneName(catalog: Option<Catalog>, dropdownIndex: int): (r: Option<string>)
    ensures Maps(catalog) == [] ==> r == Some("")
    ensures Maps(catalog) != [] ==> (r.Some? <==> SelectedIndex(dropdownIndex) < |Maps(catalog)|)
    ensures r.Some? && Maps(catalog) != [] ==> r.value == Maps(catalog)[SelectedIndex(dropdownIndex)].sceneName
  {
    var maps := Maps(catalog);
    if |maps| == 0 then Some("")
    else
      var idx := SelectedIndex(dropdownIndex);
      if idx < |maps| then Some(maps[idx].sceneName) else None
  }

  /** The match length stored by hosting: the selected entry's default,
      raised to at least 30 seconds, or 180 when no entry is selected. */
  function HostMatchSeconds(catalog: Option<Catalog>, dropdownIndex: int): (s: int)
    ensures s >= 30
    ensures SelectedIndex(dropdownIndex) < |Maps(catalog)| ==>
      s == Max(30, Maps(catalog)[SelectedIndex(dropdownIndex)].defaultMatchSeconds)
    ensures SelectedIndex(dropdownIndex) >= |Maps(catalog)| ==> s == 180
  {
    var maps := Maps(catalog);
    var idx := SelectedIndex(dropdownIndex);
    if idx < |maps| then Max(30, maps[idx].defaultMatchSeconds) else 180
  }

  /** Whenever hosting goes through with a real map, the stored scene and
      the stored length come from the same catalog entry. */
  lemma SceneAndLengthAgree(catalog: Option<Catalog>, dropdownIndex: int)
    requires SelectedSceneName(catalog, dropdownIndex).Some? && Maps(catalog) != []
    ensures exists e :: (e in Maps(catalog)
      && SelectedSceneName(catalog, dropdownIndex) == Some(e.sceneName)
      && HostMatchSeconds(catalog, dropdownIndex) == Max(30, e.defaultMatchSeconds))
  {
    var e := Maps(catalog)[SelectedIndex(dropdownIndex)];
    assert e in Maps(catalog);
  }

  /** A catalog holding one freshly added entry hosts "Surf_Intro" for three
      minutes, whether or not the dropdown has a selection. */
  lemma DefaultEntryHosting(dropdownIndex: int)
    requires dropdownIndex <= 0
    ensures SelectedSceneName(Some(Catalog(Some([NewMapEntry()]))), dropdownIndex) == Some("Surf_Intro")
    ensures HostMatchSeconds(Some(Catalog(Some([NewMapEntry()]))), dropdownIndex) == 180
  {
  }

  /** A length stored by hosting is used unchanged by the match timer. */
  lemma HostedLengthIsTimer(catalog: Option<Catalog>, dropdownIndex: int)
    ensures GameFlow.StartTimer(HostMatchSeconds(catalog, dropdownIndex)) == HostMatchSeconds(catalog, dropdownIndex)
  {
  }

  class MainMenuUI {
    /** The "Max Players" field. */
    var maxPlayersValue: int
    /** The map dropdown's index; -1 when nothing is selected. */
    var dropdownIndex: int
    const catalog: Option<Catalog>
    const lobbyManager: SteamLobbyManager?

    /** The menu as built: ten players, and the first map selected when the
        catalog has one. */
    constructor (catalog: Option<Catalog>, lobbyManager: SteamLobbyManager?)
      ensures this.catalog == catalog && this.lobbyManager == lobbyManager
      ensures maxPlayersValue == 10
      ensures dropdownIndex == if Maps(catalog) != [] then 0 else -1
    {
      this.catalog := catalog;
      this.lobbyManager := lobbyManager;
      maxPlayersValue := 10;
      dropdownIndex := if Maps(catalog) != [] then 0 else -1;
    }

    /** Host: the scene is looked up first (an out-of-range index throws
        here, before anything is written); the session context takes the
        scene and the match length; then a lobby is requested with the player
        count clamped to [2, 10] and the same scene. Without a lobby manager
        the call throws after the context writes. */
    method OnHostClicked(ctx: SessionContext)
      modifies ctx, lobbyManager
      ensures SelectedSceneName(catalog, dropdownIndex).None? ==>
        ctx.selectedSceneName == old(ctx.selectedSceneName) && ctx.matchSeconds == old(ctx.matchSeconds)
      ensures SelectedSceneName(catalog, dropdownIndex).Some? ==>
        ctx.selectedSceneName == SelectedSceneName(catalog, dropdownIndex).value
        && ctx.matchSeconds == HostMatchSeconds(catalog, dropdownIndex) && ctx.matchSeconds >= 30
      ensures lobbyManager != null && SelectedSceneName(catalog, dropdownIndex).None? ==>
        lobbyManager.hosting == old(lobbyManager.hosting)
        && lobbyManager.pendingMax == old(lobbyManager.pendingMax)
        && lobbyManager.pendingMap == old(lobbyManager.pendingMap)
        && lobbyManager.events == old(lobbyManager.events)
      ensures lobbyManager != null && SelectedSceneName(catalog, dropdownIndex).Some? ==>
        lobbyManager.hosting
        && lobbyManager.pendingMax == Clamp(maxPlayersValue, 2, 10)
        && lobbyManager.pendingMap == ctx.selectedSceneName
        && lobbyManager.events == old(lobbyManager.events) + [SteamCreateFriendsOnlyLobby(Clamp(maxPlayersValue, 2, 10))]
      ensures lobbyManager != null ==>
        lobbyManager.currentLobbyId == old(lobbyManager.currentLobbyId)
        && lobbyManager.lobbyData == old(lobbyManager.lobbyData)
        && lobbyManager.joinable == old(lobbyManager.joinable)
    {
      var maxP := Clamp(maxPlayersValue, 2, 10);
      var sceneMeta := SelectedSceneName(catalog, dropdownIndex);
      if sceneMeta.None? {
        return;
      }
      ctx.selectedSceneName := sceneMeta.value;
      var maps := Maps(catalog);
      var idx := SelectedIndex(dropdownIndex);
      if idx < |maps| {
        ctx.matchSeconds := Max(30, maps[idx].defaultMatchSeconds);
      } else {
        ctx.matchSeconds := 180;
      }
      if lobbyManager == null {
        return;
      }
      lobbyManager.CreateLobby(maxP, sceneMeta);
    }
  }
}
