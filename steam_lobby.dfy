/** Steam lobby creation and joining, bridged to the transport: the host
    publishes its Steam id as lobby metadata and starts a listen server; a
    joiner reads that id back and connects to it. Steam's lobby metadata is
    modelled as a table from lobby id to key/value pairs, and every other
    Steam or transport call as an entry in the event log. */
module SteamLobby {
  import opened Common
  import opened UnityMath
  import opened Text
  import opened Effects

  type Metadata = map<string, string>
  type LobbyStore = map<U64, Metadata>

  const KeyHost := "host_steamid"
  const KeyState := "state"
  const KeyMap := "map"
  const KeyMax := "max"

  /** `SteamMatchmaking.GetLobbyData`: "" for a lobby or key never written. */
  function GetLobbyData(store: LobbyStore, lobby: U64, key: string): (v: string)
    ensures lobby in store && key in store[lobby] ==> v == store[lobby][key]
    ensures !(lobby in store && key in store[lobby]) ==> v == ""
  {
    Lookup(Lookup(store, lobby, map[]), key, "")
  }

  /** `SteamMatchmaking.SetLobbyData`: one key of one lobby changes. */
  function SetLobbyData(store: LobbyStore, lobby: U64, key: string, value: string): (r: LobbyStore)
    ensures GetLobbyData(r, lobby, key) == value
    ensures forall k :: k != key ==> GetLobbyData(r, lobby, k) == GetLobbyData(store, lobby, k)
    ensures forall l :: l in store && l != lobby ==> l in r && r[l] == store[l]
    ensures lobby in r
  {
    store[lobby := Lookup(store, lobby, map[])[key := value]]
  }

  /** A write adds at most its own lobby to the table. */
  lemma SetLobbyDataKeys(store: LobbyStore, lobby: U64, key: string, value: string)
    ensures SetLobbyData(store, lobby, key, value).Keys == store.Keys + {lobby}
  {
  }

  /** The four keys the host publishes once the lobby exists: its own Steam
      id as decimal text, state "lobby", the map and the player cap. */
  function CreatedData(store: LobbyStore, lobby: U64, me: U64, mapName: string, max: int): (r: LobbyStore)
    ensures GetLobbyData(r, lobby, KeyHost) == NatToDecimal(me)
    ensures GetLobbyData(r, lobby, KeyState) == "lobby"
    ensures GetLobbyData(r, lobby, KeyMap) == mapName
    ensures GetLobbyData(r, lobby, KeyMax) == IntToDecimal(max)
    ensures forall l :: l in store && l != lobby ==> l in r && r[l] == store[l]
    ensures forall k :: k != KeyHost && k != KeyState && k != KeyMap && k != KeyMax ==>
      GetLobbyData(r, lobby, k) == GetLobbyData(store, lobby, k)
  {
    var s1 := SetLobbyData(store, lobby, KeyHost, NatToDecimal(me));
    var s2 := SetLobbyData(s1, lobby, KeyState, "lobby");
    var s3 := SetLobbyData(s2, lobby, KeyMap, mapName);
    SetLobbyData(s3, lobby, KeyMax, IntToDecimal(max))
  }

  /** Marking the lobby in-game: state "in_game" and the scene; every other
      key, and every other lobby, keeps its value. */
  function InGameData(store: LobbyStore, lobby: U64, sceneName: string): (r: LobbyStore)
    ensures GetLobbyData(r, lobby, KeyState) == "in_game"
    ensures GetLobbyData(r, lobby, KeyMap) == sceneName
    ensures forall k :: k != KeyState && k != KeyMap ==>
      GetLobbyData(r, lobby, k) == GetLobbyData(store, lobby, k)
    ensures forall l :: l in store && l != lobby ==> l in r && r[l] == store[l]
  {
    SetLobbyData(SetLobbyData(store, lobby, KeyState, "in_game"), lobby, KeyMap, sceneName)
  }

  /** What a peer that enters a lobby does about the connection: a hosting
      peer nothing; any other peer connects to the host id read from the
      metadata if it parses as a 64-bit number, and otherwise gives up
      without retrying. */
  function ConnectEffects(hosting: bool, hostIdText: string): (r: seq<Effect>)
    ensures r != [] <==> !hosting && ParseU64(hostIdText).Some?
    ensures r != [] ==> r == [SetClientAddress(ParseU64(hostIdText).value), StartClientConnection]
  {
    if hosting then []
    else match ParseU64(hostIdText)
      case Some(hostId) => [SetClientAddress(hostId), StartClientConnection]
      case None => []
  }

  /** Host-id round trip: a joiner reading the host key of a freshly
      created lobby connects to the host's own Steam id. */
  lemma HostIdRoundTrip(store: LobbyStore, lobby: U64, me: U64, mapName: string, max: int)
    ensures ConnectEffects(false, GetLobbyData(CreatedData(store, lobby, me, mapName, max), lobby, KeyHost))
      == [SetClientAddress(me), StartClientConnection]
  {
    U64RoundTrip(me);
  }

  /** A lobby without published host id (the key reads as "") makes a
      joiner give up. */
  lemma MissingHostIdNoConnect(store: LobbyStore, lobby: U64)
    requires KeyHost !in Lookup(store, lobby, map[])
    ensures ConnectEffects(false, GetLobbyData(store, lobby, KeyHost)) == []
  {
  }

  class SteamLobbyManager {
    var currentLobbyId: U64
    var hosting: bool
    var pendingMax: int
    var pendingMap: string
    /** Steam's lobby metadata as this peer has written it. */
    var lobbyData: LobbyStore
    /** Steam's joinable flag per lobby, as this peer has set it. */
    var joinable: map<U64, bool>
    ghost var events: seq<Effect>

    /** In a lobby exactly when a nonzero lobby id is recorded. */
    predicate IsInLobby(): (b: bool)
      reads this
      ensures b <==> currentLobbyId != 0
    {
      currentLobbyId != 0
    }

    /** The hosting intent, set by a create request and cleared by a failed
        creation or by leaving. */
    predicate IsHost(): (b: bool)
      reads this
      ensures b <==> hosting
    {
      hosting
    }

    constructor ()
      ensures currentLobbyId == 0 && !hosting && pendingMax == 0 && pendingMap == ""
      ensures lobbyData == map[] && joinable == map[] && events == []
    {
      currentLobbyId := 0;
      hosting := false;
      pendingMax := 0;
      pendingMap := "";
      lobbyData := map[];
      joinable := map[];
      events := [];
    }

    /** Ask Steam for a friends-only lobby; remembers the clamped player cap
        and the map ("" for a null name) until Steam answers. */
    method CreateLobby(maxPlayers: int, selectedSceneName: Option<string>)
      modifies this`hosting, this`pendingMax, this`pendingMap, this`events
      ensures hosting
      ensures pendingMax == Clamp(maxPlayers, 2, 10) && 2 <= pendingMax <= 10
      ensures pendingMap == selectedSceneName.GetOr("")
      ensures events == old(events) + [SteamCreateFriendsOnlyLobby(pendingMax)]
    {
      hosting := true;
      pendingMax := Clamp(maxPlayers, 2, 10);
      pendingMap := selectedSceneName.GetOr("");
      events := events + [SteamCreateFriendsOnlyLobby(pendingMax)];
    }

    /** Leave the current lobby, if any: Steam is told, the id and the
        hosting flag are reset, and the left event fires once. */
    method LeaveLobby()
      modifies this`currentLobbyId, this`hosting, this`events
      ensures !old(IsInLobby()) ==>
        currentLobbyId == old(currentLobbyId) && hosting == old(hosting) && events == old(events)
      ensures old(IsInLobby()) ==> !IsInLobby() && !IsHost()
      ensures old(IsInLobby()) ==>
        events == old(events) + [SteamLeaveLobby(old(currentLobbyId)), LobbyLeftEvent]
    {
      if !IsInLobby() {
        return;
      }
      events := events + [SteamLeaveLobby(currentLobbyId)];
      currentLobbyId := 0;
      hosting := false;
      events := events + [LobbyLeftEvent];
    }

    /** `SteamMatchmaking.SetLobbyData` on the current lobby. */
    method Publish(key: string, value: string)
      modifies this`lobbyData
      ensures lobbyData == SetLobbyData(old(lobbyData), currentLobbyId, key, value)
    {
      lobbyData := SetLobbyData(lobbyData, currentLobbyId, key, value);
    }

    /** The four metadata writes of a new lobby, in the order the host makes
        them. */
    method PublishCreated(me: U64)
      modifies this`lobbyData
      ensures lobbyData == CreatedData(old(lobbyData), currentLobbyId, me, pendingMap, pendingMax)
    {
      Publish(KeyHost, NatToDecimal(me));
      Publish(KeyState, "lobby");
      Publish(KeyMap, pendingMap);
      Publish(KeyMax, IntToDecimal(pendingMax));
    }

    /** Steam's answer to CreateLobby. On failure only the hosting intent is
        reset. On success the lobby is recorded, its metadata published and
        made joinable, then the listen server and the local client start. */
    method OnLobbyCreated(ok: bool, lobbyId: U64, me: U64)
      modifies this`currentLobbyId, this`hosting, this`lobbyData, this`joinable, this`events
      ensures !ok ==> !hosting && currentLobbyId == old(currentLobbyId)
      ensures !ok ==> lobbyData == old(lobbyData) && joinable == old(joinable) && events == old(events)
      ensures ok ==> currentLobbyId == lobbyId && hosting == old(hosting)
      ensures ok ==> lobbyData == CreatedData(old(lobbyData), lobbyId, me, pendingMap, pendingMax)
      ensures ok ==> joinable == old(joinable)[lobbyId := true]
      ensures ok ==> events == old(events) + [StartServerConnection, StartClientConnection]
    {
      if !ok {
        hosting := false;
        return;
      }
      currentLobbyId := lobbyId;
      PublishCreated(me);
      joinable := joinable[currentLobbyId := true];
      events := events + [StartServerConnection];
      events := events + [StartClientConnection];
    }

    /** Steam reports that this peer entered a lobby; `hostIdText` is what
        `GetLobbyData(lobby, "host_steamid")` returns there. */
    method OnLobbyEnteredCb(lobbyId: U64, hostIdText: string)
      modifies this`currentLobbyId, this`events
      ensures currentLobbyId == lobbyId
      ensures events == old(events) + [LobbyEnteredEvent] + ConnectEffects(hosting, hostIdText)
    {
      currentLobbyId := lobbyId;
      events := events + [LobbyEnteredEvent];
      if !hosting {
        var parsed := ParseU64(hostIdText);
        if parsed.Some? {
          events := events + [SetClientAddress(parsed.value)];
          events := events + [StartClientConnection];
        }
      }
    }

    /** An invite accepted in the overlay is forwarded to Steam's join call. */
    method OnJoinRequested(lobbyId: U64)
      modifies this`events
      ensures events == old(events) + [SteamJoinLobby(lobbyId)]
    {
      events := events + [SteamJoinLobby(lobbyId)];
    }

    /** Block late joiners: when in a lobby, state becomes "in_game", the map
        is updated and the lobby stops being joinable. */
    method SetLobbyInGame(sceneName: string)
      modifies this`lobbyData, this`joinable
      ensures !IsInLobby() ==> lobbyData == old(lobbyData) && joinable == old(joinable)
      ensures IsInLobby() ==> lobbyData == InGameData(old(lobbyData), currentLobbyId, sceneName)
      ensures IsInLobby() ==> joinable == old(joinable)[currentLobbyId := false]
    {
      if !IsInLobby() {
        return;
      }
      Publish(KeyState, "in_game");
      Publish(KeyMap, sceneName);
      joinable := joinable[currentLobbyId := false];
    }
  }

  /** Two peers: after the host's lobby is created, a joiner entering it with
      the host key as Steam returns it connects to the host's Steam id. */
  method HostThenJoin(host: SteamLobbyManager, joiner: SteamLobbyManager, lobbyId: U64, me: U64)
    requires host != joiner && !joiner.hosting
    modifies host, joiner
    ensures joiner.events == old(joiner.events) + [LobbyEnteredEvent, SetClientAddress(me), StartClientConnection]
  {
    host.OnLobbyCreated(true, lobbyId, me);
    var hostIdText := GetLobbyData(host.lobbyData, lobbyId, KeyHost);
    HostIdRoundTrip(old(host.lobbyData), lobbyId, me, host.pendingMap, host.pendingMax);
    joiner.OnLobbyEnteredCb(lobbyId, hostIdText);
  }
}
