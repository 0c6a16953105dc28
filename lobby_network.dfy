/** The server-replicated lobby roster (ready flag, name and Steam id per
    client id) and the force-start transition into a match. */
module Lobby {
  import opened Common
  import opened Effects
  import opened SessionData
  import opened SteamLobby

  /** The three replicated dictionaries, read together. */
  datatype Roster = Roster(ready: map<int, bool>, names: map<int, string>, steamIds: map<int, U64>)
  {
    /** The three dictionaries have one key set. */
    predicate SameKeys() {
      ready.Keys == names.Keys && names.Keys == steamIds.Keys
    }
  }

  /** The roster after a ready message for `clientId`: that key holds the
      three values, every other key keeps its entries, and no key appears
      or disappears except `clientId`. */
  function Upsert(r: Roster, clientId: int, ready: bool, name: string, steamId: U64): (r': Roster)
    ensures r'.ready.Keys == r.ready.Keys + {clientId}
    ensures r'.names.Keys == r.names.Keys + {clientId}
    ensures r'.steamIds.Keys == r.steamIds.Keys + {clientId}
    ensures r'.ready[clientId] == ready && r'.names[clientId] == name && r'.steamIds[clientId] == steamId
    ensures forall c :: c != clientId && c in r.ready ==> r'.ready[c] == r.ready[c]
    ensures forall c :: c != clientId && c in r.names ==> r'.names[c] == r.names[c]
    ensures forall c :: c != clientId && c in r.steamIds ==> r'.steamIds[c] == r.steamIds[c]
  {
    Roster(r.ready[clientId := ready], r.names[clientId := name], r.steamIds[clientId := steamId])
  }

  /** Repeating a ready message changes nothing more. */
  lemma UpsertIdempotent(r: Roster, clientId: int, ready: bool, name: string, steamId: U64)
    ensures Upsert(Upsert(r, clientId, ready, name, steamId), clientId, ready, name, steamId)
      == Upsert(r, clientId, ready, name, steamId)
  {
  }

  /** Ready messages keep the three key sets equal. */
  lemma UpsertSameKeys(r: Roster, clientId: int, ready: bool, name: string, steamId: U64)
    requires r.SameKeys()
    ensures Upsert(r, clientId, ready, name, steamId).SameKeys()
  {
  }

  class LobbyNetwork {
    var selectedSceneName: string
    var ready: map<int, bool>
    var names: map<int, string>
    var steamIds: map<int, U64>
    ghost var events: seq<Effect>

    /** The read-only views `Ready`, `Names` and `SteamIds`. */
    function View(): (v: Roster)
      reads this
      ensures v.ready == ready && v.names == names && v.steamIds == steamIds
    {
      Roster(ready, names, steamIds)
    }

    /** Only the server-start reset and the all-three upsert write the
        dictionaries, so they always share one key set. */
    ghost predicate Valid()
      reads this
    {
      View().SameKeys()
    }

    constructor ()
      ensures Valid()
      ensures selectedSceneName == "" && View() == Roster(map[], map[], map[]) && events == []
    {
      selectedSceneName := "";
      ready, names, steamIds := map[], map[], map[];
      events := [];
    }

    /** Server start clears the roster. */
    method OnStartServer()
      modifies this`ready, this`names, this`steamIds
      ensures Valid()
      ensures ready == map[] && names == map[] && steamIds == map[]
    {
      ready := map[];
      names := map[];
      steamIds := map[];
    }

    /** A ready message from any connection, keyed by the client id the
        message itself carries. */
    method SetReadyServerRpc(clientId: int, isReady: bool, steamName: string, steamId: U64)
      requires Valid()
      modifies this`ready, this`names, this`steamIds
      ensures Valid()
      ensures View() == Upsert(old(View()), clientId, isReady, steamName, steamId)
    {
      ready := ready[clientId := isReady];
      names := names[clientId := steamName];
      steamIds := steamIds[clientId := steamId];
    }

    /** Force start, from any connection and without checking the scene name:
        the session context and the local selection take the arguments, a
        replace-all load of that scene is issued, and the Steam lobby (when a
        manager exists) is marked in-game. The roster is left as it was. */
    method ForceStartServerRpc(ctx: SessionContext, steamLobby: SteamLobbyManager?,
                               sceneName: string, matchSeconds: int)
      modifies this`selectedSceneName, this`events, ctx
      modifies steamLobby
      ensures ctx.selectedSceneName == sceneName && ctx.matchSeconds == matchSeconds
      ensures selectedSceneName == sceneName
      ensures View() == old(View())
      ensures events == old(events) + [LoadGlobalScenesReplaceAll(sceneName)]
      ensures steamLobby != null ==> steamLobby.currentLobbyId == old(steamLobby.currentLobbyId)
      ensures steamLobby != null ==> steamLobby.hosting == old(steamLobby.hosting)
      ensures steamLobby != null ==> steamLobby.events == old(steamLobby.events)
      ensures steamLobby != null ==>
        steamLobby.pendingMax == old(steamLobby.pendingMax) && steamLobby.pendingMap == old(steamLobby.pendingMap)
      ensures steamLobby != null && steamLobby.IsInLobby() ==>
        steamLobby.lobbyData == InGameData(old(steamLobby.lobbyData), steamLobby.currentLobbyId, sceneName)
      ensures steamLobby != null && steamLobby.IsInLobby() ==>
        steamLobby.joinable == old(steamLobby.joinable)[steamLobby.currentLobbyId := false]
      ensures steamLobby != null && !steamLobby.IsInLobby() ==>
        steamLobby.lobbyData == old(steamLobby.lobbyData) && steamLobby.joinable == old(steamLobby.joinable)
    {
      ctx.selectedSceneName := sceneName;
      ctx.matchSeconds := matchSeconds;
      selectedSceneName := sceneName;
      events := events + [LoadGlobalScenesReplaceAll(sceneName)];
      if steamLobby != null {
        steamLobby.SetLobbyInGame(sceneName);
      }
    }
  }
}
