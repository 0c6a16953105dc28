/** The foreign effects the core issues: RPC sends, scene loads, transport
    start/stop, Steam matchmaking calls and the C# events it raises. None of
    them is executed; each component appends them, in issue order, to a
    ghost log. */
module Effects {
  import opened Common

  datatype Effect =
    // GameFlowManager
    | ReturnToMenuRpc(scene: string)      // ObserversRpc with BufferLast
    | ShutdownScheduled                    // Invoke(ServerShutdownToMenu, 0.5f)
    | Teleport(ownerId: int)               // SurfBhopMotor.ServerTeleport(point, forward)
    // transport (FishNet)
    | StartServerConnection
    | StartClientConnection
    | StopServerConnection
    | StopClientConnection
    | SetClientAddress(host: U64)          // FishySteamworks address of the host
    // scene loading
    | LoadScene(scene: string)             // local SceneManager.LoadScene
    | LoadGlobalScenesReplaceAll(scene: string)
    // PingService RPCs
    | PingRpc(cid: int, sentMs: int, name: string, steamId: U64)
    | PongRpc(target: int, cid: int, sentMs: int)
    | ReportRttRpc(cid: int, rttMs: int)
    // Steam matchmaking and the manager's own events
    | SteamCreateFriendsOnlyLobby(maxMembers: int)
    | SteamLeaveLobby(lobby: U64)
    | SteamJoinLobby(lobby: U64)
    | LobbyEnteredEvent
    | LobbyLeftEvent
}
