# SM session and match lifecycle, modelled in Dafny

This project models the session and match-lifecycle bookkeeping of the SM surf/bhop game. The game is a Unity title that uses FishNet for networking and Steam for lobbies. The model covers these components:

- **`SessionContext`** (`session_data.dfy`): the host-side settings, namely the selected scene and the match length.
- **`MapCatalog`** (`map_catalog.dfy`): the map records, with their field defaults. The map array may be null.
- **`MainMenuUI`** (`main_menu.dfy`): the host button. It picks the scene and the match length, then asks Steam for a lobby.
- **`SteamLobbyManager`** (`steam_lobby.dfy`): lobby creation, metadata publishing, entering, leaving and the in-game flag. It also covers the host-id hand-off that tells a joiner where to connect.
- **`LobbyNetwork`** (`lobby_network.dfy`): the replicated ready/name/Steam-id roster and the force start.
- **`GameFlowManager`** (`game_flow.dfy`): the server's one-second countdown, the end of the match, shutdown to the menu and respawn requests.
- **`PingService`** (`ping_service.dfy`): the two-second ping cycle, the single-shot pong handling, the clamped RTT report and the name/Steam-id registry.
- **`ConsoleVarManager`** (`console_vars.dfy`): the replicated `sv_*` console variables, with their server defaults.
- **`ConsoleUI`** (`console_ui.dfy`): the host console. An input line is trimmed, echoed, split on spaces, dispatched case-insensitively on its first token and parsed.

Every component whose fields the game updates is a Dafny `class` with those fields. Its methods carry `modifies` clauses and state the complete new state.

Each class that issues foreign effects (`GameFlowManager`, `SteamLobbyManager`, `LobbyNetwork`, `PingService`) keeps an event log in a ghost `events` field. Those effects are appended to it rather than executed. These effects are RPC sends, scene loads, Steam matchmaking calls and transport start/stop calls.

The logic behind the methods is given as pure functions, and the properties are proved about those functions as lemmas:

- the countdown and the tick that ends the match (`GameFlow`)
- the pong handling (`Presence.HandlePong`)
- the roster upsert (`Lobby.Upsert`)
- the lobby metadata writes (`SteamLobby.CreatedData`, `InGameData`)
- the console command switch (`Console.Dispatch`)
- the host selection (`MainMenu.SelectedSceneName`, `HostMatchSeconds`)

Shared text handling lives in `text.dfy`. It covers decimal formatting and parsing, `Split`, `Trim` and `ToLowerInvariant`, and carries its own round-trip lemmas.

Two behaviours of the code may surprise a reader, and the model keeps both:

- **Pong target:** the server's pong goes to the `Owner` of the ping object, not to the connection that sent the ping (`PingService.cs:49`).
- **Force start:** `ForceStartServerRpc` accepts any scene name, including the empty one (`LobbyNetwork.cs:47-62`). The empty-name check exists only in the lobby UI, which is not part of this model.

## Model

| member | source | states |
|---|---|---|
| UnityMath.Max | Assets/SM/Scripts/Net/GameFlowManager.cs:27 | The result is at least both arguments and is one of them. |
| UnityMath.Clamp | Assets/SM/Scripts/Net/SteamLobbyManager.cs:52 | The result is inside [min, max]: min for values below it, max for values above it, and the value itself when it is inside. |
| Common.Lookup | Assets/SM/Scripts/Net/PingService.cs:70-72 | The "TryGetValue ? v : default" read returns the stored value for a present key and the default for an absent one. |
| Common.LookupAfterWrite | Assets/SM/Scripts/Net/ConsoleVarManager.cs:32-36 | A read after a write of the same key returns the written value, whatever the default. |
| Common.LookupOtherKey | Assets/SM/Scripts/Net/ConsoleVarManager.cs:32-36 | A write to one key does not change reads of any other key. |
| Text.NatToDecimal | Assets/SM/Scripts/Net/SteamLobbyManager.cs:81 | `ulong.ToString()` yields a non-empty string of digits with no leading zero. |
| Text.DecimalValue | Assets/SM/Scripts/Net/SteamLobbyManager.cs:81 | The digits produced for n read back as n (proved by induction). |
| Text.IntToDecimal | Assets/SM/Scripts/Net/SteamLobbyManager.cs:84 | `int.ToString()` yields a non-empty string that starts with '-' exactly when the value is negative. The rest is the canonical decimal digits of the magnitude: no leading zero, and they read back as the magnitude. |
| Text.ParseU64 | Assets/SM/Scripts/Net/SteamLobbyManager.cs:104 | Success requires a leading digit or '+'. Any all-digit text whose value is below 2^64 parses to that value. |
| Text.U64RoundTrip | Assets/SM/Scripts/Net/SteamLobbyManager.cs:81-104 | Every `ulong`, written as decimal text, parses back to itself. |
| Text.ParseInt32 | Assets/SM/Scripts/Net/ConsoleUI.cs:76 | Empty text fails. A negative result needs a leading '-'. All-digit text below 2^31 parses to its value. |
| Text.Int32RoundTrip | Assets/SM/Scripts/Net/ConsoleUI.cs:76 | Every 32-bit `int`, written as decimal text, parses back to itself, negative values included. |
| Text.Split | Assets/SM/Scripts/Net/ConsoleUI.cs:63 | `Split(' ')` returns at least one part, and no part contains the separator. |
| Text.JoinSplit | Assets/SM/Scripts/Net/ConsoleUI.cs:63 | Joining the parts with the separator gives back the original text (induction). |
| Text.SplitJoin | Assets/SM/Scripts/Net/ConsoleUI.cs:63 | Splitting a join of separator-free parts gives back those parts (induction). |
| Text.SplitNoSeparator | Assets/SM/Scripts/Net/ConsoleUI.cs:63 | Text without the separator splits into itself alone. |
| Text.SplitAfter | Assets/SM/Scripts/Net/ConsoleUI.cs:63 | `a + sep + b` with `a` separator-free splits into `a` followed by the parts of `b`. |
| Text.IsWhiteSpace | Assets/SM/Scripts/Net/ConsoleUI.cs:54 | Space, tab, newline and carriage return are white space; digits, signs, lower-case letters and '_' (the characters of commands and values) never are. |
| Text.TrimStartIndex | Assets/SM/Scripts/Net/ConsoleUI.cs:54 | The returned index is the first one at or after the start that is not white space, or the length: everything skipped is white space. |
| Text.TrimEndIndex | Assets/SM/Scripts/Net/ConsoleUI.cs:54 | The returned end is one past the last non-white character in the range, or the range's start: everything after it is white space. |
| Text.Trim | Assets/SM/Scripts/Net/ConsoleUI.cs:54 | The result is the window of the input that starts at the first non-white character, and everything before and after the window is white space. So it is empty exactly when the input is all white space, and a non-empty result neither starts nor ends with white space. |
| Text.ToLower | Assets/SM/Scripts/Net/ConsoleUI.cs:65 | Length is kept, and each character is mapped by the ASCII lower-casing. |
| Text.ToLowerIdempotent | Assets/SM/Scripts/Net/ConsoleUI.cs:65 | Lower-casing twice equals lower-casing once. |
| SessionData.SessionContext.constructor | Assets/SM/Scripts/Net/SessionData.cs:6-7 | A fresh context has no scene selected ("") and a 180-second match. |
| MapCatalog.NewMapEntry | Assets/SM/Scripts/Net/MapCatalog.cs:15-21 | A new entry is "Surf Intro" / "Surf_Intro" / 180 s / "StartZone". |
| MainMenu.Maps | Assets/SM/Scripts/Net/MainMenuUI.cs:86 | A missing catalog or a null map array reads as an empty list. Otherwise the array's contents are returned. |
| MainMenu.SelectedIndex | Assets/SM/Scripts/Net/MainMenuUI.cs:71 | The index is never negative: the dropdown's index when that is not negative, otherwise 0. |
| MainMenu.SelectedSceneName | Assets/SM/Scripts/Net/MainMenuUI.cs:84-90 | "" when there is no map at all. With maps, a scene exists exactly when the floored index is in range (else the unchecked access throws), and it is that entry's scene name. |
| MainMenu.HostMatchSeconds | Assets/SM/Scripts/Net/MainMenuUI.cs:75-78 | Always at least 30: max(30, the entry's default) for an in-range index, else exactly 180. |
| MainMenu.SceneAndLengthAgree | Assets/SM/Scripts/Net/MainMenuUI.cs:72-78 | When hosting proceeds with a real map, the stored scene and the stored length come from one and the same catalog entry. |
| MainMenu.DefaultEntryHosting | Assets/SM/Scripts/Net/MainMenuUI.cs:72-78 | A catalog holding one default entry hosts "Surf_Intro" for 180 s, with or without a dropdown selection. |
| MainMenu.HostedLengthIsTimer | Assets/SM/Scripts/Net/MainMenuUI.cs:76 | A length stored by hosting is already at least 1, so the match timer starts from it unchanged. |
| MainMenu.MainMenuUI.constructor | Assets/SM/Scripts/Net/MainMenuUI.cs:32-42 | The menu starts with 10 players. The first map is selected when the catalog has maps; otherwise the index is -1. |
| MainMenu.MainMenuUI.OnHostClicked | Assets/SM/Scripts/Net/MainMenuUI.cs:68-82 | An out-of-range selection changes nothing. Otherwise the context gets the selected scene and a length of at least 30. The lobby manager then gets one create request with the player count clamped to [2, 10] and the same scene. No lobby id, metadata or joinable flag changes. |
| SteamLobby.GetLobbyData | Assets/SM/Scripts/Net/SteamLobbyManager.cs:103 | A read returns the value stored under that lobby and key, and "" when the lobby or the key was never written. |
| SteamLobby.SetLobbyData | Assets/SM/Scripts/Net/SteamLobbyManager.cs:127-128 | The written key of that lobby reads back the value. Every other key of that lobby, and every other lobby, reads as before. |
| SteamLobby.SetLobbyDataKeys | Assets/SM/Scripts/Net/SteamLobbyManager.cs:127-128 | A write adds at most its own lobby to the metadata table. |
| SteamLobby.CreatedData | Assets/SM/Scripts/Net/SteamLobbyManager.cs:81-84 | After creation the lobby reads back the host's id in decimal, state "lobby", the pending map and the pending cap in decimal. Every other key of that lobby, and every other lobby, is untouched. |
| SteamLobby.InGameData | Assets/SM/Scripts/Net/SteamLobbyManager.cs:127-128 | State reads "in_game" and map reads the scene. Every other key and every other lobby is unchanged. |
| SteamLobby.ConnectEffects | Assets/SM/Scripts/Net/SteamLobbyManager.cs:100-114 | A peer connects exactly when it is not hosting and the host-id text parses as a `ulong`. It then sets that address and starts the client, and never retries. |
| SteamLobby.HostIdRoundTrip | Assets/SM/Scripts/Net/SteamLobbyManager.cs:81-108 | A joiner reading the host key of a freshly created lobby connects to the creator's own Steam id. |
| SteamLobby.MissingHostIdNoConnect | Assets/SM/Scripts/Net/SteamLobbyManager.cs:103-113 | A lobby without a host key makes a joiner give up without connecting. |
| SteamLobby.SteamLobbyManager.constructor | Assets/SM/Scripts/Net/SteamLobbyManager.cs:19-39 | The manager starts with no lobby, not hosting, no pending request, no metadata and no events. |
| SteamLobby.SteamLobbyManager.IsInLobby | Assets/SM/Scripts/Net/SteamLobbyManager.cs:38 | The peer is in a lobby exactly when a nonzero lobby id is recorded. |
| SteamLobby.SteamLobbyManager.IsHost | Assets/SM/Scripts/Net/SteamLobbyManager.cs:39 | The peer is host exactly while the hosting intent is set. |
| SteamLobby.SteamLobbyManager.CreateLobby | Assets/SM/Scripts/Net/SteamLobbyManager.cs:49-56 | Sets the hosting intent. Remembers the cap clamped to [2, 10] and the map ("" for null). Sends one friends-only create request with that cap. |
| SteamLobby.SteamLobbyManager.LeaveLobby | Assets/SM/Scripts/Net/SteamLobbyManager.cs:58-66 | A no-op outside a lobby. Otherwise Steam is told, the peer is in no lobby and not hosting, and the left event fires exactly once. |
| SteamLobby.SteamLobbyManager.Publish | Assets/SM/Scripts/Net/SteamLobbyManager.cs:127-128 | One metadata write on the current lobby. |
| SteamLobby.SteamLobbyManager.PublishCreated | Assets/SM/Scripts/Net/SteamLobbyManager.cs:81-84 | The four writes in source order produce `CreatedData` for the current lobby. |
| SteamLobby.SteamLobbyManager.OnLobbyCreated | Assets/SM/Scripts/Net/SteamLobbyManager.cs:68-92 | Failure resets only the hosting intent. Success leaves the lobby recorded, its metadata equal to `CreatedData` for the four keys and the lobby joinable, and it starts the server before the client. |
| SteamLobby.SteamLobbyManager.OnLobbyEnteredCb | Assets/SM/Scripts/Net/SteamLobbyManager.cs:94-115 | Records the lobby and raises the entered event. Then it connects as `ConnectEffects` says. |
| SteamLobby.SteamLobbyManager.OnJoinRequested | Assets/SM/Scripts/Net/SteamLobbyManager.cs:117-121 | An overlay invite becomes one join call for that lobby. |
| SteamLobby.SteamLobbyManager.SetLobbyInGame | Assets/SM/Scripts/Net/SteamLobbyManager.cs:123-131 | A no-op outside a lobby. Otherwise the metadata becomes `InGameData` and the lobby stops being joinable. |
| SteamLobby.HostThenJoin | Assets/SM/Scripts/Net/SteamLobbyManager.cs:68-115 | Two peers: after the host's lobby is created, a joiner entering it connects to the host's Steam id. |
| Lobby.Upsert | Assets/SM/Scripts/Net/LobbyNetwork.cs:35-41 | Each dictionary gains exactly the client's key and holds the new triple there. Every other entry is unchanged. |
| Lobby.UpsertIdempotent | Assets/SM/Scripts/Net/LobbyNetwork.cs:35-39 | Repeating a ready message changes nothing further. |
| Lobby.UpsertSameKeys | Assets/SM/Scripts/Net/LobbyNetwork.cs:35-39 | A ready message keeps the three dictionaries on one key set. |
| Lobby.LobbyNetwork.View | Assets/SM/Scripts/Net/LobbyNetwork.cs:43-45 | The read-only views are exactly the three replicated dictionaries. |
| Lobby.LobbyNetwork.constructor | Assets/SM/Scripts/Net/LobbyNetwork.cs:15-19 | The roster starts empty with no scene selected, and the key-set invariant holds. |
| Lobby.LobbyNetwork.OnStartServer | Assets/SM/Scripts/Net/LobbyNetwork.cs:21-26 | Server start empties all three dictionaries. |
| Lobby.LobbyNetwork.SetReadyServerRpc | Assets/SM/Scripts/Net/LobbyNetwork.cs:34-41 | The roster becomes `Upsert` of the old roster under the id carried in the message. The key-set invariant is kept. |
| Lobby.LobbyNetwork.ForceStartServerRpc | Assets/SM/Scripts/Net/LobbyNetwork.cs:47-62 | The context and the local selection take the arguments unchecked. One replace-all global load of the scene is sent and the roster is unchanged. If a lobby manager exists and is in a lobby, it is marked in-game with the scene; otherwise its metadata and joinable flags are left alone. Its lobby id, hosting intent, pending request and event log never change. |
| GameFlow.StartTimer | Assets/SM/Scripts/Net/GameFlowManager.cs:27 | The match timer is at least 1 for any stored length, and equals the stored length when that is positive. |
| GameFlow.Tick | Assets/SM/Scripts/Net/GameFlowManager.cs:46 | A tick is never negative, drops by exactly one while positive, and stays 0 at 0. |
| GameFlow.TimerAfterTicks | Assets/SM/Scripts/Net/GameFlowManager.cs:44-46 | k ticks from t >= 0 leave max(0, t - k) (induction). |
| GameFlow.EndFiresFromTick | Assets/SM/Scripts/Net/GameFlowManager.cs:44-53 | From t >= 0, tick i+1 raises the end of match exactly when i+1 >= t. So the first t-1 ticks raise nothing, and tick t and every later tick raise it (induction). |
| GameFlow.MatchEndsOnTime | Assets/SM/Scripts/Net/GameFlowManager.cs:27-53 | A match started from any stored length s ends on tick max(1, s) and not before. |
| GameFlow.TickEffects | Assets/SM/Scripts/Net/GameFlowManager.cs:47-52 | A tick sends return-to-menu and schedules shutdown exactly when it leaves the timer at 0. |
| GameFlow.RespawnEffects | Assets/SM/Scripts/Net/GameFlowManager.cs:77-82 | A teleport of the target's owner happens exactly when a start zone exists and the target has a motor. The requester is not consulted. |
| GameFlow.GameFlowManager.constructor | Assets/SM/Scripts/Net/GameFlowManager.cs:14-19 | The inspector defaults are 180 s, kill height -100 and menu scene "MainMenu". The timer starts at 0 and nothing is scheduled. |
| GameFlow.GameFlowManager.OnStartServer | Assets/SM/Scripts/Net/GameFlowManager.cs:22-36 | The timer takes `StartTimer` of the context's length, so it is at least 1. The tick is scheduled and the zone lookup is recorded. |
| GameFlow.GameFlowManager.OnStopServer | Assets/SM/Scripts/Net/GameFlowManager.cs:38-42 | Server stop cancels the repeating tick. |
| GameFlow.GameFlowManager.ServerTickSecond | Assets/SM/Scripts/Net/GameFlowManager.cs:44-53 | The timer becomes `Tick` of the old timer, staying non-negative, and the end-of-match effects are sent on every tick that leaves it at 0. |
| GameFlow.GameFlowManager.ElapseSecond | Assets/SM/Scripts/Net/GameFlowManager.cs:31 | A second of engine time ticks only while the repeating tick is scheduled. |
| GameFlow.GameFlowManager.ServerShutdownToMenu | Assets/SM/Scripts/Net/GameFlowManager.cs:63-69 | Stops the server, then the client, then loads the menu scene, in that order. |
| GameFlow.GameFlowManager.GetTimeLeft | Assets/SM/Scripts/Net/GameFlowManager.cs:71 | The replicated timer, which is never negative. |
| GameFlow.GameFlowManager.RequestRespawnServerRpc | Assets/SM/Scripts/Net/GameFlowManager.cs:74-83 | A no-op without a start zone. Otherwise it behaves as `RespawnEffects`, and ownership is never checked. |
| Presence.RttMs | Assets/SM/Scripts/Net/PingService.cs:58-59 | The RTT is always in [0, 999]: the elapsed time when that is in range, 0 if the clock went back, 999 if it is over. |
| Presence.HandlePong | Assets/SM/Scripts/Net/PingService.cs:56-61 | A report is produced exactly when a ping for that id is pending, and that ping stops pending. Otherwise nothing changes. The report is the clamped RTT from the stored send time. |
| Presence.PongSingleShot | Assets/SM/Scripts/Net/PingService.cs:56-57 | A second pong for the same ping is ignored. |
| Presence.ReportEffects | Assets/SM/Scripts/Net/PingService.cs:61 | A handled pong sends at most one report, exactly when there is an RTT to report, and it carries the client id and that RTT. |
| Presence.FallbackName | Assets/SM/Scripts/Net/PingService.cs:71 | The label is "Client " followed by the id in decimal. For a non-negative id the digits have no leading zero and read back as the id; a negative id gets a minus sign before its magnitude. |
| Presence.PingService.constructor | Assets/SM/Scripts/Net/PingService.cs:16-21 | All tables start empty, and the first ping is due at time 0. |
| Presence.PingService.Update | Assets/SM/Scripts/Net/PingService.cs:23-32 | On a client whose time has reached the due time, one ping goes out and the next is due two seconds later. Otherwise nothing changes. |
| Presence.PingService.SendPing | Assets/SM/Scripts/Net/PingService.cs:34-44 | Records a pending ping for the own id, replacing any earlier one, and sends it with name and Steam id. |
| Presence.PingService.PingServerRpc | Assets/SM/Scripts/Net/PingService.cs:46-51 | Sends one pong to the owner echoing id and time, and registers the name and Steam id under the id. |
| Presence.PingService.PongTargetRpc | Assets/SM/Scripts/Net/PingService.cs:53-62 | Updates the pending table and sends the report as `HandlePong` says. |
| Presence.PingService.ReportRttServerRpc | Assets/SM/Scripts/Net/PingService.cs:64-68 | Stores the reported value unchecked. |
| Presence.PingService.GetPing | Assets/SM/Scripts/Net/PingService.cs:70 | The stored RTT, or -1 for an id never reported. |
| Presence.PingService.GetName | Assets/SM/Scripts/Net/PingService.cs:71 | The registered name, or "Client {id}". |
| Presence.PingService.GetSteamId | Assets/SM/Scripts/Net/PingService.cs:72 | The registered Steam id, or 0. |
| ConVars.WithDefaultFloats | Assets/SM/Scripts/Net/ConsoleVarManager.cs:19-26 | After the seven float writes, each default name reads its default value; every other name keeps its presence and value. |
| ConVars.DefaultFloatsStored | Assets/SM/Scripts/Net/ConsoleVarManager.cs:19-26 | The seven default writes, in source order, leave the table equal to the old one overridden by the seven defaults. |
| ConVars.ConsoleVarManager.constructor | Assets/SM/Scripts/Net/ConsoleVarManager.cs:12-13 | Both tables start empty. |
| ConVars.ConsoleVarManager.OnStartServer | Assets/SM/Scripts/Net/ConsoleVarManager.cs:15-27 | Server start writes the seven float defaults and `sv_autobhop` = 1 over whatever was stored. |
| ConVars.ConsoleVarManager.SetFloatServerRpc | Assets/SM/Scripts/Net/ConsoleVarManager.cs:29 | Any caller's value is stored unchecked under that key. |
| ConVars.ConsoleVarManager.SetIntServerRpc | Assets/SM/Scripts/Net/ConsoleVarManager.cs:30 | Any caller's value is stored unchecked under that key. |
| ConVars.ConsoleVarManager.SetFloat | Assets/SM/Scripts/Net/ConsoleVarManager.cs:32 | One key changes, and it then reads back the value. |
| ConVars.ConsoleVarManager.SetInt | Assets/SM/Scripts/Net/ConsoleVarManager.cs:33 | One key changes, and it then reads back the value. |
| ConVars.ConsoleVarManager.GetFloat | Assets/SM/Scripts/Net/ConsoleVarManager.cs:35 | The stored value, or the caller's default. |
| ConVars.ConsoleVarManager.GetInt | Assets/SM/Scripts/Net/ConsoleVarManager.cs:36 | The stored value, or the caller's default. |
| Console.TryValue | Assets/SM/Scripts/Net/ConsoleUI.cs:67-78 | With fewer than two tokens the result is "Value missing.". Otherwise it succeeds exactly when the second token parses, giving that value, and fails with the command's own message otherwise. |
| Console.ParseIntValue | Assets/SM/Scripts/Net/ConsoleUI.cs:76 | `int.TryParse` widened to the setter's integer: succeeds exactly when the 32-bit parse does, with the same value. |
| Console.Dispatch | Assets/SM/Scripts/Net/ConsoleUI.cs:60-92 | A setter call always uses the lower-cased first token, which is one of the eight known names, and it is an int call exactly for `sv_autobhop`. Unknown names give "Unknown command.", and a lone token never sets anything. With a value token, a float name gives a call with the parsed value exactly when it parses and "Bad number." otherwise; `sv_autobhop` gives a call with the parsed int exactly when it parses and "Bad int." otherwise. |
| Console.DispatchSetsFloat | Assets/SM/Scripts/Net/ConsoleUI.cs:80-91 | "name value" with a float name and a parseable value sets exactly that lower-cased name to that value. |
| Console.DispatchSetsInt | Assets/SM/Scripts/Net/ConsoleUI.cs:87 | "sv_autobhop n", for any decimal 32-bit n (any case of the name), sets `sv_autobhop` to n. |
| Console.DispatchCaseInsensitive | Assets/SM/Scripts/Net/ConsoleUI.cs:65 | Names that agree after lower-casing dispatch identically. |
| Console.DispatchIgnoresLaterTokens | Assets/SM/Scripts/Net/ConsoleUI.cs:63-70 | Tokens after the value have no effect. |
| Console.DispatchValueMissing | Assets/SM/Scripts/Net/ConsoleUI.cs:69 | A known name alone is answered "Value missing.". |
| Console.DispatchDoubleSpace | Assets/SM/Scripts/Net/ConsoleUI.cs:63-70 | A double space after the name makes the value token empty, so the command fails. |
| Console.ConsoleUI.constructor | Assets/SM/Scripts/Net/ConsoleUI.cs:30 | The log starts as "Console (host only)" and the input is empty. |
| Console.ConsoleUI.Log | Assets/SM/Scripts/Net/ConsoleUI.cs:94 | Appends a newline and the line, and nothing else. |
| Console.ConsoleUI.OnKeyDown | Assets/SM/Scripts/Net/ConsoleUI.cs:51-58 | The log only grows. Any key other than Return, or a blank input, changes nothing and the input is kept. Otherwise the input is cleared and the trimmed text is executed. |
| Console.ConsoleUI.Execute | Assets/SM/Scripts/Net/ConsoleUI.cs:60-92 | Echoes "> cmd". It then logs `Dispatch`'s error or applies its setter call, and no other variable changes. |
| Console.ConsoleUI.Apply | Assets/SM/Scripts/Net/ConsoleUI.cs:80-91 | An error adds its line to the log; a setter call changes exactly one variable of its kind. |

## Left out
- Console.ConsoleUI.Apply: the console's `SetFloatServerRpc`/`SetIntServerRpc` sends (`ConsoleUI.cs:82-89`) are applied directly to the host's `ConsoleVarManager` instead of being logged as RPC sends, since the console runs on the host only.
- ConVars.ConsoleVarManager.GetFloat: the C# optional default (`def = 0f`) is not modelled; the default is always an explicit argument.
- ConVars.ConsoleVarManager.GetInt: likewise, the optional default (`def = 0`) is always an explicit argument.
- Physics, movement, player death, the start zone's random point and every UI layout or rendering routine are out of the model. A respawn teleport is logged with the owner id only.
- `MainMenuUI.OnLobbyEntered`, which loads the lobby scene, is out of the model, and so is the console's backquote toggle.
- FishNet replication is not modelled: RPC delivery, `SyncDictionary`/`SyncVar` propagation, buffered RPCs, `InvokeRepeating`/`Invoke` timing and the 0.5 s shutdown delay. Handlers are direct sequential calls on one peer's object, and the one-second tick is the explicit `ElapseSecond`.
- Each class has its own event log, so the interleaving of effects across components is not captured.
- A server shutdown does not itself run `OnStopServer`. That is an engine callback, modelled as a separate method.
- The clocks (`Time.time`, `Time.unscaledTimeAsDouble`), the own client id, the Steam persona name, the Steam id and the scene search for the start zone become parameters.
- Steam's lobby metadata is the table of writes this peer made. A joiner's read of the host key is passed in as text.
- SteamLobby.SteamLobbyManager.OnLobbyCreated: the metadata table and the joinable flags are final-state fields, not entries in the event log. So the order of the four metadata writes and of the joinable call relative to the server and client start is not captured; only the server starting before the client is.
- Presence.PongTargetRpc: times are integer milliseconds, so `Math.Round` on a fractional RTT is not modelled.
- Text.ParseU64: leading or trailing white space and a "-0" input, which `ulong.TryParse` accepts, are not accepted. The contract gives only sufficient conditions for success.
- Text.ParseInt32: culture-specific signs and surrounding white space accepted by `int.TryParse` are not modelled. The contract gives only sufficient conditions for success.
- Text.ToLower: only ASCII letters are lower-cased; `ToLowerInvariant` on other letters is not modelled.
- Console.Dispatch: `float.TryParse` in the invariant culture is a parameter, and float values are `real`. No claim is made about which texts parse.
- MainMenu.MainMenuUI.OnHostClicked: a missing lobby manager is modelled as stopping after the context writes, where the game throws. A null catalog entry inside the array is not modelled. The dropdown and player-count widgets are plain fields.
- Lobby.LobbyNetwork.ForceStartServerRpc: the scene search for the Steam lobby manager is a nullable parameter.
- 32-bit `int` fields such as match seconds, the RTT and the convars are unbounded integers. Overflow is modelled only where text is parsed.
