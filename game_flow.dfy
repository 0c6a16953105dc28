/** The server-authoritative match controller: a per-second countdown that
    starts from the session's match length, ends the match when it reaches
    zero, and a respawn request that teleports a player into the start zone. */
module GameFlow {
  import opened UnityMath
  import opened Effects
  import opened SessionData

  // ---------------------------------------------------------------------
  // The countdown as values

  /** The timer a match starts with: the session's length, but never below
      one second, whatever was stored. */
  function StartTimer(matchSeconds: int): (t: int)
    ensures t >= 1
    ensures matchSeconds >= 1 ==> t == matchSeconds
    ensures matchSeconds < 1 ==> t == 1
  {
    Max(1, matchSeconds)
  }

  /** One tick: down by exactly one second while positive, saturating at 0. */
  function Tick(t: int): (r: int)
    ensures r >= 0
    ensures t >= 1 ==> r == t - 1
    ensures t <= 1 ==> r == 0
  {
    Max(0, t - 1)
  }

  /** The timer after `k` ticks. */
  function TimerAfter(t: int, k: nat): int
    decreases k
  {
    if k == 0 then t else TimerAfter(Tick(t), k - 1)
  }

  /** For each of `k` successive ticks from `t`: whether it raised the end of
      the match (the timer it left was 0). */
  function EndTrace(t: int, k: nat): seq<bool>
    decreases k
  {
    if k == 0 then [] else [Tick(t) == 0] + EndTrace(Tick(t), k - 1)
  }

  /** `k` ticks take the timer to `max(0, t - k)`: never negative, and 0
      stays 0. */
  lemma {:induction false} TimerAfterTicks(t: int, k: nat)
    requires t >= 0
    ensures TimerAfter(t, k) == Max(0, t - k)
  {
    if k > 0 {
      TimerAfterTicks(Tick(t), k - 1);
    }
  }

  /** From a timer `t >= 0`, tick number `i + 1` raises the end of the match
      exactly when `i + 1 >= t`: the first `t - 1` ticks raise nothing, tick
      `t` raises it, and so does every later tick while ticks keep coming. */
  lemma {:induction false} EndFiresFromTick(t: int, k: nat)
    requires t >= 0
    ensures |EndTrace(t, k)| == k
    ensures forall i :: 0 <= i < k ==> (EndTrace(t, k)[i] <==> i + 1 >= t)
  {
    if k > 0 {
      var rest := EndTrace(Tick(t), k - 1);
      EndFiresFromTick(Tick(t), k - 1);
      assert EndTrace(t, k) == [Tick(t) == 0] + rest;
      forall i | 1 <= i < k
        ensures EndTrace(t, k)[i] <==> i + 1 >= t
      {
        assert EndTrace(t, k)[i] == rest[i - 1];
      }
    }
  }

  /** A match started from any stored length `s` ends on tick
      `StartTimer(s)` and not before. */
  lemma MatchEndsOnTime(s: int, k: nat)
    requires k >= 1
    ensures |EndTrace(StartTimer(s), k)| == k
    ensures EndTrace(StartTimer(s), k)[k - 1] <==> k >= StartTimer(s)
  {
    EndFiresFromTick(StartTimer(s), k);
  }

  /** What a tick sends besides the timer update: the buffered
      return-to-menu RPC and the delayed shutdown, exactly when it left the
      timer at 0. */
  function TickEffects(timeLeft: int, menuScene: string): (r: seq<Effect>)
    ensures r != [] <==> timeLeft == 0
    ensures r != [] ==> r == [ReturnToMenuRpc(menuScene), ShutdownScheduled]
  {
    if timeLeft == 0 then [ReturnToMenuRpc(menuScene), ShutdownScheduled] else []
  }

  // ---------------------------------------------------------------------
  // Respawn

  /** The networked player object named in a respawn request. */
  datatype PlayerObject = PlayerObject(ownerId: int, hasMotor: bool)

  /** What a respawn request does: nothing without a start zone; otherwise a
      teleport of the target, if it has a motor. The requesting connection is
      not an input: ownership of the target is never checked. */
  function RespawnEffects(zonePresent: bool, target: PlayerObject): (r: seq<Effect>)
    ensures r != [] <==> zonePresent && target.hasMotor
    ensures r != [] ==> r == [Teleport(target.ownerId)]
  {
    if zonePresent && target.hasMotor then [Teleport(target.ownerId)] else []
  }

  // ---------------------------------------------------------------------
  // The component

  class GameFlowManager {
    var matchSeconds: int
    const killY: real
    const mainMenuScene: string
    var timeLeft: int
    var startZonePresent: bool
    /** Whether the repeating one-second tick is scheduled. */
    var ticking: bool
    ghost var events: seq<Effect>

    ghost predicate Valid()
      reads this
    {
      timeLeft >= 0
    }

    /** Inspector defaults; the replicated timer starts at 0. */
    constructor ()
      ensures Valid()
      ensures matchSeconds == 180 && killY == -100.0 && mainMenuScene == "MainMenu" && timeLeft == 0
      ensures !startZonePresent && !ticking && events == []
    {
      matchSeconds := 180;
      killY := -100.0;
      mainMenuScene := "MainMenu";
      timeLeft := 0;
      startZonePresent := false;
      ticking := false;
      events := [];
    }

    /** Server start: the timer takes the session's length (at least 1), the
        one-second tick is scheduled, and the start zone is looked up
        (`zoneFound` is the scene search's result). */
    method OnStartServer(ctx: SessionContext, zoneFound: bool)
      requires Valid()
      modifies this
      ensures Valid()
      ensures matchSeconds == StartTimer(ctx.matchSeconds) && timeLeft == matchSeconds
      ensures timeLeft >= 1
      ensures ticking && startZonePresent == zoneFound
      ensures events == old(events)
    {
      matchSeconds := Max(1, ctx.matchSeconds);
      timeLeft := matchSeconds;
      ticking := true;
      startZonePresent := zoneFound;
    }

    /** Server stop cancels the repeating tick and nothing else. */
    method OnStopServer()
      modifies this`ticking
      ensures !ticking
    {
      ticking := false;
    }

    /** One tick of the countdown. A tick that leaves the timer at 0 sends
        the buffered return-to-menu RPC and schedules the shutdown, on every
        such tick. */
    method ServerTickSecond()
      requires Valid()
      modifies this`timeLeft, this`events
      ensures Valid()
      ensures timeLeft == Tick(old(timeLeft))
      ensures old(timeLeft) >= 1 ==> timeLeft == old(timeLeft) - 1
      ensures events == old(events) + TickEffects(timeLeft, mainMenuScene)
    {
      timeLeft := Max(0, timeLeft - 1);
      if timeLeft == 0 {
        events := events + [ReturnToMenuRpc(mainMenuScene), ShutdownScheduled];
      }
    }

    /** One second of engine time: the tick runs only while it is scheduled. */
    method ElapseSecond()
      requires Valid()
      modifies this`timeLeft, this`events
      ensures Valid()
      ensures ticking ==> timeLeft == Tick(old(timeLeft))
      ensures ticking ==> events == old(events) + TickEffects(timeLeft, mainMenuScene)
      ensures !ticking ==> timeLeft == old(timeLeft) && events == old(events)
    {
      if ticking {
        ServerTickSecond();
      }
    }

    /** The scheduled shutdown: stop the server, then the local client, then
        load the menu scene locally, in that order. */
    method ServerShutdownToMenu()
      modifies this`events
      ensures events == old(events) +
        [StopServerConnection, StopClientConnection, LoadScene(mainMenuScene)]
    {
      events := events + [StopServerConnection, StopClientConnection, LoadScene(mainMenuScene)];
    }

    /** The replicated timer, read without side effects. */
    function GetTimeLeft(): (t: int)
      requires Valid()
      reads this
      ensures t >= 0 && t == timeLeft
    {
      timeLeft
    }

    /** A respawn request from any connection. */
    method RequestRespawnServerRpc(target: PlayerObject)
      modifies this`events
      ensures events == old(events) + RespawnEffects(startZonePresent, target)
      ensures !startZonePresent ==> events == old(events)
    {
      if !startZonePresent {
        return;
      }
      if target.hasMotor {
        events := events + [Teleport(target.ownerId)];
      }
    }
  }
}
