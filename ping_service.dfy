/** Round-trip-time tracking plus a replicated name / Steam-id registry.
    A client pings the server every two seconds; the server records the
    client's name and id and answers with a pong echoing the timestamp; the
    client turns a pong for a pending ping into a clamped RTT and reports it
    back, where it is stored. Times are integer milliseconds. */
module Presence {
  import opened Common
  import opened UnityMath
  import opened Text
  import opened Effects

  /** The client's record of its last ping. */
  datatype LocalPing = LocalPing(sentMs: int, pending: bool)

  const PingIntervalMs := 2000

  /** The reported RTT: the elapsed time since the locally stored send time,
      clamped to [0, 999]. */
  function RttMs(sentMs: int, nowMs: int): (ms: int)
    ensures 0 <= ms <= 999
    ensures 0 <= nowMs - sentMs <= 999 ==> ms == nowMs - sentMs
    ensures nowMs < sentMs ==> ms == 0
    ensures nowMs - sentMs > 999 ==> ms == 999
  {
    Clamp(nowMs - sentMs, 0, 999)
  }

  /** A pong for `cid` seen at `nowMs`: accepted only when a ping for `cid`
      is pending, which it then stops being; the result carries the RTT to
      report, or nothing. The echoed timestamp plays no part. */
  function HandlePong(locals: map<int, LocalPing>, cid: int, nowMs: int): (res: (map<int, LocalPing>, Option<int>))
    ensures res.1.Some? <==> cid in locals && locals[cid].pending
    ensures res.1.None? ==> res.0 == locals
    ensures res.1.Some? ==> res.0 == locals[cid := LocalPing(locals[cid].sentMs, false)]
    ensures res.1.Some? ==> res.1.value == RttMs(locals[cid].sentMs, nowMs)
  {
    if cid !in locals || !locals[cid].pending then (locals, None)
    else (locals[cid := locals[cid].(pending := false)], Some(RttMs(locals[cid].sentMs, nowMs)))
  }

  /** The report a handled pong sends, if any. */
  function ReportEffects(cid: int, report: Option<int>): (e: seq<Effect>)
    ensures |e| <= 1 && (e != [] <==> report.Some?)
    ensures e != [] ==> e[0] == ReportRttRpc(cid, report.value)
  {
    if report.Some? then [ReportRttRpc(cid, report.value)] else []
  }

  /** A pong is single-shot: a second pong for the same ping is ignored. */
  lemma PongSingleShot(locals: map<int, LocalPing>, cid: int, now1: int, now2: int)
    ensures HandlePong(HandlePong(locals, cid, now1).0, cid, now2)
      == (HandlePong(locals, cid, now1).0, None)
  {
  }

  /** The label shown for a client without a registered name. */
  function FallbackName(cid: int): (n: string)
    ensures |n| > 7 && n[..7] == "Client "
    ensures cid >= 0 ==> AllDigits(n[7..]) && DigitsValue(n[7..]) == cid && (|n| > 8 ==> n[7] != '0')
    ensures cid < 0 ==> n[7] == '-' && n[8..] == NatToDecimal(-cid)
  {
    DecimalValue(if cid < 0 then -cid else cid);
    "Client " + IntToDecimal(cid)
  }

  class PingService {
    /** `Owner` of the networked object: where every pong is sent. */
    const ownerId: int
    var locals: map<int, LocalPing>
    var nextPingMs: int
    var pings: map<int, int>
    var names: map<int, string>
    var steamIds: map<int, U64>
    ghost var events: seq<Effect>

    constructor (ownerId: int)
      ensures this.ownerId == ownerId && nextPingMs == 0
      ensures locals == map[] && pings == map[] && names == map[] && steamIds == map[]
      ensures events == []
    {
      this.ownerId := ownerId;
      locals := map[];
      nextPingMs := 0;
      pings, names, steamIds := map[], map[], map[];
      events := [];
    }

    /** Per frame. Only on a client, and only once the game time reaches
        `nextPingMs`, is a ping sent and the next one set two seconds later;
        since `nextPingMs` starts at 0 the first ping goes out at once.
        `timeMs` is the game clock, `clockMs` the unscaled clock the ping
        is stamped with. */
    method Update(isClient: bool, timeMs: int, clockMs: int, ownId: int, personaName: string, ownSteamId: U64)
      modifies this`nextPingMs, this`locals, this`events
      ensures !(isClient && timeMs >= old(nextPingMs)) ==>
        nextPingMs == old(nextPingMs) && locals == old(locals) && events == old(events)
      ensures isClient && timeMs >= old(nextPingMs) ==> nextPingMs == timeMs + PingIntervalMs
      ensures isClient && timeMs >= old(nextPingMs) ==> locals == old(locals)[ownId := LocalPing(clockMs, true)]
      ensures isClient && timeMs >= old(nextPingMs) ==>
        events == old(events) + [PingRpc(ownId, clockMs, personaName, ownSteamId)]
    {
      if !isClient {
        return;
      }
      if timeMs >= nextPingMs {
        nextPingMs := timeMs + PingIntervalMs;
        SendPing(ownId, clockMs, personaName, ownSteamId);
      }
    }

    /** Record a pending ping for the own client id, replacing any earlier
        unanswered one, and send it to the server. */
    method SendPing(ownId: int, clockMs: int, personaName: string, ownSteamId: U64)
      modifies this`locals, this`events
      ensures locals == old(locals)[ownId := LocalPing(clockMs, true)]
      ensures events == old(events) + [PingRpc(ownId, clockMs, personaName, ownSteamId)]
    {
      locals := locals[ownId := LocalPing(clockMs, true)];
      events := events + [PingRpc(ownId, clockMs, personaName, ownSteamId)];
    }

    /** Server side of a ping from any connection: answer with a pong to the
        object's owner (not to the sender), echoing `cid` and the time, then
        register the name and Steam id under `cid`. */
    method PingServerRpc(cid: int, sentClientMs: int, name: string, sid: U64)
      modifies this`names, this`steamIds, this`events
      ensures events == old(events) + [PongRpc(ownerId, cid, sentClientMs)]
      ensures names == old(names)[cid := name] && steamIds == old(steamIds)[cid := sid]
    {
      events := events + [PongRpc(ownerId, cid, sentClientMs)];
      names := names[cid := name];
      steamIds := steamIds[cid := sid];
    }

    /** Client side of a pong seen at `clockMs`. */
    method PongTargetRpc(cid: int, sentClientMs: int, clockMs: int)
      modifies this`locals, this`events
      ensures locals == HandlePong(old(locals), cid, clockMs).0
      ensures events == old(events) + ReportEffects(cid, HandlePong(old(locals), cid, clockMs).1)
    {
      if cid !in locals || !locals[cid].pending {
        return;
      }
      var sent := locals[cid].sentMs;
      locals := locals[cid := locals[cid].(pending := false)];
      var ms := Clamp(clockMs - sent, 0, 999);
      events := events + [ReportRttRpc(cid, ms)];
    }

    /** Server side of a report: store the value as sent, nothing else. */
    method ReportRttServerRpc(cid: int, rttMs: int)
      modifies this`pings
      ensures pings == old(pings)[cid := rttMs]
    {
      pings := pings[cid := rttMs];
    }

    /** The stored RTT, or -1 for a client never reported. */
    function GetPing(cid: int): (p: int)
      reads this
      ensures cid in pings ==> p == pings[cid]
      ensures cid !in pings ==> p == -1
    {
      Lookup(pings, cid, -1)
    }

    /** The registered name, or "Client {cid}". */
    function GetName(cid: int): (n: string)
      reads this
      ensures cid in names ==> n == names[cid]
      ensures cid !in names ==> n == FallbackName(cid)
    {
      Lookup(names, cid, FallbackName(cid))
    }

    /** The registered Steam id, or 0. */
    function GetSteamId(cid: int): (s: U64)
      reads this
      ensures cid in steamIds ==> s == steamIds[cid]
      ensures cid !in steamIds ==> s == 0
    {
      Lookup(steamIds, cid, 0)
    }
  }
}
