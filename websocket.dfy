/**
 * The realtime websocket client (src/api/websocket.ts): connection set-up,
 * the open/message/close handlers, the idle ping monitor, the energy
 * regeneration timer and the two-frame click protocol of `tap`.
 *
 * Timers and socket events are not scheduled here: each handler is a method
 * that the environment calls when its event fires, with the clock reading and
 * the random draw as parameters.
 */
module WebSocket {
  import opened Wrappers
  import opened Json
  import opened Records
  import opened Base
  import opened Utils

  /** The interval of the ping monitor, and the idle time after which it pings. */
  const PingInterval := 50_000

  /** The states of a `ws` socket. */
  datatype ReadyState = Connecting | Open | Closing | Closed

  datatype Socket = NoSocket | Socket(url: string, state: ReadyState)

  /** A frame the client sends: a click `{event: "click", data: {points}, reqId}` or `{event: "ping", data: null}`. */
  datatype Frame = Click(points: string, reqId: int) | Ping

  /** The `data` field of an inbound message. */
  datatype WsData = DataMissing | DataNull | DataOther | Record(payload: Payload)

  /** An inbound message: text that does not parse to an object, or its `data` and `error` fields. */
  datatype Inbound = Malformed | Message(data: WsData, error: Value)

  /** What the message handler does with a message. */
  datatype Event = Reconnect | Update(payload: Payload) | Logged

  const TokenExpired := "token-expired"

  function WsUrl(token: string, userId: int): string {
    "wss://ws-back.else.app/ws/?token=" + token + "&userId=" + Decimal(userId)
  }

  /**
   * The message handler's dispatch: null data with a "token-expired" error
   * reconnects; a payload with a non-zero balance updates the account; every
   * other message, and text that does not parse, is only logged.
   */
  function Classify(m: Inbound): (e: Event)
    ensures e.Reconnect? <==> m.Message? && m.data.DataNull? && m.error == Str(TokenExpired)
    ensures e.Update? <==> m.Message? && m.data.Record? && Latest(m.data.payload, Balance).GetOr(0) != 0
    ensures e.Update? ==> e.payload == m.data.payload
  {
    if m.Malformed? then Logged
    else if m.data.DataNull? && m.error == Str(TokenExpired) then Reconnect
    else if m.data.Record? && Latest(m.data.payload, Balance).GetOr(0) != 0 then Update(m.data.payload)
    else Logged
  }

  /** A payload that carries no balance is never applied, whatever else it holds. */
  lemma {:induction false} BalanceGatesUpdates(p: Payload, error: Value)
    requires forall i :: 0 <= i < |p| ==> !(p[i].Count? && p[i].key == Balance)
    ensures Classify(Message(Record(p), error)) == Logged
  {
    NoBalanceEntry(p);
  }

  lemma {:induction false} NoBalanceEntry(p: Payload)
    requires forall i :: 0 <= i < |p| ==> !(p[i].Count? && p[i].key == Balance)
    ensures Latest(p, Balance).None?
  {
    if p != [] {
      var init := p[..|p| - 1];
      assert forall i :: 0 <= i < |init| ==> init[i] == p[i];
      NoBalanceEntry(init);
    }
  }

  /** The ping monitor's test: more than one interval without inbound traffic. */
  predicate PingDue(now: int, lastActivityTime: int) {
    now - lastActivityTime > PingInterval
  }

  /** What one `tap` decides: no socket, nothing to send, or a number of points to send. */
  datatype TapPlan = NoConnection | Skip | Send(points: nat)

  /**
   * tap's decision: without a socket it stops; otherwise it draws the points
   * with generatePoints and sends them only when they are a number below the
   * current energy.
   */
  function PlanTap(connected: bool, ppc: nat, ptc: nat, d: Draw): (plan: TapPlan)
    ensures !connected <==> plan.NoConnection?
    ensures plan.Send? <==> connected && GeneratePoints(ppc, ptc, d).Some? && GeneratePoints(ppc, ptc, d).value < ptc
    ensures plan.Send? ==> plan.points == GeneratePoints(ppc, ptc, d).value
  {
    if !connected then NoConnection
    else
      var points := GeneratePoints(ppc, ptc, d);
      if points.Some? && points.value < ptc then Send(points.value) else Skip
  }

  /** The points tap sends are a whole number of clicks, below the energy, and at most 199 clicks. */
  lemma PlanTapWithinEnergy(ppc: nat, ptc: nat, d: Draw)
    requires ppc > 0
    ensures var plan := PlanTap(true, ppc, ptc, d);
      plan.Send? ==> plan.points < ptc && plan.points % ppc == 0 && plan.points <= 199 * ppc
  {
    var plan := PlanTap(true, ppc, ptc, d);
    if plan.Send? {
      if ptc >= 2 * ppc {
        GeneratePointsBelowEnergy(ppc, ptc, d);
      } else if ptc >= ppc {
        GeneratePointsOneStep(ppc, ptc, d);
      } else {
        GeneratePointsNoRoom(ppc, ptc, d);
      }
    }
  }

  /** With energy for exactly one click the drawn points equal the energy, so nothing is sent. */
  lemma PlanTapSkipsSingleClick(ppc: nat, d: Draw)
    requires ppc > 0
    ensures PlanTap(true, ppc, ppc, d) == Skip
  {
    GeneratePointsOneStep(ppc, ppc, d);
  }

  /** With energy for less than one click tap still sends, and what it sends is zero points. */
  lemma PlanTapSendsZeroBelowOneClick(ppc: nat, ptc: nat, d: Draw)
    requires 0 < ptc < ppc && d.num > 0
    ensures PlanTap(true, ppc, ptc, d) == Send(0)
  {
    GeneratePointsNoRoom(ppc, ptc, d);
  }

  /** tap's first request id: the stored one when it is a non-zero number, the clock otherwise. */
  function FirstReqId(reqId: Option<int>, now: int): (r: int)
    ensures reqId.Some? && reqId.value != 0 ==> r == reqId.value
    ensures reqId.None? || reqId.value == 0 ==> r == now
  {
    if reqId.Some? && reqId.value != 0 then reqId.value else now
  }

  /** The TapWebSocket object. */
  class TapWebSocket {
    const userId: int
    const jwt: string
    const proxy: string
    /** The account record shared with the bot. */
    const accountData: AccountData
    var ws: Socket
    var lastActivityTime: int
    /** Whether the pingMonitor field holds a running interval. */
    var pingMonitor: bool
    /** Ping intervals still running whose handle the field no longer holds. */
    var orphanedPingMonitors: nat
    /** Energy regeneration intervals started so far; they are never cleared. */
    var energyTimers: nat
    var reqId: Option<int>
    /** The frames handed to an open socket, oldest first. */
    var sent: seq<Frame>

    /** The constructor: `userId ?? 0`, the token as given, `proxy || ""`, no socket yet. */
    constructor (cfg: BaseConfig, accountData: AccountData, now: int)
      ensures userId == cfg.userId.GetOr(0) && jwt == Render(cfg.jwt)
      ensures proxy == (if Held(cfg.proxy) then cfg.proxy.value else "")
      ensures this.accountData == accountData
      ensures ws == NoSocket && lastActivityTime == now && reqId.None? && sent == []
      ensures !pingMonitor && orphanedPingMonitors == 0 && energyTimers == 0
    {
      userId := cfg.userId.GetOr(0);
      jwt := Render(cfg.jwt);
      proxy := if Held(cfg.proxy) then cfg.proxy.value else "";
      this.accountData := accountData;
      ws := NoSocket;
      lastActivityTime := now;
      pingMonitor := false;
      orphanedPingMonitors := 0;
      energyTimers := 0;
      reqId := None;
      sent := [];
    }

    /** setConnections: open a new socket on the account's token and id; nothing else changes. */
    method SetConnections()
      modifies this
      ensures ws == Socket(WsUrl(jwt, userId), Connecting)
      ensures lastActivityTime == old(lastActivityTime) && pingMonitor == old(pingMonitor)
      ensures orphanedPingMonitors == old(orphanedPingMonitors) && energyTimers == old(energyTimers)
      ensures reqId == old(reqId) && sent == old(sent)
    {
      ws := Socket(WsUrl(jwt, userId), Connecting);
    }

    /**
     * The open handler: start the ping monitor (a monitor already running
     * keeps running, orphaned) and, when the energy is below its total, one
     * more regeneration interval.
     */
    method OnOpen()
      modifies this
      requires ws.Socket?
      ensures ws == old(ws).(state := Open)
      ensures pingMonitor
      ensures orphanedPingMonitors == old(orphanedPingMonitors) + (if old(pingMonitor) then 1 else 0)
      ensures energyTimers == old(energyTimers) +
        (if accountData.realtime.ptc < accountData.realtime.ptcTotal then 1 else 0)
      ensures lastActivityTime == old(lastActivityTime) && reqId == old(reqId) && sent == old(sent)
    {
      ws := ws.(state := Open);
      StartPingMonitor();
      if accountData.realtime.ptc < accountData.realtime.ptcTotal {
        energyTimers := energyTimers + 1;
      }
    }

    method StartPingMonitor()
      modifies this
      ensures pingMonitor
      ensures orphanedPingMonitors == old(orphanedPingMonitors) + (if old(pingMonitor) then 1 else 0)
      ensures ws == old(ws) && energyTimers == old(energyTimers)
      ensures lastActivityTime == old(lastActivityTime) && reqId == old(reqId) && sent == old(sent)
    {
      if pingMonitor {
        orphanedPingMonitors := orphanedPingMonitors + 1;
      }
      pingMonitor := true;
    }

    /** One tick of a regeneration interval: the energy grows by its rate, with no cap at the total. */
    method EnergyTick()
      modifies accountData
      ensures accountData.realtime == old(accountData.realtime).(ptc := old(accountData.realtime.ptc + accountData.realtime.ptcRps))
      ensures accountData.account == old(accountData.account)
    {
      accountData.realtime := accountData.realtime.(ptc := accountData.realtime.ptc + accountData.realtime.ptcRps);
    }

    /**
     * The message handler: any message counts as activity; a token-expired
     * answer opens a new socket; a payload with a balance is passed on to the
     * update callback, which the caller applies.
     */
    method OnMessage(now: int, m: Inbound) returns (e: Event)
      modifies this
      ensures e == Classify(m)
      ensures lastActivityTime == now
      ensures ws == (if e.Reconnect? then Socket(WsUrl(jwt, userId), Connecting) else old(ws))
      ensures pingMonitor == old(pingMonitor) && orphanedPingMonitors == old(orphanedPingMonitors)
      ensures energyTimers == old(energyTimers) && reqId == old(reqId) && sent == old(sent)
    {
      lastActivityTime := now;
      e := Classify(m);
      if e.Reconnect? {
        SetConnections();
      }
    }

    /** The close handler: forget the request id, stop the ping monitor and reconnect. */
    method OnClose()
      modifies this
      ensures reqId.None? && !pingMonitor
      ensures ws == Socket(WsUrl(jwt, userId), Connecting)
      ensures orphanedPingMonitors == old(orphanedPingMonitors) && energyTimers == old(energyTimers)
      ensures lastActivityTime == old(lastActivityTime) && sent == old(sent)
    {
      reqId := None;
      ClearPingMonitor();
      SetConnections();
    }

    /** clearPingMonitor: afterwards no monitor is held, whether or not one was. */
    method ClearPingMonitor()
      modifies this
      ensures !pingMonitor
      ensures ws == old(ws) && orphanedPingMonitors == old(orphanedPingMonitors) && energyTimers == old(energyTimers)
      ensures lastActivityTime == old(lastActivityTime) && reqId == old(reqId) && sent == old(sent)
    {
      if pingMonitor {
        pingMonitor := false;
      }
    }

    /** One tick of a ping interval: a ping goes out only on an open socket idle for more than an interval. */
    method PingTick(now: int)
      modifies this
      ensures sent == old(sent) + (if PingDue(now, lastActivityTime) && ws.Socket? && ws.state == Open then [Ping] else [])
      ensures ws == old(ws) && lastActivityTime == old(lastActivityTime) && reqId == old(reqId)
      ensures pingMonitor == old(pingMonitor) && orphanedPingMonitors == old(orphanedPingMonitors)
      ensures energyTimers == old(energyTimers)
    {
      if PingDue(now, lastActivityTime) {
        SendPing();
      }
    }

    method SendPing()
      modifies this
      ensures sent == old(sent) + (if ws.Socket? && ws.state == Open then [Ping] else [])
      ensures ws == old(ws) && lastActivityTime == old(lastActivityTime) && reqId == old(reqId)
      ensures pingMonitor == old(pingMonitor) && orphanedPingMonitors == old(orphanedPingMonitors)
      ensures energyTimers == old(energyTimers)
    {
      if ws.Socket? && ws.state == Open {
        sent := sent + [Ping];
      }
    }

    /**
     * ws.send: an open socket takes the frame; a connecting one throws; a
     * closing or closed one drops it.
     */
    method Send(f: Frame) returns (thrown: bool)
      modifies this
      requires ws.Socket?
      ensures ws == old(ws) && (thrown <==> ws.state == Connecting)
      ensures sent == old(sent) + (if ws.state == Open then [f] else [])
      ensures lastActivityTime == old(lastActivityTime) && reqId == old(reqId)
      ensures pingMonitor == old(pingMonitor) && orphanedPingMonitors == old(orphanedPingMonitors)
      ensures energyTimers == old(energyTimers)
    {
      thrown := ws.state == Connecting;
      if ws.state == Open {
        sent := sent + [f];
      }
    }

    /**
     * tap: when PlanTap says to send, a click of "0" points and then a click
     * with the points, on consecutive request ids starting from FirstReqId.
     * The id is advanced as each frame is built, so a send that throws
     * (socket still connecting) leaves it one past the first frame.
     */
    method Tap(now: int, d: Draw)
      modifies this
      ensures var plan := PlanTap(ws.Socket?, accountData.realtime.ppc, accountData.realtime.ptc, d);
        var r := FirstReqId(old(reqId), now);
        if !plan.Send? then
          sent == old(sent) && reqId == old(reqId)
        else if ws.state == Connecting then
          sent == old(sent) && reqId == Some(r + 1)
        else
          reqId == Some(r + 2) &&
          sent == old(sent) + (if ws.state == Open then [Click("0", r), Click(Decimal(plan.points), r + 1)] else [])
      ensures ws == old(ws) && lastActivityTime == old(lastActivityTime)
      ensures pingMonitor == old(pingMonitor) && orphanedPingMonitors == old(orphanedPingMonitors)
      ensures energyTimers == old(energyTimers)
    {
      var plan := PlanTap(ws.Socket?, accountData.realtime.ppc, accountData.realtime.ptc, d);
      if plan.Send? {
        var r := FirstReqId(reqId, now);
        reqId := Some(r + 1);
        var thrown := Send(Click("0", r));
        if !thrown {
          reqId := Some(r + 2);
          thrown := Send(Click(Decimal(plan.points), r + 1));
        }
      }
    }
  }
}
