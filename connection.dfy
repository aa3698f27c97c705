/** The connection manager of both clients: `connectWebSocket`, its socket
    handlers and the `onmessage` dispatch. The standalone client answers
    `extract_dom` in-process and pings when the socket opens; the background
    worker relays `extract_dom` to the first outline tab and does not ping. */
module Connection {
  import opened Wrappers
  import opened Dom
  import opened Extractor
  import opened Protocol
  import ContentScript

  /** `ws.readyState` of the socket held in `ws`. */
  datatype ReadyState = Connecting | Open

  /** Which client: the standalone injected client or the background worker. */
  datatype Variant = Standalone | Background

  /** The module-level state: `ws` (`None` for `null`), `isConnecting`,
      whether `reconnectInterval` holds a timer, the number of reconnect
      intervals actually running, and the messages sent so far. */
  datatype ConnState = ConnState(
    ws: Option<ReadyState>,
    isConnecting: bool,
    reconnectInterval: bool,
    liveTimers: nat,
    sent: seq<Outbound>)

  /** The state when the script starts. */
  const Init := ConnState(None, false, false, 0, [])

  /** The handle records every running interval, so at most one runs; and
      the `isConnecting` flag is only up while a socket is connecting. */
  predicate Inv(s: ConnState)
  {
    s.liveTimers == (if s.reconnectInterval then 1 else 0) &&
    (s.isConnecting ==> s.ws == Some(Connecting))
  }

  /** `if (!reconnectInterval) reconnectInterval = setInterval(...)`. */
  function ScheduleReconnect(s: ConnState): ConnState
  {
    if s.reconnectInterval then s
    else s.(reconnectInterval := true, liveTimers := s.liveTimers + 1)
  }

  /** `connectWebSocket()`; each reconnect tick is also this call.
      `constructorFails` says whether `new WebSocket(WS_URL)` throws. */
  function ConnectStep(s: ConnState, constructorFails: bool): ConnState
  {
    if s.isConnecting || s.ws == Some(Open) then s
    else if constructorFails then ScheduleReconnect(s.(isConnecting := false))
    else s.(isConnecting := true, ws := Some(Connecting))
  }

  /** The socket's `onopen`: the socket is now open, the flag drops, the
      reconnect interval is cleared, and the standalone client pings. When
      `ws` is `null` the ping's `ws.send` throws and nothing is sent. */
  function OpenStep(v: Variant, s: ConnState): ConnState
  {
    var cleared :=
      if s.reconnectInterval
      then s.(reconnectInterval := false, liveTimers := if s.liveTimers > 0 then s.liveTimers - 1 else 0)
      else s;
    var now := cleared.(isConnecting := false, ws := if s.ws.Some? then Some(Open) else None);
    if v == Standalone && s.ws.Some? then now.(sent := now.sent + [Ping]) else now
  }

  /** The socket's `onerror`. */
  function ErrorStep(s: ConnState): ConnState
  {
    s.(isConnecting := false)
  }

  /** The socket's `onclose`. */
  function CloseStep(s: ConnState): ConnState
  {
    ScheduleReconnect(s.(ws := None, isConnecting := false))
  }

  /** The transport events and calls that move the state machine. */
  datatype Event = Connect(constructorFails: bool) | Opened | Errored | Closed

  /** One event. A socket event comes from the socket held in `ws`: only a
      connecting socket opens, and with no socket there is nothing to raise
      an error or a close, so such an event changes nothing. */
  function Step(v: Variant, s: ConnState, e: Event): ConnState
  {
    match e
    case Connect(fails) => ConnectStep(s, fails)
    case Opened => if s.ws == Some(Connecting) then OpenStep(v, s) else s
    case Errored => if s.ws.Some? then ErrorStep(s) else s
    case Closed => if s.ws.Some? then CloseStep(s) else s
  }

  function Run(v: Variant, s: ConnState, events: seq<Event>): ConnState
    decreases |events|
  {
    if events == [] then s else Run(v, Step(v, s, events[0]), events[1..])
  }

  /** `ws.send(...)`: goes out only on an open socket. With `ws` `null`
      (a `TypeError`) or connecting, `send` throws, and the handler's
      `catch`, which sends again, throws as well, so nothing goes out. */
  function Deliver(s: ConnState, replies: seq<Outbound>): ConnState
  {
    if s.ws == Some(Open) then s.(sent := s.sent + replies) else s
  }

  /** The replies of the standalone client's `onmessage` to `msg`. */
  function Respond(page: Page, msg: Inbound): seq<Outbound>
  {
    match msg
    case Unparseable(error) => [Reply(Failure(error))]
    case Parsed(request) =>
      if request.action == ExtractAction then [Reply(Extract(page, request.nodeId))] else []
  }

  /** A browser tab on the outline site (the URL pattern the worker queries for), with its page. */
  datatype Tab = Tab(id: int, page: Page)

  /** `chrome.tabs.sendMessage(tabId, request)`. */
  datatype Forward = Forward(tabId: int, request: Request)

  const NoTabError := "No Workflowy tab open"

  /** What the background worker forwards to tabs for `msg`. */
  function RelayForwards(tabs: seq<Tab>, msg: Inbound): seq<Forward>
  {
    match msg
    case Unparseable(_) => []
    case Parsed(request) =>
      if request.action == ExtractAction && |tabs| > 0
      then [Forward(tabs[0].id, Request(ExtractAction, request.nodeId))]
      else []
  }

  /** The replies of the background worker's `onmessage` to `msg`, where
      `relayError` is the message `chrome.tabs.sendMessage` rejects with,
      if it does. */
  function RelayReplies(tabs: seq<Tab>, msg: Inbound, relayError: Option<string>): seq<Outbound>
  {
    match msg
    case Unparseable(error) => [Reply(Failure(error))]
    case Parsed(request) =>
      if request.action != ExtractAction then []
      else if |tabs| == 0 then [Reply(Failure(NoTabError))]
      else match relayError
        case Some(error) => [Reply(Failure(error))]
        case None => [Reply(Extract(tabs[0].page, request.nodeId))]
  }

  // ---------------------------------------------------------------------
  // Properties of the state machine

  lemma StepPreservesInv(v: Variant, s: ConnState, e: Event)
    requires Inv(s)
    ensures Inv(Step(v, s, e))
  {
  }

  /** Whatever events arrive, the invariant holds throughout. */
  lemma {:induction false} RunPreservesInv(v: Variant, s: ConnState, events: seq<Event>)
    requires Inv(s)
    ensures Inv(Run(v, s, events))
    decreases |events|
  {
    if events != [] {
      StepPreservesInv(v, s, events[0]);
      RunPreservesInv(v, Step(v, s, events[0]), events[1..]);
    }
  }

  /** From start-up, across any sequence of events, at most one reconnect
      interval runs, and one runs exactly when the handle is set. */
  lemma AtMostOneTimer(v: Variant, events: seq<Event>)
    ensures Run(v, Init, events).liveTimers <= 1
    ensures Run(v, Init, events).liveTimers == 1 <==> Run(v, Init, events).reconnectInterval
  {
    RunPreservesInv(v, Init, events);
  }

  /** Once the first `connectWebSocket` call has run, a manager without a
      socket always has a reconnect interval pending. */
  predicate Reconnecting(s: ConnState)
  {
    s.ws.None? ==> s.reconnectInterval
  }

  lemma StepKeepsReconnecting(v: Variant, s: ConnState, e: Event)
    requires Inv(s) && Reconnecting(s)
    ensures Reconnecting(Step(v, s, e))
  {
  }

  lemma {:induction false} RunKeepsReconnecting(v: Variant, s: ConnState, events: seq<Event>)
    requires Inv(s) && Reconnecting(s)
    ensures Reconnecting(Run(v, s, events))
    decreases |events|
  {
    if events != [] {
      StepPreservesInv(v, s, events[0]);
      StepKeepsReconnecting(v, s, events[0]);
      RunKeepsReconnecting(v, Step(v, s, events[0]), events[1..]);
    }
  }

  /** From start-up, after the first `connectWebSocket` call and whatever
      events follow, whenever `ws` is `null` a reconnect interval is
      pending, so the next tick tries again: reconnection never stops. */
  lemma ReconnectsForever(v: Variant, fails: bool, events: seq<Event>)
    ensures var r := Run(v, Init, [Connect(fails)] + events);
              r.ws.None? ==> !r.isConnecting && r.reconnectInterval && r.liveTimers == 1
  {
    var s1 := Step(v, Init, Connect(fails));
    assert ([Connect(fails)] + events)[1..] == events;
    assert Run(v, Init, [Connect(fails)] + events) == Run(v, s1, events);
    RunPreservesInv(v, s1, events);
    RunKeepsReconnecting(v, s1, events);
  }

  /** `connectWebSocket` changes nothing while connecting or open, so a
      second call after a successful one is a no-op. */
  lemma ConnectIsIdempotent(s: ConnState, constructorFails: bool)
    ensures (s.isConnecting || s.ws == Some(Open)) ==> ConnectStep(s, constructorFails) == s
    ensures ConnectStep(ConnectStep(s, false), constructorFails) == ConnectStep(s, false)
  {
  }

  /** Otherwise it raises the flag and installs a connecting socket; when
      the constructor throws it drops the flag, leaves `ws` alone and makes
      sure exactly one reconnect interval runs. Nothing is sent. */
  lemma ConnectAttempt(s: ConnState)
    requires Inv(s) && !s.isConnecting && s.ws != Some(Open)
    ensures ConnectStep(s, false).isConnecting && ConnectStep(s, false).ws == Some(Connecting)
    ensures ConnectStep(s, false).reconnectInterval == s.reconnectInterval
    ensures var r := ConnectStep(s, true);
              !r.isConnecting && r.ws == s.ws && r.reconnectInterval && r.liveTimers == 1
    ensures ConnectStep(s, false).sent == s.sent && ConnectStep(s, true).sent == s.sent
  {
  }

  /** `onopen` drops the flag and cancels any pending reconnect; the
      standalone client sends exactly one ping, the background worker none. */
  lemma OpenClearsTimer(v: Variant, s: ConnState)
    requires Inv(s) && s.ws.Some?
    ensures var r := OpenStep(v, s);
              !r.isConnecting && !r.reconnectInterval && r.liveTimers == 0 && r.ws == Some(Open)
    ensures v == Standalone ==> OpenStep(v, s).sent == s.sent + [Ping]
    ensures v == Background ==> OpenStep(v, s).sent == s.sent
  {
  }

  /** `onclose` forgets the socket, drops the flag and leaves exactly one
      reconnect interval running, creating one only if none was. */
  lemma CloseSchedulesOneTimer(s: ConnState)
    requires Inv(s)
    ensures var r := CloseStep(s);
              r.ws == None && !r.isConnecting && r.reconnectInterval && r.liveTimers == 1 && r.sent == s.sent
    ensures s.reconnectInterval ==> CloseStep(s).liveTimers == s.liveTimers
  {
  }

  /** `onerror` only drops the flag. */
  lemma ErrorOnlyDropsFlag(s: ConnState)
    ensures var r := ErrorStep(s);
              !r.isConnecting && r.ws == s.ws && r.reconnectInterval == s.reconnectInterval &&
              r.liveTimers == s.liveTimers && r.sent == s.sent
  {
  }

  /** Close, then a reconnect tick that opens: one interval runs after the
      close, the successful reconnect clears it, and connecting again is a
      no-op until the next close. */
  lemma ReconnectCycle(v: Variant, s: ConnState)
    requires Inv(s) && s.ws == Some(Open)
    ensures Run(v, s, [Closed]).liveTimers == 1
    ensures var r := Run(v, s, [Closed, Connect(false), Opened]);
              r.liveTimers == 0 && r.ws == Some(Open) && !r.isConnecting
    ensures Run(v, s, [Closed, Connect(false), Opened, Connect(false)]) == Run(v, s, [Closed, Connect(false), Opened])
  {
  }

  // ---------------------------------------------------------------------
  // Properties of the dispatch

  /** The standalone client sends exactly one reply to `extract_dom`, the
      extraction result; one failure reply carrying the exception's message
      when the message does not parse; and nothing for any other action. */
  lemma RespondRepliesOnce(page: Page, msg: Inbound)
    ensures msg.Unparseable? ==> Respond(page, msg) == [Reply(Failure(msg.error))]
    ensures msg.Parsed? && msg.request.action == ExtractAction ==>
              Respond(page, msg) == [Reply(Extract(page, msg.request.nodeId))]
    ensures msg.Parsed? && msg.request.action != ExtractAction ==> Respond(page, msg) == []
    ensures |Respond(page, msg)| <= 1
  {
  }

  /** The background worker: with no outline tab it replies with the fixed
      error and forwards nothing; otherwise it forwards the request to the
      first tab only and relays that tab's answer as its one reply; other
      actions get nothing. */
  lemma RelayRepliesOnce(tabs: seq<Tab>, msg: Inbound, relayError: Option<string>)
    ensures msg.Parsed? && msg.request.action != ExtractAction ==>
              RelayReplies(tabs, msg, relayError) == [] && RelayForwards(tabs, msg) == []
    ensures msg.Parsed? && msg.request.action == ExtractAction && tabs == [] ==>
              RelayReplies(tabs, msg, relayError) == [Reply(Failure(NoTabError))] && RelayForwards(tabs, msg) == []
    ensures msg.Parsed? && msg.request.action == ExtractAction && tabs != [] ==>
              RelayForwards(tabs, msg) == [Forward(tabs[0].id, Request(ExtractAction, msg.request.nodeId))] &&
              RelayReplies(tabs, msg, relayError) ==
                [Reply(if relayError.Some? then Failure(relayError.value) else Extract(tabs[0].page, msg.request.nodeId))]
    ensures |RelayReplies(tabs, msg, relayError)| <= 1
  {
  }

  /** Relaying through the first tab gives the reply the standalone client
      computes over that tab's page. */
  lemma RelayAgreesWithStandalone(tabs: seq<Tab>, msg: Inbound)
    requires tabs != []
    ensures RelayReplies(tabs, msg, None) == Respond(tabs[0].page, msg)
  {
  }

  // ---------------------------------------------------------------------
  // The manager as the source keeps it: module-level variables and handlers

  class ConnectionManager {
    const variant: Variant
    var ws: Option<ReadyState>
    var isConnecting: bool
    var reconnectInterval: bool
    ghost var liveTimers: nat
    var sent: seq<Outbound>
    var forwarded: seq<Forward>

    ghost function State(): ConnState
      reads this
    {
      ConnState(ws, isConnecting, reconnectInterval, liveTimers, sent)
    }

    ghost predicate Valid()
      reads this
    {
      Inv(State())
    }

    constructor (variant: Variant)
      ensures Valid() && State() == Init
      ensures this.variant == variant && forwarded == []
    {
      this.variant := variant;
      ws, isConnecting, reconnectInterval, liveTimers, sent := None, false, false, 0, [];
      forwarded := [];
    }

    /** `if (!reconnectInterval) reconnectInterval = setInterval(connectWebSocket, RECONNECT_DELAY)`. */
    method ScheduleReconnectInterval()
      modifies this
      ensures State() == ScheduleReconnect(old(State()))
      ensures forwarded == old(forwarded)
    {
      if !reconnectInterval {
        reconnectInterval := true;
        liveTimers := liveTimers + 1;
      }
    }

    /** `connectWebSocket()`. */
    method ConnectWebSocket(constructorFails: bool)
      requires Valid()
      modifies this
      ensures Valid() && State() == ConnectStep(old(State()), constructorFails)
      ensures forwarded == old(forwarded)
    {
      if isConnecting || ws == Some(Open) {
        return;
      }
      isConnecting := true;
      if constructorFails {
        isConnecting := false;
        ScheduleReconnectInterval();
      } else {
        ws := Some(Connecting);
      }
    }

    /** `ws.onopen`. */
    method OnOpen()
      requires Valid()
      modifies this
      ensures Valid() && State() == OpenStep(variant, old(State()))
      ensures forwarded == old(forwarded)
    {
      isConnecting := false;
      if reconnectInterval {
        reconnectInterval := false;
        liveTimers := liveTimers - 1;
      }
      if ws.Some? {
        ws := Some(Open);
        if variant == Standalone {
          sent := sent + [Ping];
        }
      }
    }

    /** `ws.onerror`. */
    method OnError()
      requires Valid()
      modifies this
      ensures Valid() && State() == ErrorStep(old(State()))
      ensures forwarded == old(forwarded)
    {
      isConnecting := false;
    }

    /** `ws.onclose`. */
    method OnClose()
      requires Valid()
      modifies this
      ensures Valid() && State() == CloseStep(old(State()))
      ensures forwarded == old(forwarded)
    {
      ws := None;
      isConnecting := false;
      ScheduleReconnectInterval();
    }

    /** `ws.send(JSON.stringify(m))`. */
    method Send(m: Outbound)
      modifies this
      ensures State() == Deliver(old(State()), [m])
      ensures forwarded == old(forwarded)
    {
      if ws == Some(Open) {
        sent := sent + [m];
      }
    }

    /** The standalone client's `ws.onmessage`, over the page it runs in. */
    method OnMessage(page: Page, msg: Inbound)
      requires Valid() && variant == Standalone
      modifies this
      ensures Valid() && State() == Deliver(old(State()), Respond(page, msg))
      ensures forwarded == old(forwarded)
    {
      match msg {
        case Unparseable(error) =>
          Send(Reply(Failure(error)));
        case Parsed(request) =>
          if request.action == ExtractAction {
            var result := ExtractDomTree(page, request.nodeId);
            Send(Reply(result));
          }
      }
    }

    /** The background worker's `ws.onmessage`, given the outline tabs that
      `chrome.tabs.query` finds and whether `chrome.tabs.sendMessage`
      rejects; the first tab answers through its content script. */
    method OnRelayMessage(tabs: seq<Tab>, msg: Inbound, relayError: Option<string>)
      requires Valid() && variant == Background
      modifies this
      ensures Valid() && State() == Deliver(old(State()), RelayReplies(tabs, msg, relayError))
      ensures forwarded == old(forwarded) + RelayForwards(tabs, msg)
    {
      match msg {
        case Unparseable(error) =>
          Send(Reply(Failure(error)));
        case Parsed(request) =>
          if request.action == ExtractAction {
            if |tabs| == 0 {
              Send(Reply(Failure(NoTabError)));
              return;
            }
            var forward := Request(ExtractAction, request.nodeId);
            forwarded := forwarded + [Forward(tabs[0].id, forward)];
            match relayError {
              case Some(error) =>
                Send(Reply(Failure(error)));
              case None =>
                var response := ContentScript.OnMessage(tabs[0].page, forward);
                Send(Reply(response.value));
            }
          }
      }
    }
  }
}
