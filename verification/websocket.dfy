/** The connection manager (src/services/websocket.ts, class WebSocketManager).

    The socket is reduced to its readyState (None when the manager holds no
    socket). Timers are abstract: scheduling one increments a counter of
    pending timers, and the environment later fires it through the
    corresponding method. Every promise `connect` hands out gets an id, and
    `promises[id]` is its state; `connectingPromise` names the one the
    resolve/reject callbacks currently belong to.

    The transitions are first written as pure functions on a snapshot of the
    fields (so that properties over whole traces can be proved), then the
    class `ConnectionManager` performs them field by field and each method
    promises that its new snapshot is the transition of the old one. */
module WebSocketService {
  import opened ChatTypes
  import opened Strings

  datatype ReadyState = Connecting | Open | Closing | Closed

  /** The numeric WebSocket.readyState constants. */
  function ReadyStateCode(rs: ReadyState): nat
  {
    match rs
    case Connecting => 0
    case Open => 1
    case Closing => 2
    case Closed => 3
  }

  datatype PromiseState = Pending | Resolved | Rejected

  /** Close code 1000, "Normal Closure" (section 7.4.1 of RFC 6455). */
  const NormalClosure: int := 1000
  const MaxReconnectAttempts: nat := 5
  const PrimaryUrlPrefix: string := "ws://13.53.212.64/ws/messages?token="
  const AlternateUrlPrefix: string := "ws://13.53.212.64:8080/ws/messages?token="

  /** A template literal renders a null token as "null". */
  function TokenText(token: Option<string>): string
  {
    if token.Some? then token.value else "null"
  }

  /** The candidate URLs built on every connect: primary, then alternate, each
      carrying the token as its query parameter. */
  function Candidates(token: Option<string>): (r: seq<string>)
    ensures |r| == 2 && r[0] != r[1]
    ensures forall i :: 0 <= i < |r| ==> EndsWith(r[i], "?token=" + TokenText(token))
  {
    var t := TokenText(token);
    var r := [PrimaryUrlPrefix + t, AlternateUrlPrefix + t];
    assert PrimaryUrlPrefix[|PrimaryUrlPrefix| - 7..] == "?token=";
    assert AlternateUrlPrefix[|AlternateUrlPrefix| - 7..] == "?token=";
    assert r[0][|r[0]| - |"?token=" + t|..] == PrimaryUrlPrefix[|PrimaryUrlPrefix| - 7..] + t;
    assert r[1][|r[1]| - |"?token=" + t|..] == AlternateUrlPrefix[|AlternateUrlPrefix| - 7..] + t;
    r
  }

  // ---------------------------------------------------------------------------
  // Send routing

  datatype SendOutcome = SentOverSocket | SentOverHttp | NotConnected(stateName: string)

  /** `stateNames[readyState || 3] || 'UNKNOWN'`: both "no socket" and
      CONNECTING (readyState 0, which is falsy) are named CLOSED. */
  function StateName(ws: Option<ReadyState>): (name: string)
    ensures name != "CONNECTING"
    ensures ws.None? || ws == Some(Connecting) || ws == Some(Closed) <==> name == "CLOSED"
    ensures ws == Some(Open) <==> name == "OPEN"
    ensures ws == Some(Closing) <==> name == "CLOSING"
  {
    var code := if ws.None? || ReadyStateCode(ws.value) == 0 then 3 else ReadyStateCode(ws.value);
    ["CONNECTING", "OPEN", "CLOSING", "CLOSED"][code]
  }

  /** sendMessage: the socket when it is OPEN, else HTTP once the socket has
      been declared unavailable, else an error naming the state. */
  function SendRoute(ws: Option<ReadyState>, wsAvailable: bool): (o: SendOutcome)
    ensures o == SentOverSocket <==> ws == Some(Open)
    ensures o == SentOverHttp <==> ws != Some(Open) && !wsAvailable
    ensures o.NotConnected? <==> ws != Some(Open) && wsAvailable
    ensures o.NotConnected? ==> o.stateName == StateName(ws)
  {
    if ws == Some(Open) then SentOverSocket
    else if !wsAvailable then SentOverHttp
    else NotConnected(StateName(ws))
  }

  // ---------------------------------------------------------------------------
  // The manager's fields as a value, and its transitions

  datatype Manager = Manager(
    ws: Option<ReadyState>,
    reconnectAttempts: nat,
    hasMessageHandler: bool,
    groupId: Option<int>,
    token: Option<string>,
    shouldReconnect: bool,
    connectingPromise: Option<nat>,
    promises: seq<PromiseState>,
    wsUrlCandidates: seq<string>,
    wsUrlIndex: nat,
    isWebSocketAvailable: bool,
    polling: bool,
    pendingRetries: nat,
    pendingReconnects: nat,
    socketsCreated: nat,
    sentOverSocket: seq<Outbound>,
    sentOverHttp: seq<Outbound>)

  /** A freshly constructed manager. */
  function Initial(): Manager
  {
    Manager(None, 0, false, None, None, true, None, [], [], 0, true, false, 0, 0, 0, [], [])
  }

  /** The invariant every reachable manager keeps: at most five reconnect
      attempts, and the promise the callbacks point at exists and has not been
      resolved. It may already be rejected: a connect without a token throws
      inside the promise's executor, yet still becomes the current promise. */
  ghost predicate Inv(m: Manager)
  {
    && m.reconnectAttempts <= MaxReconnectAttempts
    && (m.connectingPromise.Some? ==>
          m.connectingPromise.value < |m.promises| && m.promises[m.connectingPromise.value] != Resolved)
  }

  /** Calling resolve or reject: only a pending promise changes state. */
  function Settle(ps: seq<PromiseState>, p: Option<nat>, s: PromiseState): (r: seq<PromiseState>)
    ensures |r| == |ps|
    ensures forall k :: 0 <= k < |ps| && (p.None? || k != p.value) ==> r[k] == ps[k]
    ensures p.Some? && p.value < |ps| && ps[p.value] == Pending ==> r[p.value] == s
    ensures p.Some? && p.value < |ps| && ps[p.value] != Pending ==> r == ps
  {
    if p.Some? && p.value < |ps| && ps[p.value] == Pending then ps[p.value := s] else ps
  }

  /** Settle the current connect promise, then cleanupConnectingPromise. */
  function FinishConnecting(m: Manager, s: PromiseState): (r: Manager)
    ensures r.connectingPromise.None?
    ensures r == m.(promises := Settle(m.promises, m.connectingPromise, s), connectingPromise := None)
  {
    m.(promises := Settle(m.promises, m.connectingPromise, s), connectingPromise := None)
  }

  /** startPolling: starts the interval unless one is already running. */
  function StartPolling(m: Manager): (r: Manager)
    ensures r.polling && r.(polling := m.polling) == m
  {
    if m.polling then m else m.(polling := true)
  }

  /** stopPolling: clears the interval (no code path calls it). */
  function StopPolling(m: Manager): (r: Manager)
    ensures !r.polling && r.(polling := m.polling) == m
  {
    m.(polling := false)
  }

  /** tryConnect. `refused` says whether `new WebSocket(url)` throws; it always
      throws when the index is past the candidates (the URL is undefined). */
  function TryConnect(m: Manager, refused: bool): (r: Manager)
    ensures !m.shouldReconnect ==> r == m
    ensures r.pendingRetries > m.pendingRetries ==> r.wsUrlIndex < |r.wsUrlCandidates|
    ensures r.socketsCreated > m.socketsCreated ==>
              m.shouldReconnect && !refused && m.wsUrlIndex < |m.wsUrlCandidates| && r.ws == Some(Connecting)
    ensures r.connectingPromise != m.connectingPromise ==>
              r.connectingPromise.None? && r.promises == Settle(m.promises, m.connectingPromise, Rejected)
    ensures |r.promises| == |m.promises|
    ensures r.isWebSocketAvailable == m.isWebSocketAvailable && r.polling == m.polling
    // the three outcomes once reconnection is on
    ensures m.shouldReconnect && m.wsUrlIndex < |m.wsUrlCandidates| && !refused ==>
              r == m.(ws := Some(Connecting), socketsCreated := m.socketsCreated + 1)
    ensures m.shouldReconnect && (refused || m.wsUrlIndex >= |m.wsUrlCandidates|)
            && m.wsUrlIndex + 1 < |m.wsUrlCandidates| ==>
              r == m.(wsUrlIndex := m.wsUrlIndex + 1, pendingRetries := m.pendingRetries + 1)
    ensures m.shouldReconnect && (refused || m.wsUrlIndex >= |m.wsUrlCandidates|)
            && m.wsUrlIndex + 1 >= |m.wsUrlCandidates| ==>
              r == FinishConnecting(m, Rejected)
  {
    if !m.shouldReconnect then m
    else if m.wsUrlIndex < |m.wsUrlCandidates| && !refused then
      m.(ws := Some(Connecting), socketsCreated := m.socketsCreated + 1)
    else if m.wsUrlIndex < |m.wsUrlCandidates| - 1 then
      m.(wsUrlIndex := m.wsUrlIndex + 1, pendingRetries := m.pendingRetries + 1)
    else FinishConnecting(m, Rejected)
  }

  /** What connect does first, whatever the socket's state: remember the
      target, re-enable reconnection and restart at the primary URL. */
  function Retarget(m: Manager, groupId: Option<int>, token: Option<string>): (r: Manager)
    ensures r.groupId == groupId && r.token == token && r.shouldReconnect
    ensures r.wsUrlCandidates == Candidates(token) && r.wsUrlIndex == 0
    ensures r.(groupId := m.groupId, token := m.token, shouldReconnect := m.shouldReconnect,
               wsUrlCandidates := m.wsUrlCandidates, wsUrlIndex := m.wsUrlIndex) == m
  {
    m.(groupId := groupId, token := token, shouldReconnect := true,
       wsUrlCandidates := Candidates(token), wsUrlIndex := 0)
  }

  /** connect(groupId, token): returns the new state and the id of the promise
      handed to the caller. */
  function ConnectStep(m: Manager, groupId: Option<int>, token: Option<string>, refused: bool): (r: (Manager, nat))
    ensures r.0.groupId == groupId && r.0.token == token && r.0.shouldReconnect
    ensures r.0.wsUrlCandidates == Candidates(token)
    ensures Inv(m) ==> r.1 < |r.0.promises|
    ensures |r.0.promises| >= |m.promises|
    ensures r.0.isWebSocketAvailable == m.isWebSocketAvailable && r.0.polling == m.polling
    ensures r.0.reconnectAttempts == m.reconnectAttempts
    // the handler, scheduled reconnects, availability and what was sent are kept
    ensures r.0.(groupId := m.groupId, token := m.token, shouldReconnect := m.shouldReconnect,
                 wsUrlCandidates := m.wsUrlCandidates, wsUrlIndex := m.wsUrlIndex, promises := m.promises,
                 connectingPromise := m.connectingPromise, ws := m.ws, socketsCreated := m.socketsCreated,
                 pendingRetries := m.pendingRetries) == m
    // an open socket: an already resolved promise, nothing else happens
    ensures m.ws == Some(Open) ==>
              r.1 == |m.promises| && r.0.promises == m.promises + [Resolved] && r.0.ws == m.ws
              && r.0.wsUrlIndex == 0 && r.0.socketsCreated == m.socketsCreated
              && r.0.connectingPromise == m.connectingPromise && r.0.pendingRetries == m.pendingRetries
    // an attempt in flight: the very same promise, and no new socket
    ensures m.ws == Some(Connecting) && m.connectingPromise.Some? ==>
              r.1 == m.connectingPromise.value && r.0.promises == m.promises && r.0.ws == m.ws
              && r.0.wsUrlIndex == 0 && r.0.socketsCreated == m.socketsCreated
              && r.0.connectingPromise == m.connectingPromise && r.0.pendingRetries == m.pendingRetries
    // otherwise, without a token: tryConnect throws at token.substring before
    // any socket is made, so the new promise is rejected and stays current
    ensures m.ws != Some(Open) && !(m.ws == Some(Connecting) && m.connectingPromise.Some?) && token.None? ==>
              r.1 == |m.promises| && r.0.promises == m.promises + [Rejected]
              && r.0.connectingPromise == Some(r.1) && r.0.ws == m.ws
              && r.0.wsUrlIndex == 0 && r.0.socketsCreated == m.socketsCreated
              && r.0.pendingRetries == m.pendingRetries
    // otherwise: a new pending promise and a first attempt at the primary URL
    ensures m.ws != Some(Open) && !(m.ws == Some(Connecting) && m.connectingPromise.Some?) && token.Some? ==>
              r.1 == |m.promises| && r.0.promises == m.promises + [Pending]
              && r.0.connectingPromise == Some(r.1)
              && (refused ==> r.0.wsUrlIndex == 1 && r.0.pendingRetries == m.pendingRetries + 1
                              && r.0.ws == m.ws && r.0.socketsCreated == m.socketsCreated)
              && (!refused ==> r.0.wsUrlIndex == 0 && r.0.ws == Some(Connecting)
                               && r.0.socketsCreated == m.socketsCreated + 1)
  {
    var reset := Retarget(m, groupId, token);
    if m.ws == Some(Open) then
      (reset.(promises := m.promises + [Resolved]), |m.promises|)
    else if m.ws == Some(Connecting) && m.connectingPromise.Some? then
      (reset, m.connectingPromise.value)
    else if token.None? then
      var p := |m.promises|;
      (reset.(promises := m.promises + [Rejected], connectingPromise := Some(p)), p)
    else
      var p := |m.promises|;
      (TryConnect(reset.(promises := m.promises + [Pending], connectingPromise := Some(p)), refused), p)
  }

  /** onopen. */
  function OpenStep(m: Manager): (r: Manager)
    ensures r.ws == Some(Open) && r.reconnectAttempts == 0 && r.connectingPromise.None?
    ensures r.promises == Settle(m.promises, m.connectingPromise, Resolved)
    ensures r.(ws := m.ws, reconnectAttempts := m.reconnectAttempts, connectingPromise := m.connectingPromise,
               promises := m.promises) == m
  {
    FinishConnecting(m.(ws := Some(Open), reconnectAttempts := 0), Resolved)
  }

  /** onerror: only an error while CONNECTING moves on to the next URL. */
  function ErrorStep(m: Manager): (r: Manager)
    ensures m.ws != Some(Connecting) ==> r == m
    ensures m.ws == Some(Connecting) ==>
              r.wsUrlIndex == m.wsUrlIndex + 1
              && r.pendingRetries == m.pendingRetries + (if r.wsUrlIndex < |m.wsUrlCandidates| then 1 else 0)
              && r.(wsUrlIndex := m.wsUrlIndex, pendingRetries := m.pendingRetries) == m
  {
    if m.ws == Some(Connecting) then
      var i := m.wsUrlIndex + 1;
      m.(wsUrlIndex := i, pendingRetries := m.pendingRetries + (if i < |m.wsUrlCandidates| then 1 else 0))
    else m
  }

  /** handleReconnect: schedule one more connect, at most five in a row. */
  function ReconnectStep(m: Manager): (r: Manager)
    ensures m.reconnectAttempts <= MaxReconnectAttempts ==> r.reconnectAttempts <= MaxReconnectAttempts
    ensures r.reconnectAttempts > m.reconnectAttempts <==>
              m.reconnectAttempts < MaxReconnectAttempts && IntTruthy(m.groupId) && TextTruthy(m.token)
    ensures r.reconnectAttempts > m.reconnectAttempts ==>
              r == m.(reconnectAttempts := m.reconnectAttempts + 1, pendingReconnects := m.pendingReconnects + 1)
    ensures r.reconnectAttempts == m.reconnectAttempts ==> r == m
  {
    if m.reconnectAttempts < MaxReconnectAttempts && IntTruthy(m.groupId) && TextTruthy(m.token) then
      m.(reconnectAttempts := m.reconnectAttempts + 1, pendingReconnects := m.pendingReconnects + 1)
    else m
  }

  /** The part of onclose that deals with a connect still in flight. */
  function CloseWhileConnecting(m: Manager): (r: Manager)
    ensures m.connectingPromise.None? ==> r == m
    // another candidate remains: advance to it
    ensures m.connectingPromise.Some? && m.wsUrlIndex + 1 < |m.wsUrlCandidates| ==>
              r == m.(wsUrlIndex := m.wsUrlIndex + 1, pendingRetries := m.pendingRetries + 1)
    // the last candidate: fall back to polling and RESOLVE the promise
    ensures m.connectingPromise.Some? && m.wsUrlIndex + 1 >= |m.wsUrlCandidates| ==>
              r == m.(isWebSocketAvailable := false, polling := true, connectingPromise := None,
                      promises := Settle(m.promises, m.connectingPromise, Resolved))
  {
    if m.connectingPromise.None? then m
    else if m.wsUrlIndex < |m.wsUrlCandidates| - 1 then
      m.(wsUrlIndex := m.wsUrlIndex + 1, pendingRetries := m.pendingRetries + 1)
    else
      FinishConnecting(StartPolling(m.(isWebSocketAvailable := false)), Resolved)
  }

  /** onclose with the given close code. The closed socket is the current one,
      or one the manager already dropped (then ws stays None). */
  function CloseStep(m: Manager, code: int): (r: Manager)
    ensures r.ws == (if m.ws.Some? then Some(Closed) else None)
    // the in-flight part first, then handleReconnect unless reconnection is
    // off or the close was normal
    ensures var closed := CloseWhileConnecting(m.(ws := if m.ws.Some? then Some(Closed) else None));
      && (m.shouldReconnect && code != NormalClosure ==> r == ReconnectStep(closed))
      && (!(m.shouldReconnect && code != NormalClosure) ==> r == closed)
    ensures !(m.shouldReconnect && code != NormalClosure) ==>
              r.reconnectAttempts == m.reconnectAttempts && r.pendingReconnects == m.pendingReconnects
  {
    var closed := CloseWhileConnecting(m.(ws := if m.ws.Some? then Some(Closed) else None));
    if closed.shouldReconnect && code != NormalClosure then ReconnectStep(closed) else closed
  }

  /** The 5-second establishment timeout: closes a socket still CONNECTING. */
  function EstablishTimeoutStep(m: Manager): (r: Manager)
    ensures m.ws == Some(Connecting) ==> r == m.(ws := Some(Closing))
    ensures m.ws != Some(Connecting) ==> r == m
  {
    if m.ws == Some(Connecting) then m.(ws := Some(Closing)) else m
  }

  /** A scheduled tryConnect fires. The closure carries the token of the
      connect that scheduled it, which was a string, so it never throws. */
  function RetryTimerStep(m: Manager, refused: bool): (r: Manager)
    requires m.pendingRetries > 0
    ensures !m.shouldReconnect ==> r == m.(pendingRetries := m.pendingRetries - 1)
    ensures r.socketsCreated > m.socketsCreated ==>
              m.shouldReconnect && !refused && m.wsUrlIndex < |m.wsUrlCandidates|
              && r == m.(pendingRetries := m.pendingRetries - 1, ws := Some(Connecting),
                         socketsCreated := m.socketsCreated + 1)
    ensures r.pendingRetries >= m.pendingRetries ==> r.wsUrlIndex < |r.wsUrlCandidates|
    ensures |r.promises| == |m.promises|
    // the three outcomes of tryConnect once reconnection is on
    ensures var fired := m.(pendingRetries := m.pendingRetries - 1);
      && (m.shouldReconnect && m.wsUrlIndex < |m.wsUrlCandidates| && !refused ==>
            r == fired.(ws := Some(Connecting), socketsCreated := m.socketsCreated + 1))
      && (m.shouldReconnect && (refused || m.wsUrlIndex >= |m.wsUrlCandidates|)
          && m.wsUrlIndex + 1 < |m.wsUrlCandidates| ==>
            r == fired.(wsUrlIndex := m.wsUrlIndex + 1, pendingRetries := m.pendingRetries))
      && (m.shouldReconnect && (refused || m.wsUrlIndex >= |m.wsUrlCandidates|)
          && m.wsUrlIndex + 1 >= |m.wsUrlCandidates| ==>
            r == FinishConnecting(fired, Rejected))
  {
    TryConnect(m.(pendingRetries := m.pendingRetries - 1), refused)
  }

  /** A scheduled reconnect fires: connect(this.groupId!, this.token!) with
      whatever the fields hold by then; a rejection is only logged. */
  function ReconnectTimerStep(m: Manager, refused: bool): (r: Manager)
    requires m.pendingReconnects > 0
    ensures r.groupId == m.groupId && r.token == m.token && r.shouldReconnect
    ensures r.pendingReconnects == m.pendingReconnects - 1
    ensures r.wsUrlCandidates == Candidates(m.token)
    // the handler, the attempt counter, polling, availability and what was
    // sent are kept
    ensures var fired := m.(pendingReconnects := m.pendingReconnects - 1);
      r.(shouldReconnect := fired.shouldReconnect, wsUrlCandidates := fired.wsUrlCandidates,
         wsUrlIndex := fired.wsUrlIndex, promises := fired.promises, connectingPromise := fired.connectingPromise,
         ws := fired.ws, socketsCreated := fired.socketsCreated, pendingRetries := fired.pendingRetries) == fired
    // after disconnect the fields are null: no socket, and a rejected promise
    ensures m.token.None? && m.ws != Some(Open) && !(m.ws == Some(Connecting) && m.connectingPromise.Some?) ==>
              r.promises == m.promises + [Rejected] && r.connectingPromise == Some(|m.promises|)
              && r.ws == m.ws && r.socketsCreated == m.socketsCreated && r.pendingRetries == m.pendingRetries
    // with a token still set: a fresh pending promise and a first attempt at
    // the primary URL, or a retry at the alternate one when creation throws
    ensures m.token.Some? && m.ws != Some(Open) && !(m.ws == Some(Connecting) && m.connectingPromise.Some?) ==>
              && r.promises == m.promises + [Pending] && r.connectingPromise == Some(|m.promises|)
              && (!refused ==> r.ws == Some(Connecting) && r.socketsCreated == m.socketsCreated + 1
                               && r.wsUrlIndex == 0 && r.pendingRetries == m.pendingRetries)
              && (refused ==> r.ws == m.ws && r.socketsCreated == m.socketsCreated
                              && r.wsUrlIndex == 1 && r.pendingRetries == m.pendingRetries + 1)
    // an OPEN socket: an already resolved promise is handed out, nothing else
    ensures m.ws == Some(Open) ==>
              r.promises == m.promises + [Resolved] && r.ws == m.ws && r.socketsCreated == m.socketsCreated
              && r.connectingPromise == m.connectingPromise && r.pendingRetries == m.pendingRetries
              && r.wsUrlIndex == 0
    // an attempt in flight: its promise is shared, nothing is added
    ensures m.ws == Some(Connecting) && m.connectingPromise.Some? ==>
              r.promises == m.promises && r.ws == m.ws && r.socketsCreated == m.socketsCreated
              && r.connectingPromise == m.connectingPromise && r.pendingRetries == m.pendingRetries
              && r.wsUrlIndex == 0
  {
    var fired := m.(pendingReconnects := m.pendingReconnects - 1);
    ConnectStep(fired, fired.groupId, fired.token, refused).0
  }

  /** disconnect(). */
  function DisconnectStep(m: Manager): (r: Manager)
    ensures !r.shouldReconnect && !r.hasMessageHandler && r.groupId.None? && r.token.None? && r.ws.None?
    // a pending connect is rejected only when the socket is CONNECTING
    ensures m.ws == Some(Connecting) ==>
              r.connectingPromise.None? && r.promises == Settle(m.promises, m.connectingPromise, Rejected)
    ensures m.ws != Some(Connecting) ==>
              r.connectingPromise == m.connectingPromise && r.promises == m.promises
    // polling, the availability flag and scheduled timers are left alone
    ensures r.polling == m.polling && r.isWebSocketAvailable == m.isWebSocketAvailable
    ensures r.pendingRetries == m.pendingRetries && r.pendingReconnects == m.pendingReconnects
    ensures r.reconnectAttempts == m.reconnectAttempts
    // nothing else is touched: candidates, index, sockets made and what was sent
    ensures r.(shouldReconnect := m.shouldReconnect, hasMessageHandler := m.hasMessageHandler,
               groupId := m.groupId, token := m.token, ws := m.ws,
               connectingPromise := m.connectingPromise, promises := m.promises) == m
  {
    var cleared := m.(shouldReconnect := false, hasMessageHandler := false, groupId := None, token := None);
    var settled := if m.ws == Some(Connecting) then FinishConnecting(cleared, Rejected) else cleared;
    settled.(ws := None)
  }

  /** sendMessage(payload): the new state and what became of the payload. */
  function SendStep(m: Manager, payload: Outbound): (r: (Manager, SendOutcome))
    ensures r.1 == SendRoute(m.ws, m.isWebSocketAvailable)
    ensures r.1 == SentOverSocket ==> r.0 == m.(sentOverSocket := m.sentOverSocket + [payload])
    ensures r.1 == SentOverHttp ==> r.0 == m.(sentOverHttp := m.sentOverHttp + [payload])
    ensures r.1.NotConnected? ==> r.0 == m
  {
    var o := SendRoute(m.ws, m.isWebSocketAvailable);
    if o == SentOverSocket then (m.(sentOverSocket := m.sentOverSocket + [payload]), o)
    else if o == SentOverHttp then (m.(sentOverHttp := m.sentOverHttp + [payload]), o)
    else (m, o)
  }

  /** onmessage: a decoded frame reaches the handler if one is set; a frame
      that failed to decode is dropped. The fields never change. */
  function Deliver(m: Manager, decoded: Option<Frame>): (r: Option<Frame>)
    ensures r.Some? <==> decoded.Some? && m.hasMessageHandler
    ensures r.Some? ==> r == decoded
  {
    if decoded.Some? && m.hasMessageHandler then decoded else None
  }

  // ---------------------------------------------------------------------------
  // Traces

  /** Everything that can happen to a manager: calls from its users, socket
      callbacks and timers firing. */
  datatype Event =
    | ConnectCall(groupId: Option<int>, token: Option<string>, refused: bool)
    | SocketOpened
    | SocketErrored
    | SocketClosed(code: int)
    | EstablishTimeout
    | RetryTimer(refused: bool)
    | ReconnectTimer(refused: bool)
    | DisconnectCall
    | SendCall(payload: Outbound)
    | HandlerSet

  /** Whether the event can happen in this state: a socket opens only while
      CONNECTING, and a timer fires only if one is scheduled. */
  predicate Enabled(m: Manager, e: Event)
  {
    match e
    case SocketOpened => m.ws == Some(Connecting)
    case RetryTimer(_) => m.pendingRetries > 0
    case ReconnectTimer(_) => m.pendingReconnects > 0
    case _ => true
  }

  function Step(m: Manager, e: Event): Manager
    requires Enabled(m, e)
  {
    match e
    case ConnectCall(g, t, refused) => ConnectStep(m, g, t, refused).0
    case SocketOpened => OpenStep(m)
    case SocketErrored => ErrorStep(m)
    case SocketClosed(code) => CloseStep(m, code)
    case EstablishTimeout => EstablishTimeoutStep(m)
    case RetryTimer(refused) => RetryTimerStep(m, refused)
    case ReconnectTimer(refused) => ReconnectTimerStep(m, refused)
    case DisconnectCall => DisconnectStep(m)
    case SendCall(payload) => SendStep(m, payload).0
    case HandlerSet => m.(hasMessageHandler := true)
  }

  lemma ConnectKeepsInv(m: Manager, groupId: Option<int>, token: Option<string>, refused: bool)
    requires Inv(m)
    ensures Inv(ConnectStep(m, groupId, token, refused).0)
  {
  }

  lemma CloseWhileConnectingKeepsInv(m: Manager)
    requires Inv(m)
    ensures Inv(CloseWhileConnecting(m))
  {
  }

  lemma CloseKeepsInv(m: Manager, code: int)
    requires Inv(m)
    ensures Inv(CloseStep(m, code))
  {
    CloseWhileConnectingKeepsInv(m.(ws := if m.ws.Some? then Some(Closed) else None));
  }

  /** Every transition keeps the invariant. */
  lemma StepKeepsInv(m: Manager, e: Event)
    requires Inv(m) && Enabled(m, e)
    ensures Inv(Step(m, e))
  {
    match e
    case ConnectCall(g, t, refused) => ConnectKeepsInv(m, g, t, refused);
    case SocketClosed(code) => CloseKeepsInv(m, code);
    case ReconnectTimer(refused) =>
      var fired := m.(pendingReconnects := m.pendingReconnects - 1);
      ConnectKeepsInv(fired, fired.groupId, fired.token, refused);
    case _ =>
  }

  /** Every transition keeps the promises handed out so far, and settles a
      promise at most once: a settled promise never changes again. */
  lemma StepSettlesOnce(m: Manager, e: Event, k: nat)
    requires Inv(m) && Enabled(m, e) && k < |m.promises|
    ensures |Step(m, e).promises| >= |m.promises|
    ensures m.promises[k] != Pending ==> Step(m, e).promises[k] == m.promises[k]
  {
    match e
    case SocketClosed(code) =>
      var closed := CloseWhileConnecting(m.(ws := if m.ws.Some? then Some(Closed) else None));
      assert |closed.promises| == |m.promises|;
    case _ =>
  }

  /** A retry is scheduled only while the index still names a candidate. */
  lemma StepSchedulesRetryInRange(m: Manager, e: Event)
    requires Enabled(m, e)
    ensures var r := Step(m, e);
      r.pendingRetries > m.pendingRetries ==> r.wsUrlIndex < |r.wsUrlCandidates|
  {
    match e
    case SocketClosed(code) =>
      var closed := CloseWhileConnecting(m.(ws := if m.ws.Some? then Some(Closed) else None));
      assert closed.pendingRetries > m.pendingRetries ==> closed.wsUrlIndex < |closed.wsUrlCandidates|;
    case _ =>
  }

  /** Once the manager has fallen back to HTTP it stays there: no event sets
      the availability flag again or stops polling. */
  lemma StepKeepsFallback(m: Manager, e: Event)
    requires Enabled(m, e) && !m.isWebSocketAvailable && m.polling
    ensures !Step(m, e).isWebSocketAvailable && Step(m, e).polling
  {
  }

  /** Only disconnect removes the message handler, and only setMessageHandler
      installs one: a handler set on mount survives every reconnect. */
  lemma StepKeepsHandler(m: Manager, e: Event)
    requires Enabled(m, e) && !e.DisconnectCall?
    ensures e.HandlerSet? ==> Step(m, e).hasMessageHandler
    ensures !e.HandlerSet? ==> Step(m, e).hasMessageHandler == m.hasMessageHandler
  {
    match e
    case SocketClosed(code) =>
      var closed := CloseWhileConnecting(m.(ws := if m.ws.Some? then Some(Closed) else None));
      assert closed.hasMessageHandler == m.hasMessageHandler;
    case _ =>
  }

  /** A run of events, each enabled in the state it meets. */
  ghost predicate Runs(m: Manager, events: seq<Event>)
    decreases |events|
  {
    events == [] || (Enabled(m, events[0]) && Runs(Step(m, events[0]), events[1..]))
  }

  function Run(m: Manager, events: seq<Event>): Manager
    requires Runs(m, events)
    decreases |events|
  {
    if events == [] then m else Run(Step(m, events[0]), events[1..])
  }

  /** From a fresh manager, whatever happens, reconnect attempts never exceed
      five and the promise the callbacks point at exists and has not been
      resolved. */
  lemma {:induction false} RunKeepsInv(m: Manager, events: seq<Event>)
    requires Inv(m) && Runs(m, events)
    ensures Inv(Run(m, events))
    decreases |events|
  {
    if events != [] {
      StepKeepsInv(m, events[0]);
      RunKeepsInv(Step(m, events[0]), events[1..]);
    }
  }

  lemma InitialRunsBounded(events: seq<Event>)
    requires Runs(Initial(), events)
    ensures Run(Initial(), events).reconnectAttempts <= MaxReconnectAttempts
  {
    RunKeepsInv(Initial(), events);
  }

  // ---------------------------------------------------------------------------
  // Scenarios

  /** Two overlapping connects while the first socket is still CONNECTING share
      one promise and one socket. */
  lemma OverlappingConnectsShareOneAttempt(g: int, t: string)
    ensures var (m1, p1) := ConnectStep(Initial(), Some(g), Some(t), false);
      var (m2, p2) := ConnectStep(m1, Some(g), Some(t), false);
      p1 == p2 && m2.socketsCreated == 1 && m2.promises == [Pending]
  {
  }

  /** With no reachable candidate the connect promise still resolves, the
      manager falls back to polling, and a send goes over HTTP. */
  lemma NoReachableCandidateFallsBackToHttp(g: int, t: string, payload: Outbound)
    requires g != 0 && t != ""
    ensures var (m1, p) := ConnectStep(Initial(), Some(g), Some(t), false);
      var m2 := CloseStep(m1, 1006);
      m2.pendingRetries == 1 &&
      var m3 := CloseStep(RetryTimerStep(m2, false), 1006);
      && m3.promises[p] == Resolved && !m3.isWebSocketAvailable && m3.polling
      && SendStep(m3, payload).1 == SentOverHttp
      && SendStep(m3, payload).0.sentOverHttp == [payload]
      && m3.reconnectAttempts == 2 && m3.pendingReconnects == 2
  {
    var (m1, p) := ConnectStep(Initial(), Some(g), Some(t), false);
    var m2 := CloseStep(m1, 1006);
    assert m2.wsUrlIndex == 1 && m2.connectingPromise == Some(p);
    var m3 := CloseStep(RetryTimerStep(m2, false), 1006);
    assert m3.promises[p] == Resolved;
  }

  /** Disconnecting while the first socket is still CONNECTING rejects the
      connect promise, and the close event of the dropped socket, whatever
      its code, schedules neither a retry nor a reconnect. */
  lemma DisconnectWhileConnectingRejects(g: int, t: string, code: int)
    ensures var (m1, p) := ConnectStep(Initial(), Some(g), Some(t), false);
      var m2 := DisconnectStep(m1);
      && m2.promises[p] == Rejected
      && CloseStep(m2, code).pendingRetries == 0
      && CloseStep(m2, code).pendingReconnects == 0
  {
  }

  /** Disconnecting in the delay between two candidates (the first socket has
      already closed) neither rejects nor resolves the connect promise, and a
      reconnect scheduled by that close still fires afterwards: it calls
      connect(null, null), which re-enables reconnection but throws before
      creating a socket, so its own promise is rejected and becomes the
      current one while the first promise stays pending for good. */
  lemma DisconnectInRetryDelay(g: int, t: string)
    requires g != 0 && t != ""
    ensures var (m1, p) := ConnectStep(Initial(), Some(g), Some(t), false);
      var m2 := DisconnectStep(CloseStep(m1, 1006));
      && m2.promises[p] == Pending && m2.connectingPromise == Some(p)
      && !m2.shouldReconnect && m2.ws.None?
      && m2.pendingReconnects == 1
      && RetryTimerStep(m2, false) == m2.(pendingRetries := 0)
      && var m3 := ReconnectTimerStep(m2, false);
      && m3.shouldReconnect && m3.ws.None? && m3.socketsCreated == m2.socketsCreated
      && m3.promises == m2.promises + [Rejected] && m3.connectingPromise == Some(|m2.promises|)
      && m3.promises[p] == Pending
  {
    var (m1, p) := ConnectStep(Initial(), Some(g), Some(t), false);
    var m2 := DisconnectStep(CloseStep(m1, 1006));
    assert m2.promises[p] == Pending;
  }

  // ---------------------------------------------------------------------------
  // The manager object

  class ConnectionManager {
    var ws: Option<ReadyState>
    var reconnectAttempts: nat
    var hasMessageHandler: bool
    var groupId: Option<int>
    var token: Option<string>
    var shouldReconnect: bool
    var connectingPromise: Option<nat>
    var promises: seq<PromiseState>
    var wsUrlCandidates: seq<string>
    var wsUrlIndex: nat
    var isWebSocketAvailable: bool
    var polling: bool
    var pendingRetries: nat
    var pendingReconnects: nat
    var socketsCreated: nat
    var sentOverSocket: seq<Outbound>
    var sentOverHttp: seq<Outbound>

    function Snapshot(): Manager
      reads this
    {
      Manager(ws, reconnectAttempts, hasMessageHandler, groupId, token, shouldReconnect,
              connectingPromise, promises, wsUrlCandidates, wsUrlIndex, isWebSocketAvailable,
              polling, pendingRetries, pendingReconnects, socketsCreated, sentOverSocket, sentOverHttp)
    }

    ghost predicate Valid()
      reads this
    {
      Inv(Snapshot())
    }

    constructor ()
      ensures Valid() && Snapshot() == Initial()
    {
      ws, reconnectAttempts, hasMessageHandler := None, 0, false;
      groupId, token, shouldReconnect := None, None, true;
      connectingPromise, promises := None, [];
      wsUrlCandidates, wsUrlIndex := [], 0;
      isWebSocketAvailable, polling := true, false;
      pendingRetries, pendingReconnects, socketsCreated := 0, 0, 0;
      sentOverSocket, sentOverHttp := [], [];
    }

    method CleanupConnecting(s: PromiseState)
      modifies this
      ensures Snapshot() == FinishConnecting(old(Snapshot()), s)
    {
      promises := Settle(promises, connectingPromise, s);
      connectingPromise := None;
    }

    method StartPollingIfIdle()
      modifies this
      ensures Snapshot() == StartPolling(old(Snapshot()))
    {
      if polling {
        return;
      }
      polling := true;
    }

    method StopPollingIfActive()
      modifies this
      ensures Snapshot() == StopPolling(old(Snapshot()))
    {
      polling := false;
    }

    method TryConnectNow(refused: bool)
      modifies this
      ensures Snapshot() == TryConnect(old(Snapshot()), refused)
    {
      if !shouldReconnect {
        return;
      }
      if wsUrlIndex < |wsUrlCandidates| && !refused {
        ws := Some(Connecting);
        socketsCreated := socketsCreated + 1;
        return;
      }
      if wsUrlIndex < |wsUrlCandidates| - 1 {
        wsUrlIndex := wsUrlIndex + 1;
        pendingRetries := pendingRetries + 1;
        return;
      }
      CleanupConnecting(Rejected);
    }

    method Connect(g: Option<int>, t: Option<string>, refused: bool) returns (p: nat)
      requires Valid()
      modifies this
      ensures Valid()
      ensures (Snapshot(), p) == ConnectStep(old(Snapshot()), g, t, refused)
    {
      ConnectKeepsInv(Snapshot(), g, t, refused);
      SetTarget(g, t);
      if ws == Some(Open) {
        promises := promises + [Resolved];
        p := |promises| - 1;
        return;
      }
      if ws == Some(Connecting) && connectingPromise.Some? {
        p := connectingPromise.value;
        return;
      }
      p := StartAttempt(refused);
    }

    method SetTarget(g: Option<int>, t: Option<string>)
      modifies this
      ensures Snapshot() == Retarget(old(Snapshot()), g, t)
    {
      groupId, token, shouldReconnect := g, t, true;
      wsUrlCandidates := Candidates(t);
      wsUrlIndex := 0;
    }

    /** The rest of connect when no socket is open or opening: a new promise
        whose executor runs tryConnect. Without a token tryConnect throws at
        token.substring, before any socket, and the throw rejects the promise. */
    method StartAttempt(refused: bool) returns (p: nat)
      modifies this
      ensures p == |old(promises)|
      ensures old(token).None? ==>
                Snapshot() == old(Snapshot()).(promises := old(promises) + [Rejected], connectingPromise := Some(p))
      ensures old(token).Some? ==>
                Snapshot() == TryConnect(old(Snapshot()).(promises := old(promises) + [Pending],
                                                           connectingPromise := Some(p)), refused)
    {
      p := |promises|;
      if token.None? {
        promises := promises + [Rejected];
        connectingPromise := Some(p);
        return;
      }
      promises := promises + [Pending];
      connectingPromise := Some(p);
      TryConnectNow(refused);
    }

    method OnOpen()
      requires Valid() && ws == Some(Connecting)
      modifies this
      ensures Valid()
      ensures Snapshot() == OpenStep(old(Snapshot()))
    {
      ws := Some(Open);
      reconnectAttempts := 0;
      CleanupConnecting(Resolved);
    }

    method OnError()
      requires Valid()
      modifies this
      ensures Valid()
      ensures Snapshot() == ErrorStep(old(Snapshot()))
    {
      if ws == Some(Connecting) {
        wsUrlIndex := wsUrlIndex + 1;
        if wsUrlIndex < |wsUrlCandidates| {
          pendingRetries := pendingRetries + 1;
        }
      }
    }

    method HandleReconnect()
      requires Valid()
      modifies this
      ensures Valid()
      ensures Snapshot() == ReconnectStep(old(Snapshot()))
    {
      if reconnectAttempts < MaxReconnectAttempts && IntTruthy(groupId) && TextTruthy(token) {
        reconnectAttempts := reconnectAttempts + 1;
        pendingReconnects := pendingReconnects + 1;
      }
    }

    /** The part of onclose that deals with a connect still in flight. */
    method CloseConnecting()
      modifies this
      ensures Snapshot() == CloseWhileConnecting(old(Snapshot()))
    {
      if connectingPromise.None? {
        return;
      }
      if wsUrlIndex < |wsUrlCandidates| - 1 {
        wsUrlIndex := wsUrlIndex + 1;
        pendingRetries := pendingRetries + 1;
      } else {
        isWebSocketAvailable := false;
        StartPollingIfIdle();
        CleanupConnecting(Resolved);
      }
    }

    method OnClose(code: int)
      requires Valid()
      modifies this
      ensures Valid()
      ensures Snapshot() == CloseStep(old(Snapshot()), code)
    {
      if ws.Some? {
        ws := Some(Closed);
      }
      CloseWhileConnectingKeepsInv(Snapshot());
      CloseConnecting();
      if shouldReconnect && code != NormalClosure {
        HandleReconnect();
      }
    }

    method OnEstablishTimeout()
      requires Valid()
      modifies this
      ensures Valid()
      ensures Snapshot() == EstablishTimeoutStep(old(Snapshot()))
    {
      if ws == Some(Connecting) {
        ws := Some(Closing);
      }
    }

    method OnRetryTimer(refused: bool)
      requires Valid() && pendingRetries > 0
      modifies this
      ensures Valid()
      ensures Snapshot() == RetryTimerStep(old(Snapshot()), refused)
    {
      ghost var before := Snapshot();
      pendingRetries := pendingRetries - 1;
      TryConnectNow(refused);
      StepKeepsInv(before, RetryTimer(refused));
    }

    method OnReconnectTimer(refused: bool)
      requires Valid() && pendingReconnects > 0
      modifies this
      ensures Valid()
      ensures Snapshot() == ReconnectTimerStep(old(Snapshot()), refused)
    {
      pendingReconnects := pendingReconnects - 1;
      var _ := Connect(groupId, token, refused);
    }

    method Disconnect()
      requires Valid()
      modifies this
      ensures Valid()
      ensures Snapshot() == DisconnectStep(old(Snapshot()))
    {
      shouldReconnect := false;
      hasMessageHandler := false;
      groupId, token := None, None;
      if ws == Some(Connecting) {
        CleanupConnecting(Rejected);
      }
      if ws.Some? {
        ws := None;
      }
    }

    method SendMessage(payload: Outbound) returns (o: SendOutcome)
      requires Valid()
      modifies this
      ensures Valid()
      ensures (Snapshot(), o) == SendStep(old(Snapshot()), payload)
    {
      if ws == Some(Open) {
        sentOverSocket := sentOverSocket + [payload];
        o := SentOverSocket;
      } else if !isWebSocketAvailable {
        sentOverHttp := sentOverHttp + [payload];
        o := SentOverHttp;
      } else {
        o := NotConnected(StateName(ws));
      }
    }

    method SetMessageHandler()
      modifies this
      ensures Snapshot() == old(Snapshot()).(hasMessageHandler := true)
    {
      hasMessageHandler := true;
    }

    /** onmessage: changes no field; returns the frame passed to the handler. */
    method OnMessage(decoded: Option<Frame>) returns (delivered: Option<Frame>)
      ensures delivered == Deliver(Snapshot(), decoded)
    {
      delivered := if decoded.Some? && hasMessageHandler then decoded else None;
    }

    method GetReadyState() returns (rs: Option<ReadyState>)
      ensures rs == ws
    {
      rs := ws;
    }

    method IsConnected() returns (b: bool)
      ensures b <==> ws == Some(Open)
    {
      b := ws == Some(Open);
    }
  }
}
