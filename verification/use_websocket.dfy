/** The session hook (src/hooks/useWebSocket.ts): the effect that connects the
    shared connection manager for one conversation and mirrors the outcome in
    the chat store, its cleanup, and the send and status helpers it returns.

    The effect may run several times (React remounts it); each run that got as
    far as calling connect is an `EffectRun`, holding its own `cancelled` flag
    and the id of the promise connect returned. The promise's then/catch/finally
    callbacks run later, as one step, when the environment says so. */
module UseWebSocket {
  import opened ChatTypes
  import opened WebSocketService
  import ChatSlice

  // ---------------------------------------------------------------------------
  // Pure parts

  /** sendMessage's payload: group and text always; the file fields only when
      given a non-empty string. */
  function BuildPayload(groupId: int, text: string, fileUrl: Option<string>, fileType: Option<string>): (p: Outbound)
    ensures p.ChatMessage? && p.group_id == groupId && p.text == text
    ensures p.file_url.Some? <==> TextTruthy(fileUrl)
    ensures p.file_type.Some? <==> TextTruthy(fileType)
    ensures p.file_url.Some? ==> p.file_url == fileUrl
    ensures p.file_type.Some? ==> p.file_type == fileType
  {
    ChatMessage(groupId, text,
                if TextTruthy(fileUrl) then fileUrl else None,
                if TextTruthy(fileType) then fileType else None)
  }

  /** getConnectionStatus: a label per readyState; no socket is "unknown". */
  function StatusLabel(rs: Option<ReadyState>): (text: string)
    ensures rs.None? <==> text == "Неизвестно"
  {
    match rs
    case None => "Неизвестно"
    case Some(Connecting) => "Подключение..."
    case Some(Open) => "Подключено"
    case Some(Closing) => "Закрывается..."
    case Some(Closed) => "Отключено"
  }

  /** The four readyStates have four different labels. */
  lemma StatusLabelsDistinct(a: Option<ReadyState>, b: Option<ReadyState>)
    ensures StatusLabel(a) == StatusLabel(b) <==> a == b
  {
  }

  /** What the hook's sendMessage does with a state of the manager: nothing
      (it throws) unless the socket is OPEN, else whatever the manager does. */
  function HookSendRoute(ws: Option<ReadyState>, wsAvailable: bool): (o: Option<SendOutcome>)
    ensures o.Some? <==> ws == Some(Open)
    ensures o.Some? ==> o.value == SendRoute(ws, wsAvailable)
  {
    if ws == Some(Open) then Some(SendRoute(ws, wsAvailable)) else None
  }

  /** Whatever the manager's state, a message sent through the hook goes over
      the socket or nowhere: the HTTP fallback is out of the hook's reach. */
  lemma HookNeverUsesHttp(ws: Option<ReadyState>, wsAvailable: bool)
    ensures HookSendRoute(ws, wsAvailable) != Some(SentOverHttp)
    ensures HookSendRoute(ws, wsAvailable).Some? ==> HookSendRoute(ws, wsAvailable) == Some(SentOverSocket)
  {
  }

  /** In the fallback state the manager itself would deliver over HTTP, yet the
      hook refuses to send. */
  lemma FallbackRefusedByHook(ws: Option<ReadyState>)
    requires ws != Some(Open)
    ensures SendRoute(ws, false) == SentOverHttp
    ensures HookSendRoute(ws, false).None?
  {
  }

  /** What the then/catch/finally chain of one effect run does once its
      connect promise has settled. `sendRoute` is what became of the
      set_active_chat message sent on success; a throw there falls into
      catch. */
  datatype Reaction = Reaction(
    markConnectedOnce: bool,
    sendActiveChat: bool,
    status: Option<ChatSlice.ConnectionState>,
    releaseGuard: bool)

  function ReactionTo(cancelled: bool, settled: PromiseState, sendRoute: SendOutcome): (r: Reaction)
    requires settled != Pending
    // a cancelled run does nothing at all
    ensures cancelled ==> r == Reaction(false, false, None, false)
    ensures !cancelled ==> r.releaseGuard && r.status.Some?
    ensures r.sendActiveChat <==> r.markConnectedOnce
    ensures r.markConnectedOnce <==> !cancelled && settled == Resolved
    ensures r.status == Some(ChatSlice.Connected) <==>
              !cancelled && settled == Resolved && !sendRoute.NotConnected?
    ensures r.status == Some(ChatSlice.Disconnected) <==>
              !cancelled && (settled == Rejected || sendRoute.NotConnected?)
  {
    if cancelled then Reaction(false, false, None, false)
    else if settled == Resolved then
      Reaction(true, true,
               Some(if sendRoute.NotConnected? then ChatSlice.Disconnected else ChatSlice.Connected), true)
    else
      assert settled == Rejected;
      Reaction(false, false, Some(ChatSlice.Disconnected), true)
  }

  /** A connect that ended in the polling fallback still counts as a success
      for the hook: the store is marked connected although no socket is open. */
  lemma FallbackReportedConnected(ws: Option<ReadyState>)
    requires ws != Some(Open)
    ensures ReactionTo(false, Resolved, SendRoute(ws, false)).status == Some(ChatSlice.Connected)
  {
  }

  // ---------------------------------------------------------------------------
  // The hook

  datatype EffectRun = EffectRun(groupId: int, promise: nat, cancelled: bool, settled: bool)

  class SessionHook {
    const manager: ConnectionManager
    const store: ChatSlice.ChatStore
    var isConnecting: bool
    var connectedOnce: bool
    var runs: seq<EffectRun>

    ghost predicate Valid()
      reads this, manager, store
    {
      && manager.Valid()
      && store.Valid()
      && forall k :: 0 <= k < |runs| ==> runs[k].promise < |manager.promises|
    }

    constructor (manager: ConnectionManager, store: ChatSlice.ChatStore)
      requires manager.Valid() && store.Valid()
      ensures Valid() && this.manager == manager && this.store == store
      ensures !isConnecting && !connectedOnce && runs == []
    {
      this.manager := manager;
      this.store := store;
      isConnecting, connectedOnce, runs := false, false, [];
    }

    /** The effect body for `groupId`; `token` is the access_token cookie
        (None when there is none) and `refused` whether the first socket
        cannot be created. */
    method Mount(groupId: int, token: Option<string>, refused: bool)
      requires Valid()
      modifies this, manager, store`wsConnected, store`wsConnectionState
      ensures Valid() && connectedOnce == old(connectedOnce)
      // the re-entry guard
      ensures old(isConnecting) ==>
                && isConnecting && runs == old(runs) && manager.Snapshot() == old(manager.Snapshot())
                && store.wsConnected == old(store.wsConnected)
                && store.wsConnectionState == old(store.wsConnectionState)
      // no token: disconnected, and no connect
      ensures !old(isConnecting) && !TextTruthy(token) ==>
                && !isConnecting && runs == old(runs) && manager.Snapshot() == old(manager.Snapshot())
                && !store.wsConnected && store.wsConnectionState == ChatSlice.Disconnected
      // otherwise: guard set, "connecting", connect, then the message handler
      ensures !old(isConnecting) && TextTruthy(token) ==>
                && isConnecting
                && store.wsConnectionState == ChatSlice.Connecting
                && store.wsConnected == old(store.wsConnected)
                && var (m, p) := ConnectStep(old(manager.Snapshot()), Some(groupId), token, refused);
                && manager.Snapshot() == m.(hasMessageHandler := true)
                && runs == old(runs) + [EffectRun(groupId, p, false, false)]
    {
      if isConnecting {
        return;
      }
      if !TextTruthy(token) {
        store.SetWsConnected(false);
        store.SetWsConnectionState(ChatSlice.Disconnected);
        return;
      }
      isConnecting := true;
      store.SetWsConnectionState(ChatSlice.Connecting);
      var p := manager.Connect(Some(groupId), token, refused);
      manager.SetMessageHandler();
      runs := runs + [EffectRun(groupId, p, false, false)];
    }

    /** The then/catch/finally chain of run k, once its promise has settled. */
    method OnConnectSettled(k: nat)
      requires Valid() && k < |runs| && !runs[k].settled
      requires manager.promises[runs[k].promise] != Pending
      modifies this, manager, store`wsConnected, store`wsConnectionState
      ensures Valid()
      ensures runs == old(runs)[k := old(runs[k]).(settled := true)]
      ensures var run := old(runs[k]);
        var r := ReactionTo(run.cancelled, old(manager.promises[run.promise]),
                            SendRoute(old(manager.ws), old(manager.isWebSocketAvailable)));
        && connectedOnce == (old(connectedOnce) || r.markConnectedOnce)
        && isConnecting == (old(isConnecting) && !r.releaseGuard)
        && (r.sendActiveChat ==>
              manager.Snapshot() == SendStep(old(manager.Snapshot()), SetActiveChat(run.groupId)).0)
        && (!r.sendActiveChat ==> manager.Snapshot() == old(manager.Snapshot()))
        && (r.status == Some(ChatSlice.Connected) ==>
              store.wsConnected && store.wsConnectionState == ChatSlice.Connected)
        && (r.status == Some(ChatSlice.Disconnected) ==>
              !store.wsConnected && store.wsConnectionState == ChatSlice.Disconnected)
        && (r.status.None? ==>
              store.wsConnected == old(store.wsConnected)
              && store.wsConnectionState == old(store.wsConnectionState))
    {
      var run := runs[k];
      var settled := manager.promises[run.promise];
      runs := runs[k := run.(settled := true)];
      if settled == Resolved {
        // then
        if !run.cancelled {
          connectedOnce := true;
          var o := manager.SendMessage(SetActiveChat(run.groupId));
          if o.NotConnected? {
            // the throw lands in catch
            store.SetWsConnected(false);
            store.SetWsConnectionState(ChatSlice.Disconnected);
          } else {
            store.SetWsConnected(true);
            store.SetWsConnectionState(ChatSlice.Connected);
          }
        }
      } else {
        // catch
        if !run.cancelled {
          store.SetWsConnected(false);
          store.SetWsConnectionState(ChatSlice.Disconnected);
        }
      }
      // finally
      if !run.cancelled {
        isConnecting := false;
      }
    }

    /** The cleanup of run k. */
    method Cleanup(k: nat)
      requires Valid() && k < |runs| && !runs[k].cancelled
      modifies this, manager, store`wsConnected, store`wsConnectionState
      ensures Valid()
      ensures runs == old(runs)[k := old(runs[k]).(cancelled := true)]
      ensures old(connectedOnce) ==> manager.Snapshot() == DisconnectStep(old(manager.Snapshot()))
      ensures !old(connectedOnce) ==> manager.Snapshot() == old(manager.Snapshot())
      ensures connectedOnce == old(connectedOnce) && !isConnecting
      ensures !store.wsConnected && store.wsConnectionState == ChatSlice.Disconnected
    {
      runs := runs[k := runs[k].(cancelled := true)];
      if connectedOnce {
        manager.Disconnect();
      }
      isConnecting := false;
      store.SetWsConnected(false);
      store.SetWsConnectionState(ChatSlice.Disconnected);
    }

    /** The hook's sendMessage; `sent` is false where it throws. */
    method SendMessage(groupId: int, text: string, fileUrl: Option<string>, fileType: Option<string>)
      returns (sent: bool)
      requires Valid()
      modifies manager
      ensures Valid()
      ensures sent <==> HookSendRoute(old(manager.ws), old(manager.isWebSocketAvailable)).Some?
      ensures sent ==> manager.Snapshot()
                         == SendStep(old(manager.Snapshot()), BuildPayload(groupId, text, fileUrl, fileType)).0
      ensures !sent ==> manager.Snapshot() == old(manager.Snapshot())
    {
      var connected := manager.IsConnected();
      if !connected {
        return false;
      }
      var _ := manager.SendMessage(BuildPayload(groupId, text, fileUrl, fileType));
      sent := true;
    }

    /** A frame arriving on the socket: through the manager's onmessage to the
        handler the effect installed, which dispatches it to the store. */
    method Inbound(decoded: Option<Frame>)
      requires Valid()
      modifies store`messages, store`chats, store`typingUsers, store`wsConnected, store`wsConnectionState
      ensures Valid()
      ensures Deliver(manager.Snapshot(), decoded).None? ==>
                store.messages == old(store.messages) && store.chats == old(store.chats)
                && store.typingUsers == old(store.typingUsers)
                && store.wsConnected == old(store.wsConnected)
                && store.wsConnectionState == old(store.wsConnectionState)
      ensures Deliver(manager.Snapshot(), decoded).Some? ==>
                var e := ChatSlice.EffectOf(decoded.value);
                && store.messages == ChatSlice.MessagesAfter(old(store.messages), e)
                && store.chats == ChatSlice.ChatsAfter(old(store.chats), e)
                && store.typingUsers == ChatSlice.TypingAfter(old(store.typingUsers), e)
                && (e.MarkConnected? ==> store.wsConnected && store.wsConnectionState == ChatSlice.Connected)
                && (e.MarkDisconnected? ==> !store.wsConnected && store.wsConnectionState == ChatSlice.Disconnected)
                && (!e.MarkConnected? && !e.MarkDisconnected? ==>
                      store.wsConnected == old(store.wsConnected)
                      && store.wsConnectionState == old(store.wsConnectionState))
    {
      var delivered := manager.OnMessage(decoded);
      if delivered.Some? {
        store.HandleWebSocketMessage(delivered.value);
      }
    }

    /** getConnectionStatus. */
    method GetConnectionStatus() returns (status: string)
      ensures status == StatusLabel(manager.ws)
    {
      var rs := manager.GetReadyState();
      status := StatusLabel(rs);
    }
  }
}
