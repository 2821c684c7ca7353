# Realtime chat core, modelled in Dafny

This project models the realtime chat core of a course platform's web client. It has five parts:

- **The chat store** (`chatSlice.ts`). This is the Redux slice that keeps, for each conversation:
  - its message list and history/loading flags;
  - the chat summaries and unread counters;
  - its typing indicators;
  - the mirrored connection status.

  The store also decodes inbound socket frames into store changes. Two frame shapes exist: the `event`-keyed envelope and the legacy `type`-keyed one.
- **The connection manager** (`websocket.ts`). It owns one WebSocket at a time and runs these:
  - walking the two candidate URLs;
  - coalescing overlapping `connect` calls;
  - falling back to HTTP polling when no candidate opens;
  - at most five automatic reconnects;
  - choosing how an outbound message travels.
- **The session hook** (`useWebSocket.ts`). It connects the manager for one conversation and mirrors the outcome in the store. It also builds outbound payloads and status labels.
- **The upload service's pure helpers** (`fileUpload.ts`): base-URL normalisation, file validation and the type icon.
- **The conversation view's pure helpers** (`ChatWindow.tsx`): the typing-indicator text and the member role label.

Files:

- `common.dfy`:
  - `ChatTypes`: the records of `types.d.ts` and the decoded socket frames;
  - `Strings`: `startsWith`, `endsWith`, `includes` and decimal rendering.
- `chat_slice.dfy`: `ChatSlice`. Pure list functions with their lemmas, and the class `ChatStore`, whose methods are the reducers. Each method's `modifies` frame lists the fields it may change.
- `websocket.dfy`: `WebSocketService`.
  - Every transition of the manager is first written as a pure function on a `Manager` record, so that properties over whole event traces can be proved.
  - The class `ConnectionManager` performs the same transitions on its fields. Each of its methods promises that its new `Snapshot()` is the transition of the old one.
- `use_websocket.dfy`: `UseWebSocket`. The pure payload, status and reaction functions, and the class `SessionHook`, which holds the hook's refs over one manager and one store.
- `file_upload.dfy`: `FileUpload`. `chat_window.dfy`: `ChatWindow`.

How the environment is represented:

- A socket is only its `readyState` (`None` when the manager holds none).
- Timers are counters of scheduled callbacks that the environment fires later. The two kinds are `pendingRetries` and `pendingReconnects`.
- Whether `new WebSocket(url)` throws is a `refused` parameter.
- `JSON.parse` becomes a decoded `Option<Frame>`.
- Each promise `connect` hands out gets an id; `promises[id]` is its state.
- The access-token cookie becomes a parameter.

The model follows what the code does, including where that departs from the intent its comments state (for example the "close the promise explicitly" comment in `disconnect`, `websocket.ts:253`). The scenario lemmas prove the following behaviour:

- `disconnect` rejects a pending connect only while the current socket is CONNECTING. During the 300/500 ms delay between two candidates there is no such socket. The promise then stays pending, and the hook's then/catch never runs (`WebSocketService.DisconnectInRetryDelay`).
- `disconnect` does not cancel a reconnect that is already scheduled. When that timer fires, it calls `connect(null, null)`. This sets `shouldReconnect` again. The promise executor's `tryConnect` then throws at `token.substring` before any socket is created. The throw rejects the new promise, which still becomes the current connect promise (`WebSocketService.ReconnectTimerStep`, `WebSocketService.DisconnectInRetryDelay`). The invariant therefore says only that the current promise exists and has not been resolved: it may be a rejected one.
- `disconnect` does not stop polling or restore the availability flag (`WebSocketService.StepKeepsFallback`).
- Only `addMessage` touches unread counters. An `event: "message"` frame appends the message but never counts it as unread. A `read_receipt` frame changes nothing.
- The typing indicator's 3-second timer has an empty callback, so nothing expires.
- Polling only logs what it fetches. It never feeds the store.
- A connect that ends in the polling fallback resolves its promise. The hook then reports the store as connected although no socket is open (`UseWebSocket.FallbackReportedConnected`). The hook's own `sendMessage` still refuses to send in that state (`UseWebSocket.FallbackRefusedByHook`).

## Model

| member | source | states |
|---|---|---|
| Strings.Decimal | src/appPages/site/components/pages/Chat/ChatWindow.tsx:50 | `String(n)` of a count is a non-empty run of decimal digits with no leading zero |
| Strings.DecimalRoundTrip | src/appPages/site/components/pages/Chat/ChatWindow.tsx:50 | reading the rendered digits back gives the count, so different counts render differently |
| ChatSlice.AppendTo | src/redux/slices/chatSlice.ts:95-100 | push onto a group's list: the list is created if absent, grows by exactly the new message at its end, keeps its old prefix, and no other group changes |
| ChatSlice.AppendAllInArrivalOrder | src/redux/slices/chatSlice.ts:237-245 | a series of pushes to one group leaves the old list followed by all arrivals in arrival order, with none dropped; other groups are unchanged |
| ChatSlice.FindMessage | src/redux/slices/chatSlice.ts:116 | `find` by id returns the FIRST message with that id, or -1 exactly when there is none |
| ChatSlice.FindMessageByIdsOnly | src/redux/slices/chatSlice.ts:116 | a find depends only on the ids at each position |
| ChatSlice.EditById | src/redux/slices/chatSlice.ts:114-121 | an edit keeps the list's length and order. A missing id leaves the list unchanged. Only the first match changes, and only its `text` and `edited_at` |
| ChatSlice.EditKeepsIds | src/redux/slices/chatSlice.ts:284-293 | after an edit, a find by any id lands where it did before |
| ChatSlice.EditIn | src/redux/slices/chatSlice.ts:284-293 | an edit in a conversation that has no list creates none, and other conversations are untouched |
| ChatSlice.TombstoneById | src/redux/slices/chatSlice.ts:123-130 | delete never removes an entry. Length, ids and positions are kept. A missing id leaves the list unchanged. The first match becomes deleted with text "Message deleted", and its other fields are kept |
| ChatSlice.TombstoneIdempotent | src/redux/slices/chatSlice.ts:295-304 | deleting the same message twice gives the same list as once |
| ChatSlice.TombstoneIn | src/redux/slices/chatSlice.ts:295-304 | a delete in a conversation without a list changes nothing; other conversations are untouched |
| ChatSlice.WithoutUser | src/redux/slices/chatSlice.ts:174-176 | the filter keeps exactly the entries of other users |
| ChatSlice.WithoutUserConcat | src/redux/slices/chatSlice.ts:195-197 | filtering distributes over concatenation, so relative order is kept |
| ChatSlice.WithoutAbsentUser | src/redux/slices/chatSlice.ts:195-197 | filtering out a user with no entry changes nothing |
| ChatSlice.WithoutUserKeepsOnePerUser | src/redux/slices/chatSlice.ts:192-199 | removing a user keeps a list free of duplicate users |
| ChatSlice.UpsertTyping | src/redux/slices/chatSlice.ts:174-181 | the result holds exactly the other users' old entries, plus the new entry when the user is typing; that entry is last |
| ChatSlice.UpsertTypingPresence | src/redux/slices/chatSlice.ts:167-190 | after setTypingUser, the user has an entry iff `is_typing`. That entry is the new one, at the end |
| ChatSlice.UpsertTypingKeepsOnePerUser | src/redux/slices/chatSlice.ts:306-321 | after setTypingUser or a `typing` frame there is at most one entry per user |
| ChatSlice.UpsertTypingOthersInOrder | src/redux/slices/chatSlice.ts:174-180 | other users' entries keep their relative order through an upsert |
| ChatSlice.RemoveTypingIn | src/redux/slices/chatSlice.ts:192-199 | removeTypingUser replaces the list by its filter without the user (`WithoutUser`), so the rest stay in order. A conversation without a list is left alone, and no list is created |
| ChatSlice.UpsertTypingInValid | src/redux/slices/chatSlice.ts:167-190 | an upsert keeps every conversation's typing list duplicate-free |
| ChatSlice.RemoveTypingInValid | src/redux/slices/chatSlice.ts:192-199 | a removal keeps every conversation's typing list duplicate-free |
| ChatSlice.FindChat | src/redux/slices/chatSlice.ts:103 | `findIndex` returns the first summary of the conversation, or -1 exactly when there is none |
| ChatSlice.WithLastMessage | src/redux/slices/chatSlice.ts:247-250 | only the first summary of the conversation changes, and only its `last_message` |
| ChatSlice.LastChat | src/redux/slices/chatSlice.ts:142-144 | the index of the last summary of a conversation, or -1 when there is none |
| ChatSlice.UnreadFromChats | src/redux/slices/chatSlice.ts:142-144 | after the forEach, the counters are the old ones plus one for every listed conversation, and no others |
| ChatSlice.UnreadFromChatsLastWins | src/redux/slices/chatSlice.ts:137-145 | after the forEach, a listed conversation holds the count of its last summary. Unlisted counters are kept |
| ChatSlice.EffectOf | src/redux/slices/chatSlice.ts:224-323 | event frames never reach the legacy branch. "connected" sets connected, "error" sets disconnected, and "message" appends to the message's own group. `read_receipt` and unknown events do nothing. Legacy frames never touch the connection status. A legacy frame with a falsy group (0 included) or no data does nothing, and neither does one of an unknown kind. With a truthy group and data, "message" appends, "message_edited" edits, "message_deleted" tombstones and "typing" upserts, each in that group |
| ChatSlice.EnvelopesAgreeOnMessages | src/redux/slices/chatSlice.ts:237-282 | a message has the same effect in both envelope shapes, provided the legacy envelope names the message's own non-zero group |
| ChatSlice.ChatStore.constructor | src/redux/slices/chatSlice.ts:45-61 | the initial state |
| ChatSlice.ChatStore.SetActiveGroup | src/redux/slices/chatSlice.ts:68-72 | sets the active conversation and its title, and nothing else |
| ChatSlice.ChatStore.ClearActiveGroup | src/redux/slices/chatSlice.ts:74-77 | clears both |
| ChatSlice.ChatStore.SetMessages | src/redux/slices/chatSlice.ts:80-85 | replaces the list wholesale, records `hasMore`, and clears the loading flag |
| ChatSlice.ChatStore.AddMessages | src/redux/slices/chatSlice.ts:87-93 | puts the batch, in its own order, in front of the existing list (created if absent) |
| ChatSlice.ChatStore.AddMessage | src/redux/slices/chatSlice.ts:95-112 | appends the message. The summary's last message changes only if a summary exists. The summary's count and the counter go up by one only when a summary exists and the conversation is not the active one (absent counter read as 0) |
| ChatSlice.ChatStore.UpdateMessage | src/redux/slices/chatSlice.ts:114-121 | edits through `EditIn`; touches only the message lists |
| ChatSlice.ChatStore.DeleteMessage | src/redux/slices/chatSlice.ts:123-130 | tombstones through `TombstoneIn`; touches only the message lists |
| ChatSlice.ChatStore.SetLoadingMessages | src/redux/slices/chatSlice.ts:132-134 | sets one conversation's loading flag |
| ChatSlice.ChatStore.SetChats | src/redux/slices/chatSlice.ts:137-145 | replaces the summaries and clears loading. The loop leaves the counters as the in-order forEach does, so the last summary of a conversation wins |
| ChatSlice.ChatStore.SetChatsLoading | src/redux/slices/chatSlice.ts:147-149 | sets the chats-loading flag |
| ChatSlice.ChatStore.UpdateChatUnreadCount | src/redux/slices/chatSlice.ts:151-159 | sets the counter always. The summary's count is set only when a summary exists |
| ChatSlice.ChatStore.SetGroupMembers | src/redux/slices/chatSlice.ts:162-164 | replaces one conversation's member list |
| ChatSlice.ChatStore.SetTypingUser | src/redux/slices/chatSlice.ts:167-190 | upserts the entry (the list is created even when the user is not typing) and keeps lists duplicate-free |
| ChatSlice.ChatStore.RemoveTypingUser | src/redux/slices/chatSlice.ts:192-199 | removes the user's entries and keeps lists duplicate-free |
| ChatSlice.ChatStore.SetWsConnected | src/redux/slices/chatSlice.ts:202-204 | sets the mirrored connected flag |
| ChatSlice.ChatStore.SetWsConnectionState | src/redux/slices/chatSlice.ts:206-208 | sets the mirrored connection state |
| ChatSlice.ChatStore.SetMessageInput | src/redux/slices/chatSlice.ts:211-213 | sets the draft text |
| ChatSlice.ChatStore.SetIsTyping | src/redux/slices/chatSlice.ts:215-217 | sets the local typing flag |
| ChatSlice.ChatStore.SetUploadingFile | src/redux/slices/chatSlice.ts:219-221 | sets the uploading flag |
| ChatSlice.ChatStore.HandleWebSocketMessage | src/redux/slices/chatSlice.ts:224-323 | applies the frame's effect. Only messages, summaries, typing lists and the connection mirror can change. Unread counters never change, and typing lists stay duplicate-free |
| WebSocketService.Candidates | src/services/websocket.ts:23-26 | exactly two different URLs, each ending in `?token=` followed by the token |
| WebSocketService.StateName | src/services/websocket.ts:210-211 | because a falsy readyState falls back to 3, no socket and CONNECTING are both named CLOSED, and "CONNECTING" never appears |
| WebSocketService.SendRoute | src/services/websocket.ts:191-215 | an OPEN socket sends over the socket. Otherwise, once the socket is marked unavailable, it goes over HTTP. Otherwise it is an error naming the state. The three cases are exclusive |
| WebSocketService.Settle | src/services/websocket.ts:68 | a resolve or reject changes only the current promise, and only when it is pending; an already settled promise is left as it is |
| WebSocketService.FinishConnecting | src/services/websocket.ts:158-162 | settling then cleanupConnectingPromise leaves no current promise |
| WebSocketService.StartPolling | src/services/websocket.ts:266-267 | starting polling sets only the polling flag, and starting it again changes nothing |
| WebSocketService.StopPolling | src/services/websocket.ts:291-297 | clears only the polling flag |
| WebSocketService.TryConnect | src/services/websocket.ts:41-149 | does nothing once reconnection is off. Otherwise: a socket is created iff the index names a candidate and creation does not throw; a failed creation schedules a retry iff another candidate follows, and rejects and clears the current promise on the last one |
| WebSocketService.Retarget | src/services/websocket.ts:18-27 | connect always records group and token, turns reconnection on, and restarts at index 0 of fresh candidates |
| WebSocketService.ConnectStep | src/services/websocket.ts:18-52 | OPEN: an already resolved promise, and nothing else happens. CONNECTING with a promise: that same promise, and no new socket. Otherwise, with no token: a new promise, rejected by the throw at `token.substring`, becomes current and no socket is made. Otherwise: a new pending promise and a first attempt at the primary URL. In every case the handler, attempts, scheduled reconnects, polling, availability and what was sent are kept |
| WebSocketService.OpenStep | src/services/websocket.ts:61-70 | OPEN, attempts reset to 0, the pending promise resolved, and no current promise left |
| WebSocketService.ErrorStep | src/services/websocket.ts:72-87 | only an error while CONNECTING advances the index, and a retry is scheduled only if the new index is valid |
| WebSocketService.ReconnectStep | src/services/websocket.ts:164-177 | counts an attempt and schedules a reconnect iff fewer than 5 attempts were made and group and token are truthy. Otherwise nothing changes. Never exceeds 5 |
| WebSocketService.CloseWhileConnecting | src/services/websocket.ts:106-119 | with a connect in flight: advance if another candidate remains; on the last one, mark unavailable, start polling and RESOLVE, and change nothing else |
| WebSocketService.CloseStep | src/services/websocket.ts:89-124 | the socket ends CLOSED. The in-flight part runs first (`CloseWhileConnecting`). Then `ReconnectStep` runs iff reconnection is on and the code is not 1000 (Normal Closure, section 7.4.1 of RFC 6455) |
| WebSocketService.RetryTimerStep | src/services/websocket.ts:41-149 | a scheduled tryConnect does nothing once reconnection is off. Otherwise a valid, unrefused index creates a socket; a failed creation schedules a retry at the next index when one remains, and rejects and clears the current promise on the last. No promise is added |
| WebSocketService.ReconnectTimerStep | src/services/websocket.ts:167-173 | the reconnect connects with the fields held at firing time and turns reconnection on. With no token and no socket in flight it creates no socket and adds a rejected promise as the current one; with a token it adds a pending one and creates a socket, or schedules a retry at the alternate URL when creation throws. An OPEN socket gets a resolved promise and nothing else; an attempt in flight is shared and nothing is added. The handler, attempt counter, polling, availability and what was sent are kept, and the candidates are rebuilt from the token at firing time |
| WebSocketService.EstablishTimeoutStep | src/services/websocket.ts:54-59 | the 5 s timeout closes only a socket still CONNECTING |
| WebSocketService.DisconnectStep | src/services/websocket.ts:245-263 | reconnection off; handler, group and token cleared; no socket. The pending connect is rejected only if the socket was CONNECTING. Polling, availability, scheduled timers, attempts, candidates, index, sockets made and what was sent are left alone |
| WebSocketService.SendStep | src/services/websocket.ts:191-215 | the message is recorded on the route `SendRoute` chooses, or nowhere when that is an error |
| WebSocketService.Deliver | src/services/websocket.ts:126-137 | a frame reaches the handler iff it decoded and a handler is set |
| WebSocketService.ConnectKeepsInv | src/services/websocket.ts:18-156 | connect keeps the invariant: at most 5 attempts, and the current promise exists and is not resolved (a connect without a token leaves a rejected one current) |
| WebSocketService.CloseWhileConnectingKeepsInv | src/services/websocket.ts:106-119 | the in-flight part of onclose keeps the invariant |
| WebSocketService.CloseKeepsInv | src/services/websocket.ts:89-124 | onclose keeps the invariant |
| WebSocketService.StepKeepsInv | src/services/websocket.ts:18-263 | every call, callback and timer keeps the invariant: at most 5 attempts, and the current promise exists and has not been resolved |
| WebSocketService.StepSettlesOnce | src/services/websocket.ts:68 | no step loses a promise, and a settled promise never changes again |
| WebSocketService.StepSchedulesRetryInRange | src/services/websocket.ts:80-83 | every step that schedules a tryConnect leaves the index on a real candidate (also lines 108-110 and 141-144) |
| WebSocketService.StepKeepsHandler | src/services/websocket.ts:240-249 | no event other than disconnect removes the message handler, and only setMessageHandler installs one, so the handler survives every reconnect |
| WebSocketService.StepKeepsFallback | src/services/websocket.ts:111-115 | once fallen back, no event restores the socket flag or stops polling |
| WebSocketService.RunKeepsInv | src/services/websocket.ts:18-263 | any run of events keeps the invariant, including the null-token connect fired by a reconnect timer after disconnect |
| WebSocketService.InitialRunsBounded | src/services/websocket.ts:165 | from a fresh manager, reconnect attempts never exceed 5, whatever happens |
| WebSocketService.OverlappingConnectsShareOneAttempt | src/services/websocket.ts:33-35 | two overlapping connects return the same promise and create one socket |
| WebSocketService.NoReachableCandidateFallsBackToHttp | src/services/websocket.ts:107-118 | when both candidates close before opening, the promise resolves, polling starts, and a send then goes over HTTP |
| WebSocketService.DisconnectWhileConnectingRejects | src/services/websocket.ts:253-257 | disconnect during CONNECTING rejects the promise. The close event that follows schedules nothing, whatever its code |
| WebSocketService.DisconnectInRetryDelay | src/services/websocket.ts:245-263 | disconnect between two candidates leaves the promise pending. The pending retry does nothing. The reconnect scheduled earlier turns reconnection back on, creates no socket, and hands out a rejected promise that becomes current, while the first promise stays pending |
| WebSocketService.ConnectionManager.constructor | src/services/websocket.ts:2-16 | the fresh manager, which satisfies the invariant |
| WebSocketService.ConnectionManager.CleanupConnecting | src/services/websocket.ts:158-162 | performs `FinishConnecting` |
| WebSocketService.ConnectionManager.StartPollingIfIdle | src/services/websocket.ts:266-289 | performs `StartPolling` |
| WebSocketService.ConnectionManager.StopPollingIfActive | src/services/websocket.ts:291-297 | performs `StopPolling` |
| WebSocketService.ConnectionManager.TryConnectNow | src/services/websocket.ts:41-149 | performs `TryConnect` |
| WebSocketService.ConnectionManager.SetTarget | src/services/websocket.ts:18-27 | performs `Retarget` |
| WebSocketService.ConnectionManager.StartAttempt | src/services/websocket.ts:37-152 | with no token, a new rejected promise becomes current and nothing else changes; otherwise a new pending promise becomes current, then `TryConnect` |
| WebSocketService.ConnectionManager.Connect | src/services/websocket.ts:18-156 | performs `ConnectStep`, including the null-token rejection, and returns its promise id; keeps the invariant |
| WebSocketService.ConnectionManager.OnOpen | src/services/websocket.ts:61-70 | performs `OpenStep`; keeps the invariant |
| WebSocketService.ConnectionManager.OnError | src/services/websocket.ts:72-87 | performs `ErrorStep`; keeps the invariant |
| WebSocketService.ConnectionManager.HandleReconnect | src/services/websocket.ts:164-177 | performs `ReconnectStep`; keeps the invariant |
| WebSocketService.ConnectionManager.CloseConnecting | src/services/websocket.ts:106-119 | performs `CloseWhileConnecting` |
| WebSocketService.ConnectionManager.OnClose | src/services/websocket.ts:89-124 | performs `CloseStep`; keeps the invariant |
| WebSocketService.ConnectionManager.OnEstablishTimeout | src/services/websocket.ts:54-59 | performs `EstablishTimeoutStep` |
| WebSocketService.ConnectionManager.OnRetryTimer | src/services/websocket.ts:82 | a scheduled tryConnect fires (also lines 110 and 143); keeps the invariant |
| WebSocketService.ConnectionManager.OnReconnectTimer | src/services/websocket.ts:169-173 | performs `ReconnectTimerStep`: connect with the group and token held at firing time, which after disconnect is the null-token rejection |
| WebSocketService.ConnectionManager.Disconnect | src/services/websocket.ts:245-263 | performs `DisconnectStep`; keeps the invariant |
| WebSocketService.ConnectionManager.SendMessage | src/services/websocket.ts:191-215 | performs `SendStep` and reports the route taken |
| WebSocketService.ConnectionManager.SetMessageHandler | src/services/websocket.ts:240-243 | installs the handler and changes nothing else |
| WebSocketService.ConnectionManager.OnMessage | src/services/websocket.ts:126-137 | hands the frame on as `Deliver` says, and changes no field |
| WebSocketService.ConnectionManager.GetReadyState | src/services/websocket.ts:299-301 | the current readyState, or none |
| WebSocketService.ConnectionManager.IsConnected | src/services/websocket.ts:303-305 | true iff the socket is OPEN |
| UseWebSocket.BuildPayload | src/hooks/useWebSocket.ts:99-105 | the payload always carries group and text. `file_url` and `file_type` are present iff given non-empty, and then carry the given value |
| UseWebSocket.StatusLabel | src/hooks/useWebSocket.ts:118-132 | "Неизвестно" exactly when there is no socket |
| UseWebSocket.StatusLabelsDistinct | src/hooks/useWebSocket.ts:118-132 | the five labels are pairwise different |
| UseWebSocket.HookSendRoute | src/hooks/useWebSocket.ts:95-107 | the hook hands a message to the manager iff the socket is OPEN |
| UseWebSocket.HookNeverUsesHttp | src/hooks/useWebSocket.ts:95-97 | a message sent through the hook never takes the HTTP route |
| UseWebSocket.FallbackRefusedByHook | src/hooks/useWebSocket.ts:95-97 | in the fallback state the manager would use HTTP, yet the hook refuses |
| UseWebSocket.ReactionTo | src/hooks/useWebSocket.ts:46-67 | a cancelled run does nothing. Otherwise it always releases the guard. It marks `connectedOnce` and sends set_active_chat iff resolved. It reports connected iff resolved and that send did not throw, and disconnected otherwise |
| UseWebSocket.FallbackReportedConnected | src/hooks/useWebSocket.ts:46-55 | a connect resolved by the polling fallback is reported to the store as connected |
| UseWebSocket.SessionHook.constructor | src/hooks/useWebSocket.ts:15-16 | both refs start false |
| UseWebSocket.SessionHook.Mount | src/hooks/useWebSocket.ts:18-74 | does nothing while a connect is in progress. With no token it marks the store disconnected and does not connect. Otherwise it sets the guard, shows "connecting", connects and installs the handler |
| UseWebSocket.SessionHook.OnConnectSettled | src/hooks/useWebSocket.ts:45-67 | performs `ReactionTo` on the refs, the manager and the store |
| UseWebSocket.SessionHook.Cleanup | src/hooks/useWebSocket.ts:77-90 | cancels the run. Calls disconnect only if a connect ever succeeded. Always releases the guard and marks the store disconnected |
| UseWebSocket.SessionHook.SendMessage | src/hooks/useWebSocket.ts:93-112 | refuses unless OPEN; otherwise the manager sends `BuildPayload`'s payload |
| UseWebSocket.SessionHook.Inbound | src/hooks/useWebSocket.ts:70-74 | a delivered frame is applied to the store as `EffectOf` says: messages, chats, typing lists and the connection mirror (`connected` marks it connected, `error` disconnected, other frames leave it); an undelivered one changes nothing |
| UseWebSocket.SessionHook.GetConnectionStatus | src/hooks/useWebSocket.ts:118-132 | the label of the manager's current readyState |
| FileUpload.WithTrailingSlash | src/services/fileUpload.ts:16 | the result ends with "/". It is the input itself when that already ends with "/", and the input plus one "/" otherwise |
| FileUpload.BaseUrl | src/services/fileUpload.ts:15-16 | an unset or empty setting falls back to the default host |
| FileUpload.WithTrailingSlashIdempotent | src/services/fileUpload.ts:16 | normalising twice is normalising once |
| FileUpload.WithTrailingSlashKeepsRaw | src/services/fileUpload.ts:16 | the configured string is a prefix of the result, which is at most one character longer |
| FileUpload.ValidateFile | src/services/fileUpload.ts:50-92 | valid iff size ≤ 10 MiB and the type is listed. The error is absent iff valid. Oversize gives the size error; otherwise an unlisted type gives the type error |
| FileUpload.AllowedTypesDistinct | src/services/fileUpload.ts:61-82 | sixteen different allowed types |
| FileUpload.SizeBoundInclusive | src/services/fileUpload.ts:52-58 | exactly 10 MiB passes the size check; one byte more fails it |
| FileUpload.SizeCheckedFirst | src/services/fileUpload.ts:53-89 | an oversized file of an unlisted type reports the size error |
| FileUpload.FileIcon | src/services/fileUpload.ts:94-102 | first match wins: the image, video and audio prefixes, then "pdf", then "word", then "excel" or "spreadsheet", each with its own icon. The paperclip is returned iff no check matches |
| FileUpload.PdfTypeHasIcon | src/services/fileUpload.ts:98 | the PDF type contains "pdf" and so does not get the paperclip |
| FileUpload.MsWordTypeHasIcon | src/services/fileUpload.ts:99 | the legacy Word type contains "word" and so does not get the paperclip |
| FileUpload.WordXmlTypeHasIcon | src/services/fileUpload.ts:99 | the OOXML Word type contains "word" and so does not get the paperclip |
| FileUpload.MsExcelTypeHasIcon | src/services/fileUpload.ts:100 | the legacy Excel type contains "excel" and so does not get the paperclip |
| FileUpload.SheetXmlTypeHasIcon | src/services/fileUpload.ts:100 | the OOXML spreadsheet type contains "spreadsheet" and so does not get the paperclip |
| FileUpload.MediaTypesHaveFamilyPrefix | src/services/fileUpload.ts:61-75 | each of the first eleven allowed types starts with "image/", "video/" or "audio/" |
| FileUpload.AllowedTypesHaveIcons | src/services/fileUpload.ts:94-102 | every allowed type gets a specific icon, never the paperclip, and image/video/audio types get their family icon |
| ChatWindow.TypingText | src/appPages/site/components/pages/Chat/ChatWindow.tsx:38-51 | empty iff nobody types (or no list). One name: "… печатает...". Two names: "… и … печатают...". Three or more: the count followed by " человек печатают..." |
| ChatWindow.ShowTypingIndicator | src/appPages/site/components/pages/Chat/ChatWindow.tsx:134 | the indicator shows exactly when its text is non-empty |
| ChatWindow.CrowdCountReadable | src/appPages/site/components/pages/Chat/ChatWindow.tsx:50 | for three or more typists the text is digits plus the suffix, and the digits read back as the count |
| ChatWindow.RoleLabel | src/appPages/site/components/pages/Chat/ChatWindow.tsx:175-181 | owner and admin first. " Ментор" iff neither and the member is the current user with status "mentor". Otherwise " Студент" |
| ChatWindow.OthersShownAsStudents | src/appPages/site/components/pages/Chat/ChatWindow.tsx:175-181 | any other non-owner, non-admin member is shown as a student, whatever their role |

## Left out

- Real sockets, `fetch`, and timer durations (300/500 ms retries, 5 s establishment timeout, 3 s reconnect delay, 5 s polling interval). Timers are abstract scheduled callbacks that the environment fires in any order. The establishment timeout may fire at any moment, and it acts only on a CONNECTING socket.
- The HTTP send (`sendMessageViaHTTP`). It is recorded as the payload sent over HTTP. Its asynchronous failure is an unhandled rejection that nothing observes, so it is not modelled.
- A throw from `ws.send` on an OPEN socket is not modelled.
- What polling fetches: the interval only logs it. Polling is the `polling` flag.
- `startPing`/`stopPing`: `startPing` returns at once, and `pingInterval` is never set, so both are no-ops.
- `JSON.parse` is replaced by a decoded `Option<Frame>`. A `null` frame makes the reducer throw inside `onmessage`'s try, so the store is unchanged. The model treats it like a frame that failed to decode.
- The `typeof msg.group_id === 'number'` test is part of decoding: an `event: "message"` frame without a usable message carries `None`.
- Callbacks of a socket the manager has already replaced are not modelled, apart from the close that follows `disconnect`. Callback events act on the current socket.
- Legacy `type`-keyed frames are assumed to carry a numeric `group_id`. A truthy non-numeric one, such as the string "5", would be pushed under the same key as 5 but fail the `===` comparison with the chat summaries; that case is not modelled.
- Close codes other than 1000 are not distinguished, because the manager only compares with 1000. The close-reason table only feeds a log line.
- The "UNKNOWN" state name is unreachable, because the index expression always lands on one of the four names.
- `stopPolling` is modelled, but no code path calls it.
- The typing indicator's `setTimeout` has an empty callback, and `TypingUser.timeout` is a timer handle. Neither is modelled.
- `uploadFile` (network and cookie lookup), `formatFileSize` (floating point and `Math.log`) and the cookie parsing in the hook. The token is a parameter.
- `sendTyping` returns at once and is not modelled. The hook's returned `isConnected` is the manager's `IsConnected` at render time.
- The rest of `ChatWindow.tsx` is rendering and is not modelled.
- `WebSocketService.ConnectStep`: that the promise id it returns is in range is stated only for a manager satisfying `Inv`. An arbitrary record could name a current promise that does not exist.
