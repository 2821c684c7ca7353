/** The chat state reducer (src/redux/slices/chatSlice.ts).

    The reducers mutate one state object in place, so the state is a class
    whose fields are the slice's fields and each reducer is a method that
    says, through its `modifies` frame, which fields it may touch and, through
    its `ensures`, what they hold afterwards. The list manipulations the
    reducers perform (push, unshift, find-then-assign, filter) are pure
    functions on sequences; the lemmas about them carry the list-level
    invariants: append-only arrival order, in-place edit, tombstone delete,
    and at most one typing entry per user. */
module ChatSlice {
  import opened ChatTypes

  datatype ConnectionState = Disconnected | Connecting | Connected | Closing | Closed | Unknown

  /** The text a deleted message is given. */
  const DeletedText: string := "Message deleted"

  // ---------------------------------------------------------------------------
  // Message lists

  /** `state.messages[g]`, with an absent list read as empty. */
  function MessagesOf(m: map<int, seq<Message>>, g: int): seq<Message>
  {
    if g in m then m[g] else []
  }

  /** `if (!messages[g]) messages[g] = []; messages[g].push(msg)`. */
  function AppendTo(m: map<int, seq<Message>>, g: int, msg: Message): (r: map<int, seq<Message>>)
    ensures r.Keys == m.Keys + {g}
    ensures |r[g]| == |MessagesOf(m, g)| + 1 && r[g][|r[g]| - 1] == msg
    ensures r[g][..|r[g]| - 1] == MessagesOf(m, g)
    ensures forall h :: h in m && h != g ==> r[h] == m[h]
  {
    m[g := MessagesOf(m, g) + [msg]]
  }

  /** Messages appended one by one, as a sequence of arrivals does. */
  function AppendAll(m: map<int, seq<Message>>, g: int, arrivals: seq<Message>): map<int, seq<Message>>
    decreases |arrivals|
  {
    if arrivals == [] then m else AppendAll(AppendTo(m, g, arrivals[0]), g, arrivals[1..])
  }

  /** Arrivals to one group end up, in arrival order and with none dropped,
      after the messages already there; other groups' lists are untouched. */
  lemma {:induction false} AppendAllInArrivalOrder(m: map<int, seq<Message>>, g: int, arrivals: seq<Message>)
    ensures var r := AppendAll(m, g, arrivals);
      && (arrivals != [] ==> g in r)
      && MessagesOf(r, g) == MessagesOf(m, g) + arrivals
      && |MessagesOf(r, g)| == |MessagesOf(m, g)| + |arrivals|
      && forall h :: h != g ==> (h in r <==> h in m) && MessagesOf(r, h) == MessagesOf(m, h)
    decreases |arrivals|
  {
    if arrivals != [] {
      var m' := AppendTo(m, g, arrivals[0]);
      AppendAllInArrivalOrder(m', g, arrivals[1..]);
      assert MessagesOf(m', g) == MessagesOf(m, g) + [arrivals[0]];
      assert [arrivals[0]] + arrivals[1..] == arrivals;
      assert MessagesOf(m, g) + [arrivals[0]] + arrivals[1..] == MessagesOf(m, g) + arrivals;
    }
  }

  /** `list.find(m => m.id === id)`, as the index of the first match, or -1. */
  function FindMessage(list: seq<Message>, id: int): (r: int)
    ensures -1 <= r < |list|
    ensures r == -1 <==> forall k :: 0 <= k < |list| ==> list[k].id != id
    ensures r >= 0 ==> list[r].id == id && forall k :: 0 <= k < r ==> list[k].id != id
  {
    if list == [] then -1
    else if list[0].id == id then 0
    else
      var r := FindMessage(list[1..], id);
      if r == -1 then -1 else r + 1
  }

  /** Two lists with the same ids at the same positions answer every find alike. */
  lemma {:induction false} FindMessageByIdsOnly(a: seq<Message>, b: seq<Message>, id: int)
    requires |a| == |b|
    requires forall k :: 0 <= k < |a| ==> a[k].id == b[k].id
    ensures FindMessage(a, id) == FindMessage(b, id)
  {
    if a != [] && a[0].id != id {
      FindMessageByIdsOnly(a[1..], b[1..], id);
    }
  }

  /** Find-then-assign of `text` and `edited_at` (updateMessage, message_edited). */
  function EditById(list: seq<Message>, id: int, text: string, editedAt: Option<string>): (r: seq<Message>)
    ensures |r| == |list|
    ensures FindMessage(list, id) == -1 ==> r == list
    ensures forall k :: 0 <= k < |list| && k != FindMessage(list, id) ==> r[k] == list[k]
    ensures var i := FindMessage(list, id);
      i >= 0 ==> r[i].text == text && r[i].edited_at == editedAt
                 && r[i].(text := list[i].text, edited_at := list[i].edited_at) == list[i]
  {
    var i := FindMessage(list, id);
    if i < 0 then list else list[i := list[i].(text := text, edited_at := editedAt)]
  }

  /** Find-then-assign of the tombstone (deleteMessage, message_deleted). */
  function TombstoneById(list: seq<Message>, id: int): (r: seq<Message>)
    ensures |r| == |list|
    ensures forall k :: 0 <= k < |list| ==> r[k].id == list[k].id
    ensures FindMessage(list, id) == -1 ==> r == list
    ensures forall k :: 0 <= k < |list| && k != FindMessage(list, id) ==> r[k] == list[k]
    ensures var i := FindMessage(list, id);
      i >= 0 ==> r[i].is_deleted && r[i].text == DeletedText
                 && r[i].(is_deleted := list[i].is_deleted, text := list[i].text) == list[i]
  {
    var i := FindMessage(list, id);
    if i < 0 then list else list[i := list[i].(is_deleted := true, text := DeletedText)]
  }

  /** Deleting the same message twice leaves the list as one delete did. */
  lemma TombstoneIdempotent(list: seq<Message>, id: int)
    ensures TombstoneById(TombstoneById(list, id), id) == TombstoneById(list, id)
  {
    var once := TombstoneById(list, id);
    FindMessageByIdsOnly(list, once, id);
  }

  /** An edit never changes which message a later find by id lands on. */
  lemma EditKeepsIds(list: seq<Message>, id: int, text: string, editedAt: Option<string>, other: int)
    ensures FindMessage(EditById(list, id, text, editedAt), other) == FindMessage(list, other)
  {
    var r := EditById(list, id, text, editedAt);
    var i := FindMessage(list, id);
    assert forall k :: 0 <= k < |list| ==> r[k].id == list[k].id by {
      forall k | 0 <= k < |list| ensures r[k].id == list[k].id {
        if k == i {
          assert r[i].(text := list[i].text, edited_at := list[i].edited_at) == list[i];
        }
      }
    }
    FindMessageByIdsOnly(r, list, other);
  }

  /** `state.messages[g]?.find(...)` then edit: no list, nothing to edit. */
  function EditIn(m: map<int, seq<Message>>, g: int, id: int, text: string, editedAt: Option<string>): (r: map<int, seq<Message>>)
    ensures r.Keys == m.Keys
    ensures forall h :: h in m && h != g ==> r[h] == m[h]
    ensures g in m ==> r[g] == EditById(m[g], id, text, editedAt)
  {
    if g in m then m[g := EditById(m[g], id, text, editedAt)] else m
  }

  /** The same for deleteMessage and message_deleted. */
  function TombstoneIn(m: map<int, seq<Message>>, g: int, id: int): (r: map<int, seq<Message>>)
    ensures r.Keys == m.Keys
    ensures forall h :: h in m && h != g ==> r[h] == m[h]
    ensures g in m ==> r[g] == TombstoneById(m[g], id)
  {
    if g in m then m[g := TombstoneById(m[g], id)] else m
  }

  // ---------------------------------------------------------------------------
  // Typing lists

  /** `list.filter(u => u.user_id !== uid)`. */
  function WithoutUser(list: seq<TypingUser>, uid: int): (r: seq<TypingUser>)
    ensures |r| <= |list|
    ensures forall t :: t in r <==> t in list && t.user_id != uid
  {
    if list == [] then []
    else (if list[0].user_id == uid then [] else [list[0]]) + WithoutUser(list[1..], uid)
  }

  lemma {:induction false} WithoutUserConcat(a: seq<TypingUser>, b: seq<TypingUser>, uid: int)
    ensures WithoutUser(a + b, uid) == WithoutUser(a, uid) + WithoutUser(b, uid)
  {
    if a == [] {
      assert a + b == b;
    } else {
      assert (a + b)[1..] == a[1..] + b;
      WithoutUserConcat(a[1..], b, uid);
    }
  }

  /** A list that has no entry for the user is what the filter returns. */
  lemma {:induction false} WithoutAbsentUser(list: seq<TypingUser>, uid: int)
    requires forall t :: t in list ==> t.user_id != uid
    ensures WithoutUser(list, uid) == list
  {
    if list != [] {
      WithoutAbsentUser(list[1..], uid);
    }
  }

  /** No user appears twice in a typing list. */
  ghost predicate OnePerUser(list: seq<TypingUser>)
  {
    forall i, j :: 0 <= i < j < |list| ==> list[i].user_id != list[j].user_id
  }

  lemma {:induction false} WithoutUserKeepsOnePerUser(list: seq<TypingUser>, uid: int)
    requires OnePerUser(list)
    ensures OnePerUser(WithoutUser(list, uid))
  {
    if list != [] {
      var tail := list[1..];
      WithoutUserKeepsOnePerUser(tail, uid);
      var rest := WithoutUser(tail, uid);
      forall t | t in rest ensures t.user_id != list[0].user_id {
        assert t in tail;
        var j :| 0 <= j < |tail| && tail[j] == t;
        assert list[j + 1] == t;
      }
    }
  }

  /** setTypingUser and the legacy `typing` frame: drop the user's entries,
      then push the new one if the user is typing. */
  function UpsertTyping(list: seq<TypingUser>, user: TypingUser): (r: seq<TypingUser>)
    ensures forall t :: t in r <==> (t in list && t.user_id != user.user_id) || (user.is_typing && t == user)
    ensures user.is_typing ==> |r| > 0 && r[|r| - 1] == user
  {
    WithoutUser(list, user.user_id) + (if user.is_typing then [user] else [])
  }

  /** After an upsert the user has an entry exactly when typing, that entry
      is the new one, and nothing else of the user's survives. */
  lemma UpsertTypingPresence(list: seq<TypingUser>, user: TypingUser)
    ensures var r := UpsertTyping(list, user);
      && ((exists t :: t in r && t.user_id == user.user_id) <==> user.is_typing)
      && (forall t :: t in r && t.user_id == user.user_id ==> t == user)
      && (user.is_typing ==> r[|r| - 1] == user)
  {
    var r := UpsertTyping(list, user);
    if user.is_typing {
      assert r[|r| - 1] == user && user in r;
    }
  }

  /** Upserting keeps a list free of duplicate users. */
  lemma UpsertTypingKeepsOnePerUser(list: seq<TypingUser>, user: TypingUser)
    requires OnePerUser(list)
    ensures OnePerUser(UpsertTyping(list, user))
  {
    var kept := WithoutUser(list, user.user_id);
    WithoutUserKeepsOnePerUser(list, user.user_id);
    if user.is_typing {
      var r := kept + [user];
      forall i, j | 0 <= i < j < |r| ensures r[i].user_id != r[j].user_id {
        if j == |r| - 1 {
          assert r[i] in kept;
        } else {
          assert r[i] == kept[i] && r[j] == kept[j];
        }
      }
    }
  }

  /** Everyone else's entries keep their relative order through an upsert. */
  lemma UpsertTypingOthersInOrder(list: seq<TypingUser>, user: TypingUser)
    ensures WithoutUser(UpsertTyping(list, user), user.user_id) == WithoutUser(list, user.user_id)
  {
    var kept := WithoutUser(list, user.user_id);
    var added := if user.is_typing then [user] else [];
    WithoutUserConcat(kept, added, user.user_id);
    WithoutAbsentUser(kept, user.user_id);
    assert WithoutUser(added, user.user_id) == [];
  }

  function TypingOf(t: map<int, seq<TypingUser>>, g: int): seq<TypingUser>
  {
    if g in t then t[g] else []
  }

  function UpsertTypingIn(t: map<int, seq<TypingUser>>, g: int, user: TypingUser): map<int, seq<TypingUser>>
  {
    t[g := UpsertTyping(TypingOf(t, g), user)]
  }

  /** removeTypingUser on the typing map: a group without a list is left alone. */
  function RemoveTypingIn(t: map<int, seq<TypingUser>>, g: int, uid: int): (r: map<int, seq<TypingUser>>)
    ensures r.Keys == t.Keys
    ensures g in t ==> forall u :: u in r[g] <==> u in t[g] && u.user_id != uid
    // the survivors keep their order: the list is the filtered one
    ensures g in t ==> r[g] == WithoutUser(t[g], uid)
    ensures forall h :: h in t && h != g ==> r[h] == t[h]
  {
    if g in t then t[g := WithoutUser(t[g], uid)] else t
  }

  ghost predicate TypingValid(t: map<int, seq<TypingUser>>)
  {
    forall g :: g in t ==> OnePerUser(t[g])
  }

  lemma UpsertTypingInValid(t: map<int, seq<TypingUser>>, g: int, user: TypingUser)
    requires TypingValid(t)
    ensures TypingValid(UpsertTypingIn(t, g, user))
  {
    UpsertTypingKeepsOnePerUser(TypingOf(t, g), user);
  }

  lemma RemoveTypingInValid(t: map<int, seq<TypingUser>>, g: int, uid: int)
    requires TypingValid(t)
    ensures TypingValid(RemoveTypingIn(t, g, uid))
  {
    if g in t {
      WithoutUserKeepsOnePerUser(t[g], uid);
    }
  }

  // ---------------------------------------------------------------------------
  // Chats list and unread counters

  /** `chats.findIndex(chat => chat.group_id === g)`. */
  function FindChat(chats: seq<ChatItem>, g: int): (r: int)
    ensures -1 <= r < |chats|
    ensures r == -1 <==> forall k :: 0 <= k < |chats| ==> chats[k].group_id != g
    ensures r >= 0 ==> chats[r].group_id == g && forall k :: 0 <= k < r ==> chats[k].group_id != g
  {
    if chats == [] then -1
    else if chats[0].group_id == g then 0
    else
      var r := FindChat(chats[1..], g);
      if r == -1 then -1 else r + 1
  }

  /** The summary of group g, if any, gets `msg` as its last message. */
  function WithLastMessage(chats: seq<ChatItem>, g: int, msg: Message): (r: seq<ChatItem>)
    ensures |r| == |chats|
    ensures forall k :: 0 <= k < |chats| && k != FindChat(chats, g) ==> r[k] == chats[k]
    ensures var i := FindChat(chats, g);
      i >= 0 ==> r[i].last_message == Some(msg) && r[i].(last_message := chats[i].last_message) == chats[i]
  {
    var i := FindChat(chats, g);
    if i < 0 then chats else chats[i := chats[i].(last_message := Some(msg))]
  }

  /** `unreadCounts[g] || 0`. */
  function UnreadOf(counts: map<int, int>, g: int): int
  {
    if g in counts then counts[g] else 0
  }

  /** The forEach of setChats: every chat writes its own count, in order. */
  function UnreadFromChats(counts: map<int, int>, chats: seq<ChatItem>): (r: map<int, int>)
    ensures r.Keys == counts.Keys + set c | c in chats :: c.group_id
    decreases |chats|
  {
    if chats == [] then counts
    else
      var last := chats[|chats| - 1];
      UnreadFromChats(counts, chats[..|chats| - 1])[last.group_id := last.unread_count]
  }

  /** Index of the last chat of group g, or -1. */
  function LastChat(chats: seq<ChatItem>, g: int): (r: int)
    ensures -1 <= r < |chats|
    ensures r == -1 <==> forall k :: 0 <= k < |chats| ==> chats[k].group_id != g
    ensures r >= 0 ==> chats[r].group_id == g && forall k :: r < k < |chats| ==> chats[k].group_id != g
    decreases |chats|
  {
    if chats == [] then -1
    else if chats[|chats| - 1].group_id == g then |chats| - 1
    else LastChat(chats[..|chats| - 1], g)
  }

  /** After setChats, a group listed in the chats carries the count of its
      LAST listed summary; every other counter is left as it was. */
  lemma {:induction false} UnreadFromChatsLastWins(counts: map<int, int>, chats: seq<ChatItem>, g: int)
    ensures var r := UnreadFromChats(counts, chats);
      var i := LastChat(chats, g);
      && (i >= 0 ==> g in r && r[g] == chats[i].unread_count)
      && (i < 0 ==> (g in r <==> g in counts) && (g in counts ==> r[g] == counts[g]))
    decreases |chats|
  {
    if chats != [] {
      UnreadFromChatsLastWins(counts, chats[..|chats| - 1], g);
    }
  }

  // ---------------------------------------------------------------------------
  // handleWebSocketMessage: what a frame does to the store

  /** The store change a frame selects in handleWebSocketMessage. */
  datatype FrameEffect =
    | MarkConnected
    | MarkDisconnected
    | Append(group: int, msg: Message)
    | Edit(group: int, id: int, text: string, editedAt: Option<string>)
    | Tombstone(group: int, id: int)
    | Typing(group: int, user: TypingUser)
    | NoEffect

  /** The branch handleWebSocketMessage takes for a frame. */
  function EffectOf(f: Frame): (e: FrameEffect)
    // event-keyed frames never reach the legacy branch
    ensures f.EventFrame? ==> !(e.Edit? || e.Tombstone? || e.Typing?)
    ensures f.EventFrame? ==> (e == MarkConnected <==> f.event == "connected")
    ensures f.EventFrame? ==> (e == MarkDisconnected <==> f.event == "error")
    ensures f.EventFrame? ==> (e.Append? <==> f.event == "message" && f.message.Some?)
    ensures f.EventFrame? && e.Append? ==> e.msg == f.message.value && e.group == e.msg.group_id
    ensures f.EventFrame? && f.event !in {"connected", "message", "error"} ==> e == NoEffect
    // legacy frames: connection status is never touched, falsy group or data is ignored
    ensures f.LegacyFrame? ==> !(e.MarkConnected? || e.MarkDisconnected?)
    ensures f.LegacyFrame? && (!IntTruthy(f.group_id) || f.data.None?) ==> e == NoEffect
    ensures f.LegacyFrame? && e != NoEffect ==> e.group == f.group_id.value
    ensures f.LegacyFrame? && f.kind !in {"message", "message_edited", "message_deleted", "typing"} ==> e == NoEffect
    // legacy frames with a truthy group and data: one store change per kind
    ensures f.LegacyFrame? && IntTruthy(f.group_id) && f.data.Some? ==>
              var g, d := f.group_id.value, f.data.value;
              && (f.kind == "message" ==> e == Append(g, AsMessage(d)))
              && (f.kind == "message_edited" ==> e == Edit(g, d.id, d.text, d.edited_at))
              && (f.kind == "message_deleted" ==> e == Tombstone(g, d.id))
              && (f.kind == "typing" ==> e == Typing(g, AsTypingUser(d)))
  {
    match f
    case EventFrame(event, message) =>
      if event == "connected" then MarkConnected
      else if event == "message" then
        (if message.Some? then Append(message.value.group_id, message.value) else NoEffect)
      else if event == "error" then MarkDisconnected
      else NoEffect
    case LegacyFrame(kind, g, data) =>
      if !IntTruthy(g) || data.None? then NoEffect
      else if kind == "message" then Append(g.value, AsMessage(data.value))
      else if kind == "message_edited" then Edit(g.value, data.value.id, data.value.text, data.value.edited_at)
      else if kind == "message_deleted" then Tombstone(g.value, data.value.id)
      else if kind == "typing" then Typing(g.value, AsTypingUser(data.value))
      else NoEffect
  }

  /** The legacy data object that carries exactly the fields of `m`. */
  function DataOf(m: Message, username: string, isTyping: bool): FrameData
  {
    FrameData(m.id, m.group_id, m.user_id, m.text, m.created_date, m.is_deleted,
              m.edited_at, m.file_url, m.file_type, username, isTyping)
  }

  /** A message delivered in either envelope shape has the same effect, as long
      as the legacy envelope names the message's own, non-zero, group. The
      legacy shape keys on the envelope's group, not the message's. */
  lemma EnvelopesAgreeOnMessages(m: Message, envelopeGroup: int, username: string, isTyping: bool)
    requires envelopeGroup != 0
    ensures EffectOf(LegacyFrame("message", Some(envelopeGroup), Some(DataOf(m, username, isTyping))))
            == Append(envelopeGroup, m)
    ensures EffectOf(EventFrame("message", Some(m))) == Append(m.group_id, m)
  {
  }

  function MessagesAfter(m: map<int, seq<Message>>, e: FrameEffect): map<int, seq<Message>>
  {
    match e
    case Append(g, msg) => AppendTo(m, g, msg)
    case Edit(g, id, text, editedAt) => EditIn(m, g, id, text, editedAt)
    case Tombstone(g, id) => TombstoneIn(m, g, id)
    case _ => m
  }

  function ChatsAfter(chats: seq<ChatItem>, e: FrameEffect): seq<ChatItem>
  {
    if e.Append? then WithLastMessage(chats, e.group, e.msg) else chats
  }

  function TypingAfter(t: map<int, seq<TypingUser>>, e: FrameEffect): map<int, seq<TypingUser>>
  {
    if e.Typing? then UpsertTypingIn(t, e.group, e.user) else t
  }

  // ---------------------------------------------------------------------------
  // The state object

  class ChatStore {
    var activeGroupId: Option<int>
    var activeGroupTitle: string
    var messages: map<int, seq<Message>>
    var loadingMessages: map<int, bool>
    var hasMoreMessages: map<int, bool>
    var chats: seq<ChatItem>
    var chatsLoading: bool
    var groupMembers: map<int, seq<GroupMember>>
    var typingUsers: map<int, seq<TypingUser>>
    var wsConnected: bool
    var wsConnectionState: ConnectionState
    var unreadCounts: map<int, int>
    var messageInput: string
    var isTyping: bool
    var uploadingFile: bool

    /** Every group's typing list holds at most one entry per user. */
    ghost predicate Valid()
      reads this`typingUsers
    {
      TypingValid(typingUsers)
    }

    /** The initial state. */
    constructor ()
      ensures Valid()
      ensures activeGroupId == None && activeGroupTitle == ""
      ensures messages == map[] && loadingMessages == map[] && hasMoreMessages == map[]
      ensures chats == [] && !chatsLoading && groupMembers == map[] && typingUsers == map[]
      ensures !wsConnected && wsConnectionState == Disconnected && unreadCounts == map[]
      ensures messageInput == "" && !isTyping && !uploadingFile
    {
      activeGroupId, activeGroupTitle := None, "";
      messages, loadingMessages, hasMoreMessages := map[], map[], map[];
      chats, chatsLoading, groupMembers, typingUsers := [], false, map[], map[];
      wsConnected, wsConnectionState, unreadCounts := false, Disconnected, map[];
      messageInput, isTyping, uploadingFile := "", false, false;
    }

    method SetActiveGroup(groupId: int, title: string)
      modifies this`activeGroupId, this`activeGroupTitle
      ensures activeGroupId == Some(groupId) && activeGroupTitle == title
    {
      activeGroupId, activeGroupTitle := Some(groupId), title;
    }

    method ClearActiveGroup()
      modifies this`activeGroupId, this`activeGroupTitle
      ensures activeGroupId == None && activeGroupTitle == ""
    {
      activeGroupId, activeGroupTitle := None, "";
    }

    /** A fresh page of history replaces the group's list wholesale. */
    method SetMessages(groupId: int, list: seq<Message>, hasMore: bool)
      modifies this`messages, this`hasMoreMessages, this`loadingMessages
      ensures messages == old(messages)[groupId := list]
      ensures hasMoreMessages == old(hasMoreMessages)[groupId := hasMore]
      ensures loadingMessages == old(loadingMessages)[groupId := false]
    {
      messages := messages[groupId := list];
      hasMoreMessages := hasMoreMessages[groupId := hasMore];
      loadingMessages := loadingMessages[groupId := false];
    }

    /** Older history goes in front, in the batch's own order. */
    method AddMessages(groupId: int, batch: seq<Message>)
      modifies this`messages
      ensures messages.Keys == old(messages.Keys) + {groupId}
      ensures messages[groupId] == batch + MessagesOf(old(messages), groupId)
      ensures forall h :: h in old(messages) && h != groupId ==> messages[h] == old(messages)[h]
    {
      messages := messages[groupId := batch + MessagesOf(messages, groupId)];
    }

    /** Push one message; bump the unread counters only when the group has a
        summary in the chats list and is not the active group. */
    method AddMessage(groupId: int, msg: Message)
      modifies this`messages, this`chats, this`unreadCounts
      ensures messages == AppendTo(old(messages), groupId, msg)
      ensures var i := FindChat(old(chats), groupId);
        && (i < 0 ==> chats == old(chats) && unreadCounts == old(unreadCounts))
        && (i >= 0 && activeGroupId == Some(groupId) ==>
              chats == old(chats)[i := old(chats)[i].(last_message := Some(msg))]
              && unreadCounts == old(unreadCounts))
        && (i >= 0 && activeGroupId != Some(groupId) ==>
              chats == old(chats)[i := old(chats)[i].(last_message := Some(msg),
                                                     unread_count := old(chats)[i].unread_count + 1)]
              && unreadCounts == old(unreadCounts)[groupId := UnreadOf(old(unreadCounts), groupId) + 1])
    {
      messages := AppendTo(messages, groupId, msg);
      var i := FindChat(chats, groupId);
      if i != -1 {
        chats := chats[i := chats[i].(last_message := Some(msg))];
        if activeGroupId != Some(groupId) {
          chats := chats[i := chats[i].(unread_count := chats[i].unread_count + 1)];
          unreadCounts := unreadCounts[groupId := UnreadOf(unreadCounts, groupId) + 1];
        }
      }
    }

    method UpdateMessage(groupId: int, messageId: int, text: string, editedAt: string)
      modifies this`messages
      ensures messages == EditIn(old(messages), groupId, messageId, text, Some(editedAt))
    {
      messages := EditIn(messages, groupId, messageId, text, Some(editedAt));
    }

    method DeleteMessage(groupId: int, messageId: int)
      modifies this`messages
      ensures messages == TombstoneIn(old(messages), groupId, messageId)
    {
      messages := TombstoneIn(messages, groupId, messageId);
    }

    method SetLoadingMessages(groupId: int, loading: bool)
      modifies this`loadingMessages
      ensures loadingMessages == old(loadingMessages)[groupId := loading]
    {
      loadingMessages := loadingMessages[groupId := loading];
    }

    /** Replace the chats list and copy every chat's count into the counters. */
    method SetChats(items: seq<ChatItem>)
      modifies this`chats, this`chatsLoading, this`unreadCounts
      ensures chats == items && !chatsLoading
      ensures unreadCounts == UnreadFromChats(old(unreadCounts), items)
    {
      chats := items;
      chatsLoading := false;
      for i := 0 to |items|
        invariant chats == items && !chatsLoading
        invariant unreadCounts == UnreadFromChats(old(unreadCounts), items[..i])
      {
        assert items[..i + 1][..i] == items[..i];
        unreadCounts := unreadCounts[items[i].group_id := items[i].unread_count];
      }
      assert items[..|items|] == items;
    }

    method SetChatsLoading(loading: bool)
      modifies this`chatsLoading
      ensures chatsLoading == loading
    {
      chatsLoading := loading;
    }

    method UpdateChatUnreadCount(groupId: int, unreadCount: int)
      modifies this`unreadCounts, this`chats
      ensures unreadCounts == old(unreadCounts)[groupId := unreadCount]
      ensures var i := FindChat(old(chats), groupId);
        && (i < 0 ==> chats == old(chats))
        && (i >= 0 ==> chats == old(chats)[i := old(chats)[i].(unread_count := unreadCount)])
    {
      unreadCounts := unreadCounts[groupId := unreadCount];
      var i := FindChat(chats, groupId);
      if i != -1 {
        chats := chats[i := chats[i].(unread_count := unreadCount)];
      }
    }

    method SetGroupMembers(groupId: int, members: seq<GroupMember>)
      modifies this`groupMembers
      ensures groupMembers == old(groupMembers)[groupId := members]
    {
      groupMembers := groupMembers[groupId := members];
    }

    method SetTypingUser(groupId: int, user: TypingUser)
      requires Valid()
      modifies this`typingUsers
      ensures Valid()
      ensures typingUsers == UpsertTypingIn(old(typingUsers), groupId, user)
    {
      UpsertTypingInValid(typingUsers, groupId, user);
      typingUsers := UpsertTypingIn(typingUsers, groupId, user);
    }

    method RemoveTypingUser(groupId: int, userId: int)
      requires Valid()
      modifies this`typingUsers
      ensures Valid()
      ensures typingUsers == RemoveTypingIn(old(typingUsers), groupId, userId)
    {
      RemoveTypingInValid(typingUsers, groupId, userId);
      typingUsers := RemoveTypingIn(typingUsers, groupId, userId);
    }

    method SetWsConnected(connected: bool)
      modifies this`wsConnected
      ensures wsConnected == connected
    {
      wsConnected := connected;
    }

    method SetWsConnectionState(s: ConnectionState)
      modifies this`wsConnectionState
      ensures wsConnectionState == s
    {
      wsConnectionState := s;
    }

    method SetMessageInput(text: string)
      modifies this`messageInput
      ensures messageInput == text
    {
      messageInput := text;
    }

    method SetIsTyping(typing: bool)
      modifies this`isTyping
      ensures isTyping == typing
    {
      isTyping := typing;
    }

    method SetUploadingFile(uploading: bool)
      modifies this`uploadingFile
      ensures uploadingFile == uploading
    {
      uploadingFile := uploading;
    }

    /** Apply one inbound frame. The frame never touches unread counters,
        loading flags or anything outside the five fields in the frame. */
    method HandleWebSocketMessage(f: Frame)
      requires Valid()
      modifies this`messages, this`chats, this`typingUsers, this`wsConnected, this`wsConnectionState
      ensures Valid()
      ensures var e := EffectOf(f);
        && messages == MessagesAfter(old(messages), e)
        && chats == ChatsAfter(old(chats), e)
        && typingUsers == TypingAfter(old(typingUsers), e)
        && (e.MarkConnected? ==> wsConnected && wsConnectionState == Connected)
        && (e.MarkDisconnected? ==> !wsConnected && wsConnectionState == Disconnected)
        && (!e.MarkConnected? && !e.MarkDisconnected? ==>
              wsConnected == old(wsConnected) && wsConnectionState == old(wsConnectionState))
    {
      var e := EffectOf(f);
      match e {
        case MarkConnected =>
          wsConnected, wsConnectionState := true, Connected;
        case MarkDisconnected =>
          wsConnected, wsConnectionState := false, Disconnected;
        case Append(g, msg) =>
          messages := AppendTo(messages, g, msg);
          chats := WithLastMessage(chats, g, msg);
        case Edit(g, id, text, editedAt) =>
          messages := EditIn(messages, g, id, text, editedAt);
        case Tombstone(g, id) =>
          messages := TombstoneIn(messages, g, id);
        case Typing(g, user) =>
          UpsertTypingInValid(typingUsers, g, user);
          typingUsers := UpsertTypingIn(typingUsers, g, user);
        case NoEffect =>
      }
    }
  }
}
