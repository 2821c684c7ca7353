/** Record shapes of the chat API (src/redux/api/chat/types.d.ts) and of the
    frames and payloads that cross the realtime socket. */
module ChatTypes {

  datatype Option<T> = None | Some(value: T)

  /** A chat message as the backend sends it. */
  datatype Message = Message(
    id: int,
    group_id: int,
    user_id: int,
    text: string,
    created_date: string,
    is_deleted: bool,
    edited_at: Option<string>,
    file_url: Option<string>,
    file_type: Option<string>)

  /** One entry of the chats list: a conversation summary. */
  datatype ChatItem = ChatItem(
    group_id: int,
    title: string,
    is_private: bool,
    members_count: int,
    last_message: Option<Message>,
    unread_count: int,
    course: Option<int>)

  datatype Role = Owner | Admin | Member | UnknownRole | Mentor | Student

  datatype GroupMember = GroupMember(user_id: int, role: Role, username: string)

  /** A typing indicator entry; the timer handle the source attaches to it is
      not part of the model (its callback has an empty body). */
  datatype TypingUser = TypingUser(user_id: int, username: string, is_typing: bool)

  /** The `data` object of a legacy frame. The reducer reads this one untyped
      object through two casts: as a Message and as a TypingUser. */
  datatype FrameData = FrameData(
    id: int,
    group_id: int,
    user_id: int,
    text: string,
    created_date: string,
    is_deleted: bool,
    edited_at: Option<string>,
    file_url: Option<string>,
    file_type: Option<string>,
    username: string,
    is_typing: bool)

  function AsMessage(d: FrameData): Message
  {
    Message(d.id, d.group_id, d.user_id, d.text, d.created_date, d.is_deleted,
            d.edited_at, d.file_url, d.file_type)
  }

  function AsTypingUser(d: FrameData): TypingUser
  {
    TypingUser(d.user_id, d.username, d.is_typing)
  }

  /** An inbound frame after JSON decoding.
      - EventFrame: an object with an `event` key. `message` is None when the
        field is missing, falsy, or has no numeric `group_id`.
      - LegacyFrame: anything else, read as `{type, group_id, data}`. A frame
        without a `type` (including a decoded primitive) has kind "". A
        missing `group_id` is None; a missing or falsy `data` is None. */
  datatype Frame =
    | EventFrame(event: string, message: Option<Message>)
    | LegacyFrame(kind: string, group_id: Option<int>, data: Option<FrameData>)

  /** JavaScript truthiness of an optional number: absent and 0 are falsy. */
  predicate IntTruthy(n: Option<int>)
  {
    n.Some? && n.value != 0
  }

  /** JavaScript truthiness of an optional string: absent and "" are falsy. */
  predicate TextTruthy(s: Option<string>)
  {
    s.Some? && s.value != ""
  }

  /** Outbound payloads the session hook hands to the connection manager. */
  datatype Outbound =
    | SetActiveChat(group_id: int)
    | ChatMessage(group_id: int, text: string, file_url: Option<string>, file_type: Option<string>)
}

/** String predicates with the meaning of JavaScript's startsWith, endsWith
    and includes, and decimal rendering of a count. */
module Strings {

  predicate StartsWith(s: string, prefix: string)
  {
    |prefix| <= |s| && s[..|prefix|] == prefix
  }

  predicate EndsWith(s: string, suffix: string)
  {
    |suffix| <= |s| && s[|s| - |suffix|..] == suffix
  }

  /** `s.includes(p)`: p occurs at some position of s. */
  predicate Contains(s: string, p: string)
  {
    exists i :: 0 <= i <= |s| && OccursAt(s, p, i)
  }

  /** p occurs in s starting at index i. */
  predicate OccursAt(s: string, p: string, i: int)
  {
    0 <= i && i + |p| <= |s| && s[i..i + |p|] == p
  }

  function Digit(d: nat): (c: char)
    requires d < 10
    ensures '0' <= c <= '9' && c as int - '0' as int == d
  {
    ['0', '1', '2', '3', '4', '5', '6', '7', '8', '9'][d]
  }

  /** `String(n)` for a non-negative integer: decimal digits, no leading zero. */
  function Decimal(n: nat): (s: string)
    ensures |s| > 0
    ensures forall i :: 0 <= i < |s| ==> '0' <= s[i] <= '9'
    ensures n >= 10 ==> s[0] != '0'
  {
    if n < 10 then [Digit(n)] else Decimal(n / 10) + [Digit(n % 10)]
  }

  /** The value of a string of decimal digits. */
  function DigitsValue(s: string): nat
    requires forall i :: 0 <= i < |s| ==> '0' <= s[i] <= '9'
  {
    if s == [] then 0
    else 10 * DigitsValue(s[..|s| - 1]) + (s[|s| - 1] as int - '0' as int)
  }

  /** Reading the rendered digits back gives the number: Decimal is injective. */
  lemma {:induction false} DecimalRoundTrip(n: nat)
    ensures DigitsValue(Decimal(n)) == n
  {
    if n >= 10 {
      DecimalRoundTrip(n / 10);
      var s := Decimal(n);
      assert s[..|s| - 1] == Decimal(n / 10);
    }
  }
}
