/** The two pure computations of the conversation view
    (src/appPages/site/components/pages/Chat/ChatWindow.tsx): the typing
    indicator's text and the role label beside each member. */
module ChatWindow {
  import opened ChatTypes
  import opened Strings

  const TypesOne: string := " печатает..."
  const TypesMany: string := " печатают..."
  const And: string := " и "
  const PeopleTyping: string := " человек печатают..."

  /** getTypingText over `typingUsers[groupId]`; None when the group has no
      list. */
  function TypingText(list: Option<seq<TypingUser>>): (text: string)
    ensures var users := if list.Some? then list.value else [];
      && (|users| == 0 <==> text == "")
      && (|users| == 1 ==> text == users[0].username + TypesOne)
      && (|users| == 2 ==> text == users[0].username + And + users[1].username + TypesMany)
      && (|users| >= 3 ==> text == Decimal(|users|) + PeopleTyping)
  {
    var users := if list.Some? then list.value else [];
    if |users| == 0 then ""
    else if |users| == 1 then users[0].username + TypesOne
    else if |users| == 2 then users[0].username + And + users[1].username + TypesMany
    else Decimal(|users|) + PeopleTyping
  }

  /** The indicator is rendered when the group's list is non-empty, which is
      exactly when there is something to say in it. */
  predicate ShowTypingIndicator(list: Option<seq<TypingUser>>): (shown: bool)
    ensures shown <==> TypingText(list) != ""
  {
    list.Some? && |list.value| > 0
  }

  /** With three or more typists the text names no one, and the count can be
      read back from it. */
  lemma CrowdCountReadable(list: seq<TypingUser>)
    requires |list| >= 3
    ensures var text := TypingText(Some(list));
      var digits := text[..|text| - |PeopleTyping|];
      && EndsWith(text, PeopleTyping)
      && (forall i :: 0 <= i < |digits| ==> '0' <= digits[i] <= '9')
      && DigitsValue(digits) == |list|
  {
    var text := TypingText(Some(list));
    assert text[..|text| - |PeopleTyping|] == Decimal(|list|);
    assert text[|text| - |PeopleTyping|..] == PeopleTyping;
    DecimalRoundTrip(|list|);
  }

  /** The signed-in user as the view sees it. */
  datatype CurrentUser = CurrentUser(id: Option<int>, status: Option<string>)

  const OwnerLabel: string := " Владелец"
  const AdminLabel: string := " Админ"
  const MentorLabel: string := " Ментор"
  const StudentLabel: string := " Студент"

  /** The label next to a member in the members panel. */
  function RoleLabel(member: GroupMember, user: CurrentUser): (text: string)
    ensures member.role == Owner ==> text == OwnerLabel
    ensures member.role == Admin ==> text == AdminLabel
    ensures text == MentorLabel <==>
              member.role != Owner && member.role != Admin
              && user.id == Some(member.user_id) && user.status == Some("mentor")
    ensures text in {OwnerLabel, AdminLabel, MentorLabel, StudentLabel}
  {
    if member.role == Owner then OwnerLabel
    else if member.role == Admin then AdminLabel
    else if user.id == Some(member.user_id) && user.status == Some("mentor") then MentorLabel
    else StudentLabel
  }

  /** Only the viewer can be labelled a mentor: any other member who is neither
      owner nor admin is shown as a student, whatever their own role. */
  lemma OthersShownAsStudents(member: GroupMember, user: CurrentUser)
    requires member.role != Owner && member.role != Admin
    requires user.id != Some(member.user_id)
    ensures RoleLabel(member, user) == StudentLabel
  {
  }
}
