/**
 * The message rules of components/ui/deal-room.tsx: which message ids the
 * component reports as read, when a typed message is sent, and which
 * messages it shows as the current user's own.
 */
module DealRoom {
  import opened Common

  datatype Message = Message(
    id: string,
    senderName: string,
    senderRole: string,
    content: string,
    createdAt: string,
    read: bool)

  datatype User = User(id: string, role: string, name: string)

  /** `messages.filter(m => !m.read).map(m => m.id)` */
  function UnreadIds(msgs: seq<Message>): (ids: seq<string>)
    ensures |ids| <= |msgs|
    ensures ids == [] <==> forall i :: 0 <= i < |msgs| ==> msgs[i].read
  {
    if msgs == [] then []
    else
      var last := msgs[|msgs| - 1];
      var init := msgs[..|msgs| - 1];
      var r := UnreadIds(init) + (if last.read then [] else [last.id]);
      assert forall i :: 0 <= i < |init| ==> init[i] == msgs[i];
      r
  }

  /** The ids reported are exactly those of the unread messages. */
  lemma {:induction false} UnreadIdsMembers(msgs: seq<Message>)
    ensures forall x :: x in UnreadIds(msgs) <==> exists i :: 0 <= i < |msgs| && !msgs[i].read && msgs[i].id == x
  {
    if msgs != [] {
      var init := msgs[..|msgs| - 1];
      UnreadIdsMembers(init);
      assert forall i :: 0 <= i < |init| ==> init[i] == msgs[i];
    }
  }

  /** The ids keep the order of the list: the selection distributes over concatenation. */
  lemma {:induction false} UnreadIdsAppend(a: seq<Message>, b: seq<Message>)
    ensures UnreadIds(a + b) == UnreadIds(a) + UnreadIds(b)
    decreases |b|
  {
    if b == [] {
      assert a + b == a;
    } else {
      assert (a + b)[..|a + b| - 1] == a + b[..|b| - 1];
      UnreadIdsAppend(a, b[..|b| - 1]);
    }
  }

  /**
   * The effect run on every new message list: `onMarkAsRead` is called with
   * the unread ids when there is at least one, and not called otherwise.
   */
  function MarkAsReadCall(msgs: seq<Message>): (call: Option<seq<string>>)
    ensures call.None? <==> forall i :: 0 <= i < |msgs| ==> msgs[i].read
    ensures call.Some? ==> call.value == UnreadIds(msgs) && call.value != []
  {
    var ids := UnreadIds(msgs);
    if |ids| > 0 then Some(ids) else None
  }

  /** A message is shown on the right with "(You)" when its sender's ROLE is the viewer's role. */
  predicate IsOwnMessage(m: Message, viewer: User)
  {
    m.senderRole == viewer.role
  }

  /** Ownership compares roles only: another user with the same role sees the same messages as own. */
  lemma OwnershipIsByRole(m: Message, u: User, v: User)
    requires u.role == v.role && u.id != v.id
    ensures IsOwnMessage(m, u) <==> IsOwnMessage(m, v)
  {
  }

  /** The Send button is disabled exactly when the input is blank after trimming. */
  predicate SendDisabled(input: string)
    ensures SendDisabled(input) <==> AllWhitespace(input)
  {
    Trim(input) == []
  }

  /** The message input, `newMessage` state. */
  class Composer {
    var newMessage: string

    constructor ()
      ensures newMessage == ""
    {
      newMessage := "";
    }

    /** The input's onChange. */
    method Type(text: string)
      modifies this
      ensures newMessage == text
    {
      newMessage := text;
    }

    /**
     * `handleSendMessage`: with a non-blank input, the UNTRIMMED text goes to
     * `onSendMessage` and the input is cleared; a blank input changes nothing.
     */
    method Submit() returns (sent: Option<string>)
      modifies this
      ensures old(SendDisabled(newMessage)) ==> sent.None? && newMessage == old(newMessage)
      ensures !old(SendDisabled(newMessage)) ==> sent == Some(old(newMessage)) && newMessage == ""
    {
      if Trim(newMessage) != [] {
        sent := Some(newMessage);
        newMessage := "";
      } else {
        sent := None;
      }
    }
  }

  /** Follows the test "should send a new message when submitting the form" (DealRoom.test.tsx:66-86), where a typed message is sent; it adds that a whitespace-only submit sends nothing. */
  method SubmitScenario()
  {
    var c := new Composer();
    c.Type("   ");
    var s1 := c.Submit();
    assert SendDisabled("   ") by { assert AllWhitespace("   "); }
    assert s1.None?;
    c.Type("Hello investors");
    assert !AllWhitespace("Hello investors") by { assert !IsWhitespace("Hello investors"[0]); }
    var s2 := c.Submit();
    assert s2 == Some("Hello investors") && c.newMessage == "";
  }
}
