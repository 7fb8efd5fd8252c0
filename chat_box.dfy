/** The slide-in chat panel: its send guard and the own-message test. */
module ChatBox {
  import opened Text
  import opened Store

  /** `msg.senderId === user?.uid`: with nobody signed in, no message is one's own. */
  function IsOwn(msg: ChatMessage, user: Option<string>): (own: bool)
    ensures own <==> user.Some? && user.value == msg.senderId
    ensures user.None? ==> !own
  {
    match user
    case None => false
    case Some(uid) => msg.senderId == uid
  }

  class ChatBox {
    var newMessage: string

    constructor ()
      ensures newMessage == ""
    {
      newMessage := "";
    }

    predicate MessageIsBlank()
      reads this
    {
      Trim(newMessage) == ""
    }

    /** `handleSubmit`: the raw input is forwarded to `onSendMessage` unless it is blank;
        a forwarded input is cleared, a blank one is kept. */
    method HandleSubmit() returns (forwarded: Option<string>)
      modifies this`newMessage
      ensures old(MessageIsBlank()) ==> forwarded.None? && newMessage == old(newMessage)
      ensures !old(MessageIsBlank()) ==> forwarded == Some(old(newMessage)) && newMessage == ""
      ensures forwarded.Some? ==> !IsBlank(forwarded.value)
    {
      if MessageIsBlank() {
        TrimEmptyIffBlank(newMessage);
        return None;
      }
      TrimEmptyIffBlank(newMessage);
      forwarded := Some(newMessage);
      newMessage := "";
    }
  }
}
