/** The parts of the Telegram update payloads that bot.py reads. Every entity is
    an immutable value handed to a handler by the platform. */
module Entities {
  import opened Wrappers

  /** A Telegram user. Telegram may leave the last name and the username out;
      the first name is modelled as optional too, since the code guards it the
      same way. */
  datatype User = User(id: int, firstName: Option<string>, lastName: Option<string>, username: Option<string>)

  /** A group or channel; private chats have no title. */
  datatype Chat = Chat(id: int, title: Option<string>)

  /** A user's membership in a chat, with the platform's status string
      ("creator", "administrator", "member", "restricted", "left", "kicked"). */
  datatype ChatMember = ChatMember(user: User, status: string)

  /** `ChatMemberUpdated`: the membership before and after a change. */
  datatype MemberUpdate = MemberUpdate(chat: Chat, oldChatMember: ChatMember, newChatMember: ChatMember)

  /** `ChatJoinRequest`: a pending request of `fromUser` to join `chat`. */
  datatype JoinRequest = JoinRequest(chat: Chat, fromUser: User)
}
