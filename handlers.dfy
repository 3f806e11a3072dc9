/** `approve_join_request` and `farewell` without the asynchronous Telegram
    client: each handler drives an abstract platform that records the actions
    it is asked to perform, and whether each action succeeds is an input. */
module Handlers {
  import opened Wrappers
  import opened Entities
  import opened Formatting
  import opened Messages
  import opened Membership
  import opened Config

  /** An action the bot asks Telegram to perform. */
  datatype Action =
    | Approve(chatId: int, userId: int)     // `join_request.approve()`
    | Send(chatId: int, text: string)       // `bot.send_message(chat_id, text)`

  /** How a handler ends: it returns, or an exception escapes it. The only
      exception that can escape is the one `str.format` raises, because the
      rendering happens outside both `try` blocks. */
  datatype Completion = Returned | Raised(error: FormatError)

  /** The actions a handler performs and how it ends. */
  datatype Run = Run(actions: seq<Action>, completion: Completion)

  /** The Telegram side, reduced to the list of actions requested so far. */
  class Platform {
    var trace: seq<Action>

    constructor()
      ensures trace == []
    {
      trace := [];
    }

    /** Asks Telegram to approve `request`; `succeeds` says whether the call
        returns or raises. */
    method ApproveRequest(request: JoinRequest, succeeds: bool) returns (ok: bool)
      modifies this
      ensures trace == old(trace) + [Approve(request.chat.id, request.fromUser.id)]
      ensures ok == succeeds
    {
      trace := trace + [Approve(request.chat.id, request.fromUser.id)];
      ok := succeeds;
    }

    /** Asks Telegram to deliver `text` to `chatId`; `succeeds` says whether the
        call returns or raises (a user who blocked the bot, say). */
    method SendMessage(chatId: int, text: string, succeeds: bool) returns (ok: bool)
      modifies this
      ensures trace == old(trace) + [Send(chatId, text)]
      ensures ok == succeeds
    {
      trace := trace + [Send(chatId, text)];
      ok := succeeds;
    }
  }

  /** What `approve_join_request` does with `template` as its welcome message,
      given whether the approval goes through. Whether the welcome DM arrives
      is not an input: the handler swallows a failed DM. The approval comes
      first and only once; the one DM that may follow goes to the requester,
      and only after a successful approval. */
  function Welcome(request: JoinRequest, template: string, approveSucceeds: bool): (r: Run)
    ensures 1 <= |r.actions| <= 2 && r.actions[0] == Approve(request.chat.id, request.fromUser.id)
    ensures |r.actions| == 2 ==>
      approveSucceeds && r.actions[1].Send? && r.actions[1].chatId == request.fromUser.id && r.completion == Returned
    ensures r.completion.Raised? ==> approveSucceeds && |r.actions| == 1
  {
    var approve := [Approve(request.chat.id, request.fromUser.id)];
    if !approveSucceeds then Run(approve, Returned)
    else match FormatMessage(template, request.fromUser, request.chat)
      case Failure(e) => Run(approve, Raised(e))
      case Success(text) => Run(approve + [Send(request.fromUser.id, text)], Returned)
  }

  /** What `farewell` does with `template` as its farewell message. Whether
      the farewell DM arrives is not an input: the handler swallows a failed
      DM. Nothing happens, and nothing is raised, unless the update records
      a departure; then at most one DM goes out, to the departed user. */
  function Goodbye(update: Option<MemberUpdate>, template: string): (r: Run)
    ensures |r.actions| <= 1
    ensures r.actions != [] ==>
      update.Some? && IsMemberLeft(update.value) &&
      r.actions[0].Send? && r.actions[0].chatId == update.value.newChatMember.user.id
    ensures r.completion.Raised? ==> update.Some? && IsMemberLeft(update.value) && r.actions == []
  {
    if update.None? || !IsMemberLeft(update.value) then Run([], Returned)
    else
      var user := update.value.newChatMember.user;
      match FormatMessage(template, user, update.value.chat)
      case Failure(e) => Run([], Raised(e))
      case Success(text) => Run([Send(user.id, text)], Returned)
  }

  /** `approve_join_request`: approve, then render the welcome and send it to
      the requester; a failed approval ends the handler, a failed DM is
      swallowed. */
  method ApproveJoinRequest(platform: Platform, request: JoinRequest, template: string,
                            approveSucceeds: bool, sendSucceeds: bool) returns (c: Completion)
    modifies platform
    ensures platform.trace == old(platform.trace) + Welcome(request, template, approveSucceeds).actions
    ensures c == Welcome(request, template, approveSucceeds).completion
  {
    var user, chat := request.fromUser, request.chat;
    var approved := platform.ApproveRequest(request, approveSucceeds);
    if !approved {
      return Returned;
    }
    var rendered := FormatMessage(template, user, chat);
    if rendered.Failure? {
      return Raised(rendered.error);
    }
    var delivered := platform.SendMessage(user.id, rendered.value, sendSucceeds);
    c := Returned;
  }

  /** `farewell`: for an update that records a departure, render the farewell
      and send it to the departed user; a failed DM is swallowed. */
  method Farewell(platform: Platform, update: Option<MemberUpdate>, template: string,
                  sendSucceeds: bool) returns (c: Completion)
    modifies platform
    ensures platform.trace == old(platform.trace) + Goodbye(update, template).actions
    ensures c == Goodbye(update, template).completion
  {
    if update.None? {
      return Returned;
    }
    if !IsMemberLeft(update.value) {
      return Returned;
    }
    var user, chat := update.value.newChatMember.user, update.value.chat;
    var rendered := FormatMessage(template, user, chat);
    if rendered.Failure? {
      return Raised(rendered.error);
    }
    var delivered := platform.SendMessage(user.id, rendered.value, sendSucceeds);
    c := Returned;
  }

  /** A failed approval is the only action: no DM is attempted. */
  lemma FailedApprovalStops(request: JoinRequest, template: string)
    ensures Welcome(request, template, false)
         == Run([Approve(request.chat.id, request.fromUser.id)], Returned)
  {
  }

  /** After a successful approval a renderable welcome goes to the requester
      exactly once, and the handler returns whether or not the DM arrives. */
  lemma ApprovedRequesterIsWelcomed(request: JoinRequest, template: string)
    requires FormatMessage(template, request.fromUser, request.chat).Success?
    ensures Welcome(request, template, true) == Run(
      [Approve(request.chat.id, request.fromUser.id),
       Send(request.fromUser.id, FormatMessage(template, request.fromUser, request.chat).value)],
      Returned)
  {
  }

  /** No update, or an update that is not a departure, leads to no action. */
  lemma NoFarewellWithoutDeparture(update: Option<MemberUpdate>, template: string)
    requires update.None? || !IsMemberLeft(update.value)
    ensures Goodbye(update, template) == Run([], Returned)
  {
  }

  /** A departure with a renderable farewell leads to exactly one DM, to the
      user named in the new membership and about the chat they left, and the
      handler returns whether or not the DM arrives. */
  lemma DepartedUserIsMessaged(update: MemberUpdate, template: string)
    requires IsMemberLeft(update)
    requires FormatMessage(template, update.newChatMember.user, update.chat).Success?
    ensures Goodbye(Some(update), template) == Run(
      [Send(update.newChatMember.user.id, FormatMessage(template, update.newChatMember.user, update.chat).value)],
      Returned)
  {
  }

  /** With the configured welcome message the handler never raises, and an
      approved requester is sent the welcome with their first name and the
      chat's title filled in. */
  lemma ConfiguredWelcome(request: JoinRequest, approveSucceeds: bool)
    ensures Welcome(request, WelcomeMessage, approveSucceeds).completion == Returned
    ensures approveSucceeds ==> Welcome(request, WelcomeMessage, approveSucceeds).actions == [
      Approve(request.chat.id, request.fromUser.id),
      Send(request.fromUser.id,
        "\U{1F389} <b>Welcome, " + OrElse(request.fromUser.firstName, "") + "!</b>\n\n"
        + "Your request to join <b>" + OrElse(request.chat.title, UntitledChat) + "</b> has been approved.\n"
        + "We're glad to have you here! " + "Feel free to explore and enjoy. \U{1F680}")]
  {
    WelcomeRenders(request.fromUser, request.chat);
  }

  /** With the configured farewell message the handler never raises, and a
      departed user is sent the farewell with their first name and the chat's
      title filled in. */
  lemma ConfiguredFarewell(update: Option<MemberUpdate>)
    ensures Goodbye(update, FarewellMessage).completion == Returned
    ensures update.Some? && IsMemberLeft(update.value) ==>
      Goodbye(update, FarewellMessage).actions == [
        Send(update.value.newChatMember.user.id,
          "\U{1F44B} <b>" + OrElse(update.value.newChatMember.user.firstName, "") + "</b> has left <b>"
          + OrElse(update.value.chat.title, UntitledChat) + "</b>.\n"
          + "We'll miss you! " + "Goodbye and take care. \U{1F499}")]
  {
    if update.Some? {
      FarewellRenders(update.value.newChatMember.user, update.value.chat);
    }
  }
}
