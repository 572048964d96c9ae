/**
 * The handler table of `main()`: two conversation handlers, "new_question" (the Ask flow)
 * and "new_reply" (the Reply flow), registered in that order in the same handler group, so
 * an update goes to the first of them that accepts it.  Two handlers come before both in
 * that group and are not part of this model: `/start`, and plain text from the wix form's
 * account, never reach either conversation.  A conversation handler with no
 * conversation for the update's (chat, user) key accepts only its entry points; inside a
 * conversation it accepts the handlers of the current state, then its fallbacks.
 */
module Routing {
  import opened Wrappers
  import opened Text
  import opened Telegram

  /** The value a handler returns: `ConversationHandler.END`, `TYPING_REPLY`, `CONFIRM_MESSAGE`. */
  datatype Step = End | TypingReply | ConfirmMessage

  /** Conversations are kept per (chat id, user id). */
  datatype ConvKey = ConvKey(chat: int, user: int)

  function KeyOf(u: Update): ConvKey {
    ConvKey(u.Chat(), u.sender.id)
  }

  datatype Handler =
    | AskQuestion | FollowUpQuestion | ConfirmQuestion | ConfirmedQuestion | EditQuestion | CancelQuestion
    | ReplyQuestion | ConfirmReply | ConfirmedReply | EditReply | CancelReply
    | NoHandler
  {
    predicate InAskFlow() {
      AskQuestion? || FollowUpQuestion? || ConfirmQuestion? || ConfirmedQuestion? || EditQuestion? || CancelQuestion?
    }
    predicate InReplyFlow() {
      ReplyQuestion? || ConfirmReply? || ConfirmedReply? || EditReply? || CancelReply?
    }
  }

  predicate IsCommand(k: Kind, name: string) {
    k.Command? && k.name == name
  }

  /** `CallbackQueryHandler(pattern="^(p)")`: the data starts with `p`. */
  predicate CallbackStarts(k: Kind, p: string) {
    k.Callback? && StartsWith(k.data, p)
  }

  /** `CallbackQueryHandler(pattern="^(p)$")`: the data is exactly `p`. */
  predicate CallbackIs(k: Kind, p: string) {
    k.Callback? && k.data == p
  }

  /** Which handler of "new_question" accepts the update, if any. */
  function AskFlowHandler(state: Option<Step>, k: Kind): Option<Handler> {
    match state
    case None =>
      if IsCommand(k, "ask_question") then Some(AskQuestion)
      else if CallbackStarts(k, "follow_up") then Some(FollowUpQuestion)
      else None
    case Some(s) =>
      if s == TypingReply && k.PlainText? then Some(ConfirmQuestion)
      else if s == ConfirmMessage && CallbackIs(k, "confirm") then Some(ConfirmedQuestion)
      else if s == ConfirmMessage && CallbackIs(k, "edit") then Some(EditQuestion)
      else if IsCommand(k, "cancel") then Some(CancelQuestion)
      else None
  }

  /** Which handler of "new_reply" accepts the update, if any. */
  function ReplyFlowHandler(state: Option<Step>, k: Kind): Option<Handler> {
    match state
    case None =>
      if CallbackStarts(k, "reply") || CallbackStarts(k, "edit_response") then Some(ReplyQuestion)
      else None
    case Some(s) =>
      if s == TypingReply && k.PlainText? then Some(ConfirmReply)
      else if s == TypingReply && CallbackStarts(k, "reply") then Some(ReplyQuestion)
      else if s == ConfirmMessage && CallbackIs(k, "confirm") then Some(ConfirmedReply)
      else if s == ConfirmMessage && CallbackIs(k, "edit") then Some(EditReply)
      else if IsCommand(k, "cancel") then Some(CancelReply)
      else None
  }

  /**
   * The handler an update reaches, given the state of each flow for the update's key.
   * Entry points fire only outside a conversation, state handlers only in their state,
   * and the Ask flow is asked first.
   */
  function Route(ask: Option<Step>, reply: Option<Step>, k: Kind): (h: Handler)
    requires ask != Some(End) && reply != Some(End)
    ensures h.InAskFlow() ==> AskFlowHandler(ask, k) == Some(h)
    ensures h.InReplyFlow() ==> AskFlowHandler(ask, k).None? && ReplyFlowHandler(reply, k) == Some(h)
    ensures (h.AskQuestion? || h.FollowUpQuestion?) ==> ask.None?
    ensures h.ConfirmQuestion? ==> ask == Some(TypingReply) && k.PlainText?
    ensures (h.ConfirmedQuestion? || h.EditQuestion?) ==> ask == Some(ConfirmMessage) && k.Callback?
    ensures h.CancelQuestion? ==> ask.Some? && k.Command?
    ensures h.ReplyQuestion? ==> (reply.None? || reply == Some(TypingReply)) && k.Callback?
    ensures h.ConfirmReply? ==> reply == Some(TypingReply) && k.PlainText?
    ensures (h.ConfirmedReply? || h.EditReply?) ==> reply == Some(ConfirmMessage) && k.Callback?
    ensures h.CancelReply? ==> reply.Some? && k.Command?
    ensures h.NoHandler? <==> AskFlowHandler(ask, k).None? && ReplyFlowHandler(reply, k).None?
  {
    match AskFlowHandler(ask, k)
    case Some(h) => h
    case None =>
      match ReplyFlowHandler(reply, k)
      case Some(h) => h
      case None => NoHandler
  }

  /** `/cancel` in a chat where a question is being asked cancels the question, whatever the Reply flow is doing. */
  lemma CancelPrefersAskFlow(ask: Option<Step>, reply: Option<Step>, m: Msg)
    requires ask.Some? && ask != Some(End) && reply != Some(End)
    ensures Route(ask, reply, Command("cancel", m)) == CancelQuestion
  {
  }

  /** While a reply is being typed, another "reply" button press re-enters `reply_question`. */
  lemma ReplyButtonReentersWhileTyping(ask: Option<Step>, data: string, m: Msg)
    requires ask != Some(End)
    requires StartsWith(data, "reply")
    ensures Route(ask, Some(TypingReply), Callback(data, m)) == ReplyQuestion
  {
    assert data[0] == data[..5][0] == 'r';
  }
}
