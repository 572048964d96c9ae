/**
 * The bot's handler table: an update goes to "new_question" first and to "new_reply"
 * second, the handler `Route` picks runs on the sender's `user_data` and the shared
 * `bot_data`, and the conversation it belongs to records what the handler returned.
 */
module Dispatch {
  import opened Wrappers
  import opened Text
  import opened Telegram
  import opened Render
  import opened Routing
  import opened Context
  import AskFlow
  import ReplyFlow

  /**
   * A user whose busy flag is set while no reply conversation of theirs is open: every
   * "Reply" press takes the busy branch of `reply_question`, which leaves the flag set,
   * and `/cancel` reaches no reply handler, so nothing clears the flag again.
   */
  ghost predicate LockedOut(k: UserKeys, replyConversations: map<ConvKey, Step>, userId: int) {
    && k.inReplyConversation == Some(true)
    && forall key :: key in replyConversations ==> key.user != userId
  }

  /**
   * One update from `u.sender`, whose `user_data` is `ud`.  The handler run is the one
   * `Route` picks from the two conversations' states for the update's (chat, user); only
   * that handler's conversation moves, and only as `Advance` says.  Each flow writes its
   * own keys only, the question counter moves only when a question is confirmed (by one)
   * and the answer registries only when a reply is confirmed.
   */
  method Handle(u: Update, ud: UserData, bd: BotData, askConv: ConversationHandler,
                replyConv: ConversationHandler, env: Env)
      returns (h: Handler, out: Option<Outcome>, calls: seq<Call>)
    requires askConv != replyConv
    requires askConv.Valid() && replyConv.Valid() && bd.Valid() && ud.Snapshot().Tidy()
    modifies ud, bd, askConv, replyConv
    ensures askConv.Valid() && replyConv.Valid() && bd.Valid() && ud.Snapshot().Tidy()
    ensures h == Route(old(askConv.StateOf(KeyOf(u))), old(replyConv.StateOf(KeyOf(u))), u.kind)
    ensures h.NoHandler? <==> out.None?
    ensures h.NoHandler? ==>
      && calls == [] && ud.Snapshot() == old(ud.Snapshot())
      && askConv.conversations == old(askConv.conversations)
      && replyConv.conversations == old(replyConv.conversations)
    ensures h.InAskFlow() ==>
      && askConv.conversations == Advance(old(askConv.conversations), KeyOf(u), out.value)
      && replyConv.conversations == old(replyConv.conversations)
      && ud.Snapshot().ReplyPart() == old(ud.Snapshot()).ReplyPart()
    ensures h.InReplyFlow() ==>
      && replyConv.conversations == Advance(old(replyConv.conversations), KeyOf(u), out.value)
      && askConv.conversations == old(askConv.conversations)
      && ud.Snapshot().AskPart() == old(ud.Snapshot()).AskPart()
    ensures bd.Count() == old(bd.Count()) + (if h.ConfirmedQuestion? then 1 else 0)
    ensures !h.ConfirmedQuestion? ==> bd.numbersPosted == old(bd.numbersPosted)
    ensures !h.ConfirmedReply? ==>
      bd.answeredQuestions == old(bd.answeredQuestions) && bd.replies == old(bd.replies)
    ensures (h.EditQuestion? || h.EditReply?) ==> ud.Snapshot() == old(ud.Snapshot())
    ensures LockedOut(old(ud.Snapshot()), old(replyConv.conversations), u.sender.id) ==>
      LockedOut(ud.Snapshot(), replyConv.conversations, u.sender.id)
    ensures h.ReplyQuestion? && old(ud.inReplyConversation) == Some(true) ==>
      && out == Some(Returned(End)) && ud.Snapshot() == old(ud.Snapshot())
      && replyConv.conversations == old(replyConv.conversations) - {KeyOf(u)}
    ensures h.ReplyQuestion? ==>
      && ud.inReplyConversation == Some(true)
      && out.value in {Returned(End), Returned(TypingReply), Raised(Malformed)}
  {
    var key := KeyOf(u);
    h := Route(askConv.StateOf(key), replyConv.StateOf(key), u.kind);
    if h.NoHandler? {
      return h, None, [];
    }
    var o: Outcome;
    if h.InAskFlow() {
      o, calls := RunAskHandler(h, u, ud, bd, env);
      askConv.Apply(key, o);
    } else {
      o, calls := RunReplyHandler(h, u, ud, bd, env);
      replyConv.Apply(key, o);
    }
    out := Some(o);
  }

  /** The handlers of "new_question", each on the update kind its pattern admits. */
  method RunAskHandler(h: Handler, u: Update, ud: UserData, bd: BotData, env: Env) returns (out: Outcome, calls: seq<Call>)
    requires h.InAskFlow()
    requires (h.ConfirmQuestion? ==> u.kind.PlainText?) && (h.CancelQuestion? ==> u.kind.Command?)
    requires (h.FollowUpQuestion? || h.ConfirmedQuestion? || h.EditQuestion?) ==> u.kind.Callback?
    requires bd.Valid() && ud.Snapshot().Tidy()
    modifies ud, bd`noOfQuestions, bd`numbersPosted
    ensures bd.Valid() && ud.Snapshot().Tidy()
    ensures ud.Snapshot().ReplyPart() == old(ud.Snapshot()).ReplyPart()
    ensures bd.Count() == old(bd.Count()) + (if h.ConfirmedQuestion? then 1 else 0)
    ensures !h.ConfirmedQuestion? ==> bd.numbersPosted == old(bd.numbersPosted)
    ensures h.EditQuestion? ==> ud.Snapshot() == old(ud.Snapshot())
  {
    match h {
      case AskQuestion =>
        out, calls := AskFlow.AskQuestion(u.kind.message, ud, env);
      case FollowUpQuestion =>
        out, calls := AskFlow.FollowUpQuestion(u, ud, bd, env);
      case ConfirmQuestion =>
        out, calls := AskFlow.ConfirmQuestion(u, ud);
      case ConfirmedQuestion =>
        out, calls := AskFlow.ConfirmedQuestion(u, ud, bd, env);
      case EditQuestion =>
        out, calls := AskFlow.EditQuestion(u);
      case CancelQuestion =>
        out, calls := AskFlow.CancelQuestion(u, ud, env);
    }
  }

  /** The handlers of "new_reply", each on the update kind its pattern admits. */
  method RunReplyHandler(h: Handler, u: Update, ud: UserData, bd: BotData, env: Env) returns (out: Outcome, calls: seq<Call>)
    requires h.InReplyFlow()
    requires (h.ConfirmReply? ==> u.kind.PlainText?) && (h.CancelReply? ==> u.kind.Command?)
    requires (h.ReplyQuestion? || h.ConfirmedReply? || h.EditReply?) ==> u.kind.Callback?
    requires ud.Snapshot().Tidy()
    modifies ud, bd`answeredQuestions, bd`replies
    ensures ud.Snapshot().Tidy()
    ensures ud.Snapshot().AskPart() == old(ud.Snapshot()).AskPart()
    ensures !h.ConfirmedReply? ==> bd.answeredQuestions == old(bd.answeredQuestions) && bd.replies == old(bd.replies)
    ensures h.EditReply? ==> ud.Snapshot() == old(ud.Snapshot())
    ensures h.ReplyQuestion? && old(ud.inReplyConversation) == Some(true) ==>
      out == Returned(End) && ud.Snapshot() == old(ud.Snapshot())
    ensures h.ReplyQuestion? ==>
      ud.inReplyConversation == Some(true) && out in {Returned(End), Returned(TypingReply), Raised(Malformed)}
  {
    match h {
      case ReplyQuestion =>
        out, calls := ReplyFlow.ReplyQuestion(u, ud, env);
      case ConfirmReply =>
        out, calls := ReplyFlow.ConfirmReply(u, ud);
      case ConfirmedReply =>
        out, calls := ReplyFlow.ConfirmedReply(u, ud, bd, env);
      case EditReply =>
        out, calls := ReplyFlow.EditReply(u);
      case CancelReply =>
        out, calls := ReplyFlow.CancelReply(u, ud, env);
    }
  }

  /** A "Reply" press with no question open reaches `reply_question`, outside a reply or while typing one. */
  lemma ReplyPressReachesReplyQuestion(reply: Option<Step>, askerId: int, m: Msg)
    requires reply == None || reply == Some(TypingReply)
    ensures Route(None, reply, Callback(ReplyData(askerId), m)) == ReplyQuestion
  {
    ReplyDataRoundTrip(askerId);
    assert !StartsWith(ReplyData(askerId), "follow_up") by {
      assert ReplyData(askerId)[0] == 'r';
    }
  }

  /**
   * A committee member who, while typing a reply to one posted question, presses "Reply"
   * under another question in the same chat ends up locked out.  The first press removes
   * its own button (`edit_reply_markup`), but the other question still has one.  The
   * second press takes the busy branch, which ends the reply conversation but leaves the
   * busy flag set.  `Handle` shows that nothing clears it afterwards.
   */
  method ReplyToAnotherQuestion(sender: User, first: Msg, second: Msg, firstAsker: int, secondAsker: int,
                                firstEnv: Env, secondEnv: Env)
      returns (ud: UserData, replyConv: ConversationHandler)
    requires first.chat == second.chat
    ensures LockedOut(ud.Snapshot(), replyConv.conversations, sender.id)
  {
    ud := new UserData();
    var bd := new BotData();
    var askConv := new ConversationHandler();
    replyConv := new ConversationHandler();
    var press := Update(sender, Callback(ReplyData(firstAsker), first));
    ReplyPressReachesReplyQuestion(None, firstAsker, first);
    var h, out, calls := Handle(press, ud, bd, askConv, replyConv, firstEnv);
    assert replyConv.conversations == map[] || replyConv.conversations == map[KeyOf(press) := TypingReply];
    var again := Update(sender, Callback(ReplyData(secondAsker), second));
    assert KeyOf(again) == KeyOf(press);
    ReplyPressReachesReplyQuestion(replyConv.StateOf(KeyOf(press)), secondAsker, second);
    h, out, calls := Handle(again, ud, bd, askConv, replyConv, secondEnv);
    assert replyConv.conversations == map[];
  }
}
