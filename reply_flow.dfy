/**
 * The Reply flow ("new_reply"): a committee member presses "Reply" (or "Edit Response"
 * to amend an earlier reply) under a posted question, types the reply, confirms it, and
 * the bot delivers it to the asker and records it on the question.  A per-user busy flag,
 * "in_reply_conversation", refuses a second reply while one is open.
 */
module ReplyFlow {
  import opened Wrappers
  import opened Text
  import opened Telegram
  import opened Render
  import opened Routing
  import opened Context

  /**
   * `reply_question`.  When the busy flag is set it only sends a guidance message and
   * returns END, touching no key.  Otherwise it sets the flag first, then stores
   * "reply_info" (asker id from the data's second word, the pressed message's text, id and
   * chat), tracks the prompt it sends as the only scratch message and as "curr_convo",
   * appends the data's third word to "reply_info" when the first word is "edit_response",
   * and removes the buttons of the pressed message.  Unreadable data raises, leaving
   * whatever was already written, the flag included.
   */
  method ReplyQuestion(u: Update, ud: UserData, env: Env) returns (out: Outcome, calls: seq<Call>)
    requires u.kind.Callback?
    requires ud.replyToDelete.Some? ==> ud.replyToDelete.value.Valid()
    modifies ud
    ensures ud.Snapshot().AskPart() == old(ud.Snapshot()).AskPart()
    ensures ud.replyToDelete.Some? ==> ud.replyToDelete.value.Valid()
    ensures var cb, data, was := u.kind.message, u.kind.data, old(ud.Snapshot());
      var asker, amending := IntWordAt(data, 1), WordAt(data, 0) == Some("edit_response");
      var info := ReplyInfo(asker.GetOr(0), cb.text, cb.id, cb.chat, if amending then IntWordAt(data, 2) else None);
      var entered := was.(inReplyConversation := Some(true), replyInfo := Some(info.(replyId := None)),
                         replyToDelete := Some(Single(env.newMessageId, cb.chat)),
                         currConvo := Some(MsgRef(cb.chat, env.newMessageId)));
      && (was.inReplyConversation == Some(true) ==>
            out == Returned(End) && calls == [AnswerCallback, SendMessage(cb.chat, BusyGuidance, [])]
            && ud.Snapshot() == was)
      && (was.inReplyConversation != Some(true) && asker.None? ==>
            out == Raised(Malformed) && calls == [AnswerCallback]
            && ud.Snapshot() == was.(inReplyConversation := Some(true)))
      && (was.inReplyConversation != Some(true) && asker.Some? && amending && info.replyId.None? ==>
            out == Raised(Malformed) && calls == [AnswerCallback, ReplyText(cb.Ref(), ReplyPrompt, [])]
            && ud.Snapshot() == entered)
      && (was.inReplyConversation != Some(true) && asker.Some? && !(amending && info.replyId.None?) ==>
            && out == Returned(TypingReply)
            && calls == [AnswerCallback, ReplyText(cb.Ref(), ReplyPrompt, []), ClearButtons(cb.Ref())]
            && ud.Snapshot() == entered.(replyInfo := Some(info)))
  {
    var cb, data := u.kind.message, u.kind.data;
    calls := [AnswerCallback];
    if ud.inReplyConversation == Some(true) {
      calls := calls + [SendMessage(cb.chat, BusyGuidance, [])];
      return Returned(End), calls;
    }
    ud.inReplyConversation := Some(true);
    var asker := IntWordAt(data, 1);
    if asker.None? {
      return Raised(Malformed), calls;
    }
    ud.replyInfo := Some(ReplyInfo(asker.value, cb.text, cb.id, cb.chat, None));
    ud.replyToDelete := Some(EmptyScratch());
    calls := calls + [ReplyText(cb.Ref(), ReplyPrompt, [])];
    var prompt := env.newMessageId;
    ud.replyToDelete := Some(ud.replyToDelete.value.Track(prompt, cb.chat));
    assert ud.replyToDelete.value == Single(prompt, cb.chat) by {
      assert [] + [prompt] == [prompt];
    }
    ud.currConvo := Some(MsgRef(cb.chat, prompt));
    if WordAt(data, 0) == Some("edit_response") {
      var replyId := IntWordAt(data, 2);
      if replyId.None? {
        return Raised(Malformed), calls;
      }
      ud.replyInfo := Some(ud.replyInfo.value.(replyId := replyId));
    }
    calls := calls + [ClearButtons(cb.Ref())];
    out := Returned(TypingReply);
  }

  /**
   * `confirm_reply`: the text becomes "reply_msg", the user's message is tracked, and the
   * prompt ("curr_convo") shows the draft under Confirm/Edit.
   */
  method ConfirmReply(u: Update, ud: UserData) returns (out: Outcome, calls: seq<Call>)
    requires u.kind.PlainText?
    requires ud.replyToDelete.Some? ==> ud.replyToDelete.value.Valid()
    modifies ud
    ensures ud.Snapshot().AskPart() == old(ud.Snapshot()).AskPart()
    ensures ud.replyToDelete.Some? ==> ud.replyToDelete.value.Valid()
    ensures var m, was := u.kind.message, old(ud.Snapshot());
      && (was.replyToDelete.None? ==>
            out == Raised(KeyError("reply_to_delete")) && calls == []
            && ud.Snapshot() == was.(replyMsg := Some(m.text)))
      && (was.replyToDelete.Some? && was.currConvo.None? ==>
            out == Raised(KeyError("curr_convo")) && calls == []
            && ud.Snapshot() == was.(replyMsg := Some(m.text),
                                     replyToDelete := Some(was.replyToDelete.value.Track(m.id, m.chat))))
      && (was.replyToDelete.Some? && was.currConvo.Some? ==>
            && out == Returned(ConfirmMessage)
            && calls == [EditText(was.currConvo.value, ConfirmReplyPrefix + m.text, ConfirmEditButtons)]
            && ud.Snapshot() == was.(replyMsg := Some(m.text),
                                     replyToDelete := Some(was.replyToDelete.value.Track(m.id, m.chat))))
  {
    var m := u.kind.message;
    calls := [];
    ud.replyMsg := Some(m.text);
    if ud.replyToDelete.None? {
      return Raised(KeyError("reply_to_delete")), calls;
    }
    ud.replyToDelete := Some(ud.replyToDelete.value.Track(m.id, m.chat));
    if ud.currConvo.None? {
      return Raised(KeyError("curr_convo")), calls;
    }
    calls := [EditText(ud.currConvo.value, ConfirmReplyPrefix + m.text, ConfirmEditButtons)];
    out := Returned(ConfirmMessage);
  }

  /** `edit_reply`: asks for the reply again; no key of `user_data` is read or written. */
  method EditReply(u: Update) returns (out: Outcome, calls: seq<Call>)
    requires u.kind.Callback?
    ensures out == Returned(TypingReply)
    ensures calls == [AnswerCallback, EditText(u.kind.message.Ref(), RetypeReply, [])]
  {
    calls := [AnswerCallback, EditText(u.kind.message.Ref(), RetypeReply, [])];
    out := Returned(TypingReply);
  }

  /**
   * Everything `confirmed_reply` reads or deletes is there and the question text has a
   * third paragraph.
   */
  predicate ReadyToSend(k: UserKeys, answered: map<int, Answered>, replies: map<int, map<int, ReplyRecord>>) {
    && k.replyMsg.Some?
    && k.replyInfo.Some?
    && k.currConvo.Some?
    && ParagraphAt(k.replyInfo.value.text, 2).Some?
    && (k.replyInfo.value.IsAmendment() ==>
          var info := k.replyInfo.value;
          info.askerId in replies && info.replyId.value in replies[info.askerId] && info.msgId in answered)
    && k.replyToDelete.Some?
  }

  /** `replies[asker]`, empty while absent. */
  function RepliesTo(replies: map<int, map<int, ReplyRecord>>, askerId: int): map<int, ReplyRecord> {
    if askerId in replies then replies[askerId] else map[]
  }

  /** The keys `confirmed_reply` and `cancel_reply` leave: the flow's keys gone, the flag cleared. */
  function ReplyClosed(k: UserKeys): UserKeys {
    k.(replyMsg := None, replyInfo := None, currConvo := None, inReplyConversation := Some(false), replyToDelete := None)
  }

  /**
   * `confirmed_reply`.  A first reply is sent to the asker's private chat with a
   * follow-up button; an amendment ("reply_info" has a fifth element) instead edits the
   * reply delivered before, rebuilding it from the header and template stored with it plus
   * a "Last Edit by" line, and adds a notice under it.  Either way the question's message
   * is edited into its "[REPLIED]" record with an "Edit Response" button, both registries
   * are overwritten for this question and this reply, the flow's keys are dropped, the flag
   * is cleared and every tracked message is deleted.  The two ways on are
   * `SendFirstReply` and `SendAmendedReply`.
   */
  method ConfirmedReply(u: Update, ud: UserData, bd: BotData, env: Env) returns (out: Outcome, calls: seq<Call>)
    requires u.kind.Callback?
    requires ud.replyToDelete.Some? ==> ud.replyToDelete.value.Valid()
    modifies ud, bd`answeredQuestions, bd`replies
    ensures ud.Snapshot().AskPart() == old(ud.Snapshot()).AskPart()
    ensures ud.replyToDelete.Some? ==> ud.replyToDelete.value.Valid()
    ensures var was, cb := old(ud.Snapshot()), u.kind.message;
      (was.replyMsg.None? || was.replyInfo.None?) ==>
        && out == Raised(KeyError(if was.replyMsg.None? then "reply_msg" else "reply_info"))
        && calls == [AnswerCallback, EditText(cb.Ref(), SendingReply, [])]
        && ud.Snapshot() == was && bd.answeredQuestions == old(bd.answeredQuestions) && bd.replies == old(bd.replies)
    ensures var was, cb := old(ud.Snapshot()), u.kind.message;
      (was.replyMsg.Some? && was.replyInfo.Some? && ParagraphAt(was.replyInfo.value.text, 2).None?) ==>
        && out == Raised(Malformed)
        && calls == [AnswerCallback, EditText(cb.Ref(), SendingReply, [])]
        && ud.Snapshot() == was && bd.answeredQuestions == old(bd.answeredQuestions) && bd.replies == old(bd.replies)
    ensures old(ud.currConvo).None? ==>
      out.Raised? && ud.inReplyConversation == old(ud.inReplyConversation) && ud.replyToDelete == old(ud.replyToDelete)
    ensures var was := old(ud.Snapshot());
      ReadyToSend(was, old(bd.answeredQuestions), old(bd.replies)) && !was.replyInfo.value.IsAmendment() ==>
        FirstReplySent(u, env, was, ud.Snapshot(), old(bd.answeredQuestions), bd.answeredQuestions,
                       old(bd.replies), bd.replies, out, calls)
    ensures var was := old(ud.Snapshot());
      ReadyToSend(was, old(bd.answeredQuestions), old(bd.replies)) && was.replyInfo.value.IsAmendment() ==>
        AmendedReplySent(u, env, was, ud.Snapshot(), old(bd.answeredQuestions), bd.answeredQuestions,
                         old(bd.replies), bd.replies, out, calls)
  {
    var cb := u.kind.message;
    calls := [AnswerCallback, EditText(cb.Ref(), SendingReply, [])];
    if ud.replyMsg.None? {
      return Raised(KeyError("reply_msg")), calls;
    }
    if ud.replyInfo.None? {
      return Raised(KeyError("reply_info")), calls;
    }
    if ParagraphAt(ud.replyInfo.value.text, 2).None? {
      return Raised(Malformed), calls;
    }
    if ud.replyInfo.value.IsAmendment() {
      out, calls := SendAmendedReply(u, ud, bd, env, calls);
    } else {
      out, calls := SendFirstReply(u, ud, bd, env, calls);
    }
  }

  /**
   * The state after a first reply: sent to the asker with a follow-up button, recorded
   * under its new id, the question's message turned into its "[REPLIED]" record, the flow
   * closed and its tracked messages deleted.
   */
  ghost predicate FirstReplySent(u: Update, env: Env, was: UserKeys, now: UserKeys,
                                 answered0: map<int, Answered>, answered: map<int, Answered>,
                                 replies0: map<int, map<int, ReplyRecord>>, replies: map<int, map<int, ReplyRecord>>,
                                 out: Outcome, calls: seq<Call>)
    requires u.kind.Callback? && ReadyToSend(was, answered0, replies0) && was.replyToDelete.value.Valid()
  {
    var info, msg, cb, who := was.replyInfo.value, was.replyMsg.value, u.kind.message, u.sender;
    var header, template := ReplyHeader(who), ReplyTemplate(ParagraphAt(info.text, 2).value);
    var delivered := Msg(info.askerId, env.newMessageId, DeliveredReply(header, template, msg));
    var recordTemplate := RepliedTemplate(info.text, who, env.date);
    var record := RepliedRecord(recordTemplate, msg);
    && out == Returned(End)
    && now == ReplyClosed(was)
    && answered == answered0[info.msgId := Answered(Msg(info.chat, info.msgId, record), recordTemplate)]
    && replies == replies0[info.askerId := RepliesTo(replies0, info.askerId)[delivered.id := ReplyRecord(delivered, header, template)]]
    && |calls| == 5 + |was.replyToDelete.value.order|
    && calls[..5] == [AnswerCallback, EditText(cb.Ref(), SendingReply, []),
                      SendMessage(info.askerId, delivered.text, [FollowUpButton(info.msgId)]),
                      EditText(cb.Ref(), ReplySubmitted, []),
                      EditText(MsgRef(info.chat, info.msgId), record, [EditResponseButton(info.askerId, delivered.id)])]
    && DeletesExactly(calls[5..], was.replyToDelete.value)
  }

  /**
   * The state after an amendment: the reply delivered before is rebuilt from its stored
   * header and template with a "Last Edit by" line and keeps its id, the question's record
   * keeps its stored template and gets a "Last Edit" line, the flow is closed and its
   * tracked messages deleted.
   */
  ghost predicate AmendedReplySent(u: Update, env: Env, was: UserKeys, now: UserKeys,
                                   answered0: map<int, Answered>, answered: map<int, Answered>,
                                   replies0: map<int, map<int, ReplyRecord>>, replies: map<int, map<int, ReplyRecord>>,
                                   out: Outcome, calls: seq<Call>)
    requires u.kind.Callback? && ReadyToSend(was, answered0, replies0) && was.replyToDelete.value.Valid()
    requires was.replyInfo.value.IsAmendment()
  {
    var info, msg, cb, who := was.replyInfo.value, was.replyMsg.value, u.kind.message, u.sender;
    var prev := replies0[info.askerId][info.replyId.value];
    var recordTemplate := answered0[info.msgId].template;
    var delivered := Msg(prev.message.chat, prev.message.id, AmendedReply(prev.header, who, prev.template, msg));
    var record := AmendedRecord(recordTemplate, who, env.date, msg);
    && out == Returned(End)
    && now == ReplyClosed(was)
    && answered == answered0[info.msgId := Answered(Msg(info.chat, info.msgId, record), recordTemplate)]
    && replies == replies0[info.askerId := replies0[info.askerId][delivered.id := ReplyRecord(delivered, prev.header, prev.template)]]
    && |calls| == 6 + |was.replyToDelete.value.order|
    && calls[..6] == [AnswerCallback, EditText(cb.Ref(), SendingReply, []),
                      EditText(prev.message.Ref(), delivered.text, [FollowUpButton(info.msgId)]),
                      ReplyText(prev.message.Ref(), ReplyEditedNotice, []),
                      EditText(cb.Ref(), ReplySubmitted, []),
                      EditText(MsgRef(info.chat, info.msgId), record, [EditResponseButton(info.askerId, delivered.id)])]
    && DeletesExactly(calls[6..], was.replyToDelete.value)
  }

  /** `confirmed_reply` from line 286 on, for a first reply: the message sent to the asker. */
  method SendFirstReply(u: Update, ud: UserData, bd: BotData, env: Env, sent: seq<Call>) returns (out: Outcome, calls: seq<Call>)
    requires u.kind.Callback? && ud.replyMsg.Some? && ud.replyInfo.Some? && !ud.replyInfo.value.IsAmendment()
    requires ParagraphAt(ud.replyInfo.value.text, 2).Some?
    requires ud.replyToDelete.Some? ==> ud.replyToDelete.value.Valid()
    requires sent == [AnswerCallback, EditText(u.kind.message.Ref(), SendingReply, [])]
    modifies ud, bd`answeredQuestions, bd`replies
    ensures ud.Snapshot().AskPart() == old(ud.Snapshot()).AskPart()
    ensures ud.replyToDelete.Some? ==> ud.replyToDelete.value.Valid()
    ensures ReadyToSend(old(ud.Snapshot()), old(bd.answeredQuestions), old(bd.replies)) ==>
      FirstReplySent(u, env, old(ud.Snapshot()), ud.Snapshot(), old(bd.answeredQuestions), bd.answeredQuestions,
                     old(bd.replies), bd.replies, out, calls)
    ensures old(ud.currConvo).None? ==>
      var info, msg, cb, who := old(ud.replyInfo.value), old(ud.replyMsg.value), u.kind.message, u.sender;
      var header, template := ReplyHeader(who), ReplyTemplate(ParagraphAt(info.text, 2).value);
      var delivered := Msg(info.askerId, env.newMessageId, DeliveredReply(header, template, msg));
      var recordTemplate := RepliedTemplate(info.text, who, env.date);
      var record := RepliedRecord(recordTemplate, msg);
      && out == Raised(KeyError("curr_convo"))
      && ud.Snapshot() == old(ud.Snapshot()).(replyMsg := None, replyInfo := None)
      && calls == sent + [SendMessage(info.askerId, delivered.text, [FollowUpButton(info.msgId)]),
                          EditText(cb.Ref(), ReplySubmitted, []),
                          EditText(MsgRef(info.chat, info.msgId), record, [EditResponseButton(info.askerId, delivered.id)])]
      && bd.answeredQuestions == old(bd.answeredQuestions)[info.msgId := Answered(Msg(info.chat, info.msgId, record), recordTemplate)]
      && bd.replies == old(bd.replies)[info.askerId := RepliesTo(old(bd.replies), info.askerId)[delivered.id := ReplyRecord(delivered, header, template)]]
  {
    var cb, who, msg, info := u.kind.message, u.sender, ud.replyMsg.value, ud.replyInfo.value;
    var header, template := ReplyHeader(who), ReplyTemplate(ParagraphAt(info.text, 2).value);
    var delivered := Msg(info.askerId, env.newMessageId, DeliveredReply(header, template, msg));
    var recordTemplate := RepliedTemplate(info.text, who, env.date);
    var record := RepliedRecord(recordTemplate, msg);
    calls := sent + [SendMessage(info.askerId, delivered.text, [FollowUpButton(info.msgId)]),
                     EditText(cb.Ref(), ReplySubmitted, []),
                     EditText(MsgRef(info.chat, info.msgId), record, [EditResponseButton(info.askerId, delivered.id)])];
    bd.answeredQuestions := bd.answeredQuestions[info.msgId := Answered(Msg(info.chat, info.msgId, record), recordTemplate)];
    bd.replies := bd.replies[info.askerId := RepliesTo(bd.replies, info.askerId)[delivered.id := ReplyRecord(delivered, header, template)]];
    out, calls := CloseReplyFlow(ud, calls);
  }

  /** `confirmed_reply` from line 286 on, for an amendment: the earlier reply edited in place. */
  method SendAmendedReply(u: Update, ud: UserData, bd: BotData, env: Env, sent: seq<Call>) returns (out: Outcome, calls: seq<Call>)
    requires u.kind.Callback? && ud.replyMsg.Some? && ud.replyInfo.Some? && ud.replyInfo.value.IsAmendment()
    requires ud.replyToDelete.Some? ==> ud.replyToDelete.value.Valid()
    requires sent == [AnswerCallback, EditText(u.kind.message.Ref(), SendingReply, [])]
    modifies ud, bd`answeredQuestions, bd`replies
    ensures ud.Snapshot().AskPart() == old(ud.Snapshot()).AskPart()
    ensures ud.replyToDelete.Some? ==> ud.replyToDelete.value.Valid()
    ensures ReadyToSend(old(ud.Snapshot()), old(bd.answeredQuestions), old(bd.replies)) ==>
      AmendedReplySent(u, env, old(ud.Snapshot()), ud.Snapshot(), old(bd.answeredQuestions), bd.answeredQuestions,
                       old(bd.replies), bd.replies, out, calls)
    ensures old(bd.ReplyOf(ud.replyInfo.value.askerId, ud.replyInfo.value.replyId.value)).None? ==>
      out == Raised(KeyError("replies")) && calls == sent && unchanged(ud, bd)
    ensures old(ud.currConvo).None? ==>
      out.Raised? && ud.inReplyConversation == old(ud.inReplyConversation) && ud.replyToDelete == old(ud.replyToDelete)
  {
    var cb, who, msg, info := u.kind.message, u.sender, ud.replyMsg.value, ud.replyInfo.value;
    var prev := bd.ReplyOf(info.askerId, info.replyId.value);
    if prev.None? {
      return Raised(KeyError("replies")), sent;
    }
    var header, template := prev.value.header, prev.value.template;
    var delivered := Msg(prev.value.message.chat, prev.value.message.id, AmendedReply(header, who, template, msg));
    calls := sent + [EditText(delivered.Ref(), delivered.text, [FollowUpButton(info.msgId)]),
                     ReplyText(delivered.Ref(), ReplyEditedNotice, []),
                     EditText(cb.Ref(), ReplySubmitted, [])];
    if info.msgId !in bd.answeredQuestions {
      return Raised(KeyError("answered_questions")), calls;
    }
    var recordTemplate := bd.answeredQuestions[info.msgId].template;
    var record := AmendedRecord(recordTemplate, who, env.date, msg);
    calls := calls + [EditText(MsgRef(info.chat, info.msgId), record, [EditResponseButton(info.askerId, delivered.id)])];
    bd.answeredQuestions := bd.answeredQuestions[info.msgId := Answered(Msg(info.chat, info.msgId, record), recordTemplate)];
    bd.replies := bd.replies[info.askerId := bd.replies[info.askerId][delivered.id := ReplyRecord(delivered, header, template)]];
    out, calls := CloseReplyFlow(ud, calls);
  }

  /**
   * The end of `confirmed_reply`: "reply_msg" and "reply_info" dropped; a KeyError when
   * "curr_convo" is missing; otherwise it is dropped too, the flag cleared, and every
   * tracked message deleted, or a KeyError when nothing was tracked.
   */
  method CloseReplyFlow(ud: UserData, sent: seq<Call>) returns (out: Outcome, calls: seq<Call>)
    requires ud.replyMsg.Some? && ud.replyInfo.Some?
    requires ud.replyToDelete.Some? ==> ud.replyToDelete.value.Valid()
    modifies ud
    ensures ud.Snapshot().AskPart() == old(ud.Snapshot()).AskPart()
    ensures ud.replyToDelete.Some? ==> ud.replyToDelete.value.Valid()
    ensures old(ud.currConvo).None? ==>
      out == Raised(KeyError("curr_convo")) && calls == sent
      && ud.Snapshot() == old(ud.Snapshot()).(replyMsg := None, replyInfo := None)
    ensures old(ud.currConvo).Some? && old(ud.replyToDelete).None? ==>
      out == Raised(KeyError("reply_to_delete")) && calls == sent
      && ud.Snapshot() == old(ud.Snapshot()).(replyMsg := None, replyInfo := None, currConvo := None, inReplyConversation := Some(false))
    ensures old(ud.currConvo).Some? && old(ud.replyToDelete).Some? ==>
      && out == Returned(End) && ud.Snapshot() == ReplyClosed(old(ud.Snapshot()))
      && |calls| == |sent| + |old(ud.replyToDelete).value.order|
      && calls[..|sent|] == sent && DeletesExactly(calls[|sent|..], old(ud.replyToDelete).value)
  {
    ud.replyMsg, ud.replyInfo := None, None;
    if ud.currConvo.None? {
      return Raised(KeyError("curr_convo")), sent;
    }
    ud.currConvo := None;
    ud.inReplyConversation := Some(false);
    if ud.replyToDelete.None? {
      return Raised(KeyError("reply_to_delete")), sent;
    }
    var deletes := DeleteAll(ud.replyToDelete.value);
    calls := sent + deletes;
    ud.replyToDelete := None;
    out := Returned(End);
    assert calls[..|sent|] == sent && calls[|sent|..] == deletes;
  }

  /** The one button `cancel_reply` puts back: "Edit Response" when amending, "Reply" otherwise. */
  function RestoredButton(info: ReplyInfo): Button {
    match info.replyId
    case Some(replyId) => EditResponseButton(info.askerId, replyId)
    case None => ReplyButton(info.askerId)
  }

  /**
   * `cancel_reply`: tracks the `/cancel` message, tries to restore the pressed message's
   * text and its one button (a failure is swallowed, so the outcome does not depend on
   * it), acknowledges, drops the flow's keys, clears the flag, and deletes every tracked
   * message and then the acknowledgement.
   */
  method CancelReply(u: Update, ud: UserData, env: Env) returns (out: Outcome, calls: seq<Call>)
    requires u.kind.Command?
    requires ud.replyToDelete.Some? ==> ud.replyToDelete.value.Valid()
    modifies ud
    ensures ud.Snapshot().AskPart() == old(ud.Snapshot()).AskPart()
    ensures ud.replyToDelete.Some? ==> ud.replyToDelete.value.Valid()
    ensures var was := old(ud.Snapshot());
      was.replyToDelete.None? ==> out == Raised(KeyError("reply_to_delete")) && calls == [] && ud.Snapshot() == was
    ensures var was, m := old(ud.Snapshot()), u.kind.message;
      was.replyToDelete.Some? ==>
        var tracked := was.replyToDelete.value.Track(m.id, m.chat);
        var restore := match was.replyInfo
          case Some(info) => [EditText(MsgRef(info.chat, info.msgId), info.text, [RestoredButton(info)])]
          case None => [];
        var head := restore + [ReplyText(m.Ref(), ReplyCancelledAck, [])];
        && out == Returned(End)
        && ud.Snapshot() == ReplyClosed(was)
        && |calls| == |head| + |tracked.order| + 1
        && calls[..|head|] == head
        && DeletesExactly(calls[|head|..|calls| - 1], tracked)
        && calls[|calls| - 1] == DeleteMessage(MsgRef(m.chat, env.newMessageId))
  {
    var m := u.kind.message;
    calls := [];
    if ud.replyToDelete.None? {
      return Raised(KeyError("reply_to_delete")), calls;
    }
    ud.replyToDelete := Some(ud.replyToDelete.value.Track(m.id, m.chat));
    if ud.replyInfo.Some? {
      var info := ud.replyInfo.value;
      calls := [EditText(MsgRef(info.chat, info.msgId), info.text, [RestoredButton(info)])];
    }
    calls := calls + [ReplyText(m.Ref(), ReplyCancelledAck, [])];
    var ack := MsgRef(m.chat, env.newMessageId);
    ud.replyMsg, ud.replyInfo, ud.currConvo := None, None, None;
    ud.inReplyConversation := Some(false);
    ghost var head := calls;
    var deletes := DeleteAll(ud.replyToDelete.value);
    calls := calls + deletes + [DeleteMessage(ack)];
    ud.replyToDelete := None;
    out := Returned(End);
    assert calls == head + deletes + [DeleteMessage(ack)];
    assert calls[..|head|] == head;
    assert calls[|head|..|calls| - 1] == deletes;
  }
}
