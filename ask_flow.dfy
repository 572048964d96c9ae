/**
 * The Ask flow ("new_question"): `/ask_question` or a follow-up button opens it, the
 * user's text becomes the draft, Confirm posts it to the committee (or under the
 * answered question, for a follow-up), Edit asks for the text again, `/cancel` ends it.
 */
module AskFlow {
  import opened Wrappers
  import Text
  import opened Telegram
  import opened Render
  import opened Routing
  import opened Context

  /**
   * `ask_question`: answer `m` with the prompt; the prompt becomes the anchor
   * ("question_info") and the only tracked message.
   */
  method AskQuestion(m: Msg, ud: UserData, env: Env) returns (out: Outcome, calls: seq<Call>)
    modifies ud
    ensures ud.Snapshot().ReplyPart() == old(ud.Snapshot()).ReplyPart()
    ensures ud.questionToDelete.Some? ==> ud.questionToDelete.value.Valid()
    ensures out == Returned(TypingReply)
    ensures calls == [ReplyText(m.Ref(), AskPrompt, [])]
    ensures ud.Snapshot() == old(ud.Snapshot()).(
              questionInfo := Some(MsgRef(m.chat, env.newMessageId)),
              questionToDelete := Some(Single(env.newMessageId, m.chat)))
  {
    calls := [ReplyText(m.Ref(), AskPrompt, [])];
    ud.questionInfo := Some(MsgRef(m.chat, env.newMessageId));
    ud.questionToDelete := Some(Single(env.newMessageId, m.chat));
    out := Returned(TypingReply);
  }

  /**
   * `follow_up_question`: the button's data names the answered question's message; its
   * saved record becomes "last_replied_question", the pressed message is remembered in
   * "follow_up_info", and the flow opens as for `/ask_question`.  Unreadable data and an
   * unknown question raise before any key is written.
   */
  method FollowUpQuestion(u: Update, ud: UserData, bd: BotData, env: Env) returns (out: Outcome, calls: seq<Call>)
    requires u.kind.Callback?
    requires ud.questionToDelete.Some? ==> ud.questionToDelete.value.Valid()
    modifies ud
    ensures ud.Snapshot().ReplyPart() == old(ud.Snapshot()).ReplyPart()
    ensures ud.questionToDelete.Some? ==> ud.questionToDelete.value.Valid()
    ensures var m, q := u.kind.message, IntWordAt(u.kind.data, 1);
      && (q.None? ==> out == Raised(Malformed) && calls == [AnswerCallback] && ud.Snapshot() == old(ud.Snapshot()))
      && (q.Some? && q.value !in bd.answeredQuestions ==>
            out == Raised(KeyError("answered_questions")) && calls == [AnswerCallback]
            && ud.Snapshot() == old(ud.Snapshot()))
      && (q.Some? && q.value in bd.answeredQuestions ==>
            && out == Returned(TypingReply)
            && calls == [AnswerCallback, ReplyText(m.Ref(), AskPrompt, [])]
            && ud.Snapshot() == old(ud.Snapshot()).(
                 lastRepliedQuestion := Some(bd.answeredQuestions[q.value].message),
                 followUpInfo := Some(FollowUpInfo(m.id, m.chat, q.value, m.text)),
                 questionInfo := Some(MsgRef(m.chat, env.newMessageId)),
                 questionToDelete := Some(Single(env.newMessageId, m.chat))))
  {
    var m := u.kind.message;
    calls := [AnswerCallback];
    var q := IntWordAt(u.kind.data, 1);
    if q.None? {
      return Raised(Malformed), calls;
    }
    if q.value !in bd.answeredQuestions {
      return Raised(KeyError("answered_questions")), calls;
    }
    ud.lastRepliedQuestion := Some(bd.answeredQuestions[q.value].message);
    ud.followUpInfo := Some(FollowUpInfo(m.id, m.chat, q.value, m.text));
    var asked;
    out, asked := AskQuestion(m, ud, env);
    calls := calls + asked;
  }

  /**
   * `confirm_question`: the text becomes the draft ("question"), the user's message is
   * tracked, and the anchor shows the draft under Confirm/Edit.
   */
  method ConfirmQuestion(u: Update, ud: UserData) returns (out: Outcome, calls: seq<Call>)
    requires u.kind.PlainText?
    requires ud.questionToDelete.Some? ==> ud.questionToDelete.value.Valid()
    modifies ud
    ensures ud.Snapshot().ReplyPart() == old(ud.Snapshot()).ReplyPart()
    ensures ud.questionToDelete.Some? ==> ud.questionToDelete.value.Valid()
    ensures var m, was := u.kind.message, old(ud.Snapshot());
      && (was.questionToDelete.None? ==>
            out == Raised(KeyError("question_to_delete")) && calls == []
            && ud.Snapshot() == was.(question := Some(m.text)))
      && (was.questionToDelete.Some? && was.questionInfo.None? ==>
            out == Raised(KeyError("question_info")) && calls == []
            && ud.Snapshot() == was.(question := Some(m.text),
                                     questionToDelete := Some(was.questionToDelete.value.Track(m.id, m.chat))))
      && (was.questionToDelete.Some? && was.questionInfo.Some? ==>
            && out == Returned(ConfirmMessage)
            && calls == [EditText(was.questionInfo.value, ConfirmQuestionPrefix + m.text, ConfirmEditButtons)]
            && ud.Snapshot() == was.(question := Some(m.text),
                                     questionToDelete := Some(was.questionToDelete.value.Track(m.id, m.chat))))
  {
    var m := u.kind.message;
    calls := [];
    ud.question := Some(m.text);
    if ud.questionToDelete.None? {
      return Raised(KeyError("question_to_delete")), calls;
    }
    ud.questionToDelete := Some(ud.questionToDelete.value.Track(m.id, m.chat));
    if ud.questionInfo.None? {
      return Raised(KeyError("question_info")), calls;
    }
    calls := [EditText(ud.questionInfo.value, ConfirmQuestionPrefix + m.text, ConfirmEditButtons)];
    out := Returned(ConfirmMessage);
  }

  /** Everything `confirmed_question` reads is there. */
  predicate ReadyToPost(k: UserKeys) {
    && k.question.Some?
    && (k.followUpInfo.Some? ==> k.lastRepliedQuestion.Some?)
    && k.questionToDelete.Some?
    && k.questionInfo.Some?
  }

  /** The message that posts question number `n`: to the committee, or under the answered question. */
  function PostQuestion(k: UserKeys, n: nat, date: string, sender: User): Call
    requires k.question.Some? && (k.followUpInfo.Some? ==> k.lastRepliedQuestion.Some?)
  {
    var text := QuestionText(n, date, sender, k.question.value);
    if k.followUpInfo.Some? then
      ReplyText(k.lastRepliedQuestion.value.Ref(), FollowUpPrefix + text, [ReplyButton(sender.id)])
    else
      SendMessage(ResearchChatId, text, [ReplyButton(sender.id)])
  }

  /**
   * Where a posted question goes and what its button says, whatever the texts: to the
   * committee chat, or, for a follow-up, under the answered question with the
   * "[FOLLOW-UP]" prefix; its one button's data starts with "reply" and names the asker.
   */
  lemma PostedQuestionAddressed(k: UserKeys, n: nat, date: string, sender: User)
    requires k.question.Some? && (k.followUpInfo.Some? ==> k.lastRepliedQuestion.Some?)
    ensures var post := PostQuestion(k, n, date, sender);
      && (post.SendMessage? || post.ReplyText?)
      && (post.SendMessage? <==> k.followUpInfo.None?)
      && (post.SendMessage? ==> post.chat == ResearchChatId)
      && (post.ReplyText? ==> post.to == k.lastRepliedQuestion.value.Ref() && Text.StartsWith(post.text, FollowUpPrefix))
      && |post.buttons| == 1
      && Text.StartsWith(post.buttons[0].data, "reply")
      && IntWordAt(post.buttons[0].data, 1) == Some(sender.id)
  {
    ReplyDataRoundTrip(sender.id);
    if k.followUpInfo.Some? {
      var text := FollowUpPrefix + QuestionText(n, date, sender, k.question.value);
      assert text[..|FollowUpPrefix|] == FollowUpPrefix;
    }
  }

  /**
   * What the Reply flow later reads back from a posted question: besides where it goes and
   * its button (`PostedQuestionAddressed`), the third "\n\n"-chunk of its text is the
   * draft, for a timestamp, draft and names that hold no blank line.
   */
  lemma PostedQuestionReadsBack(k: UserKeys, n: nat, date: string, sender: User)
    requires k.question.Some? && (k.followUpInfo.Some? ==> k.lastRepliedQuestion.Some?)
    requires OneParagraph(date) && OneParagraph(k.question.value)
    requires Text.NoBreak(sender.firstName) && Text.NoBreak(PyStr(sender.lastName)) && Text.NoBreak(PyStr(sender.username))
    ensures var post := PostQuestion(k, n, date, sender);
      && (post.SendMessage? || post.ReplyText?)
      && (post.SendMessage? <==> k.followUpInfo.None?)
      && (post.SendMessage? ==> post.chat == ResearchChatId)
      && (post.ReplyText? ==> post.to == k.lastRepliedQuestion.value.Ref() && Text.StartsWith(post.text, FollowUpPrefix))
      && |post.buttons| == 1
      && Text.StartsWith(post.buttons[0].data, "reply")
      && IntWordAt(post.buttons[0].data, 1) == Some(sender.id)
      && Text.ParagraphAt(post.text, 2) == Some(k.question.value + "\n  ")
  {
    var body := k.question.value;
    PostedQuestionAddressed(k, n, date, sender);
    QuestionBodyRecovered(n, date, sender, body, k.followUpInfo.Some?);
    if k.followUpInfo.None? {
      assert "" + QuestionText(n, date, sender, body) == QuestionText(n, date, sender, body);
    }
  }

  /**
   * `confirmed_question`: takes the next question number (the counter starts from 0
   * when absent and is raised before anything else can fail), posts the draft, thanks the
   * user, attempts one deletion per tracked message and drops the flow's keys.
   */
  method ConfirmedQuestion(u: Update, ud: UserData, bd: BotData, env: Env) returns (out: Outcome, calls: seq<Call>)
    requires u.kind.Callback?
    requires bd.Valid()
    requires ud.questionToDelete.Some? ==> ud.questionToDelete.value.Valid()
    modifies ud, bd`noOfQuestions, bd`numbersPosted
    ensures ud.Snapshot().ReplyPart() == old(ud.Snapshot()).ReplyPart()
    ensures ud.questionToDelete.Some? ==> ud.questionToDelete.value.Valid()
    ensures bd.Valid()
    ensures bd.noOfQuestions == Some(old(bd.Count()) + 1)
    ensures var n, was, cb := old(bd.Count()) + 1, old(ud.Snapshot()), u.kind.message;
      && (was.question.None? ==>
            out == Raised(KeyError("question")) && ud.Snapshot() == was
            && bd.numbersPosted == old(bd.numbersPosted)
            && calls == [AnswerCallback, EditText(cb.Ref(), SubmittingQuestion, [])])
      && (ReadyToPost(was) ==>
            && out == Returned(End)
            && bd.numbersPosted == old(bd.numbersPosted) + [n]
            && ud.Snapshot() == was.(question := None, questionToDelete := None, questionInfo := None,
                                     followUpInfo := None,
                                     lastRepliedQuestion := if was.followUpInfo.Some? then None else was.lastRepliedQuestion)
            && |calls| == 4 + |was.questionToDelete.value.order|
            && calls[..4] == [AnswerCallback, EditText(cb.Ref(), SubmittingQuestion, []),
                              PostQuestion(was, n, env.date, u.sender), ReplyText(cb.Ref(), QuestionSubmitted, [])]
            && DeletesExactly(calls[4..], was.questionToDelete.value))
  {
    var cb := u.kind.message;
    calls := [AnswerCallback, EditText(cb.Ref(), SubmittingQuestion, [])];
    var n := bd.Count() + 1;
    bd.noOfQuestions := Some(n);
    if ud.question.None? {
      return Raised(KeyError("question")), calls;
    }
    if ud.followUpInfo.Some? && ud.lastRepliedQuestion.None? {
      ud.question := None;
      return Raised(KeyError("last_replied_question")), calls;
    }
    calls := calls + [PostQuestion(ud.Snapshot(), n, env.date, u.sender), ReplyText(cb.Ref(), QuestionSubmitted, [])];
    bd.numbersPosted := bd.numbersPosted + [n];
    ud.question := None;
    if ud.followUpInfo.Some? {
      ud.lastRepliedQuestion := None;
      ud.followUpInfo := None;
    }
    out, calls := CloseAskFlow(ud, calls);
  }

  /**
   * The end of `confirmed_question`: one deletion per tracked message, then
   * "question_to_delete" and "question_info" dropped, each a KeyError when absent.
   */
  method CloseAskFlow(ud: UserData, sent: seq<Call>) returns (out: Outcome, calls: seq<Call>)
    requires ud.questionToDelete.Some? ==> ud.questionToDelete.value.Valid()
    modifies ud
    ensures ud.Snapshot().ReplyPart() == old(ud.Snapshot()).ReplyPart()
    ensures ud.questionToDelete.Some? ==> ud.questionToDelete.value.Valid()
    ensures old(ud.questionToDelete).None? ==>
      out == Raised(KeyError("question_to_delete")) && calls == sent && ud.Snapshot() == old(ud.Snapshot())
    ensures old(ud.questionToDelete).Some? ==>
      && |calls| == |sent| + |old(ud.questionToDelete).value.order|
      && calls[..|sent|] == sent && DeletesExactly(calls[|sent|..], old(ud.questionToDelete).value)
    ensures old(ud.questionToDelete).Some? && old(ud.questionInfo).None? ==>
      out == Raised(KeyError("question_info")) && ud.Snapshot() == old(ud.Snapshot()).(questionToDelete := None)
    ensures old(ud.questionToDelete).Some? && old(ud.questionInfo).Some? ==>
      out == Returned(End) && ud.Snapshot() == old(ud.Snapshot()).(questionToDelete := None, questionInfo := None)
  {
    if ud.questionToDelete.None? {
      return Raised(KeyError("question_to_delete")), sent;
    }
    var deletes := DeleteAll(ud.questionToDelete.value);
    calls := sent + deletes;
    assert calls[..|sent|] == sent && calls[|sent|..] == deletes;
    ud.questionToDelete := None;
    if ud.questionInfo.None? {
      return Raised(KeyError("question_info")), calls;
    }
    ud.questionInfo := None;
    out := Returned(End);
  }

  /** `edit_question`: asks for the text again; no key of `user_data` is read or written. */
  method EditQuestion(u: Update) returns (out: Outcome, calls: seq<Call>)
    requires u.kind.Callback?
    ensures out == Returned(TypingReply)
    ensures calls == [AnswerCallback, EditText(u.kind.message.Ref(), RetypeQuestion, [])]
  {
    calls := [AnswerCallback, EditText(u.kind.message.Ref(), RetypeQuestion, [])];
    out := Returned(TypingReply);
  }

  /** The edit that `cancel_question` attempts first: restore the follow-up button, or mark the anchor cancelled. */
  function RestoreAnchor(k: UserKeys): Call
    requires k.questionInfo.Some?
  {
    match k.followUpInfo
    case Some(fi) => EditText(MsgRef(fi.chat, fi.msgId), fi.text, [FollowUpButton(fi.questionId)])
    case None => EditText(k.questionInfo.value, QuestionCancelled, [])
  }

  /**
   * `cancel_question`: tracks the `/cancel` message, acknowledges, and then, inside one
   * `try`, restores the anchor, deletes the tracked messages and drops "question_to_delete",
   * "question_info" and "follow_up_info".  When the restoring edit fails the `try` is
   * left at once and those keys stay.  The acknowledgement is deleted in any case.
   */
  method CancelQuestion(u: Update, ud: UserData, env: Env) returns (out: Outcome, calls: seq<Call>)
    requires u.kind.Command?
    requires ud.questionToDelete.Some? ==> ud.questionToDelete.value.Valid()
    modifies ud
    ensures ud.Snapshot().ReplyPart() == old(ud.Snapshot()).ReplyPart()
    ensures ud.questionToDelete.Some? ==> ud.questionToDelete.value.Valid()
    ensures var m, was := u.kind.message, old(ud.Snapshot());
      var tracked := if was.questionToDelete.Some? then Some(was.questionToDelete.value.Track(m.id, m.chat)) else None;
      var ack := ReplyText(m.Ref(), QuestionCancelledAck, []);
      && (was.questionInfo.None? ==>
            out == Raised(KeyError("question_info")) && calls == [ack]
            && ud.Snapshot() == was.(questionToDelete := tracked))
      && (was.questionInfo.Some? ==>
            && out == Returned(End) && |calls| >= 3
            && calls[..2] == [ack, RestoreAnchor(was)]
            && calls[|calls| - 1] == DeleteMessage(MsgRef(m.chat, env.newMessageId)))
      && (was.questionInfo.Some? && env.editSucceeds && tracked.Some? ==>
            && DeletesExactly(calls[2..|calls| - 1], tracked.value)
            && ud.Snapshot() == was.(questionToDelete := None, questionInfo := None, followUpInfo := None))
      && (was.questionInfo.Some? && !(env.editSucceeds && tracked.Some?) ==>
            && |calls| == 3
            && ud.Snapshot() == was.(questionToDelete := tracked))
  {
    var m := u.kind.message;
    if ud.questionToDelete.Some? {
      ud.questionToDelete := Some(ud.questionToDelete.value.Track(m.id, m.chat));
    }
    calls := [ReplyText(m.Ref(), QuestionCancelledAck, [])];
    var ack := MsgRef(m.chat, env.newMessageId);
    if ud.questionInfo.None? {
      return Raised(KeyError("question_info")), calls;
    }
    calls := calls + [RestoreAnchor(ud.Snapshot())];
    if env.editSucceeds && ud.questionToDelete.Some? {
      var deletes := DeleteAll(ud.questionToDelete.value);
      calls := calls + deletes;
      ud.questionToDelete := None;
      ud.questionInfo := None;
      ud.followUpInfo := None;
    }
    calls := calls + [DeleteMessage(ack)];
    out := Returned(End);
  }
}
