/**
 * The texts and buttons the bot composes: the f-strings of `main.py` as functions of
 * their placeholders (the timestamp is an opaque string), the callback data of every
 * button, and the facts the handlers rely on when they read those strings back.
 */
module Render {
  import opened Wrappers
  import opened Text
  import opened Telegram

  /** The committee's group chat, where new questions are posted. */
  const ResearchChatId: int := -1001856093938

  const AskPrompt: string :=
    "Ok! Fire away! Questions will be sent to the LKC Research Committee and they will get back to you shortly\n\n"
    + "You may type /cancel anytime to cancel asking your question."
  const ConfirmQuestionPrefix: string := "Got it! Just to confirm, is this the question that you want to ask?\n\n"
  const SubmittingQuestion: string := "Ok! Submitting question to the LKC Research Committee..."
  const QuestionSubmitted: string := "Question successfully submitted!"
  const RetypeQuestion: string := "No problem! Just retype your question and resend it!"
  const QuestionCancelledAck: string := "Cancelled. Feel free to continue browsing!"
  const QuestionCancelled: string := "Cancelled."
  const FollowUpPrefix: string := "[FOLLOW-UP]\n"

  const BusyGuidance: string :=
    "You cannot reply to this message until you have replied to the message that you previously wished to reply to. "
    + "Otherwise send /cancel to cancel the reply to the previous asker and then press the reply button on this message again."
  const ReplyPrompt: string := "Alright! Just type down your response and send it!"
  const ConfirmReplyPrefix: string := "Got it! Just to confirm, is this the reply that you want to send?\n\n"
  const SendingReply: string := "Ok! Sending reply back to user..."
  const ReplyEditedNotice: string := "This reponse was edited!"
  const ReplySubmitted: string := "Reply successfully submitted!"
  const RetypeReply: string := "No problem! Just retype your reply and resend it!"
  const ReplyCancelledAck: string := "Cancelled reply!"

  // ---------------------------------------------------------------------------
  // Callback data and buttons

  const ConfirmData: string := "confirm"
  const EditData: string := "edit"

  function ReplyData(askerId: int): string {
    "reply " + IntToString(askerId)
  }

  function EditResponseData(askerId: int, replyId: int): string {
    "edit_response " + IntToString(askerId) + " " + IntToString(replyId)
  }

  function FollowUpData(questionId: int): string {
    "follow_up " + IntToString(questionId)
  }

  /** The Confirm/Edit keyboard shown under a draft. */
  const ConfirmEditButtons: seq<Button> := [Button("Confirm", ConfirmData), Button("Edit", EditData)]

  function ReplyButton(askerId: int): Button {
    Button("Reply", ReplyData(askerId))
  }

  function EditResponseButton(askerId: int, replyId: int): Button {
    Button("Edit Response", EditResponseData(askerId, replyId))
  }

  function FollowUpButton(questionId: int): Button {
    Button("Ask Follow-Up Question", FollowUpData(questionId))
  }

  /** `int(data.split()[k])`, or `None` where Python raises IndexError or ValueError. */
  function IntWordAt(data: string, k: nat): (r: Option<int>)
    ensures r.None? <==> k >= |Words(data)| || ParseInt(Words(data)[k]).None?
    ensures r.Some? ==> k < |Words(data)| && ParseInt(Words(data)[k]) == r
  {
    match WordAt(data, k)
    case Some(w) => ParseInt(w)
    case None => None
  }

  // ---------------------------------------------------------------------------
  // Message texts

  /** An optional attribute inside an f-string: `None` prints as "None". */
  function PyStr(o: Option<string>): string {
    match o
    case Some(s) => s
    case None => "None"
  }

  /** "{first_name} {last_name}, @{username}" */
  function Author(u: User): string {
    u.firstName + " " + PyStr(u.lastName) + ", @" + PyStr(u.username)
  }

  /** First paragraph of a posted question: "#{no_of_questions}, {date}". */
  function QuestionHead(n: nat, date: string): string {
    "#" + NatToString(n) + ", " + date
  }

  /** Second paragraph of a posted question. */
  function QuestionByLine(u: User): string {
    "Question by " + Author(u) + ":"
  }

  /** The question as posted to the committee (`to_send`, before any follow-up prefix). */
  function QuestionText(n: nat, date: string, u: User, body: string): string {
    QuestionHead(n, date) + "\n\n" + QuestionByLine(u) + "\n\n" + body + "\n  "
  }

  /** `to_send_header`: "\nReply by {author}:\n" */
  function ReplyHeader(u: User): string {
    "\nReply by " + Author(u) + ":\n"
  }

  /** `to_send_template`: the quoted question and the "Reply:" caption. */
  function ReplyTemplate(questionText: string): string {
    "\nQuestion:\n" + questionText + "\n\nReply:"
  }

  /** The reply delivered to the asker: header, template, then the reply text. */
  function DeliveredReply(header: string, template: string, msg: string): string {
    header + template + "\n" + msg
  }

  /** An amended delivered reply: the stored header, a "Last Edit" line, the stored template. */
  function AmendedReply(header: string, editor: User, template: string, msg: string): string {
    header + "Last Edit by " + Author(editor) + ":\n" + template + "\n" + msg
  }

  /** `replied_template`: what the question's record shows above the reply text. */
  function RepliedTemplate(complete: string, u: User, date: string): string {
    "[REPLIED]\n" + complete + "\n\nReply by " + Author(u) + " on " + date + ":\n"
  }

  /** `replied_message` for a first reply. */
  function RepliedRecord(template: string, msg: string): string {
    template + "\n" + msg
  }

  /** `replied_message` for an amendment: the stored template and one "Last Edit" line. */
  function AmendedRecord(template: string, editor: User, date: string, msg: string): string {
    template + "Last Edit by " + Author(editor) + " on " + date + ":\n" + "\n" + msg
  }

  // ---------------------------------------------------------------------------
  // Reading the callback data back

  lemma IntToStringIsWord(i: int)
    ensures IsWord(IntToString(i))
  {
    var s := IntToString(i);
    forall k | 0 <= k < |s| ensures !IsSpace(s[k]) {
      assert IsDigit(s[k]) || s[k] == '-';
    }
  }

  /** The "reply <askerId>" button routes as a reply and yields the asker's id. */
  lemma ReplyDataRoundTrip(askerId: int)
    ensures StartsWith(ReplyData(askerId), "reply")
    ensures WordAt(ReplyData(askerId), 0) == Some("reply")
    ensures IntWordAt(ReplyData(askerId), 1) == Some(askerId)
    ensures WordAt(ReplyData(askerId), 2) == None
  {
    var n := IntToString(askerId);
    IntToStringIsWord(askerId);
    assert ReplyData(askerId) == "reply" + " " + n;
    WordsCons("reply", n);
    WordsSingle(n);
    assert Words(ReplyData(askerId)) == ["reply", n];
    IntRoundTrip(askerId);
    assert ReplyData(askerId)[..5] == "reply";
  }

  /** `split()` of "edit_response <askerId> <replyId>" gives its three words. */
  lemma EditResponseWords(askerId: int, replyId: int)
    ensures Words(EditResponseData(askerId, replyId)) == ["edit_response", IntToString(askerId), IntToString(replyId)]
  {
    var a, r := IntToString(askerId), IntToString(replyId);
    var tail := a + " " + r;
    IntToStringIsWord(askerId);
    IntToStringIsWord(replyId);
    WordsCons(a, r);
    WordsSingle(r);
    assert Words(tail) == [a, r];
    assert EditResponseData(askerId, replyId) == "edit_response" + " " + tail;
    WordsCons("edit_response", tail);
  }

  /** The "edit_response <askerId> <replyId>" button yields both ids and is not a "reply" button. */
  lemma EditResponseDataRoundTrip(askerId: int, replyId: int)
    ensures !StartsWith(EditResponseData(askerId, replyId), "reply")
    ensures StartsWith(EditResponseData(askerId, replyId), "edit_response")
    ensures WordAt(EditResponseData(askerId, replyId), 0) == Some("edit_response")
    ensures IntWordAt(EditResponseData(askerId, replyId), 1) == Some(askerId)
    ensures IntWordAt(EditResponseData(askerId, replyId), 2) == Some(replyId)
  {
    var data := EditResponseData(askerId, replyId);
    EditResponseWords(askerId, replyId);
    assert WordAt(data, 1) == Some(IntToString(askerId));
    assert WordAt(data, 2) == Some(IntToString(replyId));
    IntRoundTrip(askerId);
    IntRoundTrip(replyId);
    assert data[..13] == "edit_response";
    assert data[..5] == "edit_";
  }

  /** The "follow_up <questionId>" button yields the question's message id. */
  lemma FollowUpDataRoundTrip(questionId: int)
    ensures StartsWith(FollowUpData(questionId), "follow_up")
    ensures !StartsWith(FollowUpData(questionId), "reply")
    ensures IntWordAt(FollowUpData(questionId), 1) == Some(questionId)
  {
    var n := IntToString(questionId);
    IntToStringIsWord(questionId);
    assert FollowUpData(questionId) == "follow_up" + " " + n;
    WordsCons("follow_up", n);
    WordsSingle(n);
    assert Words(FollowUpData(questionId)) == ["follow_up", n];
    IntRoundTrip(questionId);
    assert FollowUpData(questionId)[..9] == "follow_up";
    assert FollowUpData(questionId)[..5] == "follo";
  }

  // ---------------------------------------------------------------------------
  // Reading the question body back out of a posted question

  /** A text that `split("\n\n")` keeps whole and that cannot merge with a following separator. */
  predicate OneParagraph(s: string) {
    NoBreak(s) && !EndsInNewline(s)
  }

  /** Whatever follows two leading paragraphs, `split("\n\n")[2]` is its own first paragraph. */
  lemma ThirdParagraph(h: string, m: string, rest: string)
    requires OneParagraph(h) && OneParagraph(m)
    ensures ParagraphAt(h + "\n\n" + m + "\n\n" + rest, 2) == Some(Paragraphs(rest)[0])
  {
    var t := m + "\n\n" + rest;
    var s := h + "\n\n" + m + "\n\n" + rest;
    assert s == h + "\n\n" + t;
    ParagraphsCons(h, t);
    assert Paragraphs(s) == [h] + Paragraphs(t);
    ParagraphsCons(m, rest);
    assert Paragraphs(t) == [m] + Paragraphs(rest);
    assert Paragraphs(s)[2] == Paragraphs(rest)[0];
  }

  lemma AuthorNoBreak(u: User)
    requires NoBreak(u.firstName) && NoBreak(PyStr(u.lastName)) && NoBreak(PyStr(u.username))
    ensures OneParagraph(QuestionByLine(u))
  {
    NoNewlineNoBreak(" ");
    NoNewlineNoBreak(", @");
    NoNewlineNoBreak("Question by ");
    NoNewlineNoBreak(":");
    NoBreakConcat(u.firstName, " ");
    NoBreakConcat(u.firstName + " ", PyStr(u.lastName));
    NoBreakConcat(u.firstName + " " + PyStr(u.lastName), ", @");
    NoBreakConcat(u.firstName + " " + PyStr(u.lastName) + ", @", PyStr(u.username));
    NoBreakConcat("Question by ", Author(u));
    NoBreakConcat("Question by " + Author(u), ":");
  }

  lemma HeadOneParagraph(n: nat, date: string, followUp: bool)
    requires OneParagraph(date)
    ensures OneParagraph((if followUp then FollowUpPrefix else "") + QuestionHead(n, date))
  {
    var digits := NatToString(n);
    NoNewlineNoBreak("#");
    NoNewlineNoBreak(", ");
    NoNewlineNoBreak(digits);
    NoNewlineNoBreak("[FOLLOW-UP]");
    NoBreakConcat("#", digits);
    NoBreakConcat("#" + digits, ", ");
    NoBreakConcat("#" + digits + ", ", date);
    assert QuestionHead(n, date) == "#" + digits + ", " + date;
    if followUp {
      NoBreakConcat("[FOLLOW-UP]", "\n");
      NoBreakConcat(FollowUpPrefix, QuestionHead(n, date));
    } else {
      assert "" + QuestionHead(n, date) == QuestionHead(n, date);
    }
  }

  /**
   * The body of a posted question (with or without the follow-up prefix) is the third
   * "\n\n"-separated chunk of its text, followed by the f-string's closing "\n  ",
   * provided the timestamp, the names and the body contain no blank line and the
   * timestamp and body do not end in a newline.
   */
  lemma QuestionBodyRecovered(n: nat, date: string, u: User, body: string, followUp: bool)
    requires OneParagraph(date) && OneParagraph(body)
    requires NoBreak(u.firstName) && NoBreak(PyStr(u.lastName)) && NoBreak(PyStr(u.username))
    ensures ParagraphAt((if followUp then FollowUpPrefix else "") + QuestionText(n, date, u, body), 2)
         == Some(body + "\n  ")
  {
    var prefix := if followUp then FollowUpPrefix else "";
    var head, byLine, tail := prefix + QuestionHead(n, date), QuestionByLine(u), body + "\n  ";
    HeadOneParagraph(n, date, followUp);
    AuthorNoBreak(u);
    NoNewlineNoBreak("\n  "[1..]);
    NoBreakConcat(body, "\n  ");
    ParagraphsSingle(tail);
    assert QuestionText(n, date, u, body) == QuestionHead(n, date) + "\n\n" + byLine + "\n\n" + tail;
    assert prefix + QuestionText(n, date, u, body) == head + "\n\n" + byLine + "\n\n" + tail;
    ThirdParagraph(head, byLine, tail);
  }
}
