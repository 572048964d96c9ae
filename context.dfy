/**
 * The state the handlers work on: `context.user_data` (one per user), `context.bot_data`
 * (shared by all users), the conversation table of each ConversationHandler, and the
 * best-effort deletion of the messages a flow tracked for clean-up.
 */
module Context {
  import opened Wrappers
  import opened Telegram
  import opened Routing

  /**
   * A dictionary of messages to delete when a flow ends, message id -> chat id, kept in
   * insertion order as Python dictionaries are: `order` lists each key once.
   */
  datatype Scratch = Scratch(order: seq<int>, chatOf: map<int, int>) {
    ghost predicate Valid() {
      && (forall i :: 0 <= i < |order| ==> order[i] in chatOf)
      && (forall id :: id in chatOf ==> id in order)
      && (forall i, j :: 0 <= i < j < |order| ==> order[i] != order[j])
    }

    /** `d[id] = chat`: a new key goes last, an existing key keeps its place. */
    function Track(id: int, chat: int): (r: Scratch)
      requires Valid()
      ensures r.Valid()
      ensures r.chatOf == chatOf[id := chat]
      ensures id in order ==> r.order == order
      ensures id !in order ==> r.order == order + [id]
    {
      if id in chatOf then Scratch(order, chatOf[id := chat]) else Scratch(order + [id], chatOf[id := chat])
    }
  }

  /** `{id: chat}` */
  function Single(id: int, chat: int): (r: Scratch)
    ensures r.Valid() && r.order == [id] && r.chatOf == map[id := chat]
  {
    Scratch([id], map[id := chat])
  }

  /** `{}` */
  function EmptyScratch(): (r: Scratch)
    ensures r.Valid() && r.order == [] && r.chatOf == map[]
  {
    Scratch([], map[])
  }

  /** Tracking a message that is already tracked changes nothing. */
  lemma TrackIdempotent(s: Scratch, id: int, chat: int)
    requires s.Valid()
    ensures s.Track(id, chat).Track(id, chat) == s.Track(id, chat)
  {
  }

  /** `follow_up_info`: [message id, chat id, replied question's message id, message text]. */
  datatype FollowUpInfo = FollowUpInfo(msgId: int, chat: int, questionId: int, text: string)

  /**
   * `reply_info`: [asker id, question message text, question message id, its chat id],
   * with a fifth element, the id of the reply being amended, after an "edit_response" press.
   */
  datatype ReplyInfo = ReplyInfo(askerId: int, text: string, msgId: int, chat: int, replyId: Option<int>) {
    /** `len(reply_info) > 4` */
    predicate IsAmendment() { replyId.Some? }
  }

  /** `answered_questions[question message id]`: [the question message as edited, `replied_template`]. */
  datatype Answered = Answered(message: Msg, template: string)

  /** `replies[asker id][reply message id]`: [the delivered reply, `to_send_header`, `to_send_template`]. */
  datatype ReplyRecord = ReplyRecord(message: Msg, header: string, template: string)

  /** The keys of `user_data` as one value; `None` is an absent key. */
  datatype UserKeys = UserKeys(
    questionInfo: Option<MsgRef>,
    questionToDelete: Option<Scratch>,
    question: Option<string>,
    followUpInfo: Option<FollowUpInfo>,
    lastRepliedQuestion: Option<Msg>,
    inReplyConversation: Option<bool>,
    replyInfo: Option<ReplyInfo>,
    replyToDelete: Option<Scratch>,
    currConvo: Option<MsgRef>,
    replyMsg: Option<string>)
  {
    /** The keys only the Ask flow writes. */
    function AskPart(): (Option<MsgRef>, Option<Scratch>, Option<string>, Option<FollowUpInfo>, Option<Msg>) {
      (questionInfo, questionToDelete, question, followUpInfo, lastRepliedQuestion)
    }

    /** The keys only the Reply flow writes. */
    function ReplyPart(): (Option<bool>, Option<ReplyInfo>, Option<Scratch>, Option<MsgRef>, Option<string>) {
      (inReplyConversation, replyInfo, replyToDelete, currConvo, replyMsg)
    }

    /** Both tracking dictionaries, when present, are well formed. */
    ghost predicate Tidy() {
      && (questionToDelete.Some? ==> questionToDelete.value.Valid())
      && (replyToDelete.Some? ==> replyToDelete.value.Valid())
    }
  }

  /** `context.user_data` of one user: one field per key. */
  class UserData {
    var questionInfo: Option<MsgRef>
    var questionToDelete: Option<Scratch>
    var question: Option<string>
    var followUpInfo: Option<FollowUpInfo>
    var lastRepliedQuestion: Option<Msg>
    var inReplyConversation: Option<bool>
    var replyInfo: Option<ReplyInfo>
    var replyToDelete: Option<Scratch>
    var currConvo: Option<MsgRef>
    var replyMsg: Option<string>

    function Snapshot(): UserKeys
      reads this
    {
      UserKeys(questionInfo, questionToDelete, question, followUpInfo, lastRepliedQuestion,
               inReplyConversation, replyInfo, replyToDelete, currConvo, replyMsg)
    }

    /** A user the bot has not seen yet has no keys. */
    constructor ()
      ensures Snapshot() == UserKeys(None, None, None, None, None, None, None, None, None, None)
    {
      questionInfo, questionToDelete, question := None, None, None;
      followUpInfo, lastRepliedQuestion := None, None;
      inReplyConversation, replyInfo, replyToDelete, currConvo, replyMsg := None, None, None, None, None;
    }
  }

  /**
   * `context.bot_data`.  An absent "answered_questions" or "replies" dictionary reads
   * exactly like an empty one, so both are plain maps; an absent inner dictionary of
   * "replies" likewise.  `numbersPosted` records, for the proofs only, every `#n` that
   * has been posted.
   */
  class BotData {
    var noOfQuestions: Option<nat>
    var answeredQuestions: map<int, Answered>
    var replies: map<int, map<int, ReplyRecord>>
    ghost var numbersPosted: seq<nat>

    /** The counter, 0 while the key is absent. */
    function Count(): nat
      reads this
    {
      noOfQuestions.GetOr(0)
    }

    /** Posted numbers increase strictly and never exceed the counter. */
    ghost predicate Valid()
      reads this
    {
      && (forall i, j :: 0 <= i < j < |numbersPosted| ==> numbersPosted[i] < numbersPosted[j])
      && (forall i :: 0 <= i < |numbersPosted| ==> numbersPosted[i] <= Count())
    }

    /** `replies[asker][reply]`, or `None` for the KeyError. */
    function ReplyOf(askerId: int, replyId: int): Option<ReplyRecord>
      reads this
    {
      if askerId in replies && replyId in replies[askerId] then Some(replies[askerId][replyId]) else None
    }

    constructor ()
      ensures Valid()
      ensures noOfQuestions == None && answeredQuestions == map[] && replies == map[] && numbersPosted == []
    {
      noOfQuestions, answeredQuestions, replies := None, map[], map[];
      numbersPosted := [];
    }
  }

  /** The conversation table of one ConversationHandler. */
  class ConversationHandler {
    var conversations: map<ConvKey, Step>

    /** END is never stored: it removes the key. */
    ghost predicate Valid()
      reads this
    {
      End !in conversations.Values
    }

    function StateOf(key: ConvKey): (s: Option<Step>)
      reads this
      requires Valid()
      ensures s != Some(End)
    {
      if key in conversations then Some(conversations[key]) else None
    }

    constructor ()
      ensures Valid() && conversations == map[]
    {
      conversations := map[];
    }

    /**
     * Records what a handler returned: END ends the conversation, another state becomes
     * the current one, and a handler that raised leaves the conversation as it was.
     */
    method Apply(key: ConvKey, out: Outcome)
      requires Valid()
      modifies this
      ensures Valid()
      ensures conversations == Advance(old(conversations), key, out)
      ensures out.Returned? && out.next == End ==> conversations == old(conversations) - {key}
      ensures out.Returned? && out.next != End ==> conversations == old(conversations)[key := out.next]
      ensures out.Raised? ==> conversations == old(conversations)
    {
      if out.Returned? {
        if out.next == End {
          conversations := conversations - {key};
        } else {
          conversations := conversations[key := out.next];
        }
      }
    }
  }

  /** The conversation table after the handler for `key` finished with `out`. */
  function Advance(conversations: map<ConvKey, Step>, key: ConvKey, out: Outcome): map<ConvKey, Step> {
    match out
    case Raised(_) => conversations
    case Returned(End) => conversations - {key}
    case Returned(next) => conversations[key := next]
  }

  /** What escaped a handler: a missing dictionary key, or text or callback data of the wrong shape. */
  datatype Fault = KeyError(key: string) | Malformed

  /** A handler either returns its next state or raises. */
  datatype Outcome = Returned(next: Step) | Raised(fault: Fault)

  /**
   * What the environment decides for one handler run: the id of the one message the
   * handler sends and later refers to, whether the edit inside a `try` block succeeds,
   * and the wall-clock timestamp as printed.
   */
  datatype Env = Env(newMessageId: int, editSucceeds: bool, date: string)

  /** The deletion attempt for the `k`-th tracked message. */
  function DeleteAt(s: Scratch, k: nat): Call
    requires s.Valid() && k < |s.order|
  {
    DeleteMessage(MsgRef(s.chatOf[s.order[k]], s.order[k]))
  }

  /** `calls` attempts the deletion of every tracked message once, in insertion order, and nothing else. */
  ghost predicate DeletesExactly(calls: seq<Call>, s: Scratch)
    requires s.Valid()
  {
    && |calls| == |s.order|
    && forall k :: 0 <= k < |calls| ==> calls[k] == DeleteAt(s, k)
  }

  /**
   * The clean-up loop `for key, val in to_delete.items(): await delete_message(...)`:
   * one deletion attempt per tracked message.  `delete_message` swallows every failure,
   * so an attempt has no effect on the handler and the loop always runs to the end.
   */
  method DeleteAll(s: Scratch) returns (calls: seq<Call>)
    requires s.Valid()
    ensures DeletesExactly(calls, s)
    ensures forall id :: id in s.chatOf ==> DeleteMessage(MsgRef(s.chatOf[id], id)) in calls
    ensures forall i, j :: 0 <= i < j < |calls| ==> calls[i] != calls[j]
  {
    calls := [];
    for k := 0 to |s.order|
      invariant |calls| == k
      invariant forall i :: 0 <= i < k ==> calls[i] == DeleteAt(s, i)
    {
      calls := calls + [DeleteAt(s, k)];
    }
    forall id | id in s.chatOf ensures DeleteMessage(MsgRef(s.chatOf[id], id)) in calls {
      var k :| 0 <= k < |s.order| && s.order[k] == id;
      assert calls[k] == DeleteMessage(MsgRef(s.chatOf[id], id));
    }
  }
}
