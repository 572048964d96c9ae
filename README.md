# LKC Research Bot: conversation model

A Dafny model of the two conversations of the LKC Medicine Research Telegram bot
(`main.py`), with proofs about them. In the "new_question" conversation a user asks the
research committee a question: `/ask_question` or an "Ask Follow-Up Question" button,
then the draft, then Confirm or Edit, or `/cancel` at any time. In the "new_reply"
conversation a committee member answers a posted question: "Reply" or "Edit Response",
then the reply text, then Confirm or Edit, or `/cancel`. Confirmed replies go to the
asker's private chat and are recorded on the committee's copy of the question.

The model keeps the bot's own state in the bot's own shape:

- `Context.UserData` is a class with one field per `user_data` key. A missing key is `None`.
- `Context.BotData` holds the shared question counter and the two answer registries.
- `Context.ConversationHandler` is the per-(chat, user) state table of one conversation.
- Each handler is a method that changes these objects in place. It returns
  `Returned(step)`, or `Raised(fault)` for an exception that escapes it. It also returns
  the Telegram calls it made, in order, as a `seq<Call>`.
- The id of the one message the handler sends and later refers to, whether an edit
  inside a `try` succeeds, and the timestamp are inputs (`Env`).
- Message texts and callback data are functions that follow the f-strings character for
  character. Python's `str(int)`, `int()`, `str.split()` and `str.split("\n\n")` are
  modelled exactly for ASCII text, so the proofs about reading data back are proofs about the real formats.

Modules:

- `Text`: integer printing and parsing, word and paragraph splitting.
- `Telegram`: messages, users, buttons, updates and calls.
- `Render`: texts, buttons, callback data, and the lemmas that read data back.
- `Routing`: the handler table.
- `Context`: the state.
- `AskFlow` and `ReplyFlow`: the handlers.
- `Dispatch`: one update from start to end.

Properties proved:

- Question numbering: the counter starts at 0 when absent and every confirmation raises
  it by exactly one, before anything else can fail. The posted numbers increase strictly
  (`BotData.Valid`), and no handler other than `confirmed_question` touches the counter.
- A tracking dictionary behaves as an insertion-ordered dict: tracking the same message
  twice changes nothing. `confirmed_question`, `confirmed_reply`, `cancel_reply`, and
  `cancel_question` when its edit succeeds, make exactly one delete attempt per tracked
  message, in insertion order. The busy END of `reply_question`, `cancel_question` after
  a failed edit, and every KeyError path except `confirmed_question`'s missing
  "question_info" delete nothing.
- What a handler reads back is what another handler wrote:
  - the asker id in the "Reply" button;
  - the reply id in "Edit Response";
  - the question id in "Ask Follow-Up Question";
  - the question body as the third `"\n\n"` chunk of a posted question.
- Each flow writes only its own `user_data` keys. Edit handlers write none.
- The answer registries change only when a reply is confirmed.
- A busy "Reply" press ends the reply conversation and changes nothing.
- A user can get locked out of replying. The first "Reply" press removes its own button,
  but while that reply is being typed the user can press "Reply" under another question
  in the same chat. Then `reply_question` ends the conversation but leaves
  `in_reply_conversation` set. From then on every "Reply" press is refused, and `/cancel`
  no longer reaches `cancel_reply`. `Dispatch.ReplyToAnotherQuestion` shows that this
  state is reachable, and `Dispatch.Handle` shows that no update leaves it.

Behaviour taken from the code where its messages or comments suggest otherwise:

- An amendment rebuilds both the delivered reply and the question's record from the
  templates stored with the first reply. So only the latest "Last Edit" line is shown, not
  a chain of them.
- Handlers whose state is missing raise `KeyError`; they do not end quietly. If the edit
  inside `cancel_question`'s `try` fails, "question_to_delete", "question_info" and
  "follow_up_info" stay behind. "question" and "last_replied_question" are never removed
  by a cancel.

## Model

| member | source | states |
|---|---|---|
| `Text.NatToString` | main.py:98 | The decimal text of a natural: digits only, at least one, no leading zero. |
| `Text.IntToString` | main.py:103 | The text of any integer: a leading '-' exactly when negative, digits everywhere else. |
| `Text.ParseInt` | main.py:209 | `int(word)`: a word that parses is digits, or '+' or '-' followed by digits. A word of digits reads as its decimal value, and a signed word as that value with its sign. Every such word parses; anything else is `None`, where Python raises ValueError. |
| `Text.NatToStringValue` | main.py:98 | The digits of `str(n)` have the value `n`. |
| `Text.IntRoundTrip` | main.py:209 | `int(str(i)) == i` for every integer. |
| `Text.Words` | main.py:209 | `str.split()`: every element is a non-empty run without whitespace. |
| `Text.WordsCons` | main.py:209 | Splitting `w + " " + rest`, for a word `w`, gives `w` followed by the words of `rest`. |
| `Text.WordAt` | main.py:224 | `data.split()[k]`: present exactly when the data has more than k words, `None` where Python raises IndexError. |
| `Text.FirstBreak` | main.py:272 | The position of the first "\n\n" in a text, or its length when there is none; no earlier break exists. |
| `Text.Paragraphs` | main.py:272 | `str.split("\n\n")` always has at least one element. |
| `Text.ParagraphsCons` | main.py:272 | Splitting `a + "\n\n" + b`, for a single paragraph `a`, gives `a` followed by the paragraphs of `b`. |
| `Text.ParagraphAt` | main.py:272 | `text.split("\n\n")[k]`: present exactly when the text has more than k chunks, `None` where Python raises IndexError. |
| `Render.ReplyData` | main.py:103 | The "Reply" button's data, "reply " and the asker's id; `Render.ReplyDataRoundTrip` reads it back. |
| `Render.EditResponseData` | main.py:319 | The "Edit Response" button's data, "edit_response ", the asker's id, a space and the reply's id; `Render.EditResponseDataRoundTrip` reads it back. |
| `Render.FollowUpData` | main.py:288 | The "Ask Follow-Up Question" button's data, "follow_up " and the question's message id; `Render.FollowUpDataRoundTrip` reads it back. |
| `Render.QuestionText` | main.py:96-101 | A posted question: "#n, date", a blank line, "Question by" and the author, a blank line, the body and the f-string's closing "\n  ". |
| `Render.ReplyHeader` | main.py:276-278 | The header of a delivered reply: "Reply by" and the replier between newlines. |
| `Render.ReplyTemplate` | main.py:279-283 | The quoted question between "Question:" and "Reply:". |
| `Render.DeliveredReply` | main.py:285 | A first reply as the asker sees it: header, template, a newline and the reply text. |
| `Render.AmendedReply` | main.py:296 | An amended reply: the stored header, a "Last Edit by" line for the editor, the stored template, a newline and the new text. |
| `Render.RepliedTemplate` | main.py:311-315 | The "[REPLIED]" record's head: the whole question text, then "Reply by", the replier and the date. |
| `Render.RepliedRecord` | main.py:316 | The record of a first reply: its template, a newline and the reply text. |
| `Render.AmendedRecord` | main.py:323 | The record of an amendment: the stored template, a "Last Edit by" line with the date, a blank line and the new text. |
| `Render.EditResponseWords` | main.py:319 | The words of "edit_response" data are exactly the tag and the two printed ids. |
| `Render.IntWordAt` | main.py:187 | `int(data.split()[k])`: `None` exactly when the word is missing (IndexError) or is not an integer (ValueError), otherwise the word's value. |
| `Render.ReplyDataRoundTrip` | main.py:103-105 | "reply {id}" starts with "reply", its first word is "reply", its second word reads back as the asker id, and it has no third word. |
| `Render.EditResponseDataRoundTrip` | main.py:318-320 | "edit_response {asker} {reply}" reads back both ids; it does not match the "reply" pattern. |
| `Render.FollowUpDataRoundTrip` | main.py:287-289 | "follow_up {id}" starts with "follow_up", and its second word reads back as the question's message id. |
| `Render.ThirdParagraph` | main.py:272 | `split("\n\n")[2]` of two single paragraphs followed by more text is the first paragraph of that text. |
| `Render.QuestionBodyRecovered` | main.py:96-101 | The third "\n\n" chunk of a posted question, with or without the follow-up prefix, is the body plus the f-string's trailing "\n  ". |
| `Routing.AskFlowHandler` | main.py:457-476 | The "new_question" table: `/ask_question` and "follow_up…" presses with no state, text while typing, "confirm"/"edit" while confirming, `/cancel` in either state. |
| `Routing.ReplyFlowHandler` | main.py:478-498 | The "new_reply" table: "reply…" and "edit_response…" presses with no state, text or a "reply…" press while typing, "confirm"/"edit" while confirming, `/cancel` in either state. |
| `Routing.Route` | main.py:457-498 | Entry points fire only when the key has no state, state handlers only in their state, and "new_question" is asked before "new_reply". No handler answers exactly when neither conversation does. |
| `Routing.CancelPrefersAskFlow` | main.py:475 | `/cancel` goes to `cancel_question` whenever a question conversation is open. |
| `Routing.ReplyButtonReentersWhileTyping` | main.py:483-486 | A "reply…" press while a reply is typed, with no question open, runs `reply_question` again. |
| `Context.Scratch.Track` | main.py:57 | `d[id] = chat`: the mapping is updated, a new id goes last, and an existing id keeps its place. |
| `Context.Single` | main.py:45 | `{id: chat}`. |
| `Context.EmptyScratch` | main.py:215 | `{}`. |
| `Context.TrackIdempotent` | main.py:239 | Tracking the same message twice equals tracking it once. |
| `Context.DeleteAll` | main.py:412-418 | One delete attempt per tracked message, in insertion order, each for its own chat. Every tracked message is covered and none twice. |
| `Context.Advance` | main.py:457-498 | What a conversation records after its handler: END drops the (chat, user) key, a state replaces it, an exception changes nothing. |
| `Context.BotData.Count` | main.py:78-79 | The question counter, read as 0 while "no_of_questions" is absent. |
| `Context.ConversationHandler.Apply` | main.py:457-498 | END removes the (chat, user) key, another state replaces it, and an exception leaves the table as it was. |
| `AskFlow.AskQuestion` | main.py:38-47 | Replies with the prompt. The prompt becomes "question_info" and the only tracked message. Returns TYPING_REPLY. |
| `AskFlow.ConfirmQuestion` | main.py:49-71 | Stores the draft and tracks the user's message, then shows the draft under Confirm/Edit. KeyErrors for missing "question_to_delete" or "question_info" keep the writes already made. |
| `AskFlow.PostQuestion` | main.py:102-118 | The call that posts question n: a new message to the committee chat, or a reply under the answered question with "[FOLLOW-UP]" in front, carrying one "Reply" button for the asker. `AskFlow.PostedQuestionAddressed` and `AskFlow.PostedQuestionReadsBack` state its properties. |
| `AskFlow.PostedQuestionAddressed` | main.py:102-118 | For any texts, a posted question goes to the committee chat, or under the answered question with the "[FOLLOW-UP]" prefix, and its one button's data starts with "reply" and names the asker. |
| `AskFlow.PostedQuestionReadsBack` | main.py:96-115 | When the timestamp, draft and names hold no blank line, a posted question's third chunk is the draft followed by "\n  ", besides where it goes and its one button naming the asker. |
| `AskFlow.ConfirmedQuestion` | main.py:73-129 | The counter becomes old+1 on every path, and `BotData.Valid` is kept. A missing draft raises with nothing else changed. A complete state posts question n, thanks the user, deletes every tracked message, drops the flow's keys and returns END. |
| `AskFlow.CloseAskFlow` | main.py:123-127 | One delete per tracked message, then "question_to_delete" and "question_info" dropped, each a KeyError when absent. |
| `AskFlow.EditQuestion` | main.py:131-138 | Asks for the question again and returns TYPING_REPLY without touching `user_data`. |
| `AskFlow.RestoreAnchor` | main.py:157-171 | The edit `/cancel` makes to the message the flow started from: the answered question's text with its "Ask Follow-Up Question" button back, or "Cancelled." on the prompt. |
| `AskFlow.CancelQuestion` | main.py:141-183 | Tracks `/cancel` when possible and acknowledges. A missing anchor raises. Otherwise it restores the anchor, and only when that edit succeeds deletes the tracked messages and drops three keys. The acknowledgement is deleted last and END returned. |
| `AskFlow.FollowUpQuestion` | main.py:185-196 | Reads the question id from the data and the answered question from the registry, raising before any write when either is missing. It remembers the pressed message, then opens as `ask_question` does. |
| `ReplyFlow.ReplyQuestion` | main.py:198-229 | Busy: guidance, END, nothing changed. Otherwise the flag is set first. "reply_info" gets 4 elements, or 5 after "edit_response". The prompt is the only tracked message and "curr_convo". Bad data raises with the writes made so far. |
| `ReplyFlow.ConfirmReply` | main.py:231-253 | Stores the reply text and tracks the user's message, then shows the draft under Confirm/Edit. KeyErrors keep the writes already made. |
| `ReplyFlow.ConfirmedReply` | main.py:255-349 | A missing "reply_msg" or "reply_info", or a question text without a third chunk, raises with nothing changed. A missing "curr_convo" always raises, with the flag and the tracking dict left as they were. When everything is there, a first reply and an amendment each end as `FirstReplySent` / `AmendedReplySent` say. |
| `ReplyFlow.SendFirstReply` | main.py:301-349 | The reply goes to the asker with a follow-up button. The question's message becomes its "[REPLIED]" record with an "Edit Response" button naming the new reply. Both registries are overwritten for this question and this reply, and the flow is closed. A missing "curr_convo" raises after the registry writes, with only "reply_msg" and "reply_info" dropped. |
| `ReplyFlow.SendAmendedReply` | main.py:290-349 | The earlier reply is rebuilt from its stored header and template with a "Last Edit by" line, keeps its id, and gets an "edited" notice. The record keeps its stored template. A missing earlier reply raises with nothing changed. A missing "curr_convo" always raises, with the flag and the tracking dict left as they were. |
| `ReplyFlow.CloseReplyFlow` | main.py:339-347 | "reply_msg" and "reply_info" are dropped. A missing "curr_convo" then raises KeyError with nothing else changed. Otherwise "curr_convo" is dropped, the flag is cleared, and there is one delete per tracked message, or a KeyError when nothing was tracked. |
| `ReplyFlow.EditReply` | main.py:351-358 | Asks for the reply again and returns TYPING_REPLY without touching `user_data`. |
| `ReplyFlow.RestoredButton` | main.py:375-383 | The button `/cancel` puts back under the question: "Edit Response" with the asker and reply ids when amending, "Reply" with the asker id otherwise. |
| `ReplyFlow.CancelReply` | main.py:361-410 | A missing tracking dict raises before any call. Otherwise it tracks `/cancel` and restores exactly one button ("Edit Response" when amending, "Reply" otherwise) when "reply_info" exists. It acknowledges, drops the keys, clears the flag, deletes the tracked messages and then the acknowledgement, and returns END. |
| `Dispatch.Handle` | main.py:457-498 | Runs the handler `Route` picks. Only that handler's conversation moves, and as `Advance` says. Each flow keeps to its own keys. The counter moves only on `confirmed_question`, and the registries only on `confirmed_reply`. A busy "Reply" changes nothing, and a locked-out user stays locked out. |
| `Dispatch.RunAskHandler` | main.py:457-476 | Every "new_question" handler leaves the Reply flow's keys alone, keeps tracking dictionaries well formed, and raises the counter only when confirming. |
| `Dispatch.RunReplyHandler` | main.py:478-498 | Every "new_reply" handler leaves the Ask flow's keys alone. Only `confirmed_reply` writes the registries, and `reply_question` always leaves the flag set. |
| `Dispatch.ReplyPressReachesReplyQuestion` | main.py:479-488 | A "Reply" press with no question conversation open runs `reply_question`, both outside a reply conversation and while a reply is typed. |
| `Dispatch.ReplyToAnotherQuestion` | main.py:198-229 | From a fresh state, pressing "Reply" under one question and then under another question in the same chat leaves the user locked out of replying. |

## Left out

- Transport failures of calls outside a `try` block (sending, editing, answering a callback) are not modelled. Such calls are taken to succeed. Each edit inside a `try` takes its outcome from `Env`.
- `delete_message` waits 1.5 s before deleting an acknowledgement (`asyncio.sleep`). Time is not modelled, only the order of the attempts. Each deletion's own failure is swallowed, so it changes no state.
- `datetime.now` is an input string (`Env.date`). The Asia/Singapore timezone formatting is not modelled.
- Logging, `PicklePersistence`, `start`, the handlers outside the two conversations, the wix web form and its "replyemail" button, and the webhook setup are not part of this model. `/start` and the wix form's message handler are registered before both conversations in the same group (main.py:501-504), so those updates never reach either conversation.
- Telegram's own handling of message text is not modelled: trimming, entity parsing and length limits. Stored and edited texts are exactly the strings the bot passed.
- `Text.ParseInt` and `Text.Words` accept ASCII digits and ASCII whitespace only. Python's `int()` and `str.split()` also accept Unicode digits, Unicode spaces and underscores between digits. The bot's own callback data never contains these.
- A `bot_data` dictionary that was never created reads the same as an empty one. The model therefore keeps plain maps and does not record whether the dictionary exists.
- A KeyError for a missing inner dictionary entry is labelled with the outer key's name ("replies", "answered_questions"). Python would print the missing id.
- Stored Telegram `Message` objects are reduced to chat, id and text.
- `AskFlow.ConfirmedQuestion`: the contract does not state the paths where "last_replied_question" is missing for a follow-up, or where "question_to_delete" or "question_info" is missing. `AskFlow.CloseAskFlow` states the last two.
- `ReplyFlow.ConfirmedReply`: the contract does not state the full effect of the KeyError paths for a missing earlier reply, a missing answered question, a missing "curr_convo" (only that it raises and keeps the flag and the tracking dict), or a missing "reply_to_delete". `ReplyFlow.SendAmendedReply` and `ReplyFlow.CloseReplyFlow` state the first, the third and the last.
- `Dispatch.RunAskHandler`: the contract states only the frame and invariant facts about a run of a "new_question" handler. Each handler's full effect is its own contract.
- `Dispatch.RunReplyHandler`: the contract states only the frame and invariant facts about a run of a "new_reply" handler, and the busy branch of `reply_question`. Each handler's full effect is its own contract.
- `Dispatch.Handle`: the contract states only the frame and invariant facts about a run. Each run's full effect is the contract of the handler it calls.
