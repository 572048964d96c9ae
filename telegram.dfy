/**
 * What the bot sees of the Telegram transport: messages, users, inline buttons,
 * the updates that reach a handler, and the calls a handler makes.  The calls are
 * recorded, not performed: their results (ids of sent messages, whether an edit in a
 * `try` block succeeded) come from the environment.
 */
module Telegram {
  import opened Wrappers

  /** A message as (chat id, message id). */
  datatype MsgRef = MsgRef(chat: int, id: int)

  /** A message as the handlers keep it: where it is and its text. */
  datatype Msg = Msg(chat: int, id: int, text: string) {
    function Ref(): MsgRef { MsgRef(chat, id) }
  }

  /** The sender of an update; Telegram may omit the last name and the username. */
  datatype User = User(id: int, firstName: string, lastName: Option<string>, username: Option<string>)

  /** An inline keyboard button; every keyboard of the bot is a single row. */
  datatype Button = Button(caption: string, data: string)

  /** One call of the Bot API, in the order the handler awaits it. */
  datatype Call =
    | AnswerCallback                                               // callback_query.answer()
    | SendMessage(chat: int, text: string, buttons: seq<Button>)  // bot.send_message / chat.send_message
    | ReplyText(to: MsgRef, text: string, buttons: seq<Button>)   // message.reply_text
    | EditText(target: MsgRef, text: string, buttons: seq<Button>) // edit_message_text / message.edit_text
    | ClearButtons(target: MsgRef)                                 // message.edit_reply_markup()
    | DeleteMessage(target: MsgRef)                                // bot.delete_message, failures swallowed

  /**
   * What a handler is given: a command (`/name`), a plain text message, or a press on an
   * inline button carrying `data`, together with the message concerned (the user's own
   * message, or for a button press the message the button is attached to).
   */
  datatype Kind =
    | Command(name: string, message: Msg)
    | PlainText(message: Msg)
    | Callback(data: string, message: Msg)

  datatype Update = Update(sender: User, kind: Kind) {
    /** The chat the update belongs to (Telegram's `effective_chat`). */
    function Chat(): int { kind.message.chat }
  }
}
