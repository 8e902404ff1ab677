/**
 * The Telegram `Update` object graph, reduced to what routing reads: which parts
 * are present, the texts they carry, a few presence flags and the sender ids.
 * The bot's own user record (`AbstractBotUser`) lives here as well.
 */
module Telegram {
  import opened Wrappers

  type UserId = int

  /** A document attachment; only its file name is read. */
  datatype Document = Document(fileName: Option<string>)

  datatype Message = Message(
    from: Option<UserId>,
    text: Option<string>,
    isUserMessage: bool,        // sent in a private chat with a user
    isCommand: bool,            // the text starts with a bot-command entity
    hasPhoto: bool,
    document: Option<Document>, // present exactly when `hasDocument` holds
    hasVoice: bool,
    hasAudio: bool,
    hasSuccessfulPayment: bool)

  /** `message` is the message the inline keyboard was attached to; it is null for inline-mode buttons. */
  datatype CallbackQuery = CallbackQuery(from: Option<UserId>, data: Option<string>, message: Option<Message>)

  datatype InlineQuery = InlineQuery(from: Option<UserId>, query: Option<string>)

  datatype PreCheckoutQuery = PreCheckoutQuery(from: Option<UserId>)

  /** Every part is optional; `hasMessage()` and its siblings are `.Some?`. */
  datatype Update = Update(
    message: Option<Message>,
    callbackQuery: Option<CallbackQuery>,
    inlineQuery: Option<InlineQuery>,
    preCheckoutQuery: Option<PreCheckoutQuery>)

  /** A conversational state; `getId()` may be null. */
  datatype UserState = UserState(id: Option<string>)

  /** A known bot user: its conversational state (nullable) and its language code. */
  datatype User = User(state: Option<UserState>, langCode: string)
}
