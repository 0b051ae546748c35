/** The fields of a chat update that the handlers and middlewares look at. */
module TelegramUpdates {
  import opened Wrappers

  /** A message: the chat it came from, its text, and its sender's user name if sender info is present. */
  datatype Message = Message(chatId: int, text: string, from: Option<string>)

  /** An update, which may carry no message at all. */
  datatype Update = Update(message: Option<Message>)
}
