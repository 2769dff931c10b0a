/**
 * The records the chat front end passes around: staged or attached files,
 * messages and chats. Dates are milliseconds since the epoch, as `nat`.
 */
module Types {

  datatype Option<+T> = None | Some(value: T)

  /** A point in time, in milliseconds (what `Date.getTime()` returns). */
  type Time = nat

  /** The author of a message. */
  datatype Role = User | Bot

  /**
   * A file handed to the composer. `url` is the opaque object-URL handle;
   * `mimeType` is the browser-reported `type` field.
   */
  datatype UploadedFile = UploadedFile(id: string, name: string, size: nat, mimeType: string, url: string)

  /** One entry of a chat; `files` is absent rather than empty when nothing was attached. */
  datatype ChatMessage = ChatMessage(
    id: string,
    content: string,
    role: Role,
    timestamp: Time,
    files: Option<seq<UploadedFile>>)

  /** A conversation: a title, its messages in order, and its two timestamps. */
  datatype Chat = Chat(
    id: string,
    title: string,
    messages: seq<ChatMessage>,
    createdAt: Time,
    updatedAt: Time)
}
