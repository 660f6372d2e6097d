/** The records exchanged between the app and the document store. */
module Records {
  import opened Wrappers

  /**
   * A chat message document under chats/{roomId}/messages.
   * The writer (ChatView.sendMessage) stores `senderName` and `imageUrl`
   * besides the four fields of the ChatMessage data class; `imageUrl` is
   * null for text messages. `timestamp` is epoch milliseconds.
   */
  datatype ChatMessage = ChatMessage(
    text: string,
    sender: string,
    receiver: string,
    senderName: Option<string>,
    imageUrl: Option<string>,
    timestamp: int)

  /** The text of an image message, which the notification relay recognises. */
  const IMAGE_TEXT := "[Image]"

  /** A users/{uid} document as decoded by the directory screen. */
  datatype User = User(uid: string, first: string, email: string)
}
