/**
 * The server-side notification relay (functions/index.js,
 * `sendChatNotification`): on each new message document, either nothing is
 * sent, for a reason, or exactly one push notification is sent to the
 * receiver's registered token. The awaited user lookup and the send are
 * inputs: what the back end answered.
 */
module NotificationRelay {
  import opened Wrappers
  import opened Records

  /** The message fields the function reads; an absent field is None. */
  datatype MessageData = MessageData(
    receiver: Option<string>,
    sender: Option<string>,
    senderName: Option<string>,
    text: Option<string>,
    imageUrl: Option<string>)

  /** JavaScript truthiness of a string field: present and non-empty. */
  predicate Truthy(v: Option<string>) {
    v.Some? && v.value != ""
  }

  /** JavaScript's `v || fallback` on a string field. */
  function OrElse(v: Option<string>, fallback: string): (r: string)
    ensures Truthy(v) ==> r == v.value
    ensures !Truthy(v) ==> r == fallback
  {
    if Truthy(v) then v.value else fallback
  }

  /** The notification title: the sender name, "Someone" when it is missing or empty. */
  function Title(message: MessageData): (title: string)
    ensures title != ""
    ensures Truthy(message.senderName) ==> title == message.senderName.value
    ensures !Truthy(message.senderName) ==> title == "Someone"
  {
    OrElse(message.senderName, "Someone")
  }

  /** The notification body: "<title> sent an image." for an image message
      (text "[Image]" with a non-empty URL), otherwise the text or "". */
  function Body(message: MessageData): (body: string)
    ensures message.text == Some(IMAGE_TEXT) && Truthy(message.imageUrl) ==> body == Title(message) + " sent an image."
    ensures !(message.text == Some(IMAGE_TEXT) && Truthy(message.imageUrl)) ==> body == OrElse(message.text, "")
  {
    var text := OrElse(message.text, "");
    if text == IMAGE_TEXT && Truthy(message.imageUrl) then Title(message) + " sent an image." else text
  }

  /** The receiver's users document as the lookup returns it. */
  datatype UserDoc = UserDoc(fcmToken: Option<string>)

  /** What the awaited user lookup produced. */
  datatype Lookup = LookupFailed(code: Option<string>) | NoDocument | Document(doc: UserDoc)

  /** What the awaited send produced. */
  datatype SendResult = Delivered | SendFailed(code: Option<string>)

  datatype PayloadData = PayloadData(chatRoomId: string, senderUid: string, receiverUid: string, messageType: string)

  datatype AndroidNotification = AndroidNotification(
    channelId: string, priority: string, defaultSound: bool, defaultVibrateTimings: bool)

  datatype Payload = Payload(token: string, title: string, body: string, data: PayloadData, android: AndroidNotification)

  /** The logged classification of a caught error. */
  datatype ErrorCategory = TokenNotRegistered | InvalidToken | MismatchedCredential | Unclassified

  datatype SkipReason = NoMessageData | MissingReceiver | SelfNotification | NoUserDocument | NoFcmToken

  /** The first guards, before any lookup: either stop, or look up this receiver. */
  datatype Plan = Stop(reason: SkipReason) | LookUp(receiverUid: string)

  datatype Outcome =
    | Skipped(reason: SkipReason)
    | Sent(payload: Payload)
    | Failed(category: ErrorCategory, attempted: Option<Payload>)

  function PlanLookup(message: Option<MessageData>): (plan: Plan)
    ensures plan.LookUp? <==>
      message.Some? && Truthy(message.value.receiver) && message.value.sender != message.value.receiver
    ensures plan.LookUp? ==> plan.receiverUid == message.value.receiver.value
    ensures message.None? ==> plan == Stop(NoMessageData)
    ensures message.Some? && !Truthy(message.value.receiver) ==> plan == Stop(MissingReceiver)
    ensures message.Some? && Truthy(message.value.receiver) && message.value.sender == message.value.receiver ==>
      plan == Stop(SelfNotification)
  {
    if message.None? then Stop(NoMessageData)
    else if !Truthy(message.value.receiver) then Stop(MissingReceiver)
    else if message.value.sender == message.value.receiver then Stop(SelfNotification)
    else LookUp(message.value.receiver.value)
  }

  /** The error codes the handler recognises; anything else stays unclassified. */
  function Classify(code: Option<string>): (category: ErrorCategory)
    ensures category == TokenNotRegistered <==> code == Some("messaging/registration-token-not-registered")
    ensures category == InvalidToken <==> code == Some("messaging/invalid-registration-token")
    ensures category == MismatchedCredential <==> code == Some("messaging/mismatched-credential")
  {
    if code == Some("messaging/registration-token-not-registered") then TokenNotRegistered
    else if code == Some("messaging/invalid-registration-token") then InvalidToken
    else if code == Some("messaging/mismatched-credential") then MismatchedCredential
    else Unclassified
  }

  /** The message sent to the receiver's device. */
  function MakePayload(message: MessageData, chatRoomId: string, receiverUid: string, token: string): (p: Payload)
    ensures p.token == token
    ensures p.title == Title(message) && p.body == Body(message)
    ensures p.data.chatRoomId == chatRoomId && p.data.receiverUid == receiverUid && p.data.messageType == "chat"
    ensures p.data.senderUid == OrElse(message.sender, "")
    ensures p.android.channelId == "chat_notifications" && p.android.priority == "high"
    ensures p.android.defaultSound && p.android.defaultVibrateTimings
  {
    Payload(token, Title(message), Body(message),
      PayloadData(chatRoomId, OrElse(message.sender, ""), receiverUid, "chat"),
      AndroidNotification("chat_notifications", "high", true, true))
  }

  /** The whole handler for a message created under chats/{chatRoomId}. */
  function HandleMessageCreated(message: Option<MessageData>, chatRoomId: string, lookup: Lookup, send: SendResult): (outcome: Outcome)
    // the guards before the lookup decide alone
    ensures PlanLookup(message).Stop? ==> outcome == Skipped(PlanLookup(message).reason)
    // after the lookup
    ensures PlanLookup(message).LookUp? && lookup.LookupFailed? ==> outcome == Failed(Classify(lookup.code), None)
    ensures PlanLookup(message).LookUp? && lookup.NoDocument? ==> outcome == Skipped(NoUserDocument)
    ensures PlanLookup(message).LookUp? && lookup.Document? && !Truthy(lookup.doc.fcmToken) ==> outcome == Skipped(NoFcmToken)
    // a send was attempted exactly when every guard passed
    ensures (outcome.Sent? || (outcome.Failed? && outcome.attempted.Some?)) <==>
      PlanLookup(message).LookUp? && lookup.Document? && Truthy(lookup.doc.fcmToken)
    ensures outcome.Sent? <==> PlanLookup(message).LookUp? && lookup.Document? && Truthy(lookup.doc.fcmToken) && send.Delivered?
    ensures outcome.Failed? && outcome.attempted.Some? ==> send.SendFailed? && outcome.category == Classify(send.code)
    // what was sent
    ensures outcome.Sent? ==> outcome.payload.token == lookup.doc.fcmToken.value
    ensures outcome.Sent? ==> outcome.payload.title == Title(message.value) && outcome.payload.body == Body(message.value)
    ensures outcome.Sent? ==>
      outcome.payload.data == PayloadData(chatRoomId, OrElse(message.value.sender, ""), message.value.receiver.value, "chat")
    ensures outcome.Sent? ==> outcome.payload.android == AndroidNotification("chat_notifications", "high", true, true)
    ensures outcome.Failed? && outcome.attempted.Some? ==>
      outcome.attempted.value == MakePayload(message.value, chatRoomId, message.value.receiver.value, lookup.doc.fcmToken.value)
  {
    match PlanLookup(message)
    case Stop(reason) => Skipped(reason)
    case LookUp(receiverUid) =>
      match lookup
      case LookupFailed(code) => Failed(Classify(code), None)
      case NoDocument => Skipped(NoUserDocument)
      case Document(doc) =>
        if !Truthy(doc.fcmToken) then Skipped(NoFcmToken)
        else
          var payload := MakePayload(message.value, chatRoomId, receiverUid, doc.fcmToken.value);
          match send
          case Delivered => Sent(payload)
          case SendFailed(code) => Failed(Classify(code), Some(payload))
  }

  /** A guard that stops before the lookup makes the lookup's and the send's results irrelevant. */
  lemma StopIgnoresBackEnd(message: Option<MessageData>, chatRoomId: string,
                           lookup1: Lookup, send1: SendResult, lookup2: Lookup, send2: SendResult)
    requires PlanLookup(message).Stop?
    ensures HandleMessageCreated(message, chatRoomId, lookup1, send1) == HandleMessageCreated(message, chatRoomId, lookup2, send2)
  {
  }

  /** The empty token that sign-up stores means no notification. */
  lemma SignUpTokenSendsNothing(message: Option<MessageData>, chatRoomId: string, send: SendResult)
    ensures !HandleMessageCreated(message, chatRoomId, Document(UserDoc(Some(""))), send).Sent?
  {
  }
}
