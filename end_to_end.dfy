/**
 * Properties that span components: the directory hands the chat screen a
 * peer, the chat screen writes a record, the relay and both participants'
 * message lists read it.
 */
module EndToEnd {
  import opened Wrappers
  import opened Records
  import opened MessageList
  import opened ChatScreen
  import opened UserDirectory
  import opened NotificationRelay

  /** The document-store view of a record the chat screen wrote. */
  function Stored(m: ChatMessage): MessageData {
    MessageData(Some(m.receiver), Some(m.sender), m.senderName, Some(m.text), m.imageUrl)
  }

  /** Tapping a listed user opens the room shared with that user, never a chat with oneself. */
  lemma DirectoryTapOpensPeerRoom(documents: seq<Option<User>>, me: string, p: nat)
    requires p < |Others(documents, Some(me))|
    ensures var peer := Others(documents, Some(me))[p];
      && peer.uid != me
      && ArgumentString(Some(TapArguments(peer)), "receiverUid") == Some(peer.uid)
      && RoomFor(Some(me), ArgumentString(Some(TapArguments(peer)), "receiverUid")) == Some(ChatRoomId(me, peer.uid))
  {
    OthersExcludeSelf(documents, me, p);
  }

  /** The worked example: "u1" and "u2" both open room "u1_u2". */
  lemma RoomOfU1AndU2()
    ensures ChatRoomId("u1", "u2") == "u1_u2" && ChatRoomId("u2", "u1") == "u1_u2"
  {
    ChatRoomIdCommutes("u1", "u2");
  }

  /** A record written for a peer shows as "sent" to its writer and as
      "received" to the peer. */
  lemma WriterSeesSentPeerSeesReceived(room: string, me: string, peer: string, name: string,
                                       text: string, imageUrl: Option<string>, now: int)
    requires me != peer
    ensures var w := OutgoingMessage(Some(room), Some(me), Some(peer), name, text, imageUrl, now);
      && w.Some?
      && ViewTypeOf(w.value.message, Some(me)) == VIEW_TYPE_SENT
      && ViewTypeOf(w.value.message, Some(peer)) == VIEW_TYPE_RECEIVED
  {
  }

  /** A text message from the screen reaches a peer with a token as one
      notification whose body is the text itself, even when the text is "[Image]". */
  lemma TextMessageNotifiesPeer(room: string, me: string, peer: string, name: string,
                                text: string, now: int, token: string)
    requires peer != "" && me != peer && token != ""
    ensures var w := OutgoingMessage(Some(room), Some(me), Some(peer), name, text, None, now);
      && w.Some?
      && var outcome := HandleMessageCreated(Some(Stored(w.value.message)), w.value.roomId, Document(UserDoc(Some(token))), Delivered);
      && outcome.Sent?
      && outcome.payload.token == token
      && outcome.payload.body == text
      && outcome.payload.title == (if name != "" then name else "Someone")
      && outcome.payload.data == PayloadData(room, me, peer, "chat")
  {
  }

  /** An uploaded image reaches the peer as "<name> sent an image.". */
  lemma ImageMessageNotifiesPeer(room: string, me: string, peer: string, name: string,
                                 downloadUrl: string, now: int, token: string)
    requires peer != "" && me != peer && token != "" && downloadUrl != ""
    ensures var w := OutgoingMessage(Some(room), Some(me), Some(peer), name, IMAGE_TEXT, Some(downloadUrl), now);
      && w.Some?
      && var outcome := HandleMessageCreated(Some(Stored(w.value.message)), w.value.roomId, Document(UserDoc(Some(token))), Delivered);
      && outcome.Sent?
      && outcome.payload.body == (if name != "" then name else "Someone") + " sent an image."
  {
  }

  /** A chat opened from the directory never hits the relay's self-send guard. */
  lemma DirectoryChatsNeverSelfNotify(documents: seq<Option<User>>, me: string, p: nat,
                                      name: string, text: string, imageUrl: Option<string>, now: int)
    requires p < |Others(documents, Some(me))|
    ensures var peer := Others(documents, Some(me))[p];
      var w := OutgoingMessage(RoomFor(Some(me), Some(peer.uid)), Some(me), Some(peer.uid), name, text, imageUrl, now);
      && w.Some?
      && PlanLookup(Some(Stored(w.value.message))) != Stop(SelfNotification)
  {
    OthersExcludeSelf(documents, me, p);
  }
}
