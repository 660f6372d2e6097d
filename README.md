# BasicChatApp core, modelled in Dafny

BasicChatApp is an Android one-to-one chat client over a hosted document
store, blob store and push service, with one server-side function that
relays new messages as push notifications. This project models the
deterministic rules under its UI and back-end glue and proves properties
about them:

- the room identifier both participants derive from their two user ids;
- the chat screen controller (`ChatView`), modelled as a class. It covers
  the room set in `onCreate`, the trimmed-text send guard, the
  missing-identifier guard of `sendMessage` and the record it writes, the
  `"[Image]"` message after an upload, the snapshot listener that appends
  only "added" changes, and the keyboard flag that scrolls to the bottom on
  a closed-to-open change;
- the message list adapter (`ChatAdapter`): an append-only list, the
  sent/received variant, the sender label, and a row that shows the image
  or the text, never both;
- the notification relay (`sendChatNotification`): a function from the new
  message, the receiver lookup and the send result to "skipped, for a
  reason", "sent one payload" or "failed, classified";
- the user directory (`FirstFragment`, `UserAdapter`): the list of every
  other user, rebuilt in place on each snapshot and refresh, the
  15-character name shortening, and the tap that opens a chat.

Back-end calls are not performed. A document write, an upload and a scroll
request are appended to fields of the controller (`writes`, `uploads`,
`scrolls`). What the back end answers is an argument: the snapshot's
changes, the lookup result, the upload result and the download URL. The
current time is an argument too.

Modules, one per source file: `MessageList` (ChatAdapter.kt), `ChatScreen`
(ChatView.kt), `UserList` (UserAdapter.kt), `UserDirectory`
(FirstFragment.kt), `NotificationRelay` (functions/index.js). Three modules
support them. `Records` holds the message and user records. `Strings` holds
Kotlin's string `<`, `trim()` and `take(n) + suffix`. `Wrappers` holds
`Option`. `EndToEnd` states properties that span components.

Where the design description and the code disagree, the model follows the
code:

- A message whose stored `senderName` is the empty string is labelled with
  the empty string. The "You"/"Unknown" fallback applies only when the field
  is absent.
- The relay returns before the user lookup when sender and receiver are
  equal. It does not look the receiver up first.
- The chat list is in timestamp order only if messages arrive in that order.
  The listener appends every added document at the end, and a timestamp is its
  writer's clock. `ChatScreen.LateArrivalShownOutOfOrder` shows a late message
  with an older timestamp ending up after a newer one.
- The message record carries `senderName` and `imageUrl`. ChatMessage.kt
  declares neither, but the chat screen writes both and the adapter reads
  both.

## Model

| member | source | states |
|---|---|---|
| `Strings.LexLess` | app/src/main/java/com/example/basicchatapp/ChatView.kt:228 | Kotlin's `<` on strings: a proper prefix is less, a string is never less than its own prefix or itself |
| `Strings.LexLessIsFirstDifference` | app/src/main/java/com/example/basicchatapp/ChatView.kt:228 | Kotlin's `<` on strings holds exactly when `a` is a proper prefix of `b`, or when `a` has the smaller char at the first index where they differ |
| `Strings.LexLessIrreflexive` | app/src/main/java/com/example/basicchatapp/ChatView.kt:228 | no id is less than itself |
| `Strings.LexLessAsymmetric` | app/src/main/java/com/example/basicchatapp/ChatView.kt:228 | `a < b` excludes `b < a` |
| `Strings.LexLessTotal` | app/src/main/java/com/example/basicchatapp/ChatView.kt:228 | of two different ids one is less than the other |
| `Strings.IsWhitespace` | app/src/main/java/com/example/basicchatapp/ChatView.kt:82 | `Char.isWhitespace`, which `trim()` uses: ASCII space, tab, newline, carriage return, no-break space and ideographic space are whitespace; letters, digits, "_", zero-width space and the byte-order mark are not |
| `Strings.Trim` | app/src/main/java/com/example/basicchatapp/ChatView.kt:82 | the result is the slice of the input between its leading and trailing whitespace runs: it neither starts nor ends with whitespace, and it is empty exactly when the input is all whitespace |
| `Strings.Truncate` | app/src/main/java/com/example/basicchatapp/ChatView.kt:106 | a string within the limit is kept; a longer one becomes its first `limit` chars followed by the suffix |
| `Strings.TruncateKeepsPrefix` | app/src/main/java/com/example/basicchatapp/UserAdapter.kt:22-26 | the shortened text always starts with the first min(limit, length) chars of the original and is bounded in length |
| `MessageList.ViewTypeOf` | app/src/main/java/com/example/basicchatapp/ChatAdapter.kt:37-40 | the variant is SENT (1) if and only if the sender is the signed-in user, otherwise RECEIVED (2); with nobody signed in every message is received |
| `MessageList.ShortenNameAsWritten` | app/src/main/java/com/example/basicchatapp/ChatAdapter.kt:111-113 | as written: a name of 10 chars or fewer is kept; a longer one keeps its first 10 chars and gets the 3-char suffix "â€¦", 13 chars in all, which is not an ellipsis |
| `MessageList.ShortenNameAsWrittenShowsMojibake` | app/src/main/java/com/example/basicchatapp/ChatAdapter.kt:112 | the 11-char name "Alexandrina" comes out 13 chars long and does not end with "…" |
| `MessageList.ShortenName` | app/src/main/java/com/example/basicchatapp/ChatAdapter.kt:111-113 | corrected: a name of 10 chars or fewer is kept; a longer one becomes exactly its first 10 chars plus "…" (11 chars) |
| `MessageList.SenderLabel` | app/src/main/java/com/example/basicchatapp/ChatAdapter.kt:57-58 | a stored sender name, shortened, when one is present (even an empty one); otherwise "You" exactly when the message is in the sent variant, else "Unknown"; never over 11 chars (with the corrected suffix, see Findings; as written, up to 13) |
| `MessageList.HasImage` | app/src/main/java/com/example/basicchatapp/ChatAdapter.kt:65 | `!imageUrl.isNullOrEmpty()`, tested again at line 86: false for a null and for an empty URL, true for any other |
| `MessageList.BindHolder` | app/src/main/java/com/example/basicchatapp/ChatAdapter.kt:60-100 | in both variants, the row shows the image (its URL) exactly when `imageUrl` is non-null and non-empty, and otherwise shows the message text; it carries the sender label and timestamp |
| `MessageList.ChatAdapter.constructor` | app/src/main/java/com/example/basicchatapp/ChatAdapter.kt:15-18 | the adapter owns the given list and the signed-in user's id |
| `MessageList.ChatAdapter.ItemCount` | app/src/main/java/com/example/basicchatapp/ChatAdapter.kt:104 | one row per message in the list |
| `MessageList.ChatAdapter.GetItemViewType` | app/src/main/java/com/example/basicchatapp/ChatAdapter.kt:37-40 | row p is SENT exactly when `messages[p]` was written by the signed-in user |
| `MessageList.ChatAdapter.OnBindViewHolder` | app/src/main/java/com/example/basicchatapp/ChatAdapter.kt:54-58 | row p renders `messages[p]`: its timestamp, its sender label, and its image or its text |
| `MessageList.ChatAdapter.AddMessage` | app/src/main/java/com/example/basicchatapp/ChatAdapter.kt:106-109 | the new list is the old list plus the message at the end; the notified position is the old length, i.e. the new last index |
| `ChatScreen.ChatRoomId` | app/src/main/java/com/example/basicchatapp/ChatView.kt:227-229 | the room is one id, "_", the other id; its length is the two lengths plus one |
| `ChatScreen.ChatRoomIdCommutes` | app/src/main/java/com/example/basicchatapp/ChatView.kt:226-229 | both participants compute the same room: `ChatRoomId(a, b) == ChatRoomId(b, a)` |
| `ChatScreen.ChatRoomIdSmallerFirst` | app/src/main/java/com/example/basicchatapp/ChatView.kt:228 | the id in front is never the larger of the two |
| `ChatScreen.ChatRoomIdDeterminesPair` | app/src/main/java/com/example/basicchatapp/ChatView.kt:226-229 | for ids without "_", equal rooms mean the same unordered pair of participants |
| `ChatScreen.ChatRoomIdCollision` | app/src/main/java/com/example/basicchatapp/ChatView.kt:226-229 | ids containing "_" can collide: ("a_b", "c") and ("a", "b_c") both give "a_b_c" |
| `ChatScreen.RoomFor` | app/src/main/java/com/example/basicchatapp/ChatView.kt:59-63 | there is a room exactly when both the sender and the receiver ids are present, and it is their room id |
| `ChatScreen.ArgumentString` | app/src/main/java/com/example/basicchatapp/ChatView.kt:57 | `arguments?.getString(key)`: present exactly when the arguments exist and hold the key |
| `ChatScreen.ReceiverTitle` | app/src/main/java/com/example/basicchatapp/ChatView.kt:105-106 | the title is "Unknown" when `first` is absent; a name over 15 chars becomes its first 15 chars plus "…" |
| `ChatScreen.OutgoingMessage` | app/src/main/java/com/example/basicchatapp/ChatView.kt:123-136 | no write exactly when the room, the sender or the receiver is missing; otherwise one record into the room with the sender, the receiver, `senderName` equal to the current name, the given `imageUrl` (null for text) and the given time |
| `ChatScreen.AddedDocuments` | app/src/main/java/com/example/basicchatapp/ChatView.kt:194-199 | the documents of the "added" changes of a batch, never more than the batch has |
| `ChatScreen.AddedDocumentsMembership` | app/src/main/java/com/example/basicchatapp/ChatView.kt:195-197 | a message is appended exactly when some change of the batch is an "added" change of it |
| `ChatScreen.AddedDocumentsConcat` | app/src/main/java/com/example/basicchatapp/ChatView.kt:194 | delivery order is kept: the additions from two batches in a row are those of the first, then those of the second |
| `ChatScreen.AppendKeepsTimestampOrder` | app/src/main/java/com/example/basicchatapp/ChatView.kt:187 | if the added documents of a batch are in timestamp order and none is older than the last message shown, the list the listener builds stays sorted by timestamp |
| `ChatScreen.LateArrivalShownOutOfOrder` | app/src/main/java/com/example/basicchatapp/ChatView.kt:194-198 | the listener appends at the end, ignoring where the ordered query puts a document: a message shown with timestamp 20, then a late "added" message with timestamp 10, gives a list that is not sorted |
| `ChatScreen.KeyboardStep` | app/src/main/java/com/example/basicchatapp/ChatView.kt:212-220 | after an observation the flag equals what was observed; a scroll is requested exactly on a closed-to-open change |
| `ChatScreen.ScrollRequests` | app/src/main/java/com/example/basicchatapp/ChatView.kt:208-221 | one scroll-request answer per layout observation |
| `ChatScreen.ScrollOnRisingEdge` | app/src/main/java/com/example/basicchatapp/ChatView.kt:212-217 | observation i requests a scroll exactly when it sees the keyboard open and the previous observation (or the initial flag) did not |
| `ChatScreen.RequestsNeedReopening` | app/src/main/java/com/example/basicchatapp/ChatView.kt:212-220 | repeated "open" observations do not re-fire: between two scroll requests the keyboard was seen closed |
| `ChatScreen.ChatView.constructor` | app/src/main/java/com/example/basicchatapp/ChatView.kt:27-42 | the sender is the signed-in uid; the current name is the display name, or "You"; no receiver and no room; keyboard flag false; empty list |
| `ChatScreen.ChatView.OnCreate` | app/src/main/java/com/example/basicchatapp/ChatView.kt:55-64 | the receiver comes from the "receiverUid" argument; the room is set exactly when both ids are present, to their room id |
| `ChatScreen.ChatView.ListenForMessages` | app/src/main/java/com/example/basicchatapp/ChatView.kt:181-188 | a listener on the room is attached exactly when the room is set |
| `ChatScreen.ChatView.OnCreateView` | app/src/main/java/com/example/basicchatapp/ChatView.kt:94-112 | attaches the listener as above, shows "Unknown", and asks for the peer's name exactly when the receiver id is known |
| `ChatScreen.ChatView.OnReceiverNameLoaded` | app/src/main/java/com/example/basicchatapp/ChatView.kt:104-108 | the title becomes the receiver title of the loaded `first` field |
| `ChatScreen.ChatView.OnDestroyView` | app/src/main/java/com/example/basicchatapp/ChatView.kt:117-120 | the title is reset to "Chats" |
| `ChatScreen.ChatView.SendMessage` | app/src/main/java/com/example/basicchatapp/ChatView.kt:123-148 | writes exactly the record of `OutgoingMessage`, or nothing when an identifier is missing |
| `ChatScreen.ChatView.OnSendClicked` | app/src/main/java/com/example/basicchatapp/ChatView.kt:81-87 | empty or all-whitespace input sends nothing and leaves the field; otherwise one send with the trimmed text and no image, then the field is cleared |
| `ChatScreen.ChatView.UploadImageToStorage` | app/src/main/java/com/example/basicchatapp/ChatView.kt:159-179 | nothing without both ids; otherwise one upload into the room (whose `!!` cannot fail), and one "[Image]" message carrying the download URL only after the upload and the URL both succeed |
| `ChatScreen.ChatView.OnImagePicked` | app/src/main/java/com/example/basicchatapp/ChatView.kt:46-53 | a rejected pick or one without a URI changes nothing; an accepted pick with a URI behaves as the upload: nothing without both ids, else one upload into the room and, after a successful upload with a URL, one "[Image]" message carrying it |
| `ChatScreen.ChatView.OnMessagesSnapshot` | app/src/main/java/com/example/basicchatapp/ChatView.kt:188-201 | on error or without a snapshot nothing is appended; otherwise the adapter's list grows by exactly the "added" documents in delivery order, and each is followed by a scroll to its own new index |
| `ChatScreen.ChatView.OnGlobalLayout` | app/src/main/java/com/example/basicchatapp/ChatView.kt:208-221 | the flag follows `KeyboardStep`; a scroll to the last index happens exactly on a closed-to-open change with a non-empty list |
| `UserList.DisplayName` | app/src/main/java/com/example/basicchatapp/UserAdapter.kt:22-26 | a name of 15 chars or fewer is shown unchanged; a longer one as its first 15 chars plus "...", 18 chars; the shown name starts with the first min(15, length) chars |
| `UserList.Bind` | app/src/main/java/com/example/basicchatapp/UserAdapter.kt:20-34 | the row shows the display name and email; a tap on the row and on the chat icon both report the row's user |
| `UserList.ItemCount` | app/src/main/java/com/example/basicchatapp/UserAdapter.kt:47 | one row per user |
| `UserList.OnBindViewHolder` | app/src/main/java/com/example/basicchatapp/UserAdapter.kt:43-45 | row p is bound from `users[p]`, and both its taps report `users[p]` |
| `UserDirectory.Others` | app/src/main/java/com/example/basicchatapp/FirstFragment.kt:81-89 | the list built from a snapshot is never longer than the snapshot |
| `UserDirectory.OthersMembership` | app/src/main/java/com/example/basicchatapp/FirstFragment.kt:83-87 | a user is listed exactly when the snapshot holds it decoded and its uid is not the signed-in uid |
| `UserDirectory.OthersExcludeSelf` | app/src/main/java/com/example/basicchatapp/FirstFragment.kt:85 | the signed-in user never appears in the list |
| `UserDirectory.OthersConcat` | app/src/main/java/com/example/basicchatapp/FirstFragment.kt:83-88 | document order is kept: the list of a concatenation is the concatenation of the lists |
| `UserDirectory.OthersIdempotent` | app/src/main/java/com/example/basicchatapp/FirstFragment.kt:82-88 | filtering an already built list again gives the same list |
| `UserDirectory.TapArguments` | app/src/main/java/com/example/basicchatapp/FirstFragment.kt:49-51 | the navigation carries exactly one argument, "receiverUid", equal to the tapped user's uid |
| `UserDirectory.FirstFragment.constructor` | app/src/main/java/com/example/basicchatapp/FirstFragment.kt:25-28 | the shared list starts empty |
| `UserDirectory.FirstFragment.OnUsersSnapshot` | app/src/main/java/com/example/basicchatapp/FirstFragment.kt:75-91 | an error or a missing snapshot leaves the list unchanged; otherwise the list is cleared and becomes exactly `Others(snapshot)`, independent of its old contents, so applying the same snapshot twice gives the same list |
| `UserDirectory.FirstFragment.OnRefreshSucceeded` | app/src/main/java/com/example/basicchatapp/FirstFragment.kt:97-108 | the list is rebuilt with the same filter and the refreshing indicator is cleared |
| `UserDirectory.FirstFragment.OnRefreshFailed` | app/src/main/java/com/example/basicchatapp/FirstFragment.kt:109-112 | the list is unchanged and the refreshing indicator is cleared |
| `UserDirectory.FirstFragment.OnUserClicked` | app/src/main/java/com/example/basicchatapp/FirstFragment.kt:47-53 | one navigation to the chat screen with the user's uid as "receiverUid" |
| `NotificationRelay.OrElse` | functions/index.js:24-25 | JavaScript's `v \|\| fallback` on a string field: the value when present and non-empty, else the fallback |
| `NotificationRelay.Title` | functions/index.js:24 | the title is the sender name, and exactly "Someone" when it is missing or empty; never empty |
| `NotificationRelay.Body` | functions/index.js:25-36 | "<title> sent an image." exactly when the text is "[Image]" and the image URL is truthy; otherwise the text or "" |
| `NotificationRelay.PlanLookup` | functions/index.js:17-47 | a user lookup happens exactly when there is message data, a truthy receiver and a sender different from it; otherwise the handler stops with the missing-data, missing-receiver or self-send reason |
| `NotificationRelay.Classify` | functions/index.js:116-122 | the three named error codes map one-to-one to their categories; every other code is unclassified |
| `NotificationRelay.MakePayload` | functions/index.js:76-96 | the payload carries the receiver's token, the title, the body, data {room, sender or "", receiver, "chat"} and the Android block: channel "chat_notifications", priority "high", default sound and vibration |
| `NotificationRelay.HandleMessageCreated` | functions/index.js:8-123 | early guards decide alone; a failed lookup is classified, a missing document or a falsy token skips; one send is attempted exactly when every guard passes; the payload carries the token, title, body, data {room, sender or "", receiver, "chat"} and the "chat_notifications" channel; a send failure is classified and not retried |
| `NotificationRelay.StopIgnoresBackEnd` | functions/index.js:38-47 | when a guard stops before the lookup, nothing the back end would answer has any effect |
| `NotificationRelay.SignUpTokenSendsNothing` | functions/index.js:70-73 | the empty token stored at sign-up never gets a notification sent |
| `EndToEnd.DirectoryTapOpensPeerRoom` | app/src/main/java/com/example/basicchatapp/FirstFragment.kt:47-52 | tapping a listed user opens the chat screen with that uid, in the room shared with that user, never with oneself |
| `EndToEnd.RoomOfU1AndU2` | app/src/main/java/com/example/basicchatapp/ChatView.kt:227-229 | "u1" and "u2" both derive room "u1_u2" |
| `EndToEnd.WriterSeesSentPeerSeesReceived` | app/src/main/java/com/example/basicchatapp/ChatAdapter.kt:37-40 | a record written for a peer is in the sent variant on its writer's list and in the received variant on the peer's |
| `EndToEnd.TextMessageNotifiesPeer` | functions/index.js:76-95 | a text message from the chat screen reaches a peer with a token as one notification whose body is the text (even "[Image]", which has no URL) and whose data names the room, sender and receiver |
| `EndToEnd.ImageMessageNotifiesPeer` | functions/index.js:33-36 | an uploaded image reaches the peer as "<name> sent an image." |
| `EndToEnd.DirectoryChatsNeverSelfNotify` | functions/index.js:44-47 | a message written in a chat opened from the directory never hits the relay's self-send guard |

## Findings

| source | as written | input that shows it | evidently intended | confidence | as-written member | corrected member |
|---|---|---|---|---|---|---|
| app/src/main/java/com/example/basicchatapp/ChatAdapter.kt:112 | the suffix literal is "â€¦", the UTF-8 bytes of "…" read back as Windows-1252: three characters | the sender name "Alexandrina" (11 chars) is shown as "Alexandrin" followed by "â€¦", 13 chars | the one-character ellipsis "…" that ChatView.kt:106 uses, giving exactly 10 chars plus an ellipsis | high, not executed | `MessageList.ShortenNameAsWritten`, `MessageList.ShortenNameAsWrittenShowsMojibake` | `MessageList.ShortenName` (used by `MessageList.SenderLabel`) |

## Left out

- Firestore, Storage, Auth and Messaging calls are not performed. Their
  results (snapshot changes, lookups, upload results, download URLs, send
  results) are arguments. The model's `writes`, `uploads`, `scrolls` and
  `navigations` fields record the requests.
- Callback ordering and concurrency: each callback is one method call. The
  order of events is the order of calls. Concurrent sends from two
  participants are not modelled. Nor is the trigger being delivered more
  than once: each delivery is one call of `HandleMessageCreated`.
- `ChatScreen.ChatView.OnGlobalLayout`: the `recyclerMessages.post { … }`
  runnable is modelled as running at once. The item count it reads is the
  count at the time of the layout callback.
- The keyboard detector's `heightDiff > height * 0.15` test is floating
  point. The model takes `isKeyboardOpen` as an argument.
- Time formatting with `SimpleDateFormat("h:mm a", Locale.getDefault())`
  depends on the locale and clock. A row keeps the raw timestamp.
  `System.currentTimeMillis()` is an argument.
- Glide image loading, view visibility and RecyclerView notifications are
  not modelled. `MessageList.ChatAdapter.AddMessage` returns the notified
  position. A row's `Body` says which of image and text is shown.
- Kotlin compares and counts strings by UTF-16 code units. Dafny characters
  are Unicode scalar values. The two agree on the Basic Multilingual Plane,
  but above it the ordering of `ChatScreen.ChatRoomId` and the lengths used
  by the name shortenings can differ. Splitting a surrogate pair with
  `take` is not modelled.
- JavaScript message fields of non-string types are not modelled: every
  field of `NotificationRelay.MessageData` is a string or absent. The
  relay's `console` logging is not modelled. The error categories stand for
  the log lines.
- `ChatScreen.ChatView.OnCreate`: the screen is created once (a ghost flag
  records this). The adapter is allocated with the controller rather than in
  `onCreateView`, and a recreated view with a fresh adapter is not modelled.
- Android `Log.e`, `Log.w` and `Log.d` calls are not modelled (ChatView.kt and FirstFragment.kt). They have no effect on state.
- The image picker intent and the saved `previousTitle`, which is never
  read, are not modelled.
- MyFirebaseMessagingService.kt, MainActivity.kt, SignUpActivity.kt and
  ImagePreviewFragment.kt are not part of this model. They hold platform
  notification, permission, dialog and sign-up plumbing. From sign-up only
  the empty stored token is used, in
  `NotificationRelay.SignUpTokenSendsNothing`. The relay's data payload
  carries no `action` or `senderName` key, so it can never satisfy the
  `open_chat` check of the client's messaging service.
- The `User` class is not part of this model's sources. Its fields are taken
  as `uid`, `first` and `email`, the ones the directory and adapters read.
- `ChatMessage` is given an optional `senderName` and `imageUrl` and a
  whole-number timestamp. The 64-bit width of `Long` is not modelled,
  because timestamps are only compared and shown.
