/**
 * The chat screen (ChatView.kt): the room identifier, the send and
 * image-attach actions, the live message listener and the keyboard
 * detector. Back-end calls are recorded, not performed: a document write
 * is appended to `writes`, an image upload to `uploads`, a scroll request
 * to `scrolls`; what the back end answers comes in as arguments.
 */
module ChatScreen {
  import opened Wrappers
  import opened Strings
  import opened Records
  import opened MessageList

  // ---------------------------------------------------------------------------
  // Room identifier

  /** `getChatRoomId`: the smaller id, "_", the larger id. */
  function ChatRoomId(user1: string, user2: string): (room: string)
    ensures room == user1 + "_" + user2 || room == user2 + "_" + user1
    ensures |room| == |user1| + |user2| + 1
  {
    if LexLess(user1, user2) then user1 + "_" + user2 else user2 + "_" + user1
  }

  /** Both participants compute the same room, whoever opens the chat. */
  lemma ChatRoomIdCommutes(a: string, b: string)
    ensures ChatRoomId(a, b) == ChatRoomId(b, a)
  {
    if a != b {
      LexLessTotal(a, b);
      if LexLess(a, b) {
        LexLessAsymmetric(a, b);
      } else {
        LexLessAsymmetric(b, a);
      }
    }
  }

  /** The id in front is never the larger one. */
  lemma ChatRoomIdSmallerFirst(a: string, b: string)
    ensures || (ChatRoomId(a, b) == a + "_" + b && !LexLess(b, a))
            || (ChatRoomId(a, b) == b + "_" + a && !LexLess(a, b))
  {
    if LexLess(a, b) {
      LexLessAsymmetric(a, b);
    }
  }

  /** The index of the first "_" in `s`, or `|s|` when there is none. */
  function SeparatorIndex(s: string): (i: nat)
    ensures i <= |s|
  {
    if s == [] || s[0] == '_' then 0 else 1 + SeparatorIndex(s[1..])
  }

  lemma {:induction false} SeparatorAfterFirstId(x: string, y: string)
    requires '_' !in x
    ensures SeparatorIndex(x + "_" + y) == |x|
    decreases |x|
  {
    if x != [] {
      assert (x + "_" + y)[1..] == x[1..] + "_" + y;
      SeparatorAfterFirstId(x[1..], y);
    }
  }

  /** Two ids without "_" are recovered from "x_y". */
  lemma SplitAtSeparator(x: string, y: string, x': string, y': string)
    requires '_' !in x && '_' !in x'
    requires x + "_" + y == x' + "_" + y'
    ensures x == x' && y == y'
  {
    var r := x + "_" + y;
    SeparatorAfterFirstId(x, y);
    SeparatorAfterFirstId(x', y');
    assert x == r[..|x|] == x';
    assert y == r[|x| + 1..] == y';
  }

  /** For ids without "_" (the back end's generated user ids), the room
      determines the unordered pair of participants. */
  lemma ChatRoomIdDeterminesPair(a: string, b: string, c: string, d: string)
    requires '_' !in a && '_' !in b && '_' !in c && '_' !in d
    requires ChatRoomId(a, b) == ChatRoomId(c, d)
    ensures {a, b} == {c, d}
  {
    var r := ChatRoomId(a, b);
    if r == a + "_" + b {
      if r == c + "_" + d { SplitAtSeparator(a, b, c, d); } else { SplitAtSeparator(a, b, d, c); }
    } else {
      if r == c + "_" + d { SplitAtSeparator(b, a, c, d); } else { SplitAtSeparator(b, a, d, c); }
    }
  }

  /** Ids that contain "_" can share a room: "a_b" with "c" and "a" with "b_c". */
  lemma ChatRoomIdCollision()
    ensures ChatRoomId("a_b", "c") == ChatRoomId("a", "b_c") == "a_b_c"
    ensures {"a_b", "c"} != {"a", "b_c"}
  {
    assert "a_b" != "a" && "a_b" != "b_c";
  }

  /** `onCreate`: a room exactly when both participant ids are known. */
  function RoomFor(senderUid: Option<string>, receiverUid: Option<string>): (room: Option<string>)
    ensures room.Some? <==> senderUid.Some? && receiverUid.Some?
    ensures room.Some? ==> room.value == ChatRoomId(senderUid.value, receiverUid.value)
  {
    if senderUid.Some? && receiverUid.Some? then Some(ChatRoomId(senderUid.value, receiverUid.value)) else None
  }

  /** `Bundle.getString(key)` on the screen's (possibly absent) arguments. */
  function ArgumentString(arguments: Option<map<string, string>>, key: string): (v: Option<string>)
    ensures v.Some? <==> arguments.Some? && key in arguments.value
    ensures v.Some? ==> v.value == arguments.value[key]
  {
    if arguments.Some? && key in arguments.value then Some(arguments.value[key]) else None
  }

  // ---------------------------------------------------------------------------
  // Title

  const TITLE_LIMIT: nat := 15

  /** The action-bar title for the peer's `first` field: "Unknown" when it is
      absent, and a name over fifteen characters cut to fifteen plus "…". */
  function ReceiverTitle(first: Option<string>): (title: string)
    ensures first.None? ==> title == "Unknown"
    ensures first.Some? && |first.value| <= TITLE_LIMIT ==> title == first.value
    ensures first.Some? && |first.value| > TITLE_LIMIT ==>
      |title| == TITLE_LIMIT + 1 && title[..TITLE_LIMIT] == first.value[..TITLE_LIMIT] && title[TITLE_LIMIT] == '\U{2026}'
  {
    Truncate(first.GetOr("Unknown"), TITLE_LIMIT, "\U{2026}")
  }

  // ---------------------------------------------------------------------------
  // Sending

  /** A document added to chats/{roomId}/messages. */
  datatype StoreWrite = StoreWrite(roomId: string, message: ChatMessage)

  /** A file put to chat_images/{roomId}/IMG_{fileMillis}.jpg. */
  datatype Upload = Upload(roomId: string, fileMillis: int, imageUri: string)

  /** `sendMessage`: nothing when the room or either participant is unknown,
      otherwise one record from the signed-in user to the peer. */
  function OutgoingMessage(chatRoomId: Option<string>, senderUid: Option<string>, receiverUid: Option<string>,
                           senderName: string, text: string, imageUrl: Option<string>, now: int): (w: Option<StoreWrite>)
    ensures w.None? <==> chatRoomId.None? || senderUid.None? || receiverUid.None?
    ensures w.Some? ==> w.value.roomId == chatRoomId.value
    ensures w.Some? ==> w.value.message.sender == senderUid.value && w.value.message.receiver == receiverUid.value
    ensures w.Some? ==> w.value.message.text == text && w.value.message.imageUrl == imageUrl
    ensures w.Some? ==> w.value.message.senderName == Some(senderName) && w.value.message.timestamp == now
  {
    if chatRoomId.None? || senderUid.None? || receiverUid.None? then None
    else Some(StoreWrite(chatRoomId.value,
      ChatMessage(text, senderUid.value, receiverUid.value, Some(senderName), imageUrl, now)))
  }

  function AsSeq<T>(o: Option<T>): seq<T> {
    if o.Some? then [o.value] else []
  }

  /** What the back end answered to an upload: failure, or success with the
      download URL if resolving it succeeded. */
  datatype UploadResult = UploadFailed | Uploaded(downloadUrl: Option<string>)

  // ---------------------------------------------------------------------------
  // Listening

  datatype ChangeKind = Added | Modified | Removed

  datatype DocumentChange = DocumentChange(kind: ChangeKind, document: ChatMessage)

  /** The documents of the "added" changes of a batch, in delivery order. */
  function AddedDocuments(changes: seq<DocumentChange>): (added: seq<ChatMessage>)
    ensures |added| <= |changes|
  {
    if changes == [] then []
    else
      var last := changes[|changes| - 1];
      AddedDocuments(changes[..|changes| - 1]) + (if last.kind == Added then [last.document] else [])
  }

  /** A message is appended exactly when some change of the batch adds it. */
  lemma {:induction false} AddedDocumentsMembership(changes: seq<DocumentChange>, m: ChatMessage)
    ensures m in AddedDocuments(changes) <==> exists i :: 0 <= i < |changes| && changes[i] == DocumentChange(Added, m)
    decreases |changes|
  {
    if changes != [] {
      var front := changes[..|changes| - 1];
      AddedDocumentsMembership(front, m);
      if i :| 0 <= i < |front| && front[i] == DocumentChange(Added, m) {
        assert changes[i] == front[i];
      }
      if i :| 0 <= i < |changes| && changes[i] == DocumentChange(Added, m) {
        if i < |front| { assert front[i] == changes[i]; }
      }
    }
  }

  /** Delivery order is kept: two batches add what each adds, one after the other. */
  lemma {:induction false} AddedDocumentsConcat(a: seq<DocumentChange>, b: seq<DocumentChange>)
    ensures AddedDocuments(a + b) == AddedDocuments(a) + AddedDocuments(b)
    decreases |b|
  {
    if b == [] {
      assert a + b == a;
    } else {
      var b' := b[..|b| - 1];
      assert (a + b)[..|a + b| - 1] == a + b';
      AddedDocumentsConcat(a, b');
    }
  }

  ghost predicate SortedByTimestamp(ms: seq<ChatMessage>) {
    forall i, j :: 0 <= i < j < |ms| ==> ms[i].timestamp <= ms[j].timestamp
  }

  /** When a batch's added documents are sorted and none is older than the last
      message shown, the list stays sorted after the listener appends them. */
  lemma AppendKeepsTimestampOrder(shown: seq<ChatMessage>, changes: seq<DocumentChange>)
    requires SortedByTimestamp(shown) && SortedByTimestamp(AddedDocuments(changes))
    requires shown != [] && AddedDocuments(changes) != [] ==>
      shown[|shown| - 1].timestamp <= AddedDocuments(changes)[0].timestamp
    ensures SortedByTimestamp(shown + AddedDocuments(changes))
  {
    var batch := AddedDocuments(changes);
    var all := shown + batch;
    forall i, j | 0 <= i < j < |all| ensures all[i].timestamp <= all[j].timestamp {
      if i < |shown| && j >= |shown| {
        assert shown[i].timestamp <= shown[|shown| - 1].timestamp;
        assert batch[0].timestamp <= batch[j - |shown|].timestamp;
      }
    }
  }

  /** The listener appends at the end whatever position the ordered query
      gives an added document, and a timestamp is its writer's clock: a message
      that arrives late with an older timestamp is shown after a newer one. */
  lemma LateArrivalShownOutOfOrder()
    ensures var shown := [ChatMessage("new", "u1", "u2", None, None, 20)];
            var late := ChatMessage("old", "u2", "u1", None, None, 10);
            var changes := [DocumentChange(Added, late)];
            SortedByTimestamp(shown) && AddedDocuments(changes) == [late]
            && !SortedByTimestamp(shown + AddedDocuments(changes))
  {
    var shown := [ChatMessage("new", "u1", "u2", None, None, 20)];
    var late := ChatMessage("old", "u2", "u1", None, None, 10);
    var changes := [DocumentChange(Added, late)];
    assert AddedDocuments(changes) == AddedDocuments([]) + [late];
    assert (shown + [late])[0].timestamp > (shown + [late])[1].timestamp;
  }

  // ---------------------------------------------------------------------------
  // Keyboard detection

  datatype KeyboardUpdate = KeyboardUpdate(showing: bool, scrollRequested: bool)

  /** One layout observation: the flag becomes what was observed, and a
      scroll is requested exactly on a closed-to-open change. */
  function KeyboardStep(showing: bool, isKeyboardOpen: bool): (u: KeyboardUpdate)
    ensures u.showing == isKeyboardOpen
    ensures u.scrollRequested <==> isKeyboardOpen && !showing
  {
    if isKeyboardOpen && !showing then KeyboardUpdate(true, true)
    else if !isKeyboardOpen && showing then KeyboardUpdate(false, false)
    else KeyboardUpdate(showing, false)
  }

  /** For a run of observations from flag `showing`, whether each one requested a scroll. */
  function ScrollRequests(showing: bool, observations: seq<bool>): (fired: seq<bool>)
    ensures |fired| == |observations|
    decreases |observations|
  {
    if observations == [] then []
    else
      var u := KeyboardStep(showing, observations[0]);
      [u.scrollRequested] + ScrollRequests(u.showing, observations[1..])
  }

  /** Observation `i` requests a scroll exactly when it sees the keyboard
      open and the one before it (or the initial flag) did not. */
  lemma {:induction false} ScrollOnRisingEdge(showing: bool, observations: seq<bool>, i: nat)
    requires i < |observations|
    ensures ScrollRequests(showing, observations)[i]
      <==> observations[i] && !(if i == 0 then showing else observations[i - 1])
    decreases i
  {
    if i > 0 {
      var rest := observations[1..];
      ScrollOnRisingEdge(observations[0], rest, i - 1);
      assert rest[i - 1] == observations[i];
      if i > 1 { assert rest[i - 2] == observations[i - 1]; }
    }
  }

  /** Between two scroll requests the keyboard was seen closed. */
  lemma RequestsNeedReopening(showing: bool, observations: seq<bool>, i: nat, j: nat)
    requires i < j < |observations|
    requires ScrollRequests(showing, observations)[i] && ScrollRequests(showing, observations)[j]
    ensures exists k :: i < k < j && !observations[k]
  {
    ScrollOnRisingEdge(showing, observations, i);
    ScrollOnRisingEdge(showing, observations, j);
    assert !observations[j - 1];
  }

  // ---------------------------------------------------------------------------
  // The screen

  /** The signed-in account: its uid and optional display name. */
  datatype AuthUser = AuthUser(uid: string, displayName: Option<string>)

  class ChatView {
    const senderUid: Option<string>
    const currentName: string
    const adapter: ChatAdapter
    var receiverUid: Option<string>
    var chatRoomId: Option<string>
    var isKeyboardShowing: bool
    var editText: string
    var title: string
    /** The room of the attached snapshot listener, if any. */
    var listeningTo: Option<string>
    var writes: seq<StoreWrite>
    var uploads: seq<Upload>
    /** Positions passed to `scrollToPosition`, in order. */
    var scrolls: seq<int>
    ghost var created: bool

    ghost predicate Valid()
      reads this
    {
      && adapter.currentUserUid == senderUid
      && chatRoomId == RoomFor(senderUid, receiverUid)
      && (!created ==> receiverUid.None?)
      && (listeningTo.Some? ==> listeningTo == chatRoomId)
    }

    /** The fragment's field initialisers; the adapter starts empty. */
    constructor (currentUser: Option<AuthUser>)
      ensures Valid() && !created && fresh(adapter)
      ensures senderUid == (if currentUser.Some? then Some(currentUser.value.uid) else None)
      ensures currentName == (if currentUser.Some? then currentUser.value.displayName.GetOr("You") else "You")
      ensures adapter.messages == [] && receiverUid.None? && chatRoomId.None? && listeningTo.None?
      ensures !isKeyboardShowing && editText == "" && writes == [] && uploads == [] && scrolls == []
    {
      senderUid := if currentUser.Some? then Some(currentUser.value.uid) else None;
      currentName := if currentUser.Some? then currentUser.value.displayName.GetOr("You") else "You";
      adapter := new ChatAdapter([], if currentUser.Some? then Some(currentUser.value.uid) else None);
      receiverUid := None;
      chatRoomId := None;
      isKeyboardShowing := false;
      editText := "";
      title := "";
      listeningTo := None;
      writes := [];
      uploads := [];
      scrolls := [];
      created := false;
    }

    /** `onCreate`: reads the peer id and sets the room only when both ids are present. */
    method OnCreate(arguments: Option<map<string, string>>)
      requires Valid() && !created
      modifies this`receiverUid, this`chatRoomId, this`created
      ensures Valid() && created
      ensures receiverUid == ArgumentString(arguments, "receiverUid")
      ensures chatRoomId.Some? <==> senderUid.Some? && receiverUid.Some?
      ensures chatRoomId.Some? ==> chatRoomId.value == ChatRoomId(senderUid.value, receiverUid.value)
    {
      receiverUid := ArgumentString(arguments, "receiverUid");
      if senderUid.Some? && receiverUid.Some? {
        chatRoomId := Some(ChatRoomId(senderUid.value, receiverUid.value));
      }
      created := true;
    }

    /** `listenForMessages`: attaches nothing without a room. */
    method ListenForMessages()
      requires Valid()
      modifies this`listeningTo
      ensures Valid()
      ensures listeningTo == chatRoomId
    {
      if chatRoomId.None? {
        return;
      }
      listeningTo := chatRoomId;
    }

    /** `onCreateView`: attaches the listener, shows "Unknown" and asks for the
        peer's name when the peer id is known. */
    method OnCreateView() returns (requestsReceiverName: bool)
      requires Valid()
      modifies this`listeningTo, this`title
      ensures Valid()
      ensures listeningTo == chatRoomId && title == "Unknown"
      ensures requestsReceiverName <==> receiverUid.Some?
    {
      ListenForMessages();
      title := "Unknown";
      requestsReceiverName := receiverUid.Some?;
    }

    /** The peer's users document arrived; `first` is its display name field. */
    method OnReceiverNameLoaded(first: Option<string>)
      modifies this`title
      ensures title == ReceiverTitle(first)
    {
      var fullName := first.GetOr("Unknown");
      title := if |fullName| > TITLE_LIMIT then fullName[..TITLE_LIMIT] + "\U{2026}" else fullName;
    }

    method OnDestroyView()
      modifies this`title
      ensures title == "Chats"
    {
      title := "Chats";
    }

    /** `sendMessage`: one write, or none when an identifier is missing. */
    method SendMessage(text: string, imageUrl: Option<string>, now: int)
      modifies this`writes
      ensures writes == old(writes) + AsSeq(OutgoingMessage(chatRoomId, senderUid, receiverUid, currentName, text, imageUrl, now))
    {
      if chatRoomId.None? || senderUid.None? || receiverUid.None? {
        return;
      }
      var message := ChatMessage(text, senderUid.value, receiverUid.value, Some(currentName), imageUrl, now);
      writes := writes + [StoreWrite(chatRoomId.value, message)];
    }

    /** The send button: blank input sends nothing and stays; otherwise the
        trimmed text is sent once and the field is cleared. */
    method OnSendClicked(now: int)
      modifies this`writes, this`editText
      ensures Trim(old(editText)) == [] ==> editText == old(editText) && writes == old(writes)
      ensures Trim(old(editText)) != [] ==> editText == ""
      ensures Trim(old(editText)) != [] ==>
        writes == old(writes) + AsSeq(OutgoingMessage(chatRoomId, senderUid, receiverUid, currentName, Trim(old(editText)), None, now))
    {
      var text := Trim(editText);
      if |text| > 0 {
        SendMessage(text, None, now);
        editText := "";
      }
    }

    /** `uploadImageToStorage`: with both ids known, one upload into the room,
        and one "[Image]" message once the download URL is known. */
    method UploadImageToStorage(imageUri: string, fileMillis: int, result: UploadResult, sentAt: int)
      requires Valid()
      modifies this`uploads, this`writes
      ensures senderUid.None? || receiverUid.None? ==> uploads == old(uploads) && writes == old(writes)
      ensures senderUid.Some? && receiverUid.Some? ==>
        chatRoomId.Some? && uploads == old(uploads) + [Upload(chatRoomId.value, fileMillis, imageUri)]
      ensures senderUid.Some? && receiverUid.Some? && result.Uploaded? && result.downloadUrl.Some? ==>
        writes == old(writes) + [StoreWrite(chatRoomId.value,
          ChatMessage(IMAGE_TEXT, senderUid.value, receiverUid.value, Some(currentName), result.downloadUrl, sentAt))]
      ensures !(result.Uploaded? && result.downloadUrl.Some?) ==> writes == old(writes)
    {
      if senderUid.None? || receiverUid.None? {
        return;
      }
      // `chatRoomId!!` cannot fail: Valid() ties the room to the two ids.
      var room := chatRoomId.value;
      uploads := uploads + [Upload(room, fileMillis, imageUri)];
      if result.Uploaded? && result.downloadUrl.Some? {
        SendMessage(IMAGE_TEXT, result.downloadUrl, sentAt);
      }
    }

    /** The image picker's result: uploads only an accepted, non-null pick. */
    method OnImagePicked(resultOk: bool, imageUri: Option<string>, fileMillis: int, result: UploadResult, sentAt: int)
      requires Valid()
      modifies this`uploads, this`writes
      ensures !resultOk || imageUri.None? ==> uploads == old(uploads) && writes == old(writes)
      ensures resultOk && imageUri.Some? && (senderUid.None? || receiverUid.None?) ==>
        uploads == old(uploads) && writes == old(writes)
      ensures resultOk && imageUri.Some? && senderUid.Some? && receiverUid.Some? ==>
        chatRoomId.Some? && uploads == old(uploads) + [Upload(chatRoomId.value, fileMillis, imageUri.value)]
      ensures resultOk && imageUri.Some? && senderUid.Some? && receiverUid.Some? && result.Uploaded? && result.downloadUrl.Some? ==>
        writes == old(writes) + [StoreWrite(chatRoomId.value,
          ChatMessage(IMAGE_TEXT, senderUid.value, receiverUid.value, Some(currentName), result.downloadUrl, sentAt))]
      ensures !(result.Uploaded? && result.downloadUrl.Some?) ==> writes == old(writes)
    {
      if resultOk && imageUri.Some? {
        UploadImageToStorage(imageUri.value, fileMillis, result, sentAt);
      }
    }

    /** The snapshot listener: on error nothing; otherwise every "added" change,
        in delivery order, is appended and then scrolled to. */
    method OnMessagesSnapshot(failed: bool, snapshot: Option<seq<DocumentChange>>)
      requires Valid() && listeningTo.Some?
      modifies adapter, this`scrolls
      ensures failed || snapshot.None? ==> adapter.messages == old(adapter.messages) && scrolls == old(scrolls)
      ensures !failed && snapshot.Some? ==>
        adapter.messages == old(adapter.messages) + AddedDocuments(snapshot.value)
      ensures !failed && snapshot.Some? ==>
        && |scrolls| == |old(scrolls)| + |AddedDocuments(snapshot.value)|
        && scrolls[..|old(scrolls)|] == old(scrolls)
        && forall j :: |old(scrolls)| <= j < |scrolls| ==>
             scrolls[j] == |old(adapter.messages)| + (j - |old(scrolls)|)
    {
      if failed {
        return;
      }
      if snapshot.None? {
        return;
      }
      var changes := snapshot.value;
      var i := 0;
      while i < |changes|
        invariant 0 <= i <= |changes|
        invariant adapter.messages == old(adapter.messages) + AddedDocuments(changes[..i])
        invariant |scrolls| == |old(scrolls)| + |AddedDocuments(changes[..i])|
        invariant scrolls[..|old(scrolls)|] == old(scrolls)
        invariant forall j :: |old(scrolls)| <= j < |scrolls| ==>
          scrolls[j] == |old(adapter.messages)| + (j - |old(scrolls)|)
      {
        assert changes[..i + 1][..i] == changes[..i];
        if changes[i].kind == Added {
          var inserted := adapter.AddMessage(changes[i].document);
          scrolls := scrolls + [adapter.ItemCount() - 1];
        }
        i := i + 1;
      }
      assert changes[..i] == changes;
    }

    /** The global-layout callback with the keyboard's observed state. */
    method OnGlobalLayout(isKeyboardOpen: bool) returns (scrolled: bool)
      modifies this`isKeyboardShowing, this`scrolls
      ensures isKeyboardShowing == KeyboardStep(old(isKeyboardShowing), isKeyboardOpen).showing
      ensures scrolled <==> KeyboardStep(old(isKeyboardShowing), isKeyboardOpen).scrollRequested && adapter.ItemCount() > 0
      ensures scrolls == old(scrolls) + (if scrolled then [adapter.ItemCount() - 1] else [])
    {
      scrolled := false;
      if isKeyboardOpen && !isKeyboardShowing {
        isKeyboardShowing := true;
        if adapter.ItemCount() > 0 {
          scrolls := scrolls + [adapter.ItemCount() - 1];
          scrolled := true;
        }
      } else if !isKeyboardOpen && isKeyboardShowing {
        isKeyboardShowing := false;
      }
    }
  }
}
