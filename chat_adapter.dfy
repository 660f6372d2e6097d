/**
 * The chat screen's message list (ChatAdapter.kt): an append-only list of
 * messages, each shown as a "sent" or a "received" bubble.
 */
module MessageList {
  import opened Wrappers
  import opened Strings
  import opened Records

  const VIEW_TYPE_SENT := 1
  const VIEW_TYPE_RECEIVED := 2

  /** The bubble variant of a message: sent exactly when the signed-in user wrote it.
      With nobody signed in every message is a received one. */
  function ViewTypeOf(m: ChatMessage, currentUserUid: Option<string>): (t: int)
    ensures t == VIEW_TYPE_SENT || t == VIEW_TYPE_RECEIVED
    ensures t == VIEW_TYPE_SENT <==> currentUserUid == Some(m.sender)
  {
    if currentUserUid == Some(m.sender) then VIEW_TYPE_SENT else VIEW_TYPE_RECEIVED
  }

  const NAME_LIMIT: nat := 10

  /** The one-character ellipsis U+2026 that the other screens append. */
  const ELLIPSIS := "\U{2026}"

  /** The suffix as it stands in the adapter's source text: the UTF-8 bytes of
      U+2026 read back as Windows-1252, three characters. */
  const ELLIPSIS_AS_WRITTEN := "\U{E2}\U{20AC}\U{A6}"

  /** `shortenName` exactly as written: a name over ten characters keeps its
      first ten and gets the three-character suffix. */
  function ShortenNameAsWritten(name: string): (r: string)
    ensures |name| <= NAME_LIMIT ==> r == name
    ensures |name| > NAME_LIMIT ==> |r| == NAME_LIMIT + 3 && r[..NAME_LIMIT] == name[..NAME_LIMIT]
    ensures |name| > NAME_LIMIT ==> r[NAME_LIMIT..] == ELLIPSIS_AS_WRITTEN && r[NAME_LIMIT..] != ELLIPSIS
  {
    Truncate(name, NAME_LIMIT, ELLIPSIS_AS_WRITTEN)
  }

  /** An eleven-character name comes out thirteen characters long and does not
      end in an ellipsis. */
  lemma ShortenNameAsWrittenShowsMojibake()
    ensures ShortenNameAsWritten("Alexandrina") == "Alexandri" + "n" + ELLIPSIS_AS_WRITTEN
    ensures |ShortenNameAsWritten("Alexandrina")| == 13
    ensures ShortenNameAsWritten("Alexandrina")[10..] != ELLIPSIS
  {
  }

  /** `shortenName` with the ellipsis it evidently means: a name over ten
      characters becomes exactly its first ten characters and "…". */
  function ShortenName(name: string): (r: string)
    ensures |name| <= NAME_LIMIT ==> r == name
    ensures |name| > NAME_LIMIT ==> |r| == NAME_LIMIT + 1 && r[..NAME_LIMIT] == name[..NAME_LIMIT]
    ensures |name| > NAME_LIMIT ==> r[NAME_LIMIT] == '\U{2026}'
    ensures |r| <= NAME_LIMIT + 1
  {
    Truncate(name, NAME_LIMIT, ELLIPSIS)
  }

  /** The sender label of a bubble: the stored sender name, shortened, when
      the message carries one (even an empty one); otherwise "You" for the
      signed-in user's own messages and "Unknown" for everybody else's. */
  function SenderLabel(m: ChatMessage, currentUserUid: Option<string>): (r: string)
    ensures m.senderName.Some? ==> r == ShortenName(m.senderName.value)
    ensures m.senderName.None? ==> (r == "You" || r == "Unknown")
    ensures m.senderName.None? ==> (r == "You" <==> ViewTypeOf(m, currentUserUid) == VIEW_TYPE_SENT)
    ensures |r| <= NAME_LIMIT + 1
  {
    match m.senderName
    case Some(n) => ShortenName(n)
    case None => if currentUserUid == Some(m.sender) then "You" else "Unknown"
  }

  /** Kotlin's `!isNullOrEmpty()` on the image URL. */
  predicate HasImage(m: ChatMessage)
    ensures m.imageUrl == None || m.imageUrl == Some("") ==> !HasImage(m)
    ensures m.imageUrl.Some? && m.imageUrl != Some("") ==> HasImage(m)
  {
    m.imageUrl.Some? && m.imageUrl.value != ""
  }

  /** What a bubble shows in its body: the image or the text, never both. */
  datatype Body = ImageBody(url: string) | TextBody(text: string)

  /** A bound bubble. The time is kept as the raw timestamp. */
  datatype Row = Row(senderLabel: string, timestamp: int, body: Body)

  /** `onBindViewHolder` for a holder of the given variant. Both branches do
      the same thing, so the row does not depend on the variant. */
  function BindHolder(viewType: int, m: ChatMessage, currentUserUid: Option<string>): (row: Row)
    ensures row.body.ImageBody? <==> HasImage(m)
    ensures row.body.ImageBody? ==> Some(row.body.url) == m.imageUrl
    ensures row.body.TextBody? ==> row.body.text == m.text
    ensures row.senderLabel == SenderLabel(m, currentUserUid) && row.timestamp == m.timestamp
  {
    var name := SenderLabel(m, currentUserUid);
    if viewType == VIEW_TYPE_SENT then
      if HasImage(m) then Row(name, m.timestamp, ImageBody(m.imageUrl.value))
      else Row(name, m.timestamp, TextBody(m.text))
    else
      if HasImage(m) then Row(name, m.timestamp, ImageBody(m.imageUrl.value))
      else Row(name, m.timestamp, TextBody(m.text))
  }

  /** The adapter: the message list it owns and the signed-in user's id. */
  class ChatAdapter {
    var messages: seq<ChatMessage>
    const currentUserUid: Option<string>

    constructor (initial: seq<ChatMessage>, currentUserUid: Option<string>)
      ensures messages == initial && this.currentUserUid == currentUserUid
    {
      messages := initial;
      this.currentUserUid := currentUserUid;
    }

    /** One row per message. */
    function ItemCount(): (n: nat)
      reads this
      ensures n == |messages|
    {
      |messages|
    }

    function GetItemViewType(position: nat): (t: int)
      reads this
      requires position < |messages|
      ensures t == VIEW_TYPE_SENT <==> currentUserUid == Some(messages[position].sender)
      ensures t == VIEW_TYPE_SENT || t == VIEW_TYPE_RECEIVED
    {
      ViewTypeOf(messages[position], currentUserUid)
    }

    /** Row `position` renders `messages[position]`, in the variant its sender selects. */
    function OnBindViewHolder(position: nat): (row: Row)
      reads this
      requires position < |messages|
      ensures row.timestamp == messages[position].timestamp
      ensures row.body.ImageBody? <==> HasImage(messages[position])
      ensures row.body.ImageBody? ==> Some(row.body.url) == messages[position].imageUrl
      ensures row.body.TextBody? ==> row.body.text == messages[position].text
      ensures row.senderLabel == SenderLabel(messages[position], currentUserUid)
    {
      BindHolder(GetItemViewType(position), messages[position], currentUserUid)
    }

    /** Appends `message` and returns the position passed to `notifyItemInserted`. */
    method AddMessage(message: ChatMessage) returns (inserted: nat)
      modifies this
      ensures messages == old(messages) + [message]
      ensures inserted == |old(messages)| && inserted == |messages| - 1
    {
      messages := messages + [message];
      inserted := |messages| - 1;
    }
  }
}
