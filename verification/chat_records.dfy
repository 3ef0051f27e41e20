/**
 * The chat record shapes (`Chat`, `Message`) and the lenient `ServerTimestamp` wrapper:
 * how stored fields decode into records and what the writers store.
 */
module ChatRecords {
  import opened Wrappers
  import opened Documents

  /** A conversation; `id` is filled in from the document id after decoding. */
  datatype Chat = Chat(id: Option<string>, participants: seq<string>, lastMessage: Option<string>, createdAt: Option<int>)

  /** A message of a conversation's log. */
  datatype Message = Message(id: string, text: string, timestamp: int, username: string)

  /** `ServerTimestamp.init(from:)`: a timestamp gives its date; any other value gives nil, never an error. */
  function DecodeServerTimestamp(v: Value): (d: Option<int>) {
    if v.TimestampValue? then Some(v.t) else None
  }

  /** `ServerTimestamp.encode(to:)`: the wrapped optional date as one value (nil as null). */
  function EncodeServerTimestamp(d: Option<int>): (v: Value)
    ensures DecodeServerTimestamp(v) == d
    ensures d.None? ==> v == NullValue
  {
    match d
    case Some(t) => TimestampValue(t)
    case None => NullValue
  }

  /** Decoding never fails, and yields a date exactly for a timestamp value. */
  lemma ServerTimestampLenient(v: Value)
    ensures DecodeServerTimestamp(v).Some? <==> v.TimestampValue?
    ensures v.TimestampValue? ==> DecodeServerTimestamp(v) == Some(v.t)
    ensures v.StringValue? || v.NullValue? || v.IntValue? ==> DecodeServerTimestamp(v) == None
  {
  }

  /**
   * The synthesized `Chat` decoder: `participants` must be a string array; `id` and
   * `lastMessage` may be absent or null but not of another type; the `createdAt` key must be
   * present (its wrapper is not optional) while its value is read leniently.
   */
  function DecodeChat(f: Fields): (r: Option<Chat>) {
    var id := OptionalString(f, "id");
    var participants := RequiredStrings(f, "participants");
    var lastMessage := OptionalString(f, "lastMessage");
    if id.Some? && participants.Some? && lastMessage.Some? && "createdAt" in f then
      Some(Chat(id.value, participants.value, lastMessage.value, DecodeServerTimestamp(f["createdAt"])))
    else None
  }

  /** The synthesized `Message` decoder: all four keys are required with their types. */
  function DecodeMessage(f: Fields): (r: Option<Message>) {
    var id := RequiredString(f, "id");
    var text := RequiredString(f, "text");
    var timestamp := RequiredDate(f, "timestamp");
    var username := RequiredString(f, "username");
    if id.Some? && text.Some? && timestamp.Some? && username.Some? then
      Some(Message(id.value, text.value, timestamp.value, username.value))
    else None
  }

  /** The record a new chat is written as (`chatData`). */
  function ChatFields(participants: seq<string>, createdAt: int, lastMessage: string): Fields {
    map["participants" := StringArray(participants), "createdAt" := TimestampValue(createdAt),
        "lastMessage" := StringValue(lastMessage)]
  }

  /** The record a new message is written as. */
  function MessageFields(id: string, text: string, timestamp: int, username: string): Fields {
    map["id" := StringValue(id), "text" := StringValue(text), "timestamp" := TimestampValue(timestamp),
        "username" := StringValue(username)]
  }

  /** A written chat record reads back with no id, its participants, first message and creation time. */
  lemma ChatFieldsRoundTrip(participants: seq<string>, createdAt: int, lastMessage: string)
    ensures DecodeChat(ChatFields(participants, createdAt, lastMessage))
            == Some(Chat(None, participants, Some(lastMessage), Some(createdAt)))
  {
  }

  /** A written message record reads back as the same message. */
  lemma MessageFieldsRoundTrip(id: string, text: string, timestamp: int, username: string)
    ensures DecodeMessage(MessageFields(id, text, timestamp, username)) == Some(Message(id, text, timestamp, username))
  {
  }

  /**
   * `participants` and the `createdAt` key are all a chat needs: `id` and `lastMessage` may be
   * missing, and a `createdAt` that is not a timestamp reads as nil.
   */
  lemma ChatMinimalRecord(participants: seq<string>, createdAt: Value)
    ensures DecodeChat(map["participants" := StringArray(participants), "createdAt" := createdAt])
            == Some(Chat(None, participants, None, DecodeServerTimestamp(createdAt)))
  {
  }

  /** A chat record without a string-array `participants`, or without `createdAt`, does not decode. */
  lemma ChatRequiredKeys(f: Fields)
    requires "participants" !in f || !f["participants"].StringArray? || "createdAt" !in f
    ensures DecodeChat(f).None?
  {
  }

  /** A message record decodes only when all four keys hold values of their types, and then to exactly those values. */
  lemma MessageRequiredKeys(f: Fields)
    requires DecodeMessage(f).Some?
    ensures "id" in f && f["id"].StringValue? && "text" in f && f["text"].StringValue?
    ensures "timestamp" in f && f["timestamp"].TimestampValue? && "username" in f && f["username"].StringValue?
    ensures DecodeMessage(f).value == Message(f["id"].s, f["text"].s, f["timestamp"].t, f["username"].s)
  {
  }
}
