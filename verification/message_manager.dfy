/**
 * `MessageManager`: the live message list of one open chat (replaced wholesale on every
 * snapshot, undecodable documents dropped) and sending, which appends to the log and then
 * projects the text onto the chat's `lastMessage`.
 */
module MessageManagement {
  import opened Wrappers
  import opened Sequences
  import opened Documents
  import opened ChatRecords
  import ChatService

  /** A message document decoded, with its id replaced by the document id. */
  function MessageFromDocument(d: Doc): Option<Message> {
    match DecodeMessage(d.fields)
    case Some(m) => Some(m.(id := d.id))
    case None => None
  }

  /** The list a snapshot of `chats/{chatId}/messages` publishes. */
  function MessagesFrom(docs: seq<Doc>): seq<Message> {
    CompactMap(docs, MessageFromDocument)
  }

  /** When the store delivers the documents oldest first, the published list is in timestamp order. */
  lemma MessagesOldestFirst(docs: seq<Doc>)
    requires OldestFirst(docs, "timestamp")
    ensures var ms := MessagesFrom(docs);
            forall i, j :: 0 <= i < j < |ms| ==> ms[i].timestamp <= ms[j].timestamp
  {
    var key := (m: Message) => Some(m.timestamp);
    var docKey := (d: Doc) => TimestampKey(d, "timestamp");
    assert forall i, j :: 0 <= i < j < |docs| && docKey(docs[i]).Some? && docKey(docs[j]).Some? ==>
             docKey(docs[i]).value <= docKey(docs[j]).value;
    CompactMapOrdered(docs, MessageFromDocument, docKey, key);
    var ms := MessagesFrom(docs);
    assert ms == CompactMap(docs, MessageFromDocument);
    forall i, j | 0 <= i < j < |ms| ensures ms[i].timestamp <= ms[j].timestamp {
      assert key(ms[i]).value <= key(ms[j]).value;
    }
  }

  /**
   * A published message is exactly the decoding of a snapshot document, and its id is that
   * document's id.
   */
  lemma MessagesExactly(docs: seq<Doc>, m: Message)
    ensures m in MessagesFrom(docs) <==> exists i :: 0 <= i < |docs| && MessageFromDocument(docs[i]) == Some(m)
    ensures m in MessagesFrom(docs) ==> exists i :: 0 <= i < |docs| && docs[i].id == m.id && DecodeMessage(docs[i].fields).Some?
  {
    CompactMapMembership(docs, MessageFromDocument, m);
  }

  /** A document that does not decode is left out silently; its neighbours are all kept, in order. */
  lemma MalformedMessageSkipped(before: seq<Doc>, bad: Doc, after: seq<Doc>)
    requires DecodeMessage(bad.fields).None?
    ensures MessagesFrom(before + [bad] + after) == MessagesFrom(before) + MessagesFrom(after)
  {
    CompactMapAppend(before + [bad], after, MessageFromDocument);
    CompactMapAppend(before, [bad], MessageFromDocument);
  }

  /** When every document decodes, nothing is dropped. */
  lemma WellFormedLogComplete(docs: seq<Doc>)
    requires forall i :: 0 <= i < |docs| ==> DecodeMessage(docs[i].fields).Some?
    ensures |MessagesFrom(docs)| == |docs|
    ensures forall i :: 0 <= i < |docs| ==> MessagesFrom(docs)[i].id == docs[i].id
  {
    CompactMapTotal(docs, MessageFromDocument);
  }

  /**
   * A sent message, delivered after the documents already in the log, is published at the end
   * with the sent text, timestamp and username, under its document id.
   */
  lemma SentMessagePublished(log: seq<Doc>, docId: string, uuid: string, text: string, timestamp: int, username: string)
    ensures MessagesFrom(log + [Doc(docId, MessageFields(uuid, text, timestamp, username))])
            == MessagesFrom(log) + [Message(docId, text, timestamp, username)]
  {
    CompactMapAppend(log, [Doc(docId, MessageFields(uuid, text, timestamp, username))], MessageFromDocument);
  }

  /** `updateData(["lastMessage": content])`: only an existing chat document is updated. */
  function WithLastMessage(chats: map<string, Fields>, chatId: string, content: string): map<string, Fields> {
    if chatId in chats then chats[chatId := chats[chatId]["lastMessage" := StringValue(content)]] else chats
  }

  /**
   * The projection changes one field of one chat: afterwards that chat's `lastMessage` is the
   * content, and every other field and every other chat is as before.
   */
  lemma ProjectionTouchesOnlyLastMessage(chats: map<string, Fields>, chatId: string, content: string)
    ensures WithLastMessage(chats, chatId, content).Keys == chats.Keys
    ensures forall id :: id in chats && id != chatId ==> WithLastMessage(chats, chatId, content)[id] == chats[id]
    ensures chatId in chats ==>
              var f := WithLastMessage(chats, chatId, content)[chatId];
              && f.Keys == chats[chatId].Keys + {"lastMessage"}
              && f["lastMessage"] == StringValue(content)
              && forall k :: k in f && k != "lastMessage" ==> f[k] == chats[chatId][k]
  {
  }

  /** A decodable chat stays decodable under the projection, with only `lastMessage` changed. */
  lemma ProjectionKeepsChat(f: Fields, content: string)
    requires DecodeChat(f).Some?
    ensures DecodeChat(f["lastMessage" := StringValue(content)]) == Some(DecodeChat(f).value.(lastMessage := Some(content)))
  {
  }

  class MessageManager {
    /** The `@Published messages` list shown by the chat screen. */
    var messages: seq<Message>
    /** The chats a snapshot listener has been registered for, in registration order. */
    var listeners: seq<string>

    constructor ()
      ensures messages == [] && listeners == []
    {
      messages, listeners := [], [];
    }

    /** `fetchMessages(for:)`: registers a listener on the chat's messages, oldest first. */
    method FetchMessages(chatId: string)
      modifies this`listeners
      ensures listeners == old(listeners) + [chatId]
    {
      listeners := listeners + [chatId];
    }

    /**
     * One delivery to that listener: an error or a missing snapshot leaves the list alone;
     * documents replace it wholesale with their decodable messages.
     */
    method OnSnapshot(snapshot: Snapshot)
      modifies this`messages
      ensures snapshot.Documents? ==> messages == MessagesFrom(snapshot.docs)
      ensures !snapshot.Documents? ==> messages == old(messages)
    {
      match snapshot {
        case SnapshotError =>
        case NoDocuments =>
        case Documents(docs) =>
          messages := MessagesFrom(docs);
      }
    }

    /**
     * `sendMessage(to:content:)`. Without a signed-in user nothing is written. Otherwise a
     * message with the content and the user's e-mail (or "Unknown") is appended when the store
     * accepts it, and only then is the chat's `lastMessage` set to the content, when that
     * update succeeds.
     */
    method SendMessage(db: Database, user: Option<User>, chatId: string, content: string,
                       uuid: string, timestamp: int, docId: string, appendOk: bool, updateOk: bool)
      modifies db`messages, db`chats
      ensures user.None? || !appendOk ==> db.messages == old(db.messages) && db.chats == old(db.chats)
      ensures user.Some? && appendOk ==>
                && db.messages == old(db.messages)[chatId := old(db.MessageLog(chatId))
                     + [Doc(docId, MessageFields(uuid, content, timestamp, ChatService.EmailOrUnknown(user.value)))]]
                && db.chats == if updateOk then WithLastMessage(old(db.chats), chatId, content) else old(db.chats)
    {
      if user.None? {
        return;
      }
      var message := MessageFields(uuid, content, timestamp, ChatService.EmailOrUnknown(user.value));
      if appendOk {
        db.messages := db.messages[chatId := db.MessageLog(chatId) + [Doc(docId, message)]];
        UpdateLastMessage(db, chatId, content, updateOk);
      }
    }

    /** `updateLastMessage`: a failed update, or a missing chat document, leaves the chats as they were. */
    method UpdateLastMessage(db: Database, chatId: string, content: string, updateOk: bool)
      modifies db`chats
      ensures db.chats == if updateOk then WithLastMessage(old(db.chats), chatId, content) else old(db.chats)
    {
      if updateOk {
        db.chats := WithLastMessage(db.chats, chatId, content);
      }
    }
  }
}
