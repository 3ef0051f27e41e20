/**
 * `ChatService`: conversation identity, chat creation (chat record, then first message),
 * the per-user chat listener's decoding, and display-name lookup.
 */
module ChatService {
  import opened Wrappers
  import opened Text
  import opened Sequences
  import opened Documents
  import opened ChatRecords

  /** `[currentUserId, userId].sorted()`. */
  function SortedPair(a: string, b: string): (p: seq<string>)
    ensures |p| == 2 && multiset(p) == multiset{a, b}
    ensures !Below(p[1], p[0])
  {
    BelowTrichotomy(a, b);
    if Below(b, a) then [b, a] else [a, b]
  }

  /** The chat id: the sorted pair joined with `_`. */
  function ChatIdOf(a: string, b: string): string {
    Join(SortedPair(a, b), "_")
  }

  /** The id is the lower uid, `_`, the higher uid. */
  lemma ChatIdShape(a: string, b: string)
    ensures !Below(b, a) ==> ChatIdOf(a, b) == a + "_" + b
    ensures Below(b, a) ==> ChatIdOf(a, b) == b + "_" + a
  {
  }

  /** Either party derives the same id. */
  lemma ChatIdCommutative(a: string, b: string)
    ensures ChatIdOf(a, b) == ChatIdOf(b, a)
  {
    BelowTrichotomy(a, b);
  }

  /**
   * For uids without `_`, two pairs get the same id exactly when they are the same unordered
   * pair.
   */
  lemma ChatIdInjective(a: string, b: string, c: string, d: string)
    requires '_' !in a && '_' !in b && '_' !in c && '_' !in d
    ensures ChatIdOf(a, b) == ChatIdOf(c, d) <==> multiset{a, b} == multiset{c, d}
  {
    if ChatIdOf(a, b) == ChatIdOf(c, d) {
      SameIdSamePair(a, b, c, d);
    }
    if multiset{a, b} == multiset{c, d} {
      PairFromMultiset(a, b, c, d);
      if a != c {
        ChatIdCommutative(c, d);
      }
    }
  }

  /** Ids of `_`-free uids split back into their sorted pairs. */
  lemma SameIdSamePair(a: string, b: string, c: string, d: string)
    requires '_' !in a && '_' !in b && '_' !in c && '_' !in d
    requires ChatIdOf(a, b) == ChatIdOf(c, d)
    ensures SortedPair(a, b) == SortedPair(c, d)
  {
    var p, q := SortedPair(a, b), SortedPair(c, d);
    assert p[0] in multiset(p) && q[0] in multiset(q);
    assert p[0] + ['_'] + p[1] == q[0] + ['_'] + q[1];
    SplitAtSeparator(p[0], p[1], q[0], q[1], '_');
    assert p == [p[0], p[1]] == [q[0], q[1]] == q;
  }

  /** Equal two-element multisets hold the same elements, in one order or the other. */
  lemma PairFromMultiset(a: string, b: string, c: string, d: string)
    requires multiset{a, b} == multiset{c, d}
    ensures (a == c && b == d) || (a == d && b == c)
  {
    assert a in multiset{c, d};
    if a == c {
      assert multiset{b} == multiset{a, b} - multiset{a} == multiset{d};
      assert b in multiset{d};
    } else {
      assert multiset{b} == multiset{a, b} - multiset{a} == multiset{c};
      assert b in multiset{c};
    }
  }

  /** Without the no-`_` condition ids collide: two different pairs share `a_b_c`. */
  lemma ChatIdCollisionWithSeparator()
    ensures ChatIdOf("a_b", "c") == ChatIdOf("a", "b_c") == "a_b_c"
  {
    assert Below("a_b", "c");
    assert Below("a", "b_c");
  }

  /** `currentUser.email ?? "Unknown"`, the username stamped on sent messages. */
  function EmailOrUnknown(user: User): string {
    user.email.GetOr("Unknown")
  }

  /** `[firstName, lastName].compactMap { $0 }.joined(separator: " ")`, nil when empty. */
  function FullName(first: Option<string>, last: Option<string>): (r: Option<string>) {
    var parts := (if first.Some? then [first.value] else []) + (if last.Some? then [last.value] else []);
    var full := Join(parts, " ");
    if full == "" then None else Some(full)
  }

  /**
   * The present names are joined with one space; the result is nil exactly when it would be
   * empty, which needs at most one name and that one empty.
   */
  lemma FullNameCases(first: Option<string>, last: Option<string>)
    ensures first.Some? && last.Some? ==> FullName(first, last) == Some(first.value + " " + last.value)
    ensures first.Some? && last.None? ==> FullName(first, last) == if first.value == "" then None else first
    ensures first.None? && last.Some? ==> FullName(first, last) == if last.value == "" then None else last
    ensures first.None? && last.None? ==> FullName(first, last) == None
    ensures FullName(first, last).Some? ==> FullName(first, last).value != ""
  {
  }

  /** The name shown for a profile record: its string `firstName` and `lastName`. */
  function ProfileName(f: Fields): Option<string> {
    FullName(RequiredString(f, "firstName"), RequiredString(f, "lastName"))
  }

  /**
   * `fetchUserName`: nil when the lookup errors or the profile document is missing, otherwise
   * the composed full name (itself nil when empty).
   */
  method FetchUserName(db: Database, uid: string, lookupFails: bool) returns (name: Option<string>)
    ensures lookupFails || uid !in db.users ==> name == None
    ensures !lookupFails && uid in db.users ==> name == ProfileName(db.users[uid])
    ensures name.Some? ==> name.value != ""
  {
    if lookupFails {
      name := None;
    } else if uid in db.users {
      name := ProfileName(db.users[uid]);
      FullNameCases(RequiredString(db.users[uid], "firstName"), RequiredString(db.users[uid], "lastName"));
    } else {
      name := None;
    }
  }

  /** A chat document decoded, with its id replaced by the document id. */
  function ChatFromDocument(d: Doc): Option<Chat> {
    match DecodeChat(d.fields)
    case Some(c) => Some(c.(id := Some(d.id)))
    case None => None
  }

  /**
   * What one delivery of the `fetchChats` listener hands to its completion: nothing when no
   * one is signed in or on an error or a missing snapshot, otherwise the decodable chats in
   * snapshot order.
   */
  function FetchedChats(user: Option<User>, snapshot: Snapshot): seq<Chat> {
    if user.None? then []
    else match snapshot
      case SnapshotError => []
      case NoDocuments => []
      case Documents(docs) => CompactMap(docs, ChatFromDocument)
  }

  /** The listener's filter: `participants` array-contains the uid. */
  predicate IncludesParticipant(d: Doc, uid: string) {
    "participants" in d.fields && d.fields["participants"].StringArray? ==> uid in d.fields["participants"].items
  }

  /** Without a user, or on an error or a missing snapshot, the completion gets the empty list. */
  lemma FetchedChatsFailures(user: Option<User>, snapshot: Snapshot)
    requires user.None? || !snapshot.Documents?
    ensures FetchedChats(user, snapshot) == []
  {
  }

  /**
   * Every chat handed out contains the signed-in user, carries the id of a snapshot document
   * and is that document's decoding; every decodable document is handed out.
   */
  lemma {:induction false} FetchedChatsExactly(user: User, docs: seq<Doc>, c: Chat)
    requires forall d :: d in docs ==> IncludesParticipant(d, user.uid)
    ensures c in FetchedChats(Some(user), Documents(docs)) <==>
              exists i :: 0 <= i < |docs| && ChatFromDocument(docs[i]) == Some(c)
    ensures c in FetchedChats(Some(user), Documents(docs)) ==>
              user.uid in c.participants && c.id.Some? &&
              exists i :: 0 <= i < |docs| && docs[i].id == c.id.value
  {
    CompactMapMembership(docs, ChatFromDocument, c);
    if c in FetchedChats(Some(user), Documents(docs)) {
      var i :| 0 <= i < |docs| && ChatFromDocument(docs[i]) == Some(c);
      assert docs[i] in docs;
    }
  }

  /** Chats come newest first whenever the store delivers the documents newest first. */
  lemma FetchedChatsNewestFirst(user: User, docs: seq<Doc>)
    requires NewestFirst(docs, "createdAt")
    ensures var cs := FetchedChats(Some(user), Documents(docs));
            forall i, j :: 0 <= i < j < |cs| && cs[i].createdAt.Some? && cs[j].createdAt.Some? ==>
              cs[i].createdAt.value >= cs[j].createdAt.value
  {
    var docKey := (d: Doc) => match TimestampKey(d, "createdAt") case Some(t) => Some(-t) case None => None;
    var key := (c: Chat) => match c.createdAt case Some(t) => Some(-t) case None => None;
    CompactMapOrdered(docs, ChatFromDocument, docKey, key);
    var cs := FetchedChats(Some(user), Documents(docs));
    assert cs == CompactMap(docs, ChatFromDocument);
    forall i, j | 0 <= i < j < |cs| && cs[i].createdAt.Some? && cs[j].createdAt.Some?
      ensures cs[i].createdAt.value >= cs[j].createdAt.value
    {
      assert key(cs[i]).value <= key(cs[j]).value;
    }
  }

  /**
   * `createChat`. Without a signed-in user, or when writing the chat record fails, the
   * completion gets nil and nothing is written. Otherwise the chat record at the sorted-pair id
   * is overwritten (not merged), one first message is appended when that second write
   * succeeds, and the completion gets the chat id whatever became of the message.
   */
  method CreateChat(db: Database, user: Option<User>, otherId: string, firstMessage: string,
                    createdAt: int, messageUuid: string, messageTimestamp: int, messageDocId: string,
                    chatWriteOk: bool, messageWriteOk: bool) returns (chatId: Option<string>)
    modifies db`chats, db`messages
    ensures user.None? || !chatWriteOk ==>
              chatId == None && db.chats == old(db.chats) && db.messages == old(db.messages)
    ensures user.Some? && chatWriteOk ==>
              var id := ChatIdOf(user.value.uid, otherId);
              var message := Doc(messageDocId, MessageFields(messageUuid, firstMessage, messageTimestamp, EmailOrUnknown(user.value)));
              && chatId == Some(id)
              && db.chats == old(db.chats)[id := ChatFields(SortedPair(user.value.uid, otherId), createdAt, firstMessage)]
              && db.messages == if messageWriteOk then old(db.messages)[id := old(db.MessageLog(id)) + [message]]
                                else old(db.messages)
  {
    if user.None? {
      return None;
    }
    var participants := SortedPair(user.value.uid, otherId);
    var id := Join(participants, "_");
    if !chatWriteOk {
      return None;
    }
    db.chats := db.chats[id := ChatFields(participants, createdAt, firstMessage)];
    if messageWriteOk {
      var message := MessageFields(messageUuid, firstMessage, messageTimestamp, EmailOrUnknown(user.value));
      db.messages := db.messages[id := db.MessageLog(id) + [Doc(messageDocId, message)]];
    }
    chatId := Some(id);
  }

  /**
   * Creating the chat for the same pair twice, from either side, leaves one chat record,
   * carrying the second call's first message, and two first messages in its log.
   */
  method CreateChatTwice(db: Database, buyer: User, sellerId: string, text1: string, text2: string,
                         t1: int, t2: int, doc1: string, doc2: string)
    modifies db`chats, db`messages
    ensures var id := ChatIdOf(buyer.uid, sellerId);
            && id in db.chats && DecodeChat(db.chats[id]).Some?
            && DecodeChat(db.chats[id]).value.lastMessage == Some(text2)
            && db.chats.Keys == old(db.chats.Keys) + {id}
            && |db.MessageLog(id)| == |old(db.MessageLog(id))| + 2
  {
    var seller := User(sellerId, None);
    var first := CreateChat(db, Some(buyer), sellerId, text1, t1, "m1", t1, doc1, true, true);
    var second := CreateChat(db, Some(seller), buyer.uid, text2, t2, "m2", t2, doc2, true, true);
    ChatIdCommutative(buyer.uid, sellerId);
    ChatFieldsRoundTrip(SortedPair(sellerId, buyer.uid), t2, text2);
  }
}
