/**
 * The document store the app talks to, as an abstract value: field values, documents,
 * query deliveries, the signed-in user, and the collections the app reads and writes.
 */
module Documents {
  import opened Wrappers

  /** A stored field value, by the type the decoder sees. */
  datatype Value =
    | StringValue(s: string)
    | IntValue(i: int)
    | TimestampValue(t: int)
    | StringArray(items: seq<string>)
    | NullValue
    | OtherValue

  type Fields = map<string, Value>

  /** A document of a query result: its document id and its fields. */
  datatype Doc = Doc(id: string, fields: Fields)

  /**
   * One delivery to a snapshot listener or a one-shot query callback: an error, no snapshot
   * at all, or the matching documents in the query's order.
   */
  datatype Snapshot = SnapshotError | NoDocuments | Documents(docs: seq<Doc>)

  /** The signed-in account: its uid and its optional e-mail address. */
  datatype User = User(uid: string, email: Option<string>)

  /**
   * `decode(String.self, forKey:)`, and equally `data[key] as? String`: the value when the key
   * is present and holds a string.
   */
  function RequiredString(f: Fields, key: string): (r: Option<string>)
    ensures r.Some? <==> key in f && f[key].StringValue?
  {
    if key in f && f[key].StringValue? then Some(f[key].s) else None
  }

  /** `decode(Int.self, forKey:)`. */
  function RequiredInt(f: Fields, key: string): (r: Option<int>)
    ensures r.Some? <==> key in f && f[key].IntValue?
  {
    if key in f && f[key].IntValue? then Some(f[key].i) else None
  }

  /** `decode(Date.self, forKey:)`: the store's timestamps decode to dates. */
  function RequiredDate(f: Fields, key: string): (r: Option<int>)
    ensures r.Some? <==> key in f && f[key].TimestampValue?
  {
    if key in f && f[key].TimestampValue? then Some(f[key].t) else None
  }

  /** `decode([String].self, forKey:)`. */
  function RequiredStrings(f: Fields, key: string): (r: Option<seq<string>>)
    ensures r.Some? <==> key in f && f[key].StringArray?
  {
    if key in f && f[key].StringArray? then Some(f[key].items) else None
  }

  /**
   * `decodeIfPresent(String.self, forKey:)`: the outer None is a decoding failure (a value of
   * another type); a missing key or a null decodes to `nil`.
   */
  function OptionalString(f: Fields, key: string): (r: Option<Option<string>>)
    ensures r.None? <==> key in f && !f[key].StringValue? && !f[key].NullValue?
    ensures r == Some(None) <==> key !in f || f[key].NullValue?
  {
    if key !in f || f[key].NullValue? then Some(None)
    else if f[key].StringValue? then Some(Some(f[key].s))
    else None
  }

  /** The timestamp a query ordered by `key` sorts this document on, when it has one. */
  function TimestampKey(d: Doc, key: string): Option<int> {
    if key in d.fields && d.fields[key].TimestampValue? then Some(d.fields[key].t) else None
  }

  /** The store's guarantee for `order(by: key)`: documents with a timestamp come oldest first. */
  ghost predicate OldestFirst(docs: seq<Doc>, key: string) {
    forall i, j :: 0 <= i < j < |docs| && TimestampKey(docs[i], key).Some? && TimestampKey(docs[j], key).Some? ==>
      TimestampKey(docs[i], key).value <= TimestampKey(docs[j], key).value
  }

  /** The store's guarantee for `order(by: key, descending: true)`. */
  ghost predicate NewestFirst(docs: seq<Doc>, key: string) {
    forall i, j :: 0 <= i < j < |docs| && TimestampKey(docs[i], key).Some? && TimestampKey(docs[j], key).Some? ==>
      TimestampKey(docs[i], key).value >= TimestampKey(docs[j], key).value
  }

  /**
   * The app's database: top-level collections by document id, the `messages` sub-collection
   * of each chat as its documents in the order they were added, and the `answers`
   * sub-collection of each question by document id.
   */
  class Database {
    var chats: map<string, Fields>
    var messages: map<string, seq<Doc>>
    var users: map<string, Fields>
    var listings: map<string, Fields>
    var questions: map<string, Fields>
    var answers: map<string, map<string, Fields>>

    constructor ()
      ensures chats == map[] && messages == map[] && users == map[]
      ensures listings == map[] && questions == map[] && answers == map[]
    {
      chats, messages, users := map[], map[], map[];
      listings, questions, answers := map[], map[], map[];
    }

    /** The documents of `chats/{chatId}/messages`; an absent sub-collection is empty. */
    function MessageLog(chatId: string): seq<Doc>
      reads this`messages
    {
      if chatId in messages then messages[chatId] else []
    }

    /** The documents of `questions/{questionId}/answers`. */
    function AnswerDocs(questionId: string): map<string, Fields>
      reads this`answers
    {
      if questionId in answers then answers[questionId] else map[]
    }
  }
}
