/** The `Answer` record and its serialisation for the `answers` sub-collection of a question. */
module Answers {
  import opened Wrappers
  import opened Documents

  /** An answer; `id` is the document id, absent for an answer not yet stored. */
  datatype Answer = Answer(id: Option<string>, creatorId: string, text: string, createdAt: int, upvotes: int)

  /** The keys `asDictionary` writes. */
  const AnswerKeys: set<string> := {"creatorId", "text", "createdAt", "upvotes"}

  /** `asDictionary`: creator, text, the date as a timestamp and the upvote count; never the id. */
  function AsDictionary(a: Answer): (f: Fields)
    ensures f.Keys == AnswerKeys
  {
    map["creatorId" := StringValue(a.creatorId), "text" := StringValue(a.text),
        "createdAt" := TimestampValue(a.createdAt), "upvotes" := IntValue(a.upvotes)]
  }

  /** `data(as: Answer.self)`: all four stored properties are required; the id is the document id. */
  function DecodeAnswer(d: Doc): (r: Option<Answer>)
    ensures r.Some? ==> r.value.id == Some(d.id)
    ensures r.Some? <==> AnswerKeys <= d.fields.Keys && d.fields["creatorId"].StringValue? &&
                         d.fields["text"].StringValue? && d.fields["createdAt"].TimestampValue? &&
                         d.fields["upvotes"].IntValue?
  {
    var creatorId := RequiredString(d.fields, "creatorId");
    var text := RequiredString(d.fields, "text");
    var createdAt := RequiredDate(d.fields, "createdAt");
    var upvotes := RequiredInt(d.fields, "upvotes");
    if creatorId.Some? && text.Some? && createdAt.Some? && upvotes.Some?
    then Some(Answer(Some(d.id), creatorId.value, text.value, createdAt.value, upvotes.value))
    else None
  }

  /** A stored answer reads back with every property unchanged and the document id as its id. */
  lemma AnswerRoundTrip(a: Answer, docId: string)
    ensures DecodeAnswer(Doc(docId, AsDictionary(a))) == Some(a.(id := Some(docId)))
  {
  }

  /** The id is never serialised: answers that differ only in their id store the same fields. */
  lemma IdNotSerialised(a: Answer, b: Answer)
    requires a.(id := None) == b.(id := None)
    ensures AsDictionary(a) == AsDictionary(b)
  {
  }

  /** The answer `addAnswer` builds: no id yet, the author and text given, and the default of no upvotes. */
  function NewAnswer(uid: string, text: string, createdAt: int): (a: Answer)
    ensures a.id.None? && a.creatorId == uid && a.text == text && a.createdAt == createdAt
    ensures a.upvotes == 0
  {
    Answer(None, uid, text, createdAt, 0)
  }
}
