/**
 * `QuestionDetailView`: a question's live answer list, posting an answer and upvoting one.
 */
module QuestionDetail {
  import opened Wrappers
  import opened Sequences
  import opened Documents
  import opened Answers
  import opened Forum

  /** The decodable answers of a delivery, in query order. */
  function AnswersFrom(docs: seq<Doc>): seq<Answer> {
    CompactMap(docs, DecodeAnswer)
  }

  /** The answer list is exactly the decodable documents, newest first when the store orders them so. */
  lemma AnswersFromSpec(docs: seq<Doc>, a: Answer)
    ensures a in AnswersFrom(docs) <==> exists i :: 0 <= i < |docs| && DecodeAnswer(docs[i]) == Some(a)
    ensures NewestFirst(docs, "createdAt") ==>
              var xs := AnswersFrom(docs);
              forall i, j :: 0 <= i < j < |xs| ==> xs[i].createdAt >= xs[j].createdAt
  {
    CompactMapMembership(docs, DecodeAnswer, a);
    if NewestFirst(docs, "createdAt") {
      var docKey := (d: Doc) => match TimestampKey(d, "createdAt") case Some(t) => Some(-t) case None => None;
      var key := (x: Answer) => Some(-x.createdAt);
      CompactMapOrdered(docs, DecodeAnswer, docKey, key);
      var xs := AnswersFrom(docs);
      assert xs == CompactMap(docs, DecodeAnswer);
      forall i, j | 0 <= i < j < |xs| ensures xs[i].createdAt >= xs[j].createdAt {
        assert key(xs[i]).value <= key(xs[j]).value;
      }
    }
  }

  /**
   * `updateData(["upvotes": count])` on `questions/{questionId}/answers/{answerId}`: sets that
   * field of an existing answer; an answer that is not stored is left absent.
   */
  function WithUpvote(answers: map<string, map<string, Fields>>, questionId: string, answerId: string,
                      count: int): (r: map<string, map<string, Fields>>)
    ensures r.Keys == answers.Keys
    ensures forall q :: q in r ==> r[q].Keys == answers[q].Keys
  {
    if questionId in answers && answerId in answers[questionId]
    then answers[questionId := answers[questionId][answerId := answers[questionId][answerId]["upvotes" := IntValue(count)]]]
    else answers
  }

  /**
   * An upvote changes the count of the one answer it names and nothing else: that answer, when
   * it decoded before, decodes with its other properties unchanged; every other answer keeps
   * all its fields.
   */
  lemma UpvoteChangesOnlyThatCount(answers: map<string, map<string, Fields>>, questionId: string, answerId: string,
                                   count: int, q: string, a: string)
    requires q in answers && a in answers[q]
    ensures var r := WithUpvote(answers, questionId, answerId, count);
            && ((q, a) != (questionId, answerId) ==> r[q][a] == answers[q][a])
            && ((q, a) == (questionId, answerId) && DecodeAnswer(Doc(a, answers[q][a])).Some? ==>
                  DecodeAnswer(Doc(a, r[q][a])) == Some(DecodeAnswer(Doc(a, answers[q][a])).value.(upvotes := count)))
  {
    if (q, a) == (questionId, answerId) {
      var f := answers[q][a];
      var g := f["upvotes" := IntValue(count)];
      assert WithUpvote(answers, questionId, answerId, count)[q][a] == g;
      assert RequiredString(g, "creatorId") == RequiredString(f, "creatorId");
      assert RequiredString(g, "text") == RequiredString(f, "text");
      assert RequiredDate(g, "createdAt") == RequiredDate(f, "createdAt");
      assert RequiredInt(g, "upvotes") == Some(count);
    }
  }

  /** Tapping "Upvote" twice on the same displayed count stores the same count as tapping once. */
  lemma RepeatedUpvoteOfStaleCount(answers: map<string, map<string, Fields>>, questionId: string, answerId: string,
                                   count: int)
    ensures WithUpvote(WithUpvote(answers, questionId, answerId, count), questionId, answerId, count)
            == WithUpvote(answers, questionId, answerId, count)
  {
    if questionId in answers && answerId in answers[questionId] {
      var r := WithUpvote(answers, questionId, answerId, count);
      var f := answers[questionId][answerId]["upvotes" := IntValue(count)];
      assert r[questionId][answerId] == f;
      assert f["upvotes" := IntValue(count)] == f;
      assert r[questionId][answerId := f] == r[questionId];
      assert r[questionId := r[questionId]] == r;
    }
  }

  class QuestionScreen {
    const question: Question
    var answers: seq<Answer>
    var newAnswer: string

    constructor (question: Question)
      ensures this.question == question && answers == [] && newAnswer == ""
    {
      this.question := question;
      answers := [];
      newAnswer := "";
    }

    /** The document the answers hang off: the question's id, or "" for a question without one. */
    function QuestionKey(): (key: string)
      reads this
      ensures question.id.Some? ==> key == question.id.value
      ensures question.id.None? ==> key == ""
    {
      question.id.GetOr("")
    }

    /** "Post" is disabled while the draft is empty. */
    predicate PostEnabled()
      reads this
    {
      newAnswer != ""
    }

    /** The answer listener: an error or no snapshot keeps the list; documents replace it. */
    method OnAnswersSnapshot(snapshot: Snapshot)
      modifies this`answers
      ensures snapshot.Documents? ==> answers == AnswersFrom(snapshot.docs)
      ensures !snapshot.Documents? ==> answers == old(answers)
    {
      if snapshot.Documents? {
        answers := AnswersFrom(snapshot.docs);
      }
    }

    /**
     * `addAnswer`: nothing without a signed-in user. Otherwise the new answer (the user's, the
     * draft's text, no upvotes) is added under a new document id, and the draft is cleared
     * only when that write succeeds.
     */
    method AddAnswer(db: Database, user: Option<User>, createdAt: int, newDocId: string, writeOk: bool)
      modifies this`newAnswer, db`answers
      ensures user.None? || !writeOk ==> db.answers == old(db.answers) && newAnswer == old(newAnswer)
      ensures user.Some? && writeOk ==>
                && newAnswer == ""
                && db.answers == old(db.answers)[QuestionKey() :=
                     old(db.AnswerDocs(QuestionKey()))[newDocId := AsDictionary(NewAnswer(user.value.uid, old(newAnswer), createdAt))]]
    {
      if user.None? {
        return;
      }
      var answer := NewAnswer(user.value.uid, newAnswer, createdAt);
      if writeOk {
        var key := question.id.GetOr("");
        db.answers := db.answers[key := db.AnswerDocs(key)[newDocId := AsDictionary(answer)]];
        newAnswer := "";
      }
    }

    /**
     * `upvoteAnswer`: an answer without an id cannot be upvoted; otherwise its stored count is
     * set to the displayed count plus one (a set, not an increment of the stored value).
     */
    method UpvoteAnswer(db: Database, answer: Answer, writeOk: bool)
      modifies db`answers
      ensures answer.id.None? || !writeOk ==> db.answers == old(db.answers)
      ensures answer.id.Some? && writeOk ==>
                db.answers == WithUpvote(old(db.answers), QuestionKey(), answer.id.value, answer.upvotes + 1)
    {
      if answer.id.None? {
        return;
      }
      if writeOk {
        db.answers := WithUpvote(db.answers, question.id.GetOr(""), answer.id.value, answer.upvotes + 1);
      }
    }
  }

  /** A posted answer shows in the list with no upvotes, under its document id. */
  lemma PostedAnswerShown(before: seq<Doc>, uid: string, text: string, createdAt: int, docId: string)
    ensures AnswersFrom(before + [Doc(docId, AsDictionary(NewAnswer(uid, text, createdAt)))])
            == AnswersFrom(before) + [Answer(Some(docId), uid, text, createdAt, 0)]
  {
    CompactMapAppend(before, [Doc(docId, AsDictionary(NewAnswer(uid, text, createdAt)))], DecodeAnswer);
    AnswerRoundTrip(NewAnswer(uid, text, createdAt), docId);
  }
}
