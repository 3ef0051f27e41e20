/**
 * The `Question` record and `ForumView`: the question list ordered newest first, the
 * four-criterion filter with its "All ..." sentinels, and clearing the filter.
 */
module Forum {
  import opened Wrappers
  import opened Text
  import opened Sequences
  import opened Documents
  import opened Vehicles

  /** A forum question; `id` is the document id, `category` may be absent. */
  datatype Question = Question(id: Option<string>, title: string, description: string, createdAt: int,
                               creatorId: string, make: string, model: string, year: string,
                               category: Option<string>)

  /**
   * `data(as: Question.self)`: title, description, creatorId, make, model and year must be
   * strings and createdAt a timestamp; category may be missing or null.
   */
  function DecodeQuestion(d: Doc): (r: Option<Question>)
    ensures r.Some? <==>
              && (forall k :: k in ["title", "description", "creatorId", "make", "model", "year"] ==>
                    k in d.fields && d.fields[k].StringValue?)
              && "createdAt" in d.fields && d.fields["createdAt"].TimestampValue?
              && ("category" in d.fields ==> d.fields["category"].StringValue? || d.fields["category"].NullValue?)
    ensures r.Some? ==> r.value.id == Some(d.id) && r.value.title == d.fields["title"].s
    ensures r.Some? ==> (r.value.category.Some? <==> "category" in d.fields && d.fields["category"].StringValue?)
  {
    var title := RequiredString(d.fields, "title");
    var description := RequiredString(d.fields, "description");
    var createdAt := RequiredDate(d.fields, "createdAt");
    var creatorId := RequiredString(d.fields, "creatorId");
    var make := RequiredString(d.fields, "make");
    var model := RequiredString(d.fields, "model");
    var year := RequiredString(d.fields, "year");
    var category := OptionalString(d.fields, "category");
    if title.Some? && description.Some? && createdAt.Some? && creatorId.Some? && make.Some? && model.Some?
       && year.Some? && category.Some?
    then Some(Question(Some(d.id), title.value, description.value, createdAt.value, creatorId.value,
                       make.value, model.value, year.value, category.value))
    else None
  }

  /** The decodable questions of a delivery, in query order. */
  function QuestionsFrom(docs: seq<Doc>): seq<Question> {
    CompactMap(docs, DecodeQuestion)
  }

  /** The fetched list is exactly the decodable documents, newest first when the store orders them so. */
  lemma QuestionsFromSpec(docs: seq<Doc>, q: Question)
    ensures q in QuestionsFrom(docs) <==> exists i :: 0 <= i < |docs| && DecodeQuestion(docs[i]) == Some(q)
    ensures NewestFirst(docs, "createdAt") ==>
              var qs := QuestionsFrom(docs);
              forall i, j :: 0 <= i < j < |qs| ==> qs[i].createdAt >= qs[j].createdAt
  {
    CompactMapMembership(docs, DecodeQuestion, q);
    if NewestFirst(docs, "createdAt") {
      var docKey := (d: Doc) => match TimestampKey(d, "createdAt") case Some(t) => Some(-t) case None => None;
      var key := (x: Question) => Some(-x.createdAt);
      CompactMapOrdered(docs, DecodeQuestion, docKey, key);
      var qs := QuestionsFrom(docs);
      assert qs == CompactMap(docs, DecodeQuestion);
      forall i, j | 0 <= i < j < |qs| ensures qs[i].createdAt >= qs[j].createdAt {
        assert key(qs[i]).value <= key(qs[j]).value;
      }
    }
  }

  /** The forum's criteria: title search (none when empty), then year, make and model unless at their sentinels. */
  predicate QuestionMatches(q: Question, searchText: string, year: string, make: string, model: string) {
    && (searchText == "" || ContainsIgnoringCase(q.title, searchText))
    && (year == AllYears || q.year == year)
    && (make == AllMakes || q.make == make)
    && (model == AllModels || q.model == model)
  }

  /** `filteredQuestions`. */
  function FilteredQuestions(questions: seq<Question>, searchText: string, year: string, make: string,
                             model: string): seq<Question> {
    Filter(questions, (q: Question) => QuestionMatches(q, searchText, year, make, model))
  }

  /**
   * A question is shown exactly when it is in the list and meets all four criteria, and the
   * shown questions keep the list's order.
   */
  lemma FilteredQuestionsSpec(questions: seq<Question>, searchText: string, year: string, make: string,
                              model: string, q: Question)
    ensures q in FilteredQuestions(questions, searchText, year, make, model) <==>
              q in questions && QuestionMatches(q, searchText, year, make, model)
    ensures IsSubsequence(FilteredQuestions(questions, searchText, year, make, model), questions)
  {
    var p := (x: Question) => QuestionMatches(x, searchText, year, make, model);
    FilterIsSubsequence(questions, p);
    if q in questions && p(q) {
      FilterKeeps(questions, p, q);
    }
  }

  /** An empty search and the three sentinels restrict nothing: every question is shown, in order. */
  lemma {:induction false} UnfilteredShowsAll(questions: seq<Question>)
    ensures FilteredQuestions(questions, "", AllYears, AllMakes, AllModels) == questions
  {
    FilterAll(questions, (x: Question) => QuestionMatches(x, "", AllYears, AllMakes, AllModels));
  }

  /** `isFilterApplied`: the year, make or model is off its sentinel; the search text does not count. */
  predicate IsFilterApplied(year: string, make: string, model: string) {
    year != AllYears || make != AllMakes || model != AllModels
  }

  /** Without an applied filter only the search text restricts the list. */
  lemma {:induction false} NoFilterMeansSearchOnly(questions: seq<Question>, searchText: string, year: string,
                                                   make: string, model: string)
    requires !IsFilterApplied(year, make, model)
    ensures FilteredQuestions(questions, searchText, year, make, model) ==
            Filter(questions, (q: Question) => searchText == "" || ContainsIgnoringCase(q.title, searchText))
  {
    assert (year, make, model) == (AllYears, AllMakes, AllModels);
    var p := (q: Question) => QuestionMatches(q, searchText, year, make, model);
    var s := (q: Question) => searchText == "" || ContainsIgnoringCase(q.title, searchText);
    FilterSame(questions, p, s);
  }

  /** Filters with predicates that agree on the input give the same result. */
  lemma {:induction false} FilterSame<T>(xs: seq<T>, p: T -> bool, s: T -> bool)
    requires forall x :: x in xs ==> p(x) == s(x)
    ensures Filter(xs, p) == Filter(xs, s)
  {
    if xs != [] {
      assert forall x :: x in xs[1..] ==> x in xs;
      FilterSame(xs[1..], p, s);
    }
  }

  /** The forum screen's state; the filter sheet edits the three selections and the VIN text through bindings. */
  class ForumScreen {
    var questions: seq<Question>
    var searchText: string
    var selectedYear: string
    var selectedMake: string
    var selectedModel: string
    var vinSearch: string

    constructor ()
      ensures questions == [] && searchText == "" && vinSearch == ""
      ensures selectedYear == AllYears && selectedMake == AllMakes && selectedModel == AllModels
    {
      questions, searchText, vinSearch := [], "", "";
      selectedYear, selectedMake, selectedModel := AllYears, AllMakes, AllModels;
    }

    /**
     * The list the screen shows: questions of the list that meet the search and the three
     * selections, in list order; everything while nothing restricts it.
     */
    function Shown(): (shown: seq<Question>)
      reads this
      ensures forall q :: q in shown ==> q in questions && QuestionMatches(q, searchText, selectedYear, selectedMake, selectedModel)
      ensures IsSubsequence(shown, questions)
      ensures searchText == "" && !IsFilterApplied(selectedYear, selectedMake, selectedModel) ==> shown == questions
    {
      var (text, year, make, model) := (searchText, selectedYear, selectedMake, selectedModel);
      FilterIsSubsequence(questions, (q: Question) => QuestionMatches(q, text, year, make, model));
      UnfilteredShowsAll(questions);
      FilteredQuestions(questions, searchText, selectedYear, selectedMake, selectedModel)
    }

    /** Whether the "Clear Filter" button is shown; while it is not, only the search text restricts the list. */
    predicate FilterApplied()
      reads this
      ensures !FilterApplied() ==>
                var text := searchText;
                Shown() == Filter(questions, (q: Question) => text == "" || ContainsIgnoringCase(q.title, text))
    {
      if IsFilterApplied(selectedYear, selectedMake, selectedModel) then true
      else
        NoFilterMeansSearchOnly(questions, searchText, selectedYear, selectedMake, selectedModel);
        false
    }

    /** `clearFilter`: all five inputs back to their defaults, so every question shows again. */
    method ClearFilter()
      modifies this`selectedYear, this`selectedMake, this`selectedModel, this`vinSearch, this`searchText
      ensures selectedYear == AllYears && selectedMake == AllMakes && selectedModel == AllModels
      ensures vinSearch == "" && searchText == ""
      ensures !FilterApplied() && Shown() == questions
    {
      selectedYear := AllYears;
      selectedMake := AllMakes;
      selectedModel := AllModels;
      vinSearch := "";
      searchText := "";
      UnfilteredShowsAll(questions);
    }

    /** `fetchQuestions`' completion: an error or no snapshot keeps the list; documents replace it. */
    method OnQuestionsFetched(snapshot: Snapshot)
      modifies this`questions
      ensures snapshot.Documents? ==> questions == QuestionsFrom(snapshot.docs)
      ensures !snapshot.Documents? ==> questions == old(questions)
    {
      if snapshot.Documents? {
        questions := QuestionsFrom(snapshot.docs);
      }
    }
  }
}
