/**
 * `CreateQuestionView`: the ask-a-question form, its model picker, and the question record it
 * adds to the `questions` collection.
 */
module AskQuestion {
  import opened Wrappers
  import opened Documents
  import opened Vehicles
  import opened Forum

  /** The category picker's entries; the form starts at the first. */
  const Categories: seq<string> := ["General", "Maintenance", "Performance"]

  /** The record `saveQuestion` writes: the form's values, the creation time and the author (or ""). */
  function QuestionRecord(title: string, description: string, category: string, year: string, make: string,
                          model: string, createdAt: int, creatorId: string): (f: Fields)
    ensures f.Keys == {"title", "description", "category", "year", "make", "model", "createdAt", "creatorId"}
  {
    map["title" := StringValue(title), "description" := StringValue(description),
        "category" := StringValue(category), "year" := StringValue(year), "make" := StringValue(make),
        "model" := StringValue(model), "createdAt" := TimestampValue(createdAt),
        "creatorId" := StringValue(creatorId)]
  }

  /** A saved question reads back in the forum with every form value, under its document id. */
  lemma SavedQuestionReadsBack(docId: string, title: string, description: string, category: string,
                               year: string, make: string, model: string, createdAt: int, creatorId: string)
    ensures DecodeQuestion(Doc(docId, QuestionRecord(title, description, category, year, make, model,
                                                     createdAt, creatorId)))
            == Some(Question(Some(docId), title, description, createdAt, creatorId, make, model, year,
                             Some(category)))
  {
  }

  /** The author stored with a question: the signed-in uid, or "" without one. */
  function CreatorId(user: Option<User>): (id: string)
    ensures user.Some? ==> id == user.value.uid
    ensures user.None? ==> id == ""
  {
    if user.Some? then user.value.uid else ""
  }

  /** What a successful save triggers, in this order. */
  datatype Effect = CallbackInvoked | QuestionCreatedPosted | Dismissed

  class QuestionForm {
    var title: string
    var description: string
    var selectedYear: string
    var selectedMake: string
    var selectedModel: string
    var selectedCategory: string
    const picker: ModelPicker
    /** Whether the presenting screen passed an `onQuestionCreated` callback. */
    const hasCallback: bool

    constructor (hasCallback: bool)
      ensures title == "" && description == "" && this.hasCallback == hasCallback
      ensures selectedYear == AllYears && selectedMake == AllMakes && selectedModel == AllModels
      ensures selectedCategory == Categories[0] && fresh(picker)
      ensures picker.models == [AllModels] && !picker.isLoading
    {
      title, description := "", "";
      selectedYear, selectedMake, selectedModel, selectedCategory := AllYears, AllMakes, AllModels, "General";
      this.hasCallback := hasCallback;
      picker := new ModelPicker();
    }

    /** A change of year or make runs the shared `fetchModels` rule on the form's selections. */
    method SelectionChanged(urlValid: bool) returns (requested: bool)
      modifies picker
      ensures requested <==> selectedMake != AllMakes && selectedYear != AllYears && urlValid
      ensures selectedMake == AllMakes || selectedYear == AllYears ==> picker.models == [AllModels]
      ensures selectedMake == AllMakes || selectedYear == AllYears ==> picker.isLoading == old(picker.isLoading)
      ensures requested ==> picker.isLoading && picker.models == old(picker.models)
      ensures selectedMake != AllMakes && selectedYear != AllYears && !urlValid ==>
                picker.models == old(picker.models) && picker.isLoading == old(picker.isLoading)
    {
      requested := picker.FetchModels(selectedYear, selectedMake, urlValid);
    }

    /**
     * `saveQuestion`: an empty title writes nothing. Otherwise the record is added under a new
     * document id; only a successful write runs the callback (when present), posts the
     * "QuestionCreated" notification and dismisses the form, in that order.
     */
    method SaveQuestion(db: Database, user: Option<User>, createdAt: int, newDocId: string, writeOk: bool)
      returns (effects: seq<Effect>)
      modifies db`questions
      ensures title == "" || !writeOk ==> db.questions == old(db.questions) && effects == []
      ensures title != "" && writeOk ==>
                && db.questions == old(db.questions)[newDocId := QuestionRecord(title, description, selectedCategory,
                                                       selectedYear, selectedMake, selectedModel, createdAt, CreatorId(user))]
                && effects == (if hasCallback then [CallbackInvoked] else []) + [QuestionCreatedPosted, Dismissed]
    {
      effects := [];
      if title == "" {
        return;
      }
      var record := QuestionRecord(title, description, selectedCategory, selectedYear, selectedMake,
                                   selectedModel, createdAt, CreatorId(user));
      if !writeOk {
        return;
      }
      db.questions := db.questions[newDocId := record];
      if hasCallback {
        effects := effects + [CallbackInvoked];
      }
      effects := effects + [QuestionCreatedPosted, Dismissed];
    }
  }

  /**
   * A question posted with the form's untouched year, make or model stores the sentinel itself,
   * so the forum shows it under a year, make or model filter only while that filter is off.
   */
  lemma SentinelValuesStoredVerbatim(q: Question, searchText: string, year: string, make: string, model: string)
    requires q.year == AllYears && q.make == AllMakes && q.model == AllModels
    ensures QuestionMatches(q, searchText, year, make, model) ==> !IsFilterApplied(year, make, model)
  {
  }
}
