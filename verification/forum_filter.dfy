/**
 * `FilterView`: the sheet that edits the forum's year, make, model and VIN text through
 * bindings, fetches the model list for the chosen make and year, and decodes a VIN.
 */
module ForumFilter {
  import opened Wrappers
  import opened Vehicles
  import opened Forum

  const InvalidVinUrl := "Invalid VIN URL."
  const NoVinData := "No data received from VIN API."
  const UnexpectedVinFormat := "Unexpected response format."

  /**
   * `JSONSerialization.jsonObject(with:options: [])` does not allow fragments: a body whose
   * top level is not an object or an array is a parse error.
   */
  predicate IsTopLevelContainer(j: Json) {
    j.JObject? || j.JArray?
  }

  /**
   * The error text a failed VIN reply sets, or `None` when the reply holds a results array.
   * `fragmentError` is the parser's description of the error it throws on a bare fragment.
   */
  function VinFailure(reply: Reply, fragmentError: string): (e: Option<string>)
    ensures e.None? <==> reply.Received? && reply.body.Parsed? && VinResults(reply.body.json).Some?
    ensures reply.Received? && reply.body.Parsed? && !IsTopLevelContainer(reply.body.json) ==>
              e == Some("Error parsing VIN response: " + fragmentError)
    ensures reply.Received? && reply.body.Parsed? && IsTopLevelContainer(reply.body.json) && e.Some? ==>
              e == Some(UnexpectedVinFormat)
  {
    match reply
    case TransportError(description) => Some("Failed to decode VIN: " + description)
    case NoData => Some(NoVinData)
    case Received(Unparseable(description)) => Some("Error parsing VIN response: " + description)
    case Received(Parsed(json)) =>
      if !IsTopLevelContainer(json) then Some("Error parsing VIN response: " + fragmentError)
      else if VinResults(json).Some? then None
      else Some(UnexpectedVinFormat)
  }

  /** A selection after a decode: the dictionary's entry under `key` when there is one, else unchanged. */
  function Updated(decoded: map<string, string>, key: string, current: string): (r: string)
    ensures key in decoded ==> r == decoded[key]
    ensures key !in decoded ==> r == current
  {
    if key in decoded then decoded[key] else current
  }

  class FilterScreen {
    /** The forum screen whose selections and VIN text the sheet's bindings point at. */
    const forum: ForumScreen
    const picker: ModelPicker
    var decodedVinData: map<string, string>
    var errorMessage: Option<string>

    constructor (forum: ForumScreen)
      ensures this.forum == forum && fresh(picker)
      ensures picker.models == [AllModels] && !picker.isLoading
      ensures decodedVinData == map[] && errorMessage.None?
    {
      this.forum := forum;
      picker := new ModelPicker();
      decodedVinData := map[];
      errorMessage := None;
    }

    /** "Decode VIN" is disabled while the VIN text is empty. */
    predicate DecodeEnabled()
      reads this, forum
    {
      forum.vinSearch != ""
    }

    /** A change of year or make runs `fetchModels` on the forum's current selections. */
    method SelectionChanged(urlValid: bool) returns (requested: bool)
      modifies picker
      ensures requested <==> forum.selectedMake != AllMakes && forum.selectedYear != AllYears && urlValid
      ensures forum.selectedMake == AllMakes || forum.selectedYear == AllYears ==> picker.models == [AllModels]
      ensures !requested ==> picker.isLoading == old(picker.isLoading)
      ensures requested ==> picker.isLoading && picker.models == old(picker.models)
      ensures forum.selectedMake != AllMakes && forum.selectedYear != AllYears && !urlValid ==>
                picker.models == old(picker.models)
    {
      requested := picker.FetchModels(forum.selectedYear, forum.selectedMake, urlValid);
    }

    /** `decodeVIN` before the request: a VIN that does not form a URL only sets the error text. */
    method DecodeVin(urlValid: bool) returns (requested: bool)
      modifies this`errorMessage
      ensures requested == urlValid
      ensures !urlValid ==> errorMessage == Some(InvalidVinUrl)
      ensures urlValid ==> errorMessage == old(errorMessage)
    {
      if !urlValid {
        errorMessage := Some(InvalidVinUrl);
        return false;
      }
      requested := true;
    }

    /**
     * The VIN reply: every failure empties the dictionary and sets its error text (a bare JSON
     * fragment fails to parse, with the parser's description `fragmentError`). A results
     * array is folded into the dictionary, the error is cleared, and each of year, make and
     * model takes the decoded "Model Year", "Make" and "Model" when present.
     */
    method OnVinReply(reply: Reply, fragmentError: string)
      modifies this`decodedVinData, this`errorMessage, forum`selectedYear, forum`selectedMake, forum`selectedModel
      ensures VinFailure(reply, fragmentError).Some? ==>
                && decodedVinData == map[] && errorMessage == VinFailure(reply, fragmentError)
                && forum.selectedYear == old(forum.selectedYear) && forum.selectedMake == old(forum.selectedMake)
                && forum.selectedModel == old(forum.selectedModel)
      ensures VinFailure(reply, fragmentError).None? ==>
                var d := VinDictionary(VinResults(reply.body.json).value);
                && decodedVinData == d && errorMessage.None?
                && forum.selectedYear == Updated(d, "Model Year", old(forum.selectedYear))
                && forum.selectedMake == Updated(d, "Make", old(forum.selectedMake))
                && forum.selectedModel == Updated(d, "Model", old(forum.selectedModel))
    {
      var failure := VinFailure(reply, fragmentError);
      if failure.Some? {
        errorMessage := failure;
        decodedVinData := map[];
        return;
      }
      var decoded := FoldVinResults(VinResults(reply.body.json).value);
      decodedVinData := decoded;
      errorMessage := None;
      if "Model Year" in decoded {
        forum.selectedYear := decoded["Model Year"];
      }
      if "Make" in decoded {
        forum.selectedMake := decoded["Make"];
      }
      if "Model" in decoded {
        forum.selectedModel := decoded["Model"];
      }
    }
  }

  /**
   * A decoded make is adopted exactly when some result pairs "Make" with a string, and then the
   * last such result's value wins.
   */
  lemma DecodedMake(results: seq<Json>, current: string, i: int)
    requires 0 <= i < |results| && IsVinPair(results[i]) && VariableOf(results[i]) == "Make"
    requires forall j :: i < j < |results| && IsVinPair(results[j]) ==> VariableOf(results[j]) != "Make"
    ensures Updated(VinDictionary(results), "Make", current) == ValueOf(results[i])
  {
    VinDictionaryLastWins(results, i);
  }

  /** Without a "Model Year" pair in the results the year selection is left alone. */
  lemma YearKeptWithoutModelYear(results: seq<Json>, current: string)
    requires forall i :: 0 <= i < |results| && IsVinPair(results[i]) ==> VariableOf(results[i]) != "Model Year"
    ensures Updated(VinDictionary(results), "Model Year", current) == current
  {
    VinDictionaryKeys(results, "Model Year");
  }
}
