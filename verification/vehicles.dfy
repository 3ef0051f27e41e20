/**
 * The vehicle pickers shared by the forum's filter sheet and the ask-a-question form: the
 * year and make lists, the model list fetched per make and year, and the folding of a VIN
 * decoder reply into a dictionary. Replies arrive already parsed into a JSON value.
 */
module Vehicles {
  import opened Wrappers
  import opened Text

  const AllYears := "All Years"
  const AllMakes := "All Makes"
  const AllModels := "All Models"

  /** The make picker's entries, the sentinel first. */
  const Makes: seq<string> := [AllMakes, "Honda", "Toyota", "Ford", "Chevrolet", "BMW", "Mercedes-Benz"]

  /** The year picker: the sentinel, then 2025 down to 1900. */
  function Years(): (ys: seq<string>)
    ensures |ys| == 127 && ys[0] == AllYears
    ensures forall k :: 1 <= k < |ys| ==> ys[k] == NatToString(2026 - k)
  {
    [AllYears] + seq(126, k requires 0 <= k < 126 => NatToString(2025 - k))
  }

  /**
   * Every year from 1900 to 2025 is offered exactly once, newest first, and no year can be
   * mistaken for the sentinel: the picker's entries, which are also its tags, are distinct.
   */
  lemma {:induction false} YearsDistinct()
    ensures forall i, j :: 0 <= i < j < |Years()| ==> Years()[i] != Years()[j]
    ensures forall y: nat :: 1900 <= y <= 2025 ==> NatToString(y) == Years()[2026 - y]
  {
    var ys := Years();
    forall i, j | 0 <= i < j < |ys| ensures ys[i] != ys[j] {
      if i == 0 {
        assert ys[j][0] != 'A';
      } else if ys[i] == ys[j] {
        NatToStringInjective(2026 - i, 2026 - j);
      }
    }
  }

  /** A parsed JSON value. */
  datatype Json =
    | JString(s: string)
    | JNumber(n: int)
    | JBool(b: bool)
    | JNull
    | JArray(items: seq<Json>)
    | JObject(members: map<string, Json>)

  /** The body of an HTTP reply: parsed JSON, or bytes that are not JSON (with the parser's message). */
  datatype Body = Parsed(json: Json) | Unparseable(description: string)

  /** A URL session completion: a transport error, no data, or a body. */
  datatype Reply = TransportError(description: string) | NoData | Received(body: Body)

  /** One entry of `ModelResponse.Results`: an object whose `Model_Name` is a string. */
  predicate IsModelItem(item: Json) {
    item.JObject? && "Model_Name" in item.members && item.members["Model_Name"].JString?
  }

  /** The `Model_Name` of every entry, or a decoding failure when one entry lacks it. */
  function ModelNames(items: seq<Json>): (r: Option<seq<string>>)
    ensures r.Some? <==> forall i :: 0 <= i < |items| ==> IsModelItem(items[i])
    ensures r.Some? ==> |r.value| == |items| &&
                        forall i :: 0 <= i < |items| ==> r.value[i] == items[i].members["Model_Name"].s
  {
    if items == [] then Some([])
    else match ModelNames(items[1..])
      case Some(rest) =>
        if IsModelItem(items[0]) then Some([items[0].members["Model_Name"].s] + rest) else None
      case None => None
  }

  /** `JSONDecoder().decode(ModelResponse.self, ...)`: an object whose `Results` is an array of model items. */
  function DecodeModelResponse(j: Json): (r: Option<seq<string>>)
    ensures r.Some? ==> j.JObject? && "Results" in j.members && j.members["Results"].JArray? &&
                        r == ModelNames(j.members["Results"].items)
  {
    if j.JObject? && "Results" in j.members && j.members["Results"].JArray?
    then ModelNames(j.members["Results"].items)
    else None
  }

  /** The model names a reply yields, when it decodes. */
  function ModelsFromReply(reply: Reply): Option<seq<string>> {
    if reply.Received? && reply.body.Parsed? then DecodeModelResponse(reply.body.json) else None
  }

  /** The model picker's state and its `fetchModels` rule. */
  class ModelPicker {
    var models: seq<string>
    var isLoading: bool

    constructor ()
      ensures models == [AllModels] && !isLoading
    {
      models, isLoading := [AllModels], false;
    }

    /**
     * `fetchModels`: a sentinel make or year resets the list to the sentinel alone and sends
     * nothing; otherwise, when the request URL forms, loading starts and a request goes out.
     */
    method FetchModels(year: string, make: string, urlValid: bool) returns (requested: bool)
      modifies this
      ensures requested <==> make != AllMakes && year != AllYears && urlValid
      ensures make == AllMakes || year == AllYears ==> models == [AllModels] && isLoading == old(isLoading)
      ensures requested ==> isLoading && models == old(models)
      ensures make != AllMakes && year != AllYears && !urlValid ==> models == old(models) && isLoading == old(isLoading)
    {
      if make == AllMakes || year == AllYears {
        models := [AllModels];
        return false;
      }
      if !urlValid {
        return false;
      }
      isLoading := true;
      requested := true;
    }

    /**
     * The request's completion: loading always ends; a decodable reply makes the list the
     * sentinel followed by the reply's model names in order, anything else keeps the list.
     */
    method OnModelsReply(reply: Reply)
      modifies this
      ensures !isLoading
      ensures ModelsFromReply(reply).Some? ==> models == [AllModels] + ModelsFromReply(reply).value
      ensures ModelsFromReply(reply).None? ==> models == old(models)
    {
      isLoading := false;
      var names := ModelsFromReply(reply);
      if names.Some? {
        models := [AllModels] + names.value;
      }
    }
  }

  /** `item["Variable"] as? String` and `item["Value"] as? String` both succeed. */
  predicate IsVinPair(item: Json) {
    && item.JObject?
    && "Variable" in item.members && item.members["Variable"].JString?
    && "Value" in item.members && item.members["Value"].JString?
  }

  function VariableOf(item: Json): string
    requires IsVinPair(item)
  {
    item.members["Variable"].s
  }

  function ValueOf(item: Json): string
    requires IsVinPair(item)
  {
    item.members["Value"].s
  }

  /** The decoded VIN dictionary: the results in order, each pair overwriting an earlier one. */
  function VinDictionary(results: seq<Json>): map<string, string>
    decreases |results|
  {
    if results == [] then map[]
    else
      var last := results[|results| - 1];
      var before := VinDictionary(results[..|results| - 1]);
      if IsVinPair(last) then before[VariableOf(last) := ValueOf(last)] else before
  }

  /** A variable is a key exactly when some result pairs it with a string value. */
  lemma {:induction false} VinDictionaryKeys(results: seq<Json>, k: string)
    ensures k in VinDictionary(results) <==>
              exists i :: 0 <= i < |results| && IsVinPair(results[i]) && VariableOf(results[i]) == k
    decreases |results|
  {
    if results != [] {
      var init := results[..|results| - 1];
      VinDictionaryKeys(init, k);
      if k in VinDictionary(init) {
        var i :| 0 <= i < |init| && IsVinPair(init[i]) && VariableOf(init[i]) == k;
        assert results[i] == init[i];
      }
      if exists i :: 0 <= i < |results| && IsVinPair(results[i]) && VariableOf(results[i]) == k {
        var i :| 0 <= i < |results| && IsVinPair(results[i]) && VariableOf(results[i]) == k;
        if i < |init| {
          assert init[i] == results[i];
        }
      }
    }
  }

  /** The last result naming a variable decides its value. */
  lemma {:induction false} VinDictionaryLastWins(results: seq<Json>, i: int)
    requires 0 <= i < |results| && IsVinPair(results[i])
    requires forall j :: i < j < |results| && IsVinPair(results[j]) ==> VariableOf(results[j]) != VariableOf(results[i])
    ensures VariableOf(results[i]) in VinDictionary(results)
    ensures VinDictionary(results)[VariableOf(results[i])] == ValueOf(results[i])
    decreases |results|
  {
    if i < |results| - 1 {
      var init := results[..|results| - 1];
      assert init[i] == results[i];
      forall j | i < j < |init| && IsVinPair(init[j]) ensures VariableOf(init[j]) != VariableOf(init[i]) {
        assert init[j] == results[j];
      }
      VinDictionaryLastWins(init, i);
    }
  }

  /** The loop of `decodeVIN` that builds the dictionary, one result at a time. */
  method FoldVinResults(results: seq<Json>) returns (decoded: map<string, string>)
    ensures decoded == VinDictionary(results)
  {
    decoded := map[];
    var i := 0;
    while i < |results|
      invariant 0 <= i <= |results|
      invariant decoded == VinDictionary(results[..i])
    {
      var item := results[i];
      assert results[..i + 1][..i] == results[..i];
      if item.JObject? && "Variable" in item.members && item.members["Variable"].JString?
         && "Value" in item.members && item.members["Value"].JString? {
        decoded := decoded[item.members["Variable"].s := item.members["Value"].s];
      }
      i := i + 1;
    }
    assert results[..i] == results;
  }

  /**
   * `json as? [String: Any]` and `json["Results"] as? [[String: Any]]`: the reply is an object
   * whose `Results` is an array of objects only.
   */
  function VinResults(j: Json): (r: Option<seq<Json>>)
    ensures r.Some? ==> forall i :: 0 <= i < |r.value| ==> r.value[i].JObject?
  {
    if j.JObject? && "Results" in j.members && j.members["Results"].JArray?
       && forall i :: 0 <= i < |j.members["Results"].items| ==> j.members["Results"].items[i].JObject?
    then Some(j.members["Results"].items)
    else None
  }
}
