/** `check_response`: the shape the payload must have, checked in a fixed order. */
module Validator {
  import opened Wrappers
  import opened JsonValue
  import opened Errors

  /** A payload the validator accepts: a dict whose `homeworks` entry is a list. */
  predicate WellShaped(response: Json) {
    response.JObject? && "homeworks" in response.fields && response.fields["homeworks"].JArray?
  }

  /** `check_response(response)`: the homework list, or the first shape error. */
  function CheckResponse(response: Json): (r: Result<seq<Json>, Error>)
    ensures !response.JObject? ==> r == Err(NotDict)
    ensures response.JObject? && "homeworks" !in response.fields ==> r == Err(HomeworksMissing)
    ensures r.Ok? <==> WellShaped(response)
    ensures r.Ok? ==> response.fields["homeworks"] == JArray(r.value)
    ensures r.Err? ==> r.error in {NotDict, HomeworksMissing, HomeworksNotList}
  {
    if !response.JObject? then Err(NotDict)
    else if "homeworks" !in response.fields then Err(HomeworksMissing)
    else
      match response.fields["homeworks"]
      case JArray(homeworks) => Ok(homeworks)
      case _ => Err(HomeworksNotList)
  }

  /** Any dict whose `homeworks` entry is a list yields that list, whatever else it holds. */
  lemma CheckResponseRoundTrip(fields: map<string, Json>, homeworks: seq<Json>)
    ensures CheckResponse(JObject(fields["homeworks" := JArray(homeworks)])) == Ok(homeworks)
  {
  }

  /** A dict with `homeworks` that is not a list is refused, whatever else it holds. */
  lemma CheckResponseRefusesNonList(fields: map<string, Json>, value: Json)
    requires !value.JArray?
    ensures CheckResponse(JObject(fields["homeworks" := value])) == Err(HomeworksNotList)
  {
  }
}
