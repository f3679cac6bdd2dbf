/** `parse_status`: one homework record to the status-change message. */
module Formatter {
  import opened Wrappers
  import opened JsonValue
  import opened Errors
  import opened Messages

  /** A successful `parse_status`: the homework name and the verdict text to interpolate. */
  datatype StatusChange = StatusChange(name: Json, verdict: string)

  /** `status` is a key of `VERDICTS`. */
  predicate KnownStatus(status: Json) {
    status.JString? && status.s in VERDICTS
  }

  /**
   * `parse_status(homework)`. The checks run in the source's order: the
   * `status` lookup, then the `homework_name` test, then the verdict lookup.
   */
  function ParseStatus(homework: Json): (r: Result<StatusChange, Error>)
    ensures !homework.JObject? ==> r == Err(BuiltinTypeError(Subscript))
    ensures homework.JObject? && "status" !in homework.fields ==> r == Err(StatusKeyMissing)
    ensures (homework.JObject? && "status" in homework.fields
             && "homework_name" !in homework.fields) ==> r == Err(NameKeyMissing)
    ensures r.Ok? ==>
      homework.JObject? && "status" in homework.fields && KnownStatus(homework.fields["status"])
      && "homework_name" in homework.fields
      && r.value == StatusChange(homework.fields["homework_name"], VERDICTS[homework.fields["status"].s])
  {
    if !homework.JObject? then Err(BuiltinTypeError(Subscript))
    else if "status" !in homework.fields then Err(StatusKeyMissing)
    else
      var status := homework.fields["status"];
      if "homework_name" !in homework.fields then Err(NameKeyMissing)
      else if !Hashable(status) then Err(BuiltinTypeError(Unhashable))
      else if !KnownStatus(status) then Err(UnknownStatus(status))
      else Ok(StatusChange(homework.fields["homework_name"], VERDICTS[status.s]))
  }

  /**
   * `CHANGED_STATUS.format(name, verdict)`. `None` where the name is a list or a
   * dict, whose Python rendering is not part of this model.
   */
  function ChangedStatusText(change: StatusChange): (r: Option<string>)
    ensures r.Some? <==> Hashable(change.name)
    ensures change.name.JString? ==>
      r == Some(CHANGED_STATUS_PREFIX + change.name.s + STATUS_INFIX + change.verdict)
  {
    match Str(change.name)
    case Some(name) => Some(CHANGED_STATUS_PREFIX + name + STATUS_INFIX + change.verdict)
    case None => None
  }

  /** `parse_status` succeeds exactly on a dict with a name and one of the three known statuses. */
  lemma ParseStatusSucceedsIff(homework: Json)
    ensures ParseStatus(homework).Ok? <==>
      homework.JObject? && "homework_name" in homework.fields && "status" in homework.fields
      && homework.fields["status"] in {JString("approved"), JString("reviewing"), JString("rejected")}
  {
  }

  /**
   * The error for a dict holding both keys with an unrecognised status: an
   * unknown-status error naming that status, or a `TypeError` if it cannot be hashed.
   */
  lemma ParseStatusUnknown(homework: Json)
    requires homework.JObject? && "homework_name" in homework.fields && "status" in homework.fields
    requires !KnownStatus(homework.fields["status"])
    ensures var status := homework.fields["status"];
      ParseStatus(homework) ==
        if Hashable(status) then Err(UnknownStatus(status)) else Err(BuiltinTypeError(Unhashable))
    ensures Hashable(homework.fields["status"]) ==>
      var text := ErrorText(ParseStatus(homework).error);
      text.Some? && text.value == UNKNOWN_STATUS_PREFIX + Str(homework.fields["status"]).value
  {
  }

  /** A record with a string name and a known status yields the exact templated message. */
  lemma ParseStatusText(homework: Json, name: string, status: string)
    requires homework.JObject? && status in VERDICTS
    requires "homework_name" in homework.fields && homework.fields["homework_name"] == JString(name)
    requires "status" in homework.fields && homework.fields["status"] == JString(status)
    ensures ParseStatus(homework).Ok?
    ensures ChangedStatusText(ParseStatus(homework).value)
      == Some(CHANGED_STATUS_PREFIX + name + STATUS_INFIX + VERDICTS[status])
  {
  }
}
