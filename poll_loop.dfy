/**
 * The orchestrator of homework.py (`main`): the token check before the loop,
 * and the body of `while True`, which fetches, validates, notifies and moves
 * the timestamp cursor, or reports the exception and leaves the cursor alone.
 * The reply of each fetch and the outcome of each Telegram send are inputs.
 */
module PollLoop {
  import opened Wrappers
  import opened JsonValue
  import opened Messages
  import opened Errors
  import opened ApiClient
  import opened Validator
  import opened Formatter
  import opened Tokens

  /** The outcome of one `bot.send_message` call. */
  datatype Delivery = Delivered | Undelivered(cause: string)

  /** What the outside world supplies to one cycle. */
  datatype CycleInput = CycleInput(reply: HttpReply, statusDelivery: Delivery, reportDelivery: Delivery)

  /** One attempted Telegram message: a status change, or an error report. */
  datatype Notice = StatusNotice(change: StatusChange) | FailureNotice(error: Error)

  /** The cursor for the next cycle and the messages attempted, in order. */
  datatype CycleOutcome = CycleOutcome(cursor: Json, sent: seq<Notice>)

  /**
   * The text of an attempted message. An error report is `ERROR_MESSAGE`
   * filled with `str(error)`; `None` where that rendering is not modelled.
   * The contract is this definition itself; it proves nothing further.
   */
  function NoticeText(n: Notice): (r: Option<string>)
    ensures n.StatusNotice? ==> r == ChangedStatusText(n.change)
    ensures n.FailureNotice? ==> (r.Some? <==> ErrorText(n.error).Some?)
    ensures n.FailureNotice? && r.Some? ==> r.value == ERROR_MESSAGE_PREFIX + ErrorText(n.error).value
  {
    match n
    case StatusNotice(change) => ChangedStatusText(change)
    case FailureNotice(error) =>
      match ErrorText(error)
      case Some(text) => Some(ERROR_MESSAGE_PREFIX + text)
      case None => None
  }

  /** Some stage inside the cycle's `try` raised. */
  predicate Fails(input: CycleInput) {
    var answer := ApiAnswer(input.reply);
    answer.Err? || CheckResponse(answer.value).Err?
    || (var homeworks := CheckResponse(answer.value).value;
        |homeworks| > 0 && (ParseStatus(homeworks[0]).Err? || input.statusDelivery.Undelivered?))
  }

  /** The cycle ended with an error report. */
  predicate Reported(o: CycleOutcome) {
    |o.sent| > 0 && o.sent[|o.sent| - 1].FailureNotice?
  }

  /** The number of error reports among the attempted messages (its contract is only a bound). */
  function FailureCount(sent: seq<Notice>): (n: nat)
    ensures n <= |sent|
  {
    if sent == [] then 0
    else FailureCount(sent[..|sent| - 1]) + (if sent[|sent| - 1].FailureNotice? then 1 else 0)
  }

  lemma {:induction false} FailureCountAppend(a: seq<Notice>, b: seq<Notice>)
    ensures FailureCount(a + b) == FailureCount(a) + FailureCount(b)
    decreases |b|
  {
    if b == [] {
      assert a + b == a;
    } else {
      assert (a + b)[..|a + b| - 1] == a + b[..|b| - 1];
      FailureCountAppend(a, b[..|b| - 1]);
    }
  }

  /** One pass of the body of `while True`, started with cursor `cursor`. */
  function Cycle(cursor: Json, input: CycleInput): (o: CycleOutcome)
    ensures Reported(o) <==> Fails(input)
    ensures Reported(o) ==> o.cursor == cursor
    ensures !Reported(o) ==>
      var response := ApiAnswer(input.reply).value;
      response.JObject? && o.cursor == Get(response.fields, "current_date", cursor)
    ensures |o.sent| <= 2
    ensures forall i :: 0 <= i < |o.sent| - 1 ==> o.sent[i].StatusNotice?
    ensures FailureCount(o.sent) == if Fails(input) then 1 else 0
  {
    match ApiAnswer(input.reply)
    case Err(e) => CycleOutcome(cursor, [FailureNotice(e)])
    case Ok(response) =>
      match CheckResponse(response)
      case Err(e) => CycleOutcome(cursor, [FailureNotice(e)])
      case Ok(homeworks) =>
        var next := Get(response.fields, "current_date", cursor);
        if homeworks == [] then CycleOutcome(next, [])
        else
          match ParseStatus(homeworks[0])
          case Err(e) => CycleOutcome(cursor, [FailureNotice(e)])
          case Ok(change) =>
            match input.statusDelivery
            case Delivered => CycleOutcome(next, [StatusNotice(change)])
            case Undelivered(cause) =>
              CycleOutcome(cursor, [StatusNotice(change), FailureNotice(SendFailure(cause))])
  }

  /** A failed fetch is reported once and leaves the cursor where it was. */
  lemma CycleFetchFailure(cursor: Json, input: CycleInput)
    requires ApiAnswer(input.reply).Err?
    ensures Cycle(cursor, input) == CycleOutcome(cursor, [FailureNotice(ApiAnswer(input.reply).error)])
  {
  }

  /** A malformed payload is reported once and leaves the cursor where it was. */
  lemma CycleShapeFailure(cursor: Json, input: CycleInput)
    requires ApiAnswer(input.reply).Ok? && !WellShaped(ApiAnswer(input.reply).value)
    ensures Cycle(cursor, input)
      == CycleOutcome(cursor, [FailureNotice(CheckResponse(ApiAnswer(input.reply).value).error)])
  {
  }

  /** A valid payload with an empty list sends nothing and still moves the cursor. */
  lemma CycleNoHomeworks(cursor: Json, input: CycleInput, fields: map<string, Json>)
    requires input.reply == Reply(HTTP_OK, Parsed(JObject(fields)))
    requires "error" !in fields && "code" !in fields
    requires "homeworks" in fields && fields["homeworks"] == JArray([])
    ensures Cycle(cursor, input) == CycleOutcome(Get(fields, "current_date", cursor), [])
  {
  }

  /**
   * With a non-empty list, the one status message is about its first element;
   * a failure to format or to deliver it is reported and keeps the cursor.
   */
  lemma CycleNotifiesFirst(cursor: Json, input: CycleInput, fields: map<string, Json>, homeworks: seq<Json>)
    requires input.reply == Reply(HTTP_OK, Parsed(JObject(fields)))
    requires "error" !in fields && "code" !in fields
    requires "homeworks" in fields && fields["homeworks"] == JArray(homeworks) && homeworks != []
    ensures var o := Cycle(cursor, input);
      match ParseStatus(homeworks[0])
      case Err(e) => o == CycleOutcome(cursor, [FailureNotice(e)])
      case Ok(change) =>
        if input.statusDelivery.Delivered? then
          o == CycleOutcome(Get(fields, "current_date", cursor), [StatusNotice(change)])
        else
          o == CycleOutcome(cursor, [StatusNotice(change), FailureNotice(SendFailure(input.statusDelivery.cause))])
  {
  }

  /** Only `homeworks[0]` matters: two lists with the same first element give the same cycle. */
  lemma CycleIgnoresLaterHomeworks(cursor: Json, fields: map<string, Json>, a: seq<Json>, b: seq<Json>,
                                   statusDelivery: Delivery, reportDelivery: Delivery)
    requires a != [] && b != [] && a[0] == b[0]
    ensures Cycle(cursor, CycleInput(Reply(HTTP_OK, Parsed(JObject(fields["homeworks" := JArray(a)]))), statusDelivery, reportDelivery))
         == Cycle(cursor, CycleInput(Reply(HTTP_OK, Parsed(JObject(fields["homeworks" := JArray(b)]))), statusDelivery, reportDelivery))
  {
    var fa, fb := fields["homeworks" := JArray(a)], fields["homeworks" := JArray(b)];
    var ia := CycleInput(Reply(HTTP_OK, Parsed(JObject(fa))), statusDelivery, reportDelivery);
    var ib := CycleInput(Reply(HTTP_OK, Parsed(JObject(fb))), statusDelivery, reportDelivery);
    if "error" in fields || "code" in fields {
      assert ApiAnswer(ia.reply) == ApiAnswer(ib.reply);
      CycleFetchFailure(cursor, ia);
      CycleFetchFailure(cursor, ib);
    } else {
      assert Get(fa, "current_date", cursor) == Get(fb, "current_date", cursor);
      CycleNotifiesFirst(cursor, ia, fa, a);
      CycleNotifiesFirst(cursor, ib, fb, b);
    }
  }

  /**
   * Whether the error report itself was delivered never changes the cycle's
   * outcome. This holds by construction: `Cycle` never reads `reportDelivery`,
   * as the source's inner `try` swallows every failure of that send.
   */
  lemma CycleReportDeliveryIrrelevant(cursor: Json, reply: HttpReply, statusDelivery: Delivery, a: Delivery, b: Delivery)
    ensures Cycle(cursor, CycleInput(reply, statusDelivery, a)) == Cycle(cursor, CycleInput(reply, statusDelivery, b))
  {
  }

  /** The first `|inputs|` cycles of `while True`, from cursor `cursor`. */
  function RunCycles(cursor: Json, inputs: seq<CycleInput>): (o: CycleOutcome)
    decreases |inputs|
  {
    if inputs == [] then CycleOutcome(cursor, [])
    else
      var before := RunCycles(cursor, inputs[..|inputs| - 1]);
      var last := Cycle(before.cursor, inputs[|inputs| - 1]);
      CycleOutcome(last.cursor, before.sent + last.sent)
  }

  /** The number of inputs whose cycle fails (its contract is only a bound). */
  function FailingCycles(inputs: seq<CycleInput>): (n: nat)
    ensures n <= |inputs|
  {
    if inputs == [] then 0
    else FailingCycles(inputs[..|inputs| - 1]) + (if Fails(inputs[|inputs| - 1]) then 1 else 0)
  }

  /**
   * There is no deduplication: every failing cycle sends its own error report,
   * identical to the previous one or not.
   */
  lemma {:induction false} RunReportsEveryFailure(cursor: Json, inputs: seq<CycleInput>)
    ensures FailureCount(RunCycles(cursor, inputs).sent) == FailingCycles(inputs)
    decreases |inputs|
  {
    if inputs != [] {
      var before := RunCycles(cursor, inputs[..|inputs| - 1]);
      var last := Cycle(before.cursor, inputs[|inputs| - 1]);
      RunReportsEveryFailure(cursor, inputs[..|inputs| - 1]);
      FailureCountAppend(before.sent, last.sent);
    }
  }

  /** A run of failing cycles re-queries the same window: the cursor never moves. */
  lemma {:induction false} RunFailuresKeepCursor(cursor: Json, inputs: seq<CycleInput>)
    requires forall i :: 0 <= i < |inputs| ==> Fails(inputs[i])
    ensures RunCycles(cursor, inputs).cursor == cursor
    decreases |inputs|
  {
    if inputs != [] {
      RunFailuresKeepCursor(cursor, inputs[..|inputs| - 1]);
    }
  }

  /**
   * An approved homework with a reported `current_date`: the one message is
   * the approved template for that name, and the cursor takes the date.
   */
  lemma ScenarioApproved(cursor: Json, statusDelivery: Delivery, reportDelivery: Delivery)
    requires statusDelivery.Delivered?
    ensures var homework := JObject(map["homework_name" := JString("X"), "status" := JString("approved")]);
      var payload := JObject(map["homeworks" := JArray([homework]), "current_date" := JInt(1700000000)]);
      var o := Cycle(cursor, CycleInput(Reply(HTTP_OK, Parsed(payload)), statusDelivery, reportDelivery));
      o.cursor == JInt(1700000000) && |o.sent| == 1
      && NoticeText(o.sent[0]) == Some(CHANGED_STATUS_PREFIX + "X" + STATUS_INFIX + APPROVED)
  {
    var homework := JObject(map["homework_name" := JString("X"), "status" := JString("approved")]);
    var fields := map["homeworks" := JArray([homework]), "current_date" := JInt(1700000000)];
    var input := CycleInput(Reply(HTTP_OK, Parsed(JObject(fields))), statusDelivery, reportDelivery);
    assert "error" !in fields && "code" !in fields;
    ParseStatusText(homework, "X", "approved");
    CycleNotifiesFirst(cursor, input, fields, [homework]);
    var change := ParseStatus(homework).value;
    assert Cycle(cursor, input) == CycleOutcome(JInt(1700000000), [StatusNotice(change)]);
    assert VERDICTS["approved"] == APPROVED;
    assert ChangedStatusText(change) == Some(CHANGED_STATUS_PREFIX + "X" + STATUS_INFIX + APPROVED);
  }

  /** A 503 reply: one error report about the status code, the cursor unchanged. */
  lemma ScenarioUnavailable(cursor: Json, body: Body, statusDelivery: Delivery, reportDelivery: Delivery)
    ensures Cycle(cursor, CycleInput(Reply(503, body), statusDelivery, reportDelivery))
      == CycleOutcome(cursor, [FailureNotice(StatusCodeFailure(503))])
  {
  }

  /** Two cycles in a row: the second starts from the cursor the first left. */
  lemma RunTwo(cursor: Json, a: CycleInput, b: CycleInput)
    ensures var first := Cycle(cursor, a);
      var second := Cycle(first.cursor, b);
      RunCycles(cursor, [a, b]) == CycleOutcome(second.cursor, first.sent + second.sent)
  {
    var first := Cycle(cursor, a);
    assert [a][..0] == [];
    assert RunCycles(cursor, []) == CycleOutcome(cursor, []);
    assert [] + first.sent == first.sent;
    assert RunCycles(cursor, [a]) == CycleOutcome(first.cursor, first.sent);
    assert [a, b][..1] == [a];
  }

  /** Two identical failing cycles send two identical error reports and keep the cursor. */
  lemma ScenarioRepeatedFailure(cursor: Json, input: CycleInput)
    requires Fails(input)
    ensures var one := Cycle(cursor, input);
      RunCycles(cursor, [input, input]) == CycleOutcome(cursor, one.sent + one.sent)
      && FailureCount(one.sent + one.sent) == 2
  {
    RunTwo(cursor, input, input);
    FailureCountAppend(Cycle(cursor, input).sent, Cycle(cursor, input).sent);
  }

  /**
   * `main` before the loop: missing credentials raise `TokenErrorException`
   * and the loop never starts; otherwise the cursor starts at `int(time.time())`,
   * passed in as `now`.
   */
  method Start(practicum: Option<string>, telegram: Option<string>, chatId: Option<string>, now: int)
    returns (r: Result<Poller, Error>)
    ensures r.Err? <==> !CheckTokens(practicum, telegram, chatId)
    ensures r.Err? ==> r.error == TokenError
    ensures r.Ok? ==> fresh(r.value) && r.value.timestamp == JInt(now)
  {
    if !CheckTokens(practicum, telegram, chatId) {
      return Err(TokenError);
    }
    var poller := new Poller(now);
    r := Ok(poller);
  }

  /** The running loop of `main`, whose only state is the `timestamp` cursor. */
  class Poller {
    var timestamp: Json

    constructor (now: int)
      ensures timestamp == JInt(now)
    {
      timestamp := JInt(now);
    }

    /** One pass of the `try`/`except` body of `while True`. */
    method Step(input: CycleInput) returns (sent: seq<Notice>)
      modifies this
      ensures CycleOutcome(timestamp, sent) == Cycle(old(timestamp), input)
    {
      sent := [];
      var failure: Option<Error> := None;
      var answer := ApiAnswer(input.reply);
      if answer.Err? {
        failure := Some(answer.error);
      } else {
        var response := answer.value;
        var homeworks := CheckResponse(response);
        if homeworks.Err? {
          failure := Some(homeworks.error);
        } else {
          if |homeworks.value| > 0 {
            var status := ParseStatus(homeworks.value[0]);
            if status.Err? {
              failure := Some(status.error);
            } else {
              sent := sent + [StatusNotice(status.value)];
              if input.statusDelivery.Undelivered? {
                failure := Some(SendFailure(input.statusDelivery.cause));
              }
            }
          }
          if failure.None? {
            timestamp := Get(response.fields, "current_date", timestamp);
          }
        }
      }
      if failure.Some? {
        // whether this report is delivered (input.reportDelivery) is logged and swallowed
        sent := sent + [FailureNotice(failure.value)];
      }
    }

    /** The first `|inputs|` passes of `while True`; the sleep between them is left out. */
    method Run(inputs: seq<CycleInput>) returns (sent: seq<Notice>)
      modifies this
      ensures CycleOutcome(timestamp, sent) == RunCycles(old(timestamp), inputs)
    {
      sent := [];
      var i := 0;
      while i < |inputs|
        invariant 0 <= i <= |inputs|
        invariant CycleOutcome(timestamp, sent) == RunCycles(old(timestamp), inputs[..i])
      {
        var step := Step(inputs[i]);
        assert inputs[..i + 1][..i] == inputs[..i];
        sent := sent + step;
        i := i + 1;
      }
      assert inputs[..i] == inputs;
    }
  }
}
