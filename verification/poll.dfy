/**
 * One iteration of the bot's main loop: build the request timestamp, take
 * the API's answer, validate it, advance the poll timestamp from the first
 * homework record, format that record and hand any error text to the
 * deduplicating reporter.
 *
 * The HTTP request is a parameter `fetch` from the `from_date` value to the
 * decoded answer; the clock reading is a parameter `now`; the outcome of the
 * one error report a step can make is a parameter `reportDelivered`.
 */
module Polling {
  import opened JsonValue
  import opened Homework
  import opened ErrorReports

  /**
   * The `from_date` sent for the poll timestamp `ts`:
   * `current_timestamp or int(time.time())`.
   */
  function FromDate(ts: Json, now: int): (r: Json)
    ensures Truthy(ts) ==> r == ts
    ensures !Truthy(ts) ==> r == JInt(now)
    ensures now != 0 ==> Truthy(r)
  {
    if Truthy(ts) then ts else JInt(now)
  }

  /** How one iteration of the loop ends. */
  datatype StepOutcome =
    | Stop                // `check_response` gave `None`: `main` returns
    | Raised(error: PyError) // an exception leaves the iteration
    | Idle                // an empty list: nothing to send
    | Notify(message: string) // this sentence goes to the chat

  /** The outcome of an iteration, the poll timestamp after it and the error text it reported. */
  datatype Step = Step(outcome: StepOutcome, timestamp: Json, report: Option<string>)

  /**
   * What one iteration does with the answer `response` when the poll
   * timestamp is `ts`. The timestamp moves to the first record's
   * `current_date` as soon as that record is known to be a dict, before its
   * status is formatted, so it moves even when formatting raises.
   */
  function Poll(ts: Json, response: Json): (r: Step)
    ensures r.outcome.Stop? <==> CheckResponse(response).NoData?
    ensures r.outcome.Stop? ==> r == Step(Stop, ts, Some(CheckResponse(response).report))
    ensures CheckResponse(response).Fails? ==> r == Step(Raised(CheckResponse(response).error), ts, None)
    ensures CheckResponse(response) == Homeworks([]) ==> r == Step(Idle, ts, None)
    ensures CheckResponse(response).Homeworks? && CheckResponse(response).list != [] ==>
              var first := CheckResponse(response).list[0];
              && (first.JObject? ==> r.timestamp == Get(first.fields, "current_date"))
              && (!first.JObject? ==> r == Step(Raised(NoGetError(first)), ts, None))
              && (first.JObject? && ParseStatus(first).Sentence? ==>
                    r.outcome == Notify(ParseStatus(first).text) && r.report == ParseStatus(first).report)
              && (first.JObject? && ParseStatus(first).Raise? ==>
                    r.outcome == Raised(ParseStatus(first).error) && r.report == None)
    ensures r.timestamp != ts ==> r.outcome.Notify? || r.outcome.Raised?
  {
    match CheckResponse(response)
    case Fails(e) => Step(Raised(e), ts, None)
    case NoData(m) => Step(Stop, ts, Some(m))
    case Homeworks(list) =>
      if list == [] then Step(Idle, ts, None)
      else
        var homework := list[0];
        if !homework.JObject? then Step(Raised(NoGetError(homework)), ts, None)
        else
          var next := Get(homework.fields, "current_date");
          match ParseStatus(homework)
          case Raise(e) => Step(Raised(e), next, None)
          case Sentence(text, report) => Step(Notify(text), next, report)
  }

  /**
   * The answer used as the worked example of the bot's behaviour: one
   * approved homework `hw1` with `current_date` 123, and `current_date` 456
   * on the envelope.
   */
  function ExampleAnswer(): Json
  {
    JObject(map[
      "homeworks" := JList([JObject(map[
        "homework_name" := JStr("hw1"),
        "status" := JStr("approved"),
        "current_date" := JInt(123)])]),
      "current_date" := JInt(456)])
  }

  /** On the example answer the bot sends the approved sentence and polls from 123 next. */
  lemma ExampleStep(ts: Json)
    ensures Poll(ts, ExampleAnswer()) ==
      Step(Notify("Изменился статус проверки работы \"" + "hw1" + "\". "
                  + "Работа проверена: ревьюеру всё понравилось. Ура!"),
           JInt(123), None)
  {
  }

  /**
   * A first record without a usable `current_date` (missing, null, 0, empty)
   * sends the next request from the clock, and one with a truthy
   * `current_date` sends it from that value.
   */
  lemma NextRequestAfterRecord(ts: Json, response: Json, now: int)
    requires CheckResponse(response).Homeworks? && CheckResponse(response).list != []
    requires CheckResponse(response).list[0].JObject?
    ensures var date := Get(CheckResponse(response).list[0].fields, "current_date");
            FromDate(Poll(ts, response).timestamp, now) == (if Truthy(date) then date else JInt(now))
  {
  }

  /** The main loop's state that changes from one iteration to the next: `current_timestamp`. */
  class Poller {
    var currentTimestamp: Json

    /** `current_timestamp = int(time.time())`, taken once before the loop. */
    constructor (now: int)
      ensures currentTimestamp == JInt(now)
    {
      currentTimestamp := JInt(now);
    }

    /**
     * One iteration of `while True` in `main`, up to the sleep. `request` is
     * the `from_date` sent; any error text is reported through `errors`.
     */
    method PollOnce(errors: ErrorLog, now: int, fetch: Json -> Json, reportDelivered: bool)
      returns (request: Json, outcome: StepOutcome)
      requires errors.Valid()
      modifies this, errors
      ensures errors.Valid()
      ensures request == FromDate(old(currentTimestamp), now)
      ensures var step := Poll(old(currentTimestamp), fetch(request));
              && outcome == step.outcome
              && currentTimestamp == step.timestamp
              && errors.sent == (match step.report
                                 case None => old(errors.sent)
                                 case Some(m) => AfterReport(old(errors.sent), m, reportDelivered))
    {
      request := FromDate(currentTimestamp, now);
      var response := fetch(request);
      var checked := CheckResponse(response);
      match checked {
        case Fails(e) =>
          outcome := Raised(e);
        case NoData(m) =>
          var _ := errors.Report(m, reportDelivered);
          outcome := Stop;
        case Homeworks(list) =>
          if list == [] {
            outcome := Idle;
            return;
          }
          var homework := list[0];
          if !homework.JObject? {
            outcome := Raised(NoGetError(homework));
            return;
          }
          currentTimestamp := Get(homework.fields, "current_date");
          match ParseStatus(homework) {
            case Raise(e) =>
              outcome := Raised(e);
            case Sentence(text, report) =>
              if report.Some? {
                var _ := errors.Report(report.value, reportDelivered);
              }
              outcome := Notify(text);
          }
      }
    }
  }
}
