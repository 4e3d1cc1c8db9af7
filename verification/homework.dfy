/**
 * The decision logic of the homework-status bot that does not touch the
 * network: validating an API answer (`check_response`), turning one
 * homework record into a chat sentence (`parse_status`) and checking that
 * the three credentials are set (`check_tokens`).
 *
 * Where the Python code calls the error reporter and carries on, the model
 * returns the reported text alongside the result; where it raises, the
 * model returns the exception as a value.
 */
module Homework {
  import opened JsonValue

  /** The exceptions the validator and the formatter raise, with Python's messages. */
  datatype PyError =
    | TypeError(message: string)
    | KeyError(message: string)
    | AttributeError(message: string)

  const NotDictMessage := "В ответ от API вернулся не словарь"
  const NoHomeworksMessage := "В ответе от API нет ключа homeworks"
  const NoCurrentDateMessage := "В ответе от API нет ключа current_date"
  const NotListMessage := "homeworks_list не список"
  const NoNameMessage := "В словаре homework нет поля homework_name"
  const UnknownStatusPrefix := "В ответе от API статус "
  const SentencePrefix := "Изменился статус проверки работы \""
  const SentenceMiddle := "\". "

  /** `HOMEWORK_STATUSES`: the verdict shown for each known review status. */
  const HomeworkStatuses: map<string, string> := map[
    "approved" := "Работа проверена: ревьюеру всё понравилось. Ура!",
    "reviewing" := "Работа взята на проверку ревьюером.",
    "rejected" := "Работа проверена: у ревьюера есть замечания."
  ]

  /** What calling `.get` on a value that is not a dict raises. */
  function NoGetError(v: Json): PyError
  {
    AttributeError("'" + TypeName(v) + "' object has no attribute 'get'")
  }

  /** The three ways `check_response` ends. */
  datatype Checked =
    | Fails(error: PyError)      // raised
    | NoData(report: string)     // `report` handed to the error reporter, then `None` returned
    | Homeworks(list: seq<Json>) // the list returned, nothing reported

  /**
   * `check_response(response)`. A non-dict raises `TypeError` and reports
   * nothing. A dict is checked in a fixed order: `homeworks` missing or null,
   * then `current_date` missing or null, then `homeworks` not a list; the
   * first failing check reports its own message and the answer is `None`.
   * Otherwise the `homeworks` list itself is returned.
   */
  function CheckResponse(response: Json): (r: Checked)
    ensures r.Fails? <==> !response.JObject?
    ensures r.Fails? ==> r.error == TypeError(NotDictMessage)
    ensures response.JObject? && Get(response.fields, "homeworks") == JNull ==>
              r == NoData(NoHomeworksMessage)
    ensures response.JObject? && Get(response.fields, "homeworks") != JNull
              && Get(response.fields, "current_date") == JNull ==>
              r == NoData(NoCurrentDateMessage)
    ensures response.JObject? && Get(response.fields, "homeworks") != JNull
              && Get(response.fields, "current_date") != JNull
              && !Get(response.fields, "homeworks").JList? ==>
              r == NoData(NotListMessage)
    ensures r.Homeworks? <==> response.JObject? && Get(response.fields, "homeworks").JList?
                              && Get(response.fields, "current_date") != JNull
    ensures r.Homeworks? ==> Get(response.fields, "homeworks") == JList(r.list)
  {
    if !response.JObject? then Fails(TypeError(NotDictMessage))
    else
      var homeworks := Get(response.fields, "homeworks");
      if homeworks == JNull then NoData(NoHomeworksMessage)
      else if Get(response.fields, "current_date") == JNull then NoData(NoCurrentDateMessage)
      else if !homeworks.JList? then NoData(NotListMessage)
      else Homeworks(homeworks.items)
  }

  /** The three reports of `check_response` are different texts, so a report names the check that failed. */
  lemma NoDataReportsDistinct()
    ensures NoHomeworksMessage != NoCurrentDateMessage
    ensures NoHomeworksMessage != NotListMessage
    ensures NoCurrentDateMessage != NotListMessage
  {
  }

  /** `HOMEWORK_STATUSES.get(status)`: the verdict, or `None` for any value that is not a known status. */
  function Verdict(status: Json): Option<string>
  {
    if status.JStr? && status.s in HomeworkStatuses then Some(HomeworkStatuses[status.s]) else None
  }

  /** How the verdict renders in the f-string: the table text, or `None`. */
  function VerdictText(verdict: Option<string>): string
  {
    match verdict
    case Some(text) => text
    case None => "None"
  }

  /** The two ways `parse_status` ends. */
  datatype Parsed =
    | Raise(error: PyError)
    | Sentence(text: string, report: Option<string>) // `report`, if any, is handed to the error reporter

  /**
   * `parse_status(homework)`. A missing or null `homework_name` raises
   * `KeyError` and reports nothing. A known status gives the sentence with
   * its verdict and reports nothing. Any other hashable status is reported
   * once, and the sentence still comes back with `None` as its verdict.
   * Looking up an unhashable status raises `TypeError`; a homework that is
   * not a dict has no `.get` and raises `AttributeError`.
   */
  function ParseStatus(homework: Json): (r: Parsed)
    ensures !homework.JObject? ==> r == Raise(NoGetError(homework))
    ensures homework.JObject? && Get(homework.fields, "homework_name") == JNull ==>
              r == Raise(KeyError(NoNameMessage))
    ensures r.Sentence? <==> homework.JObject? && Get(homework.fields, "homework_name") != JNull
                             && Hashable(Get(homework.fields, "status"))
    ensures r.Raise? && homework.JObject? && Get(homework.fields, "homework_name") != JNull ==>
              var status := Get(homework.fields, "status");
              r.error == TypeError("unhashable type: '" + TypeName(status) + "'")
    ensures r.Sentence? ==>
              var name := Get(homework.fields, "homework_name");
              var status := Get(homework.fields, "status");
              && (status.JStr? && status.s in HomeworkStatuses ==>
                    r == Sentence(SentencePrefix + Str(name) + SentenceMiddle + HomeworkStatuses[status.s], None))
              && (!(status.JStr? && status.s in HomeworkStatuses) ==>
                    r == Sentence(SentencePrefix + Str(name) + SentenceMiddle + "None",
                                  Some(UnknownStatusPrefix + Str(status))))
  {
    if !homework.JObject? then Raise(NoGetError(homework))
    else
      var name := Get(homework.fields, "homework_name");
      if name == JNull then Raise(KeyError(NoNameMessage))
      else
        var status := Get(homework.fields, "status");
        if !Hashable(status) then Raise(TypeError("unhashable type: '" + TypeName(status) + "'"))
        else
          var verdict := Verdict(status);
          var text := SentencePrefix + Str(name) + SentenceMiddle + VerdictText(verdict);
          if verdict.None? then Sentence(text, Some(UnknownStatusPrefix + Str(status)))
          else Sentence(text, None)
  }

  /**
   * A sentence is the fixed prefix, the rendered name and the verdict: the
   * name can be read back from it, and the report is made exactly when the
   * verdict is not in the table.
   */
  lemma SentenceReadsBack(homework: Json)
    requires ParseStatus(homework).Sentence?
    ensures var text := ParseStatus(homework).text;
            var name := Str(Get(homework.fields, "homework_name"));
            var verdict := Verdict(Get(homework.fields, "status"));
            && text[..|SentencePrefix|] == SentencePrefix
            && text[|SentencePrefix|..|SentencePrefix| + |name|] == name
            && text[|SentencePrefix| + |name| + |SentenceMiddle|..] == VerdictText(verdict)
            && (ParseStatus(homework).report.None? <==> verdict.Some?)
  {
    var name := Str(Get(homework.fields, "homework_name"));
    var verdict := Verdict(Get(homework.fields, "status"));
    var text := SentencePrefix + name + SentenceMiddle + VerdictText(verdict);
    assert ParseStatus(homework).text == text;
    assert text[..|SentencePrefix|] == SentencePrefix;
    assert text[|SentencePrefix|..|SentencePrefix| + |name|] == name;
    assert text[|SentencePrefix| + |name| + |SentenceMiddle|..] == VerdictText(verdict);
  }

  /** The last two characters of a rendered verdict: they differ for the three table texts and `None`. */
  lemma VerdictEndings(status: Json)
    ensures |VerdictText(Verdict(status))| >= 2
    ensures var t := VerdictText(Verdict(status));
            t[|t| - 2..] == (match Verdict(status)
                             case None => "ne"
                             case Some(_) =>
                               if status.s == "approved" then "а!"
                               else if status.s == "reviewing" then "м."
                               else "я.")
  {
  }

  /** Two suffixes of one text, each at least two characters long, end in the same two characters. */
  lemma SameLastTwo(text: string, k1: nat, k2: nat)
    requires k1 + 2 <= |text| && k2 + 2 <= |text|
    ensures text[k1..][|text[k1..]| - 2..] == text[k2..][|text[k2..]| - 2..]
  {
    assert text[k1..][|text[k1..]| - 2..] == text[|text| - 2..];
    assert text[k2..][|text[k2..]| - 2..] == text[|text| - 2..];
  }

  /** A rendered verdict is identified by its last two characters. */
  lemma VerdictFromEnding(s1: Json, s2: Json)
    requires var t1, t2 := VerdictText(Verdict(s1)), VerdictText(Verdict(s2));
             |t1| >= 2 && |t2| >= 2 && t1[|t1| - 2..] == t2[|t2| - 2..]
    ensures Verdict(s1) == Verdict(s2)
  {
    VerdictEndings(s1);
    VerdictEndings(s2);
  }

  /**
   * Two sentences that are the same text carry the same verdict, whatever the
   * homework names are: the verdict is recovered from the end of the sentence.
   */
  lemma SentenceDeterminesVerdict(h1: Json, h2: Json)
    requires ParseStatus(h1).Sentence? && ParseStatus(h2).Sentence?
    requires ParseStatus(h1).text == ParseStatus(h2).text
    ensures Verdict(Get(h1.fields, "status")) == Verdict(Get(h2.fields, "status"))
  {
    var s1, s2 := Get(h1.fields, "status"), Get(h2.fields, "status");
    var n1, n2 := Str(Get(h1.fields, "homework_name")), Str(Get(h2.fields, "homework_name"));
    var text := ParseStatus(h1).text;
    SentenceReadsBack(h1);
    SentenceReadsBack(h2);
    VerdictEndings(s1);
    VerdictEndings(s2);
    var k1 := |SentencePrefix| + |n1| + |SentenceMiddle|;
    var k2 := |SentencePrefix| + |n2| + |SentenceMiddle|;
    SameLastTwo(text, k1, k2);
    VerdictFromEnding(s1, s2);
  }

  /** The three verdicts are different texts, and none of them is the text `None`. */
  lemma VerdictsDistinct(s: string, t: string)
    requires s in HomeworkStatuses && t in HomeworkStatuses && s != t
    ensures HomeworkStatuses[s] != HomeworkStatuses[t]
    ensures HomeworkStatuses[s] != "None"
  {
  }

  /**
   * `check_tokens()`, over the three values `os.getenv` gave for
   * `PRACTICUM_TOKEN`, `TELEGRAM_TOKEN` and `TELEGRAM_CHAT_ID`: true exactly
   * when none of them is unset. An empty value counts as set.
   */
  function CheckTokens(practicumToken: Option<string>, telegramToken: Option<string>,
                       telegramChatId: Option<string>): (ok: bool)
    ensures ok <==> practicumToken.Some? && telegramToken.Some? && telegramChatId.Some?
  {
    if practicumToken.None? then false
    else if telegramToken.None? then false
    else if telegramChatId.None? then false
    else true
  }
}
