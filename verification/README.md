# homework_bot decision logic in Dafny

The bot in `homework.py` polls the homework-review API on a fixed interval. It reads the
status of the first homework record in the answer and sends a sentence about it to a
Telegram chat. It also reports error texts to the same chat. It keeps reporting a text
until one send of it is delivered, and never reports it again after that. This project
models the parts of the script that make decisions, and proves what they do:

- `json.dfy` (module `JsonValue`): the decoded JSON answer as a datatype `Json`. Python's
  `None` and JSON `null` are one value, `JNull`. The module also models the Python built-ins
  the script applies to answers: `dict.get` (a missing key and a null value both give
  `None`), truth testing, hashability and `str()`.
- `homework.py`'s pure functions in `homework.dfy` (module `Homework`):
  - `check_response` returns one of three outcomes: it raises, it reports one text and gives
    `None`, or it returns the list.
  - `parse_status` either raises or returns a sentence, plus at most one reported text.
  - `check_tokens` and the `HOMEWORK_STATUSES` table.
  - A Python exception is a `PyError` value carrying Python's own message.
- `LIST_OF_ERRORS` and `send_and_logging_error` in `error_log.dfy` (module `ErrorReports`):
  - A class `ErrorLog` holds the list. Its `Report` method appends in place.
  - A pure function `AfterReport` specifies `Report`.
  - Lemmas over a run of reports prove the list only grows, never holds a duplicate, and
    delivers each text to the chat successfully at most once.
- One iteration of `main`'s loop in `poll.dfy` (module `Polling`):
  - A class `Poller` holds `current_timestamp`. Its `PollOnce` method fetches, validates,
    moves the timestamp and reports.
  - A pure function `Poll` specifies `PollOnce`.
  - `FromDate` is the `current_timestamp or int(time.time())` fallback.

External services become inputs:
- The HTTP request is a function `fetch` from the `from_date` value to the decoded answer.
- The clock is an integer `now`.
- The Telegram send is a boolean saying whether the send returned a message object.

The model follows the code, including where it behaves differently from what one might expect:
- A `null` value is treated like a missing key. Both `check_response` and `parse_status` use
  `dict.get(...) is None`.
- An unknown status renders its verdict as the text `None`. There is no separate "unknown" marker.
- A failed send does not record the error text, so the next report of the same text sends
  it again. "The same error twice gives at most one delivery call" would be wrong. What
  holds is "at most one successful delivery", which `ErrorReports.DeliveredAtMostOnce`
  proves. `ErrorReports.FailedSendIsRetried` shows the retry.

## Model

| member | source | states |
|---|---|---|
| `JsonValue.NatToDecimal` | homework.py:149 | `str()` of a non-negative int is a non-empty string of decimal digits; it starts with `0` only when it is exactly `"0"` |
| `JsonValue.DecimalRoundTrip` | homework.py:149 | reading back the digits that `str(n)` writes gives `n` again |
| `JsonValue.IntToDecimal` | homework.py:147-149 | `str(i)` of any int denotes `i` in canonical form: digits for `i >= 0`, and for `i < 0` a minus sign followed by the digits of `-i`; there is no leading zero except in `"0"` itself |
| `Homework.CheckResponse` | homework.py:101-127 | non-dict raises `TypeError` and reports nothing; a dict is checked for missing/null `homeworks`, then missing/null `current_date`, then non-list `homeworks`, and the first failing check reports its own text; otherwise the answer's `homeworks` list is returned unchanged, and this happens exactly when all three checks pass |
| `Homework.NoDataReportsDistinct` | homework.py:112-125 | the three texts `check_response` can report are pairwise different, so the report identifies the failing check |
| `Homework.ParseStatus` | homework.py:130-149 | a non-dict homework raises `AttributeError`; missing/null `homework_name` raises `KeyError` with nothing reported; a sentence comes back exactly when the name is set and the status is hashable; a known status gives the prefix, name and table verdict with no report; any other status reports `В ответе от API статус <status>` and renders the verdict as `None` |
| `Homework.SentenceReadsBack` | homework.py:143-149 | the sentence splits into the fixed prefix, the rendered name and the verdict text; a report is made exactly when the status has no table verdict |
| `Homework.VerdictsDistinct` | homework.py:33-37 | the three table verdicts differ from each other and from `None` |
| `Homework.SentenceDeterminesVerdict` | homework.py:143-149 | two sentences with the same text have the same verdict, whatever the two homework names are: the verdict is read back from the end of the sentence |
| `Homework.CheckTokens` | homework.py:152-162 | true exactly when all three credentials are set; an empty value counts as set |
| `ErrorReports.AfterReport` | homework.py:46-52 | the list grows by at most the reported text, only when that text is new and its send was delivered; it keeps having no duplicates; afterwards the text is in the list iff it was already there or the send was delivered |
| `ErrorReports.ErrorLog.constructor` | homework.py:31 | the error list starts empty |
| `ErrorReports.ErrorLog.Report` | homework.py:40-52 | a send is attempted exactly when the text is not yet in the list; the new list is `AfterReport` of the old one, so no duplicates appear |
| `ErrorReports.Replay` | homework.py:46-52 | over any run of reports the list only grows (the old list is a prefix of the new one) and stays free of duplicates |
| `ErrorReports.NoSendOnceDelivered` | homework.py:46-47 | once a text is in the list, no later report of it makes a send |
| `ErrorReports.DeliveredAtMostOnce` | homework.py:46-52 | over any run of reports each text is delivered at most once, and never when it was already in the list |
| `ErrorReports.ReplayRemembers` | homework.py:46-52 | after a run of reports, a text is in the list iff it was there at the start or one of its sends was delivered |
| `ErrorReports.FailedSendIsRetried` | homework.py:49-52 | if the first send of a text fails, the next report of it sends again: two sends, one delivery |
| `Polling.FromDate` | homework.py:73 | the `from_date` sent is the poll timestamp when it is truthy, and otherwise the clock reading; with a non-zero clock it is always truthy |
| `Polling.Poll` | homework.py:176-185 | `None` from `check_response` (and only that) ends the loop, with that one report and the timestamp unchanged; a raise in `check_response` leaves the timestamp unchanged; an empty list changes nothing; for a non-empty list the timestamp becomes the first record's `current_date` as soon as that record is a dict, even when formatting it raises; the outcome is then `parse_status`'s sentence or exception |
| `Polling.ExampleStep` | homework.py:176-185 | on the answer with one approved homework `hw1` (`current_date` 123) the bot sends the approved sentence for `hw1` and the next timestamp is 123 |
| `Polling.NextRequestAfterRecord` | homework.py:73 | after a step that took a record, the next `from_date` is that record's `current_date` when truthy, else the clock reading |
| `Polling.Poller.constructor` | homework.py:172 | the poll timestamp starts at the clock reading |
| `Polling.Poller.PollOnce` | homework.py:174-185 | one loop iteration sends `FromDate` of the old timestamp; its outcome and new timestamp are `Poll`'s for the fetched answer; the error list changes only by reporting `Poll`'s one report, and keeps having no duplicates |

## Left out

- `get_api_answer` (homework.py:67-98) is left out: the HTTP request, its exception handlers, the status-code check and JSON decoding. Its result is the value returned by `fetch`. Its own error reports are not modelled.
- `send_message` (homework.py:55-64) and the `Bot` construction (homework.py:49, 171) are left out. A send is a boolean outcome.
  - The unguarded first send at homework.py:57 is not modelled. In the code each new text is sent twice, and the model sends it once.
  - That send is outside the `try`, so a failing send raises out of `send_and_logging_error`. `Bot(...)` at homework.py:49 can raise the same way. For example, `check_response` then raises instead of returning `None`, the catch-all swallows the exception and the loop goes on. The boolean `delivered` does not capture this path, and neither does `Polling.Poll`'s rule that a `None` from `check_response` ends the loop.
  - The failure path at homework.py:63-64 is not modelled: it reports `НЕ Отправлено сообщение: ...` through the reporter again. That is unbounded recursion driven by external failures.
- The chat send of the status sentence at homework.py:185 is not modelled. The step returns the sentence as `Notify(message)`.
- Logging, environment loading, `time.time` and `time.sleep` (homework.py:14-30, 44, 168, 187, 192) are I/O or clock access. `RETRY_TIME` plays no part in any decision.
- The `while True` loop itself is not modelled; only one iteration is. Also left out:
  - the catch-all `except Exception`, which reports `Сбой в работе программы: ...`;
  - the `else` branch, which reports `неопознанный косяк` (homework.py:174-194).
  An exception leaves `PollOnce` as the outcome `Raised(error)`.
- The start-up gate in `main` is not modelled as a method. `main` stops when `check_tokens` is false (homework.py:167-169), and that function is `Homework.CheckTokens`.
- `JsonValue.Str`: a homework name that is a JSON list or object renders as a fixed placeholder, because Python's `repr` of containers is not modelled. Strings, ints, booleans and `None` render exactly as Python renders them.
- JSON floating-point numbers are not part of the `Json` datatype.
