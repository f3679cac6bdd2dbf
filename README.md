# homework_bot: the poll-check-notify cycle, in Dafny

homework_bot polls the Practicum homework-status API and relays any status change to a Telegram
chat. This project models the response-handling pipeline of `homework.py`:

- **API client** (`ApiClient`): what `get_api_answer` makes of the request's outcome. The checks
  run in a fixed order: a transport error, then a status other than 200, then an undecodable
  body, then an `error` key, then a `code` key. Otherwise the payload comes back unchanged.
- **Response validator** (`Validator`): `check_response` returns the `homeworks` list of a dict
  payload. It refuses a non-dict first, then a missing key, then a non-list value.
- **Status formatter** (`Formatter`): `parse_status` looks the status up in `VERDICTS` and fills
  the `CHANGED_STATUS` template. Its error order is: not a dict, no `status`, no
  `homework_name`, an unhashable status, then an unknown status.
- **Token check** (`Tokens`): `check_tokens` is Python's `all` over the three credentials.
- **Poll loop** (`PollLoop`): the token check before the loop, and the body of `while True`.
  `Cycle` is the specification of one pass. `RunCycles` folds it over a sequence of passes. The
  class `Poller` holds the `timestamp` cursor; its `Step` and `Run` methods are proved against
  `Cycle` and `RunCycles`.

Payloads are values of a `Json` datatype: null, bool, int, string, list, dict. Python semantics
are kept where they change the outcome:

- `key in payload` tests keys on a dict, elements on a list, substrings on a string, and raises
  `TypeError` on a number, a bool or `None`.
- Indexing a list or a string with a string key raises `TypeError`.
- `str()` of a `KeyError` is the quoted `repr` of its argument.

Each cycle's inputs are data: the HTTP reply (`HttpReply`), the outcome of the status send and
the outcome of the error-report send (`Delivery`). The notices a cycle attempts are the
`Notice` values it returns. `NoticeText` gives the exact Telegram text wherever homework.py fixes
that text.

homework.py keeps no last-error cache, so every failing cycle sends its report, identical to the
previous one or not (`RunReportsEveryFailure`, `ScenarioRepeatedFailure`). `parse_status` looks up
`status` before it tests `homework_name` (homework.py:134-137), so a record missing both fails on
`status`.

## Model

| member | source | states |
|---|---|---|
| `ApiClient.Contains` | homework.py:105 | `key in payload` is a key test on a dict, an element test on a list and a substring test (some index starts an occurrence) on a string; on a number, a bool or None it raises a membership `TypeError` |
| `ApiClient.ScanSoftErrors` | homework.py:104-110 | on a dict, no error exactly when no soft-error key is present; otherwise, the error names the FIRST present key and carries its value; on a list or a string, no error exactly when no key is an element or a substring, and a match raises the indexing `TypeError` |
| `ApiClient.ApiAnswer` | homework.py:89-111 | transport failure gives ConnectionError; otherwise non-200 gives StatusCodeError; otherwise an undecodable body fails; otherwise `error` is tested before `code`; success returns the 200 payload unchanged |
| `Validator.CheckResponse` | homework.py:114-128 | a non-dict is refused first, then a missing `homeworks`; success holds exactly for a dict whose `homeworks` is a list, and returns that list unmodified; only the three shape errors can occur |
| `Validator.CheckResponseRoundTrip` | homework.py:123-128 | any dict whose `homeworks` is a list, the empty list included, yields exactly that list |
| `Validator.CheckResponseRefusesNonList` | homework.py:125-126 | any dict whose `homeworks` is not a list is refused with the not-a-list error |
| `Formatter.ParseStatus` | homework.py:131-142 | not a dict fails first, then a missing `status`, then a missing `homework_name`; success implies a known status and yields that name with `VERDICTS[status]` |
| `Formatter.ChangedStatusText` | homework.py:35 | a string name gives exactly prefix + name + `". ` + verdict; text exists exactly for scalar names |
| `Formatter.ParseStatusSucceedsIff` | homework.py:134-142 | success holds exactly for a dict with a name and a status among `approved`, `reviewing`, `rejected` |
| `Formatter.ParseStatusUnknown` | homework.py:139-140 | an unrecognised hashable status fails with an error naming it, whose text is `Неизвестный статус: ` + status; an unhashable one raises `TypeError` |
| `Formatter.ParseStatusText` | homework.py:142 | a record with a string name and a known status yields exactly the `CHANGED_STATUS` text with the table's verdict |
| `Errors.ErrorText` | homework.py:171 | which errors have fixed text: exactly those other than the request, status-code, soft-error, built-in `TypeError` and unhashable-status errors; an unknown status's text begins with `Неизвестный статус: ` |
| `JsonValue.Str` | homework.py:140 | `str()` of a scalar JSON value exists exactly for hashable values and is the string itself for a string |
| `JsonValue.IntText` | homework.py:140 | the decimal text of an int reads back as that int, has no leading zero, and has a leading `-` for negatives |
| `JsonValue.Substring` | homework.py:105 | `key in s` on strings holds exactly when `key` occurs at some index of `s` |
| `JsonValue.Get` | homework.py:169 | `dict.get(key, default)` is the entry when present and the default otherwise (the definition itself) |
| `Tokens.All` | homework.py:148 | Python's `all` holds exactly when every element is set and non-empty |
| `Tokens.CheckTokens` | homework.py:145-149 | truthy exactly when all three credentials are set and non-empty |
| `PollLoop.Start` | homework.py:155-159 | missing credentials raise the token error before the loop; otherwise a fresh poller starts with the cursor at the given time |
| `PollLoop.NoticeText` | homework.py:170-175 | an error report's text is `Сбой в работе программы: ` + the error's text, and exists exactly when that text does; a status notice's text is `CHANGED_STATUS` (the definition of the message fill) |
| `PollLoop.Cycle` | homework.py:162-177 | an error report is sent exactly when some stage raised, as the last attempt and at most once; on failure the cursor is unchanged; otherwise it becomes `current_date`, or keeps its value |
| `PollLoop.CycleFetchFailure` | homework.py:163 | a failed fetch sends exactly one report of that error and keeps the cursor |
| `PollLoop.CycleShapeFailure` | homework.py:164 | a payload of the wrong shape sends exactly one report of the validator's error and keeps the cursor |
| `PollLoop.CycleNoHomeworks` | homework.py:166-169 | an empty list sends nothing, and the cursor still moves to `current_date` when present |
| `PollLoop.CycleNotifiesFirst` | homework.py:166-169 | a non-empty list sends exactly one status message, about `homeworks[0]`; a formatting or delivery failure adds one report and keeps the cursor |
| `PollLoop.CycleIgnoresLaterHomeworks` | homework.py:167 | two lists with the same first homework give identical cycles |
| `PollLoop.CycleReportDeliveryIrrelevant` | homework.py:174-177 | whether the error report is delivered never changes the cycle's outcome; holds by construction, since `Cycle` never reads that delivery |
| `PollLoop.RunReportsEveryFailure` | homework.py:161-177 | over any run, the number of error reports equals the number of failing cycles (no deduplication) |
| `PollLoop.RunFailuresKeepCursor` | homework.py:161-177 | a run of failing cycles never moves the cursor |
| `PollLoop.ScenarioApproved` | homework.py:53-57 | an approved homework `X` with `current_date` 1700000000 sends the approved template for `X`, and the cursor becomes 1700000000 |
| `PollLoop.ScenarioUnavailable` | homework.py:97-100 | a 503 reply sends one status-code report and keeps the cursor |
| `PollLoop.ScenarioRepeatedFailure` | homework.py:170-177 | two identical failing cycles send two identical reports, and the cursor stays |
| `PollLoop.Poller.constructor` | homework.py:159 | the cursor starts at the given integer time |
| `PollLoop.Poller.Step` | homework.py:162-177 | the new cursor and the attempted messages are exactly `Cycle` of the old cursor and the inputs |
| `PollLoop.Poller.Run` | homework.py:161-179 | after n passes, cursor and messages are exactly `RunCycles` over the n inputs |

## Left out

- Network, Telegram and clock: `requests.get`, `telegram.Bot`, `bot.send_message`, `time.time()`
  and `time.sleep(RETRY_TIME)` are not modelled. The reply, each send's outcome and the start
  time are inputs. The source sets no request timeout; the model takes each reply as an input, so
  it does not capture a fetch that never returns.
- JSON decoding: `response.json()` is an input, either a parsed `Json` value or the text of the
  decoding error. JSON floats are not modelled; numbers are integers.
- Configuration: `load_dotenv` and `os.getenv` are left out; the three credentials are
  `Option<string>` arguments. A failure inside `telegram.Bot(...)` is not modelled.
- Logging: every `logging` call, including the critical log of `check_tokens` and the info log of
  `send_message`, is left out. Logging has no effect on what is sent or on the cursor.
- The infinite `while True` is modelled as a run over finitely many cycle inputs. Exceptions
  outside `Exception`, such as `KeyboardInterrupt`, end the real loop; they are not modelled.
- ErrorText: the text of `ConnectionError`, `StatusCodeErrorException`, `ResponseErrorException`
  and Python's own `TypeError`s is not computed, because it is Python's `str()` of request
  parameters, header dicts and exceptions. These errors are tags, and their text is `None`.
- Str: Python's `repr` of a list or a dict is not modelled; their text is `None`.
- ChangedStatusText: so a list or dict homework name yields no text.
- constants.py duplicates the constants of homework.py, which does not import it; it is not part
  of this model.
- error_exceptions.py only declares the exception classes; they are folded into `Errors.Error`.
- api_praktikum.py is a one-off request-and-print script; it is not part of this model.
