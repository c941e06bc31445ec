# NoSmoke Coach onboarding survey, modelled in Dafny

The bot in `main.py` walks a user through an onboarding survey before a
45-day quit-smoking programme starts. The survey runs like this:

- the user accepts the terms;
- the user answers four button questions: smoking history, cigarettes a
  day, product, and earlier quit attempts;
- day one starts.

All survey state lives in one in-memory dictionary, `user_data`. It maps a
user id to a flat record. The dispatcher routes each inbound update by its
literal text, or by its callback data, to the first handler whose filter
accepts it. It never routes by the user's progress. Each handler writes
into the sender's record.

The project has four modules.

- `PyText` (`pytext.dfy`) covers the Python string built-ins the handlers
  rely on:
  - `str.split(sep)[0]`;
  - `int(str)` in base 10, with surrounding whitespace, one sign,
    digit-group underscores and the default limit of 4300 digits. The
    whitespace `int()` skips is `str.isspace()` without the ASCII
    separators U+001C..U+001F, which `str.split()` does skip;
  - `str(n)`, used to state the round trip.
- `Routing` (`routing.dfy`) holds the inbound events and the handler
  filters:
  - `Route` picks the handler in registration order. Its contract shows
    that each handler is reached by exactly the updates its own filter
    accepts.
  - The vocabularies are pairwise disjoint.
  - Each keyboard a handler sends leads to the next handler.
- `Survey` (`survey.dfy`) is the state machine as pure functions and the
  lemmas about them:
  - the record, `Key` and `Value`;
  - `CigsPerDay`, the bucket-to-integer derivation;
  - `Answer`, `Step` (one update) and `Run` (a sequence of updates).
- `Bot` (`bot.dfy`) is the process itself:
  - the class `SurveyBot` holds `userData` and updates it in place, with
    one method per handler;
  - `Dispatch` is proved to agree with `Step`.

A `KeyError` raised by an answer handler is modelled as the outcome
`KeyError(user)` with the table unchanged. The dispatcher catches handler
exceptions and carries on with the next update. Calls to `datetime.now()`
become a `Timestamp` argument.

Three behaviours of the code are worth stating outright:

- **`день` can go down.** The terms callback resets the record to
  `{день: 0, дата_старта: now}` whenever it arrives (`main.py:73`),
  including after day 1 has started. `Survey.DayResetsOnReaccept` proves
  the reset.
- **Answers are not tied to a step.** Routing ignores progress, so an
  answer to a later question is accepted before the earlier ones.
  `Survey.FinalAnswerSkipsQuestions` shows day 1 starting with three
  answers missing.
- **The counsellor button has no handler.** The day-one keyboard offers
  "👥 Записаться к психологу" (`main.py:120`), but no handler accepts that
  text (`Routing.DayOneButtons`).

## Model

| member | source | states |
|---|---|---|
| PyText.PrefixBefore | main.py:92 | `s.split(sep)[0]` for a one-character separator, computed character by character; `PrefixBeforeSpec` states what it is |
| PyText.ParseInt | main.py:92 | `int(s)` in base 10, `None` where Python raises `ValueError`: `int()`'s whitespace trimmed (not U+001C..U+001F), one optional sign, digit groups, at most 4300 digits; `ParseIntDecimal`, `ParseIntRejectsForeign` and `SeparatorsAreNotIntSpace` constrain it |
| PyText.TrimStartSpec | main.py:41-92 | stripping a class of whitespace at the front (the one `str.split()` skips, or the one `int()` skips): a suffix is kept, only that whitespace is dropped, and all of it is dropped |
| PyText.TrimEndSpec | main.py:92 | the same at the back, for the whitespace `int()` skips: a prefix is kept and all trailing whitespace is dropped |
| PyText.PrefixBeforeSpec | main.py:92 | `s.split(sep)[0]` is a prefix of `s` with no `sep` in it, followed in `s` by `sep` unless it is all of `s` |
| PyText.DigitGroupsChars | main.py:92 | a digit string `int()` accepts holds only digits and underscores and ends in a digit |
| PyText.DigitsAreGroups | main.py:92 | every non-empty run of ASCII digits has the digit-group syntax `int()` accepts (the digit limit is checked separately) |
| PyText.DigitCountOfDigits | main.py:92 | the digit count `int()` limits is the length of a string of digits |
| PyText.NatToDecimalDigits | main.py:92 | the decimal numeral of a natural number is a non-empty digit string whose value is `n` |
| PyText.ParseIntDecimal | main.py:92 | `int()` of the numeral of `n` gives back `n` when the numeral has at most 4300 digits and raises `ValueError` otherwise |
| PyText.ParseIntRejectsForeign | main.py:91-94 | `int()` raises `ValueError` on any text with a character other than digits, the whitespace it skips, signs and underscores |
| PyText.SeparatorsAreNotIntSpace | main.py:92 | U+001C..U+001F are whitespace to `str.split()`, but a digit next to one is refused by `int()` |
| Routing.Route | main.py:41-126 | for each of the 8 handlers: `Route` selects it if and only if its own filter accepts the update (first match in registration order) |
| Routing.IsStartCommand | main.py:41 | the `/start` filter: the first whitespace-separated word, cut at `@` and lower-cased, is `/start`; `NotStartCommand` and `Survey.StartIsCommand` constrain it |
| Routing.NotStartCommand | main.py:41 | a text whose first character is neither `/` nor whitespace is not a `/start` command |
| Routing.FixedLabelInitial | main.py:61-126 | every answer, "Начать" and SOS label starts with one of a few known characters, none of them the counsellor label's |
| Routing.FixedLabelsAreNotCommands | main.py:41-126 | no answer, "Начать" or SOS label passes the `/start` filter |
| Routing.DurationAnswersApart | main.py:79 | the smoking-history answers are in no other vocabulary and are neither "Начать" nor the SOS label |
| Routing.CountAnswersApart | main.py:87 | the cigarette-count answers are in no later vocabulary and are neither "Начать" nor the SOS label |
| Routing.KindAnswersApart | main.py:99 | the product answers are not attempt answers and are neither "Начать" nor the SOS label |
| Routing.AttemptsAnswersApart | main.py:106 | the attempt answers are neither "Начать" nor the SOS label |
| Routing.FiltersDisjoint | main.py:61-126 | no text passes two message filters |
| Routing.KeyboardOf | main.py:24-121 | the buttons each handler's reply offers, as labels or callback data; `ButtonsLeadToNextStep` and `DayOneButtons` state where they lead |
| Routing.Press | main.py:34-38 | pressing a button sends an update from the user who pressed it |
| Routing.ButtonsLeadToNextStep | main.py:24-104 | every button offered by `/start`, "Начать" and the first four survey prompts is routed to the next step of the survey |
| Routing.DayOneButtons | main.py:118-126 | on the day-one keyboard the SOS button reaches the SOS handler and the counsellor button reaches no handler |
| Routing.DayOneKeyboard | main.py:118-126 | the same for every user |
| Survey.KeyNamesDistinct | main.py:73-110 | distinct record keys are distinct dictionary keys |
| Survey.CigsPerDay | main.py:91-94 | `сигарет_в_день` from the bucket: `int()` of the part before the first en dash, or 20 when `int()` raises; the lemmas below pin it down |
| Survey.CigsPerDayOfRange | main.py:91-92 | a bucket `<n>–<rest>` gives `n` when the numeral of `n` has at most 4300 digits, and 20 otherwise |
| Survey.PrefixBeforeFirst | main.py:92 | the part of a text before the first en dash is what precedes it |
| Survey.PrefixBeforeAbsent | main.py:92 | a text without an en dash is its own first part |
| Survey.CigsPerDayFallback | main.py:91-94 | a bucket whose part before the dash has a character `int()` rejects gives the default 20 |
| Survey.RangeBucket | main.py:91-92 | a range bucket gives its lower bound, or 20 when the bound has more than 4300 digits |
| Survey.OpenBucketFallsBack | main.py:91-94 | "20 и больше" has no dash, `int()` fails, and the stored value is 20 |
| Survey.CigsPerDayOfCountAnswers | main.py:87-94 | "1–9"→1, "10–14"→10, "15–19"→15, "20 и больше"→20, and every accepted bucket gives one of {1, 10, 15, 20} |
| Survey.NewRecord | main.py:73 | the record the terms create holds exactly `день` = 0 and `дата_старта` = now |
| Survey.Answer | main.py:82-111 | the record after each of the four answers; `AnswerFrame` and `AnswerValues` state which keys it writes, with which values, and that it keeps the rest |
| Survey.AnswerFrame | main.py:82-111 | an answer adds exactly its handler's keys and leaves every other key of the record as it was |
| Survey.AnswerValues | main.py:82-111 | the values each answer stores: the text, the derived count, or `день` 1, `старт` now and two zero counters |
| Survey.Apply | main.py:70-111 | the table and outcome after the selected handler runs: the terms replace the record, an answer updates the sender's record or raises `KeyError`, every other handler leaves the table; the `Step` lemmas below state it |
| Survey.Step | main.py:41-126 | one update: `Apply` of the handler `Route` selects; constrained by the lemmas from `AcceptReplacesRecord` to `StepKeepsWellFormed` |
| Survey.AcceptReplacesRecord | main.py:70-73 | the terms callback replaces the sender's record with a new one, whatever it held |
| Survey.AnswerWithoutRecord | main.py:80-108 | an answer from a user without a record raises `KeyError` and leaves the table unchanged |
| Survey.AnswerUpdatesRecord | main.py:79-111 | an answer from a user with a record keeps the set of users, adds the handler's keys and keeps all other keys |
| Survey.OtherUpdatesLeaveTable | main.py:41-68 | `/start`, "Начать", SOS and unrouted updates leave the table as it is |
| Survey.UnknownTextLeavesTable | main.py:61-106 | a text in no vocabulary reaches no handler and changes nothing |
| Survey.StepOnlyTouchesSender | main.py:72-109 | no update creates, removes or changes the record of a user other than its sender |
| Survey.SurveyFieldOnlyRewrittenBySameQuestion | main.py:82-108 | a stored answer changes only when the same question is answered again or the terms are accepted again |
| Survey.WritesOnlyOwnKeys | main.py:82-108 | each survey key is written by one answer handler only |
| Survey.AnswerKeepsWellFormed | main.py:108-111 | an answer keeps `день` at 0 or 1 and keeps `дата_старта` |
| Survey.StepKeepsWellFormed | main.py:70-111 | every update keeps every record's `день` at 0 or 1 with a `дата_старта` |
| Survey.Run | main.py:21-126 | the table after a sequence of updates, applied one at a time in order; constrained by `RunKeepsWellFormed`, `RecordIffAccepted` and the scenario lemmas |
| Survey.RunKeepsWellFormed | main.py:21-111 | `день` is 0 or 1 in every record after any sequence of updates |
| Survey.RecordIffAccepted | main.py:73 | after a run, a user has a record if and only if they had one before or accepted the terms during the run |
| Survey.RecordExistsIffTermsAccepted | main.py:21-73 | from an empty table, the users with a record are exactly those who accepted the terms |
| Survey.DayResetsOnReaccept | main.py:73-110 | the last answer sets `день` to 1 and accepting the terms again sets it back to 0 |
| Survey.AnswersFillRecord | main.py:73-111 | the four answers, in order, from the record the terms created, give the completed record |
| Survey.AnswerOver | main.py:79-111 | one routed answer writes the answer into the sender's record |
| Survey.FinalAnswerSkipsQuestions | main.py:106-111 | the last answer is accepted right after the terms and starts day 1 with the earlier answers missing |
| Survey.RunFirst | main.py:70-126 | a run proceeds from the table its first update leaves |
| Survey.AnswerRun | main.py:79-111 | a run that starts with an answer goes on from the updated record |
| Survey.FourAnswers | main.py:79-111 | the four answers in order fill the new record completely |
| Survey.CompleteSurvey | main.py:70-111 | terms then four answers leave the user with the completed record and every other record unchanged |
| Survey.GreetingLeavesTable | main.py:41-68 | `/start` then "Начать" leave the table as it is |
| Survey.OnboardingScenario | main.py:41-111 | `/start`, "Начать", terms, "1–5 лет", "10–14", "Сигареты", "Ни разу" from an empty table leave one record with all answers, `день` 1 and 10 cigarettes a day |
| Survey.StartIsCommand | main.py:41 | `/start` passes the `/start` filter |
| Bot.SurveyBot.constructor | main.py:21 | `user_data` starts empty |
| Bot.SurveyBot.SendWelcome | main.py:41-59 | the reply carries the "Начать" keyboard, whose button leads to the terms handler |
| Bot.SurveyBot.AskTerms | main.py:61-68 | the reply carries the accept button, which leads to the accept handler |
| Bot.SurveyBot.AcceptedTerms | main.py:70-77 | the sender's record becomes `{день: 0, дата_старта: now}` and the reply carries the four smoking-history buttons, which lead to question 1's handler |
| Bot.SurveyBot.AskCigs | main.py:79-85 | `стаж` is stored and the reply carries the four count buttons, or `KeyError` with the table unchanged and no reply; the buttons lead to question 2's handler |
| Bot.SurveyBot.AskType | main.py:87-97 | `кол-во` and the derived `сигарет_в_день` are stored and the reply carries the four product buttons, or `KeyError` with the table unchanged and no reply; the buttons lead to question 3's handler |
| Bot.SurveyBot.AskAttempts | main.py:99-104 | `тип` is stored and the reply carries the five attempt buttons, or `KeyError` with the table unchanged and no reply; the buttons lead to question 4's handler |
| Bot.SurveyBot.StartDayOne | main.py:106-122 | `попытки` is stored and the day-one fields are merged into the record and the reply carries the day-one keyboard, or `KeyError` with the table unchanged and no reply; its SOS button reaches its handler and the counsellor button none |
| Bot.SurveyBot.Dispatch | main.py:41-126 | running the routed handler (`/start` and "Начать" only reply) on `user_data` gives exactly the table and outcome of `Step`, and keeps every `день` at 0 or 1 |

## Left out

- The SOS handler's HTTP request to the language-model service, its reply and its error handling (`main.py:126-152`). These are network I/O. The SOS update is routed and changes no state.
- All sending: message texts, `answer_callback_query`, Markdown. Keyboards are kept only as their button labels or callback data. Layout flags such as `resize_keyboard` and `one_time_keyboard` are left out.
- The bot's set-up: environment variables, logging, `Bot`, `Dispatcher` and polling (`main.py:9-20`, `main.py:154-156`).
- `datetime.now()`: it becomes a `Timestamp` parameter (an integer) of the operations that read it.
- NatToDecimalDigits, ParseIntDecimal: `NatToDecimal` is the numeral itself. CPython's `str(n)` also raises beyond 4300 digits, but `main.py` never calls `str()`, so that limit is not modelled.
- Routing.Route: the `/start` filter does not compare an `@mention` with the bot's own username, because that name comes from the platform at run time. Any `/start@name` is accepted.
- Survey.CigsPerDayFallback, Survey.CigsPerDay: a part before the dash written in non-ASCII decimal digits (such as `"٣–x"`) gives 20 in the model, where `int()` would convert it. No count answer holds such digits, so the stored value of every label `ask_type` accepts is unaffected.
- PyText.ParseInt, PyText.ParseIntRejectsForeign: only ASCII digits. Python's `int()` also accepts other Unicode decimal digits (Arabic-Indic, full-width) and converts them. `int()` only ever sees the part of a count answer before its dash, and no count answer contains them.
- Updates other than text messages and callbacks (photos, stickers) are not modelled. Every filter in `main.py` rejects them.
- Bot.SurveyBot: a record is a map value, so the model has no aliasing between records. `main.py` mutates the record dictionary in place, and nothing else holds a reference to it.
- Concurrency: each handler finishes its writes to `user_data` before its first `await`, so updates are applied one at a time, in order.
- A durable per-user store is not part of this source. `main.py` keeps `user_data` in memory only.
