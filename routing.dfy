/** How an inbound update reaches a handler of main.py. The dispatcher tries
    the handlers in the order they are registered and runs the first whose
    filter accepts the update; message handlers see only messages and the
    callback-query handler only callbacks. Each filter is a literal test on
    the text (or the callback data) and never consults `user_data`. */
module Routing {
  import opened PyText

  type UserId = int

  /** An inbound update: a text message, or the press of an inline button
      carrying its callback data. */
  datatype Event =
    | Message(sender: UserId, text: string)
    | Callback(sender: UserId, data: string)

  /** The handlers of main.py, plus `Ignored` when no filter accepts. */
  datatype Handler =
    | SendWelcome     // `/start`
    | AskTerms        // "Начать"
    | AcceptedTerms   // callback `accept_terms`
    | AskCigs         // answer to question 1 (smoking history)
    | AskType         // answer to question 2 (cigarettes a day)
    | AskAttempts     // answer to question 3 (product)
    | StartDayOne     // answer to question 4 (quit attempts)
    | SosHelp         // "🚨 SOS"
    | Ignored
  {
    /** The four handlers that write an answer into the sender's record. */
    predicate IsSurveyAnswer() {
      this in {AskCigs, AskType, AskAttempts, StartDayOne}
    }
  }

  const BeginText: string := "Начать"
  const AcceptTermsData: string := "accept_terms"
  const SosText: string := "🚨 SOS"

  /** The answer vocabularies, as the four message filters list them. */
  const DurationAnswers: seq<string> := ["Меньше года", "1–5 лет", "6–10 лет", "Больше 10 лет"]
  const CountAnswers: seq<string> := ["1–9", "10–14", "15–19", "20 и больше"]
  const KindAnswers: seq<string> := ["Сигареты", "Вейп", "Айкос / стики", "Всё понемногу"]
  const AttemptsAnswers: seq<string> := ["Ни разу", "1–2", "3–5", "Больше 5", "Бросал(а), но сорвался(ась)"]

  /** ASCII lower-casing; exact for comparing with `/start`, which has no
      letter that a non-ASCII character lower-cases to. */
  function AsciiLower(s: string): string {
    if s == [] then [] else
      [if 'A' <= s[0] <= 'Z' then (s[0] as int + 32) as char else s[0]] + AsciiLower(s[1..])
  }

  /** The part of `s` before its first whitespace character. */
  function FirstWord(s: string): string {
    if s == [] || IsSpace(s[0]) then [] else [s[0]] + FirstWord(s[1..])
  }

  /** The `/start` command filter: the first word of the text, without any
      `@mention`, is `/start` in any letter case. */
  predicate IsStartCommand(text: string) {
    AsciiLower(PrefixBefore(FirstWord(TrimStart(text, IsSpace)), '@')) == "/start"
  }

  /** The first handler, in registration order, whose filter accepts `e`.
      Each handler is reached by exactly the updates its own filter accepts:
      since no text passes two filters, the order never decides. */
  function Route(e: Event): (h: Handler)
    ensures h == SendWelcome <==> e.Message? && IsStartCommand(e.text)
    ensures h == AskTerms <==> e.Message? && e.text == BeginText
    ensures h == AcceptedTerms <==> e.Callback? && e.data == AcceptTermsData
    ensures h == AskCigs <==> e.Message? && e.text in DurationAnswers
    ensures h == AskType <==> e.Message? && e.text in CountAnswers
    ensures h == AskAttempts <==> e.Message? && e.text in KindAnswers
    ensures h == StartDayOne <==> e.Message? && e.text in AttemptsAnswers
    ensures h == SosHelp <==> e.Message? && e.text == SosText
  {
    match e
    case Callback(_, data) =>
      if data == AcceptTermsData then AcceptedTerms else Ignored
    case Message(_, text) =>
      FiltersDisjoint(text);
      if IsStartCommand(text) then SendWelcome
      else if text == BeginText then AskTerms
      else if text in DurationAnswers then AskCigs
      else if text in CountAnswers then AskType
      else if text in KindAnswers then AskAttempts
      else if text in AttemptsAnswers then StartDayOne
      else if text == SosText then SosHelp
      else Ignored
  }

  /** A text whose first character is neither `/` nor whitespace is not a
      `/start` command. */
  lemma NotStartCommand(w: string)
    requires |w| > 0 && w[0] != '/' && !IsSpace(w[0])
    ensures !IsStartCommand(w)
  {
    assert TrimStart(w, IsSpace) == w;
    var word := FirstWord(w);
    assert |word| > 0 && word[0] == w[0];
    var command := PrefixBefore(word, '@');
    if |command| > 0 {
      assert command[0] == w[0];
      assert AsciiLower(command)[0] != '/';
    }
  }

  /** Texts the four answer filters and the two button filters accept. */
  predicate IsFixedLabel(w: string) {
    w in DurationAnswers || w in CountAnswers || w in KindAnswers || w in AttemptsAnswers
    || w == BeginText || w == SosText
  }

  lemma FixedLabelsAreNotCommands(w: string)
    requires IsFixedLabel(w)
    ensures !IsStartCommand(w)
  {
    assert |w| > 0 && w[0] != '/' && !IsSpace(w[0]);
    NotStartCommand(w);
  }

  lemma DurationAnswersApart(w: string)
    requires w in DurationAnswers
    ensures w !in CountAnswers && w !in KindAnswers && w !in AttemptsAnswers
    ensures w != BeginText && w != SosText
  {
  }

  lemma CountAnswersApart(w: string)
    requires w in CountAnswers
    ensures w !in KindAnswers && w !in AttemptsAnswers
    ensures w != BeginText && w != SosText
  {
  }

  lemma KindAnswersApart(w: string)
    requires w in KindAnswers
    ensures w !in AttemptsAnswers && w != BeginText && w != SosText
  {
  }

  lemma AttemptsAnswersApart(w: string)
    requires w in AttemptsAnswers
    ensures w != BeginText && w != SosText
  {
  }

  /** No text passes two message filters, so the registration order never
      decides between two of them. */
  lemma FiltersDisjoint(text: string)
    ensures IsStartCommand(text) ==> !IsFixedLabel(text)
    ensures text in DurationAnswers ==>
      text !in CountAnswers && text !in KindAnswers && text !in AttemptsAnswers && text != BeginText && text != SosText
    ensures text in CountAnswers ==>
      text !in KindAnswers && text !in AttemptsAnswers && text != BeginText && text != SosText
    ensures text in KindAnswers ==> text !in AttemptsAnswers && text != BeginText && text != SosText
    ensures text in AttemptsAnswers ==> text != BeginText && text != SosText
    ensures BeginText != SosText
  {
    if IsFixedLabel(text) {
      FixedLabelsAreNotCommands(text);
    }
    if text in DurationAnswers {
      DurationAnswersApart(text);
    } else if text in CountAnswers {
      CountAnswersApart(text);
    } else if text in KindAnswers {
      KindAnswersApart(text);
    } else if text in AttemptsAnswers {
      AttemptsAnswersApart(text);
    }
  }

  /** The keyboard a handler sends with its reply: reply buttons that send
      their label as a message, or inline buttons that send callback data. */
  datatype Keyboard =
    | NoKeyboard
    | ReplyButtons(labels: seq<string>)
    | InlineButtons(callbacks: seq<string>)
  {
    function Size(): nat {
      match this
      case NoKeyboard => 0
      case ReplyButtons(labels) => |labels|
      case InlineButtons(callbacks) => |callbacks|
    }
  }

  /** The keyboards as the handlers build them, each list written out where
      it is sent, separately from the filter that receives its answers. */
  function KeyboardOf(h: Handler): Keyboard {
    match h
    case SendWelcome => ReplyButtons(["Начать"])
    case AskTerms => InlineButtons(["accept_terms"])
    case AcceptedTerms => ReplyButtons(["Меньше года", "1–5 лет", "6–10 лет", "Больше 10 лет"])
    case AskCigs => ReplyButtons(["1–9", "10–14", "15–19", "20 и больше"])
    case AskType => ReplyButtons(["Сигареты", "Вейп", "Айкос / стики", "Всё понемногу"])
    case AskAttempts => ReplyButtons(["Ни разу", "1–2", "3–5", "Больше 5", "Бросал(а), но сорвался(ась)"])
    case StartDayOne => ReplyButtons(["🚨 SOS", "👥 Записаться к психологу"])
    case SosHelp => NoKeyboard
    case Ignored => NoKeyboard
  }

  /** The update a user sends by pressing button `i` of keyboard `kb`. */
  function Press(u: UserId, kb: Keyboard, i: nat): (e: Event)
    requires i < kb.Size()
    ensures e.sender == u
  {
    match kb
    case ReplyButtons(labels) => Message(u, labels[i])
    case InlineButtons(callbacks) => Callback(u, callbacks[i])
  }

  /** The linear onboarding flow: the step each prompt leads to. */
  function NextStep(h: Handler): Handler {
    match h
    case SendWelcome => AskTerms
    case AskTerms => AcceptedTerms
    case AcceptedTerms => AskCigs
    case AskCigs => AskType
    case AskType => AskAttempts
    case AskAttempts => StartDayOne
    case _ => Ignored
  }

  /** Every button offered along the onboarding flow is accepted by the
      filter of the next step and by no other. */
  lemma ButtonsLeadToNextStep(h: Handler, u: UserId, i: nat)
    requires h in {SendWelcome, AskTerms, AcceptedTerms, AskCigs, AskType, AskAttempts}
    requires i < KeyboardOf(h).Size()
    ensures Route(Press(u, KeyboardOf(h), i)) == NextStep(h)
  {
  }

  /** After the last answer the SOS button reaches its handler, while the
      counsellor button of the same keyboard reaches none. */
  lemma DayOneButtons(u: UserId)
    ensures KeyboardOf(StartDayOne).Size() == 2
    ensures Route(Press(u, KeyboardOf(StartDayOne), 0)) == SosHelp
    ensures Route(Press(u, KeyboardOf(StartDayOne), 1)) == Ignored
  {
    var counsellor := KeyboardOf(StartDayOne).labels[1];
    assert counsellor[0] == '👥';
    NotStartCommand(counsellor);
    if IsFixedLabel(counsellor) {
      FixedLabelInitial(counsellor);
    }
  }

  /** The first character of every fixed label. */
  lemma FixedLabelInitial(w: string)
    requires IsFixedLabel(w)
    ensures |w| > 0 && w[0] in "М16Б2СВАН3🚨"
  {
  }

  lemma DayOneKeyboard()
    ensures KeyboardOf(StartDayOne).Size() == 2
    ensures forall u :: Route(Press(u, KeyboardOf(StartDayOne), 0)) == SosHelp
    ensures forall u :: Route(Press(u, KeyboardOf(StartDayOne), 1)) == Ignored
  {
    forall u
      ensures Route(Press(u, KeyboardOf(StartDayOne), 0)) == SosHelp
      ensures Route(Press(u, KeyboardOf(StartDayOne), 1)) == Ignored
    {
      DayOneButtons(u);
    }
  }
}
