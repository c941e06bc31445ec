/** The onboarding survey as a state machine over `user_data`, the table from
    user id to a flat record that main.py keeps in memory. `Step` is what one
    inbound update does to the table; `Run` is a sequence of updates. */
module Survey {
  import opened PyText
  import opened Routing

  /** `datetime.now()` at the moment a handler runs, passed in. */
  type Timestamp = int

  /** The keys main.py writes into a record (`KeyName` gives the literal). */
  datatype Key =
    | Day          // день
    | StartDate    // дата_старта
    | Experience   // стаж
    | CountBucket  // кол-во
    | CigsDaily    // сигарет_в_день
    | Kind         // тип
    | Attempts     // попытки
    | ProgramStart // старт
    | NotSmoked    // не_выкурено
    | Savings      // экономия

  /** The values stored: integers, answer texts and timestamps. */
  datatype Value = Int(n: int) | Text(s: string) | Time(t: Timestamp)

  type Record = map<Key, Value>
  type Table = map<UserId, Record>

  function KeyName(k: Key): string {
    match k
    case Day => "день"
    case StartDate => "дата_старта"
    case Experience => "стаж"
    case CountBucket => "кол-во"
    case CigsDaily => "сигарет_в_день"
    case Kind => "тип"
    case Attempts => "попытки"
    case ProgramStart => "старт"
    case NotSmoked => "не_выкурено"
    case Savings => "экономия"
  }

  /** Distinct keys are distinct dictionary keys, so a record is faithfully
      a map over `Key`. */
  lemma KeyNamesDistinct(a: Key, b: Key)
    requires a != b
    ensures KeyName(a) != KeyName(b)
  {
  }

  /** The value stored when a cigarette-count bucket cannot be parsed. */
  const DefaultCigsPerDay := 20

  /** `int(bucket.split("–")[0])`, or 20 where that raises. */
  function CigsPerDay(bucket: string): int {
    match ParseInt(PrefixBefore(bucket, '–'))
    case Some(n) => n
    case None => DefaultCigsPerDay
  }

  /** A bucket of the form `<n>–<anything>` yields `n`, unless the numeral
      of `n` is too long for `int()`, which then falls back to the default. */
  lemma CigsPerDayOfRange(n: int, rest: string)
    ensures CigsPerDay(IntToDecimal(n) + "–" + rest)
         == if |NatToDecimal(Abs(n))| <= MaxStrDigits then n else DefaultCigsPerDay
  {
    var bucket := IntToDecimal(n) + "–" + rest;
    var prefix := IntToDecimal(n);
    ParseIntDecimal(n);
    assert '–' !in prefix by {
      NatToDecimalDigits(Abs(n));
    }
    assert bucket[|prefix|] == '–';
    assert bucket[..|prefix|] == prefix;
    PrefixBeforeFirst(bucket, prefix, '–');
  }

  lemma PrefixBeforeFirst(s: string, p: string, sep: char)
    requires |p| < |s| && s[..|p|] == p && sep !in p && s[|p|] == sep
    ensures PrefixBefore(s, sep) == p
  {
    var r := PrefixBefore(s, sep);
    PrefixBeforeSpec(s, sep);
    assert forall j :: 0 <= j < |p| ==> s[j] == p[j];
    assert forall j :: 0 <= j < |r| ==> s[j] == r[j];
    assert |r| == |p|;
  }

  /** A bucket whose part before the dash holds something `int()` rejects
      yields the default. */
  lemma CigsPerDayFallback(bucket: string, i: nat)
    requires i < |bucket| && !IsNumeral(bucket[i])
    requires forall j :: 0 <= j <= i ==> bucket[j] != '–'
    ensures CigsPerDay(bucket) == DefaultCigsPerDay
  {
    var prefix := PrefixBefore(bucket, '–');
    PrefixBeforeSpec(bucket, '–');
    assert |prefix| > i;
    assert prefix[i] == bucket[i];
    ParseIntRejectsForeign(prefix, i);
  }

  /** The four buckets of the cigarette-count question: the three ranges
      give their lower bound, the open-ended one falls back to the default.
      Every answer that filter accepts is thus stored as 1, 10, 15 or 20. */
  lemma CigsPerDayOfCountAnswers(bucket: string)
    requires bucket in CountAnswers
    ensures bucket == "1–9" ==> CigsPerDay(bucket) == 1
    ensures bucket == "10–14" ==> CigsPerDay(bucket) == 10
    ensures bucket == "15–19" ==> CigsPerDay(bucket) == 15
    ensures bucket == "20 и больше" ==> CigsPerDay(bucket) == 20
    ensures CigsPerDay(bucket) in {1, 10, 15, 20}
  {
    if bucket == "1–9" {
      RangeBucket(bucket, 1, "9");
      assert |NatToDecimal(1)| == 1;
    } else if bucket == "10–14" {
      RangeBucket(bucket, 10, "14");
      assert |NatToDecimal(10)| == 2;
    } else if bucket == "15–19" {
      RangeBucket(bucket, 15, "19");
      assert |NatToDecimal(15)| == 2;
    } else {
      OpenBucketFallsBack(bucket);
    }
  }

  lemma RangeBucket(bucket: string, n: nat, rest: string)
    requires bucket == NatToDecimal(n) + "–" + rest
    ensures CigsPerDay(bucket) == if |NatToDecimal(n)| <= MaxStrDigits then n else DefaultCigsPerDay
  {
    CigsPerDayOfRange(n, rest);
  }

  lemma OpenBucketFallsBack(open: string)
    requires open == "20 и больше"
    ensures CigsPerDay(open) == DefaultCigsPerDay
  {
    assert open[3] == 'и';
    assert forall j :: 0 <= j < |open| ==> open[j] != '–';
    PrefixBeforeAbsent(open, '–');
    CigsPerDayFallback(open, 3);
  }

  lemma PrefixBeforeAbsent(s: string, sep: char)
    requires forall j :: 0 <= j < |s| ==> s[j] != sep
    ensures PrefixBefore(s, sep) == s
  {
    PrefixBeforeSpec(s, sep);
  }

  /** The record `accepted_terms` stores: day 0 and the acceptance time. */
  function NewRecord(now: Timestamp): (r: Record)
    ensures r.Keys == {Day, StartDate}
    ensures r[Day] == Int(0) && r[StartDate] == Time(now)
  {
    map[Day := Int(0), StartDate := Time(now)]
  }

  /** The keys each answer handler writes; the reference for the frame
      lemmas below. */
  function Writes(h: Handler): set<Key> {
    match h
    case AskCigs => {Experience}
    case AskType => {CountBucket, CigsDaily}
    case AskAttempts => {Kind}
    case StartDayOne => {Attempts, Day, ProgramStart, NotSmoked, Savings}
    case _ => {}
  }

  /** The sender's record after answer handler `h` received `text`. The last
      answer merges the day-one fields into the record with `dict.update`. */
  function Answer(h: Handler, rec: Record, text: string, now: Timestamp): Record
    requires h.IsSurveyAnswer()
  {
    match h
    case AskCigs => rec[Experience := Text(text)]
    case AskType => rec[CountBucket := Text(text)][CigsDaily := Int(CigsPerDay(text))]
    case AskAttempts => rec[Kind := Text(text)]
    case StartDayOne =>
      rec[Attempts := Text(text)]
      + map[Day := Int(1), ProgramStart := Time(now), NotSmoked := Int(0), Savings := Int(0)]
  }

  /** An answer adds exactly the handler's keys and leaves every other key
      of the record as it was. */
  lemma AnswerFrame(h: Handler, rec: Record, text: string, now: Timestamp)
    requires h.IsSurveyAnswer()
    ensures Answer(h, rec, text, now).Keys == rec.Keys + Writes(h)
    ensures forall k :: k in rec && k !in Writes(h) ==> Answer(h, rec, text, now)[k] == rec[k]
  {
  }

  /** What the handler does with the values it writes. */
  lemma AnswerValues(h: Handler, rec: Record, text: string, now: Timestamp)
    requires h.IsSurveyAnswer()
    ensures h == AskCigs ==> Answer(h, rec, text, now)[Experience] == Text(text)
    ensures h == AskType ==>
      (Answer(h, rec, text, now)[CountBucket] == Text(text)
       && Answer(h, rec, text, now)[CigsDaily] == Int(CigsPerDay(text)))
    ensures h == AskAttempts ==> Answer(h, rec, text, now)[Kind] == Text(text)
    ensures h == StartDayOne ==>
      (Answer(h, rec, text, now)[Attempts] == Text(text)
       && Answer(h, rec, text, now)[Day] == Int(1) && Answer(h, rec, text, now)[ProgramStart] == Time(now)
       && Answer(h, rec, text, now)[NotSmoked] == Int(0) && Answer(h, rec, text, now)[Savings] == Int(0))
  {
  }

  /** How an update ends: normally, or with the `KeyError` an answer handler
      raises for a sender that has no record. The dispatcher logs the error
      and goes on with the next update. */
  datatype Outcome = Done | KeyError(user: UserId)

  datatype Transition = Transition(table: Table, outcome: Outcome)

  /** What handler `h` does to the table when `sender` sent `text`. Only
      the terms callback and the four answers touch the table. */
  function Apply(t: Table, h: Handler, sender: UserId, text: string, now: Timestamp): Transition {
    if h == AcceptedTerms then
      Transition(t[sender := NewRecord(now)], Done)
    else if h.IsSurveyAnswer() then
      if sender in t then Transition(t[sender := Answer(h, t[sender], text, now)], Done)
      else Transition(t, KeyError(sender))
    else
      Transition(t, Done)
  }

  /** The text a message carries, or the data of a callback. */
  function Payload(e: Event): string {
    match e
    case Message(_, text) => text
    case Callback(_, data) => data
  }

  /** One inbound update: route it, then run the handler's effect. */
  function Step(t: Table, e: Event, now: Timestamp): Transition {
    Apply(t, Route(e), e.sender, Payload(e), now)
  }

  /** Accepting the terms replaces the sender's record with a fresh one,
      whatever it held before. */
  lemma AcceptReplacesRecord(t: Table, u: UserId, now: Timestamp)
    ensures Step(t, Callback(u, AcceptTermsData), now).table == t[u := NewRecord(now)]
    ensures Step(t, Callback(u, AcceptTermsData), now).outcome == Done
  {
  }

  /** An answer from a sender that has no record raises `KeyError` and
      creates nothing. */
  lemma AnswerWithoutRecord(t: Table, e: Event, now: Timestamp)
    requires Route(e).IsSurveyAnswer() && e.sender !in t
    ensures Step(t, e, now) == Transition(t, KeyError(e.sender))
  {
  }

  /** An answer from a sender that has a record writes the handler's keys
      into that record, and nothing else in the table changes. */
  lemma AnswerUpdatesRecord(t: Table, e: Event, now: Timestamp)
    requires Route(e).IsSurveyAnswer() && e.sender in t
    ensures Step(t, e, now).outcome == Done
    ensures Step(t, e, now).table.Keys == t.Keys
    ensures Step(t, e, now).table[e.sender].Keys == t[e.sender].Keys + Writes(Route(e))
    ensures forall k :: k in t[e.sender] && k !in Writes(Route(e)) ==>
      Step(t, e, now).table[e.sender][k] == t[e.sender][k]
  {
    AnswerFrame(Route(e), t[e.sender], Payload(e), now);
  }

  /** `/start`, "Начать", the SOS button and every text outside the
      vocabularies leave the table as it is. */
  lemma OtherUpdatesLeaveTable(t: Table, e: Event, now: Timestamp)
    requires Route(e) in {SendWelcome, AskTerms, SosHelp, Ignored}
    ensures Step(t, e, now) == Transition(t, Done)
  {
  }

  /** A text that is none of the answers, "Начать", the SOS label or a
      `/start` command reaches no handler and changes nothing. */
  lemma UnknownTextLeavesTable(t: Table, u: UserId, text: string, now: Timestamp)
    requires !IsFixedLabel(text) && !IsStartCommand(text)
    ensures Route(Message(u, text)) == Ignored
    ensures Step(t, Message(u, text), now) == Transition(t, Done)
  {
    OtherUpdatesLeaveTable(t, Message(u, text), now);
  }

  /** No update touches the record of a user other than its sender. */
  lemma StepOnlyTouchesSender(t: Table, e: Event, now: Timestamp, v: UserId)
    requires v != e.sender
    ensures v in Step(t, e, now).table <==> v in t
    ensures v in t ==> Step(t, e, now).table[v] == t[v]
  {
  }

  /** The answer handler that writes survey key `k`, if any does. */
  function WriterOf(k: Key): Handler {
    match k
    case Experience => AskCigs
    case CountBucket => AskType
    case CigsDaily => AskType
    case Kind => AskAttempts
    case Attempts => StartDayOne
    case _ => Ignored
  }

  /** An answer, once stored, changes only when the same question is
      answered again or when the terms are accepted again (which drops it). */
  lemma SurveyFieldOnlyRewrittenBySameQuestion(t: Table, e: Event, now: Timestamp, u: UserId, k: Key)
    requires k in {Experience, CountBucket, CigsDaily, Kind, Attempts}
    requires u in t && k in t[u]
    requires Route(e) != WriterOf(k) && Route(e) != AcceptedTerms
    ensures u in Step(t, e, now).table
    ensures k in Step(t, e, now).table[u] && Step(t, e, now).table[u][k] == t[u][k]
  {
    var h := Route(e);
    var t' := Step(t, e, now).table;
    if u != e.sender {
      StepOnlyTouchesSender(t, e, now, u);
    } else if h.IsSurveyAnswer() {
      WritesOnlyOwnKeys(h, k);
      AnswerFrame(h, t[u], Payload(e), now);
      assert t' == t[u := Answer(h, t[u], Payload(e), now)];
    } else {
      assert t' == t;
    }
  }

  /** `Writes` and `WriterOf` agree on the survey keys. */
  lemma WritesOnlyOwnKeys(h: Handler, k: Key)
    requires h.IsSurveyAnswer() && k in {Experience, CountBucket, CigsDaily, Kind, Attempts}
    ensures k in Writes(h) <==> WriterOf(k) == h
  {
  }

  /** Every record holds `день` equal to 0 or 1 and a `дата_старта`. */
  predicate WellFormed(t: Table) {
    forall u :: u in t ==> WellFormedRecord(t[u])
  }

  predicate WellFormedRecord(r: Record) {
    && Day in r && (r[Day] == Int(0) || r[Day] == Int(1))
    && StartDate in r && r[StartDate].Time?
  }

  lemma AnswerKeepsWellFormed(h: Handler, rec: Record, text: string, now: Timestamp)
    requires h.IsSurveyAnswer() && WellFormedRecord(rec)
    ensures WellFormedRecord(Answer(h, rec, text, now))
  {
    AnswerFrame(h, rec, text, now);
    if h == StartDayOne {
      AnswerValues(h, rec, text, now);
    } else {
      assert Day !in Writes(h);
    }
    assert StartDate !in Writes(h);
  }

  lemma StepKeepsWellFormed(t: Table, e: Event, now: Timestamp)
    requires WellFormed(t)
    ensures WellFormed(Step(t, e, now).table)
  {
    var h := Route(e);
    var t' := Step(t, e, now).table;
    if h == AcceptedTerms {
      assert t' == t[e.sender := NewRecord(now)];
    } else if h.IsSurveyAnswer() && e.sender in t {
      AnswerKeepsWellFormed(h, t[e.sender], Payload(e), now);
      assert t' == t[e.sender := Answer(h, t[e.sender], Payload(e), now)];
    } else {
      assert t' == t;
    }
  }

  /** An update stamped with the time its handler runs. */
  datatype Update = Update(event: Event, now: Timestamp)

  /** The table after a sequence of updates, each one processed whether or
      not an earlier one raised. */
  function Run(t: Table, us: seq<Update>): Table
    decreases |us|
  {
    if us == [] then t else Run(Step(t, us[0].event, us[0].now).table, us[1..])
  }

  lemma {:induction false} RunKeepsWellFormed(t: Table, us: seq<Update>)
    requires WellFormed(t)
    ensures WellFormed(Run(t, us))
    decreases |us|
  {
    if us != [] {
      StepKeepsWellFormed(t, us[0].event, us[0].now);
      RunKeepsWellFormed(Step(t, us[0].event, us[0].now).table, us[1..]);
    }
  }

  /** Whether update `x` is user `u` accepting the terms. */
  predicate AcceptsTerms(x: Update, u: UserId) {
    x.event == Callback(u, AcceptTermsData)
  }

  /** A user has a record exactly when it had one before or accepted the
      terms in between. */
  lemma {:induction false} RecordIffAccepted(t: Table, us: seq<Update>, u: UserId)
    ensures u in Run(t, us) <==> u in t || exists i :: 0 <= i < |us| && AcceptsTerms(us[i], u)
    decreases |us|
  {
    if us != [] {
      var t' := Step(t, us[0].event, us[0].now).table;
      RecordIffAccepted(t', us[1..], u);
      assert u in t' <==> u in t || AcceptsTerms(us[0], u);
      if exists i :: 0 <= i < |us| && AcceptsTerms(us[i], u) {
        var i :| 0 <= i < |us| && AcceptsTerms(us[i], u);
        if i > 0 {
          assert AcceptsTerms(us[1..][i - 1], u);
        }
      }
      if exists i :: 0 <= i < |us[1..]| && AcceptsTerms(us[1..][i], u) {
        var i :| 0 <= i < |us[1..]| && AcceptsTerms(us[1..][i], u);
        assert AcceptsTerms(us[i + 1], u);
      }
    }
  }

  /** From an empty table, the users with a record are exactly those who
      accepted the terms. */
  lemma RecordExistsIffTermsAccepted(us: seq<Update>, u: UserId)
    ensures u in Run(map[], us) <==> exists i :: 0 <= i < |us| && AcceptsTerms(us[i], u)
  {
    RecordIffAccepted(map[], us, u);
  }

  /** `день` is not monotonic: the last answer sets it to 1, and accepting
      the terms again afterwards sets it back to 0. */
  lemma DayResetsOnReaccept(t: Table, u: UserId, text: string, now1: Timestamp, now2: Timestamp)
    requires u in t && text in AttemptsAnswers
    ensures var t1 := Step(t, Message(u, text), now1).table;
      && u in t1 && Day in t1[u] && t1[u][Day] == Int(1)
      && var t2 := Step(t1, Callback(u, AcceptTermsData), now2).table;
         u in t2 && Day in t2[u] && t2[u][Day] == Int(0)
  {
    var t1 := Step(t, Message(u, text), now1).table;
    assert Route(Message(u, text)) == StartDayOne;
    AnswerValues(StartDayOne, t[u], text, now1);
    assert t1 == t[u := Answer(StartDayOne, t[u], text, now1)];
    AcceptReplacesRecord(t1, u, now2);
  }

  /** The record of a user who accepted the terms at `start` and gave the
      four answers, the last one at `dayOne`. */
  function CompletedRecord(a1: string, a2: string, a3: string, a4: string, start: Timestamp, dayOne: Timestamp): Record {
    map[Day := Int(1), StartDate := Time(start),
        Experience := Text(a1), CountBucket := Text(a2), CigsDaily := Int(CigsPerDay(a2)),
        Kind := Text(a3), Attempts := Text(a4),
        ProgramStart := Time(dayOne), NotSmoked := Int(0), Savings := Int(0)]
  }

  /** The answers of one user, in the order the questions are asked, fold
      into `CompletedRecord` starting from the record the terms created. */
  lemma AnswersFillRecord(a1: string, a2: string, a3: string, a4: string,
                          n0: Timestamp, n1: Timestamp, n2: Timestamp, n3: Timestamp, n4: Timestamp)
    ensures Answer(StartDayOne, Answer(AskAttempts, Answer(AskType, Answer(AskCigs, NewRecord(n0), a1, n1), a2, n2), a3, n3), a4, n4)
         == CompletedRecord(a1, a2, a3, a4, n0, n4)
  {
    var c := CompletedRecord(a1, a2, a3, a4, n0, n4);
    var r3 := NewRecord(n0)[Experience := Text(a1)][CountBucket := Text(a2)][CigsDaily := Int(CigsPerDay(a2))][Kind := Text(a3)];
    var r4 := r3[Attempts := Text(a4)] + map[Day := Int(1), ProgramStart := Time(n4), NotSmoked := Int(0), Savings := Int(0)];
    assert r4.Keys == c.Keys;
    assert forall k | k in c :: r4[k] == c[k];
  }

  /** An answer from a user with a record, as one update. */
  lemma AnswerOver(t: Table, u: UserId, h: Handler, rec: Record, text: string, now: Timestamp)
    requires h.IsSurveyAnswer() && Route(Message(u, text)) == h
    ensures Step(t[u := rec], Message(u, text), now).table == t[u := Answer(h, rec, text, now)]
  {
    ApplyAnswer(t, u, h, rec, text, now);
  }

  lemma ApplyAnswer(t: Table, u: UserId, h: Handler, rec: Record, text: string, now: Timestamp)
    requires h.IsSurveyAnswer()
    ensures Apply(t[u := rec], h, u, text, now).table == t[u := Answer(h, rec, text, now)]
  {
    assert t[u := rec][u := Answer(h, rec, text, now)] == t[u := Answer(h, rec, text, now)];
  }

  /** Routing looks at the text only, never at how far the user got: the
      last answer right after the terms starts day 1 with the first three
      answers missing. */
  lemma FinalAnswerSkipsQuestions(t: Table, u: UserId, text: string, n0: Timestamp, n1: Timestamp)
    requires text in AttemptsAnswers
    ensures Step(t[u := NewRecord(n0)], Message(u, text), n1).table == t[u := Answer(StartDayOne, NewRecord(n0), text, n1)]
    ensures Answer(StartDayOne, NewRecord(n0), text, n1).Keys == {Day, StartDate, Attempts, ProgramStart, NotSmoked, Savings}
    ensures Answer(StartDayOne, NewRecord(n0), text, n1)[Day] == Int(1)
  {
    AnswerOver(t, u, StartDayOne, NewRecord(n0), text, n1);
    FinalAnswerOnNewRecord(text, n0, n1);
  }

  lemma FinalAnswerOnNewRecord(text: string, n0: Timestamp, n1: Timestamp)
    ensures Answer(StartDayOne, NewRecord(n0), text, n1).Keys == {Day, StartDate, Attempts, ProgramStart, NotSmoked, Savings}
    ensures Answer(StartDayOne, NewRecord(n0), text, n1)[Day] == Int(1)
  {
  }

  /** An update that leads from `t` to `t'` starts a run from `t` the way
      the rest of the run starts from `t'`. */
  lemma RunFirst(t: Table, us: seq<Update>, t': Table)
    requires us != [] && Step(t, us[0].event, us[0].now).table == t'
    ensures Run(t, us) == Run(t', us[1..])
  {
  }

  lemma CompletedRecordHolds(a1: string, a2: string, a3: string, a4: string, start: Timestamp, dayOne: Timestamp)
    ensures var c := CompletedRecord(a1, a2, a3, a4, start, dayOne);
      c[Day] == Int(1) && c[CigsDaily] == Int(CigsPerDay(a2))
  {
  }

  /** A run that starts with an answer from a user with a record. */
  lemma AnswerRun(t: Table, u: UserId, h: Handler, rec: Record, text: string, now: Timestamp, us: seq<Update>)
    requires h.IsSurveyAnswer() && Route(Message(u, text)) == h
    requires us != [] && us[0] == Update(Message(u, text), now)
    ensures Run(t[u := rec], us) == Run(t[u := Answer(h, rec, text, now)], us[1..])
  {
    AnswerOver(t, u, h, rec, text, now);
    RunFirst(t[u := rec], us, t[u := Answer(h, rec, text, now)]);
  }

  /** The four answers, in the order the questions are asked, from the
      record the terms created. */
  lemma FourAnswers(t: Table, u: UserId, us: seq<Update>, a1: string, a2: string, a3: string, a4: string,
                    n0: Timestamp, n1: Timestamp, n2: Timestamp, n3: Timestamp, n4: Timestamp)
    requires a1 in DurationAnswers && a2 in CountAnswers && a3 in KindAnswers && a4 in AttemptsAnswers
    requires |us| == 4
    requires us[0] == Update(Message(u, a1), n1) && us[1] == Update(Message(u, a2), n2)
    requires us[2] == Update(Message(u, a3), n3) && us[3] == Update(Message(u, a4), n4)
    ensures Run(t[u := NewRecord(n0)], us) == t[u := CompletedRecord(a1, a2, a3, a4, n0, n4)]
  {
    var r0 := NewRecord(n0);
    var r1 := Answer(AskCigs, r0, a1, n1);
    var r2 := Answer(AskType, r1, a2, n2);
    var r3 := Answer(AskAttempts, r2, a3, n3);
    AnswerRun(t, u, AskCigs, r0, a1, n1, us);
    assert us[1..][0] == us[1] && us[1..][1..] == us[2..];
    AnswerRun(t, u, AskType, r1, a2, n2, us[1..]);
    assert us[2..][0] == us[2] && us[2..][1..] == us[3..];
    AnswerRun(t, u, AskAttempts, r2, a3, n3, us[2..]);
    assert us[3..][0] == us[3] && us[3..][1..] == [];
    AnswerRun(t, u, StartDayOne, r3, a4, n4, us[3..]);
    AnswersFillRecord(a1, a2, a3, a4, n0, n1, n2, n3, n4);
  }

  /** Accepting the terms and answering the four questions in order leaves
      the user with a record holding every answer and the day-one fields,
      and leaves every other record as it was. */
  lemma CompleteSurvey(t: Table, u: UserId, us: seq<Update>, a1: string, a2: string, a3: string, a4: string,
                       n0: Timestamp, n1: Timestamp, n2: Timestamp, n3: Timestamp, n4: Timestamp)
    requires a1 in DurationAnswers && a2 in CountAnswers && a3 in KindAnswers && a4 in AttemptsAnswers
    requires |us| == 5
    requires us[0] == Update(Callback(u, AcceptTermsData), n0) && us[1] == Update(Message(u, a1), n1)
    requires us[2] == Update(Message(u, a2), n2) && us[3] == Update(Message(u, a3), n3)
    requires us[4] == Update(Message(u, a4), n4)
    ensures Run(t, us) == t[u := CompletedRecord(a1, a2, a3, a4, n0, n4)]
  {
    AcceptReplacesRecord(t, u, n0);
    RunFirst(t, us, t[u := NewRecord(n0)]);
    FourAnswers(t, u, us[1..], a1, a2, a3, a4, n0, n1, n2, n3, n4);
  }

  /** `/start` and "Начать" before anything else leave the table
      unchanged. */
  lemma GreetingLeavesTable(t: Table, u: UserId, us: seq<Update>, n0: Timestamp, n1: Timestamp)
    requires |us| >= 2 && us[0] == Update(Message(u, "/start"), n0) && us[1] == Update(Message(u, BeginText), n1)
    ensures Run(t, us) == Run(t, us[2..])
  {
    assert Run(t, us) == Run(t, us[1..]) by {
      StartIsCommand();
      OtherUpdatesLeaveTable(t, us[0].event, n0);
      RunFirst(t, us, t);
    }
    assert Run(t, us[1..]) == Run(t, us[2..]) by {
      OtherUpdatesLeaveTable(t, us[1].event, n1);
      assert us[1..][0] == us[1] && us[1..][1..] == us[2..];
      RunFirst(t, us[1..], t);
    }
  }

  /** The onboarding walk-through: `/start`, "Начать", the terms, then
      "1–5 лет", "10–14", "Сигареты" and "Ни разу". The user ends on day 1
      with 10 cigarettes a day and all answers stored. */
  lemma OnboardingScenario(u: UserId, us: seq<Update>, n: seq<Timestamp>, a1: string, a2: string, a3: string, a4: string)
    requires |n| == 7
    requires a1 == "1–5 лет" && a2 == "10–14" && a3 == "Сигареты" && a4 == "Ни разу"
    requires us == [Update(Message(u, "/start"), n[0]), Update(Message(u, BeginText), n[1]),
                    Update(Callback(u, AcceptTermsData), n[2]), Update(Message(u, a1), n[3]),
                    Update(Message(u, a2), n[4]), Update(Message(u, a3), n[5]), Update(Message(u, a4), n[6])]
    ensures Run(map[], us) == map[u := CompletedRecord(a1, a2, a3, a4, n[2], n[6])]
    ensures Run(map[], us)[u][Day] == Int(1) && Run(map[], us)[u][CigsDaily] == Int(10)
  {
    GreetingLeavesTable(map[], u, us, n[0], n[1]);
    CompleteSurvey(map[], u, us[2..], a1, a2, a3, a4, n[2], n[3], n[4], n[5], n[6]);
    CompletedRecordHolds(a1, a2, a3, a4, n[2], n[6]);
    CigsPerDayOfCountAnswers(a2);
  }

  lemma StartIsCommand()
    ensures IsStartCommand("/start")
  {
    assert TrimStart("/start", IsSpace) == "/start";
    assert FirstWord("/start") == "/start";
    assert PrefixBefore("/start", '@') == "/start";
  }
}
