/** The bot process of main.py: the in-memory `user_data` table and the
    handlers that read and update it in place, one method per handler.
    Each answer handler returns the keyboard its reply carries, or `None`
    when it raised before replying. */
module Bot {
  import opened PyText
  import opened Routing
  import opened Survey

  class SurveyBot {
    /** `user_data`: user id to that user's record. */
    var userData: Table

    constructor()
      ensures userData == map[]
    {
      userData := map[];
    }

    /** `/start`: replies with the welcome text and the "Начать" button,
        whose press reaches the terms handler. */
    method SendWelcome() returns (reply: Keyboard)
      ensures reply == KeyboardOf(Handler.SendWelcome) && reply.Size() > 0
      ensures forall u, i :: 0 <= i < reply.Size() ==> Route(Press(u, reply, i)) == Handler.AskTerms
    {
      reply := KeyboardOf(Handler.SendWelcome);
      forall u, i | 0 <= i < reply.Size()
        ensures Route(Press(u, reply, i)) == Handler.AskTerms
      {
        ButtonsLeadToNextStep(Handler.SendWelcome, u, i);
      }
    }

    /** "Начать": replies with the terms and the inline button that accepts
        them. */
    method AskTerms() returns (reply: Keyboard)
      ensures reply == KeyboardOf(Handler.AskTerms) && reply.Size() > 0
      ensures forall u, i :: 0 <= i < reply.Size() ==> Route(Press(u, reply, i)) == Handler.AcceptedTerms
    {
      reply := KeyboardOf(Handler.AskTerms);
      forall u, i | 0 <= i < reply.Size()
        ensures Route(Press(u, reply, i)) == Handler.AcceptedTerms
      {
        ButtonsLeadToNextStep(Handler.AskTerms, u, i);
      }
    }

    /** The terms callback: the sender's record becomes day 0 with the
        acceptance time, whatever it held before; then question 1. */
    method AcceptedTerms(user: UserId, now: Timestamp) returns (reply: Keyboard)
      modifies this
      ensures userData == old(userData)[user := NewRecord(now)]
      ensures reply == KeyboardOf(Handler.AcceptedTerms) && reply.Size() == 4
      ensures forall u, i :: 0 <= i < reply.Size() ==> Route(Press(u, reply, i)) == Handler.AskCigs
    {
      userData := userData[user := map[Day := Int(0), StartDate := Time(now)]];
      reply := KeyboardOf(Handler.AcceptedTerms);
      forall u, i | 0 <= i < reply.Size()
        ensures Route(Press(u, reply, i)) == Handler.AskCigs
      {
        ButtonsLeadToNextStep(Handler.AcceptedTerms, u, i);
      }
    }

    /** Answer 1: stores the smoking history; then question 2. The time of
        the update is not read by this handler (`Answer` ignores it). */
    method AskCigs(user: UserId, text: string) returns (out: Outcome, reply: Option<Keyboard>)
      modifies this
      ensures user in old(userData) ==>
        out == Done && userData == old(userData)[user := Answer(Handler.AskCigs, old(userData)[user], text, 0)]
      ensures user in old(userData) ==> reply == Some(KeyboardOf(Handler.AskCigs)) && reply.value.Size() == 4
      ensures user !in old(userData) ==> out == KeyError(user) && userData == old(userData) && reply == None
      ensures reply.Some? ==> forall u, i :: 0 <= i < reply.value.Size() ==> Route(Press(u, reply.value, i)) == Handler.AskType
    {
      if user !in userData {
        return KeyError(user), None;
      }
      userData := userData[user := userData[user][Experience := Text(text)]];
      var kb := KeyboardOf(Handler.AskCigs);
      forall u, i | 0 <= i < kb.Size()
        ensures Route(Press(u, kb, i)) == Handler.AskType
      {
        ButtonsLeadToNextStep(Handler.AskCigs, u, i);
      }
      out, reply := Done, Some(kb);
    }

    /** Answer 2: stores the bucket, then the number before its dash, or 20
        when that is not an integer; then question 3. */
    method AskType(user: UserId, text: string) returns (out: Outcome, reply: Option<Keyboard>)
      modifies this
      ensures user in old(userData) ==>
        out == Done && userData == old(userData)[user := Answer(Handler.AskType, old(userData)[user], text, 0)]
      ensures user in old(userData) ==> reply == Some(KeyboardOf(Handler.AskType)) && reply.value.Size() == 4
      ensures user !in old(userData) ==> out == KeyError(user) && userData == old(userData) && reply == None
      ensures reply.Some? ==> forall u, i :: 0 <= i < reply.value.Size() ==> Route(Press(u, reply.value, i)) == Handler.AskAttempts
    {
      if user !in userData {
        return KeyError(user), None;
      }
      userData := userData[user := userData[user][CountBucket := Text(text)]];
      var parsed := ParseInt(PrefixBefore(text, '–'));
      if parsed.Some? {
        userData := userData[user := userData[user][CigsDaily := Int(parsed.value)]];
      } else {
        userData := userData[user := userData[user][CigsDaily := Int(DefaultCigsPerDay)]];
      }
      var kb := KeyboardOf(Handler.AskType);
      forall u, i | 0 <= i < kb.Size()
        ensures Route(Press(u, kb, i)) == Handler.AskAttempts
      {
        ButtonsLeadToNextStep(Handler.AskType, u, i);
      }
      out, reply := Done, Some(kb);
    }

    /** Answer 3: stores the product; then question 4. */
    method AskAttempts(user: UserId, text: string) returns (out: Outcome, reply: Option<Keyboard>)
      modifies this
      ensures user in old(userData) ==>
        out == Done && userData == old(userData)[user := Answer(Handler.AskAttempts, old(userData)[user], text, 0)]
      ensures user in old(userData) ==> reply == Some(KeyboardOf(Handler.AskAttempts)) && reply.value.Size() == 5
      ensures user !in old(userData) ==> out == KeyError(user) && userData == old(userData) && reply == None
      ensures reply.Some? ==> forall u, i :: 0 <= i < reply.value.Size() ==> Route(Press(u, reply.value, i)) == Handler.StartDayOne
    {
      if user !in userData {
        return KeyError(user), None;
      }
      userData := userData[user := userData[user][Kind := Text(text)]];
      var kb := KeyboardOf(Handler.AskAttempts);
      forall u, i | 0 <= i < kb.Size()
        ensures Route(Press(u, kb, i)) == Handler.StartDayOne
      {
        ButtonsLeadToNextStep(Handler.AskAttempts, u, i);
      }
      out, reply := Done, Some(kb);
    }

    /** Answer 4: stores the attempts, then merges day 1, the programme
        start time and two zero counters into the record; the reply offers
        the SOS button, which reaches its handler, and the counsellor
        button, which reaches none. */
    method StartDayOne(user: UserId, text: string, now: Timestamp) returns (out: Outcome, reply: Option<Keyboard>)
      modifies this
      ensures user in old(userData) ==>
        out == Done && userData == old(userData)[user := Answer(Handler.StartDayOne, old(userData)[user], text, now)]
      ensures user in old(userData) ==> reply == Some(KeyboardOf(Handler.StartDayOne))
      ensures user !in old(userData) ==> out == KeyError(user) && userData == old(userData) && reply == None
      ensures reply.Some? ==>
        (&& reply.value.Size() == 2
         && (forall u :: Route(Press(u, reply.value, 0)) == Handler.SosHelp)
         && (forall u :: Route(Press(u, reply.value, 1)) == Handler.Ignored))
    {
      if user !in userData {
        return KeyError(user), None;
      }
      userData := userData[user := userData[user][Attempts := Text(text)]];
      userData := userData[user := userData[user] + map[Day := Int(1), ProgramStart := Time(now), NotSmoked := Int(0), Savings := Int(0)]];
      var kb := KeyboardOf(Handler.StartDayOne);
      DayOneKeyboard();
      out, reply := Done, Some(kb);
    }

    /** One inbound update: the handler `Route` selects runs, and the table
        and outcome are those `Step` describes. The table stays well formed. */
    method Dispatch(e: Event, now: Timestamp) returns (out: Outcome)
      modifies this
      ensures Transition(userData, out) == Step(old(userData), e, now)
      ensures WellFormed(old(userData)) ==> WellFormed(userData)
    {
      ghost var before := userData;
      var h := Route(e);
      match h {
        case SendWelcome =>
          var _ := SendWelcome();
          out := Done;
        case AskTerms =>
          var _ := AskTerms();
          out := Done;
        case AcceptedTerms =>
          var _ := AcceptedTerms(e.sender, now);
          out := Done;
        case AskCigs =>
          var reply;
          out, reply := AskCigs(e.sender, e.text);
        case AskType =>
          var reply;
          out, reply := AskType(e.sender, e.text);
        case AskAttempts =>
          var reply;
          out, reply := AskAttempts(e.sender, e.text);
        case StartDayOne =>
          var reply;
          out, reply := StartDayOne(e.sender, e.text, now);
        case _ =>
          // The SOS handler and unmatched updates only reply.
          out := Done;
      }
      if WellFormed(before) {
        StepKeepsWellFormed(before, e, now);
      }
    }
  }
}
