/** The bot's in-memory state and its handlers, as the Python code runs them: TEMPLATES holds one
    list object per day, user_sessions maps a user to a session record, and every handler updates
    those objects in place. */
module Bot {
  import opened Wrappers
  import opened Text
  import opened Catalog
  import opened Callback
  import opened Engine

  /** A day's exercise list. It is one object, shared by TEMPLATES and by every session of that day:
      handle_day stores the list itself, not a copy. */
  class Template {
    /** The day code whose list this is: each day has a list object of its own. */
    ghost const day: string
    /** The list as TEMPLATES was written. */
    ghost const original: seq<Exercise>
    var entries: seq<Exercise>

    constructor (day: string, entries: seq<Exercise>)
      ensures this.day == day && this.original == entries && this.entries == entries
    {
      this.day := day;
      this.original := entries;
      this.entries := entries;
    }
  }

  /** A session record of user_sessions. */
  class Session {
    const day: string
    const template: Template
    var index: nat
    var setsDone: seq<SetRecord>
    var messagesToDelete: seq<int>

    /** The record as a value. */
    ghost function State(): SessionState
      reads this, template
    {
      SessionState(template.entries, index, setsDone, messagesToDelete)
    }

    ghost predicate Valid()
      reads this, template
    {
      Inv(State())
    }

    /** The record handle_day stores, before its first prompt. */
    constructor (day: string, template: Template, triggerId: int)
      ensures this.day == day && this.template == template
      ensures index == 0 && setsDone == [] && messagesToDelete == [triggerId]
    {
      this.day := day;
      this.template := template;
      index := 0;
      setsDone := [];
      messagesToDelete := [triggerId];
    }

    /** send_next_set, its self-call turned into a loop: move past the exercises whose sets are all
        logged, then send the completion question or the next set, and remember the sent message. */
    method SendNextSet(sentId: int) returns (p: Prompt)
      modifies this
      ensures Step(State(), p) == Next(old(State()), sentId)
    {
      while index < |template.entries|
            && Count(setsDone, template.entries[index].name) >= template.entries[index].targetSets
        invariant setsDone == old(setsDone) && messagesToDelete == old(messagesToDelete)
        invariant FirstOpen(template.entries, index, setsDone) == FirstOpen(template.entries, old(index), setsDone)
        decreases |template.entries| - index
      {
        index := index + 1;
      }
      if index >= |template.entries| {
        p := Completion;
      } else {
        var e := template.entries[index];
        p := SetPrompt(e.name, Count(setsDone, e.name) + 1, e.targetSets);
      }
      messagesToDelete := messagesToDelete + [sentId];
    }

    /** The body of handle_set_action for a recognised button, then send_next_set. When the index
        is past the end, reading template[index] fails and nothing changes. */
    method Perform(a: Action, queryId: int, sentId: int) returns (r: Result<Prompt>)
      modifies this, template
      ensures Act(old(State()), a, queryId, sentId).Err? <==> r.Err?
      ensures r.Err? ==> r.failure == Act(old(State()), a, queryId, sentId).failure && State() == old(State())
      ensures r.Ok? ==> Act(old(State()), a, queryId, sentId) == Ok(Step(State(), r.value))
    {
      if index >= |template.entries| {
        return Err(NoCurrentExercise);
      }
      var e := template.entries[index];
      match a {
        case Skip =>
          setsDone := setsDone + [SetRecord("Skipped", e.name)];
          index := index + 1;
        case ComeBack =>
          template.entries := template.entries + [e];
          index := index + 1;
        case _ =>
          setsDone := setsDone + [SetRecord(e.name, Label(a))];
          messagesToDelete := messagesToDelete + [queryId];
      }
      var p := SendNextSet(sentId);
      r := Ok(p);
    }
  }

  /** What a callback handler leads to. */
  datatype Reply = Prompted(prompt: Prompt) | Ignored | Failed(failure: Failure)

  /** What handle_done leads to: the messages to delete and the summary to send, the "continue"
      reply, or nothing. */
  datatype DoneReply = Finished(deleteIds: seq<int>, summary: string) | Resumed | Unanswered

  /** The module-level state: TEMPLATES and user_sessions. */
  class Bot {
    const templates: map<string, Template>
    var userSessions: map<int, Session>

    /** Each day's list is its entries as written followed by re-queued copies of them, and the
        days' lists are distinct objects; no two users share a record, and every record works on
        its day's list. */
    ghost predicate Valid()
      reads this, templates.Values, userSessions.Values
    {
      && (forall d :: d in templates ==> GrownFrom(templates[d].original, templates[d].entries))
      && (forall d :: d in templates ==> templates[d].day == d)
      && (forall u1, u2 :: u1 in userSessions && u2 in userSessions && u1 != u2 ==>
            userSessions[u1] != userSessions[u2])
      && (forall u :: u in userSessions ==>
            && userSessions[u].day in templates
            && userSessions[u].template == templates[userSessions[u].day]
            && userSessions[u].Valid())
    }

    /** The objects a set action may change: the user's record and its day's list. */
    function SessionFrame(userId: int): set<object>
      reads this
    {
      if userId in userSessions then
        var s := userSessions[userId];
        {s as object, s.template as object}
      else {}
    }

    /** The five days' lists are five distinct objects, as the five list literals of TEMPLATES are. */
    lemma DayListsDistinct(d1: string, d2: string)
      requires Valid() && d1 in templates && d2 in templates && d1 != d2
      ensures templates[d1] != templates[d2]
    {
      assert templates[d1].day == d1 && templates[d2].day == d2;
    }

    /** The program's start: one list per day of `table`, each as written, and no sessions. The
        program starts from `Templates()`. */
    constructor (table: map<string, seq<Exercise>>)
      requires table.Keys == {"day1", "day2", "day3", "day4", "day5"}
      ensures Valid()
      ensures templates.Keys == table.Keys
      ensures forall d :: d in templates ==> templates[d].original == templates[d].entries == table[d]
      ensures fresh(templates.Values)
      ensures userSessions == map[]
    {
      var t1 := new Template("day1", table["day1"]);
      var t2 := new Template("day2", table["day2"]);
      var t3 := new Template("day3", table["day3"]);
      var t4 := new Template("day4", table["day4"]);
      var t5 := new Template("day5", table["day5"]);
      templates := map["day1" := t1, "day2" := t2, "day3" := t3, "day4" := t4, "day5" := t5];
      userSessions := map[];
      new;
      forall d | d in templates
        ensures templates[d].original == templates[d].entries == table[d]
        ensures templates[d].day == d
        ensures GrownFrom(templates[d].original, templates[d].entries)
      {
        assert d in {"day1", "day2", "day3", "day4", "day5"};
        GrownFromSelf(templates[d].original);
      }
    }

    /** handle_day: read the day code from the button, store a new record for the user (replacing
        any earlier one) that shares the day's list, and send its first prompt. A missing field or
        an unknown code stops before anything is stored. */
    method HandleDay(userId: int, data: string, triggerId: int, sentId: int) returns (r: Reply)
      requires Valid()
      modifies this
      ensures Valid()
      ensures DayCodeOf(data).None? ==> r == Failed(MissingField) && userSessions == old(userSessions)
      ensures DayCodeOf(data).Some? && DayCodeOf(data).value !in templates ==>
        r == Failed(UnknownDay) && userSessions == old(userSessions)
      ensures DayCodeOf(data).Some? && DayCodeOf(data).value in templates ==>
        var code := DayCodeOf(data).value;
        && r.Prompted?
        && userId in userSessions && fresh(userSessions[userId])
        && userSessions == old(userSessions)[userId := userSessions[userId]]
        && userSessions[userId].day == code
        && userSessions[userId].template == templates[code]
        && Step(userSessions[userId].State(), r.prompt) == Start(templates[code].entries, triggerId, sentId)
    {
      var code := DayCodeOf(data);
      if code.None? {
        return Failed(MissingField);
      }
      if code.value !in templates {
        return Failed(UnknownDay);
      }
      var s := new Session(code.value, templates[code.value], triggerId);
      userSessions := userSessions[userId := s];
      var p := s.SendNextSet(sentId);
      r := Prompted(p);
    }

    /** handle_set_action with the pressed button's label as input, the dispatch the code means: no
        record is an error; a label that is no action changes nothing; otherwise the action runs on
        the user's record. Come Back grows the day's list in TEMPLATES itself. */
    method HandleSetAction(userId: int, caption: string, queryId: int, sentId: int) returns (r: Reply)
      requires Valid()
      modifies SessionFrame(userId)
      ensures Valid()
      ensures userSessions == old(userSessions)
      ensures userId !in userSessions ==> r == Failed(NoSession)
      ensures userId in userSessions && ParseAction(caption).None? ==>
        var s := userSessions[userId];
        r == Ignored && s.State() == old(s.State())
      ensures userId in userSessions && ParseAction(caption).Some? ==>
        var s := userSessions[userId];
        var act := Act(old(s.State()), ParseAction(caption).value, queryId, sentId);
        && (act.Err? ==> r == Failed(act.failure) && s.State() == old(s.State()))
        && (act.Ok? ==> r == Prompted(act.value.prompt) && s.State() == act.value.state)
      ensures userId in userSessions && ParseAction(caption) == Some(ComeBack) && r.Prompted? ==>
        var s := userSessions[userId];
        && old(s.index < |s.template.entries|)
        && templates[s.day].entries == old(s.template.entries + [s.template.entries[s.index]])
      ensures forall d :: d in templates && (userId in userSessions ==> d != userSessions[userId].day) ==>
        templates[d].entries == old(templates[d].entries)
      ensures forall u :: u in userSessions && u != userId ==>
        var o := userSessions[u];
        o.index == old(o.index) && o.setsDone == old(o.setsDone) && o.messagesToDelete == old(o.messagesToDelete)
    {
      if userId !in userSessions {
        return Failed(NoSession);
      }
      var s := userSessions[userId];
      var a := ParseAction(caption);
      if a.None? {
        return Ignored;
      }
      var result := s.Perform(a.value, queryId, sentId);
      if result.Err? {
        return Failed(result.failure);
      }
      r := Prompted(result.value);
      ActionKeepsValid(s);
      forall d | d in templates && d != s.day
        ensures templates[d].entries == old(templates[d].entries)
      {
        DayListsDistinct(d, s.day);
      }
    }

    /** handle_set_action as written: the action is taken from field 1 of the button's data. On a
        set button that field is the exercise name (Callback.AsWrittenDecodesExercise), and for an
        exercise of the table it names no action, so the handler does nothing. */
    method HandleSetCallback(userId: int, data: string, queryId: int, sentId: int) returns (r: Reply)
      requires Valid()
      modifies SessionFrame(userId)
      ensures Valid()
      ensures userSessions == old(userSessions)
      ensures userId !in userSessions ==> r == Failed(NoSession)
      ensures userId in userSessions && SetActionAsWritten(data).None? ==>
        r == Failed(MissingField) && userSessions[userId].State() == old(userSessions[userId].State())
      ensures userId in userSessions && SetActionAsWritten(data).Some? && IsCatalogName(SetActionAsWritten(data).value) ==>
        var s := userSessions[userId];
        r == Ignored && s.State() == old(s.State())
    {
      if userId !in userSessions {
        return Failed(NoSession);
      }
      var field := SetActionAsWritten(data);
      if field.None? {
        return Failed(MissingField);
      }
      AllCatalogNamesPlain();
      r := HandleSetAction(userId, field.value, queryId, sentId);
    }

    /** handle_done: on "Yes" with a record, hand back the messages to delete and the summary, and
        remove the record; on "No", reply and keep the record; otherwise do nothing. */
    method HandleDone(userId: int, data: string) returns (o: DoneReply)
      requires Valid()
      modifies this
      ensures Valid()
      ensures EndsWith(data, "Yes") && userId in old(userSessions) ==>
        var s := old(userSessions)[userId];
        && o == Finished(s.messagesToDelete, Summary(s.setsDone))
        && userSessions == old(userSessions) - {userId}
      ensures !(EndsWith(data, "Yes") && userId in old(userSessions)) ==> userSessions == old(userSessions)
      ensures !(EndsWith(data, "Yes") && userId in old(userSessions)) && EndsWith(data, "No") ==> o == Resumed
      ensures !(EndsWith(data, "Yes") && userId in old(userSessions)) && !EndsWith(data, "No") ==> o == Unanswered
    {
      if EndsWith(data, "Yes") && userId in userSessions {
        var s := userSessions[userId];
        o := Finished(s.messagesToDelete, Summary(s.setsDone));
        userSessions := userSessions - {userId};
      } else if EndsWith(data, "No") {
        o := Resumed;
      } else {
        o := Unanswered;
      }
    }

    /** After an action on one record, every record still satisfies the invariant: a day's list
        that grew keeps the other records of that day in range. */
    twostate lemma ActionKeepsValid(s: Session)
      requires old(Valid()) && s in old(userSessions).Values
      requires userSessions == old(userSessions)
      requires forall u :: u in userSessions && userSessions[u] != s ==> unchanged(userSessions[u])
      requires forall d :: d in templates && templates[d] != s.template ==> unchanged(templates[d])
      requires s.Valid()
      requires old(s.index) < old(|s.template.entries|)
      requires s.template.entries in {old(s.template.entries), old(s.template.entries + [s.template.entries[s.index]])}
      ensures Valid()
    {
      forall d | d in templates
        ensures GrownFrom(templates[d].original, templates[d].entries)
      {
        if templates[d] == s.template {
          GrownFromRequeue(s.template.original, old(s.template.entries), s.template.entries, old(s.index));
        }
      }
      forall u | u in userSessions
        ensures userSessions[u].Valid()
      {
        var other := userSessions[u];
        if other != s {
          assert other.index == old(other.index);
          assert |old(other.template.entries)| <= |other.template.entries|;
        }
      }
    }
  }
}
