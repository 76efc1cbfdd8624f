/** The session state machine of the bot, on values: what send_next_set and handle_set_action do to
    a session record, and what handle_done prints. The classes in module Bot run these steps in
    place; here each step is a function of the old record. */
module Engine {
  import opened Wrappers
  import opened Text
  import opened Catalog
  import opened Callback

  /** One entry of sets_done: the pair (e, a) that the summary prints as "e – a". */
  datatype SetRecord = SetRecord(first: string, second: string)

  /** The parts of a session record that the handlers read and write. */
  datatype SessionState = SessionState(
    template: seq<Exercise>,
    index: nat,
    setsDone: seq<SetRecord>,
    messagesToDelete: seq<int>)

  /** What send_next_set sends: the completion question, or the next set of an exercise. */
  datatype Prompt = Completion | SetPrompt(exercise: string, setNo: int, totalSets: int)

  /** The record after send_next_set, with the prompt it sent. */
  datatype Step = Step(state: SessionState, prompt: Prompt)

  /** The index points into the template, or just past its end. */
  predicate Inv(st: SessionState)
  {
    st.index <= |st.template|
  }

  /** The list comprehension in send_next_set: how many log entries have this exercise as first field. */
  function Count(log: seq<SetRecord>, name: string): (n: nat)
    ensures n <= |log|
  {
    if log == [] then 0
    else (if log[0].first == name then 1 else 0) + Count(log[1..], name)
  }

  /** The first fields of the log, in order. */
  function Firsts(log: seq<SetRecord>): (names: seq<string>)
    ensures |names| == |log|
  {
    seq(|log|, k requires 0 <= k < |log| => log[k].first)
  }

  /** Count is the multiplicity of the name among the first fields. */
  lemma {:induction false} CountIsMultiplicity(log: seq<SetRecord>, name: string)
    ensures Count(log, name) == multiset(Firsts(log))[name]
  {
    if log != [] {
      CountIsMultiplicity(log[1..], name);
      assert Firsts(log) == [log[0].first] + Firsts(log[1..]);
    }
  }

  /** Logging one more entry adds one to the count of its first field and to no other count. */
  lemma {:induction false} CountAppend(log: seq<SetRecord>, r: SetRecord, name: string)
    ensures Count(log + [r], name) == Count(log, name) + (if r.first == name then 1 else 0)
  {
    if log != [] {
      assert (log + [r])[1..] == log[1..] + [r];
      CountAppend(log[1..], r, name);
    }
  }

  /** A Skip entry has "Skipped" as first field, so it counts toward no exercise of another name. */
  lemma SkipNeverCounts(log: seq<SetRecord>, exercise: string, name: string)
    requires name != "Skipped"
    ensures Count(log + [SetRecord("Skipped", exercise)], name) == Count(log, name)
  {
    CountAppend(log, SetRecord("Skipped", exercise), name);
  }

  /** The exercise at position k has all its sets logged. */
  predicate Satisfied(t: seq<Exercise>, k: int, log: seq<SetRecord>)
  {
    0 <= k < |t| && Count(log, t[k].name) >= t[k].targetSets
  }

  /** The recursion of send_next_set: from position i, move past every exercise whose sets are all
      logged; stop at the first one that still has a set to do, or at the end. */
  function FirstOpen(t: seq<Exercise>, i: nat, log: seq<SetRecord>): (j: nat)
    ensures i <= j
    ensures j <= |t| || j == i
    ensures j < |t| ==> !Satisfied(t, j, log)
    ensures forall k :: i <= k < j ==> Satisfied(t, k, log)
    decreases |t| - i
  {
    if i >= |t| then i
    else if Count(log, t[i].name) >= t[i].targetSets then FirstOpen(t, i + 1, log)
    else i
  }

  /** The prompt send_next_set sends at position j. */
  function PromptAt(t: seq<Exercise>, j: nat, log: seq<SetRecord>): Prompt
  {
    if j >= |t| then Completion
    else SetPrompt(t[j].name, Count(log, t[j].name) + 1, t[j].targetSets)
  }

  /** send_next_set: move past the finished exercises, send a prompt, and remember the id of the
      message that carries it. */
  function Next(st: SessionState, sentId: int): (s: Step)
    ensures s.state.template == st.template && s.state.setsDone == st.setsDone
    ensures s.state.messagesToDelete == st.messagesToDelete + [sentId]
    ensures st.index <= s.state.index
    ensures Inv(st) ==> Inv(s.state)
    ensures forall k :: st.index <= k < s.state.index ==> Satisfied(st.template, k, st.setsDone)
    ensures s.prompt.Completion? <==> s.state.index >= |st.template|
    ensures s.prompt.SetPrompt? ==>
      var e := st.template[s.state.index];
      && s.prompt == SetPrompt(e.name, Count(st.setsDone, e.name) + 1, e.targetSets)
      && 1 <= s.prompt.setNo <= s.prompt.totalSets
  {
    var j := FirstOpen(st.template, st.index, st.setsDone);
    Step(st.(index := j, messagesToDelete := st.messagesToDelete + [sentId]),
         PromptAt(st.template, j, st.setsDone))
  }

  /** The text of the message send_next_set sends. */
  function PromptText(p: Prompt): string
  {
    match p
    case Completion => "Workout complete. Mark it as finished?"
    case SetPrompt(e, n, total) => e + " – Set " + IntToString(n) + "/" + IntToString(total)
  }

  /** When the exercise name holds no '/', the text after the one '/' of a set prompt reads back
      as its number of sets. */
  lemma PromptTextTotal(e: string, n: int, total: int)
    requires '/' !in e && total >= 0
    ensures
      var parts := Split(PromptText(SetPrompt(e, n, total)), '/');
      && parts == [e + " – Set " + IntToString(n), IntToString(total)]
      && IsNumeral(parts[1]) && DigitsValue(parts[1]) == total
  {
    var head := e + " – Set " + IntToString(n);
    assert PromptText(SetPrompt(e, n, total)) == head + ['/'] + IntToString(total);
    IntToStringLacks(n, '/');
    IntToStringLacks(total, '/');
    assert '/' !in " – Set ";
    assert '/' !in head;
    SplitAround(head, IntToString(total), '/');
    SplitWithout(head, '/');
    SplitWithout(IntToString(total), '/');
  }

  /** Sending the next set again at once sends the same prompt from the same position. */
  lemma NextIsStable(st: SessionState, sentId: int, againId: int)
    ensures Next(Next(st, sentId).state, againId).state.index == Next(st, sentId).state.index
    ensures Next(Next(st, sentId).state, againId).prompt == Next(st, sentId).prompt
  {
  }

  /** handle_day's new record, followed by send_next_set. */
  function Start(t: seq<Exercise>, triggerId: int, sentId: int): (s: Step)
    ensures Inv(s.state) && s.state.template == t && s.state.setsDone == []
    ensures s.state.messagesToDelete == [triggerId, sentId]
  {
    Next(SessionState(t, 0, [], [triggerId]), sentId)
  }

  /** A fresh session prompts for set 1 of the template's first exercise, or asks to finish at once
      when the template is empty. */
  lemma StartPrompt(t: seq<Exercise>, triggerId: int, sentId: int)
    requires |t| > 0 ==> t[0].targetSets >= 1
    ensures |t| == 0 ==> Start(t, triggerId, sentId).prompt == Completion
    ensures |t| > 0 ==> Start(t, triggerId, sentId).state.index == 0
    ensures |t| > 0 ==> Start(t, triggerId, sentId).prompt == SetPrompt(t[0].name, 1, t[0].targetSets)
  {
  }

  /** Every day of the table starts with set 1 of its first exercise. */
  lemma StartPromptForEveryDay(d: string, triggerId: int, sentId: int)
    requires d in Templates()
    ensures Start(Templates()[d], triggerId, sentId).prompt
         == SetPrompt(Templates()[d][0].name, 1, Templates()[d][0].targetSets)
  {
    assert d in {"day1", "day2", "day3", "day4", "day5"};
    StartPrompt(Templates()[d], triggerId, sentId);
  }

  /** One button of handle_set_action applied to the record, before send_next_set runs. Every
      branch first reads template[index], which fails when the index is past the end. */
  function Apply(st: SessionState, a: Action, queryId: int): (r: Result<SessionState>)
    ensures r.Err? <==> st.index >= |st.template|
    ensures r.Err? ==> r.failure == NoCurrentExercise
    ensures r.Ok? && a in {PlusRep, PlusLoad, Done} ==>
      && r.value.template == st.template && r.value.index == st.index
      && r.value.setsDone == st.setsDone + [SetRecord(st.template[st.index].name, Label(a))]
      && r.value.messagesToDelete == st.messagesToDelete + [queryId]
    ensures r.Ok? && a == Skip ==>
      && r.value.template == st.template && r.value.index == st.index + 1
      && r.value.setsDone == st.setsDone + [SetRecord("Skipped", st.template[st.index].name)]
      && r.value.messagesToDelete == st.messagesToDelete
    ensures r.Ok? && a == ComeBack ==>
      && |r.value.template| == |st.template| + 1
      && r.value.template[..|st.template|] == st.template
      && r.value.template[|st.template|] == st.template[st.index]
      && r.value.index == st.index + 1
      && r.value.setsDone == st.setsDone && r.value.messagesToDelete == st.messagesToDelete
  {
    if st.index >= |st.template| then Err(NoCurrentExercise)
    else
      var e := st.template[st.index];
      match a
      case Skip =>
        Ok(st.(setsDone := st.setsDone + [SetRecord("Skipped", e.name)], index := st.index + 1))
      case ComeBack =>
        Ok(st.(template := st.template + [e], index := st.index + 1))
      case _ =>
        Ok(st.(setsDone := st.setsDone + [SetRecord(e.name, Label(a))],
               messagesToDelete := st.messagesToDelete + [queryId]))
  }

  /** handle_set_action for a recognised button: apply it, then send the next set. The index stays
      in range, and the template, the log and the message list only grow at their ends. */
  function Act(st: SessionState, a: Action, queryId: int, sentId: int): (r: Result<Step>)
    ensures r.Err? <==> st.index >= |st.template|
    ensures r.Ok? ==> Inv(r.value.state)
    ensures r.Ok? ==> st.index <= r.value.state.index
    ensures r.Ok? ==> st.template <= r.value.state.template
    ensures r.Ok? ==> st.setsDone <= r.value.state.setsDone
    ensures r.Ok? ==> st.messagesToDelete <= r.value.state.messagesToDelete
    ensures r.Ok? ==> r.value.state.template in {st.template, st.template + [st.template[st.index]]}
  {
    match Apply(st, a, queryId)
    case Err(f) => Err(f)
    case Ok(s) => Ok(Next(s, sentId))
  }

  /** A day's list as the bot may have grown it: the table's entries first, and every entry one of
      the table's, since Come Back only appends an entry that is already in the list. */
  predicate GrownFrom(orig: seq<Exercise>, cur: seq<Exercise>)
  {
    orig <= cur && forall k :: 0 <= k < |cur| ==> cur[k] in orig
  }

  lemma GrownFromSelf(orig: seq<Exercise>)
    ensures GrownFrom(orig, orig)
  {
  }

  /** Re-queueing an entry of a grown list, or leaving it alone, keeps it grown from the table. */
  lemma GrownFromRequeue(orig: seq<Exercise>, cur: seq<Exercise>, next: seq<Exercise>, i: nat)
    requires GrownFrom(orig, cur) && i < |cur|
    requires next in {cur, cur + [cur[i]]}
    ensures GrownFrom(orig, next)
  {
    if next != cur {
      forall k | 0 <= k < |next|
        ensures next[k] in orig
      {
        if k < |cur| {
          assert next[k] == cur[k];
        } else {
          assert next[k] == cur[i];
        }
      }
    }
  }

  /** A set button below the target re-prompts the same exercise for its next set; the button that
      logs the last set moves past it, with no further press. */
  lemma LogActionOutcome(st: SessionState, a: Action, queryId: int, sentId: int)
    requires st.index < |st.template| && a in {PlusRep, PlusLoad, Done}
    requires Count(st.setsDone, st.template[st.index].name) < st.template[st.index].targetSets
    ensures Act(st, a, queryId, sentId).Ok?
    ensures
      var e := st.template[st.index];
      var c := Count(st.setsDone, e.name);
      var s := Act(st, a, queryId, sentId).value;
      if c + 1 < e.targetSets then
        s.state.index == st.index && s.prompt == SetPrompt(e.name, c + 2, e.targetSets)
      else
        s.state.index > st.index
  {
    var e := st.template[st.index];
    CountAppend(st.setsDone, SetRecord(e.name, Label(a)), e.name);
  }

  /** Skip logs ("Skipped", exercise), moves past the exercise whatever its count, and leaves the
      template alone. */
  lemma SkipOutcome(st: SessionState, queryId: int, sentId: int)
    requires st.index < |st.template|
    ensures Act(st, Skip, queryId, sentId).Ok?
    ensures
      var s := Act(st, Skip, queryId, sentId).value;
      && s.state.template == st.template
      && s.state.index >= st.index + 1
      && s.state.setsDone == st.setsDone + [SetRecord("Skipped", st.template[st.index].name)]
      && s.state.messagesToDelete == st.messagesToDelete + [sentId]
  {
  }

  /** Come Back re-queues the exercise with its count kept: when every exercise after it is already
      done, the copy at the end prompts for set k+1, where k sets were logged before. */
  lemma ComeBackResumes(st: SessionState, queryId: int, sentId: int)
    requires st.index < |st.template|
    requires Count(st.setsDone, st.template[st.index].name) < st.template[st.index].targetSets
    requires forall k :: st.index < k < |st.template| ==> Satisfied(st.template, k, st.setsDone)
    ensures Act(st, ComeBack, queryId, sentId).Ok?
    ensures
      var e := st.template[st.index];
      var s := Act(st, ComeBack, queryId, sentId).value;
      && s.state.index == |st.template|
      && s.state.template == st.template + [e]
      && s.prompt == SetPrompt(e.name, Count(st.setsDone, e.name) + 1, e.targetSets)
  {
    var e := st.template[st.index];
    var t' := st.template + [e];
    var j := FirstOpen(t', st.index + 1, st.setsDone);
    assert !Satisfied(t', |st.template|, st.setsDone);
    forall k | st.index < k < |st.template|
      ensures Satisfied(t', k, st.setsDone)
    {
      assert Satisfied(st.template, k, st.setsDone);
      assert t'[k] == st.template[k];
    }
  }

  /** One line of the summary. */
  function Line(r: SetRecord): string
  {
    r.first + " – " + r.second
  }

  function Lines(log: seq<SetRecord>): (lines: seq<string>)
    ensures |lines| == |log|
  {
    seq(|log|, k requires 0 <= k < |log| => Line(log[k]))
  }

  /** The message handle_done sends on "Yes". */
  function Summary(log: seq<SetRecord>): string
  {
    "Workout Summary:\n" + Join(Lines(log), '\n')
  }

  /** A summary line holds a line break only where its fields do. */
  lemma LineLacksBreak(r: SetRecord)
    requires '\n' !in r.first && '\n' !in r.second
    ensures '\n' !in Line(r)
  {
    assert Line(r) == r.first + " – " + r.second;
    assert '\n' !in " – ";
  }

  /** The summary is the heading line and then one line per log entry, in log order (a single empty
      line for an empty log), provided no field holds a line break. */
  lemma SummaryLines(log: seq<SetRecord>)
    requires forall k :: 0 <= k < |log| ==> '\n' !in log[k].first && '\n' !in log[k].second
    ensures Split(Summary(log), '\n') == ["Workout Summary:"] + (if log == [] then [""] else Lines(log))
  {
    var heading := "Workout Summary:";
    var body := Join(Lines(log), '\n');
    assert Summary(log) == heading + ['\n'] + body;
    SplitAround(heading, body, '\n');
    SplitWithout(heading, '\n');
    if log != [] {
      forall k | 0 <= k < |log|
        ensures '\n' !in Lines(log)[k]
      {
        LineLacksBreak(log[k]);
      }
      SplitJoin(Lines(log), '\n');
    }
  }
}
