/** Whole sessions run through the state machine: the worked examples of the bot's behaviour,
    including its two less obvious ones: a day's list is shared by the sessions of that day, not
    copied, and a re-queued exercise keeps the sets logged for it before. */
module Scenarios {
  import Text
  import opened Catalog
  import opened Callback
  import opened Engine
  import Bot

  /** Two one-set exercises: Done on the first, Skip on the second, and the session asks to
      finish. */
  lemma DoneThenSkip()
    ensures
      var t := [Exercise("A", 1), Exercise("B", 1)];
      var s0 := Start(t, 1, 2);
      var s1 := Act(s0.state, Done, 3, 4);
      && s0.prompt == SetPrompt("A", 1, 1)
      && s1.Ok? && s1.value.prompt == SetPrompt("B", 1, 1)
      && var s2 := Act(s1.value.state, Skip, 5, 6);
      && s2.Ok? && s2.value.prompt == Completion
      && s2.value.state.setsDone == [SetRecord("A", "Done"), SetRecord("Skipped", "B")]
      && s2.value.state.messagesToDelete == [1, 2, 3, 4, 6]
  {
  }

  /** The summary of that session, line by line: the Skip entry prints with "Skipped" first. */
  lemma DoneThenSkipSummary()
    ensures Text.Split(Summary([SetRecord("A", "Done"), SetRecord("Skipped", "B")]), '\n')
         == ["Workout Summary:", "A – Done", "Skipped – B"]
  {
    var log := [SetRecord("A", "Done"), SetRecord("Skipped", "B")];
    var lines := Lines(log);
    assert |lines| == 2;
    assert lines[0] == "A – Done";
    assert lines[1] == "Skipped – B";
    assert lines == ["A – Done", "Skipped – B"];
    SummaryLines(log);
  }

  /** Two sets of one exercise: Done and +1 Rep both count, so the session asks to finish. */
  lemma TwoSetsOfOne()
    ensures
      var s0 := Start([Exercise("A", 2)], 1, 2);
      var s1 := Act(s0.state, Done, 3, 4);
      && s1.Ok? && s1.value.prompt == SetPrompt("A", 2, 2)
      && var s2 := Act(s1.value.state, PlusRep, 5, 6);
      && s2.Ok? && s2.value.prompt == Completion
  {
  }

  /** Come Back on the only exercise re-queues it and prompts for it again. */
  lemma ComeBackOnOnly()
    ensures
      var s1 := Act(Start([Exercise("A", 1)], 1, 2).state, ComeBack, 3, 4);
      && s1.Ok?
      && s1.value.state.template == [Exercise("A", 1), Exercise("A", 1)]
      && s1.value.state.index == 1
      && s1.value.prompt == SetPrompt("A", 1, 1)
  {
  }

  /** A set logged before Come Back still counts: the re-queued copy resumes at set 2, not set 1. */
  lemma ComeBackKeepsCount()
    ensures
      var s1 := Act(Start([Exercise("A", 2)], 1, 2).state, Done, 3, 4);
      && s1.Ok?
      && var s2 := Act(s1.value.state, ComeBack, 5, 6);
      && s2.Ok? && s2.value.state.index == 1
      && s2.value.prompt == SetPrompt("A", 2, 2)
  {
  }

  /** Come Back on one user's record lengthens the day's list itself, so a second user who then
      picks the same day starts on the lengthened list. */
  method SharedRequeue(bot: Bot.Bot, first: int, second: int, queryId: int, sentId: int, triggerId: int, nextId: int)
    requires bot.Valid() && first != second && first in bot.userSessions
    requires bot.userSessions[first].index < |bot.userSessions[first].template.entries|
    requires ':' !in bot.userSessions[first].day
    modifies bot, bot.SessionFrame(first)
    ensures bot.Valid()
    ensures first in bot.userSessions && second in bot.userSessions
    ensures bot.userSessions[first] == old(bot.userSessions[first])
    ensures bot.userSessions[second].template == bot.userSessions[first].template
    ensures bot.userSessions[second].template.entries ==
      old(bot.userSessions[first].template.entries) + [old(bot.userSessions[first].template.entries[bot.userSessions[first].index])]
  {
    var s := bot.userSessions[first];
    ghost var entries := s.template.entries;
    ghost var e := entries[s.index];
    var r1 := bot.HandleSetAction(first, Label(ComeBack), queryId, sentId);
    assert s.template.entries == entries + [e];
    DayCodeRoundTrip(s.day);
    var r2 := bot.HandleDay(second, DayButtonData(s.day), triggerId, nextId);
  }
}
