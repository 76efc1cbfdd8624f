# Telegram gym bot: the workout-session state machine

This project models the session logic of a Telegram bot that walks a user through a gym workout
(`main.py`). The user starts with `/start_workout` and picks one of five days. The bot then sends
one exercise prompt at a time, "<exercise> – Set k/n". Each prompt has five buttons, meant to
work as follows:

- "+1 Rep", "+2.5kg" and "Done" log a set.
- "Skip" logs the exercise as skipped and moves on.
- "Come Back" puts the exercise at the end of the day's list.

Once every exercise has its sets, the bot asks whether the workout is finished. On "Yes" it deletes
its messages and sends a summary of the log.

These are the buttons' intended effects, and `Bot.Bot.HandleSetAction` models them, taking the
pressed caption as its input. As written, `handle_set_action` reads the exercise name where it
should read the caption (main.py:134). So a press under a prompt for any exercise of the table
matches no branch and is ignored (`Bot.Bot.HandleSetCallback`; see "## Findings").

The project has these modules:

- `Wrappers`: `Option`, `Result` and the `Failure` kinds. A failure stands for the
  `KeyError` or `IndexError` a handler raises, and it leaves the state unchanged.
- `Text`: Python's `str.split`, `str.join` and `str.endswith` with a one-character separator, and
  the decimal rendering of an int in an f-string. It proves round-trip lemmas between split and
  join.
- `Catalog`: the `TEMPLATES` table, exactly as written, and the label-to-day-code map of
  `/start_workout`.
- `Callback`: the callback data that `build_buttons` and the day keyboard write, and how the
  handlers decode it with `split(":")` and `endswith`.
- `Engine`: the state machine on values:
  - the set count of the list comprehension;
  - the advance of `send_next_set`, as the recursive function `FirstOpen`;
  - the effect of each button;
  - the summary text.
- `Bot`: the handlers as the program runs them, on objects updated in place.
  - Class `Template`: one day's exercise list. It is one shared object, because `handle_day` stores
    `TEMPLATES[day_code]` itself rather than a copy.
  - Class `Session`: a record of `user_sessions`. `send_next_set` is a `while` loop, proved equal
    to `Engine.Next`.
  - Class `Bot`: holds `TEMPLATES` and `user_sessions`, with the invariant `Valid()`. Under
    `Valid()`:
    - each day has a list object of its own;
    - every day's list is its table entries followed by re-queued copies of them;
    - no two users share a record;
    - each record works on its day's object and keeps `0 <= index <= len(template)`.
- `Scenarios`: worked sessions, and a two-user run that shows the shared list.

The `Bot` constructor takes the day table as a parameter. The program starts from
`Catalog.Templates()`; passing the table keeps the solver from unfolding the literal lists inside
every handler proof.

### Behaviour worth knowing

- A session does not copy its day's list. `handle_day` stores `TEMPLATES[day_code]` itself
  (main.py:100). So "Come Back" (main.py:148) also lengthens `TEMPLATES[day]`, and every later
  session of that day starts on the longer list (`Scenarios.SharedRequeue`). The five days' lists
  are distinct objects, so a Come Back on one day leaves the other days' lists alone
  (`Bot.Bot.HandleSetAction`, `Bot.Bot.DayListsDistinct`).
- A re-queued exercise keeps its count. main.py:117 counts the entries with the exercise's name
  over the whole log, so the copy resumes at Set k+1 after k logged sets, not at Set 1
  (`Engine.ComeBackResumes`, `Scenarios.ComeBackKeepsCount`).
- Only the three logging buttons add the pressed message's id to `messages_to_delete`
  (main.py:139). "Skip" and "Come Back" do not.

## Model

| member | source | states |
|---|---|---|
| Text.Split | main.py:96 | Python's `split` returns at least one piece, and no piece contains the separator |
| Text.Join | main.py:165 | plain definition of Python's `sep.join`; its properties are `Text.JoinSplit` and `Text.SplitJoin` |
| Text.JoinSplit | main.py:165 | joining the pieces of a split with the same separator gives back the string |
| Text.SplitAround | main.py:76 | a string with a separator between two parts splits into the pieces of each part, concatenated |
| Text.SplitWithout | main.py:96 | a string without the separator splits into exactly itself |
| Text.SplitJoin | main.py:165 | splitting a join gives back the pieces when no piece holds the separator (inverse of `Join`) |
| Text.NatToString | main.py:125 | the decimal rendering of a natural number is a non-empty string of digits, with no leading zero except for 0 itself, which is "0" |
| Text.NatToStringValue | main.py:125 | the rendered digits denote the number again |
| Text.IntToString | main.py:125 | `f"{i}"` denotes i: digits that read back as i, with a leading '-' for a negative i, and no leading zero except "0" for 0 |
| Text.IntToStringLacks | main.py:125 | a rendered int holds only digits and '-' |
| Text.EndsWith | main.py:159-168 | plain definition of Python's `str.endswith`; `Callback.DoneButtonsDistinct` states what it tells apart |
| Text.EndsWithAppend | main.py:159-168 | `endswith(t)` holds exactly when the string is something followed by t; a string ends with what was appended last |
| Catalog.Day1 | main.py:15-23 | plain definition: the day 1 list as written; `Callback.Day1Plain` states its names are plain |
| Catalog.Day2 | main.py:24-36 | plain definition: the day 2 list as written; `Callback.Day2Plain` states its names are plain |
| Catalog.Day3 | main.py:37-46 | plain definition: the day 3 list as written; `Callback.Day3Plain` states its names are plain |
| Catalog.Day4 | main.py:47-58 | plain definition: the day 4 list as written; `Callback.Day4Plain` states its names are plain |
| Catalog.Day5 | main.py:59-67 | plain definition: the day 5 list as written; `Callback.Day5Plain` states its names are plain |
| Catalog.Templates | main.py:14-68 | `TEMPLATES` has exactly the day codes day1 to day5 |
| Catalog.DayLabels | main.py:82-88 | plain definition of the label-to-code map; `Catalog.DayLabelsCoverTemplates` states it covers `TEMPLATES` one to one |
| Catalog.DayLabelsCoverTemplates | main.py:82-89 | the day keyboard's codes are exactly the keys of `TEMPLATES`, and no two labels carry the same code |
| Callback.Label | main.py:124-147 | plain definition of the five captions; `Callback.ParseAction` states that it reads them back, as an if-and-only-if |
| Callback.SetActions | main.py:124 | plain definition of the button order under a prompt; `Callback.PromptButtonsDecode` states what those buttons carry |
| Callback.ParseAction | main.py:136-147 | a string names an action exactly when it equals that action's button text (both directions) |
| Callback.Buttons | main.py:74-78 | `build_buttons` makes one callback string per option |
| Callback.ButtonData | main.py:76 | plain definition of `f"{prefix}:{text}"`; `Callback.ButtonDataFields` states how it splits back |
| Callback.ButtonDataFields | main.py:76 | `"prefix:text"` with a colon-free text splits into the prefix's fields followed by the text |
| Callback.ButtonsFields | main.py:74-78 | every button of a keyboard splits into the prefix's fields followed by its own option |
| Callback.Captions | main.py:124 | the captions of a row of action buttons, one per action |
| Callback.Field | main.py:96 | `split(":")[k]` is None where Python raises `IndexError`, and otherwise holds no ':' |
| Callback.DayButtonData | main.py:89 | plain definition of `f"day:{v}"`; `Callback.DayCodeRoundTrip` states that `handle_day` reads the code back |
| Callback.DayCodeOf | main.py:96 | plain definition: field 1 of the data; `Callback.DayCodeRoundTrip` states it recovers the code of a day button |
| Callback.DayCodeRoundTrip | main.py:89-96 | field 1 of a day button's data `"day:<code>"` is the code it was built with |
| Callback.DayButtonsReachTemplates | main.py:82-100 | every button of the day keyboard makes `handle_day` read a code that `TEMPLATES` has |
| Callback.SetPrefix | main.py:124 | plain definition of the prefix `f"set:{exercise}"`; `Callback.SetButtonFields` states how the data splits |
| Callback.SetButtonData | main.py:76-124 | plain definition of a set button's data; `Callback.SetButtonFields` states its three fields |
| Callback.SetButtonFields | main.py:124 | a set button's data `"set:<exercise>:<caption>"` splits into exactly three fields |
| Callback.SetActionAsWritten | main.py:134 | plain definition: field 1 of the data, as written; `Callback.AsWrittenDecodesExercise` states it is the exercise name |
| Callback.AsWrittenDecodesExercise | main.py:134 | as written, the decoded action of a set button is its exercise name, not the caption |
| Callback.SetActionLabel | main.py:124-134 | the intended decode (the last field) holds no ':' |
| Callback.SetActionLabelRoundTrip | main.py:124-134 | the intended decode gives back the pressed caption, whatever the exercise name holds |
| Callback.PromptButtonsDecode | main.py:124-147 | the five buttons under a prompt, in order, each decode with the intended decoding to their own action |
| Callback.DoneButtonData | main.py:111 | plain definition of the completion buttons' data `"done:<reply>"`; `Callback.DoneButtonsDistinct` states that `handle_done` tells them apart |
| Callback.DoneButtonsDistinct | main.py:111-168 | `endswith("Yes")` and `endswith("No")` tell the two completion buttons apart |
| Callback.Day1Plain | main.py:15-23 | no name of day 1 holds ':', is "Skipped", or is an action caption |
| Callback.Day2Plain | main.py:24-36 | no name of day 2 holds ':', is "Skipped", or is an action caption |
| Callback.Day3Plain | main.py:37-46 | no name of day 3 holds ':', is "Skipped", or is an action caption |
| Callback.Day4Plain | main.py:47-58 | no name of day 4 holds ':', is "Skipped", or is an action caption |
| Callback.Day5Plain | main.py:59-67 | no name of day 5 holds ':', is "Skipped", or is an action caption |
| Callback.CatalogNames | main.py:14-68 | every exercise name of the table has no ':', is not "Skipped", and names no action |
| Callback.AllCatalogNamesPlain | main.py:14-68 | `Callback.CatalogNames` for every name at once: every table name is plain |
| Callback.AsWrittenMatchesNoAction | main.py:134-150 | as written, a set button for a table exercise decodes to a string that none of the three branches accepts |
| Engine.Count | main.py:117 | the set count is at most the log's length |
| Engine.CountIsMultiplicity | main.py:117 | the set count is the multiplicity of the name among the log's first fields, whatever the action |
| Engine.CountAppend | main.py:117-138 | appending an entry raises the count of its first field by one and leaves every other count alone |
| Engine.SkipNeverCounts | main.py:117-143 | a ("Skipped", exercise) entry counts toward no exercise other than one named "Skipped" |
| Engine.Satisfied | main.py:119 | plain definition of the test that an exercise's sets are all logged; `Engine.FirstOpen` and `Engine.Next` state what the advance does with it |
| Engine.FirstOpen | main.py:110-122 | the advance stops at the first position at or after the start whose sets are not all logged, or at the end; every position it passes is complete |
| Engine.PromptAt | main.py:110-125 | plain definition of the prompt chosen at a position; `Engine.Next` states it is the completion question exactly at the end, and otherwise Set k/n with 1 <= k <= n |
| Engine.Next | main.py:108-126 | `send_next_set` keeps template and log and appends the sent id. The index only grows and stays in range, and every passed position is complete. The completion prompt comes exactly when the index reaches the end. Otherwise the prompt is "name – Set count+1/target" with 1 <= k <= n |
| Engine.PromptText | main.py:112-125 | plain definition of the two message texts; `Engine.PromptTextTotal` states the set prompt reads back its total |
| Engine.NextIsStable | main.py:108-126 | advancing again at once stays put and sends the same prompt |
| Engine.PromptTextTotal | main.py:125 | the text of a set prompt has one '/', and what follows it reads back as the number of sets |
| Engine.Start | main.py:96-105 | a new session has the day's template, an empty log, index in range, and the trigger and prompt ids to delete |
| Engine.StartPrompt | main.py:101-125 | a fresh session prompts for Set 1 of the first exercise, or for completion when the template is empty |
| Engine.StartPromptForEveryDay | main.py:14-125 | every day of the table starts with Set 1 of its first exercise |
| Engine.Apply | main.py:136-149 | each button's change to the record: a logging button appends (exercise, caption) and the query id; Skip appends ("Skipped", exercise) and moves on by one; Come Back appends a copy of the current entry and moves on by one; every button fails when the index is past the end |
| Engine.Act | main.py:129-150 | after a recognised button the index is in range and has not decreased, template, log and message list only grow at their ends, and the template gains at most a copy of its current entry |
| Engine.GrownFromRequeue | main.py:148 | re-queueing an entry of a list grown from the table keeps it grown from the table |
| Engine.LogActionOutcome | main.py:136-140 | a logging button below the target prompts the same exercise for the next set; the one that logs the last set moves past it |
| Engine.SkipOutcome | main.py:142-145 | Skip logs ("Skipped", exercise), moves past the exercise whatever its count, and keeps the template |
| Engine.ComeBackResumes | main.py:117-150 | when the rest of the list is complete, the re-queued copy at the end prompts for Set k+1, counting the k sets logged before |
| Engine.Line | main.py:165 | plain definition of one `f"{e} – {a}"` line; `Engine.LineLacksBreak` states it has no line break of its own |
| Engine.Lines | main.py:165 | one summary line per log entry |
| Engine.Summary | main.py:165-166 | plain definition of the summary message; `Engine.SummaryLines` states its lines |
| Engine.LineLacksBreak | main.py:165 | a summary line has a line break only where its fields do |
| Engine.SummaryLines | main.py:165-166 | the summary is the heading and then one "e – a" line per log entry, in log order |
| Bot.Template.constructor | main.py:14-68 | a day's list starts as the table's entries, tagged with its own day code |
| Bot.Session.constructor | main.py:98-104 | a new record has index 0, an empty log, and the triggering message id to delete |
| Bot.Session.SendNextSet | main.py:108-126 | the loop leaves the record and prompt that `Engine.Next` gives for the old record |
| Bot.Session.Perform | main.py:136-150 | the in-place update and prompt are what `Engine.Act` gives for the old record; a failure changes nothing |
| Bot.Bot.Valid | main.py:14-71 | the invariant: each day's list is its own object for that day, holding its table entries followed by re-queued copies; no two users share a record; each record works on its day's list with `0 <= index <= len(template)` |
| Bot.Bot.DayListsDistinct | main.py:14-68 | under the invariant, two different days have two different list objects |
| Bot.Bot.constructor | main.py:14-71 | one fresh list per day of the table and no sessions, satisfying the invariant |
| Bot.Bot.HandleDay | main.py:93-105 | a missing field or an unknown code fails with nothing stored. Otherwise the user's record is created or replaced, shares the day's list object, and starts as `Engine.Start` says. The invariant is kept |
| Bot.Bot.HandleSetAction | main.py:129-150 | no record fails, an unknown caption changes nothing, and otherwise the record becomes what `Engine.Act` gives. Come Back grows `TEMPLATES[day]` by the current entry. Every other day's list and every other user's index, log and message list stay as they were. The invariant is kept |
| Bot.Bot.HandleSetCallback | main.py:129-136 | as written: no record fails; data without field 1 fails before the record changes (the `IndexError` of main.py:134); and a set button for a table exercise changes nothing |
| Bot.Bot.HandleDone | main.py:153-169 | "Yes" with a record hands back its message ids and summary and removes it; otherwise the map is unchanged, with the "continue" reply on "No" |
| Bot.Bot.ActionKeepsValid | main.py:147-150 | growing one day's list by its current entry keeps every record of that day in range and the invariant true |
| Scenarios.DoneThenSkip | main.py:136-145 | Done then Skip on two one-set exercises: the prompts, the log and the ids to delete |
| Scenarios.DoneThenSkipSummary | main.py:165-166 | that session's summary lines, with "Skipped" first on the skipped line |
| Scenarios.TwoSetsOfOne | main.py:117-140 | Done and +1 Rep both count toward one exercise's two sets |
| Scenarios.ComeBackOnOnly | main.py:147-150 | Come Back on the only exercise re-queues it and prompts it again |
| Scenarios.ComeBackKeepsCount | main.py:117-150 | after one logged set and Come Back, the copy prompts Set 2/2, not Set 1 |
| Scenarios.SharedRequeue | main.py:98-100 | after one user's Come Back, a second user who picks the same day gets the same list object, already one entry longer |

## Left out

- Telegram I/O is not modelled: `query.answer`, `send_message`, `delete_message`,
  `edit_message_text`, `reply_text` and the keyboard objects. The ids of incoming and sent messages
  are parameters of the handlers.
- The deletion loop of `handle_done` is not modelled, with its bare `except: pass`. `HandleDone`
  hands back the ids to delete and the summary to send; deleting changes no state.
- `async`/`await` and the event dispatch are not modelled. Each handler is one atomic step.
- `main()`, handler registration and polling, and the unused imports are not modelled.
- `start_workout`'s keyboard rendering is left out. Only its label-to-code map is kept
  (`Catalog.DayLabels`).
- Python's negative indexing is not modelled. No index in these handlers can be negative.
- `chat_id` is not modelled, since it only addresses sends.
- The Telegram API calls can raise; those errors are not modelled. The modelled failures are the
  `KeyError` for a missing record or unknown day code, and the `IndexError` for a missing field or
  an index past the end.
- Bot.Bot.HandleSetCallback: its contract covers the data of set buttons whose field 1 is a table
  exercise name, or missing. For any other string it is stated through `HandleSetAction` only in
  its body, not in its contract.

## Findings

| source | as written | input that shows it | evidently intended | confidence | as-written member | corrected member |
|---|---|---|---|---|---|---|
| main.py:134 | `query.data.split(":")[1]` takes field 1 of `"set:<exercise>:<caption>"`, which is the exercise name | pressing "Done" under the "Pec Deck" prompt sends `"set:Pec Deck:Done"`; the action read is "Pec Deck", which matches none of the branches at main.py:136, 142 or 147, so nothing is logged | take the caption, the last field, and dispatch on it | not executed | Callback.AsWrittenMatchesNoAction | Callback.SetActionLabelRoundTrip |
