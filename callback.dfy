/** Callback data of the inline buttons: how build_buttons and the day keyboard write it, and how
    the handlers read it back with split(":") and endswith. */
module Callback {
  import opened Wrappers
  import opened Text
  import opened Catalog

  /** The five buttons under an exercise prompt. */
  datatype Action = PlusRep | PlusLoad | Done | Skip | ComeBack

  /** The text of an action's button. */
  function Label(a: Action): string
  {
    match a
    case PlusRep => "+1 Rep"
    case PlusLoad => "+2.5kg"
    case Done => "Done"
    case Skip => "Skip"
    case ComeBack => "Come Back"
  }

  /** The button order of an exercise prompt. */
  function SetActions(): seq<Action>
  {
    [PlusRep, PlusLoad, Done, Skip, ComeBack]
  }

  /** The label comparisons of handle_set_action: which action, if any, a string names. */
  function ParseAction(s: string): (r: Option<Action>)
    ensures forall a :: r == Some(a) <==> s == Label(a)
  {
    if s == "+1 Rep" then Some(PlusRep)
    else if s == "+2.5kg" then Some(PlusLoad)
    else if s == "Done" then Some(Done)
    else if s == "Skip" then Some(Skip)
    else if s == "Come Back" then Some(ComeBack)
    else None
  }

  /** build_buttons: the callback data of a button is "<prefix>:<text>". */
  function ButtonData(prefix: string, text: string): string
  {
    prefix + ":" + text
  }

  /** The callback data of every button build_buttons makes for these options. */
  function Buttons(options: seq<string>, prefix: string): (data: seq<string>)
    ensures |data| == |options|
  {
    seq(|options|, k requires 0 <= k < |options| => ButtonData(prefix, options[k]))
  }

  /** A colon-free button text is always the last field of the button's data, after the fields of
      the prefix. */
  lemma ButtonDataFields(prefix: string, text: string)
    requires ':' !in text
    ensures Split(ButtonData(prefix, text), ':') == Split(prefix, ':') + [text]
  {
    assert ButtonData(prefix, text) == prefix + [':'] + text;
    SplitAround(prefix, text, ':');
    SplitWithout(text, ':');
  }

  /** The same for every button of a keyboard. */
  lemma ButtonsFields(options: seq<string>, prefix: string)
    requires forall k :: 0 <= k < |options| ==> ':' !in options[k]
    ensures forall k :: 0 <= k < |options| ==>
      Split(Buttons(options, prefix)[k], ':') == Split(prefix, ':') + [options[k]]
  {
    forall k | 0 <= k < |options|
      ensures Split(Buttons(options, prefix)[k], ':') == Split(prefix, ':') + [options[k]]
    {
      ButtonDataFields(prefix, options[k]);
    }
  }

  /** split(":")[k], or None where Python raises IndexError. */
  function Field(data: string, k: nat): (r: Option<string>)
    ensures r.Some? ==> ':' !in r.value
  {
    var parts := Split(data, ':');
    if k < |parts| then Some(parts[k]) else None
  }

  /** The data of a day button: "day:<code>". */
  function DayButtonData(code: string): string
  {
    "day:" + code
  }

  /** handle_day: the day code is field 1 of the data. */
  function DayCodeOf(data: string): Option<string>
  {
    Field(data, 1)
  }

  /** A day button's data decodes to its own day code. */
  lemma DayCodeRoundTrip(code: string)
    requires ':' !in code
    ensures DayCodeOf(DayButtonData(code)) == Some(code)
  {
    assert DayButtonData(code) == ButtonData("day", code);
    ButtonDataFields("day", code);
    SplitWithout("day", ':');
  }

  /** Every button of /start_workout makes handle_day read a day code that TEMPLATES has. */
  lemma DayButtonsReachTemplates(dayLabel: string)
    requires dayLabel in DayLabels()
    ensures DayCodeOf(DayButtonData(DayLabels()[dayLabel])) == Some(DayLabels()[dayLabel])
    ensures DayLabels()[dayLabel] in Templates()
  {
    DayLabelsCoverTemplates();
    var code := DayLabels()[dayLabel];
    assert code in {"day1", "day2", "day3", "day4", "day5"};
    DayCodeRoundTrip(code);
  }

  /** The prefix of the buttons under an exercise prompt: "set:<exercise>". */
  function SetPrefix(exercise: string): string
  {
    "set:" + exercise
  }

  /** The data of a set button: build_buttons with the prefix "set:<exercise>". */
  function SetButtonData(exercise: string, caption: string): string
  {
    ButtonData(SetPrefix(exercise), caption)
  }

  /** A set button's data splits into three fields: "set", the exercise and the caption. */
  lemma SetButtonFields(exercise: string, caption: string)
    requires ':' !in exercise && ':' !in caption
    ensures Split(SetButtonData(exercise, caption), ':') == ["set", exercise, caption]
  {
    ButtonDataFields(SetPrefix(exercise), caption);
    assert SetPrefix(exercise) == "set" + [':'] + exercise;
    SplitAround("set", exercise, ':');
    SplitWithout("set", ':');
    SplitWithout(exercise, ':');
  }

  /** handle_set_action as written: the action is field 1 of the data. */
  function SetActionAsWritten(data: string): Option<string>
  {
    Field(data, 1)
  }

  /** As written, a set button decodes to its exercise name, not to its caption. */
  lemma AsWrittenDecodesExercise(exercise: string, caption: string)
    requires ':' !in exercise && ':' !in caption
    ensures SetActionAsWritten(SetButtonData(exercise, caption)) == Some(exercise)
  {
    SetButtonFields(exercise, caption);
  }

  /** The intended decoding: the caption is the last field of a set button's data. */
  function SetActionLabel(data: string): (caption: string)
    ensures ':' !in caption
  {
    var parts := Split(data, ':');
    parts[|parts| - 1]
  }

  /** The intended decoding gives back the pressed button's caption, whatever the exercise name holds. */
  lemma SetActionLabelRoundTrip(exercise: string, caption: string)
    requires ':' !in caption
    ensures SetActionLabel(SetButtonData(exercise, caption)) == caption
  {
    ButtonDataFields(SetPrefix(exercise), caption);
  }

  /** The captions of a row of action buttons, in order. */
  function Captions(actions: seq<Action>): (captions: seq<string>)
    ensures |captions| == |actions|
  {
    seq(|actions|, k requires 0 <= k < |actions| => Label(actions[k]))
  }

  /** The five buttons under an exercise prompt, built with the prefix "set:<exercise>": with the
      intended decoding, each one names its own action, in the order shown. */
  lemma PromptButtonsDecode(exercise: string)
    ensures var data := Buttons(Captions(SetActions()), SetPrefix(exercise));
      && |data| == 5
      && forall k :: 0 <= k < 5 ==> ParseAction(SetActionLabel(data[k])) == Some(SetActions()[k])
  {
    var data := Buttons(Captions(SetActions()), SetPrefix(exercise));
    forall k | 0 <= k < 5
      ensures ParseAction(SetActionLabel(data[k])) == Some(SetActions()[k])
    {
      var a := SetActions()[k];
      assert data[k] == SetButtonData(exercise, Label(a));
      assert ':' !in Label(a) by {
        match a
        case PlusRep => assert Label(a) == "+1 Rep";
        case PlusLoad => assert Label(a) == "+2.5kg";
        case Done => assert Label(a) == "Done";
        case Skip => assert Label(a) == "Skip";
        case ComeBack => assert Label(a) == "Come Back";
      }
      SetActionLabelRoundTrip(exercise, Label(a));
    }
  }

  /** The data of a completion button: "done:<reply>". */
  function DoneButtonData(reply: string): string
  {
    ButtonData("done", reply)
  }

  /** handle_done tells the two completion buttons apart by their endings. */
  lemma DoneButtonsDistinct()
    ensures EndsWith(DoneButtonData("Yes"), "Yes") && !EndsWith(DoneButtonData("Yes"), "No")
    ensures EndsWith(DoneButtonData("No"), "No") && !EndsWith(DoneButtonData("No"), "Yes")
  {
    assert DoneButtonData("Yes") == "done:Yes";
    assert DoneButtonData("Yes")[6..] == "es";
    assert DoneButtonData("No") == "done:No";
    assert DoneButtonData("No")[4..] == ":No";
  }

  /** A name that no decoding step can confuse: no ':' in it, not "Skipped", and not the label of
      an action button. */
  predicate PlainName(name: string)
  {
    Lacks(name, ':') && name != "Skipped" && ParseAction(name) == None
  }

  predicate AllPlain(t: seq<Exercise>)
  {
    forall k :: 0 <= k < |t| ==> PlainName(t[k].name)
  }

  // Each exercise name of the table is plain, one name at a time.
  lemma PlainStandingCalfRaises() ensures PlainName("Standing Calf Raises") { }
  lemma PlainHipAdductors() ensures PlainName("Hip Adductors") { }
  lemma PlainPendulumSquat() ensures PlainName("Pendulum Squat") { }
  lemma PlainLegExtensions() ensures PlainName("Leg Extensions") { }
  lemma PlainLayingHamstringCurls() ensures PlainName("Laying Hamstring Curls") { }
  lemma PlainAbCrunches() ensures PlainName("Ab Crunches") { }
  lemma PlainWristCurl() ensures PlainName("Wrist Curl") { }
  lemma PlainPowerliftingInclineBench() ensures PlainName("Powerlifting Incline Bench") { }
  lemma PlainPecDeck() ensures PlainName("Pec Deck") { }
  lemma PlainInclineSkullcrushers() ensures PlainName("Incline Skullcrushers") { }
  lemma PlainDumbbellShoulderPress() ensures PlainName("Dumbbell Shoulder Press") { }
  lemma PlainDumbbellLateralRaise() ensures PlainName("Dumbbell Lateral Raise") { }
  lemma PlainWeightedPullUps() ensures PlainName("Weighted Pull-ups") { }
  lemma PlainCableRow() ensures PlainName("Cable Row") { }
  lemma PlainKelsoShrug() ensures PlainName("Kelso Shrug") { }
  lemma PlainMachinePreacherCurl() ensures PlainName("Machine Preacher Curl") { }
  lemma PlainRopeHammerCurl() ensures PlainName("Rope Hammer Curl") { }
  lemma PlainRearDeltCrossover() ensures PlainName("Rear Delt Crossover") { }
  lemma PlainHackSquat() ensures PlainName("Hack Squat") { }
  lemma PlainBackExtensions() ensures PlainName("Back Extensions") { }
  lemma PlainLegRaises() ensures PlainName("Leg Raises") { }
  lemma PlainReverseGripCurl() ensures PlainName("Reverse Grip Curl") { }
  lemma PlainTricepPushdown() ensures PlainName("Tricep Pushdown") { }
  lemma PlainExtremeRow() ensures PlainName("Extreme Row") { }
  lemma PlainBayesianCurl() ensures PlainName("Bayesian Curl") { }
  lemma PlainWeightedDips() ensures PlainName("Weighted Dips") { }

  lemma Day1Plain()
    ensures AllPlain(Day1())
  {
    forall k | 0 <= k < |Day1()|
      ensures PlainName(Day1()[k].name)
    {
      if k == 0 {
        PlainStandingCalfRaises();
      } else if k == 1 {
        PlainHipAdductors();
      } else if k == 2 {
        PlainPendulumSquat();
      } else if k == 3 {
        PlainLegExtensions();
      } else if k == 4 {
        PlainLayingHamstringCurls();
      } else if k == 5 {
        PlainAbCrunches();
      } else {
        PlainWristCurl();
      }
    }
  }

  lemma Day2Plain()
    ensures AllPlain(Day2())
  {
    forall k | 0 <= k < |Day2()|
      ensures PlainName(Day2()[k].name)
    {
      if k == 0 {
        PlainPowerliftingInclineBench();
      } else if k == 1 {
        PlainPecDeck();
      } else if k == 2 {
        PlainInclineSkullcrushers();
      } else if k == 3 {
        PlainDumbbellShoulderPress();
      } else if k == 4 {
        PlainDumbbellLateralRaise();
      } else if k == 5 {
        PlainWeightedPullUps();
      } else if k == 6 {
        PlainCableRow();
      } else if k == 7 {
        PlainKelsoShrug();
      } else if k == 8 {
        PlainMachinePreacherCurl();
      } else if k == 9 {
        PlainRopeHammerCurl();
      } else {
        PlainRearDeltCrossover();
      }
    }
  }

  lemma Day3Plain()
    ensures AllPlain(Day3())
  {
    forall k | 0 <= k < |Day3()|
      ensures PlainName(Day3()[k].name)
    {
      if k == 0 {
        PlainPowerliftingInclineBench();
      } else if k == 1 {
        PlainLayingHamstringCurls();
      } else if k == 2 {
        PlainHackSquat();
      } else if k == 3 {
        PlainBackExtensions();
      } else if k == 4 {
        PlainHipAdductors();
      } else if k == 5 {
        PlainStandingCalfRaises();
      } else if k == 6 {
        PlainLegRaises();
      } else {
        PlainReverseGripCurl();
      }
    }
  }

  lemma Day4Plain()
    ensures AllPlain(Day4())
  {
    forall k | 0 <= k < |Day4()|
      ensures PlainName(Day4()[k].name)
    {
      if k == 0 {
        PlainPowerliftingInclineBench();
      } else if k == 1 {
        PlainTricepPushdown();
      } else if k == 2 {
        PlainInclineSkullcrushers();
      } else if k == 3 {
        PlainExtremeRow();
      } else if k == 4 {
        PlainCableRow();
      } else if k == 5 {
        PlainBayesianCurl();
      } else if k == 6 {
        PlainRopeHammerCurl();
      } else if k == 7 {
        PlainDumbbellShoulderPress();
      } else if k == 8 {
        PlainDumbbellLateralRaise();
      } else {
        PlainRearDeltCrossover();
      }
    }
  }

  lemma Day5Plain()
    ensures AllPlain(Day5())
  {
    forall k | 0 <= k < |Day5()|
      ensures PlainName(Day5()[k].name)
    {
      if k == 0 {
        PlainPowerliftingInclineBench();
      } else if k == 1 {
        PlainWeightedPullUps();
      } else if k == 2 {
        PlainWeightedDips();
      } else if k == 3 {
        PlainKelsoShrug();
      } else if k == 4 {
        PlainStandingCalfRaises();
      } else if k == 5 {
        PlainAbCrunches();
      } else {
        PlainLegRaises();
      }
    }
  }

  /** No exercise of the table holds ':', none is called "Skipped", and none is the
      caption of an action button. */
  lemma CatalogNames(name: string)
    requires IsCatalogName(name)
    ensures PlainName(name)
    ensures ':' !in name
  {
    var d, k :| d in Templates() && 0 <= k < |Templates()[d]| && Templates()[d][k].name == name;
    assert d in {"day1", "day2", "day3", "day4", "day5"};
    Day1Plain(); Day2Plain(); Day3Plain(); Day4Plain(); Day5Plain();
    assert PlainName(Templates()[d][k].name);
  }

  /** Every exercise name of the table is plain. */
  lemma AllCatalogNamesPlain()
    ensures forall name :: IsCatalogName(name) ==> PlainName(name) && ':' !in name
  {
    forall name | IsCatalogName(name)
      ensures PlainName(name) && ':' !in name
    {
      CatalogNames(name);
    }
  }

  /** As written, pressing any button under a prompt for a table exercise names no action, so none of
      the branches of handle_set_action runs. */
  lemma AsWrittenMatchesNoAction(exercise: string, caption: string)
    requires IsCatalogName(exercise) && ':' !in caption
    ensures SetActionAsWritten(SetButtonData(exercise, caption)).Some?
    ensures ParseAction(SetActionAsWritten(SetButtonData(exercise, caption)).value) == None
  {
    CatalogNames(exercise);
    AsWrittenDecodesExercise(exercise, caption);
  }
}
