/** The fixed exercise table (TEMPLATES) and the day buttons of /start_workout. */
module Catalog {

  /** One template entry: an exercise and the number of sets it asks for. */
  datatype Exercise = Exercise(name: string, targetSets: int)

  function Day1(): seq<Exercise>
  {
    [ Exercise("Standing Calf Raises", 2),
      Exercise("Hip Adductors", 2),
      Exercise("Pendulum Squat", 2),
      Exercise("Leg Extensions", 2),
      Exercise("Laying Hamstring Curls", 2),
      Exercise("Ab Crunches", 3),
      Exercise("Wrist Curl", 2) ]
  }

  function Day2(): seq<Exercise>
  {
    [ Exercise("Powerlifting Incline Bench", 3),
      Exercise("Pec Deck", 1),
      Exercise("Incline Skullcrushers", 2),
      Exercise("Dumbbell Shoulder Press", 2),
      Exercise("Dumbbell Lateral Raise", 2),
      Exercise("Weighted Pull-ups", 1),
      Exercise("Cable Row", 1),
      Exercise("Kelso Shrug", 1),
      Exercise("Machine Preacher Curl", 1),
      Exercise("Rope Hammer Curl", 1),
      Exercise("Rear Delt Crossover", 1) ]
  }

  function Day3(): seq<Exercise>
  {
    [ Exercise("Powerlifting Incline Bench", 3),
      Exercise("Laying Hamstring Curls", 2),
      Exercise("Hack Squat", 2),
      Exercise("Back Extensions", 2),
      Exercise("Hip Adductors", 1),
      Exercise("Standing Calf Raises", 2),
      Exercise("Leg Raises", 2),
      Exercise("Reverse Grip Curl", 2) ]
  }

  function Day4(): seq<Exercise>
  {
    [ Exercise("Powerlifting Incline Bench", 3),
      Exercise("Tricep Pushdown", 2),
      Exercise("Incline Skullcrushers", 1),
      Exercise("Extreme Row", 2),
      Exercise("Cable Row", 2),
      Exercise("Bayesian Curl", 2),
      Exercise("Rope Hammer Curl", 1),
      Exercise("Dumbbell Shoulder Press", 1),
      Exercise("Dumbbell Lateral Raise", 1),
      Exercise("Rear Delt Crossover", 2) ]
  }

  function Day5(): seq<Exercise>
  {
    [ Exercise("Powerlifting Incline Bench", 3),
      Exercise("Weighted Pull-ups", 2),
      Exercise("Weighted Dips", 2),
      Exercise("Kelso Shrug", 2),
      Exercise("Standing Calf Raises", 2),
      Exercise("Ab Crunches", 2),
      Exercise("Leg Raises", 2) ]
  }

  /** TEMPLATES: day code to its ordered exercise list. */
  function Templates(): (table: map<string, seq<Exercise>>)
    ensures table.Keys == {"day1", "day2", "day3", "day4", "day5"}
  {
    map["day1" := Day1(), "day2" := Day2(), "day3" := Day3(), "day4" := Day4(), "day5" := Day5()]
  }

  /** The day buttons of /start_workout: label shown to the user to the day code it carries. */
  function DayLabels(): map<string, string>
  {
    map["Day I (Lower I)" := "day1",
        "Day II (Upper I)" := "day2",
        "Day III (Lower II)" := "day3",
        "Day IV (Upper II)" := "day4",
        "Day V (Aesthetic)" := "day5"]
  }

  /** Every day button leads to a template, and every template has exactly one button. */
  lemma DayLabelsCoverTemplates()
    ensures DayLabels().Values == Templates().Keys
    ensures forall l1, l2 :: l1 in DayLabels() && l2 in DayLabels() && l1 != l2 ==> DayLabels()[l1] != DayLabels()[l2]
  {
    var codes := {"day1", "day2", "day3", "day4", "day5"};
    assert Templates().Keys == codes;
    assert DayLabels()["Day I (Lower I)"] == "day1";
    assert DayLabels()["Day II (Upper I)"] == "day2";
    assert DayLabels()["Day III (Lower II)"] == "day3";
    assert DayLabels()["Day IV (Upper II)"] == "day4";
    assert DayLabels()["Day V (Aesthetic)"] == "day5";
    assert DayLabels().Values == codes;
  }

  /** An exercise name as it can appear in a template. */
  predicate IsCatalogName(name: string)
  {
    exists d, k :: d in Templates() && 0 <= k < |Templates()[d]| && Templates()[d][k].name == name
  }
}
