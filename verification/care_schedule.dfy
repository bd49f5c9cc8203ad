/** The AI care routines and the importance colours of the care schedule screen. */
module CareSchedule {
  import opened Records
  import opened Text

  datatype Task = Task(
    id: nat,
    name: string,
    frequency: string,
    duration: string,
    importance: string,
    timeSlot: string)

  datatype Routine = Routine(id: nat, category: string, tasks: seq<Task>)

  const HighColor := "#ef4444"
  const MediumColor := "#f59e0b"
  const DefaultColor := "#10b981"

  /** The first exercise task: a walk for a dog (exact, case-sensitive match), play time otherwise. */
  function ExerciseTaskName(species: string): (r: string)
    ensures r == "Walk" <==> species == "Dog"
    ensures r == "Walk" || r == "Play Time"
  {
    if species == "Dog" then "Walk" else "Play Time"
  }

  /** `generateSmartRoutines`: the fixed three-category routine table, whose only
      pet-dependent entry is the first exercise task's name. */
  function SmartRoutines(pet: Pet): (r: seq<Routine>)
    ensures |r| == 3
    ensures r[0].category == "Exercise" && r[1].category == "Health Care" && r[2].category == "Nutrition"
    ensures forall i :: 0 <= i < 3 ==> r[i].id == i + 1 && |r[i].tasks| == 2
    ensures forall i, j :: 0 <= i < 3 && 0 <= j < 2 ==> r[i].tasks[j].id == 2 * i + j + 1
    ensures forall i, j :: 0 <= i < 3 && 0 <= j < 2 ==>
              r[i].tasks[j].importance == "High" || r[i].tasks[j].importance == "Medium"
    ensures r[0].tasks[0].name == "Walk" <==> pet.species == "Dog"
  {
    [
      Routine(1, "Exercise", [
        Task(1, ExerciseTaskName(pet.species), "Daily", "30 minutes", "High", "8:00 AM"),
        Task(2, "Active Play", "Daily", "15 minutes", "Medium", "5:00 PM")
      ]),
      Routine(2, "Health Care", [
        Task(3, "Medication", "Daily", "5 minutes", "High", "9:00 AM"),
        Task(4, "Grooming", "Weekly", "20 minutes", "Medium", "Saturday 10:00 AM")
      ]),
      Routine(3, "Nutrition", [
        Task(5, "Breakfast", "Daily", "10 minutes", "High", "7:30 AM"),
        Task(6, "Dinner", "Daily", "10 minutes", "High", "6:00 PM")
      ])
    ]
  }

  /** Task ids are 1..6 and no two tasks of the routine table share one. */
  lemma TaskIdsDistinct(pet: Pet, i: nat, j: nat, i': nat, j': nat)
    requires i < 3 && j < 2 && i' < 3 && j' < 2 && (i, j) != (i', j')
    ensures 1 <= SmartRoutines(pet)[i].tasks[j].id <= 6
    ensures SmartRoutines(pet)[i].tasks[j].id != SmartRoutines(pet)[i'].tasks[j'].id
  {
  }

  /** `getImportanceColor`: the importance is lower-cased, then 'high' is red,
      'medium' amber and anything else green. */
  function ImportanceColor(importance: string): (r: string)
    ensures r == HighColor <==> EqualIgnoringCase(importance, "high")
    ensures r == MediumColor <==> EqualIgnoringCase(importance, "medium")
    ensures r == DefaultColor <==> !EqualIgnoringCase(importance, "high") && !EqualIgnoringCase(importance, "medium")
  {
    EqualIgnoringCaseIffSameLower(importance, "high");
    EqualIgnoringCaseIffSameLower(importance, "medium");
    assert ToLower("high") == "high";
    assert ToLower("medium") == "medium";
    match ToLower(importance)
    case "high" => HighColor
    case "medium" => MediumColor
    case _ => DefaultColor
  }

  /** The colour does not depend on letter case: 'High', 'HIGH' and 'high' agree. */
  lemma ColorIgnoresCase(a: string, b: string)
    requires EqualIgnoringCase(a, b)
    ensures ImportanceColor(a) == ImportanceColor(b)
  {
    EqualIgnoringCaseIffSameLower(a, b);
  }

  /** Every task of the routine table is drawn in the high or medium colour,
      never the default. */
  lemma RoutineColorsNeverDefault(pet: Pet, i: nat, j: nat)
    requires i < 3 && j < 2
    ensures ImportanceColor(SmartRoutines(pet)[i].tasks[j].importance) != DefaultColor
  {
  }
}
