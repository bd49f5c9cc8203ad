/** The health score and advisory insights of the AI health monitor screen. */
module HealthMonitor {
  import opened Records

  datatype Severity = Warning | Info | Alert

  /** One advisory card: a severity tag, a title and a description. */
  datatype Insight = Insight(severity: Severity, title: string, description: string)

  /** Position of a severity in the order the checks run. */
  function SeverityRank(s: Severity): nat
  {
    match s
    case Warning => 0
    case Info => 1
    case Alert => 2
  }

  const MedicationInsight := Insight(Warning, "Medication Monitoring",
    "Currently on medication - monitor for side effects")
  const SeniorInsight := Insight(Info, "Senior Pet Care",
    "Consider additional health screenings for senior pets")
  const WeightInsight := Insight(Alert, "Weight Management",
    "Weight differs from breed average - adjust diet and exercise")

  function Abs(x: real): real
  {
    if x < 0.0 then -x else x
  }

  function Max(a: real, b: real): real
  {
    if a >= b then a else b
  }

  /** The breed table of the weight guideline. */
  const BreedWeights: map<string, real> := map["Golden Retriever" := 65.0, "Siamese" := 8.0]

  /** `weights[breed] || (species === 'Dog' ? 50 : 10)`: a listed breed with a
      truthy (non-zero) weight wins, otherwise the species fallback applies. */
  function IdealWeight(breed: string, species: string): (r: real)
    ensures breed == "Golden Retriever" ==> r == 65.0
    ensures breed == "Siamese" ==> r == 8.0
    ensures breed != "Golden Retriever" && breed != "Siamese" ==>
              r == (if species == "Dog" then 50.0 else 10.0)
    ensures r > 0.0
  {
    if breed in BreedWeights && BreedWeights[breed] != 0.0 then BreedWeights[breed]
    else if species == "Dog" then 50.0
    else 10.0
  }

  /** Distance of the pet's weight from its ideal weight. */
  function WeightGap(pet: Pet): real
  {
    Abs(pet.weight - IdealWeight(pet.breed, pet.species))
  }

  /** Everything the health score subtracts from its base of 100. */
  function Penalty(pet: Pet): real
  {
    2.0 * pet.age as real + 2.0 * WeightGap(pet) + 5.0 * |pet.medications| as real
  }

  /** `calculateHealthScore`: start at 100, subtract the age, weight and
      medication factors in turn, then clamp at 0. */
  function HealthScore(pet: Pet): (r: real)
    ensures r >= 0.0
    ensures pet.age >= 0 ==> r <= 100.0
    ensures r == 0.0 <==> Penalty(pet) >= 100.0
    ensures r > 0.0 ==> r + Penalty(pet) == 100.0
  {
    var score := 100.0;
    var score := score - pet.age as real * 2.0;
    var idealWeight := IdealWeight(pet.breed, pet.species);
    var weightDiff := Abs(pet.weight - idealWeight);
    var score := score - weightDiff * 2.0;
    var score := score - |pet.medications| as real * 5.0;
    Max(score, 0.0)
  }

  /** `generateHealthInsights`: the medication, senior and weight checks, in that order. */
  function HealthInsights(pet: Pet): (r: seq<Insight>)
    ensures |r| <= 3
    ensures MedicationInsight in r <==> |pet.medications| > 0
    ensures SeniorInsight in r <==> pet.age > 7
    ensures WeightInsight in r <==> WeightGap(pet) > 5.0
    ensures forall i :: 0 <= i < |r| ==> r[i] in [MedicationInsight, SeniorInsight, WeightInsight]
    ensures forall i, j :: 0 <= i < j < |r| ==> SeverityRank(r[i].severity) < SeverityRank(r[j].severity)
  {
    var insights := [];
    var insights := if |pet.medications| > 0 then insights + [MedicationInsight] else insights;
    var insights := if pet.age > 7 then insights + [SeniorInsight] else insights;
    var idealWeight := IdealWeight(pet.breed, pet.species);
    var insights := if Abs(pet.weight - idealWeight) > 5.0 then insights + [WeightInsight] else insights;
    insights
  }

  /** One more medication costs exactly five points, down to the floor of 0. */
  lemma AddMedicationCostsFive(pet: Pet, medication: string)
    ensures HealthScore(pet.(medications := pet.medications + [medication]))
         == Max(HealthScore(pet) - 5.0, 0.0)
  {
  }

  /** One more year of age costs exactly two points, down to the floor of 0. */
  lemma BirthdayCostsTwo(pet: Pet)
    ensures HealthScore(pet.(age := pet.age + 1)) == Max(HealthScore(pet) - 2.0, 0.0)
  {
  }

  /** A longer medication list never raises the score. */
  lemma MedicationsNeverRaiseScore(pet: Pet, medications: seq<string>)
    requires |medications| >= |pet.medications|
    ensures HealthScore(pet.(medications := medications)) <= HealthScore(pet)
  {
  }

  /** Growing older never raises the score. */
  lemma AgeNeverRaisesScore(pet: Pet, age: int)
    requires age >= pet.age
    ensures HealthScore(pet.(age := age)) <= HealthScore(pet)
  {
  }

  /** A pet at its ideal weight, off medication and not senior, gets no
      insights and loses only the age factor. */
  lemma IdealPetHasNoInsights(pet: Pet)
    requires |pet.medications| == 0 && pet.age <= 7
    requires pet.weight == IdealWeight(pet.breed, pet.species)
    ensures HealthInsights(pet) == []
    ensures HealthScore(pet) == 100.0 - 2.0 * pet.age as real
  {
  }

  /** Any insight is a warning sign in the score too: with a non-negative age
      a pet that gets an insight scores at most 95. */
  lemma InsightCapsScore(pet: Pet)
    requires pet.age >= 0 && |HealthInsights(pet)| > 0
    ensures HealthScore(pet) <= 95.0
  {
  }

  /** Conversely, a pet with no insights and a non-negative age scores at least 76. */
  lemma NoInsightFloorsScore(pet: Pet)
    requires pet.age >= 0 && HealthInsights(pet) == []
    ensures HealthScore(pet) >= 76.0
  {
  }

  /** A three-year-old Golden Retriever weighing 65 with no medications scores 94. */
  lemma GoldenRetrieverExample()
    ensures HealthScore(Pet("Max", "Dog", "Golden Retriever", 3, 65.0, [])) == 94.0
    ensures HealthInsights(Pet("Max", "Dog", "Golden Retriever", 3, 65.0, [])) == []
  {
  }
}
