# PetCareApp scoring engine in Dafny

A functional model of the deterministic logic of the PetCareApp screens. The rest of the app is React Native layout over fixed sample data. The model covers:

- **Health monitor** (`HealthMonitor`): the health score. It starts at 100 and subtracts twice the age, twice the distance from the breed/species ideal weight, and five per medication, then clamps at 0. It also covers the ordered list of up to three advisory insights.
- **Smart clinic ranking** (`SmartClinic`): the match score, made of a species tag (20), a breed tag (15), the wait term `max(0, 20 - minutes)` and ten times the rating. It also covers the match reasons, and the ranking as a stable sort by descending score.
- **Vet directory** (`VetDirectory`): the case-insensitive substring search on clinic name or city, the screen's search state, and the five-star rating row.
- **Care schedule** (`CareSchedule`): the fixed routine table, with its species-dependent first task, and the case-insensitive importance colour.
- **Cost predictor** (`CostPredictor`): only the fact that the hard-coded totals equal their breakdowns.
- **Text**: ASCII models of the JavaScript built-ins these screens call: `toLowerCase`, `includes` and decimal `parseInt`.
- **Records**: `Pet` and `Clinic`. They are immutable. The selected pet is an explicit parameter, not ambient context.

Numbers: weights, ratings and scores are exact `real`s, and age is an `int` (whole years). The JavaScript comparator `b.aiScore - a.aiScore` is modelled by comparing exact scores. `Array.prototype.sort` is stable by ECMA-262 (2019 edition onward), so equal scores keep their input order, and the model proves exactly that.

Notes on the score:
- A pet at its ideal weight, with no medications and aged 7 or less, scores `100 - 2*age`, not 100. For example, a 3-year-old Golden Retriever scores 94.
- The score has no upper clamp. It is guaranteed to be at most 100 only for a non-negative age; a negative age can push it above 100.
- The species fallback for the ideal weight is 50 for `'Dog'` and 10 for every other species.

## Model

| member | source | states |
|---|---|---|
| HealthMonitor.IdealWeight | screens/ai/HealthMonitorScreen.js:43-50 | 65 for 'Golden Retriever', 8 for 'Siamese'; any other breed 50 if the species is 'Dog', else 10; always positive |
| HealthMonitor.HealthScore | screens/ai/HealthMonitorScreen.js:25-41 | never negative; at most 100 for a non-negative age; 0 exactly when the age, weight and medication penalty reaches 100; otherwise score plus penalty is 100 |
| HealthMonitor.HealthInsights | screens/ai/HealthMonitorScreen.js:52-84 | at most 3 insights; the medication warning iff there are medications, the senior info iff age > 7, the weight alert iff the weight is more than 5 from ideal; only these three, in warning/info/alert order without repeats |
| HealthMonitor.AddMedicationCostsFive | screens/ai/HealthMonitorScreen.js:38-40 | one more medication lowers the score by exactly 5, floored at 0 |
| HealthMonitor.BirthdayCostsTwo | screens/ai/HealthMonitorScreen.js:30-40 | one more year of age lowers the score by exactly 2, floored at 0 |
| HealthMonitor.MedicationsNeverRaiseScore | screens/ai/HealthMonitorScreen.js:38-40 | a longer medication list never raises the score |
| HealthMonitor.AgeNeverRaisesScore | screens/ai/HealthMonitorScreen.js:30-40 | a greater age never raises the score |
| HealthMonitor.IdealPetHasNoInsights | screens/ai/HealthMonitorScreen.js:25-84 | no medications, age at most 7 and the ideal weight give no insights and a score of 100 - 2*age |
| HealthMonitor.InsightCapsScore | screens/ai/HealthMonitorScreen.js:25-84 | with a non-negative age, any insight means a score of at most 95 |
| HealthMonitor.NoInsightFloorsScore | screens/ai/HealthMonitorScreen.js:25-84 | with a non-negative age, no insights means a score of at least 76 |
| HealthMonitor.GoldenRetrieverExample | screens/ai/HealthMonitorScreen.js:25-84 | a 3-year-old Golden Retriever at 65 with no medications scores 94 and gets no insights |
| Text.ParseInt | screens/ai/SmartClinicScreen.js:41 | parseInt reads at least one leading digit; with k leading digits the value is below 10^k, and it is 0 exactly when those digits are all zeros |
| Text.DigitsValueBounds | screens/ai/SmartClinicScreen.js:41 | a k-digit numeral is below 10^k and is 0 exactly when every digit is '0' |
| Text.ParseShowRoundTrip | screens/ai/SmartClinicScreen.js:41 | parseInt reads back the decimal rendering of n followed by any non-digit text (for n = 0, text not starting with x or X), e.g. "15 mins" gives 15 |
| Text.LeadingDigitsAfterZeros | screens/ai/SmartClinicScreen.js:41 | zeros in front of a string extend its leading digits by exactly those zeros |
| Text.DigitsValueAfterZeros | screens/ai/SmartClinicScreen.js:41 | zeros in front of a numeral leave its value unchanged |
| Text.ParseSkipsLeadingZeros | screens/ai/SmartClinicScreen.js:41 | parseInt ignores zeros in front of the numeral, e.g. "05 mins" gives 5; with ParseShowRoundTrip this fixes the value on every string the model admits, since its leading digits are always some zeros followed by the rendering of a number |
| Text.LeadingDigits | screens/ai/SmartClinicScreen.js:41 | the digits parseInt reads form a prefix of the string, all digits, and are followed by a non-digit or the end |
| SmartClinic.WaitTerm | screens/ai/SmartClinicScreen.js:42 | the wait term lies in [0, 20]; it is 0 exactly for waits of 20 minutes or more; otherwise term plus wait is 20 |
| SmartClinic.WaitTermAntitone | screens/ai/SmartClinicScreen.js:42 | a longer wait never earns a larger wait term |
| SmartClinic.ClinicScore | screens/ai/SmartClinicScreen.js:31-48 | the score lies between 10*rating and 10*rating + 55; a species match guarantees 20 above 10*rating and a breed match 15 |
| SmartClinic.ReasonsDiffer | screens/ai/SmartClinicScreen.js:53-59 | the species reason and the breed reason are never the same string |
| SmartClinic.MatchReasons | screens/ai/SmartClinicScreen.js:50-62 | one reason per matched tag (at most 2); "Specialized in {species} care" present iff species matched and first; "Experience with {breed}s" present iff breed matched and last |
| SmartClinic.ScoreAgreesWithReasons | screens/ai/SmartClinicScreen.js:31-62 | the score is 20 per species reason plus 15 per breed reason shown, plus the wait term, plus 10*rating |
| SmartClinic.BothTagsWorth35 | screens/ai/SmartClinicScreen.js:34-38 | a clinic matching species and breed scores exactly 35 more than an otherwise identical clinic matching neither |
| SmartClinic.ScoreMonotone | screens/ai/SmartClinicScreen.js:40-45 | a shorter wait and a higher rating never lower the score |
| SmartClinic.Annotate | screens/ai/SmartClinicScreen.js:24-27 | the entry keeps the clinic unchanged; it shows the species reason iff the clinic lists the pet's species and the breed reason iff it lists the pet's breed, one reason per listed tag, species first; its score is 20 per species reason plus 15 per breed reason shown, plus the wait term, plus 10*rating |
| SmartClinic.AnnotateAll | screens/ai/SmartClinicScreen.js:24-27 | every clinic, in order, gets its own score and reasons and keeps all its fields |
| SmartClinic.ClinicsOfAnnotateAll | screens/ai/SmartClinicScreen.js:24-27 | the annotated list still carries exactly the input clinics in order |
| SmartClinic.Insert | screens/ai/SmartClinicScreen.js:28 | inserting an entry adds exactly that entry |
| SmartClinic.InsertSorted | screens/ai/SmartClinicScreen.js:28 | inserting into a list sorted by descending score keeps it sorted |
| SmartClinic.InsertClinics | screens/ai/SmartClinicScreen.js:28 | inserting adds exactly the entry's clinic to the carried clinics |
| SmartClinic.InsertWithScore | screens/ai/SmartClinicScreen.js:28 | the inserted entry goes to the front of its own score class; all other classes are unchanged |
| SmartClinic.SortByScore | screens/ai/SmartClinicScreen.js:28 | the result is sorted by non-increasing score and is a permutation of the input |
| SmartClinic.SortClinics | screens/ai/SmartClinicScreen.js:28 | sorting permutes the carried clinics |
| SmartClinic.SortStable | screens/ai/SmartClinicScreen.js:28 | within every score class the sorted order is the input order |
| SmartClinic.RecommendClinics | screens/ai/SmartClinicScreen.js:22-29 | the ranking has one entry per input clinic and its clinics are a permutation of the input; each entry carries its own score and reasons; scores are non-increasing; equal scores keep input order |
| SmartClinic.PermutedEntriesAnnotated | screens/ai/SmartClinicScreen.js:24-28 | any rearrangement of the annotated list still pairs each clinic with its own score and reasons |
| SmartClinic.PoodleExample | screens/ai/SmartClinicScreen.js:31-62 | a dog-only clinic with wait "15 mins" and rating 4.8 scores 73 for a Poodle, with the single species reason |
| Text.ToLower | screens/VetScreen.js:61-62 | lower-casing keeps the length and maps every character through ASCII case folding |
| Text.EqualIgnoringCaseIffSameLower | screens/VetScreen.js:61-62 | two strings have the same lower-case form iff they differ only in ASCII letter case |
| Text.Includes | screens/VetScreen.js:61-62 | includes holds iff the needle equals some window of the haystack |
| Text.IncludesStep | screens/VetScreen.js:61-62 | when the needle is not a prefix, its occurrences are exactly those in the tail |
| Text.IncludesEmpty | screens/VetScreen.js:61-62 | every string includes the empty string |
| VetDirectory.Matches | screens/VetScreen.js:60-63 | a clinic matches iff the lower-cased query occurs as a window of its lower-cased name or of its lower-cased city |
| VetDirectory.FilterClinics | screens/VetScreen.js:60-63 | the result is an order-preserving subsequence of the directory; a clinic is in it iff it is in the directory and its lower-cased name or city contains the lower-cased query |
| VetDirectory.FilterKeepsMultiplicity | screens/VetScreen.js:60-63 | a matching clinic appears in the result as often as in the directory, a non-matching one not at all |
| VetDirectory.InitialState | screens/VetScreen.js:55-56 | the starting state has an empty query, shows the whole directory, and is consistent: the list shown is the directory filtered by the query |
| VetDirectory.HandleSearch | screens/VetScreen.js:58-65 | the state records the typed text and stays consistent: the list shown is the full directory filtered by that text, so it holds exactly the directory clinics matching it |
| VetDirectory.EmptyQueryKeepsAll | screens/VetScreen.js:60-63 | the empty query returns the whole directory unchanged |
| VetDirectory.InitialStateIsEmptySearch | screens/VetScreen.js:55-63 | searching for "" from any state gives the initial state |
| VetDirectory.LatestQueryWins | screens/VetScreen.js:58-64 | the state after a search depends only on the latest query, never on earlier ones |
| VetDirectory.FilterIdempotent | screens/VetScreen.js:60-63 | filtering a result again by the same query changes nothing |
| VetDirectory.SearchIgnoresCase | screens/VetScreen.js:61-62 | queries differing only in ASCII letter case give identical results |
| VetDirectory.ChicagoExample | screens/VetScreen.js:6-65 | on the directory data, "chicago" selects only the clinic with id 3 |
| VetDirectory.OnlyLastSelected | screens/VetScreen.js:60-63 | when only the third of three clinics matches, the filter returns just that clinic |
| VetDirectory.FirstCharAbsent | screens/VetScreen.js:61-62 | a needle whose first character starts no window of the lower-cased text is not included in it |
| VetDirectory.PrefixMatch | screens/VetScreen.js:61-62 | lower-cased text that starts with the needle includes it |
| VetDirectory.RenderStars | screens/VetScreen.js:67-76 | exactly 5 stars; star i (from 0) is filled iff the rating is at least i + 1 |
| VetDirectory.CountThreshold | screens/VetScreen.js:72-73 | a row whose entry i is set iff i < f has f set entries, clamped to the row length |
| VetDirectory.StarsFilled | screens/VetScreen.js:67-76 | of the 5 stars, the filled count is floor(rating) clamped to 0..5, and filled stars come first |
| CareSchedule.ExerciseTaskName | screens/ai/CareScheduleScreen.js:32 | the name is 'Walk' iff the species is exactly 'Dog', else 'Play Time' |
| CareSchedule.SmartRoutines | screens/ai/CareScheduleScreen.js:23-93 | three routines: Exercise, Health Care, Nutrition with ids 1..3, two tasks each; task j of routine i has id 2i+j+1; every importance is High or Medium; the first task is 'Walk' iff the species is 'Dog' |
| CareSchedule.TaskIdsDistinct | screens/ai/CareScheduleScreen.js:31-85 | task ids lie in 1..6 and no two tasks share one |
| CareSchedule.ImportanceColor | screens/ai/CareScheduleScreen.js:122-131 | red iff the importance equals 'high' up to case, amber iff it equals 'medium' up to case, green otherwise |
| CareSchedule.ColorIgnoresCase | screens/ai/CareScheduleScreen.js:123 | importances differing only in letter case get the same colour |
| CareSchedule.RoutineColorsNeverDefault | screens/ai/CareScheduleScreen.js:23-131 | every task of the routine table gets the high or medium colour, never the default |
| CostPredictor.MonthlyCosts | screens/ai/CostPredictor.js:27-38 | the monthly total 250 equals the sum of its breakdown |
| CostPredictor.AnnualCosts | screens/ai/CostPredictor.js:40-52 | the annual total 3000 equals the sum of its breakdown |

## Left out

- Rendering, hooks, icons and styles: all JSX, `useState`/`useEffect` wiring and `StyleSheet` objects are presentation. `App.js` is navigation only.
- The pet context (`context/PetContext`) is not part of this model. The selected pet is a parameter.
- The clinic screen's data wiring: it reads `clinicsData.clinics` without importing it, its fixtures have no `specialties` list, and it never calls `setRecommendedClinics`. The ranking is modelled over a clinic record that has a `specialties` list. The directory fixture gets an empty one.
- `getUpcomingTasks` (screens/ai/CareScheduleScreen.js:95-120) sets a fixed list and has no behaviour to state.
- The constant generators of CostPredictor.js (emergency fund, insurance, savings tips), TrainingAssistant.js, SmartShop.js, SmartShopScreen.js, and HealthMonitor.js with its fixed score of 85: they ignore the pet apart from string interpolation.
- Text.ParseInt: covers only strings that start with a decimal digit and not with `0x`/`0X`. `parseInt` also skips leading whitespace, reads a sign, reads hexadecimal after `0x`, and yields NaN with no digits; none of these are modelled.
- SmartClinic.ClinicScore: requires such a wait string. This also excludes wait strings with leading whitespace, a sign or a hexadecimal prefix, on which `parseInt` does return a number; the model does not cover those scores. A negative wait such as "-5 mins" would earn a wait term of 25, above the range 0..20 that `WaitTerm` states. A wait string with no leading number makes the score NaN, which is not modelled either.
- HealthMonitor.IdealWeight: a breed named after an `Object.prototype` property (for example "constructor") makes the JavaScript table lookup return a function and the score NaN; the model treats such a breed like any other unknown breed.
- IEEE-754 doubles: `rating * 10`, fractional weights and score arithmetic are exact reals. `Math.round` and `toFixed` are display-only.
- Unicode `toLowerCase`: only ASCII letters are folded.
- The colour alpha suffix `+ '20'` and the other display strings are presentation.
- Missing fields (`undefined` medications, species or breed) are not modelled; every record field is present.
