/** Clinic match scoring and ranking of the AI clinic recommendation screen. */
module SmartClinic {
  import opened Records
  import opened Text

  /** A clinic as the ranking returns it: every original field, plus its match
      score and the reasons shown under it. */
  datatype RankedClinic = RankedClinic(clinic: Clinic, aiScore: real, matchReasons: seq<string>)

  /** `Math.max(0, 20 - waitTime)`: up to 20 points for a short wait. */
  function WaitTerm(minutes: nat): (r: int)
    ensures 0 <= r <= 20
    ensures r == 0 <==> minutes >= 20
    ensures r > 0 ==> r + minutes == 20
  {
    if 0 >= 20 - minutes then 0 else 20 - minutes
  }

  /** A longer wait never earns more points. */
  lemma WaitTermAntitone(shorter: nat, longer: nat)
    requires shorter <= longer
    ensures WaitTerm(longer) <= WaitTerm(shorter)
  {
  }

  /** The wait string is one `parseInt` reads as a number of minutes, e.g. "15 mins". */
  predicate HasNumericWait(clinic: Clinic)
  {
    DecimalLead(clinic.waitTime)
  }

  function WaitMinutes(clinic: Clinic): nat
    requires HasNumericWait(clinic)
  {
    ParseInt(clinic.waitTime)
  }

  /** `calculateClinicScore`: species tag 20, breed tag 15, the wait term, and ten
      times the rating. */
  function ClinicScore(clinic: Clinic, pet: Pet): (r: real)
    requires HasNumericWait(clinic)
    ensures 10.0 * clinic.rating <= r <= 10.0 * clinic.rating + 55.0
    ensures pet.species in clinic.specialties ==> r >= 10.0 * clinic.rating + 20.0
    ensures pet.breed in clinic.specialties ==> r >= 10.0 * clinic.rating + 15.0
  {
    var score := 0.0;
    var score := if pet.species in clinic.specialties then score + 20.0 else score;
    var score := if pet.breed in clinic.specialties then score + 15.0 else score;
    var waitTime := ParseInt(clinic.waitTime);
    var score := score + WaitTerm(waitTime) as real;
    score + clinic.rating * 10.0
  }

  function SpeciesReason(species: string): string
  {
    "Specialized in " + species + " care"
  }

  function BreedReason(breed: string): string
  {
    "Experience with " + breed + "s"
  }

  /** The two reasons never coincide: they start with different words. */
  lemma ReasonsDiffer(species: string, breed: string)
    ensures SpeciesReason(species) != BreedReason(breed)
  {
    assert SpeciesReason(species)[0] == 'S';
    assert BreedReason(breed)[0] == 'E';
  }

  /** `getMatchReasons`: one reason per matched tag, species first. */
  function MatchReasons(clinic: Clinic, pet: Pet): (r: seq<string>)
    ensures |r| == (if pet.species in clinic.specialties then 1 else 0)
                 + (if pet.breed in clinic.specialties then 1 else 0)
    ensures SpeciesReason(pet.species) in r <==> pet.species in clinic.specialties
    ensures BreedReason(pet.breed) in r <==> pet.breed in clinic.specialties
    ensures |r| > 0 && pet.species in clinic.specialties ==> r[0] == SpeciesReason(pet.species)
    ensures |r| > 0 && pet.breed in clinic.specialties ==> r[|r| - 1] == BreedReason(pet.breed)
  {
    ReasonsDiffer(pet.species, pet.breed);
    var reasons := [];
    var reasons := if pet.species in clinic.specialties then reasons + [SpeciesReason(pet.species)] else reasons;
    var reasons := if pet.breed in clinic.specialties then reasons + [BreedReason(pet.breed)] else reasons;
    reasons
  }

  /** The score and the reasons are built from the same two tag tests: the tag
      part of the score can be read back off the reasons. */
  lemma ScoreAgreesWithReasons(clinic: Clinic, pet: Pet)
    requires HasNumericWait(clinic)
    ensures ClinicScore(clinic, pet)
         == (if SpeciesReason(pet.species) in MatchReasons(clinic, pet) then 20.0 else 0.0)
          + (if BreedReason(pet.breed) in MatchReasons(clinic, pet) then 15.0 else 0.0)
          + WaitTerm(WaitMinutes(clinic)) as real
          + 10.0 * clinic.rating
  {
  }

  /** A clinic matching both the species and the breed scores exactly 35 more than
      an otherwise identical clinic matching neither. */
  lemma BothTagsWorth35(matching: Clinic, plain: Clinic, pet: Pet)
    requires HasNumericWait(plain)
    requires matching == plain.(specialties := matching.specialties)
    requires pet.species in matching.specialties && pet.breed in matching.specialties
    requires pet.species !in plain.specialties && pet.breed !in plain.specialties
    ensures ClinicScore(matching, pet) == ClinicScore(plain, pet) + 35.0
  {
  }

  /** A shorter wait or a better rating never lowers the score of an otherwise
      identical clinic. */
  lemma ScoreMonotone(better: Clinic, worse: Clinic, pet: Pet)
    requires HasNumericWait(better) && HasNumericWait(worse)
    requires better == worse.(waitTime := better.waitTime, rating := better.rating)
    requires WaitMinutes(better) <= WaitMinutes(worse) && better.rating >= worse.rating
    ensures ClinicScore(better, pet) >= ClinicScore(worse, pet)
  {
  }

  /** One entry of the `map` step: the clinic's own fields, one reason for each of
      the pet's tags the clinic lists, and a score whose tag part can be read back
      from those reasons. */
  function Annotate(clinic: Clinic, pet: Pet): (r: RankedClinic)
    requires HasNumericWait(clinic)
    ensures r.clinic == clinic
    ensures |r.matchReasons| == (if pet.species in clinic.specialties then 1 else 0)
                              + (if pet.breed in clinic.specialties then 1 else 0)
    ensures |r.matchReasons| == 2 ==> r.matchReasons[0] == SpeciesReason(pet.species)
    ensures SpeciesReason(pet.species) in r.matchReasons <==> pet.species in clinic.specialties
    ensures BreedReason(pet.breed) in r.matchReasons <==> pet.breed in clinic.specialties
    ensures r.aiScore
         == (if SpeciesReason(pet.species) in r.matchReasons then 20.0 else 0.0)
          + (if BreedReason(pet.breed) in r.matchReasons then 15.0 else 0.0)
          + WaitTerm(WaitMinutes(clinic)) as real
          + 10.0 * clinic.rating
  {
    RankedClinic(clinic, ClinicScore(clinic, pet), MatchReasons(clinic, pet))
  }

  /** The `map` step: each clinic keeps its fields and gains a score and reasons. */
  function AnnotateAll(clinics: seq<Clinic>, pet: Pet): (r: seq<RankedClinic>)
    requires forall c :: c in clinics ==> HasNumericWait(c)
    ensures |r| == |clinics|
    ensures forall i :: 0 <= i < |r| ==> r[i] == Annotate(clinics[i], pet)
  {
    if |clinics| == 0 then []
    else
      var rest := AnnotateAll(clinics[1..], pet);
      var r := [Annotate(clinics[0], pet)] + rest;
      assert forall i :: 0 < i < |r| ==> r[i] == rest[i - 1];
      r
  }

  /** The clinic records carried by a ranking, in order. */
  function ClinicsOf(rs: seq<RankedClinic>): (r: seq<Clinic>)
    ensures |r| == |rs|
  {
    if |rs| == 0 then [] else [rs[0].clinic] + ClinicsOf(rs[1..])
  }

  /** The entries whose score is `k`, in order. */
  function WithScore(rs: seq<RankedClinic>, k: real): seq<RankedClinic>
  {
    if |rs| == 0 then []
    else (if rs[0].aiScore == k then [rs[0]] else []) + WithScore(rs[1..], k)
  }

  ghost predicate SortedByScore(rs: seq<RankedClinic>)
  {
    forall i, j :: 0 <= i < j < |rs| ==> rs[i].aiScore >= rs[j].aiScore
  }

  /** Inserts `x` before the first entry it does not score below. Since `x`
      precedes every entry of `rs` in the input, placing it ahead of equal scores
      is what a stable descending sort does. */
  function Insert(x: RankedClinic, rs: seq<RankedClinic>): (r: seq<RankedClinic>)
    ensures multiset(r) == multiset(rs) + multiset{x}
  {
    if |rs| == 0 || x.aiScore >= rs[0].aiScore then
      [x] + rs
    else
      assert rs == [rs[0]] + rs[1..];
      [rs[0]] + Insert(x, rs[1..])
  }

  lemma {:induction false} InsertSorted(x: RankedClinic, rs: seq<RankedClinic>)
    requires SortedByScore(rs)
    ensures SortedByScore(Insert(x, rs))
  {
    if |rs| > 0 && x.aiScore < rs[0].aiScore {
      var tail := Insert(x, rs[1..]);
      InsertSorted(x, rs[1..]);
      forall j | 0 <= j < |tail|
        ensures rs[0].aiScore >= tail[j].aiScore
      {
        assert tail[j] in multiset(tail);
        if tail[j] != x {
          assert tail[j] in rs[1..];
        }
      }
    }
  }

  lemma {:induction false} InsertClinics(x: RankedClinic, rs: seq<RankedClinic>)
    ensures multiset(ClinicsOf(Insert(x, rs))) == multiset(ClinicsOf(rs)) + multiset{x.clinic}
  {
    if |rs| == 0 || x.aiScore >= rs[0].aiScore {
      assert ([x] + rs)[1..] == rs;
    } else {
      var tail := Insert(x, rs[1..]);
      assert ([rs[0]] + tail)[1..] == tail;
      InsertClinics(x, rs[1..]);
    }
  }

  /** Inserting `x` adds it to the front of its own score class and leaves every
      other class as it was. */
  lemma {:induction false} InsertWithScore(x: RankedClinic, rs: seq<RankedClinic>, k: real)
    ensures WithScore(Insert(x, rs), k) == (if x.aiScore == k then [x] else []) + WithScore(rs, k)
  {
    if |rs| == 0 || x.aiScore >= rs[0].aiScore {
      assert ([x] + rs)[1..] == rs;
    } else {
      var tail := Insert(x, rs[1..]);
      assert ([rs[0]] + tail)[1..] == tail;
      InsertWithScore(x, rs[1..], k);
    }
  }

  /** Stable insertion sort by descending score (`sort((a, b) => b.aiScore - a.aiScore)`). */
  function SortByScore(rs: seq<RankedClinic>): (r: seq<RankedClinic>)
    ensures SortedByScore(r)
    ensures multiset(r) == multiset(rs)
  {
    if |rs| == 0 then []
    else
      assert rs == [rs[0]] + rs[1..];
      var sortedTail := SortByScore(rs[1..]);
      InsertSorted(rs[0], sortedTail);
      Insert(rs[0], sortedTail)
  }

  lemma {:induction false} SortClinics(rs: seq<RankedClinic>)
    ensures multiset(ClinicsOf(SortByScore(rs))) == multiset(ClinicsOf(rs))
  {
    if |rs| > 0 {
      SortClinics(rs[1..]);
      InsertClinics(rs[0], SortByScore(rs[1..]));
    }
  }

  /** The sort is stable: within each score class the order is the input order. */
  lemma {:induction false} SortStable(rs: seq<RankedClinic>, k: real)
    ensures WithScore(SortByScore(rs), k) == WithScore(rs, k)
  {
    if |rs| > 0 {
      SortStable(rs[1..], k);
      InsertWithScore(rs[0], SortByScore(rs[1..]), k);
    }
  }

  lemma {:induction false} ClinicsOfAnnotateAll(clinics: seq<Clinic>, pet: Pet)
    requires forall c :: c in clinics ==> HasNumericWait(c)
    ensures ClinicsOf(AnnotateAll(clinics, pet)) == clinics
  {
    if |clinics| > 0 {
      var a := AnnotateAll(clinics, pet);
      assert a[1..] == AnnotateAll(clinics[1..], pet);
      ClinicsOfAnnotateAll(clinics[1..], pet);
    }
  }

  /** `recommendClinics`: annotate every clinic, then sort by descending score.
      The result ranks every input clinic exactly once with its own score and
      reasons, best first, and clinics with equal scores keep their input order. */
  function RecommendClinics(pet: Pet, clinics: seq<Clinic>): (r: seq<RankedClinic>)
    requires forall c :: c in clinics ==> HasNumericWait(c)
    ensures |r| == |clinics|
    ensures multiset(ClinicsOf(r)) == multiset(clinics)
    ensures SortedByScore(r)
    ensures forall i :: 0 <= i < |r| ==> HasNumericWait(r[i].clinic) && r[i] == Annotate(r[i].clinic, pet)
    ensures forall k :: WithScore(r, k) == WithScore(AnnotateAll(clinics, pet), k)
  {
    var annotated := AnnotateAll(clinics, pet);
    ClinicsOfAnnotateAll(clinics, pet);
    var r := SortByScore(annotated);
    SortClinics(annotated);
    assert forall k :: WithScore(r, k) == WithScore(annotated, k) by {
      forall k
        ensures WithScore(r, k) == WithScore(annotated, k)
      {
        SortStable(annotated, k);
      }
    }
    assert |r| == |multiset(r)| == |multiset(annotated)| == |annotated|;
    PermutedEntriesAnnotated(clinics, pet, r);
    r
  }

  /** Any rearrangement of the annotated list still pairs each clinic with its own
      score and reasons. */
  lemma PermutedEntriesAnnotated(clinics: seq<Clinic>, pet: Pet, r: seq<RankedClinic>)
    requires forall c :: c in clinics ==> HasNumericWait(c)
    requires multiset(r) == multiset(AnnotateAll(clinics, pet))
    ensures forall i :: 0 <= i < |r| ==> HasNumericWait(r[i].clinic) && r[i] == Annotate(r[i].clinic, pet)
  {
    var annotated := AnnotateAll(clinics, pet);
    forall i | 0 <= i < |r|
      ensures HasNumericWait(r[i].clinic) && r[i] == Annotate(r[i].clinic, pet)
    {
      assert r[i] in multiset(annotated);
      var j :| 0 <= j < |annotated| && annotated[j] == r[i];
    }
  }

  /** Example: a dog-only clinic with a 15 minute wait and rating 4.8
      scores 20 + 5 + 48 = 73 for a Poodle. */
  lemma PoodleExample(clinic: Clinic, pet: Pet)
    requires clinic.specialties == ["Dog"] && clinic.waitTime == "15 mins" && clinic.rating == 4.8
    requires pet.species == "Dog" && pet.breed == "Poodle"
    ensures HasNumericWait(clinic)
    ensures ClinicScore(clinic, pet) == 73.0
    ensures MatchReasons(clinic, pet) == ["Specialized in Dog care"]
  {
    assert Show(15) == "15";
    ParseShowRoundTrip(15, " mins");
    assert Show(15) + " mins" == "15 mins";
    assert "Poodle" !in ["Dog"];
    assert SpeciesReason("Dog") == "Specialized in Dog care";
  }
}
