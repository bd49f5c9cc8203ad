/** The clinic directory screen: the search filter and the star rating row. */
module VetDirectory {
  import opened Records
  import opened Text

  /** The three clinics the directory lists. */
  const DirectoryClinics: seq<Clinic> := [
    Clinic(1, "Healthy Paws SF",
      Location("123 Pet Care Lane", "San Francisco", "CA", "94105"),
      4.8, "15 mins", ["General Care", "Surgery", "Dental"], [], 5, true),
    Clinic(2, "Manhattan Pet Hospital",
      Location("456 Vet Street", "New York", "NY", "10001"),
      4.9, "20 mins", ["Emergency Care", "General Care", "Dental"], [], 8, true),
    Clinic(3, "Chicago Pet Wellness",
      Location("789 Animal Ave", "Chicago", "IL", "60601"),
      4.7, "10 mins", ["General Care", "Vaccination", "Grooming"], [], 4, true)
  ]

  /** The filter predicate of `handleSearch`: the lower-cased name or city
      contains the lower-cased query. */
  predicate Matches(clinic: Clinic, query: string): (r: bool)
    ensures r <==> Occurs(ToLower(clinic.name), ToLower(query))
                   || Occurs(ToLower(clinic.location.city), ToLower(query))
  {
    var inName := Includes(ToLower(clinic.name), ToLower(query));
    var inCity := Includes(ToLower(clinic.location.city), ToLower(query));
    inName || inCity
  }

  /** `sub` is `full` with some entries deleted, the rest in their original order. */
  ghost predicate IsSubsequence<T>(sub: seq<T>, full: seq<T>)
    decreases |full|
  {
    if |sub| == 0 then true
    else if |full| == 0 then false
    else if sub[0] == full[0] then IsSubsequence(sub[1..], full[1..])
    else IsSubsequence(sub, full[1..])
  }

  /** `clinicsData.filter(...)`: the matching clinics, in directory order, each
      kept as often as it occurs. */
  function FilterClinics(clinics: seq<Clinic>, query: string): (r: seq<Clinic>)
    ensures IsSubsequence(r, clinics)
    ensures forall c :: c in r <==> c in clinics && Matches(c, query)
  {
    if |clinics| == 0 then []
    else
      assert clinics == [clinics[0]] + clinics[1..];
      var rest := FilterClinics(clinics[1..], query);
      if Matches(clinics[0], query) then
        assert ([clinics[0]] + rest)[1..] == rest;
        [clinics[0]] + rest
      else
        rest
  }

  /** Each matching clinic is kept as often as it occurs; the others not at all. */
  lemma {:induction false} FilterKeepsMultiplicity(clinics: seq<Clinic>, query: string, c: Clinic)
    ensures multiset(FilterClinics(clinics, query))[c]
         == if Matches(c, query) then multiset(clinics)[c] else 0
  {
    if |clinics| > 0 {
      assert clinics == [clinics[0]] + clinics[1..];
      FilterKeepsMultiplicity(clinics[1..], query, c);
    }
  }

  /** What the screen holds: the text in the search box and the list shown. */
  datatype SearchState = SearchState(searchQuery: string, filteredClinics: seq<Clinic>)

  /** The list shown is the directory filtered by the text in the search box. */
  ghost predicate Consistent(clinics: seq<Clinic>, state: SearchState)
  {
    state.filteredClinics == FilterClinics(clinics, state.searchQuery)
  }

  /** The state before any typing: an empty query showing the whole directory. */
  function InitialState(clinics: seq<Clinic>): (r: SearchState)
    ensures Consistent(clinics, r)
    ensures |r.searchQuery| == 0 && r.filteredClinics == clinics
  {
    EmptyQueryKeepsAll(clinics);
    SearchState("", clinics)
  }

  /** `handleSearch(text)`: record the text and filter the FULL directory by it.
      The `state` parameter is deliberately unused: the screen filters the whole
      directory, never the previous result, and this is what `LatestQueryWins` records. */
  function HandleSearch(clinics: seq<Clinic>, state: SearchState, text: string): (r: SearchState)
    ensures Consistent(clinics, r)
    ensures r.searchQuery == text
    ensures forall c :: c in r.filteredClinics <==> c in clinics && Matches(c, text)
  {
    SearchState(text, FilterClinics(clinics, text))
  }

  /** The empty query keeps every clinic, in order. */
  lemma {:induction false} EmptyQueryKeepsAll(clinics: seq<Clinic>)
    ensures FilterClinics(clinics, "") == clinics
  {
    if |clinics| > 0 {
      IncludesEmpty(ToLower(clinics[0].name));
      EmptyQueryKeepsAll(clinics[1..]);
    }
  }

  /** Searching for the empty string reproduces the initial state. */
  lemma InitialStateIsEmptySearch(clinics: seq<Clinic>, state: SearchState)
    ensures HandleSearch(clinics, state, "") == InitialState(clinics)
  {
    EmptyQueryKeepsAll(clinics);
  }

  /** The result depends only on the latest query, never on earlier searches.
      It holds because `HandleSearch` ignores its `state` argument, as the screen does. */
  lemma LatestQueryWins(clinics: seq<Clinic>, state: SearchState, first: string, second: string)
    ensures HandleSearch(clinics, HandleSearch(clinics, state, first), second)
         == HandleSearch(clinics, InitialState(clinics), second)
  {
  }

  /** Filtering a result again by the same query changes nothing. */
  lemma {:induction false} FilterIdempotent(clinics: seq<Clinic>, query: string)
    ensures FilterClinics(FilterClinics(clinics, query), query) == FilterClinics(clinics, query)
  {
    if |clinics| > 0 {
      FilterIdempotent(clinics[1..], query);
      var rest := FilterClinics(clinics[1..], query);
      if Matches(clinics[0], query) {
        assert ([clinics[0]] + rest)[1..] == rest;
      }
    }
  }

  /** Queries differing only in ASCII letter case select the same clinics. */
  lemma {:induction false} SearchIgnoresCase(clinics: seq<Clinic>, q1: string, q2: string)
    requires EqualIgnoringCase(q1, q2)
    ensures FilterClinics(clinics, q1) == FilterClinics(clinics, q2)
  {
    EqualIgnoringCaseIffSameLower(q1, q2);
    if |clinics| > 0 {
      SearchIgnoresCase(clinics[1..], q1, q2);
    }
  }

  /** Searching the directory for "chicago" finds only the Chicago clinic. */
  lemma ChicagoExample(d: seq<Clinic>, query: string)
    requires d == DirectoryClinics && query == "chicago"
    ensures FilterClinics(d, query) == [d[2]]
    ensures d[2].id == 3
  {
    assert d == [d[0], d[1], d[2]];
    ChicagoSkipsFirst(d, query);
    ChicagoSkipsSecond(d, query);
    ChicagoFindsThird(d, query);
    OnlyLastSelected(d[0], d[1], d[2], query);
  }

  lemma ChicagoSkipsFirst(d: seq<Clinic>, query: string)
    requires d == DirectoryClinics && query == "chicago"
    ensures !Matches(d[0], query)
  {
    LowerChicago();
    HealthyPawsLacksChicago();
    SanFranciscoLacksChicago();
  }

  lemma ChicagoSkipsSecond(d: seq<Clinic>, query: string)
    requires d == DirectoryClinics && query == "chicago"
    ensures !Matches(d[1], query)
  {
    LowerChicago();
    ManhattanLacksChicago();
    NewYorkLacksChicago();
  }

  lemma ChicagoFindsThird(d: seq<Clinic>, query: string)
    requires d == DirectoryClinics && query == "chicago"
    ensures Matches(d[2], query)
  {
    LowerChicago();
    ChicagoWellnessHasChicago();
  }

  lemma OnlyLastSelected(a: Clinic, b: Clinic, c: Clinic, query: string)
    requires !Matches(a, query) && !Matches(b, query) && Matches(c, query)
    ensures FilterClinics([a, b, c], query) == [c]
  {
    assert [c][1..] == [];
    assert FilterClinics([c], query) == [c];
    assert [b, c][1..] == [c];
    assert FilterClinics([b, c], query) == [c];
    assert [a, b, c][1..] == [b, c];
  }

  lemma ChicagoWellnessHasChicago()
    ensures Includes(ToLower("Chicago Pet Wellness"), "chicago")
  {
    PrefixMatch("Chicago Pet Wellness", "chicago");
  }

  lemma LowerChicago()
    ensures ToLower("chicago") == "chicago"
  {
  }

  lemma HealthyPawsLacksChicago()
    ensures !Includes(ToLower("Healthy Paws SF"), "chicago")
  {
    FirstCharAbsent("Healthy Paws SF", "chicago");
  }

  lemma SanFranciscoLacksChicago()
    ensures !Includes(ToLower("San Francisco"), "chicago")
  {
    FirstCharAbsent("San Francisco", "chicago");
  }

  lemma ManhattanLacksChicago()
    ensures !Includes(ToLower("Manhattan Pet Hospital"), "chicago")
  {
    FirstCharAbsent("Manhattan Pet Hospital", "chicago");
  }

  lemma NewYorkLacksChicago()
    ensures !Includes(ToLower("New York"), "chicago")
  {
    FirstCharAbsent("New York", "chicago");
  }

  /** No window of the lower-cased haystack can start with the needle's first character. */
  lemma FirstCharAbsent(haystack: string, needle: string)
    requires |needle| > 0
    requires forall i :: 0 <= i <= |haystack| - |needle| ==> LowerChar(haystack[i]) != needle[0]
    ensures !Includes(ToLower(haystack), needle)
  {
    var h := ToLower(haystack);
    forall i
      ensures !OccursAt(h, needle, i)
    {
      if 0 <= i && i + |needle| <= |h| {
        assert h[i..i + |needle|][0] == h[i];
      }
    }
  }

  /** The lower-cased haystack starts with the needle. */
  lemma PrefixMatch(haystack: string, needle: string)
    requires |needle| <= |haystack|
    requires forall i :: 0 <= i < |needle| ==> LowerChar(haystack[i]) == needle[i]
    ensures Includes(ToLower(haystack), needle)
  {
    var h := ToLower(haystack);
    assert h[0..|needle|] == needle;
    assert OccursAt(h, needle, 0);
  }

  /** `Math.floor(rating)` clamped to the five stars on show. */
  function Clamp(n: int, lo: int, hi: int): int
    requires lo <= hi
  {
    if n < lo then lo else if n > hi then hi else n
  }

  /** `renderStars(rating)`: five stars, star `index` filled iff `index < Math.floor(rating)`. */
  function RenderStars(rating: real): (r: seq<bool>)
    ensures |r| == 5
    ensures forall i :: 0 <= i < 5 ==> (r[i] <==> (i + 1) as real <= rating)
  {
    seq(5, index requires 0 <= index < 5 => index < rating.Floor)
  }

  function CountFilled(stars: seq<bool>): nat
  {
    if |stars| == 0 then 0 else (if stars[0] then 1 else 0) + CountFilled(stars[1..])
  }

  /** A row whose entry `i` is set iff `i < f` has `f` set entries, clamped to the row. */
  lemma {:induction false} CountThreshold(stars: seq<bool>, f: int)
    requires forall i :: 0 <= i < |stars| ==> (stars[i] <==> i < f)
    ensures CountFilled(stars) == Clamp(f, 0, |stars|)
  {
    if |stars| > 0 {
      CountThreshold(stars[1..], f - 1);
    }
  }

  /** The number of filled stars is the rating's floor clamped to 0..5, and the
      filled stars come first. */
  lemma StarsFilled(rating: real)
    ensures CountFilled(RenderStars(rating)) == Clamp(rating.Floor, 0, 5)
    ensures forall i, j :: 0 <= i < j < 5 && RenderStars(rating)[j] ==> RenderStars(rating)[i]
  {
    CountThreshold(RenderStars(rating), rating.Floor);
  }
}
