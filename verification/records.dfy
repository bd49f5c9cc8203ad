/** The immutable records the screens read: the selected pet and a clinic. */
module Records {

  /** A pet profile as the pet context hands it to a screen. Age is in whole
      years; weight is an exact real rather than an IEEE double. */
  datatype Pet = Pet(
    name: string,
    species: string,
    breed: string,
    age: int,
    weight: real,
    medications: seq<string>)

  datatype Location = Location(address: string, city: string, state: string, zip: string)

  /** A clinic record. The directory fixtures carry `services`; the match
      scorer reads `specialties`, so the record has both lists. */
  datatype Clinic = Clinic(
    id: int,
    name: string,
    location: Location,
    rating: real,
    waitTime: string,
    services: seq<string>,
    specialties: seq<string>,
    doctors: int,
    isOpen: bool)
}
