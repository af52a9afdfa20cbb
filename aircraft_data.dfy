/** The dataset's record type and the numeric attributes a plot axis can show. */
module AircraftData {

  /** One aircraft of the dataset (`AircraftRecord`). C# `float` fields are reals here. */
  datatype AircraftRecord = AircraftRecord(
    name: string,
    primaryRole: string,
    manufacturer: string,
    country: string,
    number: real,
    activeSince: real,
    lastBuilt: real,
    retired: real,
    state: string,
    crew: int,
    length: real,
    wingspan: real,
    height: real,
    wingArea: real,
    maxSpeed: real)

  /** `NumericAttribute`: the six members the scripts name, and any other value
      of the enum (a dropdown index cast to it), carried with the name that
      `ToString()` gives it. */
  datatype NumericAttribute =
    | ActiveSince
    | MaxSpeed
    | Number
    | Wingspan
    | Length
    | Crew
    | Other(enumName: string)

  /** The attribute is one of the six that `GetValue` reads. */
  predicate Known(attr: NumericAttribute)
  {
    !attr.Other?
  }

  /** `GetValue`: the record's value for the attribute; 0 for any attribute it does not know. */
  function GetValue(r: AircraftRecord, attr: NumericAttribute): (v: real)
    ensures !Known(attr) ==> v == 0.0
    ensures attr == Crew ==> v == r.crew as real
  {
    match attr
    case ActiveSince => r.activeSince
    case MaxSpeed => r.maxSpeed
    case Number => r.number
    case Wingspan => r.wingspan
    case Length => r.length
    case Crew => r.crew as real
    case Other(_) => 0.0
  }

  /** `GetAttributeDisplayName`: the axis caption for an attribute. */
  function DisplayName(attr: NumericAttribute): (name: string)
    ensures Known(attr) ==> |name| > 0
    ensures !Known(attr) ==> name == attr.enumName
  {
    match attr
    case ActiveSince => "Active Since"
    case MaxSpeed => "Max Speed"
    case Number => "Number Built"
    case Wingspan => "Wingspan"
    case Length => "Length"
    case Crew => "Crew"
    case Other(n) => n
  }

  /** The six known attributes get pairwise different captions, so the three
      axis captions tell the chosen attributes apart. */
  lemma DisplayNamesDistinct(a: NumericAttribute, b: NumericAttribute)
    requires Known(a) && Known(b) && a != b
    ensures DisplayName(a) != DisplayName(b)
  {
    assert DisplayName(a)[0] != DisplayName(b)[0] || |DisplayName(a)| != |DisplayName(b)|;
  }
}
