/** Destinations: the value types of the catalogue and the built-in sample data. */
module Destinations {

  /** A UUID, identified with its canonical `uuidString` form (the two determine each other). */
  datatype Uuid = Uuid(uuidString: string)

  datatype Coordinate = Coordinate(latitude: real, longitude: real)

  /** A string-backed enum: each case has a fixed raw value. */
  datatype PriceRange = Budget | Mid | Premium | Luxury

  /** `PriceRange.allCases`, in declaration order. */
  const AllPriceRanges: seq<PriceRange> := [Budget, Mid, Premium, Luxury]

  function RawValue(p: PriceRange): string
  {
    match p
    case Budget => "$"
    case Mid => "$$"
    case Premium => "$$$"
    case Luxury => "$$$$"
  }

  /** The failable `PriceRange(rawValue:)` initialiser every string-backed enum gets. */
  function PriceRangeFromRaw(raw: string): (r: PriceRangeLookup)
    ensures r.Found? ==> RawValue(r.range) == raw
  {
    if raw == "$" then Found(Budget)
    else if raw == "$$" then Found(Mid)
    else if raw == "$$$" then Found(Premium)
    else if raw == "$$$$" then Found(Luxury)
    else NotFound
  }

  datatype PriceRangeLookup = NotFound | Found(range: PriceRange)

  /** Every case is listed once in `allCases`, and the raw values are pairwise distinct. */
  lemma PriceRangeCases()
    ensures forall p: PriceRange :: p in AllPriceRanges
    ensures forall i, j :: 0 <= i < j < |AllPriceRanges| ==>
      RawValue(AllPriceRanges[i]) != RawValue(AllPriceRanges[j])
  {
    forall p: PriceRange ensures p in AllPriceRanges {
      match p
      case Budget => assert AllPriceRanges[0] == p;
      case Mid => assert AllPriceRanges[1] == p;
      case Premium => assert AllPriceRanges[2] == p;
      case Luxury => assert AllPriceRanges[3] == p;
    }
  }

  /** Reading a raw value back gives the case it came from. */
  lemma PriceRangeRoundTrip(p: PriceRange)
    ensures PriceRangeFromRaw(RawValue(p)) == Found(p)
  {
  }

  datatype Destination = Destination(
    id: Uuid,
    name: string,
    country: string,
    tagline: string,
    description: string,
    imageName: string,
    coordinate: Coordinate,
    priceRange: PriceRange,
    tags: seq<string>)

  /** The sample catalogue. Each `UUID()` of the source is a fixed, distinct placeholder here. */
  const Samples: seq<Destination> := [
    Destination(
      Uuid("00000000-0000-4000-8000-000000000001"),
      "Kyoto",
      "Japan",
      "Ancient temples, modern calm",
      "Traditional temples, bamboo groves, and zen gardens set against a backdrop of mountains. Kyoto offers a window into Japan's cultural heritage.",
      "kyoto",
      Coordinate(35.0116, 135.7681),
      Mid,
      ["culture", "temples", "nature"]),
    Destination(
      Uuid("00000000-0000-4000-8000-000000000002"),
      "Santorini",
      "Greece",
      "White walls, blue domes",
      "Iconic caldera views, whitewashed villages perched on volcanic cliffs. Sunsets here are something else entirely.",
      "santorini",
      Coordinate(36.3932, 25.4615),
      Premium,
      ["beach", "romantic", "photography"]),
    Destination(
      Uuid("00000000-0000-4000-8000-000000000003"),
      "Marrakech",
      "Morocco",
      "Colors, spices, chaos",
      "Vibrant souks, ornate riads, and the Atlas Mountains on the horizon. A sensory overload in the best way.",
      "marrakech",
      Coordinate(31.6295, -7.9811),
      Budget,
      ["culture", "food", "adventure"]),
    Destination(
      Uuid("00000000-0000-4000-8000-000000000004"),
      "Reykjavik",
      "Iceland",
      "Fire and ice",
      "Gateway to glaciers, geysers, and the northern lights. Raw, dramatic landscapes that feel otherworldly.",
      "reykjavik",
      Coordinate(64.1466, -21.9426),
      Premium,
      ["nature", "adventure", "photography"]),
    Destination(
      Uuid("00000000-0000-4000-8000-000000000005"),
      "Lisbon",
      "Portugal",
      "Tiles, trams, pastéis",
      "Hilly streets, azulejo facades, and a food scene that punches way above its weight. Affordable and full of character.",
      "lisbon",
      Coordinate(38.7223, -9.1393),
      Budget,
      ["food", "culture", "nightlife"])
  ]

  /** No two entries of `ds` share an id. */
  predicate DistinctIds(ds: seq<Destination>)
  {
    forall i, j :: 0 <= i < j < |ds| ==> ds[i].id != ds[j].id
  }

  predicate ValidCoordinate(c: Coordinate)
  {
    -90.0 <= c.latitude <= 90.0 && -180.0 <= c.longitude <= 180.0
  }

  /** The price ranges that occur in `ds`. */
  function PriceRangesOf(ds: seq<Destination>): (r: set<PriceRange>)
    ensures forall i :: 0 <= i < |ds| ==> ds[i].priceRange in r
    ensures forall p :: p in r ==> exists i :: 0 <= i < |ds| && ds[i].priceRange == p
  {
    set i | 0 <= i < |ds| :: ds[i].priceRange
  }

  /** The catalogue is non-empty: five entries. */
  lemma SamplesCount()
    ensures |Samples| == 5
  {
  }

  /** No two sample entries share an id. */
  lemma SamplesHaveDistinctIds()
    ensures DistinctIds(Samples)
  {
  }

  /** Every sample coordinate is a valid latitude and longitude. */
  lemma SamplesHaveValidCoordinates()
    ensures forall i :: 0 <= i < |Samples| ==> ValidCoordinate(Samples[i].coordinate)
  {
  }

  /** Every sample has at least one tag. */
  lemma SamplesHaveTags()
    ensures forall i :: 0 <= i < |Samples| ==> |Samples[i].tags| >= 1
  {
  }

  /** The samples cover at least two price ranges. */
  lemma SamplesCoverPriceRanges()
    ensures |PriceRangesOf(Samples)| >= 2
  {
    var ranges := PriceRangesOf(Samples);
    assert Samples[0].priceRange == Mid && Samples[1].priceRange == Premium;
    assert {Mid, Premium} <= ranges;
    assert |{Mid, Premium}| == 2;
    SubsetCardinality({Mid, Premium}, ranges);
  }

  lemma SubsetCardinality<T>(a: set<T>, b: set<T>)
    requires a <= b
    ensures |a| <= |b|
  {
    assert b == a + (b - a);
  }
}
