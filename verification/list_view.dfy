/** The list of places with its "Sort by" menu. Sorting works on a copy
    (`[...places].sort(...)`) with JavaScript's stable sort. */
module ListView {
  import opened Strings
  import opened Sorting

  /** The four price bands a mock place can have, "$" to "$$$$". */
  datatype PriceRange = OneDollar | TwoDollars | ThreeDollars | FourDollars

  /** The `priceOrder` table. */
  function PriceOrder(p: PriceRange): (k: int)
    ensures 1 <= k <= 4
    ensures |PriceSymbol(p)| == k
  {
    match p
    case OneDollar => 1
    case TwoDollars => 2
    case ThreeDollars => 3
    case FourDollars => 4
  }

  /** How a band is written. */
  function PriceSymbol(p: PriceRange): (s: string)
    ensures forall i :: 0 <= i < |s| ==> s[i] == '$'
  {
    match p
    case OneDollar => "$"
    case TwoDollars => "$$"
    case ThreeDollars => "$$$"
    case FourDollars => "$$$$"
  }

  /** The table's rank is the number of dollar signs in the band. */
  lemma PriceOrderCountsDollars(p: PriceRange)
    ensures PriceSymbol(p) == Repeat('$', PriceOrder(p))
  {
  }

  /** A mock place; rating and distance in tenths. */
  datatype Place = Place(id: string, name: string, ratingTenths: int, priceRange: PriceRange,
                         distanceTenths: int, matchScore: int)

  datatype SortOption = ByMatchScore | ByDistance | ByRating | ByPrice

  function MatchKey(p: Place): int { p.matchScore }
  function DistanceKey(p: Place): int { p.distanceTenths }
  function RatingKey(p: Place): int { p.ratingTenths }
  function PriceKey(p: Place): int { PriceOrder(p.priceRange) }

  /** The list in the order the menu asks for: best match, best rating
      first; nearest, cheapest first. */
  function SortPlaces(places: seq<Place>, option: SortOption): (r: seq<Place>)
    ensures multiset(r) == multiset(places)
    ensures option == ByMatchScore ==> NonIncreasing(r, MatchKey)
    ensures option == ByRating ==> NonIncreasing(r, RatingKey)
    ensures option == ByDistance ==> NonDecreasing(r, DistanceKey)
    ensures option == ByPrice ==> NonDecreasing(r, PriceKey)
  {
    match option
    case ByMatchScore => SortDesc(places, MatchKey)
    case ByRating => SortDesc(places, RatingKey)
    case ByDistance => SortAsc(places, DistanceKey)
    case ByPrice => SortAsc(places, PriceKey)
  }

  /** "N places found" counts the input, which is what the sorted list
      shows: same places, same number. */
  lemma CountMatchesShown(places: seq<Place>, option: SortOption)
    ensures |SortPlaces(places, option)| == |places|
    ensures forall p :: p in SortPlaces(places, option) <==> p in places
  {
    PermutationLength(SortPlaces(places, option), places);
    PermutationMembers(SortPlaces(places, option), places);
  }

  /** The first place shown is the best by the chosen key. */
  lemma FirstIsBest(places: seq<Place>, option: SortOption, p: Place)
    requires p in places
    ensures var r := SortPlaces(places, option);
      && |r| > 0
      && (option == ByMatchScore ==> r[0].matchScore >= p.matchScore)
      && (option == ByRating ==> r[0].ratingTenths >= p.ratingTenths)
      && (option == ByDistance ==> r[0].distanceTenths <= p.distanceTenths)
      && (option == ByPrice ==> PriceOrder(r[0].priceRange) <= PriceOrder(p.priceRange))
  {
    var r := SortPlaces(places, option);
    CountMatchesShown(places, option);
    var j :| 0 <= j < |r| && r[j] == p;
    assert j == 0 || 0 < j;
  }
}
