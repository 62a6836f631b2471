/** The "Top Rated Places" carousel of the first front end: the six best
    rated places from the places endpoint, shown three at a time, with
    arrows that stop at either end and an autoplay that wraps around. */
module TopCarousel {
  import opened Wrappers
  import opened Js
  import opened Sorting
  import opened MapsLink

  /** A place as the endpoint returns it; every field may be missing.
      Ratings and distances are in tenths, coordinates in micro-degrees. */
  datatype ApiPlace = ApiPlace(
    id: Option<string>, placeId: Option<string>, name: Option<string>, vicinity: Option<string>,
    rating: Option<int>, priceRange: Option<string>, distance: Option<int>,
    photos: Option<seq<string>>, lat: Option<int>, lng: Option<int>)

  /** A carousel entry after normalisation. */
  datatype TopPlace = TopPlace(
    id: Option<string>, placeId: Option<string>, name: Option<string>, address: string,
    rating: int, priceLevel: string, distance: int, photos: seq<string>, lat: Option<int>, lng: Option<int>)

  const MaxTop := 6
  const PerView := 3
  const NoAddress := "Address not available"
  const DefaultPrice := "$$"

  /** The sort key `place.rating || 0`. */
  function RatingKey(p: ApiPlace): int {
    OrNum(p.rating, 0)
  }

  /** Field defaults: each of `id` and `place_id` stands in for the other,
      and address, rating, price, distance and photos get fixed defaults. */
  function Normalise(p: ApiPlace): (t: TopPlace)
    ensures t.rating == RatingKey(p)
    ensures t.address == OrStr(p.vicinity, NoAddress) && t.address != ""
    ensures t.priceLevel == OrStr(p.priceRange, DefaultPrice) && t.priceLevel != ""
    ensures t.distance == OrNum(p.distance, 0)
    ensures t.photos == p.photos.GetOr([])
    ensures t.name == p.name && t.lat == p.lat && t.lng == p.lng
  {
    TopPlace(Or(p.id, p.placeId), Or(p.placeId, p.id), p.name, OrStr(p.vicinity, NoAddress),
             OrNum(p.rating, 0), OrStr(p.priceRange, DefaultPrice), OrNum(p.distance, 0),
             p.photos.GetOr([]), p.lat, p.lng)
  }

  /** After normalisation an entry has an id exactly when it has a place id,
      and when only one was given both carry it. */
  lemma NormaliseIds(p: ApiPlace)
    ensures Truthy(Normalise(p).id) <==> Truthy(Normalise(p).placeId)
    ensures Truthy(p.id) && !Truthy(p.placeId) ==> Normalise(p).placeId == p.id
    ensures Truthy(p.placeId) && !Truthy(p.id) ==> Normalise(p).id == p.placeId
  {
  }

  function Min(a: int, b: int): int {
    if a <= b then a else b
  }

  function Max(a: int, b: int): int {
    if a >= b then a else b
  }

  /** The chosen places before normalisation: the first six after a stable
      sort by rating, highest first. */
  function TopRaw(places: seq<ApiPlace>): (top: seq<ApiPlace>)
    ensures |top| == Min(MaxTop, |places|)
    ensures NonIncreasing(top, RatingKey)
    ensures forall p :: p in top ==> p in places
    ensures multiset(top) <= multiset(places)
  {
    var sorted := SortDesc(places, RatingKey);
    PermutationLength(sorted, places);
    PermutationMembers(sorted, places);
    var n := Min(MaxTop, |sorted|);
    assert sorted == sorted[..n] + sorted[n..];
    assert multiset(sorted) == multiset(sorted[..n]) + multiset(sorted[n..]);
    sorted[..n]
  }

  /** Ties keep the input order: among places with the same rating, the
      ones kept are the first ones of the input, in input order. */
  lemma TopRawStable(places: seq<ApiPlace>, k: int)
    ensures var c := KeyClass(TopRaw(places), RatingKey, k);
      |c| <= |KeyClass(places, RatingKey, k)| && c == KeyClass(places, RatingKey, k)[..|c|]
  {
    var sorted := SortDesc(places, RatingKey);
    PermutationLength(sorted, places);
    SortDescStable(places, RatingKey, k);
    KeyClassPrefix(sorted, Min(MaxTop, |places|), RatingKey, k);
  }

  /** No place left out of the top list is rated above one in it. */
  lemma TopRawIsBest(places: seq<ApiPlace>, p: ApiPlace, q: ApiPlace)
    requires p in places && p !in TopRaw(places) && q in TopRaw(places)
    ensures RatingKey(q) >= RatingKey(p)
  {
    var sorted := SortDesc(places, RatingKey);
    var n := Min(MaxTop, |places|);
    PermutationLength(sorted, places);
    PermutationMembers(sorted, places);
    assert sorted == sorted[..n] + sorted[n..];
    assert p in sorted[n..];
    PrefixDominates(sorted, RatingKey, n, q, p);
  }

  /** The carousel contents: the top six, normalised, still in rating
      order. */
  function TopPlaces(places: seq<ApiPlace>): (r: seq<TopPlace>)
    ensures |r| == Min(MaxTop, |places|) && |r| <= MaxTop
    ensures forall i :: 0 <= i < |r| ==> r[i] == Normalise(TopRaw(places)[i])
    ensures forall i, j :: 0 <= i < j < |r| ==> r[i].rating >= r[j].rating
  {
    var top := TopRaw(places);
    seq(|top|, i requires 0 <= i < |top| => Normalise(top[i]))
  }

  // ---- position ----------------------------------------------------------

  /** Largest first visible position reachable with the arrows. */
  function MaxIndex(n: nat): nat {
    Max(0, n - PerView)
  }

  /** Number of navigation dots, `max(1, n - 2)`. */
  function DotCount(n: nat): nat {
    Max(1, n - 2)
  }

  /** A position one of the dots stands for. */
  predicate ValidIndex(i: nat, n: nat) {
    i < DotCount(n)
  }

  /** The right arrow: one step on, stopping at the last full view. */
  function Next(i: nat, n: nat): (r: nat)
    ensures r <= MaxIndex(n)
    ensures i <= MaxIndex(n) ==> i <= r <= i + 1
    ensures i <= MaxIndex(n) ==> (r == i + 1 <==> i < MaxIndex(n))
  {
    Min(i + 1, MaxIndex(n))
  }

  /** The left arrow: one step back, stopping at 0. */
  function Prev(i: nat): (r: nat)
    ensures r <= i && i <= r + 1
    ensures r == i <==> i == 0
  {
    Max(i - 1, 0)
  }

  /** One autoplay tick; with no places the timer is not running. */
  function Autoplay(i: nat, n: nat): (r: nat)
    ensures n > 0 ==> ValidIndex(r, n)
  {
    if n == 0 then i else (i + 1) % DotCount(n)
  }

  /** Clicking dot `k`. */
  function DotClick(k: nat, n: nat): (r: nat)
    requires k < DotCount(n)
    ensures r == k && ValidIndex(r, n)
  {
    k
  }

  /** The dots cover exactly the positions the arrows can reach. */
  lemma DotsMatchArrows(n: nat)
    ensures DotCount(n) == MaxIndex(n) + 1
  {
  }

  /** Every control keeps the position among the dots. */
  lemma IndexStaysValid(i: nat, n: nat, k: nat)
    requires ValidIndex(i, n) && k < DotCount(n)
    ensures ValidIndex(Next(i, n), n)
    ensures ValidIndex(Prev(i), n)
    ensures ValidIndex(DotClick(k, n), n)
    ensures n > 0 ==> ValidIndex(Autoplay(i, n), n)
  {
  }

  /** Autoplay moves like the right arrow, except that from the last view
      it wraps to the first. */
  lemma AutoplayIsNextOrWrap(i: nat, n: nat)
    requires n > 0 && ValidIndex(i, n)
    ensures Autoplay(i, n) == (if i == MaxIndex(n) then 0 else Next(i, n))
  {
  }

  /** The arrows are enabled exactly when pressing them moves. */
  predicate CanGoNext(i: nat, n: nat) {
    i < n - PerView
  }

  predicate CanGoPrev(i: nat) {
    i > 0
  }

  lemma ArrowsEnabledIffTheyMove(i: nat, n: nat)
    requires ValidIndex(i, n)
    ensures CanGoNext(i, n) <==> Next(i, n) != i
    ensures CanGoPrev(i) <==> Prev(i) != i
  {
  }

  /** `topPlaces.slice(i, i + 3)`. */
  function VisibleSlice<T>(s: seq<T>, i: nat): (v: seq<T>)
    ensures |v| <= PerView
    ensures i + PerView <= |s| ==> v == s[i..i + PerView]
    ensures i >= |s| ==> v == []
  {
    var lo := Min(i, |s|);
    var hi := Min(i + PerView, |s|);
    s[lo..hi]
  }

  /** From any dot position a list of three or more shows a full view. */
  lemma FullViews<T>(s: seq<T>, i: nat)
    requires ValidIndex(i, |s|) && |s| >= PerView
    ensures |VisibleSlice(s, i)| == PerView
  {
  }

  // ---- maps link ----------------------------------------------------------

  /** `openInGoogleMaps` for a carousel entry. */
  function LinkFor(t: TopPlace): (link: Link)
    ensures link.Profile? <==> IsPlaceId(t.placeId)
    ensures link.Coordinates? && t.address != "" ==> !Truthy(t.name)
  {
    Choose(t.placeId, t.name, Some(t.address), t.lat, t.lng)
  }

  /** Because normalisation always fills in an address, a named place that
      is not a Google place opens a search, never its coordinates. */
  lemma NamedPlacesAreSearched(p: ApiPlace)
    requires Truthy(p.name) && !IsPlaceId(Normalise(p).placeId)
    ensures LinkFor(Normalise(p)) == Search(p.name.value + " " + Normalise(p).address)
  {
  }
}
