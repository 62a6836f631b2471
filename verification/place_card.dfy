/** The place card's defensive helpers, shared by both front ends: they
    accept a mock place or the back end's dictionary and fill in whatever
    is missing. `getImageUrl` exists only in the second front end. */
module PlaceCard {
  import opened Wrappers
  import opened Strings
  import opened Js
  import opened MapsLink
  import MatchScore

  const Http := "http://"
  const CardPlaceholder := Http + "localhost:8001/api/ai/placeholder/800/400/"
  const DefaultMax := 999
  const AddressMax := 80
  const NoValue := "—"

  function Min(a: int, b: int): int {
    if a <= b then a else b
  }

  /** `text(v, max)`: the value as text, "" when absent, cut to `max`
      characters. */
  function Text(v: Option<string>, max: nat): (r: string)
    ensures |r| == Min(max, |v.GetOr("")|) && |r| <= max
    ensures r == v.GetOr("")[..|r|]
  {
    var s := v.GetOr("");
    s[..Min(max, |s|)]
  }

  /** Cutting twice to the same length is cutting once. */
  lemma TextIdempotent(v: Option<string>, max: nat)
    ensures Text(Some(Text(v, max)), max) == Text(v, max)
  {
  }

  /** Text that already fits is shown whole. */
  lemma TextKeepsShort(s: string, max: nat)
    requires |s| <= max
    ensures Text(Some(s), max) == s
  {
  }

  /** `dollars(n)`: one "$" per price level, at most four, for a positive
      number; a dash otherwise. */
  function Dollars(n: Option<int>): (r: string)
    ensures n.Some? && n.value > 0 ==> r == Repeat('$', Min(4, n.value))
    ensures !(n.Some? && n.value > 0) ==> r == NoValue
    ensures 1 <= |r| <= 4
  {
    if n.Some? && n.value > 0 then Repeat('$', Min(4, n.value)) else NoValue
  }

  /** For the levels Google reports as priced, the card and the back end's
      `format_price_range` write the same label. */
  lemma DollarsAgreesWithBackend(k: int)
    requires 1 <= k <= 4
    ensures Dollars(Some(k)) == MatchScore.FormatPriceRange(Some(k))
  {
  }

  /** Levels above four all read "$$$$". */
  lemma DollarsSaturates(k: int)
    requires k >= 4
    ensures Dollars(Some(k)) == Dollars(Some(4)) == "$$$$"
  {
  }

  /** `priceRange ?? dollars(price_level)`: a given label wins, even an
      empty one. */
  function PriceLabel(priceRange: Option<string>, priceLevel: Option<int>): (r: string)
    ensures priceRange.Some? ==> r == priceRange.value
    ensures priceRange.None? ==> r == Dollars(priceLevel)
  {
    match priceRange
    case Some(given) => given
    case None => Dollars(priceLevel)
  }

  /** `a ?? b`: the first present value. */
  function Coalesce<T>(a: Option<T>, b: Option<T>): (r: Option<T>)
    ensures r.Some? <==> a.Some? || b.Some?
    ensures a.Some? ==> r == a
    ensures a.None? ==> r == b
  {
    if a.Some? then a else b
  }

  /** The address line: `address ?? vicinity`, at most 80 characters. */
  function Address(address: Option<string>, vicinity: Option<string>): (r: string)
    ensures |r| <= AddressMax
    ensures address.Some? ==> r == Text(address, AddressMax)
    ensures address.None? ==> r == Text(vicinity, AddressMax)
  {
    Text(Coalesce(address, vicinity), AddressMax)
  }

  /** The score badge: the mock's `matchScore`, else the back end's
      `match_score`, else 0. A field that is not a number is `None`. */
  function ScoreOf(matchScore: Option<int>, backendScore: Option<int>): (r: int)
    ensures matchScore.Some? ==> r == matchScore.value
    ensures matchScore.None? && backendScore.Some? ==> r == backendScore.value
    ensures matchScore.None? && backendScore.None? ==> r == 0
  {
    Coalesce(matchScore, backendScore).GetOr(0)
  }

  /** The distance field: a number, a string, or anything else. */
  datatype DistanceValue = DistanceNumber(tenths: int) | DistanceText(text: string) | NoDistance

  /** A number of tenths written with one decimal, as `toFixed(1)` writes
      it for such a number. */
  function Tenths(t: int): (r: string)
    ensures '.' in r
  {
    var a := if t < 0 then -t else t;
    var s := NatToString(a / 10) + "." + NatToString(a % 10);
    assert s[|NatToString(a / 10)|] == '.';
    if t < 0 then "-" + s else s
  }

  /** The distance label: a number with one decimal, a string as given,
      otherwise a dash. */
  function DistanceLabel(d: DistanceValue): (r: string)
    ensures d.DistanceText? ==> r == d.text
    ensures d.NoDistance? ==> r == NoValue
    ensures d.DistanceNumber? ==> r == Tenths(d.tenths)
  {
    match d
    case DistanceNumber(t) => Tenths(t)
    case DistanceText(s) => s
    case NoDistance => NoValue
  }

  lemma NoDotInDigits(s: string)
    requires AllDigits(s)
    ensures '.' !in s
  {
  }

  /** A written distance reads back as the same number of tenths. */
  lemma TenthsRoundTrip(t: nat)
    ensures var parts := Split(Tenths(t), '.');
      && |parts| == 2 && AllDigits(parts[0]) && AllDigits(parts[1])
      && ParseNat(parts[0]) * 10 + ParseNat(parts[1]) == t
  {
    var w := NatToString(t / 10);
    var f := NatToString(t % 10);
    NoDotInDigits(w);
    NoDotInDigits(f);
    assert Tenths(t) == w + ['.'] + f;
    SplitCons(w, '.', f);
    ParseNatToString(t / 10);
    ParseNatToString(t % 10);
  }

  /** `imageSrc`: `image`, then `photoUrl`, then the first photo, then the
      placeholder. `photos` is `None` when it is not an array. */
  function ImageSrc(image: Option<string>, photoUrl: Option<string>, photos: Option<seq<string>>): (r: string)
    ensures Truthy(image) ==> r == image.value
    ensures !Truthy(image) && Truthy(photoUrl) ==> r == photoUrl.value
    ensures !Truthy(image) && !Truthy(photoUrl) && photos.Some? && |photos.value| > 0 ==> r == photos.value[0]
    ensures r == CardPlaceholder <== !Truthy(image) && !Truthy(photoUrl) && (photos.None? || |photos.value| == 0)
  {
    if Truthy(image) then image.value
    else if Truthy(photoUrl) then photoUrl.value
    else if photos.Some? && |photos.value| > 0 then photos.value[0]
    else CardPlaceholder
  }

  /** `getImageUrl`: the first photo when it looks like a web address,
      else the placeholder; either way an http URL. */
  function ImageUrl(photos: Option<seq<string>>): (r: string)
    ensures StartsWith(r, "http")
    ensures r == CardPlaceholder || (photos.Some? && |photos.value| > 0 && r == photos.value[0])
    ensures photos.Some? && |photos.value| > 0 && StartsWith(photos.value[0], "http") ==> r == photos.value[0]
  {
    assert StartsWith(CardPlaceholder, "http") by {
      assert CardPlaceholder[..4] == Http[..4];
    }
    if photos.Some? && |photos.value| > 0 && StartsWith(photos.value[0], "http") then photos.value[0]
    else CardPlaceholder
  }

  /** Without `image` or `photoUrl`, the two image rules pick the same
      picture whenever the first photo is a web address or there is none. */
  lemma ImageRulesAgree(photos: Option<seq<string>>)
    requires photos.None? || |photos.value| == 0 || StartsWith(photos.value[0], "http")
    ensures ImageSrc(None, None, photos) == ImageUrl(photos)
  {
  }

  /** The badge colour bands of `getMatchScoreColor`. */
  const TopColor := "bg-appaccent text-white"
  const HighColor := "bg-appprimary text-foreground"
  const BaseColor := "bg-appsecondary text-foreground"

  function ScoreColor(score: int): (c: string)
    ensures score >= 90 <==> c == TopColor
    ensures 80 <= score < 90 <==> c == HighColor
    ensures score < 80 <==> c == BaseColor
  {
    if score >= 90 then TopColor
    else if score >= 80 then HighColor
    else BaseColor
  }

  /** Rank of a colour band, lowest first. */
  function BandRank(c: string): int {
    if c == TopColor then 2 else if c == HighColor then 1 else 0
  }

  /** A higher score never gets a lower band. */
  lemma ScoreColorMonotone(a: int, b: int)
    requires a <= b
    ensures BandRank(ScoreColor(a)) <= BandRank(ScoreColor(b))
  {
  }

  /** Whatever arrives, from the mock data or the back end. */
  datatype CardInput = CardInput(
    id: Option<string>, placeId: Option<string>, name: Option<string>,
    address: Option<string>, vicinity: Option<string>, rating: Option<int>,
    priceRange: Option<string>, priceLevel: Option<int>, distance: DistanceValue,
    matchScore: Option<int>, backendScore: Option<int>, tags: Option<seq<string>>,
    image: Option<string>, photoUrl: Option<string>, photos: Option<seq<string>>,
    lat: Option<int>, lng: Option<int>)

  /** What the card shows. */
  datatype CardView = CardView(
    rating: int, price: string, distance: string, address: string, score: int,
    color: string, tags: seq<string>, image: string, link: Link)

  /** The card's normalisation of every field. */
  function View(c: CardInput): (v: CardView)
    ensures |v.address| <= AddressMax
    ensures v.rating == c.rating.GetOr(0)
    ensures v.price == PriceLabel(c.priceRange, c.priceLevel)
    ensures v.score == ScoreOf(c.matchScore, c.backendScore) && v.color == ScoreColor(v.score)
    ensures v.tags == c.tags.GetOr([])
    ensures v.link == ChooseForCard(c.id, c.placeId, c.name, c.address, c.vicinity, c.lat, c.lng)
  {
    var score := ScoreOf(c.matchScore, c.backendScore);
    CardView(c.rating.GetOr(0), PriceLabel(c.priceRange, c.priceLevel), DistanceLabel(c.distance),
             Address(c.address, c.vicinity), score, ScoreColor(score), c.tags.GetOr([]),
             ImageSrc(c.image, c.photoUrl, c.photos), ChooseForCard(c.id, c.placeId, c.name, c.address, c.vicinity, c.lat, c.lng))
  }

  /** A back end place (no `matchScore`, `priceRange` or `image` of its
      own) shows the back end's score and a label from its price level. */
  lemma BackendPlaceView(c: CardInput)
    requires c.matchScore.None? && c.priceRange.None? && c.backendScore.Some?
    ensures View(c).score == c.backendScore.value
    ensures View(c).price == Dollars(c.priceLevel)
  {
  }
}
