/** Which Google Maps page a click on a place opens. The carousels and the
    place cards try, in order: the business profile for a Google place id
    (one beginning "ChIJ"), a search for name and address, the
    coordinates, and finally the Maps home page. */
module MapsLink {
  import opened Wrappers
  import opened Strings
  import opened Js

  datatype Link = Profile(placeId: string) | Search(query: string) | Coordinates(lat: int, lng: int) | Homepage

  /** A present id that Google Maps can open as a business profile. */
  predicate IsPlaceId(id: Option<string>) {
    Truthy(id) && StartsWith(id.value, "ChIJ")
  }

  /** The carousels' choice (`openInGoogleMaps`), given the profile id
      field, name, address and coordinates. */
  function Choose(id: Option<string>, name: Option<string>, address: Option<string>, lat: Option<int>, lng: Option<int>): (link: Link)
    ensures link.Profile? <==> IsPlaceId(id)
    ensures link.Profile? ==> link.placeId == id.value
    ensures link.Search? <==> !IsPlaceId(id) && Truthy(name) && Truthy(address)
    ensures link.Search? ==> link.query == name.value + " " + address.value
    ensures link.Coordinates? ==> TruthyNum(lat) && TruthyNum(lng) && link.lat == lat.value && link.lng == lng.value
    ensures link.Homepage? <==>
      !IsPlaceId(id) && !(Truthy(name) && Truthy(address)) && !(TruthyNum(lat) && TruthyNum(lng))
  {
    if IsPlaceId(id) then Profile(id.value)
    else if Truthy(name) && Truthy(address) then Search(name.value + " " + address.value)
    else if TruthyNum(lat) && TruthyNum(lng) then Coordinates(lat.value, lng.value)
    else Homepage
  }

  /** The place cards' choice: the card's own `id` first, then the back
      end's `place_id`, then name with `address || vicinity`, then the
      coordinates. */
  function ChooseForCard(id: Option<string>, placeId: Option<string>, name: Option<string>,
                         address: Option<string>, vicinity: Option<string>, lat: Option<int>, lng: Option<int>): (link: Link)
    ensures IsPlaceId(id) ==> link == Profile(id.value)
    ensures !IsPlaceId(id) && IsPlaceId(placeId) ==> link == Profile(placeId.value)
    ensures link.Search? ==> Truthy(name) && (Truthy(address) || Truthy(vicinity))
    ensures link.Homepage? ==> !IsPlaceId(id) && !IsPlaceId(placeId)
  {
    if IsPlaceId(id) then Profile(id.value)
    else Choose(placeId, name, Or(address, vicinity), lat, lng)
  }

  // ---- reference: the first applicable candidate -------------------------

  /** The first candidate present, or `otherwise`. */
  function FirstPresent(cs: seq<Option<Link>>, otherwise: Link): (link: Link)
    ensures link == otherwise || exists i :: 0 <= i < |cs| && cs[i] == Some(link)
  {
    if |cs| == 0 then otherwise
    else if cs[0].Some? then cs[0].value
    else FirstPresent(cs[1..], otherwise)
  }

  function ProfileCandidate(id: Option<string>): Option<Link> {
    if IsPlaceId(id) then Some(Profile(id.value)) else None
  }

  function SearchCandidate(name: Option<string>, address: Option<string>): Option<Link> {
    if Truthy(name) && Truthy(address) then Some(Search(name.value + " " + address.value)) else None
  }

  function CoordinatesCandidate(lat: Option<int>, lng: Option<int>): Option<Link> {
    if TruthyNum(lat) && TruthyNum(lng) then Some(Coordinates(lat.value, lng.value)) else None
  }

  /** The carousel choice is the first applicable of the three candidates. */
  lemma ChooseIsFirstCandidate(id: Option<string>, name: Option<string>, address: Option<string>, lat: Option<int>, lng: Option<int>)
    ensures Choose(id, name, address, lat, lng)
      == FirstPresent([ProfileCandidate(id), SearchCandidate(name, address), CoordinatesCandidate(lat, lng)], Homepage)
  {
    var cs := [ProfileCandidate(id), SearchCandidate(name, address), CoordinatesCandidate(lat, lng)];
    assert cs[1..] == [SearchCandidate(name, address), CoordinatesCandidate(lat, lng)];
    assert cs[1..][1..] == [CoordinatesCandidate(lat, lng)];
    assert cs[1..][1..][1..] == [];
    assert FirstPresent(cs[1..][1..][1..], Homepage) == Homepage;
    assert FirstPresent(cs[1..][1..], Homepage) == CoordinatesCandidate(lat, lng).GetOr(Homepage);
  }

  /** The card choice is the first applicable of the four candidates. */
  lemma ChooseForCardIsFirstCandidate(id: Option<string>, placeId: Option<string>, name: Option<string>,
                                      address: Option<string>, vicinity: Option<string>, lat: Option<int>, lng: Option<int>)
    ensures ChooseForCard(id, placeId, name, address, vicinity, lat, lng)
      == FirstPresent([ProfileCandidate(id), ProfileCandidate(placeId), SearchCandidate(name, Or(address, vicinity)),
                       CoordinatesCandidate(lat, lng)], Homepage)
  {
    var cs := [ProfileCandidate(id), ProfileCandidate(placeId), SearchCandidate(name, Or(address, vicinity)),
               CoordinatesCandidate(lat, lng)];
    assert cs[1..] == [ProfileCandidate(placeId), SearchCandidate(name, Or(address, vicinity)), CoordinatesCandidate(lat, lng)];
    ChooseIsFirstCandidate(placeId, name, Or(address, vicinity), lat, lng);
  }

  // ---- URLs --------------------------------------------------------------

  const ProfilePrefix := "https://www.google.com/maps/place/?q=place_id:"
  const SearchPrefix := "https://www.google.com/maps/search/"
  const CoordinatesPrefix := "https://www.google.com/maps?q="
  const HomeUrl := "https://www.google.com/maps"

  /** The URL opened for a link; `encode` is `encodeURIComponent` and
      `show` the number-to-text conversion, both left abstract. */
  function Url(link: Link, encode: string -> string, show: int -> string): (url: string)
    ensures StartsWith(url, HomeUrl)
  {
    match link
    case Profile(id) => ProfilePrefix + id
    case Search(q) => SearchPrefix + encode(q)
    case Coordinates(lat, lng) => CoordinatesPrefix + show(lat) + "," + show(lng)
    case Homepage => HomeUrl
  }

  /** The place id in a profile URL, if the URL is one. */
  function ProfileIdOf(url: string): (id: Option<string>)
    ensures id.Some? ==> url == ProfilePrefix + id.value
  {
    if StartsWith(url, ProfilePrefix) then Some(url[|ProfilePrefix|..]) else None
  }

  /** Profile URLs give back their place id, and no other kind of link
      produces a URL that reads as a profile. */
  lemma ProfileUrlRoundTrip(link: Link, encode: string -> string, show: int -> string)
    ensures link.Profile? ==> ProfileIdOf(Url(link, encode, show)) == Some(link.placeId)
    ensures !link.Profile? ==> ProfileIdOf(Url(link, encode, show)) == None
  {
    var url := Url(link, encode, show);
    match link
    case Profile(id) =>
      assert url[..|ProfilePrefix|] == ProfilePrefix;
    case Search(q) =>
      assert url[28] == 's' && ProfilePrefix[28] == 'p';
    case Coordinates(_, _) =>
      assert url[27] == '?' && ProfilePrefix[27] == '/';
    case Homepage =>
      assert |url| < |ProfilePrefix|;
  }
}
