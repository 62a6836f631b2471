/** The back end's place ranking: the points-based match score, the price
    label, the photo URL list and the skip-and-sort pass over the nearby
    search results.

    Ratings and distances are integers in tenths (Google ratings have one
    decimal and the distance helper rounds to one decimal), so every
    threshold comparison is exact. The distance itself (a haversine in
    miles) is an input. */
module MatchScore {
  import opened Wrappers
  import opened Strings
  import opened Sorting

  /** The fields of a search result the score reads. `priceLevel` is `None`
      when the key is absent, which reads as 2. */
  datatype PlaceInfo = PlaceInfo(
    ratingTenths: int,
    name: string,
    types: seq<string>,
    priceLevel: Option<int>,
    wifi: bool)

  /** The user context the request handler builds. */
  datatype UserContext = UserContext(
    hour: int,
    sentiment: string,
    budget: string,
    vibe: string,
    specialNeeds: seq<string>,
    specialOccasion: string,
    weather: string)

  /** `request.GET.get(name, default)`: the query value when the parameter
      is present, the default otherwise. */
  function Param(query: map<string, string>, name: string, default: string): (v: string)
    ensures name in query ==> v == query[name]
    ensures name !in query ==> v == default
  {
    if name in query then query[name] else default
  }

  /** The context the request handler builds for every place: the current
      hour (read from the clock, here a parameter) and the query parameters
      with their defaults. `special_needs` is a comma-separated list, and
      a missing or empty parameter gives no needs. */
  function ContextFromRequest(hour: int, query: map<string, string>): (ctx: UserContext)
    ensures ctx.hour == hour
    ensures ctx.sentiment == Param(query, "sentiment", "neutral")
    ensures ctx.budget == Param(query, "budget", "medium")
    ensures ctx.vibe == Param(query, "vibe", "any")
    ensures ctx.specialOccasion == Param(query, "special_occasion", "none")
    ensures ctx.weather == Param(query, "weather", "sunny")
    ensures ("special_needs" in query && query["special_needs"] != "") ==> ctx.specialNeeds == Split(query["special_needs"], ',')
    ensures ("special_needs" !in query || query["special_needs"] == "") ==> ctx.specialNeeds == []
  {
    var needs := Param(query, "special_needs", "");
    UserContext(
      hour,
      Param(query, "sentiment", "neutral"),
      Param(query, "budget", "medium"),
      Param(query, "vibe", "any"),
      if needs != "" then Split(needs, ',') else [],
      Param(query, "special_occasion", "none"),
      Param(query, "weather", "sunny"))
  }

  /** A request without parameters is scored with a neutral mood, a medium
      budget, any vibe, no needs, no occasion and sunny weather. */
  lemma EmptyRequestDefaults(hour: int)
    ensures ContextFromRequest(hour, map[]) == UserContext(hour, "neutral", "medium", "any", [], "none", "sunny")
  {
  }

  /** A single special need without a comma comes through as itself, and a
      comma-separated pair as its two pieces. */
  lemma NeedsFromRequest(hour: int, query: map<string, string>, a: string, b: string)
    requires ',' !in a && ',' !in b
    ensures "special_needs" in query && query["special_needs"] == a && a != "" ==>
      ContextFromRequest(hour, query).specialNeeds == [a]
    ensures "special_needs" in query && query["special_needs"] == a + [','] + b ==>
      ContextFromRequest(hour, query).specialNeeds == [a, b]
  {
    SplitCons(a, ',', b);
  }

  function PriceLevelOr2(p: PlaceInfo): int {
    p.priceLevel.GetOr(2)
  }

  // ---- the components --------------------------------------------------

  /** Rating points: nothing for an unrated place, then 10/15/20/25/30 at
      3.5/4.0/4.5/4.8. */
  function RatingPoints(ratingTenths: int): (pts: int)
    ensures ratingTenths <= 0 ==> pts == 0
    ensures 0 < ratingTenths < 35 ==> pts == 10
    ensures 35 <= ratingTenths < 40 ==> pts == 15
    ensures 40 <= ratingTenths < 45 ==> pts == 20
    ensures 45 <= ratingTenths < 48 ==> pts == 25
    ensures 48 <= ratingTenths ==> pts == 30
  {
    if ratingTenths > 0 then
      if ratingTenths >= 48 then 30
      else if ratingTenths >= 45 then 25
      else if ratingTenths >= 40 then 20
      else if ratingTenths >= 35 then 15
      else 10
    else 0
  }

  /** A better rating never earns fewer rating points. */
  lemma RatingMonotone(a: int, b: int)
    requires a <= b
    ensures RatingPoints(a) <= RatingPoints(b)
  {
  }

  const QuietWords: seq<string> := ["zen", "quiet", "peaceful", "calm", "serene", "tranquil"]
  const SocialWords: seq<string> := ["social", "bar", "rooftop", "trendy", "vibrant", "lively"]
  const WorkWords: seq<string> := ["study", "work", "focus", "quiet", "concentration", "library"]

  function Points(cond: bool, pts: int): int {
    if cond then pts else 0
  }

  /** Mood points for the three mood groups; other moods earn none. Each
      group adds 20 for a name word, 15 for a place type and 10 for a third
      feature of the place. */
  function SentimentPoints(sentiment: string, p: PlaceInfo, lname: string): (pts: int)
    ensures 0 <= pts <= 45
    ensures sentiment in ["stressed", "tired", "calm"] ==> (pts ==
      (if ContainsAny(lname, QuietWords) then 20 else 0)
      + (if "park" in p.types || "garden" in p.types then 15 else 0)
      + (if p.ratingTenths >= 45 then 10 else 0))
    ensures sentiment in ["excited", "happy", "social"] ==> (pts ==
      (if ContainsAny(lname, SocialWords) then 20 else 0)
      + (if "bar" in p.types || "nightclub" in p.types then 15 else 0)
      + (if PriceLevelOr2(p) == 2 || PriceLevelOr2(p) == 3 then 10 else 0))
    ensures sentiment in ["focused", "study", "work"] ==> (pts ==
      (if ContainsAny(lname, WorkWords) then 20 else 0)
      + (if "library" in p.types || "cafe" in p.types then 15 else 0)
      + (if p.wifi then 10 else 0))
    ensures sentiment !in ["stressed", "tired", "calm", "excited", "happy", "social", "focused", "study", "work"] ==> pts == 0
  {
    if sentiment in ["stressed", "tired", "calm"] then
      Points(ContainsAny(lname, QuietWords), 20)
      + Points("park" in p.types || "garden" in p.types, 15)
      + Points(p.ratingTenths >= 45, 10)
    else if sentiment in ["excited", "happy", "social"] then
      Points(ContainsAny(lname, SocialWords), 20)
      + Points("bar" in p.types || "nightclub" in p.types, 15)
      + Points(PriceLevelOr2(p) in [2, 3], 10)
    else if sentiment in ["focused", "study", "work"] then
      Points(ContainsAny(lname, WorkWords), 20)
      + Points("library" in p.types || "cafe" in p.types, 15)
      + Points(p.wifi, 10)
    else 0
  }

  /** The four parts of the day, the first matching range winning. */
  datatype DayPart = Morning | Lunch | Evening | Night | Off

  function PartOfDay(hour: int): (d: DayPart)
    ensures 6 <= hour <= 11 <==> d == Morning
    ensures 11 < hour <= 16 <==> d == Lunch
    ensures 16 < hour <= 21 <==> d == Evening
    ensures (21 < hour || hour <= 2) <==> d == Night
    ensures (2 < hour < 6) <==> d == Off
  {
    if 6 <= hour <= 11 then Morning
    else if 11 <= hour <= 16 then Lunch
    else if 16 <= hour <= 21 then Evening
    else if 21 <= hour || hour <= 2 then Night
    else Off
  }

  /** Time-of-day points for the place types that suit that part of the
      day. */
  function TimePoints(hour: int, types: seq<string>): (pts: int)
    ensures 0 <= pts <= 35
    ensures PartOfDay(hour) == Morning ==> (pts ==
      (if "breakfast" in types || "coffee" in types then 20 else 0) + (if "bakery" in types then 15 else 0))
    ensures PartOfDay(hour) == Lunch ==> (pts ==
      (if "restaurant" in types || "cafe" in types then 20 else 0) + (if "lunch" in types then 15 else 0))
    ensures PartOfDay(hour) == Evening ==> (pts ==
      (if "dinner" in types || "bar" in types then 20 else 0) + (if "rooftop" in types then 15 else 0))
    ensures PartOfDay(hour) == Night ==> (pts ==
      (if "bar" in types || "nightclub" in types then 20 else 0) + (if "late_night" in types then 15 else 0))
    ensures PartOfDay(hour) == Off ==> pts == 0
  {
    match PartOfDay(hour)
    case Morning => Points("breakfast" in types || "coffee" in types, 20) + Points("bakery" in types, 15)
    case Lunch => Points("restaurant" in types || "cafe" in types, 20) + Points("lunch" in types, 15)
    case Evening => Points("dinner" in types || "bar" in types, 20) + Points("rooftop" in types, 15)
    case Night => Points("bar" in types || "nightclub" in types, 20) + Points("late_night" in types, 15)
    case Off => 0
  }

  /** Hours 3 to 5 earn no time points, and the boundary hours 11, 16 and
      21 belong to the earlier range. */
  lemma TimeBoundaries(types: seq<string>, hour: int)
    requires 3 <= hour <= 5
    ensures TimePoints(hour, types) == 0
    ensures PartOfDay(11) == Morning && PartOfDay(16) == Lunch && PartOfDay(21) == Evening
    ensures PartOfDay(12) == Lunch && PartOfDay(2) == Night && PartOfDay(23) == Night
  {
  }

  /** Budget points: 20 when the price level suits the budget. */
  function BudgetPoints(budget: string, priceLevel: int): (pts: int)
    ensures pts == 0 || pts == 20
    ensures pts == 20 <==>
      (budget == "low" && priceLevel <= 1)
      || (budget == "medium" && (priceLevel == 1 || priceLevel == 2))
      || (budget == "high" && priceLevel >= 3)
  {
    if budget == "low" && priceLevel <= 1 then 20
    else if budget == "medium" && priceLevel in [1, 2] then 20
    else if budget == "high" && priceLevel >= 3 then 20
    else 0
  }

  /** Atmosphere points: 20 when the name carries a word of the wanted
      vibe. */
  function VibePoints(vibe: string, lname: string): (pts: int)
    ensures pts == 0 || pts == 20
    ensures pts == 20 <==>
      (vibe == "cozy" && ContainsAny(lname, ["cozy", "warm", "intimate"]))
      || (vibe == "trendy" && ContainsAny(lname, ["trendy", "modern", "hip"]))
      || (vibe == "quiet" && ContainsAny(lname, ["quiet", "peaceful", "serene"]))
    ensures vibe !in ["cozy", "trendy", "quiet"] ==> pts == 0
  {
    if vibe == "cozy" && ContainsAny(lname, ["cozy", "warm", "intimate"]) then 20
    else if vibe == "trendy" && ContainsAny(lname, ["trendy", "modern", "hip"]) then 20
    else if vibe == "quiet" && ContainsAny(lname, ["quiet", "peaceful", "serene"]) then 20
    else 0
  }

  /** 15 points per special need the place meets. */
  function NeedsPoints(needs: seq<string>, p: PlaceInfo): (pts: int)
    ensures 0 <= pts <= 45
    ensures pts ==
      (if "wifi" in needs && p.wifi then 15 else 0)
      + (if "outdoor_seating" in needs && "outdoor_seating" in p.types then 15 else 0)
      + (if "accessible" in needs && "wheelchair_accessible" in p.types then 15 else 0)
    ensures needs == [] ==> pts == 0
  {
    Points("wifi" in needs && p.wifi, 15)
    + Points("outdoor_seating" in needs && "outdoor_seating" in p.types, 15)
    + Points("accessible" in needs && "wheelchair_accessible" in p.types, 15)
  }

  const MatchaWords: seq<string> := ["matcha", "green tea", "tea house", "tea room", "japanese", "asian"]

  lemma MatchaIsMatchaWord(lname: string)
    ensures Contains(lname, "matcha") ==> ContainsAny(lname, MatchaWords)
  {
    if Contains(lname, "matcha") {
      ContainsAnyWitness(lname, MatchaWords, 0);
    }
  }

  /** Matcha points: 5 for the first matcha-ish word found, 10 more for
      "matcha" itself, capped at 15. */
  function MatchaPoints(lname: string): (pts: int)
    ensures 0 <= pts <= 15
    ensures pts == 15 <==> Contains(lname, "matcha")
    ensures pts == 5 <==> !Contains(lname, "matcha") && ContainsAny(lname, MatchaWords)
    ensures pts == 0 <==> !ContainsAny(lname, MatchaWords)
  {
    var first := if ContainsAny(lname, MatchaWords) then 5 else 0;
    var bonus := if Contains(lname, "matcha") then 10 else 0;
    MatchaIsMatchaWord(lname);
    if first + bonus < 15 then first + bonus else 15
  }

  /** Distance points: 15/12/8/5/2 at 0.5, 1, 2 and 3 miles. */
  function DistancePoints(distanceTenths: int): (pts: int)
    ensures 2 <= pts <= 15
    ensures distanceTenths <= 5 <==> pts == 15
    ensures 5 < distanceTenths <= 10 <==> pts == 12
    ensures 10 < distanceTenths <= 20 <==> pts == 8
    ensures 20 < distanceTenths <= 30 <==> pts == 5
    ensures 30 < distanceTenths <==> pts == 2
  {
    if distanceTenths <= 5 then 15
    else if distanceTenths <= 10 then 12
    else if distanceTenths <= 20 then 8
    else if distanceTenths <= 30 then 5
    else 2
  }

  /** A farther place never earns more distance points. */
  lemma DistanceNonIncreasing(a: int, b: int)
    requires a <= b
    ensures DistancePoints(a) >= DistancePoints(b)
  {
  }

  /** Occasion points: 10 when the place type suits the occasion. */
  function OccasionPoints(occasion: string, types: seq<string>): (pts: int)
    ensures pts == 0 || pts == 10
    ensures pts == 10 <==>
      (occasion == "date" && "romantic" in types)
      || (occasion == "birthday" && "celebration" in types)
      || (occasion == "meeting" && "quiet" in types)
  {
    if occasion == "date" && "romantic" in types then 10
    else if occasion == "birthday" && "celebration" in types then 10
    else if occasion == "meeting" && "quiet" in types then 10
    else 0
  }

  /** Weather points: 5 for shelter in the rain or a terrace in the sun. */
  function WeatherPoints(weather: string, types: seq<string>): (pts: int)
    ensures pts == 0 || pts == 5
    ensures pts == 5 <==>
      (weather == "rainy" && "indoor" in types) || (weather == "sunny" && "outdoor_seating" in types)
  {
    if weather == "rainy" && "indoor" in types then 5
    else if weather == "sunny" && "outdoor_seating" in types then 5
    else 0
  }

  /** The unclamped total of all components. */
  function RawScore(p: PlaceInfo, ctx: UserContext, distanceTenths: int): (raw: int)
    ensures 2 <= raw <= 240
  {
    var lname := Lower(p.name);
    RatingPoints(p.ratingTenths)
    + SentimentPoints(ctx.sentiment, p, lname)
    + TimePoints(ctx.hour, p.types)
    + BudgetPoints(ctx.budget, PriceLevelOr2(p))
    + VibePoints(ctx.vibe, lname)
    + NeedsPoints(ctx.specialNeeds, p)
    + MatchaPoints(lname)
    + DistancePoints(distanceTenths)
    + OccasionPoints(ctx.specialOccasion, p.types)
    + WeatherPoints(ctx.weather, p.types)
  }

  /** `calculate_match_score`: the total clamped to [0, 200]. The total is
      never below 2, so only the upper clamp ever applies. */
  function MatchScore(p: PlaceInfo, ctx: UserContext, distanceTenths: int): (score: int)
    ensures 2 <= score <= 200
    ensures score <= RawScore(p, ctx, distanceTenths)
    ensures score < 200 ==> score == RawScore(p, ctx, distanceTenths)
  {
    var raw := RawScore(p, ctx, distanceTenths);
    if 200 < (if 0 > raw then 0 else raw) then 200 else (if 0 > raw then 0 else raw)
  }

  /** The name "Zen Matcha" carries a quiet word and the word "matcha". */
  lemma ZenMatchaName()
    ensures ContainsAny(Lower("Zen Matcha"), QuietWords)
    ensures Contains(Lower("Zen Matcha"), "matcha")
  {
    var lname := Lower("Zen Matcha");
    assert lname == "zen matcha";
    assert StartsWith(lname, "zen");
    ContainsAnyWitness(lname, QuietWords, 0);
    assert lname[4..] == "matcha";
    assert Contains(lname[4..], "matcha");
    assert Contains(lname[3..], "matcha");
    assert Contains(lname[2..], "matcha");
    assert Contains(lname[1..], "matcha");
  }

  /** The cap is reached: an ideal place for a stressed user on a rainy
      morning totals 220 and scores 200. */
  lemma ScoreCapReached()
    ensures var p := PlaceInfo(50, "Zen Matcha", ["park", "coffee", "bakery", "outdoor_seating", "wheelchair_accessible", "romantic", "indoor"], Some(1), true);
      var ctx := UserContext(8, "stressed", "low", "quiet", ["wifi", "outdoor_seating", "accessible"], "date", "rainy");
      RawScore(p, ctx, 3) > 200 && MatchScore(p, ctx, 3) == 200
  {
    var p := PlaceInfo(50, "Zen Matcha", ["park", "coffee", "bakery", "outdoor_seating", "wheelchair_accessible", "romantic", "indoor"], Some(1), true);
    var lname := Lower(p.name);
    ZenMatchaName();
    assert SentimentPoints("stressed", p, lname) == 45;
    assert MatchaPoints(lname) == 15;
    assert TimePoints(8, p.types) == 35;
    assert NeedsPoints(["wifi", "outdoor_seating", "accessible"], p) == 45;
    assert OccasionPoints("date", p.types) == 10;
    assert WeatherPoints("rainy", p.types) == 5;
  }

  // ---- price label -----------------------------------------------------

  /** `format_price_range(price_level)`. */
  function FormatPriceRange(priceLevel: Option<int>): (s: string)
    ensures priceLevel == Some(0) ==> s == "Free"
    ensures priceLevel.Some? && 1 <= priceLevel.value <= 4 ==> s == Repeat('$', priceLevel.value)
    ensures priceLevel.None? || priceLevel.value < 0 || priceLevel.value > 4 ==> s == "Price not available"
  {
    match priceLevel
    case None => "Price not available"
    case Some(k) =>
      if k == 0 then "Free"
      else if k == 1 then "$"
      else if k == 2 then "$$"
      else if k == 3 then "$$$"
      else if k == 4 then "$$$$"
      else "Price not available"
  }

  // ---- photo URLs ------------------------------------------------------

  const PhotoPlaceholder := "http://localhost:8000/api/ai/placeholder/400/300/"
  const PhotoBase := "https://maps.googleapis.com/maps/api/place/photo?maxwidth=400&photoreference="

  /** A usable key is set, non-empty and not the demo key. */
  predicate ValidKey(apiKey: Option<string>) {
    apiKey.Some? && apiKey.value != "" && apiKey.value != "demo-key"
  }

  /** A photo's `photo_reference` is used when present and non-empty. */
  predicate HasReference(ref: Option<string>) {
    ref.Some? && ref.value != ""
  }

  function PhotoUrl(ref: string, apiKey: string): string {
    PhotoBase + ref + "&key=" + apiKey
  }

  /** The `photo_reference` values that are present and non-empty, in
      order. */
  function References(refs: seq<Option<string>>): (rs: seq<string>)
    ensures |rs| == CountReferences(refs)
    ensures forall i :: 0 <= i < |rs| ==> rs[i] != ""
  {
    if |refs| == 0 then []
    else if HasReference(refs[0]) then [refs[0].value] + References(refs[1..])
    else References(refs[1..])
  }

  /** A string is among the references exactly when some photo carries it
      as its reference. */
  lemma {:induction false} ReferencesMeaning(refs: seq<Option<string>>, x: string)
    ensures x in References(refs) <==> exists j :: 0 <= j < |refs| && HasReference(refs[j]) && refs[j].value == x
    decreases |refs|
  {
    if |refs| > 0 {
      ReferencesMeaning(refs[1..], x);
      if x in References(refs[1..]) {
        var j :| 0 <= j < |refs[1..]| && HasReference(refs[1..][j]) && refs[1..][j].value == x;
        assert refs[j + 1] == refs[1..][j];
      }
      if exists j :: 0 <= j < |refs| && HasReference(refs[j]) && refs[j].value == x {
        var j :| 0 <= j < |refs| && HasReference(refs[j]) && refs[j].value == x;
        if j > 0 {
          assert refs[1..][j - 1] == refs[j];
        }
      }
    }
  }

  /** One URL per photo with a reference, in order: the photo URL for that
      reference with a valid key, the placeholder without one. */
  function UrlsFor(refs: seq<Option<string>>, apiKey: Option<string>): (urls: seq<string>)
    ensures |urls| == |References(refs)|
    ensures ValidKey(apiKey) ==> forall i :: 0 <= i < |urls| ==> urls[i] == PhotoUrl(References(refs)[i], apiKey.value)
    ensures !ValidKey(apiKey) ==> forall i :: 0 <= i < |urls| ==> urls[i] == PhotoPlaceholder
  {
    if |refs| == 0 then []
    else
      var rest := UrlsFor(refs[1..], apiKey);
      if HasReference(refs[0]) then
        var url := if ValidKey(apiKey) then PhotoUrl(refs[0].value, apiKey.value) else PhotoPlaceholder;
        [url] + rest
      else rest
  }

  function CountReferences(refs: seq<Option<string>>): nat {
    if |refs| == 0 then 0 else (if HasReference(refs[0]) then 1 else 0) + CountReferences(refs[1..])
  }

  lemma {:induction false} CountReferencesBound(refs: seq<Option<string>>)
    ensures CountReferences(refs) <= |refs|
  {
    if |refs| > 0 {
      CountReferencesBound(refs[1..]);
    }
  }

  /** `photos[:3]`. */
  function FirstThree<T>(photos: seq<T>): (first: seq<T>)
    ensures |first| <= 3 && |first| <= |photos| && first == photos[..|first|]
    ensures |photos| <= 3 ==> first == photos
  {
    if |photos| <= 3 then photos else photos[..3]
  }

  /** `get_photo_urls(photos)`, each photo given by its `photo_reference`:
      one URL per referenced photo among the first three, in order, or the
      single placeholder when there is none. */
  function PhotoUrls(photos: seq<Option<string>>, apiKey: Option<string>): (urls: seq<string>)
    ensures 1 <= |urls| <= 3
    ensures |photos| == 0 ==> urls == [PhotoPlaceholder]
    ensures var rs := References(FirstThree(photos));
      && (rs == [] ==> urls == [PhotoPlaceholder])
      && (rs != [] ==> |urls| == |rs|)
      && (rs != [] && ValidKey(apiKey) ==> forall i :: 0 <= i < |urls| ==> urls[i] == PhotoUrl(rs[i], apiKey.value))
    ensures !ValidKey(apiKey) ==> forall i :: 0 <= i < |urls| ==> urls[i] == PhotoPlaceholder
  {
    if |photos| == 0 then [PhotoPlaceholder]
    else
      var first := FirstThree(photos);
      CountReferencesBound(first);
      var urls := UrlsFor(first, apiKey);
      if |urls| == 0 then [PhotoPlaceholder] else urls
  }

  // ---- the results pass ------------------------------------------------

  /** A nearby-search result. Coordinates are in micro-degrees; a missing
      or zero coordinate is falsy and skips the place. */
  datatype RawPlace = RawPlace(
    placeId: Option<string>,
    name: Option<string>,
    ratingTenths: Option<int>,
    priceLevel: Option<int>,
    vicinity: Option<string>,
    lat: Option<int>,
    lng: Option<int>,
    types: seq<string>,
    wifi: bool,
    photos: seq<Option<string>>)

  /** The record sent to the front end. */
  datatype Processed = Processed(
    id: string,
    placeId: string,
    name: string,
    ratingTenths: int,
    priceLevel: Option<int>,
    vicinity: string,
    lat: int,
    lng: int,
    matchScore: int,
    distanceTenths: int,
    priceRange: string,
    photos: seq<string>)

  predicate HasCoordinates(r: RawPlace) {
    r.lat.Some? && r.lat.value != 0 && r.lng.Some? && r.lng.value != 0
  }

  /** The score sees the place's `name` with "" for a missing one. */
  function InfoOf(r: RawPlace): PlaceInfo {
    PlaceInfo(r.ratingTenths.GetOr(0), r.name.GetOr(""), r.types, r.priceLevel, r.wifi)
  }

  /** One processed result; `distance` stands for the rounded haversine
      distance from the user to the given coordinates, in tenths of a
      mile. */
  function Process(r: RawPlace, ctx: UserContext, distance: (int, int) -> int, apiKey: Option<string>): (p: Processed)
    requires HasCoordinates(r)
    ensures p.lat == r.lat.value && p.lng == r.lng.value
    ensures p.id == p.placeId == r.placeId.GetOr("")
    ensures p.name == r.name.GetOr("Unknown Place")
    ensures 2 <= p.matchScore <= 200
    ensures p.matchScore == MatchScore(InfoOf(r), ctx, distance(r.lat.value, r.lng.value))
    ensures p.distanceTenths == distance(r.lat.value, r.lng.value)
    ensures p.ratingTenths == r.ratingTenths.GetOr(0) && p.priceLevel == r.priceLevel && p.vicinity == r.vicinity.GetOr("")
    ensures p.priceRange == FormatPriceRange(r.priceLevel)
    ensures p.photos == PhotoUrls(r.photos, apiKey)
  {
    var d := distance(r.lat.value, r.lng.value);
    Processed(
      r.placeId.GetOr(""), r.placeId.GetOr(""), r.name.GetOr("Unknown Place"),
      r.ratingTenths.GetOr(0), r.priceLevel, r.vicinity.GetOr(""),
      r.lat.value, r.lng.value,
      MatchScore(InfoOf(r), ctx, d), d,
      FormatPriceRange(r.priceLevel), PhotoUrls(r.photos, apiKey))
  }

  /** The loop over the results: skip, then process, keeping input order. */
  function ProcessAll(results: seq<RawPlace>, ctx: UserContext, distance: (int, int) -> int, apiKey: Option<string>): (ps: seq<Processed>)
    ensures |ps| <= |results|
    ensures forall i :: 0 <= i < |ps| ==> 2 <= ps[i].matchScore <= 200
  {
    if |results| == 0 then []
    else
      var rest := ProcessAll(results[1..], ctx, distance, apiKey);
      if HasCoordinates(results[0]) then
        var p := Process(results[0], ctx, distance, apiKey);
        ScoresInRangeCons(p, rest);
        [p] + rest
      else rest
  }

  /** Putting one more in-range score in front keeps every score in range. */
  lemma ScoresInRangeCons(p: Processed, rest: seq<Processed>)
    requires 2 <= p.matchScore <= 200
    requires forall i :: 0 <= i < |rest| ==> 2 <= rest[i].matchScore <= 200
    ensures forall i :: 0 <= i < |[p] + rest| ==> 2 <= ([p] + rest)[i].matchScore <= 200
  {
  }

  /** `p` is the processed form of some result with coordinates. */
  ghost predicate FromResult(p: Processed, results: seq<RawPlace>, ctx: UserContext, distance: (int, int) -> int, apiKey: Option<string>) {
    exists j :: 0 <= j < |results| && ProcessedFrom(p, results[j], ctx, distance, apiKey)
  }

  /** `p` is what the loop makes of the result `r`. */
  ghost predicate ProcessedFrom(p: Processed, r: RawPlace, ctx: UserContext, distance: (int, int) -> int, apiKey: Option<string>) {
    HasCoordinates(r) && p == Process(r, ctx, distance, apiKey)
  }

  /** What comes from the tail comes from the whole list. */
  lemma FromResultTail(p: Processed, results: seq<RawPlace>, ctx: UserContext, distance: (int, int) -> int, apiKey: Option<string>)
    requires |results| > 0 && FromResult(p, results[1..], ctx, distance, apiKey)
    ensures FromResult(p, results, ctx, distance, apiKey)
  {
    var j :| 0 <= j < |results[1..]| && ProcessedFrom(p, results[1..][j], ctx, distance, apiKey);
    assert results[j + 1] == results[1..][j];
  }

  /** Every place the loop keeps comes from a result with coordinates. */
  lemma {:induction false} ProcessAllSound(results: seq<RawPlace>, ctx: UserContext, distance: (int, int) -> int, apiKey: Option<string>)
    ensures forall p :: p in ProcessAll(results, ctx, distance, apiKey) ==> FromResult(p, results, ctx, distance, apiKey)
    decreases |results|
  {
    if |results| > 0 {
      var tail := results[1..];
      ProcessAllSound(tail, ctx, distance, apiKey);
      var rest := ProcessAll(tail, ctx, distance, apiKey);
      forall p | p in rest ensures FromResult(p, results, ctx, distance, apiKey) {
        FromResultTail(p, results, ctx, distance, apiKey);
      }
    }
  }

  /** Every result with coordinates is kept. */
  lemma {:induction false} ProcessAllComplete(results: seq<RawPlace>, ctx: UserContext, distance: (int, int) -> int, apiKey: Option<string>)
    ensures forall j :: 0 <= j < |results| && HasCoordinates(results[j]) ==>
      Process(results[j], ctx, distance, apiKey) in ProcessAll(results, ctx, distance, apiKey)
    decreases |results|
  {
    if |results| > 0 {
      var tail := results[1..];
      ProcessAllComplete(tail, ctx, distance, apiKey);
      var ps := ProcessAll(results, ctx, distance, apiKey);
      forall j | 0 <= j < |results| && HasCoordinates(results[j]) ensures Process(results[j], ctx, distance, apiKey) in ps {
        if j > 0 {
          assert results[j] == tail[j - 1];
        }
      }
    }
  }

  /** The loop keeps exactly the results with coordinates. */
  lemma ProcessAllContents(results: seq<RawPlace>, ctx: UserContext, distance: (int, int) -> int, apiKey: Option<string>)
    ensures var ps := ProcessAll(results, ctx, distance, apiKey);
      && (forall p :: p in ps ==> FromResult(p, results, ctx, distance, apiKey))
      && (forall j :: 0 <= j < |results| && HasCoordinates(results[j]) ==> Process(results[j], ctx, distance, apiKey) in ps)
  {
    ProcessAllSound(results, ctx, distance, apiKey);
    ProcessAllComplete(results, ctx, distance, apiKey);
  }

  function Score(p: Processed): int {
    p.matchScore
  }

  /** `PlacesView.get` after the search: the processed places with
      coordinates, highest match score first. */
  function RankPlaces(results: seq<RawPlace>, ctx: UserContext, distance: (int, int) -> int, apiKey: Option<string>): (ranked: seq<Processed>)
    ensures NonIncreasing(ranked, Score)
    ensures multiset(ranked) == multiset(ProcessAll(results, ctx, distance, apiKey))
  {
    SortDesc(ProcessAll(results, ctx, distance, apiKey), Score)
  }

  /** Every ranked place came from a result with coordinates, every result
      with coordinates is ranked, and every score is within [2, 200]. */
  lemma RankPlacesContents(results: seq<RawPlace>, ctx: UserContext, distance: (int, int) -> int, apiKey: Option<string>)
    ensures var ranked := RankPlaces(results, ctx, distance, apiKey);
      && |ranked| <= |results|
      && (forall p :: p in ranked ==> FromResult(p, results, ctx, distance, apiKey))
      && (forall j :: 0 <= j < |results| && HasCoordinates(results[j]) ==> Process(results[j], ctx, distance, apiKey) in ranked)
      && (forall i :: 0 <= i < |ranked| ==> 2 <= ranked[i].matchScore <= 200)
  {
    var ps := ProcessAll(results, ctx, distance, apiKey);
    var ranked := RankPlaces(results, ctx, distance, apiKey);
    PermutationLength(ranked, ps);
    PermutationMembers(ranked, ps);
    ProcessAllContents(results, ctx, distance, apiKey);
    PermutationAll(ps, ranked, (p: Processed) => 2 <= p.matchScore <= 200);
  }
}
