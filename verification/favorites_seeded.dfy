/** The favorites hook of the matcha-match variant: every seeded place has
    a base heart count, and a place's count never drops below its base. */
module HeartsSeededFloor {
  import opened FavoriteData
  import opened Sorting

  /** One entry of the seed list of places (`mockMatchaPlaces`); a missing
      `heartsCount` is written as 0, which is what `|| 0` reads it as. */
  datatype Seed = Seed(id: string, name: string, heartsCount: nat)

  /** The seed list the hook ships with. */
  function MockSeeds(): seq<Seed> {
    [ Seed("1", "Zen Matcha House", 42),
      Seed("2", "Emerald Tea Lounge", 35),
      Seed("3", "Green Leaf Cafe", 28),
      Seed("4", "Traditional Matcha Studio", 67),
      Seed("5", "Modern Matcha Co.", 19) ]
  }

  /** `mockMatchaPlaces.find(p => p.id === placeId)?.heartsCount || 0` */
  function BaseCount(seeds: seq<Seed>, p: string): nat {
    if |seeds| == 0 then 0
    else if seeds[0].id == p then seeds[0].heartsCount
    else BaseCount(seeds[1..], p)
  }

  function Max(a: int, b: int): int {
    if a >= b then a else b
  }

  /** `getHeartCount(placeId)`: the larger of the base and the stored count. */
  function HeartCount(seeds: seq<Seed>, s: HeartsState, p: string): nat {
    Max(BaseCount(seeds, p), Stored(s, p))
  }

  /** No stored count lies below its place's base count. */
  predicate Floored(seeds: seq<Seed>, s: HeartsState) {
    forall q :: q in s.favorites ==> s.favorites[q].heartsCount >= BaseCount(seeds, q)
  }

  /** `toggleHeart(placeId, placeName)`, taken as one atomic step; `now`
      is the clock reading stored as `lastHearted`. */
  function ToggleHeart(seeds: seq<Seed>, s: HeartsState, p: string, name: string, now: int): (s': HeartsState)
    ensures IsHearted(s', p) <==> !IsHearted(s, p)
    ensures p in s'.favorites ==> s'.favorites[p].heartsCount >= BaseCount(seeds, p)
    ensures IsHearted(s, p) && p in s'.favorites ==> s'.favorites[p].heartsCount > BaseCount(seeds, p)
    ensures !IsHearted(s, p) ==>
              && p in s'.favorites
              && s'.favorites[p].heartsCount ==
                 Max(BaseCount(seeds, p), (if Stored(s, p) != 0 then Stored(s, p) else BaseCount(seeds, p)) + 1)
    ensures forall q :: q != p ==> (q in s'.favorites <==> q in s.favorites)
    ensures forall q :: q != p && q in s.favorites ==> s'.favorites[q] == s.favorites[q]
    ensures forall q :: q != p ==> (IsHearted(s', q) <==> IsHearted(s, q))
  {
    var base := BaseCount(seeds, p);
    var current := if Stored(s, p) != 0 then Stored(s, p) else base;
    var hearted := p in s.userHearts;
    var next := if hearted then current - 1 else current + 1;
    var final := Max(base, next);
    var favorites :=
      if final <= base && hearted then s.favorites - {p}
      else s.favorites[p := Favorite(p, name, final, now)];
    HeartsState(favorites, FlipHeart(s.userHearts, p))
  }

  /** In a floored store a heart adds exactly one to the displayed count
      and an unheart takes one away, never going below the base. */
  lemma ToggleCount(seeds: seq<Seed>, s: HeartsState, p: string, name: string, now: int)
    requires Floored(seeds, s)
    ensures Floored(seeds, ToggleHeart(seeds, s, p, name, now))
    ensures var c := HeartCount(seeds, ToggleHeart(seeds, s, p, name, now), p);
      c == if IsHearted(s, p) then Max(BaseCount(seeds, p), HeartCount(seeds, s, p) - 1)
           else HeartCount(seeds, s, p) + 1
  {
  }

  /** Hearting and then unhearting gives back the displayed count and the
      personal flag, from any store. */
  lemma HeartThenUnheart(seeds: seq<Seed>, s: HeartsState, p: string, name: string, t1: int, t2: int)
    requires !IsHearted(s, p)
    ensures var s2 := ToggleHeart(seeds, ToggleHeart(seeds, s, p, name, t1), p, name, t2);
      && HeartCount(seeds, s2, p) == HeartCount(seeds, s, p)
      && !IsHearted(s2, p)
      && (forall q :: q != p ==> HeartCount(seeds, s2, q) == HeartCount(seeds, s, q))
  {
  }

  /** Unhearting and hearting again need not give back the count: a
      hearted place with no stored entry gains a heart. */
  lemma UnheartThenHeartCanGain()
    ensures var seeds := MockSeeds();
      var s := HeartsState(map[], {"1"});
      var s2 := ToggleHeart(seeds, ToggleHeart(seeds, s, "1", "Zen Matcha House", 0), "1", "Zen Matcha House", 1);
      HeartCount(seeds, s, "1") == 42 && HeartCount(seeds, s2, "1") == 43
  {
  }

  /** The record `getFavoritedPlaces` builds for one seeded place. */
  function Entry(s: HeartsState, seed: Seed, now: int): Favorite {
    var lastHearted := if seed.id in s.favorites then s.favorites[seed.id].lastHearted else now;
    Favorite(seed.id, seed.name, Max(seed.heartsCount, Stored(s, seed.id)), lastHearted)
  }

  /** `f` is the record built for some seeded place. */
  predicate IsEntryOf(seeds: seq<Seed>, s: HeartsState, now: int, f: Favorite) {
    exists j :: 0 <= j < |seeds| && f == Entry(s, seeds[j], now)
  }

  /** The seeded places with at least one heart, in seed order. */
  function HeartedEntries(seeds: seq<Seed>, s: HeartsState, now: int): (r: seq<Favorite>)
    ensures forall i :: 0 <= i < |r| ==> Hearts(r[i]) > 0
    ensures forall i :: 0 <= i < |r| ==> IsEntryOf(seeds, s, now, r[i])
    ensures forall j :: 0 <= j < |seeds| && Hearts(Entry(s, seeds[j], now)) > 0 ==> Entry(s, seeds[j], now) in r
    decreases |seeds|
  {
    if |seeds| == 0 then []
    else
      var e := Entry(s, seeds[0], now);
      var rest := HeartedEntries(seeds[1..], s, now);
      assert forall i :: 0 <= i < |rest| ==> IsEntryOf(seeds, s, now, rest[i]) by {
        forall i | 0 <= i < |rest| ensures IsEntryOf(seeds, s, now, rest[i]) {
          assert IsEntryOf(seeds[1..], s, now, rest[i]);
          var j :| 0 <= j < |seeds[1..]| && rest[i] == Entry(s, seeds[1..][j], now);
          assert seeds[j + 1] == seeds[1..][j];
        }
      }
      assert forall j :: 1 <= j < |seeds| ==> seeds[j] == seeds[1..][j - 1];
      if e.heartsCount > 0 then [e] + rest else rest
  }

  /** `getFavoritedPlaces()`: the seeded places with at least one heart,
      highest count first. */
  function FavoritedPlaces(seeds: seq<Seed>, s: HeartsState, now: int): (r: seq<Favorite>)
    ensures NonIncreasing(r, Hearts)
    ensures forall i :: 0 <= i < |r| ==> Hearts(r[i]) > 0 && IsEntryOf(seeds, s, now, r[i])
    ensures forall j :: 0 <= j < |seeds| && Hearts(Entry(s, seeds[j], now)) > 0 ==> Entry(s, seeds[j], now) in r
  {
    var es := HeartedEntries(seeds, s, now);
    var r := SortDesc(es, Hearts);
    PermutationAll(es, r, f => Hearts(f) > 0 && IsEntryOf(seeds, s, now, f));
    PermutationMembers(es, r);
    r
  }

  /** `getTotalFavoritedPlaces()`: seeded places whose displayed count is
      positive. */
  function TotalFavoritedPlaces(seeds: seq<Seed>, s: HeartsState): nat {
    if |seeds| == 0 then 0
    else
      var here := if Max(seeds[0].heartsCount, Stored(s, seeds[0].id)) > 0 then 1 else 0;
      here + TotalFavoritedPlaces(seeds[1..], s)
  }

  /** `getTotalHeartCount()`: the displayed counts of the seeded places,
      summed. */
  function TotalHeartCount(seeds: seq<Seed>, s: HeartsState): nat {
    if |seeds| == 0 then 0
    else Max(seeds[0].heartsCount, Stored(s, seeds[0].id)) + TotalHeartCount(seeds[1..], s)
  }

  /** The total count of favorited places is the length of the favorites
      list. */
  lemma {:induction false} TotalFavoritedIsListLength(seeds: seq<Seed>, s: HeartsState, now: int)
    ensures TotalFavoritedPlaces(seeds, s) == |FavoritedPlaces(seeds, s, now)|
  {
    TotalFavoritedIsEntries(seeds, s, now);
    var es := HeartedEntries(seeds, s, now);
    PermutationLength(SortDesc(es, Hearts), es);
  }

  lemma {:induction false} TotalFavoritedIsEntries(seeds: seq<Seed>, s: HeartsState, now: int)
    ensures TotalFavoritedPlaces(seeds, s) == |HeartedEntries(seeds, s, now)|
    decreases |seeds|
  {
    if |seeds| > 0 {
      TotalFavoritedIsEntries(seeds[1..], s, now);
    }
  }

  /** No two seeds share an id. */
  predicate DistinctIds(seeds: seq<Seed>) {
    forall i, j :: 0 <= i < j < |seeds| ==> seeds[i].id != seeds[j].id
  }

  /** Sum of `getHeartCount` over the ids of `part`, with bases looked up
      in the whole seed list. */
  function SumHeartCounts(seeds: seq<Seed>, s: HeartsState, part: seq<Seed>): nat {
    if |part| == 0 then 0
    else HeartCount(seeds, s, part[0].id) + SumHeartCounts(seeds, s, part[1..])
  }

  /** With distinct ids a seed's own count is the base `find` returns. */
  lemma {:induction false} BaseOfSeed(seeds: seq<Seed>, i: nat)
    requires DistinctIds(seeds) && i < |seeds|
    ensures BaseCount(seeds, seeds[i].id) == seeds[i].heartsCount
    decreases i
  {
    if i > 0 {
      assert seeds[0].id != seeds[i].id;
      assert seeds[1..][i - 1] == seeds[i];
      BaseOfSeed(seeds[1..], i - 1);
    }
  }

  /** With distinct seed ids the total heart count is the sum of
      `getHeartCount` over the seeded places. */
  lemma TotalIsSumOfHeartCounts(seeds: seq<Seed>, s: HeartsState)
    requires DistinctIds(seeds)
    ensures TotalHeartCount(seeds, s) == SumHeartCounts(seeds, s, seeds)
  {
    SuffixSums(seeds, s, 0);
  }

  lemma {:induction false} SuffixSums(seeds: seq<Seed>, s: HeartsState, k: nat)
    requires DistinctIds(seeds) && k <= |seeds|
    ensures TotalHeartCount(seeds[k..], s) == SumHeartCounts(seeds, s, seeds[k..])
    decreases |seeds| - k
  {
    if k < |seeds| {
      BaseOfSeed(seeds, k);
      SuffixSums(seeds, s, k + 1);
      assert seeds[k..][1..] == seeds[k + 1..];
    }
  }
}
