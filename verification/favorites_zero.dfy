/** The favorites hook of the 0002 variant: a heart adds one to the
    place's count, an unheart removes one, floored at zero, and an entry
    whose count reaches zero is deleted. */
module HeartsZeroFloor {
  import opened FavoriteData
  import opened Maps
  import opened Sorting

  /** `getHeartCount(placeId)` */
  function HeartCount(s: HeartsState, p: string): nat {
    Stored(s, p)
  }

  /** Every stored entry is filed under its place id and holds at least one
      heart: the hook deletes entries that fall to zero. */
  predicate Valid(s: HeartsState) {
    KeyedById(s) && forall q :: q in s.favorites ==> s.favorites[q].heartsCount > 0
  }

  /** `toggleHeart(placeId, placeName)`, taken as one atomic step; `now` is
      the clock reading stored as `lastHearted`. */
  function ToggleHeart(s: HeartsState, p: string, name: string, now: int): (s': HeartsState)
    ensures IsHearted(s', p) <==> !IsHearted(s, p)
    ensures !IsHearted(s, p) ==>
      p in s'.favorites && s'.favorites[p] == Favorite(p, name, HeartCount(s, p) + 1, now)
    ensures IsHearted(s, p) ==>
      HeartCount(s', p) == (if HeartCount(s, p) > 1 then HeartCount(s, p) - 1 else 0)
    ensures IsHearted(s, p) ==> (p in s'.favorites <==> HeartCount(s, p) > 1)
    ensures IsHearted(s, p) && p in s'.favorites ==>
      s'.favorites[p] == s.favorites[p].(heartsCount := HeartCount(s, p) - 1, lastHearted := now)
    ensures forall q :: q != p ==> (q in s'.favorites <==> q in s.favorites)
    ensures forall q :: q != p && q in s.favorites ==> s'.favorites[q] == s.favorites[q]
    ensures forall q :: q != p ==> (IsHearted(s', q) <==> IsHearted(s, q))
  {
    var current := Stored(s, p);
    var favorites :=
      if p in s.userHearts then
        var n := if current - 1 > 0 then current - 1 else 0;
        if n == 0 then s.favorites - {p}
        else s.favorites[p := s.favorites[p].(heartsCount := n, lastHearted := now)]
      else
        s.favorites[p := Favorite(p, name, current + 1, now)];
    HeartsState(favorites, FlipHeart(s.userHearts, p))
  }

  /** A toggle keeps the store valid. */
  lemma ToggleKeepsValid(s: HeartsState, p: string, name: string, now: int)
    requires Valid(s)
    ensures Valid(ToggleHeart(s, p, name, now))
  {
  }

  /** Hearting and then unhearting a place gives back its count and its
      personal flag; no other place notices. */
  lemma HeartThenUnheart(s: HeartsState, p: string, name: string, t1: int, t2: int)
    requires !IsHearted(s, p)
    ensures var s2 := ToggleHeart(ToggleHeart(s, p, name, t1), p, name, t2);
      && HeartCount(s2, p) == HeartCount(s, p)
      && !IsHearted(s2, p)
      && (forall q :: q != p ==> HeartCount(s2, q) == HeartCount(s, q))
      && s2.userHearts == s.userHearts
  {
    var s1 := ToggleHeart(s, p, name, t1);
    var s2 := ToggleHeart(s1, p, name, t2);
    assert s2.userHearts == s.userHearts;
  }

  /** Unhearting and then hearting again gives back the count as long as
      the place had at least one heart. */
  lemma UnheartThenHeart(s: HeartsState, p: string, name: string, t1: int, t2: int)
    requires IsHearted(s, p) && HeartCount(s, p) >= 1
    ensures var s2 := ToggleHeart(ToggleHeart(s, p, name, t1), p, name, t2);
      HeartCount(s2, p) == HeartCount(s, p) && IsHearted(s2, p)
  {
  }

  /** `getTotalHeartCount()`: sum of all stored counts. */
  method TotalHeartCount(s: HeartsState) returns (total: nat)
    ensures total == Sum(s.favorites, Hearts)
  {
    total := SumValues(s.favorites, Hearts);
  }

  /** `getTotalFavoritedPlaces()`: the number of stored entries; in a valid
      store these are exactly the places with at least one heart. */
  function TotalFavoritedPlaces(s: HeartsState): (n: nat)
    requires Valid(s)
    ensures n == |set q | q in s.favorites && HeartCount(s, q) > 0|
  {
    assert (set q | q in s.favorites && HeartCount(s, q) > 0) == s.favorites.Keys;
    |s.favorites.Keys|
  }

  /** The total moves by exactly one heart per toggle, except for an
      unheart of a place that had no hearts left. */
  lemma ToggleTotal(s: HeartsState, p: string, name: string, now: int)
    ensures var t := Sum(ToggleHeart(s, p, name, now).favorites, Hearts);
      && (!IsHearted(s, p) ==> t == Sum(s.favorites, Hearts) + 1)
      && (IsHearted(s, p) && HeartCount(s, p) > 0 ==> t + 1 == Sum(s.favorites, Hearts))
      && (IsHearted(s, p) && HeartCount(s, p) == 0 ==> t == Sum(s.favorites, Hearts))
  {
    var s' := ToggleHeart(s, p, name, now);
    if p in s'.favorites {
      assert s'.favorites == s.favorites[p := s'.favorites[p]];
      SumUpdate(s.favorites, Hearts, p, s'.favorites[p]);
    } else {
      assert s'.favorites == s.favorites - {p};
      SumDelete(s.favorites, Hearts, p);
    }
  }

  /** `getFavoritedPlaces()`: the stored records, highest count first. */
  method FavoritedPlaces(s: HeartsState) returns (r: seq<Favorite>)
    ensures NonIncreasing(r, Hearts)
    ensures |r| == |s.favorites|
    ensures forall i :: 0 <= i < |r| ==> exists q :: q in s.favorites && s.favorites[q] == r[i]
    ensures forall q :: q in s.favorites ==> s.favorites[q] in r
  {
    var vs := ListValues(s.favorites);
    r := SortDesc(vs, Hearts);
    PermutationLength(r, vs);
    PermutationMembers(r, vs);
    forall i | 0 <= i < |r| ensures exists q :: q in s.favorites && s.favorites[q] == r[i] {
      assert r[i] in vs;
      var j :| 0 <= j < |vs| && vs[j] == r[i];
    }
  }

  /** `resetFavorites()` */
  function ResetFavorites(): HeartsState {
    HeartsState(map[], {})
  }

  /** After a reset no place has hearts or a personal heart, and both
      totals are zero. */
  lemma ResetClears(p: string)
    ensures HeartCount(ResetFavorites(), p) == 0 && !IsHearted(ResetFavorites(), p)
    ensures Sum(ResetFavorites().favorites, Hearts) == 0
    ensures TotalFavoritedPlaces(ResetFavorites()) == 0
  {
  }
}
