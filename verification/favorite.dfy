/** The stored favorite record and the hearts state shared by both
    favorites hooks: a map from place id to record (`favorites`) and the
    set of places the current user has hearted (`userHearts`). */
module FavoriteData {

  /** `lastHearted` is a timestamp the caller supplies (the hook reads the
      clock). */
  datatype Favorite = Favorite(placeId: string, placeName: string, heartsCount: nat, lastHearted: int)

  datatype HeartsState = HeartsState(favorites: map<string, Favorite>, userHearts: set<string>)

  function Hearts(f: Favorite): nat {
    f.heartsCount
  }

  /** `isHearted(placeId)` */
  predicate IsHearted(s: HeartsState, p: string) {
    p in s.userHearts
  }

  /** `favorites[placeId]?.heartsCount || 0`: the stored count, 0 when absent. */
  function Stored(s: HeartsState, p: string): nat {
    if p in s.favorites then s.favorites[p].heartsCount else 0
  }

  /** The personal flag flips for `p` and for nothing else. */
  function FlipHeart(hearts: set<string>, p: string): (r: set<string>)
    ensures p in r <==> p !in hearts
    ensures forall q :: q != p ==> (q in r <==> q in hearts)
  {
    if p in hearts then hearts - {p} else hearts + {p}
  }

  /** Every record is filed under its own place id. */
  predicate KeyedById(s: HeartsState) {
    forall q :: q in s.favorites ==> s.favorites[q].placeId == q
  }
}
