/** The "Top Rated Places" carousel of the second front end: a fixed list
    of sample places shown one at a time; the arrows and the autoplay move
    around the list in a circle. */
module RotatingCarousel {
  import opened Wrappers
  import opened Strings
  import opened Js
  import opened MapsLink

  /** A sample entry; coordinates in micro-degrees. */
  datatype SamplePlace = SamplePlace(id: string, name: string, address: string, lat: int, lng: int)

  /** The four built-in places, in display order. */
  const Samples: seq<SamplePlace> := [
    SamplePlace("1", "Matcha-Ya", "NW.05/10 Steam Mill La, Haymarket", -33868800, 151209300),
    SamplePlace("2", "Zensation Tea House", "Shop 82/788 Bourke St, Waterloo", -33901400, 151207600),
    SamplePlace("3", "Oh!Matcha", "Shop 11/501 George St, Sydney", -33872800, 151206200),
    SamplePlace("4", "Cafe Maru", "189 Kent St, Sydney", -33870500, 151204700)
  ]

  /** The right arrow: the following place, the first after the last. */
  function Next(i: nat, n: nat): (r: nat)
    requires n > 0
    ensures r < n
    ensures i + 1 < n ==> r == i + 1
    ensures i == n - 1 ==> r == 0
  {
    (i + 1) % n
  }

  /** The left arrow: the preceding place, the last before the first. */
  function Prev(i: nat, n: nat): (r: nat)
    requires n > 0
    ensures r < n
    ensures 0 < i <= n ==> r == i - 1
    ensures i == 0 ==> r == n - 1
  {
    (i - 1 + n) % n
  }

  /** One autoplay tick. */
  function Autoplay(i: nat, n: nat): (r: nat)
    requires n > 0
    ensures r < n
  {
    (i + 1) % n
  }

  /** A tick moves exactly like the right arrow. */
  lemma AutoplayIsNext(i: nat, n: nat)
    requires n > 0
    ensures Autoplay(i, n) == Next(i, n)
  {
  }

  /** The arrows undo each other. */
  lemma PrevNextInverse(i: nat, n: nat)
    requires i < n
    ensures Prev(Next(i, n), n) == i
    ensures Next(Prev(i, n), n) == i
  {
  }

  /** `k` presses of the right arrow. */
  function Advance(i: nat, n: nat, k: nat): (r: nat)
    requires n > 0
    ensures r < n
  {
    if k == 0 then i % n else Next(Advance(i, n, k - 1), n)
  }

  /** Division with remainder has one answer. */
  lemma ModOf(x: int, n: int, q: int, r: int)
    requires n > 0 && 0 <= r < n && x == q * n + r
    ensures x % n == r
  {
    var d := q - x / n;
    assert d * n == x % n - r;
    assert d >= 1 ==> d * n >= n;
    assert d <= -1 ==> d * n <= -n;
  }

  /** Stepping the remainder is stepping the number. */
  lemma StepMod(x: nat, n: nat)
    requires n > 0
    ensures (x % n + 1) % n == (x + 1) % n
  {
    var a := x % n;
    var q := x / n;
    assert x == q * n + a;
    if a + 1 < n {
      ModOf(a + 1, n, 0, a + 1);
      ModOf(x + 1, n, q, a + 1);
    } else {
      ModOf(a + 1, n, 1, 0);
      assert (q + 1) * n == q * n + n;
      ModOf(x + 1, n, q + 1, 0);
    }
  }

  /** `k` presses move `k` places around the circle. */
  lemma {:induction false} AdvanceIsRotation(i: nat, n: nat, k: nat)
    requires n > 0
    ensures Advance(i, n, k) == (i + k) % n
  {
    if k > 0 {
      AdvanceIsRotation(i, n, k - 1);
      StepMod(i + k - 1, n);
    }
  }

  /** A full round of presses comes back to the same place. */
  lemma FullRound(i: nat, n: nat)
    requires i < n
    ensures Advance(i, n, n) == i
  {
    AdvanceIsRotation(i, n, n);
    ModOf(i + n, n, 1, i);
  }

  /** Opening the shown place in Google Maps: the sample ids are not
      Google place ids, so each opens a search for its name and address. */
  function LinkFor(p: SamplePlace): (link: Link)
    ensures StartsWith(p.id, "ChIJ") ==> link == Profile(p.id)
    ensures !StartsWith(p.id, "ChIJ") && p.name != "" && p.address != "" ==> link == Search(p.name + " " + p.address)
  {
    Choose(Some(p.id), Some(p.name), Some(p.address), Some(p.lat), Some(p.lng))
  }

  lemma SamplesOpenSearches(i: nat)
    requires i < |Samples|
    ensures LinkFor(Samples[i]) == Search(Samples[i].name + " " + Samples[i].address)
  {
    assert !StartsWith(Samples[i].id, "ChIJ") by {
      assert |Samples[i].id| < 4;
    }
  }
}
