/** The matcha-day calendar: the list of days marked as matcha days, the
    longest streak, the current streak, whether a day belongs to a streak,
    the `YYYY-MM-DD` keys the list stores and the picture shown on a day.

    Streak arithmetic works on day numbers (consecutive calendar days are
    consecutive integers), which is what the millisecond timestamps of
    dates parsed from `YYYY-MM-DD` amount to once divided by the length of
    a day. */
module MatchaDays {
  import opened Wrappers
  import opened Strings
  import opened Sorting

  // ---- the stored list ---------------------------------------------------

  /** `setMatchaDay(dateStr)`: append the key unless it is already there. */
  function SetMatchaDay(days: seq<string>, key: string): (r: seq<string>)
    ensures key in r
    ensures forall x :: x in r <==> x in days || x == key
    ensures key in days ==> r == days
    ensures key !in days ==> r == days + [key]
  {
    if key in days then days else days + [key]
  }

  /** No value occurs twice. */
  ghost predicate NoDuplicates<T(!new)>(s: seq<T>) {
    forall x :: multiset(s)[x] <= 1
  }

  /** Marking a day twice is marking it once, and marking never creates a
      duplicate entry. */
  lemma SetMatchaDayIdempotent(days: seq<string>, key: string)
    ensures SetMatchaDay(SetMatchaDay(days, key), key) == SetMatchaDay(days, key)
    ensures NoDuplicates(days) ==> NoDuplicates(SetMatchaDay(days, key))
  {
    if key !in days {
      assert multiset(days + [key]) == multiset(days) + multiset{key};
    }
  }

  // ---- date keys ---------------------------------------------------------

  /** A local calendar date: full year, 0-based month, day of the month. */
  datatype Date = Date(year: nat, month: nat, day: nat)

  predicate ValidDate(d: Date) {
    d.month < 12 && 1 <= d.day <= 31
  }

  /** `toLocalDateString(date)`: `YYYY-MM-DD` with the month and day padded
      to two digits. */
  function ToLocalDateString(d: Date): (s: string)
    ensures var parts := Split(s, '-');
      && |parts| == 3 && parts[0] == NatToString(d.year)
      && AllDigits(parts[1]) && ParseNat(parts[1]) == d.month + 1
      && AllDigits(parts[2]) && ParseNat(parts[2]) == d.day
    ensures ValidDate(d) ==> |Split(s, '-')[1]| == 2 && |Split(s, '-')[2]| == 2
  {
    DateKeyPieces(d);
    NatToString(d.year) + "-" + PadZero(NatToString(d.month + 1), 2) + "-" + PadZero(NatToString(d.day), 2)
  }

  /** A number below 100 has at most two digits. */
  lemma NatToStringShort(n: nat)
    requires n < 100
    ensures |NatToString(n)| <= 2
  {
    if n >= 10 {
      assert NatToString(n) == NatToString(n / 10) + [DigitChar(n % 10)];
    }
  }

  /** A two-column group reads as the number it was rendered from, and a
      number below 100 fills exactly the two columns. */
  lemma DigitGroup(n: nat)
    ensures AllDigits(PadZero(NatToString(n), 2)) && ParseNat(PadZero(NatToString(n), 2)) == n
    ensures n < 100 ==> |PadZero(NatToString(n), 2)| == 2
  {
    PadZeroValue(NatToString(n), 2);
    ParseNatToString(n);
    if n < 100 {
      NatToStringShort(n);
    }
  }

  /** The three groups of a key and what they read as. */
  lemma DateKeyPieces(d: Date)
    ensures var y, m, dd := NatToString(d.year), PadZero(NatToString(d.month + 1), 2), PadZero(NatToString(d.day), 2);
      && Split(y + "-" + m + "-" + dd, '-') == [y, m, dd]
      && AllDigits(m) && ParseNat(m) == d.month + 1
      && AllDigits(dd) && ParseNat(dd) == d.day
      && (ValidDate(d) ==> |m| == 2 && |dd| == 2)
  {
    var y := NatToString(d.year);
    var m := PadZero(NatToString(d.month + 1), 2);
    var dd := PadZero(NatToString(d.day), 2);
    DigitGroup(d.month + 1);
    DigitGroup(d.day);
    NoDashInDigits(y);
    NoDashInDigits(m);
    NoDashInDigits(dd);
    SplitDateKey(y, m, dd);
  }

  /** The calendar's parse of a stored key: `d.split('-').map(Number)` fed
      to `new Date(y, m - 1, day)`; keys that are not three digit groups
      are rejected here instead of producing an invalid date. */
  function ParseDateKey(s: string): (r: Option<Date>)
    ensures var parts := Split(s, '-');
      r.Some? <==> |parts| == 3 && AllDigits(parts[0]) && AllDigits(parts[1]) && AllDigits(parts[2]) && ParseNat(parts[1]) >= 1
    ensures var parts := Split(s, '-');
      r.Some? ==> r.value == Date(ParseNat(parts[0]), ParseNat(parts[1]) - 1, ParseNat(parts[2]))
  {
    ParseParts(Split(s, '-'))
  }

  /** The pieces of a split key read as year, 1-based month and day. */
  function ParseParts(parts: seq<string>): (r: Option<Date>)
    ensures r.Some? ==> |parts| == 3
  {
    if |parts| == 3 && AllDigits(parts[0]) && AllDigits(parts[1]) && AllDigits(parts[2])
       && ParseNat(parts[1]) >= 1
    then Some(Date(ParseNat(parts[0]), ParseNat(parts[1]) - 1, ParseNat(parts[2])))
    else None
  }

  lemma NoDashInDigits(s: string)
    requires AllDigits(s)
    ensures '-' !in s
  {
  }

  lemma SplitDateKey(y: string, m: string, d: string)
    requires '-' !in y && '-' !in m && '-' !in d
    ensures Split(y + "-" + m + "-" + d, '-') == [y, m, d]
  {
    assert y + "-" + m + "-" + d == y + ['-'] + (m + ['-'] + d);
    SplitCons(y, '-', m + ['-'] + d);
    SplitCons(m, '-', d);
  }

  /** Reading back a stored key gives the date that was clicked. */
  lemma ParseDateKeyRoundTrip(d: Date)
    ensures ParseDateKey(ToLocalDateString(d)) == Some(d)
  {
    var parts := Split(ToLocalDateString(d), '-');
    ParseNatToString(d.year);
    assert ParseNat(parts[0]) == d.year;
    assert ParseParts(parts) == Some(d);
  }

  /** `isSameDay(a, b)`: same year, month and day of the month. */
  predicate IsSameDay(a: Date, b: Date) {
    a.year == b.year && a.month == b.month && a.day == b.day
  }

  /** Two dates are the same day exactly when their keys are equal, so the
      `includes` test on keys and `isSameDay` agree. */
  lemma SameDayIffSameKey(a: Date, b: Date)
    ensures IsSameDay(a, b) <==> ToLocalDateString(a) == ToLocalDateString(b)
  {
    if ToLocalDateString(a) == ToLocalDateString(b) {
      ParseDateKeyRoundTrip(a);
      ParseDateKeyRoundTrip(b);
    }
  }

  /** `handleSelect(date)`: store the clicked day's key. */
  function HandleSelect(days: seq<string>, d: Date): (r: seq<string>)
    ensures forall x :: x in days ==> x in r
    ensures forall x :: x in r ==> x in days || x == ToLocalDateString(d)
    ensures |days| <= |r| <= |days| + 1
    ensures exists k :: k in r && ParseDateKey(k) == Some(d)
  {
    ParseDateKeyRoundTrip(d);
    SetMatchaDay(days, ToLocalDateString(d))
  }

  // ---- the picture of a day ----------------------------------------------

  const ImageCount := 10

  /** `getImageForDay(day)`: which of the ten pictures a day of the month
      shows. */
  function ImageIndex(dayOfMonth: nat): (i: nat)
    ensures i < ImageCount
    ensures (dayOfMonth - i) % ImageCount == 0
  {
    dayOfMonth % ImageCount
  }

  /** Ten consecutive days show ten different pictures, and days ten apart
      show the same one. */
  lemma ImagesOfConsecutiveDays(a: nat, b: nat)
    ensures a < b < a + ImageCount ==> ImageIndex(a) != ImageIndex(b)
    ensures b == a + ImageCount ==> ImageIndex(a) == ImageIndex(b)
  {
  }

  // ---- streaks -----------------------------------------------------------

  function Day(d: int): int {
    d
  }

  /** `days.map(d => new Date(d)).sort((a, b) => a.getTime() - b.getTime())`
      on day numbers. */
  function SortedDays(days: seq<int>): (s: seq<int>)
    ensures NonDecreasing(s, Day) && multiset(s) == multiset(days) && |s| == |days|
  {
    var s := SortAsc(days, Day);
    PermutationLength(s, days);
    s
  }

  /** Every day from `start` for `len` days is a matcha day. */
  predicate Run(days: seq<int>, start: int, len: nat) {
    forall y :: start <= y < start + len ==> y in days
  }

  /** A run ending on `last` is no longer than the distance back to the
      nearest day before it that is not a matcha day. */
  lemma RunStopsAtGap(days: seq<int>, start: int, len: nat, last: int, c: nat)
    requires Run(days, start, len) && start + len - 1 == last
    requires last - c !in days
    ensures len <= c
  {
  }

  /** In a sorted list, no value lies strictly between neighbours. */
  lemma SortedGap(s: seq<int>, i: nat, y: int)
    requires NonDecreasing(s, Day) && 0 < i < |s|
    ensures y in s ==> y <= s[i - 1] || s[i] <= y
  {
    if y in s {
      var k :| 0 <= k < |s| && s[k] == y;
      assert k < i ==> Day(s[k]) <= Day(s[i - 1]);
      assert k >= i ==> Day(s[i]) <= Day(s[k]);
    }
  }

  /** `getStreak(days)`: the longest run of consecutive matcha days (0 for
      an empty list). A repeated entry neither extends nor breaks a run. */
  method Streak(days: seq<int>) returns (best: nat)
    ensures |days| == 0 <==> best == 0
    ensures best > 0 ==> exists start :: Run(days, start, best)
    ensures forall start, len: nat :: Run(days, start, len) ==> len <= best
  {
    var s := SortedDays(days);
    PermutationMembers(s, days);
    best := LongestRun(days, s);
  }

  /** Runs of matcha days that end on or before `bound` are at most `best`
      long. */
  ghost predicate RunsUpToBounded(days: seq<int>, bound: int, best: nat) {
    forall start, len: nat :: Run(days, start, len) && start + len - 1 <= bound ==> len <= best
  }

  /** The scan over a sorted copy `s` of the days. */
  method LongestRun(days: seq<int>, s: seq<int>) returns (best: nat)
    requires NonDecreasing(s, Day) && |s| == |days|
    requires forall y :: y in s <==> y in days
    ensures |days| == 0 <==> best == 0
    ensures best > 0 ==> exists start :: Run(days, start, best)
    ensures forall start, len: nat :: Run(days, start, len) ==> len <= best
  {
    if |s| == 0 {
      NoRunsInEmpty(days);
      return 0;
    }
    var current: nat := 1;
    best := 1;
    ghost var bestStart := s[0];
    assert Run(days, s[0], 1);
    RunsBeforeFirst(days, s);
    var i := 1;
    while i < |s|
      invariant 1 <= i <= |s|
      invariant 1 <= current <= best
      invariant Run(days, s[i - 1] - current + 1, current)
      invariant s[i - 1] - current !in days
      invariant Run(days, bestStart, best)
      invariant RunsUpToBounded(days, s[i - 1], best)
    {
      var prev, d := s[i - 1], s[i];
      assert Day(prev) <= Day(d);
      if d - prev == 1 {
        current := current + 1;
      } else if d - prev > 1 {
        current := 1;
        SortedGap(s, i, d - 1);
      }
      if current > best {
        best := current;
        bestStart := d - current + 1;
      }
      RunsStep(days, s, i, current, best);
      i := i + 1;
    }
    RunsEndAtLast(days, s, best);
  }

  lemma NoRunsInEmpty(days: seq<int>)
    requires |days| == 0
    ensures forall start, len: nat :: Run(days, start, len) ==> len == 0
  {
    forall start, len: nat | Run(days, start, len) ensures len == 0 {
      assert len > 0 ==> start in days;
    }
  }

  lemma RunsBeforeFirst(days: seq<int>, s: seq<int>)
    requires NonDecreasing(s, Day) && |s| > 0
    requires forall y :: y in s <==> y in days
    ensures RunsUpToBounded(days, s[0], 1)
  {
    forall start, len: nat | Run(days, start, len) && start + len - 1 <= s[0] ensures len <= 1 {
      if len > 0 {
        assert start in days;
        var k :| 0 <= k < |s| && s[k] == start;
        assert Day(s[0]) <= Day(s[k]);
      }
    }
  }

  /** One step of the scan: a run ending after `s[i - 1]` and by `s[i]`
      ends on `s[i]`, and the run ending there has length `current`. */
  lemma RunsStep(days: seq<int>, s: seq<int>, i: nat, current: nat, best: nat)
    requires NonDecreasing(s, Day) && 0 < i < |s|
    requires forall y :: y in s <==> y in days
    requires RunsUpToBounded(days, s[i - 1], best)
    requires s[i] - current !in days && current <= best
    ensures RunsUpToBounded(days, s[i], best)
  {
    forall start, len: nat | Run(days, start, len) && start + len - 1 <= s[i] ensures len <= best {
      var last := start + len - 1;
      if last > s[i - 1] && len > 0 {
        assert last in days;
        SortedGap(s, i, last);
        RunStopsAtGap(days, start, len, s[i], current);
      }
    }
  }

  lemma RunsEndAtLast(days: seq<int>, s: seq<int>, best: nat)
    requires NonDecreasing(s, Day) && |s| > 0
    requires forall y :: y in s <==> y in days
    requires RunsUpToBounded(days, s[|s| - 1], best)
    ensures forall start, len: nat :: Run(days, start, len) ==> len <= best
  {
    forall start, len: nat | Run(days, start, len) ensures len <= best {
      if len > 0 {
        var last := start + len - 1;
        assert last in days;
        var k :| 0 <= k < |s| && s[k] == last;
        assert k < |s| - 1 ==> Day(s[k]) <= Day(s[|s| - 1]);
      }
    }
  }

  /** The length of the run of consecutive days in the sorted list that
      ends at index `i`, walking backwards while neighbours are one day
      apart. */
  function BackRun(s: seq<int>, i: nat): (r: nat)
    requires i < |s|
    ensures 1 <= r <= i + 1
  {
    if i > 0 && s[i] - s[i - 1] == 1 then BackRun(s, i - 1) + 1 else 1
  }

  /** Two equal entries make a duplicate. */
  lemma EqualEntriesDuplicate(s: seq<int>, i: nat, j: nat)
    requires i < j < |s| && s[i] == s[j]
    ensures !NoDuplicates(s)
  {
    assert s == s[..j] + s[j..];
    assert s[i] in s[..j];
    assert s[j] in s[j..];
    assert multiset(s)[s[j]] == multiset(s[..j])[s[j]] + multiset(s[j..])[s[j]];
  }

  /** The backward walk finds a run of matcha days ending at `s[i]`; when
      the list holds no duplicate it is the whole run ending there. */
  lemma {:induction false} BackRunIsRun(s: seq<int>, i: nat)
    requires NonDecreasing(s, Day) && i < |s|
    ensures Run(s, s[i] - BackRun(s, i) + 1, BackRun(s, i))
    ensures NoDuplicates(s) ==> s[i] - BackRun(s, i) !in s
  {
    var r := BackRun(s, i);
    if i > 0 && s[i] - s[i - 1] == 1 {
      BackRunIsRun(s, i - 1);
    } else {
      if i > 0 {
        assert Day(s[i - 1]) <= Day(s[i]);
        SortedGap(s, i, s[i] - 1);
        if NoDuplicates(s) && s[i - 1] == s[i] {
          EqualEntriesDuplicate(s, i - 1, i);
        }
      } else {
        forall k | 0 <= k < |s| ensures s[k] != s[0] - 1 {
          assert k > 0 ==> Day(s[0]) <= Day(s[k]);
        }
      }
    }
  }

  /** The latest matcha day. */
  function Latest(days: seq<int>): (m: int)
    requires |days| > 0
    ensures m in days && forall y :: y in days ==> y <= m
  {
    if |days| == 1 then days[0]
    else
      var m := Latest(days[1..]);
      assert forall y :: y in days[1..] ==> y in days;
      assert forall y :: y in days ==> y == days[0] || y in days[1..];
      if days[0] >= m then days[0] else m
  }

  /** The last element of a sorted copy is the latest day. */
  lemma SortedLast(days: seq<int>, s: seq<int>)
    requires |days| > 0 && multiset(s) == multiset(days) && NonDecreasing(s, Day)
    ensures |s| == |days| && s[|s| - 1] == Latest(days)
  {
    PermutationMembers(s, days);
    PermutationLength(s, days);
    var m := Latest(days);
    assert s[|s| - 1] in days;
    var k :| 0 <= k < |s| && s[k] == m;
    assert k < |s| - 1 ==> Day(s[k]) <= Day(s[|s| - 1]);
  }

  lemma NoDuplicatesPermutation(a: seq<int>, b: seq<int>)
    requires multiset(a) == multiset(b) && NoDuplicates(a)
    ensures NoDuplicates(b)
  {
  }

  /** `getCurrentStreak(days)` on day numbers, `today` being the current
      local day: 0 unless the latest matcha day is today or yesterday,
      otherwise the run ending at that day. */
  function CurrentStreak(days: seq<int>, today: int): (r: nat)
    ensures r <= |days|
  {
    if |days| == 0 then 0
    else
      StreakEndingAt(SortedDays(days), today)
  }

  /** The walk back from the last element of a sorted list, started only
      when that element is `today` or the day before. */
  function StreakEndingAt(s: seq<int>, today: int): (r: nat)
    requires |s| > 0
    ensures r <= |s|
  {
    var gap := today - s[|s| - 1];
    if gap == 0 || gap == 1 then BackRun(s, |s| - 1) else 0
  }

  /** What the current streak means: zero exactly when the latest matcha
      day is neither today nor yesterday, and otherwise a run of matcha
      days ending at the latest one. */
  lemma CurrentStreakMeaning(days: seq<int>, today: int)
    ensures |days| == 0 ==> CurrentStreak(days, today) == 0
    ensures |days| > 0 ==>
      var m, r := Latest(days), CurrentStreak(days, today);
      && (r == 0 <==> m != today && m != today - 1)
      && Run(days, m - r + 1, r)
  {
    if |days| > 0 {
      var s := SortedDays(days);
      var m, r := Latest(days), CurrentStreak(days, today);
      assert r == StreakEndingAt(s, today);
      SortedLast(days, s);
      assert m == s[|s| - 1];
      StreakEndingAtMeaning(days, s, today);
      assert (r == 0 <==> m != today && m != today - 1) && Run(days, m - r + 1, r);
    }
  }

  /** When no day is listed twice, the current streak is the whole run of
      matcha days ending at the latest one, `m`. */
  lemma CurrentStreakIsWholeRun(days: seq<int>, today: int, m: int)
    requires NoDuplicates(days) && m in days && forall y :: y in days ==> y <= m
    ensures var r := CurrentStreak(days, today);
      r > 0 ==> m - r !in days
  {
    var s := SortedDays(days);
    assert CurrentStreak(days, today) == StreakEndingAt(s, today);
    SortedLast(days, s);
    assert Latest(days) == m;
    StreakEndingAtMeaning(days, s, today);
  }

  lemma StreakEndingAtMeaning(days: seq<int>, s: seq<int>, today: int)
    requires |s| > 0 && multiset(s) == multiset(days) && NonDecreasing(s, Day)
    ensures var m, r := s[|s| - 1], StreakEndingAt(s, today);
      && (r == 0 <==> m != today && m != today - 1)
      && Run(days, m - r + 1, r)
      && (r > 0 && NoDuplicates(days) ==> m - r !in days)
  {
    BackRunMeaning(days, s);
  }

  /** `BackRunIsRun` carried over from the sorted copy to the list. */
  lemma BackRunMeaning(days: seq<int>, s: seq<int>)
    requires |s| > 0 && multiset(s) == multiset(days) && NonDecreasing(s, Day)
    ensures var r := BackRun(s, |s| - 1);
      && Run(days, s[|s| - 1] - r + 1, r)
      && (NoDuplicates(days) ==> s[|s| - 1] - r !in days)
  {
    PermutationMembers(s, days);
    BackRunIsRun(s, |s| - 1);
    if NoDuplicates(days) {
      NoDuplicatesPermutation(days, s);
    }
  }

  // ---- the current streak as the page computes it -----------------------

  /** Milliseconds in a day. */
  const DayMs := 86400000

  /** `getCurrentStreak` as written: the stored keys are parsed with
      `new Date("YYYY-MM-DD")`, which yields UTC midnight, `dayNumber *
      DayMs`; `today` is the local midnight, whose timestamp `todayMs` is
      UTC midnight shifted by the time-zone offset. The first step demands
      a difference of exactly zero or one day. */
  function CurrentStreakAsWritten(days: seq<int>, todayMs: int): (r: nat)
    ensures r <= |days|
  {
    if |days| == 0 then 0
    else
      var s := SortedDays(days);
      var gap := todayMs - s[|s| - 1] * DayMs;
      if gap == 0 || gap == DayMs then BackRun(s, |s| - 1) else 0
  }

  lemma WholeDays(k: int)
    ensures (k * DayMs) % DayMs == 0
  {
  }

  /** Outside UTC, local midnight is not a whole number of days after the
      epoch, so the as-written current streak is 0 for every list. */
  lemma CurrentStreakAsWrittenIgnoresOffset(days: seq<int>, todayMs: int)
    requires todayMs % DayMs != 0
    ensures CurrentStreakAsWritten(days, todayMs) == 0
  {
    if |days| > 0 {
      var s := SortedDays(days);
      var x := s[|s| - 1];
      WholeDays(x);
      WholeDays(x + 1);
      assert (x + 1) * DayMs == x * DayMs + DayMs;
    }
  }

  /** In UTC the as-written version agrees with the day-number one. */
  lemma CurrentStreakAsWrittenInUtc(days: seq<int>, today: int)
    ensures CurrentStreakAsWritten(days, today * DayMs) == CurrentStreak(days, today)
  {
    if |days| > 0 {
      var s := SortedDays(days);
      var x := s[|s| - 1];
      assert today * DayMs - x * DayMs == (today - x) * DayMs;
    }
  }

  /** A matcha day marked today, seen from UTC+2 (local midnight is 22:00
      UTC the evening before): the page shows a current streak of 0 where
      1 is meant. */
  lemma CurrentStreakFinding()
    ensures CurrentStreakAsWritten([20330], 20330 * DayMs - 7200000) == 0
    ensures CurrentStreak([20330], 20330) == 1
  {
    CurrentStreakAsWrittenIgnoresOffset([20330], 20330 * DayMs - 7200000);
    CurrentStreakMeaning([20330], 20330);
  }

  /** `checkIfInStreak(dateStr)`: find the first occurrence of the day in
      the sorted list and look one step forward and one step back. */
  function InStreak(days: seq<int>, target: int): (b: bool)
    ensures b ==> target in days
  {
    if target !in days then false
    else
      var s := SortedDays(days);
      PermutationMembers(s, days);
      var k := IndexOf(s, target);
      (k + 1 < |s| && s[k + 1] - s[k] == 1) || (k > 0 && s[k] - s[k - 1] == 1)
  }

  /** A day reported as part of a streak is a matcha day with a matcha day
      right before or right after it; without duplicate entries the
      converse holds too. */
  lemma InStreakMeaning(days: seq<int>, target: int)
    ensures InStreak(days, target) ==> target in days && (target - 1 in days || target + 1 in days)
    ensures NoDuplicates(days) && target in days && (target - 1 in days || target + 1 in days) ==> InStreak(days, target)
  {
    if target in days {
      var s := SortedDays(days);
      PermutationMembers(s, days);
      InStreakSorted(s, target);
      if NoDuplicates(days) {
        NoDuplicatesPermutation(days, s);
      }
    }
  }

  /** The neighbour test on a sorted list at the first occurrence of the
      target. */
  lemma InStreakSorted(s: seq<int>, target: int)
    requires NonDecreasing(s, Day) && target in s
    ensures var k := IndexOf(s, target);
      && ((k + 1 < |s| && s[k + 1] - s[k] == 1) || (k > 0 && s[k] - s[k - 1] == 1) ==> target - 1 in s || target + 1 in s)
      && (NoDuplicates(s) && (target - 1 in s || target + 1 in s) ==>
            (k + 1 < |s| && s[k + 1] - s[k] == 1) || (k > 0 && s[k] - s[k - 1] == 1))
  {
    var k := IndexOf(s, target);
    if NoDuplicates(s) && target + 1 in s {
      NextIsSuccessor(s, k);
    }
    if NoDuplicates(s) && target - 1 in s {
      PreviousIsPredecessor(s, k);
    }
  }

  /** Without duplicates, the successor day of `s[k]`, if listed, sits at
      `k + 1`. */
  lemma NextIsSuccessor(s: seq<int>, k: nat)
    requires NonDecreasing(s, Day) && NoDuplicates(s) && k < |s| && s[k] + 1 in s
    ensures k + 1 < |s| && s[k + 1] == s[k] + 1
  {
    var j :| 0 <= j < |s| && s[j] == s[k] + 1;
    assert j <= k ==> Day(s[j]) <= Day(s[k]);
    assert Day(s[k]) <= Day(s[k + 1]);
    if s[k + 1] == s[k] {
      EqualEntriesDuplicate(s, k, k + 1);
    }
    SortedGap(s, k + 1, s[k] + 1);
  }

  /** Without duplicates, the previous day of `s[k]`, if listed, sits at
      `k - 1`. */
  lemma PreviousIsPredecessor(s: seq<int>, k: nat)
    requires NonDecreasing(s, Day) && NoDuplicates(s) && k < |s| && s[k] - 1 in s
    ensures k > 0 && s[k - 1] == s[k] - 1
  {
    var j :| 0 <= j < |s| && s[j] == s[k] - 1;
    assert k <= j ==> Day(s[k]) <= Day(s[j]);
    assert Day(s[k - 1]) <= Day(s[k]);
    if s[k - 1] == s[k] {
      EqualEntriesDuplicate(s, k - 1, k);
    }
    SortedGap(s, k, s[k] - 1);
  }
}
