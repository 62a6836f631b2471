# Matcha Match — a Dafny model of its rules

Matcha Match is a matcha-café finder. A React front end (two divergent
variants, `0002_MATCHA-MATCH` and `matcha-match`) talks to a Django back
end. Most of the code is UI and HTTP glue. Under it sits a set of small,
deterministic rules, and this project models those rules as pure Dafny
functions over immutable maps, sets and sequences and proves what they
promise:

- **The favourites ("hearts") store**, in both variants:
  - the zero-floor store (`HeartsZeroFloor`);
  - the store floored at seeded per-place base counts (`HeartsSeededFloor`).
- **The reviews store** (`ReviewsStore`) and the review form in front of it (`ReviewForm`).
- **The matcha-day calendar** (`MatchaDays`): date keys, the longest streak, the current streak and the "in a streak" test. The second variant's toggle map is `DayToggle`.
- **The back end's place scoring** (`MatchScore`): the points-based match score, the price formatter, the photo-URL builder, and the skip-and-sort step of the places endpoint.
- **The keyword fallback sentiment classifier** and the JSON-span extraction of the chat back end (`Sentiment`).
- **The two top-places carousels**:
  - the clamped, top-six one (`TopCarousel`);
  - the rotating one (`RotatingCarousel`).
- **The list view's sort options** (`ListView`).
- **The place card's field helpers** (`PlaceCard`) and the Google-Maps link priority every card and carousel uses (`MapsLink`).
- **The preferences and sign-in forms** (`Preferences`, `Auth`).

Shared modules:
- `Wrappers` holds `Option`.
- `Strings` holds JavaScript `trim`, `split`, `indexOf` and `lastIndexOf`, ASCII lower-casing, and decimal digits.
- `Sorting` is a stable insertion sort. It stands for `Array.prototype.sort` with a key comparator.
- `Maps` holds sums over map values.
- `Js` holds JavaScript truthiness and the `||` operator.

Representation choices:
- Times and dates are parameters:
  - the clock is an integer (`now`);
  - calendar days are integer day numbers;
  - dates are `Date(year, month, day)` records.
- Ratings and distances are integer tenths, so 4.5 stars is 45 and 0.5 miles is 5.
- The distance from the user to a place, URL encoding and number formatting are function parameters.
- JavaScript `null`/`undefined` is `None`. A falsy string is `None` or `""`, and a falsy number is `None` or `0`. `??` is `PlaceCard.Coalesce` and `||` is `Js.Or`.

Paths in the table are relative to the repository root.

## Model

| member | source | states |
|---|---|---|
| FavoriteData.FlipHeart | 00_HACKATHON-SUBMISSIONS/0002_MATCHA-MATCH/src/hooks/useFavorites.ts:144-152 | toggling the hearted set flips membership of the toggled place and of no other place |
| HeartsZeroFloor.ToggleHeart | 00_HACKATHON-SUBMISSIONS/0002_MATCHA-MATCH/src/hooks/useFavorites.ts:106-153 | hearting raises the count by one (absent is 0) and adds the place to the hearted set; unhearting lowers it by one, floored at 0, and deletes the entry when it reaches 0; every other place's entry and hearted flag are unchanged |
| HeartsZeroFloor.ToggleKeepsValid | 00_HACKATHON-SUBMISSIONS/0002_MATCHA-MATCH/src/hooks/useFavorites.ts:111-140 | a toggle keeps the store free of entries with a zero count and keyed by their own place id |
| HeartsZeroFloor.HeartThenUnheart | 00_HACKATHON-SUBMISSIONS/0002_MATCHA-MATCH/src/hooks/useFavorites.ts:106-153 | heart followed by unheart restores the place's heart count and hearted flag |
| HeartsZeroFloor.UnheartThenHeart | 00_HACKATHON-SUBMISSIONS/0002_MATCHA-MATCH/src/hooks/useFavorites.ts:106-153 | unheart followed by heart of a place with a positive count restores its count and hearted flag |
| HeartsZeroFloor.TotalHeartCount | 00_HACKATHON-SUBMISSIONS/0002_MATCHA-MATCH/src/hooks/useFavorites.ts:180-183 | the total heart count is the sum of every stored count |
| HeartsZeroFloor.TotalFavoritedPlaces | 00_HACKATHON-SUBMISSIONS/0002_MATCHA-MATCH/src/hooks/useFavorites.ts:174-177 | the number of stored keys equals the number of places with a positive heart count |
| HeartsZeroFloor.ToggleTotal | 00_HACKATHON-SUBMISSIONS/0002_MATCHA-MATCH/src/hooks/useFavorites.ts:106-153 | a heart raises the total by exactly one; an unheart lowers it by one unless the count was already 0 |
| HeartsZeroFloor.FavoritedPlaces | 00_HACKATHON-SUBMISSIONS/0002_MATCHA-MATCH/src/hooks/useFavorites.ts:167-171 | the favourites list holds every stored entry and only stored entries, one per key, ordered by non-increasing heart count |
| HeartsZeroFloor.ResetClears | 00_HACKATHON-SUBMISSIONS/0002_MATCHA-MATCH/src/hooks/useFavorites.ts:87-93 | after a reset every place has count 0 and is not hearted, and both totals are 0 |
| HeartsSeededFloor.ToggleHeart | 00_HACKATHON-SUBMISSIONS/matcha-match/src/hooks/useFavorites.ts:51-93 | the hearted flag flips; hearting stores max(base, current + 1), where current is the stored count or else the base; an unheart that would end at or below the base deletes the entry; no stored count is below its base; other places are untouched |
| HeartsSeededFloor.ToggleCount | 00_HACKATHON-SUBMISSIONS/matcha-match/src/hooks/useFavorites.ts:55-80 | in a store floored at the base counts, a toggle keeps it floored; the effective count becomes count + 1 after a heart and max(base, count − 1) after an unheart |
| HeartsSeededFloor.HeartThenUnheart | 00_HACKATHON-SUBMISSIONS/matcha-match/src/hooks/useFavorites.ts:51-111 | heart followed by unheart restores the effective heart count and hearted flag |
| HeartsSeededFloor.UnheartThenHeartCanGain | 00_HACKATHON-SUBMISSIONS/matcha-match/src/hooks/useFavorites.ts:55-70 | unheart then heart need not restore the count: on the seed data, a place marked hearted with no stored entry goes from 42 to 43, because unheart cannot go below the base but heart still adds one |
| HeartsSeededFloor.HeartedEntries | 00_HACKATHON-SUBMISSIONS/matcha-match/src/hooks/useFavorites.ts:116-128 | the filtered list holds exactly the seeded places whose effective count is positive, each with that effective count |
| HeartsSeededFloor.FavoritedPlaces | 00_HACKATHON-SUBMISSIONS/matcha-match/src/hooks/useFavorites.ts:114-130 | the favourites list holds only seeded places with a positive effective count and all of them, ordered by non-increasing count |
| HeartsSeededFloor.TotalFavoritedIsListLength | 00_HACKATHON-SUBMISSIONS/matcha-match/src/hooks/useFavorites.ts:133-140 | the number of favourited places equals the length of the favourites list |
| HeartsSeededFloor.TotalFavoritedIsEntries | 00_HACKATHON-SUBMISSIONS/matcha-match/src/hooks/useFavorites.ts:133-140 | the number of favourited places counts the seeded places whose effective count is positive |
| HeartsSeededFloor.BaseOfSeed | 00_HACKATHON-SUBMISSIONS/matcha-match/src/data/mockMatcha.ts:17-87 | with distinct seed ids, a seeded place's base count is its seed's heart count |
| HeartsSeededFloor.TotalIsSumOfHeartCounts | 00_HACKATHON-SUBMISSIONS/matcha-match/src/hooks/useFavorites.ts:143-149 | the total heart count is the sum of the effective heart count over the seeded places |
| HeartsSeededFloor.SuffixSums | 00_HACKATHON-SUBMISSIONS/matcha-match/src/hooks/useFavorites.ts:143-149 | the running total over any suffix of the seeds is the sum of their effective counts |
| ReviewsStore.AddReview | 00_HACKATHON-SUBMISSIONS/matcha-match/src/hooks/useReviews.ts:38-49 | the new review, stamped with the given id and time, goes last in that place's list; earlier reviews keep their order; every other place's list is unchanged |
| ReviewsStore.UnknownPlaceHasNone | 00_HACKATHON-SUBMISSIONS/matcha-match/src/hooks/useReviews.ts:52-54 | a place without an entry has no reviews |
| ReviewsStore.TotalReviews | 00_HACKATHON-SUBMISSIONS/matcha-match/src/hooks/useReviews.ts:62-64 | the total is the sum of all list lengths |
| ReviewsStore.AddReviewTotal | 00_HACKATHON-SUBMISSIONS/matcha-match/src/hooks/useReviews.ts:38-64 | adding a review raises the total by exactly one |
| ReviewsStore.AllReviews | 00_HACKATHON-SUBMISSIONS/matcha-match/src/hooks/useReviews.ts:57-59 | the flattened list has the total's length, contains every stored review, and contains nothing else |
| ReviewsStore.AverageRatingTenths | 00_HACKATHON-SUBMISSIONS/matcha-match/src/hooks/useReviews.ts:67-73 | the average is 0 without reviews; otherwise it is the mean rounded half up to one decimal, i.e. the t with 20·sum − n < 2·n·t ≤ 20·sum + n |
| ReviewsStore.SumRatingsBounds | 00_HACKATHON-SUBMISSIONS/matcha-match/src/hooks/useReviews.ts:67-73 | ratings in 1..5 sum to between n and 5n |
| ReviewsStore.AverageInRange | 00_HACKATHON-SUBMISSIONS/matcha-match/src/hooks/useReviews.ts:67-73 | with ratings in 1..5, a non-empty average lies between 1.0 and 5.0 |
| ReviewsStore.AverageExamples | 00_HACKATHON-SUBMISSIONS/matcha-match/src/hooks/useReviews.ts:67-73 | ratings 5 and 3 average 4.0; ratings 5, 4 and 4 average 4.3 |
| ReviewsStore.ReviewsSortedByDate | 00_HACKATHON-SUBMISSIONS/matcha-match/src/hooks/useReviews.ts:76-79 | the date-sorted list is a permutation of the place's reviews, newest first; the stored list is a value and is not reordered |
| ReviewForm.Initial | 00_HACKATHON-SUBMISSIONS/matcha-match/src/components/ReviewForm.tsx:15-17 | a fresh form has empty text fields and five stars |
| ReviewForm.Submit | 00_HACKATHON-SUBMISSIONS/matcha-match/src/components/ReviewForm.tsx:24-45 | submission is refused, leaving the form as it was, exactly when the trimmed name or trimmed comment is empty; otherwise the trimmed fields and the unchanged rating are submitted and the form resets |
| ReviewForm.SubmittedIsClean | 00_HACKATHON-SUBMISSIONS/matcha-match/src/components/ReviewForm.tsx:36-40 | a submitted name and comment are non-empty, have no surrounding whitespace, and are contiguous pieces of the typed text |
| ReviewForm.WhitespaceRejected | 00_HACKATHON-SUBMISSIONS/matcha-match/src/components/ReviewForm.tsx:24-31 | a name of whitespace only is refused and the form is unchanged |
| ReviewForm.ResubmitSame | 00_HACKATHON-SUBMISSIONS/matcha-match/src/components/ReviewForm.tsx:36-40 | retyping the submitted values submits the same review: trimming twice equals trimming once |
| ReviewForm.InitialRejected | 00_HACKATHON-SUBMISSIONS/matcha-match/src/components/ReviewForm.tsx:15-31 | a fresh form cannot be submitted |
| ReviewForm.ClickStar | 00_HACKATHON-SUBMISSIONS/matcha-match/src/components/ReviewForm.tsx:62-70 | clicking star i (0..4) selects i + 1 stars and leaves the text fields alone |
| ReviewForm.RatingStaysInRange | 00_HACKATHON-SUBMISSIONS/matcha-match/src/components/ReviewForm.tsx:16-45 | the initial state, star clicks and submissions keep the rating in 1..5, so every submitted review carries such a rating |
| ReviewForm.Stars | 00_HACKATHON-SUBMISSIONS/matcha-match/src/components/ReviewForm.tsx:73-78 | five stars are drawn, star i filled exactly when i < rating |
| ReviewForm.StarsShowRating | 00_HACKATHON-SUBMISSIONS/matcha-match/src/components/ReviewForm.tsx:62-81 | a rating of n draws exactly n filled stars, all before the empty ones |
| MatchaDays.SetMatchaDay | 00_HACKATHON-SUBMISSIONS/0002_MATCHA-MATCH/src/pages/Calendar.tsx:57-63 | marking a day keeps the existing keys in order and appends the key only when it is new |
| MatchaDays.SetMatchaDayIdempotent | 00_HACKATHON-SUBMISSIONS/0002_MATCHA-MATCH/src/pages/Calendar.tsx:57-63 | marking the same day twice is marking it once, and no duplicate key is ever introduced |
| MatchaDays.ToLocalDateString | 00_HACKATHON-SUBMISSIONS/0002_MATCHA-MATCH/src/pages/Calendar.tsx:102-108 | the key splits at its dashes into exactly three groups: the year's digits, then the digits of the 1-based month, then the day; for a valid date month and day are two digits each |
| MatchaDays.ParseDateKey | 00_HACKATHON-SUBMISSIONS/0002_MATCHA-MATCH/src/pages/Calendar.tsx:271-274 | a key is read exactly when it splits into three digit groups with a month of at least 1, and then gives the year, the month minus one and the day those groups spell |
| MatchaDays.ParseDateKeyRoundTrip | 00_HACKATHON-SUBMISSIONS/0002_MATCHA-MATCH/src/pages/Calendar.tsx:102-108 | reading back the key of any date gives that date: writing a key loses nothing |
| MatchaDays.SameDayIffSameKey | 00_HACKATHON-SUBMISSIONS/0002_MATCHA-MATCH/src/pages/Calendar.tsx:109-111 | two dates are the same day exactly when their keys are equal |
| MatchaDays.HandleSelect | 00_HACKATHON-SUBMISSIONS/0002_MATCHA-MATCH/src/pages/Calendar.tsx:225-231 | selecting a date keeps every marked day, adds at most the one key of that date and nothing else, and that key reads back as the date |
| MatchaDays.ImageIndex | 00_HACKATHON-SUBMISSIONS/0002_MATCHA-MATCH/src/pages/Calendar.tsx:21-26 | the picture of a day is one of the ten, and the day of the month minus the index is a multiple of ten |
| MatchaDays.ImagesOfConsecutiveDays | 00_HACKATHON-SUBMISSIONS/0002_MATCHA-MATCH/src/pages/Calendar.tsx:21-26 | days fewer than ten apart get different pictures; days exactly ten apart share one |
| MatchaDays.SortedDays | 00_HACKATHON-SUBMISSIONS/0002_MATCHA-MATCH/src/pages/Calendar.tsx:82-86 | the sorted days are an ascending permutation of the marked days |
| MatchaDays.Streak | 00_HACKATHON-SUBMISSIONS/0002_MATCHA-MATCH/src/pages/Calendar.tsx:82-101 | the longest streak is 0 exactly when no day is marked; otherwise it is the length of a run of consecutive marked days, and no run is longer |
| MatchaDays.LongestRun | 00_HACKATHON-SUBMISSIONS/0002_MATCHA-MATCH/src/pages/Calendar.tsx:87-100 | the loop over the sorted days extends a run on a gap of one, ignores a gap of zero, and restarts otherwise; its result is the longest run |
| MatchaDays.RunStopsAtGap | 00_HACKATHON-SUBMISSIONS/0002_MATCHA-MATCH/src/pages/Calendar.tsx:93-98 | a run ending at a day cannot be longer than the loop's current count there |
| MatchaDays.BackRunIsRun | 00_HACKATHON-SUBMISSIONS/0002_MATCHA-MATCH/src/pages/Calendar.tsx:120-141 | the backward walk from a sorted day covers a run of consecutive marked days, and without duplicates the day before it is unmarked |
| MatchaDays.Latest | 00_HACKATHON-SUBMISSIONS/0002_MATCHA-MATCH/src/pages/Calendar.tsx:114-117 | the latest marked day is marked and no marked day is later |
| MatchaDays.SortedLast | 00_HACKATHON-SUBMISSIONS/0002_MATCHA-MATCH/src/pages/Calendar.tsx:114-117 | the last of the sorted days is the latest marked day |
| MatchaDays.CurrentStreak | 00_HACKATHON-SUBMISSIONS/0002_MATCHA-MATCH/src/pages/Calendar.tsx:112-142 | the current streak, computed in whole local days, never exceeds the number of marked days |
| MatchaDays.CurrentStreakMeaning | 00_HACKATHON-SUBMISSIONS/0002_MATCHA-MATCH/src/pages/Calendar.tsx:112-142 | with nothing marked the current streak is 0; otherwise it is 0 exactly when the latest day is neither today nor yesterday, and the r days ending at the latest day are all marked |
| MatchaDays.CurrentStreakIsWholeRun | 00_HACKATHON-SUBMISSIONS/0002_MATCHA-MATCH/src/pages/Calendar.tsx:120-141 | without duplicates, a positive current streak covers the whole run ending at the latest day: the day before it is unmarked |
| MatchaDays.StreakEndingAt | 00_HACKATHON-SUBMISSIONS/0002_MATCHA-MATCH/src/pages/Calendar.tsx:118-141 | the streak ending at a day never exceeds the number of sorted days |
| MatchaDays.StreakEndingAtMeaning | 00_HACKATHON-SUBMISSIONS/0002_MATCHA-MATCH/src/pages/Calendar.tsx:124-130 | on the sorted days, the streak is 0 exactly when the latest day is neither today nor yesterday; the days it covers are marked; without duplicates the day before them is not |
| MatchaDays.BackRunMeaning | 00_HACKATHON-SUBMISSIONS/0002_MATCHA-MATCH/src/pages/Calendar.tsx:131-141 | the backward walk from the latest day covers consecutive marked days, and without duplicates it stops only at an unmarked day |
| MatchaDays.CurrentStreakAsWritten | 00_HACKATHON-SUBMISSIONS/0002_MATCHA-MATCH/src/pages/Calendar.tsx:112-142 | the computation as written, comparing local midnight with keys read as UTC midnight in milliseconds, never exceeds the number of marked days |
| MatchaDays.CurrentStreakAsWrittenIgnoresOffset | 00_HACKATHON-SUBMISSIONS/0002_MATCHA-MATCH/src/pages/Calendar.tsx:118-125 | when "today" is not a whole number of UTC days, the computation as written gives 0, however the days are marked |
| MatchaDays.CurrentStreakAsWrittenInUtc | 00_HACKATHON-SUBMISSIONS/0002_MATCHA-MATCH/src/pages/Calendar.tsx:112-142 | at a UTC offset of zero the computation as written agrees with the corrected one |
| MatchaDays.CurrentStreakFinding | 00_HACKATHON-SUBMISSIONS/0002_MATCHA-MATCH/src/pages/Calendar.tsx:118-125 | a user two hours east of UTC who marked today sees a streak of 0 where 1 is meant |
| MatchaDays.InStreak | 00_HACKATHON-SUBMISSIONS/0002_MATCHA-MATCH/src/pages/Calendar.tsx:145-184 | only a marked date can be in a streak |
| MatchaDays.InStreakMeaning | 00_HACKATHON-SUBMISSIONS/0002_MATCHA-MATCH/src/pages/Calendar.tsx:145-184 | a date in a streak is marked and has a marked neighbour one day away; without duplicates, every such date is in a streak |
| MatchaDays.InStreakSorted | 00_HACKATHON-SUBMISSIONS/0002_MATCHA-MATCH/src/pages/Calendar.tsx:150-184 | the test looks only at the target's sorted neighbours: it holds when the next or the previous sorted day is one day away |
| MatchaDays.NextIsSuccessor | 00_HACKATHON-SUBMISSIONS/0002_MATCHA-MATCH/src/pages/Calendar.tsx:160-170 | in sorted distinct days, if the day after the target is marked, it is the next sorted day |
| MatchaDays.PreviousIsPredecessor | 00_HACKATHON-SUBMISSIONS/0002_MATCHA-MATCH/src/pages/Calendar.tsx:171-181 | in sorted distinct days, if the day before the target is marked, it is the previous sorted day |
| DayToggle.TileClass | 00_HACKATHON-SUBMISSIONS/matcha-match/src/pages/Calendar.tsx:24-26 | a tile is highlighted exactly when its key maps to true |
| DayToggle.HandleDayClick | 00_HACKATHON-SUBMISSIONS/matcha-match/src/pages/Calendar.tsx:10-16 | a click flips the flag stored for the day (absent counts as false) and leaves every other key unchanged |
| DayToggle.ClickTwice | 00_HACKATHON-SUBMISSIONS/matcha-match/src/pages/Calendar.tsx:10-26 | two clicks restore the day's flag; an unclicked day clicked twice is not highlighted |
| DayToggle.ClickIsLocal | 00_HACKATHON-SUBMISSIONS/matcha-match/src/pages/Calendar.tsx:12-26 | clicking one day never changes another day's highlight |
| Preferences.Initial | 00_HACKATHON-SUBMISSIONS/matcha-match/src/pages/Preferences.tsx:13-20 | the form starts with empty choices, sweetness 50 and no atmospheres |
| Preferences.Remove | 00_HACKATHON-SUBMISSIONS/matcha-match/src/pages/Preferences.tsx:31 | unchecking removes every occurrence of the atmosphere and keeps every other one |
| Preferences.RemoveKeepsOrder | 00_HACKATHON-SUBMISSIONS/matcha-match/src/pages/Preferences.tsx:31 | the remaining atmospheres keep their order, and exactly the occurrences of the removed one are gone |
| Preferences.AtmosphereChange | 00_HACKATHON-SUBMISSIONS/matcha-match/src/pages/Preferences.tsx:26-33 | checking appends the atmosphere; unchecking removes it; no other field changes |
| Preferences.CheckboxFollowsClick | 00_HACKATHON-SUBMISSIONS/matcha-match/src/pages/Preferences.tsx:26-33 | after a change, the atmosphere is listed exactly when the box was checked |
| Preferences.CanProceedRules | 00_HACKATHON-SUBMISSIONS/matcha-match/src/pages/Preferences.tsx:64 | one may proceed exactly when matcha type, price range and experience are all non-empty; never from the initial form; an atmosphere change does not affect it |
| Auth.FinishLogin | 00_HACKATHON-SUBMISSIONS/matcha-match/src/pages/Auth.tsx:17-20 | the session keeps the email unchanged; its name is non-empty, has no '@', and is either "Matcha Lover" or the prefix of the email up to its first '@' |
| Auth.LocalPart | 00_HACKATHON-SUBMISSIONS/matcha-match/src/pages/Auth.tsx:18 | the first part of splitting at '@' is the text before the first '@' |
| Auth.FinishLoginName | 00_HACKATHON-SUBMISSIONS/matcha-match/src/pages/Auth.tsx:17-20 | the name is the local part of the email, or "Matcha Lover" when the local part is empty |
| Auth.SignUp | 00_HACKATHON-SUBMISSIONS/matcha-match/src/pages/Auth.tsx:22-44 | sign-up stores no session exactly when password and confirmation differ; otherwise it stores the session of the email |
| Auth.SignIn | 00_HACKATHON-SUBMISSIONS/matcha-match/src/pages/Auth.tsx:46-61 | sign-in stores a session for whatever email was given |
| Auth.SignInIgnoresPassword | 00_HACKATHON-SUBMISSIONS/matcha-match/src/pages/Auth.tsx:50-56 | the password never influences sign-in |
| Auth.SignUpThenSignIn | 00_HACKATHON-SUBMISSIONS/matcha-match/src/pages/Auth.tsx:17-61 | a sign-up with matching passwords stores the same session as a sign-in with any password |
| MatchScore.ContextFromRequest | 00_HACKATHON-SUBMISSIONS/matcha-match/places/views.py:88-102 | the context has the clock's hour, each query parameter or its default (neutral, medium, any, none, sunny), and the comma-separated pieces of a non-empty `special_needs`, else no needs |
| MatchScore.EmptyRequestDefaults | 00_HACKATHON-SUBMISSIONS/matcha-match/places/views.py:92-102 | a request without parameters gives the default mood, budget, vibe, occasion and weather and no needs |
| MatchScore.NeedsFromRequest | 00_HACKATHON-SUBMISSIONS/matcha-match/places/views.py:97 | a single need comes through as itself and a comma-separated pair as its two pieces |
| MatchScore.RatingPoints | 00_HACKATHON-SUBMISSIONS/matcha-match/places/views.py:200-212 | no points for a rating of at most 0; otherwise 10, 15, 20, 25 or 30 at the 3.5, 4.0, 4.5 and 4.8 thresholds |
| MatchScore.RatingMonotone | 00_HACKATHON-SUBMISSIONS/matcha-match/places/views.py:200-212 | a higher rating never earns fewer points |
| MatchScore.SentimentPoints | 00_HACKATHON-SUBMISSIONS/matcha-match/places/views.py:215-247 | for each mood group the points are 20 for a name word of the group, plus 15 for a place type, plus 10 for the group's third rule (rating at least 4.5, price level 2 or 3, wifi); 0 for any other mood |
| MatchScore.PartOfDay | 00_HACKATHON-SUBMISSIONS/matcha-match/places/views.py:250-270 | hours 6–11 are morning, 12–16 lunch, 17–21 evening, 22 onwards and up to 2 night, 3–5 nothing: the first matching branch wins at the shared boundaries |
| MatchScore.TimePoints | 00_HACKATHON-SUBMISSIONS/matcha-match/places/views.py:249-270 | in each part of the day the points are 20 for one of the two place types of that part plus 15 for the third; nothing between 3 and 5 o'clock |
| MatchScore.TimeBoundaries | 00_HACKATHON-SUBMISSIONS/matcha-match/places/views.py:250-270 | hours 3–5 earn nothing; 11 is morning, 16 lunch, 21 evening; 2 and 23 are night |
| MatchScore.BudgetPoints | 00_HACKATHON-SUBMISSIONS/matcha-match/places/views.py:276-283 | 20 points exactly when a low budget meets price level ≤ 1, a medium one 1 or 2, or a high one ≥ 3; otherwise 0 |
| MatchScore.VibePoints | 00_HACKATHON-SUBMISSIONS/matcha-match/places/views.py:285-292 | 20 points exactly when the wanted vibe is cozy, trendy or quiet and the name carries one of that vibe's three words, else 0 |
| MatchScore.NeedsPoints | 00_HACKATHON-SUBMISSIONS/matcha-match/places/views.py:294-301 | 15 points for each of wifi, outdoor seating and wheelchair access that is both asked for and offered |
| MatchScore.MatchaIsMatchaWord | 00_HACKATHON-SUBMISSIONS/matcha-match/places/views.py:304-312 | a name containing "matcha" contains one of the matcha keywords |
| MatchScore.MatchaPoints | 00_HACKATHON-SUBMISSIONS/matcha-match/places/views.py:304-312 | 15 points exactly for "matcha" in the name, 5 for another matcha keyword only, 0 otherwise, so never more than 15 |
| MatchScore.DistancePoints | 00_HACKATHON-SUBMISSIONS/matcha-match/places/views.py:332-342 | 15, 12, 8, 5 or 2 points exactly for distances up to 0.5, 1, 2 and 3 miles and beyond |
| MatchScore.DistanceNonIncreasing | 00_HACKATHON-SUBMISSIONS/matcha-match/places/views.py:333-342 | a farther place never earns more distance points |
| MatchScore.OccasionPoints | 00_HACKATHON-SUBMISSIONS/matcha-match/places/views.py:345-351 | 10 points exactly for a date at a romantic place, a birthday at a celebration place or a meeting at a quiet place |
| MatchScore.WeatherPoints | 00_HACKATHON-SUBMISSIONS/matcha-match/places/views.py:354-358 | 5 points exactly for indoor seating in the rain or outdoor seating in the sun |
| MatchScore.RawScore | 00_HACKATHON-SUBMISSIONS/matcha-match/places/views.py:192-358 | the unclamped sum lies in 2..240 |
| MatchScore.MatchScore | 00_HACKATHON-SUBMISSIONS/matcha-match/places/views.py:361 | the score lies in [0, 200], indeed in [2, 200]; it is the raw sum unless that exceeds 200 |
| MatchScore.ScoreCapReached | 00_HACKATHON-SUBMISSIONS/matcha-match/places/views.py:192-361 | the cap is reachable: a concrete place and context have a raw sum above 200 and score exactly 200 |
| MatchScore.FormatPriceRange | 00_HACKATHON-SUBMISSIONS/matcha-match/places/views.py:379-392 | level 0 is "Free", 1..4 is that many dollar signs, a missing level and any other value is "Price not available" |
| MatchScore.UrlsFor | 00_HACKATHON-SUBMISSIONS/matcha-match/places/views.py:400-420 | one URL per photo with a non-empty reference, in order: with a usable key the Places photo URL for that reference and key, without one the placeholder |
| MatchScore.References | 00_HACKATHON-SUBMISSIONS/matcha-match/places/views.py:400-403 | the photo references that are present and non-empty, in order, one per counted photo |
| MatchScore.ReferencesMeaning | 00_HACKATHON-SUBMISSIONS/matcha-match/places/views.py:400-403 | a string is a listed reference exactly when some photo carries it as a non-empty reference |
| MatchScore.CountReferencesBound | 00_HACKATHON-SUBMISSIONS/matcha-match/places/views.py:400-420 | there are never more URLs than photos |
| MatchScore.PhotoUrls | 00_HACKATHON-SUBMISSIONS/matcha-match/places/views.py:394-427 | the placeholder alone when none of the first three photos has a reference; otherwise one URL per such reference, in order, each the photo URL for that reference with a usable key and the placeholder without one |
| MatchScore.Process | 00_HACKATHON-SUBMISSIONS/matcha-match/places/views.py:104-129 | a processed place keeps the coordinates, rating, price level and vicinity, uses the place id as both ids, defaults the name, carries the match score and distance computed for its coordinates, the formatted price and the photo URLs |
| MatchScore.ProcessAll | 00_HACKATHON-SUBMISSIONS/matcha-match/places/views.py:79-129 | the output is no longer than the input and every score lies in [2, 200] |
| MatchScore.ProcessAllContents | 00_HACKATHON-SUBMISSIONS/matcha-match/places/views.py:79-85 | a place is output exactly when it is the processing of an input with coordinates: places without coordinates are skipped |
| MatchScore.RankPlaces | 00_HACKATHON-SUBMISSIONS/matcha-match/places/views.py:134 | the response is a permutation of the processed places, ordered by non-increasing match score |
| MatchScore.RankPlacesContents | 00_HACKATHON-SUBMISSIONS/matcha-match/places/views.py:79-134 | the ranked list contains exactly the processed inputs that have coordinates, is no longer than the input, and every score lies in [2, 200] |
| Sentiment.Mood | 00_HACKATHON-SUBMISSIONS/matcha-match/ai_chat/views.py:141-155 | the mood is one of five; happy words beat stressed ones, which beat social ones, which beat focused ones; otherwise neutral |
| Sentiment.Budget | 00_HACKATHON-SUBMISSIONS/matcha-match/ai_chat/views.py:165-168 | the budget is low exactly when a cheap word occurs, high when only a premium word does, else medium |
| Sentiment.Vibe | 00_HACKATHON-SUBMISSIONS/matcha-match/ai_chat/views.py:170-173 | the vibe is quiet exactly when a calm word occurs, trendy when only a lively word does, else neutral |
| Sentiment.Fallback | 00_HACKATHON-SUBMISSIONS/matcha-match/ai_chat/views.py:136-179 | the fallback gives one of the five moods, confidence 0.6, and exactly the four preference keys, with location "anywhere" and special needs "none" |
| Sentiment.FallbackCaseInsensitive | 00_HACKATHON-SUBMISSIONS/matcha-match/ai_chat/views.py:138 | lower-casing the text first changes nothing |
| Sentiment.FallbackSameUpToCase | 00_HACKATHON-SUBMISSIONS/matcha-match/ai_chat/views.py:138 | texts equal up to letter case get the same analysis |
| Sentiment.WorkWordsMeanStressed | 00_HACKATHON-SUBMISSIONS/matcha-match/ai_chat/views.py:141-152 | text with "study", "work" or "quiet" is stressed unless a happy word occurs, and then it is happy |
| Sentiment.FocusedNeedsFocusWord | 00_HACKATHON-SUBMISSIONS/matcha-match/ai_chat/views.py:141-153 | a focused result needs "focus" or "concentration" and none of the happy, stressed or social words |
| Sentiment.CheapBeatsPremium | 00_HACKATHON-SUBMISSIONS/matcha-match/ai_chat/views.py:165-168 | a cheap word makes the budget low whatever premium words occur |
| Sentiment.JsonSpan | 00_HACKATHON-SUBMISSIONS/matcha-match/ai_chat/views.py:115-118 | a candidate exists exactly when both '{' and '}' occur; a non-empty candidate is a slice of the reply from a '{' to a '}' |
| Sentiment.JsonSpanOfObject | 00_HACKATHON-SUBMISSIONS/matcha-match/ai_chat/views.py:115-118 | with no '{' before and no '}' after, the candidate is exactly the braced body |
| Sentiment.Analyze | 00_HACKATHON-SUBMISSIONS/matcha-match/ai_chat/views.py:108-134 | no reply or no candidate means the keyword fallback; a parsed candidate gives its fields with defaults neutral, 0.5 and an empty map; an unparsable one falls back |
| Sentiment.BracelessReplyFallsBack | 00_HACKATHON-SUBMISSIONS/matcha-match/ai_chat/views.py:115-128 | a reply without '{' always falls back to the keyword analysis |
| Sentiment.FallbackReply | 00_HACKATHON-SUBMISSIONS/matcha-match/ai_chat/views.py:229-241 | the reply is the table entry for a known mood and the neutral message for any other |
| Sentiment.FallbackMoodsHaveReplies | 00_HACKATHON-SUBMISSIONS/matcha-match/ai_chat/views.py:146-241 | every fallback mood has its own reply, and only the neutral mood gets the neutral message |
| TopCarousel.Normalise | 00_HACKATHON-SUBMISSIONS/0002_MATCHA-MATCH/src/components/TopPlacesCarousel.tsx:68-81 | missing fields default to address "Address not available", price "$$", rating 0, distance 0 and no photos; name and coordinates are kept |
| TopCarousel.NormaliseIds | 00_HACKATHON-SUBMISSIONS/0002_MATCHA-MATCH/src/components/TopPlacesCarousel.tsx:68-81 | each of id and place id falls back on the other |
| TopCarousel.TopRaw | 00_HACKATHON-SUBMISSIONS/0002_MATCHA-MATCH/src/components/TopPlacesCarousel.tsx:65-67 | the top list has min(6, n) places taken from the input without repeating any, ordered by non-increasing rating with a missing rating as 0 |
| Sorting.SortDescStable | 00_HACKATHON-SUBMISSIONS/0002_MATCHA-MATCH/src/components/TopPlacesCarousel.tsx:65-66 | the sort is stable: the elements of each key keep their input order |
| TopCarousel.TopRawStable | 00_HACKATHON-SUBMISSIONS/0002_MATCHA-MATCH/src/components/TopPlacesCarousel.tsx:65-67 | among places with the same rating, those kept are the first ones of the input, in input order |
| TopCarousel.TopRawIsBest | 00_HACKATHON-SUBMISSIONS/0002_MATCHA-MATCH/src/components/TopPlacesCarousel.tsx:65-67 | every place left out is rated no higher than every place kept |
| TopCarousel.TopPlaces | 00_HACKATHON-SUBMISSIONS/0002_MATCHA-MATCH/src/components/TopPlacesCarousel.tsx:65-81 | at most six normalised places, in non-increasing rating order |
| TopCarousel.Next | 00_HACKATHON-SUBMISSIONS/0002_MATCHA-MATCH/src/components/TopPlacesCarousel.tsx:187-193 | the next index never passes max(0, n − 3); from a valid index it moves up by one exactly when below that bound |
| TopCarousel.Prev | 00_HACKATHON-SUBMISSIONS/0002_MATCHA-MATCH/src/components/TopPlacesCarousel.tsx:195-200 | the previous index never goes below 0, drops by at most one, and stays put exactly at 0 |
| TopCarousel.Autoplay | 00_HACKATHON-SUBMISSIONS/0002_MATCHA-MATCH/src/components/TopPlacesCarousel.tsx:177-185 | an autoplay tick keeps the index below max(1, n − 2) |
| TopCarousel.DotClick | 00_HACKATHON-SUBMISSIONS/0002_MATCHA-MATCH/src/components/TopPlacesCarousel.tsx:281-285 | clicking dot k shows position k, which is a valid position |
| TopCarousel.DotsMatchArrows | 00_HACKATHON-SUBMISSIONS/0002_MATCHA-MATCH/src/components/TopPlacesCarousel.tsx:181-189 | there is one dot per index the arrows can reach |
| TopCarousel.IndexStaysValid | 00_HACKATHON-SUBMISSIONS/0002_MATCHA-MATCH/src/components/TopPlacesCarousel.tsx:177-285 | next, prev, dot clicks and autoplay all keep the index in the range of the dots |
| TopCarousel.AutoplayIsNextOrWrap | 00_HACKATHON-SUBMISSIONS/0002_MATCHA-MATCH/src/components/TopPlacesCarousel.tsx:181-189 | autoplay moves like the next arrow except that it wraps to 0 from the last index |
| TopCarousel.ArrowsEnabledIffTheyMove | 00_HACKATHON-SUBMISSIONS/0002_MATCHA-MATCH/src/components/TopPlacesCarousel.tsx:265-266 | an arrow is enabled exactly when pressing it changes the index |
| TopCarousel.VisibleSlice | 00_HACKATHON-SUBMISSIONS/0002_MATCHA-MATCH/src/components/TopPlacesCarousel.tsx:264 | at most three places are visible: the three from the index when they exist, none past the end |
| TopCarousel.FullViews | 00_HACKATHON-SUBMISSIONS/0002_MATCHA-MATCH/src/components/TopPlacesCarousel.tsx:264-266 | with at least three places, every valid index shows exactly three |
| TopCarousel.LinkFor | 00_HACKATHON-SUBMISSIONS/0002_MATCHA-MATCH/src/components/TopPlacesCarousel.tsx:202-232 | a profile link exactly for a "ChIJ" place id; coordinates are used for a place with an address only when it has no name |
| TopCarousel.NamedPlacesAreSearched | 00_HACKATHON-SUBMISSIONS/0002_MATCHA-MATCH/src/components/TopPlacesCarousel.tsx:68-81 | a named place without a "ChIJ" id always opens a name-and-address search, because normalisation supplies an address |
| RotatingCarousel.Next | 00_HACKATHON-SUBMISSIONS/matcha-match/src/components/TopPlacesCarousel.tsx:75-80 | the next index is i + 1, wrapping from the last place to 0, and stays below n |
| RotatingCarousel.Prev | 00_HACKATHON-SUBMISSIONS/matcha-match/src/components/TopPlacesCarousel.tsx:82-87 | the previous index is i − 1, wrapping from 0 to the last place, and stays below n |
| RotatingCarousel.Autoplay | 00_HACKATHON-SUBMISSIONS/matcha-match/src/components/TopPlacesCarousel.tsx:65-73 | an autoplay tick keeps the index below n |
| RotatingCarousel.AutoplayIsNext | 00_HACKATHON-SUBMISSIONS/matcha-match/src/components/TopPlacesCarousel.tsx:69-76 | an autoplay tick moves exactly like the next arrow |
| RotatingCarousel.PrevNextInverse | 00_HACKATHON-SUBMISSIONS/matcha-match/src/components/TopPlacesCarousel.tsx:76-83 | prev undoes next and next undoes prev |
| RotatingCarousel.AdvanceIsRotation | 00_HACKATHON-SUBMISSIONS/matcha-match/src/components/TopPlacesCarousel.tsx:69-76 | k ticks from i land on (i + k) mod n |
| RotatingCarousel.FullRound | 00_HACKATHON-SUBMISSIONS/matcha-match/src/components/TopPlacesCarousel.tsx:69-76 | n ticks bring the carousel back to where it started |
| RotatingCarousel.LinkFor | 00_HACKATHON-SUBMISSIONS/matcha-match/src/components/TopPlacesCarousel.tsx:89-120 | a "ChIJ" id opens its profile; otherwise a name and address open a search |
| RotatingCarousel.SamplesOpenSearches | 00_HACKATHON-SUBMISSIONS/matcha-match/src/components/TopPlacesCarousel.tsx:21-62 | every one of the built-in sample places opens a name-and-address search |
| MapsLink.Choose | 00_HACKATHON-SUBMISSIONS/matcha-match/src/components/TopPlacesCarousel.tsx:89-120 | a profile exactly for a "ChIJ" id; else a search exactly when name and address are present; else coordinates when both are non-zero; else the homepage |
| MapsLink.ChooseForCard | 00_HACKATHON-SUBMISSIONS/0002_MATCHA-MATCH/src/components/PlaceCard.tsx:24-62 | a "ChIJ" id beats a "ChIJ" place id; a search needs a name and an address or vicinity; the homepage only when neither id qualifies (same rule at matcha-match PlaceCard.tsx:20-58) |
| MapsLink.FirstPresent | 00_HACKATHON-SUBMISSIONS/0002_MATCHA-MATCH/src/components/PlaceCard.tsx:24-56 | the chosen link is the fallback or one of the candidates |
| MapsLink.ChooseIsFirstCandidate | 00_HACKATHON-SUBMISSIONS/matcha-match/src/components/TopPlacesCarousel.tsx:89-115 | the link is the first available of profile, search, coordinates, homepage |
| MapsLink.ChooseForCardIsFirstCandidate | 00_HACKATHON-SUBMISSIONS/0002_MATCHA-MATCH/src/components/PlaceCard.tsx:24-56 | the card link is the first available of id profile, place-id profile, search, coordinates, homepage |
| MapsLink.Url | 00_HACKATHON-SUBMISSIONS/0002_MATCHA-MATCH/src/components/PlaceCard.tsx:28-56 | every link opens a Google Maps URL |
| MapsLink.ProfileIdOf | 00_HACKATHON-SUBMISSIONS/0002_MATCHA-MATCH/src/components/PlaceCard.tsx:28 | an id read from a URL is exactly what follows the profile prefix |
| MapsLink.ProfileUrlRoundTrip | 00_HACKATHON-SUBMISSIONS/0002_MATCHA-MATCH/src/components/PlaceCard.tsx:28-56 | the place id can be read back from a profile URL and from no other URL |
| ListView.PriceOrder | 00_HACKATHON-SUBMISSIONS/matcha-match/src/components/ListView.tsx:30-31 | the price order is 1..4 and equals the number of dollar signs of the symbol |
| ListView.PriceOrderCountsDollars | 00_HACKATHON-SUBMISSIONS/matcha-match/src/components/ListView.tsx:30 | each price symbol is its order's number of dollar signs |
| ListView.SortPlaces | 00_HACKATHON-SUBMISSIONS/matcha-match/src/components/ListView.tsx:21-35 | the sorted list is a permutation of the input; match score and rating come out non-increasing, distance and price non-decreasing |
| ListView.CountMatchesShown | 00_HACKATHON-SUBMISSIONS/matcha-match/src/components/ListView.tsx:21-41 | the displayed count equals the number of listed places, and the same places are listed |
| ListView.FirstIsBest | 00_HACKATHON-SUBMISSIONS/matcha-match/src/components/ListView.tsx:21-35 | the first listed place is at least as good as any place under the chosen option |
| PlaceCard.Text | 00_HACKATHON-SUBMISSIONS/0002_MATCHA-MATCH/src/components/PlaceCard.tsx:9 | the text is the longest prefix of the value of at most max characters, and "" for a missing value (same helper at matcha-match PlaceCard.tsx:7) |
| PlaceCard.TextIdempotent | 00_HACKATHON-SUBMISSIONS/0002_MATCHA-MATCH/src/components/PlaceCard.tsx:9 | truncating twice is truncating once |
| PlaceCard.TextKeepsShort | 00_HACKATHON-SUBMISSIONS/0002_MATCHA-MATCH/src/components/PlaceCard.tsx:9 | text within the limit is shown whole |
| PlaceCard.Dollars | 00_HACKATHON-SUBMISSIONS/0002_MATCHA-MATCH/src/components/PlaceCard.tsx:10-11 | a positive level shows min(4, n) dollar signs, anything else "—" (same helper at matcha-match PlaceCard.tsx:8-9) |
| PlaceCard.DollarsAgreesWithBackend | 00_HACKATHON-SUBMISSIONS/0002_MATCHA-MATCH/src/components/PlaceCard.tsx:10-11 | for levels 1..4 the card shows what the back end's price formatter produces |
| PlaceCard.DollarsSaturates | 00_HACKATHON-SUBMISSIONS/0002_MATCHA-MATCH/src/components/PlaceCard.tsx:10-11 | every level from 4 up shows four dollar signs |
| PlaceCard.PriceLabel | 00_HACKATHON-SUBMISSIONS/0002_MATCHA-MATCH/src/components/PlaceCard.tsx:64-65 | a present price range is shown as is; otherwise the dollars of the price level |
| PlaceCard.Coalesce | 00_HACKATHON-SUBMISSIONS/0002_MATCHA-MATCH/src/components/PlaceCard.tsx:74 | the first value when present, else the second |
| PlaceCard.Address | 00_HACKATHON-SUBMISSIONS/0002_MATCHA-MATCH/src/components/PlaceCard.tsx:74 | the address, else the vicinity, truncated to at most 80 characters (same rule at matcha-match PlaceCard.tsx:70) |
| PlaceCard.ScoreOf | 00_HACKATHON-SUBMISSIONS/0002_MATCHA-MATCH/src/components/PlaceCard.tsx:76-81 | the score is the front-end score, else the back-end score, else 0 (same rule at matcha-match PlaceCard.tsx:72-77) |
| PlaceCard.DistanceLabel | 00_HACKATHON-SUBMISSIONS/0002_MATCHA-MATCH/src/components/PlaceCard.tsx:67-72 | a text distance is shown as is, a number with one decimal, and a missing one as "—" |
| PlaceCard.TenthsRoundTrip | 00_HACKATHON-SUBMISSIONS/0002_MATCHA-MATCH/src/components/PlaceCard.tsx:69 | the one-decimal label splits at its dot into the whole part and one digit, which read back as the distance |
| PlaceCard.ImageSrc | 00_HACKATHON-SUBMISSIONS/0002_MATCHA-MATCH/src/components/PlaceCard.tsx:86-95 | the image, else the photo URL, else the first photo, else the placeholder (same rule at matcha-match PlaceCard.tsx:82-91) |
| PlaceCard.ImageUrl | 00_HACKATHON-SUBMISSIONS/matcha-match/src/components/PlaceCard.tsx:99-111 | the result always starts with "http"; it is the first photo when that starts with "http", else the placeholder |
| PlaceCard.ImageRulesAgree | 00_HACKATHON-SUBMISSIONS/matcha-match/src/components/PlaceCard.tsx:82-111 | without image or photo URL, and with http photos, the two image rules agree |
| PlaceCard.ScoreColor | 00_HACKATHON-SUBMISSIONS/0002_MATCHA-MATCH/src/components/PlaceCard.tsx:99-103 | the accent band exactly from 90, the primary band exactly for 80..89, the secondary band below 80 (same rule at matcha-match PlaceCard.tsx:93-97) |
| PlaceCard.ScoreColorMonotone | 00_HACKATHON-SUBMISSIONS/0002_MATCHA-MATCH/src/components/PlaceCard.tsx:99-103 | a higher score never gets a lower band |
| PlaceCard.View | 00_HACKATHON-SUBMISSIONS/0002_MATCHA-MATCH/src/components/PlaceCard.tsx:20-95 | the card shows an address of at most 80 characters, the rating or 0, the price label, the score with its colour band, the tags or none, and the chosen Maps link |
| PlaceCard.BackendPlaceView | 00_HACKATHON-SUBMISSIONS/0002_MATCHA-MATCH/src/components/PlaceCard.tsx:64-81 | a back-end place shows its back-end score and the dollars of its price level |
| Strings.Trim | 00_HACKATHON-SUBMISSIONS/matcha-match/src/components/ReviewForm.tsx:24-31 | the trimmed text is the piece of the input left after cutting off only whitespace at both ends, and it neither starts nor ends with whitespace |
| Strings.TrimIdempotent | 00_HACKATHON-SUBMISSIONS/matcha-match/src/components/ReviewForm.tsx:37-39 | trimming twice is trimming once |
| Strings.TrimEmptyIff | 00_HACKATHON-SUBMISSIONS/matcha-match/src/components/ReviewForm.tsx:24-31 | a trimmed text is empty exactly when every character is whitespace |
| Strings.Lower | 00_HACKATHON-SUBMISSIONS/matcha-match/ai_chat/views.py:138 | lower-casing keeps the length and maps each character to its lower-case form |
| Strings.LowerIdempotent | 00_HACKATHON-SUBMISSIONS/matcha-match/ai_chat/views.py:138 | lower-casing twice is lower-casing once |
| Strings.SplitHead | 00_HACKATHON-SUBMISSIONS/matcha-match/src/pages/Auth.tsx:18 | the first part of a split is the text before the first separator, and it holds no separator |
| Strings.ParseNatToString | 00_HACKATHON-SUBMISSIONS/0002_MATCHA-MATCH/src/pages/Calendar.tsx:271-274 | reading back the decimal digits of a number gives that number |
| Strings.PadZeroValue | 00_HACKATHON-SUBMISSIONS/0002_MATCHA-MATCH/src/pages/Calendar.tsx:102-108 | zero-padding a number's digits keeps them digits and keeps the value they read as |
| Js.Or | 00_HACKATHON-SUBMISSIONS/0002_MATCHA-MATCH/src/components/PlaceCard.tsx:41-42 | JavaScript's or-operator gives the first value when it is truthy, else the second; the result is truthy exactly when either is |
| Js.OrStr | 00_HACKATHON-SUBMISSIONS/0002_MATCHA-MATCH/src/components/TopPlacesCarousel.tsx:70-81 | a defaulted string is the value when truthy, else the default, and is non-empty exactly when one of them is |
| Js.OrNum | 00_HACKATHON-SUBMISSIONS/0002_MATCHA-MATCH/src/components/TopPlacesCarousel.tsx:66 | a defaulted number is the value when non-zero and present, else the default |
| Js.OrZeroIsGetOr | 00_HACKATHON-SUBMISSIONS/0002_MATCHA-MATCH/src/components/TopPlacesCarousel.tsx:66 | defaulting a number to 0 with the or-operator is the same as with the nullish-coalescing operator |

## Left out

- HTTP, `fetch`, async flow and the Ollama calls are not modelled. The model's reply and the JSON parser are parameters of `Sentiment.Analyze`.
- Django request handling, the ORM, `save_user_preferences` and conversation history are not modelled, because they are persistence.
- The Google Maps SDK, `calculate_distance` (the haversine formula) and Google's photo service are not modelled. The distance is a parameter, `encodeURIComponent` is an opaque parameter of `MapsLink.Url`, and so is the formatting of coordinates.
- Floating point is not modelled. Ratings and distances are exact tenths, so `toFixed(1)` rounding of other fractions and `NaN` are out of scope, and so is Python's float comparison.
- Lower-casing covers ASCII letters only. Python's Unicode case mapping is not modelled.
- The review store's `localStorage` round trip is not modelled. The rehydration at `useReviews.ts:16-21` never returns its accumulator, so a round trip does not hold and none is claimed. The favourites stores' persistence is left out as well.
- React effect timing and batching are not modelled, and neither is the stale `userHearts` closure in `toggleHeart`. Each toggle is one atomic step.
- The 10-second timer that resumes autoplay is not modelled.
- The clock, `crypto.randomUUID` and review ids are parameters.
- Object and map iteration order is not modelled. The listing methods promise contents and order, not the order of keys.
- Presentation, toasts, navigation, emoji and colour maps, and the `tags` default of the carousel are not modelled.
- The conversion between calendar date strings and day numbers is not modelled. Streaks are computed over day numbers.
- Inputs whose run-time type differs from the declared one are not modelled, for example a numeric `place_id` that throws inside the Maps handler and reaches its `catch`.
- MatchScore.Process: a `price_level` key present with value `None` is not distinguished from a missing key; both read as level 2. In the source, `None` fails the membership test of the social mood rule (no 10 points) and of the medium budget rule (no 20 points), and for a low or high budget the comparison with a number raises an error that makes the view answer with its mock places. Search results leave the key out when there is no price level, so only the missing-key case is modelled.
- The fallbacks inside `calculate_match_score` for a missing context or context key (noon, neutral, medium, any, sunny) are not modelled: its only caller always passes the complete context that `MatchScore.ContextFromRequest` builds.
- MatchaDays.ParseDateKey: the result is the year, month and day as written, not a JavaScript `Date`. `new Date(y, m - 1, d)` maps years 0–99 to 1900–1999, rolls an out-of-range day or month over (`2025-02-31` is 3 March, month `00` is December of the year before), and `Number` accepts more than digit strings. Stored keys come from `MatchaDays.ToLocalDateString` of real dates, for which none of this arises.
- PlaceCard.Text: lengths and cuts count characters (code points), while JavaScript's `length` and `slice` count UTF-16 code units. A place name with characters outside the Basic Multilingual Plane (emoji) is cut shorter in the source and can be cut inside a surrogate pair.
- PlaceCard.Address: truncates like `PlaceCard.Text`, so the same code-point versus UTF-16 difference applies.
- MatchaDays.CurrentStreakIsWholeRun: "the day before the streak is unmarked" is stated for duplicate-free day lists only.
- MatchaDays.InStreakMeaning: the reverse direction is proved for duplicate-free day lists only. With a duplicated target, the source compares against a copy of itself and can answer false.
- TopCarousel.Next: monotonicity is stated for indices within the valid range only. The source's `Math.min` would also pull an out-of-range index back.
- RotatingCarousel.Next: it requires at least one place. The source divides by the list length, which is the constant four samples, and the carousel never renders with no places.
- HeartsZeroFloor.TotalFavoritedPlaces: it requires a store without zero counts. That is what `ToggleKeepsValid` shows every toggle preserves.

## Findings

| source | as written | input that shows it | evidently intended | confidence | as-written member | corrected member |
|---|---|---|---|---|---|---|
| 00_HACKATHON-SUBMISSIONS/0002_MATCHA-MATCH/src/pages/Calendar.tsx:118-125 | "today" is local midnight, but each marked key is parsed by `new Date("YYYY-MM-DD")` as UTC midnight. Unless the offset from UTC is zero, the day difference is never a whole number, so it is never 0 or 1 | a user at UTC+2 who marked today's date: today is 2 hours before the key's UTC midnight and the streak shows 0 | the difference in whole local days, so marking today gives a current streak of at least 1 | not executed | MatchaDays.CurrentStreakAsWritten | MatchaDays.CurrentStreak |
