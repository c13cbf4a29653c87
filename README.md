# Food diary: analytics, day entries and reminders

A Dafny model of the logic of a food diary web application. Users log, day by day, the foods
they ate and the symptoms they felt, each with a clock time. The application then looks for
foods that tend to come shortly before symptoms. The model covers three parts of the program:

- **Analytics** (`utils/analytics.ts`) is split over four modules:
  - `TimeOfDay`: reading a 12-hour clock time as hours since midnight, and adding them to the
    midnight of a date.
  - `Correlations`: the correlation engine. It flattens the entries into food and symptom
    occurrences and counts, per normalised food name:
    - how often the food was eaten;
    - how many symptom occurrences it preceded within the time window, each counted once;
    - per symptom label, how many qualifying (food, symptom) pairs there were, not
      deduplicated.

    It then derives the suspicion score, drops foods eaten fewer than twice and ranks by score.
  - `Summary`: the summary statistics. These are the totals, the days with symptoms, the rounded
    percentage of such days, and the five most common symptoms and foods.
  - `SafeFoods`: the "safe foods" selection.
- **Day entries** (`stores/entries.ts`), in the module `Entries`:
  - the record types;
  - the `YYYY-MM-DD` date formatter and its parser, down to the calendar arithmetic of the
    `Date` constructor;
  - the edits of the current day's symptom and food lists;
  - the autocomplete food history.

  The store's state is a class, `EntryStore`.
- **Reminders** (`stores/reminders.ts`), in the module `Reminders`:
  - merging a settings update;
  - the sorted list of reminder times;
  - the once-per-time-per-day notification rule of the minute-by-minute checker;
  - the checker's start/stop flag.

  The state, including the `lastNotified_<time>` storage keys, is a class, `ReminderStore`.

Supporting modules:
- `Options`: an option type.
- `Text`: the JavaScript string operations used (whitespace trim, ASCII lower-case, decimal
  printing, `padStart`, `split`).
- `Sequences`: filter and a stable insertion sort over a total preorder, with their properties.
- `JsMaps`: a JavaScript `Map` as an insertion-ordered association list.

The loops of the source are methods with loop invariants. Each method is proved against a
specification function:
- `CountName` for `timesEaten`;
- `BeforeCount` for `timesBeforeSymptom`;
- `PairCount` for the per-symptom breakdown;
- `LabelCount`/`FirstIcon` and `FoodCount` for the summary counts.

The properties the source promises are then proved about those functions. Scores and hours
are exact reals. Timestamps become `Option<real>`, where `None` stands for `NaN`.

Behaviours of the code that the proofs make explicit:
- `timesBeforeSymptom` counts symptom occurrences, while `timesEaten` counts food occurrences.
  So two servings of a food just before three symptoms score 150, not at most 100, and that
  record is reported, since it was eaten twice (`Correlations.ScoreAboveHundred`).
- With the default window of 24 hours (`Correlations.DefaultLagHours`), a food logged at
  11:00 PM counts for a symptom logged at 1:00 AM the next day, since the date and the clock
  time are combined into one instant (`Correlations.LateSnackCounts`).
- The per-symptom breakdown counts every qualifying pair, while `timesBeforeSymptom` counts
  each symptom occurrence once (`Correlations.DedupAsymmetry`). Their sum is therefore at
  least `timesBeforeSymptom` (`Correlations.RelatedCoverBefore`).
- `parseDate` hands a year 0..99 to the `Date` constructor. The constructor reads it as
  1900 + year, so `parseDate(formatDate(d))` is `d` only from year 100 on
  (`Entries.ParseFormatDate`, `Entries.TwoDigitYearShifts`).
- When `updateReminderSettings` enables the reminders, `startReminderChecker` checks at once.
  That check reads the settings saved in `localStorage`, which the store subscriber updates
  only after the update returns. The immediate check therefore uses the settings from before
  the update (`Reminders.ReminderStore.Update`).

## Model

| member | source | states |
|---|---|---|
| TimeOfDay.DigitRun | src/lib/utils/analytics.ts:29 | the greedy `\d+` run at a position: all digits, and followed by a non-digit or the end |
| TimeOfDay.SpaceRun | src/lib/utils/analytics.ts:29 | the greedy `\s*` run at a position: all whitespace, and followed by a non-space or the end |
| TimeOfDay.MatchAt | src/lib/utils/analytics.ts:29 | a match of the time pattern at a position needs a colon after that position |
| TimeOfDay.FirstMatch | src/lib/utils/analytics.ts:29 | `match` finds the leftmost match: no result means the pattern matches at no position; a result is the match at some position before which nothing matches; a match at the start position is the one returned, and any match needs a colon |
| TimeOfDay.ParseTimeToHours | src/lib/utils/analytics.ts:28-40 | the hours since midnight are never negative |
| TimeOfDay.ClockHours | src/lib/utils/analytics.ts:32-39 | for a clock hour up to 12 the 24-hour value lies in [0, 24) and is at least 12 exactly for `PM`; a larger hour is never lowered |
| TimeOfDay.NoColonIsNoon | src/lib/utils/analytics.ts:29-30 | a string with no colon has no match and reads as 12 (noon) |
| TimeOfDay.NoMatchIsNoon | src/lib/utils/analytics.ts:29-30 | a string the pattern matches at no position (`10:30`, `10:30 XM`) reads as 12 (noon) |
| TimeOfDay.ClockHoursInDay | src/lib/utils/analytics.ts:32-39 | for hour 1..12 and minutes below 60, the `12 AM`/`12 PM`/`+12` branches agree with the usual 12-hour reading (hour mod 12, plus 12 for PM), and the result lies in [0, 24) |
| TimeOfDay.MatchClockShape | src/lib/utils/analytics.ts:29 | two digits, a colon, two digits, whitespace and `AM`/`PM` match at position 0 with those values and that marker |
| TimeOfDay.ParseClockString | src/lib/utils/analytics.ts:28-40 | round trip: a time printed as `hh:mm AM/PM` reads back as its 24-hour value plus minutes/60 |
| TimeOfDay.ToTimestamp | src/lib/utils/analytics.ts:46-50 | the timestamp is a number exactly when the date parses, and then never before that date's midnight |
| TimeOfDay.TimestampOfPrinted | src/lib/utils/analytics.ts:46-50 | a date printed by `formatDate` (from year 100 on) with a time printed as `hh:mm AM/PM` gives that day's midnight plus the time's 24-hour value in hours |
| TimeOfDay.AcrossMidnight | src/lib/utils/analytics.ts:46-50 | times logged on consecutive days are 24 hours plus the difference of their clock values apart |
| Correlations.CountName | src/lib/utils/analytics.ts:84-87 | the count of a name is at most the number of food occurrences |
| Correlations.NormName | src/lib/utils/analytics.ts:68 | the normalised name is its own normalisation: lower-casing and trimming it again changes nothing |
| Correlations.CountNamePositive | src/lib/utils/analytics.ts:84-87 | a name is counted exactly when some occurrence carries it |
| Correlations.BeforeCount | src/lib/utils/analytics.ts:95-121 | `timesBeforeSymptom` is at most the number of symptom occurrences |
| Correlations.BeforeAtMostTotal | src/lib/utils/analytics.ts:97-119 | the deduplicated count never exceeds the number of qualifying pairs |
| Correlations.PairAtMostTotal | src/lib/utils/analytics.ts:103-110 | one label's pair count is among all the food's qualifying pairs |
| Correlations.ScoreMeaning | src/lib/utils/analytics.ts:133-137 | with symptoms and servings, score × timesEaten = timesBeforeSymptom × 100, so the score is at most 100 exactly when `timesBeforeSymptom <= timesEaten` |
| Correlations.Score | src/lib/utils/analytics.ts:133-137 | the score is never negative, and is 0 without symptom occurrences or without servings |
| Correlations.Flatten | src/lib/utils/analytics.ts:65-81 | the pushing loops build exactly the flattened food and symptom occurrences |
| Correlations.PushFoods | src/lib/utils/analytics.ts:66-72 | the inner loop appends one normalised, timestamped record per food of the entry |
| Correlations.PushSymptoms | src/lib/utils/analytics.ts:73-80 | the inner loop appends one timestamped record per symptom of the entry |
| Correlations.CountFoods | src/lib/utils/analytics.ts:84-87 | the `foodCounts` map holds each name's occurrence count, and no name without occurrences |
| Correlations.HitsStep | src/lib/utils/analytics.ts:99-102 | one more food occurrence adds one hit exactly for its own name, when it qualifies |
| Correlations.Qualifies | src/lib/utils/analytics.ts:100-102 | a qualifying food has a numeric timestamp strictly before the symptom's, and the window is positive |
| Correlations.QualifiesApart | src/lib/utils/analytics.ts:100-102 | occurrences a positive number of hours apart qualify exactly when the window covers those hours |
| Correlations.LateSnackCounts | src/lib/utils/analytics.ts:57-102 | with the default window of 24 hours, a food at 11:00 PM counts for a symptom at 1:00 AM the next day; a one-hour window misses it |
| Correlations.StartSymptom | src/lib/utils/analytics.ts:95-97 | before the food loop of a symptom, the pair map is exact for the symptoms already done |
| Correlations.SkipFood | src/lib/utils/analytics.ts:100-102 | a food that does not qualify leaves the pair map as it is |
| Correlations.BumpStep | src/lib/utils/analytics.ts:103-110 | a qualifying food bumps exactly its (food, label) count, creating the inner map on first use |
| Correlations.FinishSymptom | src/lib/utils/analytics.ts:99-112 | after all foods, the pair map is exact for one more symptom |
| Correlations.ScanFoods | src/lib/utils/analytics.ts:97-112 | the food loop of one symptom: the pair map becomes exact for it, and the set of foods before it holds exactly the names with a hit, without repeats |
| Correlations.CountOnce | src/lib/utils/analytics.ts:115-120 | each food before the symptom gets one more `timesBeforeSymptom`, whatever its number of hits |
| Correlations.TallySymptoms | src/lib/utils/analytics.ts:95-121 | the symptom loop leaves `foodBeforeSymptomCount` equal to `BeforeCount` and the pair maps equal to `PairCount` |
| Correlations.RelatedListOK | src/lib/utils/analytics.ts:140-147 | `relatedSymptoms` lists each label with a positive pair count once, with that count, sorted by count, non-increasing |
| Correlations.RelatedCounted | src/lib/utils/analytics.ts:143-145 | every related entry carries its label's positive pair count |
| Correlations.RelatedComplete | src/lib/utils/analytics.ts:143-145 | every label with a qualifying pair appears among the related entries |
| Correlations.NoPairsNoRelated | src/lib/utils/analytics.ts:141-147 | a food without pairs has an empty related list |
| Correlations.BuildCorrelations | src/lib/utils/analytics.ts:124-156 | one record per counted food, in map order, each holding `CountName`, `BeforeCount`, the score and the related list |
| Correlations.RankedEntries | src/lib/utils/analytics.ts:159-161 | after filter and sort, every record has `timesEaten >= 2`, keeps its counts, and the list is non-increasing in score |
| Correlations.RankedDistinct | src/lib/utils/analytics.ts:159-161 | records for distinct foods stay distinct through filter and sort |
| Correlations.RankedCovers | src/lib/utils/analytics.ts:159-161 | every food eaten at least twice keeps its record |
| Correlations.CalculateCorrelations | src/lib/utils/analytics.ts:57-162 | every result has `timesEaten >= 2` and the counts of the specification functions; the list is sorted by score, non-increasing; foods are distinct; every food eaten at least twice appears |
| Correlations.NoLagNoHits | src/lib/utils/analytics.ts:100-102 | with a window of 0 or less, no food qualifies for a symptom |
| Correlations.NoLagNoPairs | src/lib/utils/analytics.ts:100-110 | with a window of 0 or less, a food has no qualifying pair |
| Correlations.NoLagNoCorrelation | src/lib/utils/analytics.ts:93-147 | with `lagHours` 0, every record has `timesBeforeSymptom` 0, score 0 and no related symptoms |
| Correlations.NoPairsEmptyRelated | src/lib/utils/analytics.ts:140-147 | a correct related list of a food without pairs is empty |
| Correlations.NoSymptomsNoSuspicion | src/lib/utils/analytics.ts:125-137 | without symptom occurrences, every record has score 0, no before-count and no related symptoms |
| Correlations.ScoreOfRecord | src/lib/utils/analytics.ts:124-137 | a record's `timesBeforeSymptom` is at most the number of symptoms; its score is non-negative and is the percentage ratio |
| Correlations.SumCountsIsSumPairs | src/lib/utils/analytics.ts:143-145 | the related counts add up to the pair counts of their labels |
| Correlations.SumPairsTotal | src/lib/utils/analytics.ts:103-110 | over labels covering every hit symptom, the pair counts add up to all qualifying pairs |
| Correlations.PairCountCovers | src/lib/utils/analytics.ts:103-110 | a symptom's label collects at least that symptom's hits |
| Correlations.RelatedCoverBefore | src/lib/utils/analytics.ts:103-118 | the related counts sum to all qualifying pairs, and so to at least `timesBeforeSymptom` |
| Correlations.DedupAsymmetry | src/lib/utils/analytics.ts:97-118 | two occurrences of a food before one symptom give `timesBeforeSymptom` 1 but a related count of 2 |
| Correlations.ScoreAboveHundred | src/lib/utils/analytics.ts:133-160 | two servings before three symptoms: eaten twice, so the record passes the filter, with a score of 150 |
| Correlations.CountNameConcat | src/lib/utils/analytics.ts:84-87 | counting over a concatenation adds the two counts |
| Correlations.CountEntryFoods | src/lib/utils/analytics.ts:66-72 | the occurrences of one entry carry a name as often as its foods normalise to it |
| Correlations.TimesEatenCountsEntries | src/lib/utils/analytics.ts:65-87 | `timesEaten` of a name is the number of logged foods whose lower-cased, trimmed name is that name |
| Summary.SymptomRate | src/lib/utils/analytics.ts:213 | 0 without days; otherwise the nearest integer to `100 × days / total`, with exact halves rounded up (floating-point divergence under "## Left out"); at most 100 when `days <= total` |
| Summary.RoundingBounds | src/lib/utils/analytics.ts:213 | the integer formula lies within half a unit of `100 × days / total`, and is at most 100 when `days <= total` |
| Summary.RateExact | src/lib/utils/analytics.ts:213 | an exact percentage is returned unchanged |
| Summary.TenDaysThreeWithSymptoms | src/lib/utils/analytics.ts:193-213 | ten entries of which exactly three have a symptom give a symptom rate of 30 |
| Summary.GetSummaryStats | src/lib/utils/analytics.ts:167-217 | the day count and the totals of symptoms and foods; days with symptoms equal to the number of entries with a symptom, 0 exactly when no symptom was logged and all days exactly when every entry has one; the rate from those two; the top symptoms and top foods as the two predicates below say |
| Summary.CountLabels | src/lib/utils/analytics.ts:178-185 | the symptom loop keeps, per label, the count and the icon of its first occurrence |
| Summary.TalliedStep | src/lib/utils/analytics.ts:179-184 | one more symptom bumps its label's count or creates it with its own icon, and leaves the other labels alone |
| Summary.FirstIconCount | src/lib/utils/analytics.ts:179-184 | a label has a recorded icon exactly when it occurs |
| Summary.FirstIconAt | src/lib/utils/analytics.ts:179-183 | the icon kept is that of the label's first occurrence |
| Summary.NoLabelNoIcon | src/lib/utils/analytics.ts:179-183 | a label that never occurs has no entry |
| Summary.CountNames | src/lib/utils/analytics.ts:187-190 | the food loop counts each normalised name once per occurrence |
| Summary.TallyStep | src/lib/utils/analytics.ts:189 | `set(name, (get(name) \|\| 0) + 1)` counts one more occurrence of that name, keeping the keys distinct |
| Summary.NamedInNames | src/lib/utils/analytics.ts:187-189 | the count of a name among one entry's foods is its multiplicity among their normalised names |
| Summary.FoodCountIsEaten | src/lib/utils/analytics.ts:187-189 | the summary's food count of a name is the correlation engine's `timesEaten` of it |
| Summary.DaysWithSymptoms | src/lib/utils/analytics.ts:193-194 | the filtered days are the entry-by-entry count of entries with a symptom; none exactly when no symptom was logged, and all exactly when every entry has a symptom |
| Summary.DaysWith | src/lib/utils/analytics.ts:193-194 | the number of entries with a symptom is at most the number of entries |
| Summary.NoSymptomsAnywhere | src/lib/utils/analytics.ts:175 | the symptom total is 0 exactly when no entry has a symptom |
| Summary.SymptomRowsDistinct | src/lib/utils/analytics.ts:197-198 | the rows built from the symptom map have distinct labels |
| Summary.FoodRowsDistinct | src/lib/utils/analytics.ts:203-204 | the rows built from the food map have distinct names |
| Summary.TopSymptomsOf | src/lib/utils/analytics.ts:196-200 | the top symptoms: at most 5 distinct labels with their count and first icon, sorted by count, non-increasing; a label left out occurs no more often than each of the 5 kept |
| Summary.TopSymptomsChosen | src/lib/utils/analytics.ts:197-200 | map, sort and slice of the symptom map meet the top-symptom description |
| Summary.TopSymptomsCounted | src/lib/utils/analytics.ts:197-198 | every top symptom carries its label's count and first icon |
| Summary.TopSymptomsLead | src/lib/utils/analytics.ts:199-200 | a label left out occurs no more often than each of the 5 kept |
| Summary.TopFoodsOf | src/lib/utils/analytics.ts:202-206 | the top foods: at most 5 distinct normalised names with their counts, sorted by count, non-increasing; a name left out occurs no more often than each of the 5 kept |
| Summary.TopFoodsChosen | src/lib/utils/analytics.ts:203-206 | map, sort and slice of the food map meet the top-food description |
| Summary.TopFoodsCounted | src/lib/utils/analytics.ts:203-204 | every top food carries its name's count |
| Summary.TopFoodsLead | src/lib/utils/analytics.ts:205-206 | a name left out occurs no more often than each of the 5 kept |
| Summary.TotalsMatchOccurrences | src/lib/utils/analytics.ts:65-81 | the summary totals equal the numbers of flattened symptom and food occurrences |
| Summary.TopFoodTimesEaten | src/lib/utils/analytics.ts:187-190 | a top food's count equals the `timesEaten` of that food's correlation record |
| SafeFoods.SafeFoodsSelected | src/lib/utils/analytics.ts:222-227 | at most 5 of the input records, each eaten at least 3 times with a score below 20, sorted by score, non-decreasing; a passing record is left out only when 5 records with no higher score were kept |
| SafeFoods.GetSafeFoods | src/lib/utils/analytics.ts:222-227 | at most five of the input records, each eaten at least 3 times with a score below 20 |
| SafeFoods.SafeFoodsDistinct | src/lib/utils/analytics.ts:222-227 | records for distinct foods give safe foods for distinct foods |
| SafeFoods.LowScore | src/lib/utils/analytics.ts:224 | a score below 20 means `5 × timesBeforeSymptom < timesEaten` |
| SafeFoods.SafeMeaning | src/lib/utils/analytics.ts:224 | a safe record's food was eaten at least 3 times and preceded fewer symptom occurrences than a fifth of that |
| Sequences.Filter | src/lib/utils/analytics.ts:160 | a filter keeps the passing elements of its input, and only those, as a sub-multiset |
| Sequences.Sort | src/lib/utils/analytics.ts:161 | sorting permutes its input |
| Sequences.SortSorted | src/lib/utils/analytics.ts:161 | under a total preorder the sorted list is ordered by it |
| Sequences.SortTake | src/lib/utils/analytics.ts:199-200 | sort then slice: ordered, a sub-multiset, and an element left out only when the slice is full of elements not after it |
| Sequences.SortFilterTake | src/lib/utils/analytics.ts:223-226 | filter, sort and slice: at most n passing, ordered elements; a passing one left out only when n elements not after it were kept |
| Sequences.FilterKeepsAll | src/lib/utils/analytics.ts:194 | a filter keeps every element exactly when every element passes |
| JsMaps.Set | src/lib/utils/analytics.ts:86 | `Map.set` gives the key its new value and leaves every other key's value |
| JsMaps.SetKeys | src/lib/utils/analytics.ts:86 | `Map.set` keeps the insertion order, appending a key that is new |
| JsMaps.GetSome | src/lib/utils/analytics.ts:86 | `Map.get` finds a value exactly when the key is present, and finds a pair the map holds |
| Text.TrimEdges | src/lib/utils/analytics.ts:68 | a trimmed string neither starts nor ends with whitespace |
| Text.TrimIdempotent | src/lib/utils/analytics.ts:68 | trimming twice is trimming once |
| Text.LowerIdempotent | src/lib/utils/analytics.ts:68 | lower-casing twice is lower-casing once |
| Entries.TwoDigits | src/lib/stores/entries.ts:40-41 | `padStart(2, '0')` of a number gives at least two digits, exactly two below 100 |
| Entries.TwoDigitsValue | src/lib/stores/entries.ts:40-41 | `Number` of the padded string is the number |
| Entries.FormatDateSplit | src/lib/stores/entries.ts:42 | a formatted date with a non-negative year splits on `-` into the year, the month and the day |
| Entries.FormatDateShape | src/lib/stores/entries.ts:38-43 | a four-digit year gives the ten characters `YYYY-MM-DD` |
| Entries.NumberValue | src/lib/stores/entries.ts:47 | `Number` of the strings met here is never negative when it is a number |
| Entries.FormatDate | src/lib/stores/entries.ts:38-43 | a formatted date always ends in `-MM-DD`: a dash, two digits, a dash and two digits |
| Entries.DateFields | src/lib/stores/entries.ts:46-48 | the constructor's arguments exist only when the string splits into at least three parts; the year and day are never negative and the month index is at least −1 |
| Entries.ParseDate | src/lib/stores/entries.ts:46-49 | the date is valid exactly when the three fields are numbers |
| Entries.FormatDateFields | src/lib/stores/entries.ts:38-48 | `parseDate` hands the `Date` constructor the year, month and day that `formatDate` wrote |
| Entries.ParseFormatted | src/lib/stores/entries.ts:38-49 | `parseDate(formatDate(d))` is the `Date` built from `d`'s fields |
| Entries.ParseFormatDate | src/lib/stores/entries.ts:38-49 | round trip: from year 100 on, `parseDate(formatDate(d))` is midnight of `d` |
| Entries.TwoDigitYearShifts | src/lib/stores/entries.ts:48 | for years 0..99 the parsed date lands 1900 years later |
| Entries.MakeDay | src/lib/stores/entries.ts:48 | for a month index 0..11 and a day 1..31 the constructor's day number is the date's own; a month index 12..23 carries into the next year |
| Entries.FullYear | src/lib/stores/entries.ts:48 | the constructor never keeps a two-digit year: the year keeps its last two digits, and a year outside 0..99 is unchanged |
| Entries.NextMonthFollows | src/lib/stores/entries.ts:48 | the day after a month's last day is the next month's first |
| Entries.NewSymptom | src/lib/stores/entries.ts:112-119 | the new symptom's id is `<symptomId>_<now>`; its fields, the severity included, are the arguments |
| Entries.NewFood | src/lib/stores/entries.ts:149-155 | the new food's id is `food_<now>`; the meal type is kept when given; notes are present only when not empty, and are then the given notes |
| Entries.WithSymptom | src/lib/stores/entries.ts:121-124 | exactly one symptom appended at the end; the earlier ones, the date, the foods and the notes unchanged |
| Entries.WithFood | src/lib/stores/entries.ts:157-160 | exactly one food appended at the end; the earlier ones, the date, the symptoms and the notes unchanged |
| Entries.WithoutSymptom | src/lib/stores/entries.ts:135-138 | no symptom with the id remains; every other symptom stays; nothing is added; the other fields unchanged |
| Entries.WithoutFood | src/lib/stores/entries.ts:199-202 | no food with the id remains; every other food stays; nothing is added; the other fields unchanged |
| Entries.RemoveAbsentSymptom | src/lib/stores/entries.ts:137 | removing an absent id changes nothing |
| Entries.RemoveAbsentFood | src/lib/stores/entries.ts:201 | removing an absent id changes nothing |
| Entries.RemoveSymptomKeepsOrder | src/lib/stores/entries.ts:137 | removal works piecewise over any split of the list, so the relative order of the rest is kept |
| Entries.RemoveFoodKeepsOrder | src/lib/stores/entries.ts:201 | removal works piecewise over any split of the list, so the relative order of the rest is kept |
| Entries.RemoveUndoesAddSymptom | src/lib/stores/entries.ts:121-137 | removing a just-added symptom with a fresh id restores the entry |
| Entries.RemoveUndoesAddFood | src/lib/stores/entries.ts:157-201 | removing a just-added food with a fresh id restores the entry |
| Entries.WithFoodUpdated | src/lib/stores/entries.ts:174-187 | the length and every food with another id unchanged; a matching food gets the name and the meal type, the given notes when not empty and none otherwise, and keeps its id and time |
| Entries.UpdateFoodIdempotent | src/lib/stores/entries.ts:176-186 | updating twice with the same arguments is updating once |
| Entries.LowerTrim | src/lib/stores/entries.ts:235 | lower-casing and trimming commute |
| Entries.HistoryWithIdempotent | src/lib/stores/entries.ts:238-254 | storing the same food twice in sequence stores it once |
| Entries.HistoryWithHolds | src/lib/stores/entries.ts:238-254 | after storing, the history holds the name case-insensitively |
| Entries.EntryStore.constructor | src/lib/stores/entries.ts:33-35 | the current date is today; no entry is loaded; the history is empty |
| Entries.EntryStore.LoadEntry | src/lib/stores/entries.ts:61-90 | without a user nothing changes; otherwise the date is set and the entry is the stored one or an empty one |
| Entries.EntryStore.AddSymptom | src/lib/stores/entries.ts:108-128 | a no-op without a current entry; otherwise the entry with the new symptom appended |
| Entries.EntryStore.RemoveSymptom | src/lib/stores/entries.ts:131-142 | a no-op without a current entry; otherwise the entry without that id's symptoms |
| Entries.EntryStore.AddFood | src/lib/stores/entries.ts:145-167 | a no-op without a current entry; otherwise the new food appended and the history updated when the write succeeds |
| Entries.EntryStore.UpdateFood | src/lib/stores/entries.ts:170-192 | a no-op without a current entry; otherwise the updated foods and the history updated when the write succeeds |
| Entries.EntryStore.RemoveFood | src/lib/stores/entries.ts:195-206 | a no-op without a current entry; otherwise the entry without that id's foods |
| Entries.EntryStore.UpdateFoodHistory | src/lib/stores/entries.ts:228-258 | the history gains the trimmed name only when it is not there already, case-insensitively, and the write succeeds |
| Reminders.Merge | src/lib/stores/reminders.ts:129 | each field the update carries overrides the current one, and each field it leaves out keeps its current value |
| Reminders.MergeFull | src/lib/stores/reminders.ts:129 | an update that carries every field replaces the settings |
| Reminders.MergeNothing | src/lib/stores/reminders.ts:129 | an update that carries no field keeps the settings |
| Reminders.MergeIdempotent | src/lib/stores/reminders.ts:129 | applying an update twice is applying it once |
| Reminders.LexLePreorder | src/lib/stores/reminders.ts:142 | the default string order of `sort` is a total preorder |
| Reminders.LexLeAntisymmetric | src/lib/stores/reminders.ts:142 | two strings ordered both ways are equal |
| Reminders.AddReminderTime | src/lib/stores/reminders.ts:139-146 | a time already present returns the settings unchanged; otherwise the time is present afterwards, every old time stays, nothing else is added, and the other fields are unchanged |
| Reminders.AddReminderTimeIdempotent | src/lib/stores/reminders.ts:139-146 | adding the same time twice is adding it once |
| Reminders.RemoveReminderTime | src/lib/stores/reminders.ts:148-153 | the time is gone afterwards, every other time stays, nothing is added, and the other fields are unchanged |
| Reminders.AddReminderTimeAbsent | src/lib/stores/reminders.ts:139-146 | a new time is added once to the old times, the list is sorted, no duplicate is created and the other fields are unchanged |
| Reminders.RemoveReminderTimeKeeps | src/lib/stores/reminders.ts:148-153 | every occurrence of the time goes; every other time keeps its multiplicity; the other fields are unchanged |
| Reminders.RemoveReminderTimeKeepsOrder | src/lib/stores/reminders.ts:151 | removal works piecewise over any split, so the remaining times keep their order |
| Reminders.RemoveUndoesAdd | src/lib/stores/reminders.ts:139-153 | round trip: on a sorted list without repeats, removing a time just added restores the settings |
| Reminders.SortAppend | src/lib/stores/reminders.ts:142 | sorting a sorted list with one more time inserts that time in place |
| Reminders.Due | src/lib/stores/reminders.ts:102-115 | a time is due only when reminders are on and it is one of the times; a time never notified is due whenever it is on the list and reminders are on |
| Reminders.AfterCheck | src/lib/stores/reminders.ts:109-123 | a check never withdraws a notification and sends at most one, and at most adds that time's key to the storage |
| Reminders.CheckActsOnce | src/lib/stores/reminders.ts:109-123 | one check sends at most one reminder, exactly when the time is due and permitted, and writes only that time's key |
| Reminders.SecondCheckSilent | src/lib/stores/reminders.ts:112-121 | a second check on the same day at the same minute changes nothing |
| Reminders.DisabledSilent | src/lib/stores/reminders.ts:102 | disabled reminders never notify and record nothing |
| Reminders.DueNextDay | src/lib/stores/reminders.ts:115-120 | a time notified today is due again on any other day |
| Reminders.ClockKeyInjective | src/lib/stores/reminders.ts:105 | distinct hours and minutes below 100 give distinct `HH:MM` keys |
| Reminders.ReminderStore.constructor | src/lib/stores/reminders.ts:16-27 | the stored settings, or the defaults when none parse; the checker stopped |
| Reminders.ReminderStore.CheckAt | src/lib/stores/reminders.ts:101-124 | the loop with its early `break` has the effect the decision rule describes, and the settings and the flag are unchanged |
| Reminders.ReminderStore.Check | src/lib/stores/reminders.ts:100-125 | a check at `hours:minutes` has the effect the decision rule describes for the `HH:MM` key |
| Reminders.ReminderStore.Start | src/lib/stores/reminders.ts:80-91 | a running checker stays as it is (idempotent); otherwise it runs and checks at once |
| Reminders.ReminderStore.Stop | src/lib/stores/reminders.ts:93-98 | the checker is stopped and nothing else changes |
| Reminders.ReminderStore.Tick | src/lib/stores/reminders.ts:85-87 | an interval tick checks only while the checker runs |
| Reminders.ReminderStore.Update | src/lib/stores/reminders.ts:127-137 | the settings become the merge; the checker runs exactly when they are enabled; starting checks once, with the settings from before the update |
| Reminders.ReminderStore.AddTime | src/lib/stores/reminders.ts:139-146 | the settings become `addReminderTime` of the old ones and nothing else changes |
| Reminders.ReminderStore.RemoveTime | src/lib/stores/reminders.ts:148-153 | the settings become `removeReminderTime` of the old ones and nothing else changes |

## Left out

- Firestore reads and writes (`saveEntry`, `loadFoodHistory`, the `getDoc`/`setDoc`/`updateDoc`/`arrayUnion` calls): foreign database code. What their results decide is a parameter: `fetched` and `signedIn` for `loadEntry`, and `saved` for whether the history write succeeded.
- `firebase.ts`, `user.ts` and `symptoms.ts`: client set-up, anonymous authentication and a constant list, with no logic of their own.
- Svelte stores (`writable`, `subscribe`, `set`, `update`): state is plain fields of `EntryStore` and `ReminderStore`. Saving the settings to `localStorage` on every change is not modelled separately; `loadSettings` inside a check reads the settings the store held before the current update.
- `localStorage`, `JSON.parse` of the stored settings, the `Notification` API, `browser` checks and `setInterval`/`clearInterval`: browser I/O and timers. The stored settings and `lastNotified_<time>` keys are constructor arguments and a map field; the permission is a parameter; a notification is appended to `sent`; the interval is a flag, and each tick is a call to `Tick`.
- `requestNotificationPermission` and `getNotificationPermission`: asynchronous browser queries with no logic beyond reading the permission.
- `new Date()`, `getHours`/`getMinutes`, `toISOString` and `toLocaleTimeString` (`getCurrentTime`), and `Date.now()` in ids: the clock. The current hours and minutes, today's date string, the printed time and the millisecond count are parameters.
- Time zones and daylight saving: the local time zone is taken to be UTC, so midnight of a date is its day number × 86400000. The `TimeClip` range limit of `Date` is not modelled.
- Floating point: scores, hours and timestamps are exact reals, and `Math.round` is exact integer rounding of a non-negative ratio. `Summary.SymptomRate` therefore rounds exact halves up, where the program rounds the double `(days / total) * 100`: for 23 of 40 days the double is 57.49999999999999, so the program reports 57 and the model 58 (likewise 29 of 200: 14 against 15).
- Concurrency of the asynchronous store operations: each of `loadEntry`, `addFood`, `updateFood` and `updateFoodHistory` is modelled as one atomic step. Overlapping calls are not: `updateFoodHistory` checks the history (entries.ts:234-238), awaits the database (entries.ts:242-251) and only then appends (entries.ts:254), so two overlapping calls with the same name can both append it; and `loadEntry` sets `currentDate` before awaiting the read (entries.ts:67-81), so two quick date switches answered out of order can leave one date holding the other's entry.
- `toLowerCase` beyond ASCII letters: `Text.Lower` maps only `A`–`Z`.
- `Number(...)` beyond the strings `parseDate` meets in practice: the empty string (0) and runs of ASCII digits. Signs, decimals, exponents, hexadecimal and surrounding whitespace read as `NaN` here.
- The regular expression `/(\d+):(\d+)\s*(AM|PM)/i` is modelled as a structured leftmost-match parser over ASCII digits. It is exact for this pattern, because every part is a greedy run followed by a character the run cannot contain.
- `parseInt` of a digit run is its exact decimal value (no precision loss for very long runs).
- String order in `sort()` compares UTF-16 code units. The model compares `char` values, which are Unicode scalar values; the two orders differ only for characters above U+FFFF, which `HH:MM` times never contain.
- Tie order of `Array.prototype.sort`: the model sorts stably, and the contracts state only the order of the sort keys.
- The symptom field `label` is called `labelText` in the model, because `label` is a keyword.
- `Reminders.Merge`: an update that carries a field explicitly set to `undefined` is not distinguished from one that does not carry it.
- `Reminders.ClockKeyInjective`: stated for hours and minutes below 100 only, the range of `getHours` and `getMinutes`.
- `Entries.ParseFormatDate`: stated from year 100 on, because `Date` moves years 0..99 to 1900..1999 (`Entries.TwoDigitYearShifts`); negative years, which `formatDate` prints with a sign, are not covered.
- `Entries.EntryStore.LoadEntry`: the `browser` check and a failed read are folded into the `fetched`/`signedIn` parameters.
- `SymptomSummary` and `FoodSummary`: interfaces declared but not used by any modelled function.
