/** The diary's day entries: the record types, the `YYYY-MM-DD` date format and its parser,
    the edits to the current day's symptom and food lists, and the autocomplete food history.
    The database writes that follow each edit are not modelled; a `Date` is represented by its
    time value in milliseconds, with the local time zone taken to be UTC. */
module Entries {
  import opened Options
  import opened Text
  import opened Sequences

  datatype SymptomEntry = SymptomEntry(
    id: string,
    symptomId: string,
    icon: string,
    labelText: string,
    severity: Option<int>,
    timestamp: string)

  datatype MealType = Breakfast | Lunch | Dinner | Snack

  datatype FoodEntry = FoodEntry(
    id: string,
    name: string,
    timestamp: string,
    mealType: Option<MealType>,
    notes: Option<string>)

  datatype DayEntry = DayEntry(
    date: string,
    symptoms: seq<SymptomEntry>,
    foods: seq<FoodEntry>,
    notes: Option<string>)

  // ---------------------------------------------------------------------------------------
  // Calendar arithmetic (the ECMAScript Day/MakeDay definitions)

  const MsPerDay: int := 86400000

  predicate InLeapYear(y: int)
  {
    y % 4 == 0 && (y % 100 != 0 || y % 400 == 0)
  }

  function DaysInMonth(y: int, m: int): (n: int)
    requires 0 <= m < 12
    ensures 28 <= n <= 31
  {
    if m == 1 then (if InLeapYear(y) then 29 else 28)
    else if m == 3 || m == 5 || m == 8 || m == 10 then 30
    else 31
  }

  /** The day number (days since 1970-01-01) of January 1st of year `y`. */
  function DayFromYear(y: int): int
  {
    365 * (y - 1970) + (y - 1969) / 4 - (y - 1901) / 100 + (y - 1601) / 400
  }

  /** Days from January 1st to the first day of month `m` (0-based) of year `y`. */
  function DaysBeforeMonth(y: int, m: int): (n: int)
    requires 0 <= m < 12
    ensures 0 <= n <= 335
  {
    var table := [0, 31, 59, 90, 120, 151, 181, 212, 243, 273, 304, 334];
    table[m] + (if m >= 2 && InLeapYear(y) then 1 else 0)
  }

  /** A calendar date as `getFullYear()`, `getMonth()` (0-based) and `getDate()` report it. */
  datatype CivilDate = CivilDate(year: int, month: int, day: int)

  /** What the getters of any `Date` can return: a month index 0..11 and a day 1..31. */
  predicate InRange(d: CivilDate)
  {
    0 <= d.month < 12 && 1 <= d.day <= 31
  }

  /** A date that exists in the proleptic Gregorian calendar. */
  predicate ValidDate(d: CivilDate)
  {
    InRange(d) && d.day <= DaysInMonth(d.year, d.month)
  }

  /** The day number of a calendar date. */
  function DayNumber(d: CivilDate): int
    requires InRange(d)
  {
    DayFromYear(d.year) + DaysBeforeMonth(d.year, d.month) + d.day - 1
  }

  /** ECMAScript MakeDay: months outside 0..11 carry into the year, and the day of the month
      is an offset from the 1st, so out-of-range values roll over. */
  function MakeDay(year: int, month: int, date: int): (r: int)
    ensures 0 <= month < 12 && 1 <= date <= 31 ==> r == DayNumber(CivilDate(year, month, date))
    ensures 12 <= month < 24 && 1 <= date <= 31 ==> r == DayNumber(CivilDate(year + 1, month - 12, date))
  {
    assert 0 <= month < 12 ==> month / 12 == 0 && month % 12 == month;
    assert 12 <= month < 24 ==> month / 12 == 1 && month % 12 == month - 12;
    var ym := year + month / 12;
    var mn := month % 12;
    DayFromYear(ym) + DaysBeforeMonth(ym, mn) + date - 1
  }

  /** The `Date(year, monthIndex, day)` constructor reads years 0..99 as 1900..1999. */
  function FullYear(y: int): (r: int)
    ensures !(0 <= r <= 99)
    ensures r % 100 == y % 100
    ensures y < 0 || 99 < y ==> r == y
  {
    if 0 <= y <= 99 then 1900 + y else y
  }

  /** The day after the last day of a month is the first day of the next one. */
  lemma {:induction false} NextMonthFollows(d: CivilDate)
    requires ValidDate(d) && d.month < 11 && d.day == DaysInMonth(d.year, d.month)
    ensures DayNumber(CivilDate(d.year, d.month + 1, 1)) == DayNumber(d) + 1
  {
    var y := d.year;
    if InLeapYear(y) {
      assert DaysBeforeMonth(y, d.month + 1) == DaysBeforeMonth(y, d.month) + DaysInMonth(y, d.month);
    } else {
      assert DaysBeforeMonth(y, d.month + 1) == DaysBeforeMonth(y, d.month) + DaysInMonth(y, d.month);
    }
  }

  // ---------------------------------------------------------------------------------------
  // formatDate / parseDate

  /** `String(n).padStart(2, '0')`. */
  function TwoDigits(n: nat): (r: string)
    ensures |r| >= 2 && AllDigits(r) && '-' !in r
    ensures n < 100 ==> |r| == 2
  {
    var s := NatToString(n);
    PadStart(s, 2, '0')
  }

  /** A string that ends in `-MM-DD`: a dash, two digits, a dash and two digits. */
  predicate EndsMonthDay(r: string)
  {
    |r| >= 7 && r[|r| - 6] == '-' && r[|r| - 3] == '-' && AllDigits(r[|r| - 5..|r| - 3]) && AllDigits(r[|r| - 2..])
  }

  /** `formatDate`: the year in decimal, then the one-based month and the day, each padded to
      two digits, separated by `-`. */
  function FormatDate(d: CivilDate): (r: string)
    requires InRange(d)
    ensures EndsMonthDay(r)
  {
    var y, m, dd := IntToString(d.year), TwoDigits(d.month + 1), TwoDigits(d.day);
    DashedTail(y, m, dd);
    y + "-" + m + "-" + dd
  }

  lemma DashedTail(y: string, m: string, dd: string)
    requires |y| >= 1 && |m| == 2 && |dd| == 2 && AllDigits(m) && AllDigits(dd)
    ensures EndsMonthDay(y + "-" + m + "-" + dd)
  {
    var r := y + "-" + m + "-" + dd;
    assert r[|r| - 5..|r| - 3] == m && r[|r| - 2..] == dd;
  }

  /** The three `-`-separated fields of a formatted date, for a non-negative year. */
  lemma FormatDateSplit(d: CivilDate)
    requires InRange(d) && d.year >= 0
    ensures Split(FormatDate(d), '-') == [NatToString(d.year), TwoDigits(d.month + 1), TwoDigits(d.day)]
  {
    var y, m, dd := NatToString(d.year), TwoDigits(d.month + 1), TwoDigits(d.day);
    assert IntToString(d.year) == y;
    assert FormatDate(d) == y + ['-'] + m + ['-'] + dd;
    Split3(y, m, dd, '-');
  }

  lemma DashedShape(y: string, m: string, dd: string)
    requires |y| == 4 && |m| == 2 && |dd| == 2 && AllDigits(y) && AllDigits(m) && AllDigits(dd)
    ensures var r := y + ['-'] + m + ['-'] + dd;
      |r| == 10 && r[4] == '-' && r[7] == '-' && AllDigits(r[..4]) && AllDigits(r[5..7]) && AllDigits(r[8..])
  {
    var r := y + ['-'] + m + ['-'] + dd;
    assert r[..4] == y && r[5..7] == m && r[8..] == dd;
  }

  /** A four-digit year gives the ten-character `YYYY-MM-DD` form. */
  lemma FormatDateShape(d: CivilDate)
    requires InRange(d) && 1000 <= d.year <= 9999
    ensures var r := FormatDate(d);
      |r| == 10 && r[4] == '-' && r[7] == '-' && AllDigits(r[..4]) && AllDigits(r[5..7]) && AllDigits(r[8..])
  {
    var y, m, dd := NatToString(d.year), TwoDigits(d.month + 1), TwoDigits(d.day);
    NatToStringLength4(d.year);
    assert IntToString(d.year) == y;
    DashedShape(y, m, dd);
  }

  lemma NatToStringLength4(n: nat)
    requires 1000 <= n <= 9999
    ensures |NatToString(n)| == 4
  {
    assert NatToString(n) == NatToString(n / 10) + [DigitChar(n % 10)];
    assert NatToString(n / 10) == NatToString(n / 100) + [DigitChar((n / 10) % 10)];
    assert NatToString(n / 100) == NatToString(n / 1000) + [DigitChar((n / 100) % 10)];
  }

  /** `Number(s)` on the strings this parser meets: `""` is 0, a run of decimal digits is its
      value, anything else is `NaN` (here `None`). */
  function NumberValue(s: string): (r: Option<int>)
    ensures r.Some? ==> r.value >= 0
  {
    if s == [] then Some(0)
    else if AllDigits(s) then Some(DigitsValue(s))
    else None
  }

  /** The three arguments `parseDate` hands to the `Date` constructor: year, month − 1 and day. */
  function DateFields(s: string): (r: Option<(int, int, int)>)
    ensures r.Some? ==> |Split(s, '-')| >= 3
    ensures r.Some? ==> r.value.0 >= 0 && r.value.1 >= -1 && r.value.2 >= 0
  {
    var parts := Split(s, '-');
    if |parts| < 3 then None
    else
      match (NumberValue(parts[0]), NumberValue(parts[1]), NumberValue(parts[2]))
      case (Some(y), Some(m), Some(d)) => Some((y, m - 1, d))
      case _ => None
  }

  /** `parseDate(s).getTime()` at local midnight: `None` stands for an invalid date (`NaN`). */
  function ParseDate(s: string): (r: Option<int>)
    ensures r.Some? <==> DateFields(s).Some?
  {
    match DateFields(s)
    case None => None
    case Some((y, m, d)) => Some(MakeDay(FullYear(y), m, d) * MsPerDay)
  }

  lemma {:induction false} LeadingZero(s: string)
    requires AllDigits(s)
    ensures AllDigits("0" + s) && DigitsValue("0" + s) == DigitsValue(s)
  {
    if s != [] {
      var t := "0" + s;
      assert t[..|t| - 1] == "0" + s[..|s| - 1];
      LeadingZero(s[..|s| - 1]);
    }
  }

  lemma TwoDigitsValue(n: nat)
    ensures NumberValue(TwoDigits(n)) == Some(n)
  {
    var s := NatToString(n);
    NatToStringValue(n);
    if |s| < 2 {
      assert TwoDigits(n) == "0" + s;
      LeadingZero(s);
    }
  }

  /** `parseDate` reads back the fields `formatDate` wrote, for every non-negative year. */
  lemma FormatDateFields(d: CivilDate)
    requires InRange(d) && d.year >= 0
    ensures DateFields(FormatDate(d)) == Some((d.year, d.month, d.day))
  {
    FormatDateSplit(d);
    NatToStringValue(d.year);
    NumberValueOfDigits(NatToString(d.year));
    TwoDigitsValue(d.month + 1);
    TwoDigitsValue(d.day);
    FieldsOfParts(FormatDate(d), NatToString(d.year), TwoDigits(d.month + 1), TwoDigits(d.day),
                  d.year, d.month + 1, d.day);
  }

  lemma NumberValueOfDigits(s: string)
    requires s != [] && AllDigits(s)
    ensures NumberValue(s) == Some(DigitsValue(s))
  {
  }

  lemma FieldsOfParts(s: string, y: string, m: string, dd: string, year: int, month: int, day: int)
    requires Split(s, '-') == [y, m, dd]
    requires NumberValue(y) == Some(year) && NumberValue(m) == Some(month) && NumberValue(dd) == Some(day)
    ensures DateFields(s) == Some((year, month - 1, day))
  {
  }

  lemma ParseOfFields(s: string, d: CivilDate)
    requires DateFields(s) == Some((d.year, d.month, d.day))
    ensures ParseDate(s) == Some(MakeDay(FullYear(d.year), d.month, d.day) * MsPerDay)
  {
  }

  /** `parseDate(formatDate(d))` is the `Date` built from `d`'s own fields. */
  lemma ParseFormatted(d: CivilDate)
    requires InRange(d) && d.year >= 0
    ensures ParseDate(FormatDate(d)) == Some(MakeDay(FullYear(d.year), d.month, d.day) * MsPerDay)
  {
    FormatDateFields(d);
    ParseOfFields(FormatDate(d), d);
  }

  /** Round trip: from year 100 on, `parseDate(formatDate(d))` is midnight of the date `d`. */
  lemma ParseFormatDate(d: CivilDate)
    requires InRange(d) && d.year >= 100
    ensures ParseDate(FormatDate(d)) == Some(DayNumber(d) * MsPerDay)
  {
    ParseFormatted(d);
  }

  lemma CenturiesApart(y: int)
    requires 0 <= y <= 99
    ensures DayFromYear(1900 + y) >= DayFromYear(y) + 365 * 1900
  {
    assert (1900 + y - 1969) / 4 == (y - 1969) / 4 + 475;
    assert (1900 + y - 1901) / 100 == (y - 1901) / 100 + 19;
    assert (1900 + y - 1601) / 400 >= (y - 1601) / 400 + 4;
  }

  /** Years below 100 do not survive the round trip: the `Date` constructor moves them into the
      twentieth century, so `parseDate(formatDate(d))` (see `ParseFormatted`) lands 1900 years
      after `d`. */
  lemma TwoDigitYearShifts(d: CivilDate)
    requires InRange(d) && 0 <= d.year <= 99
    ensures MakeDay(FullYear(d.year), d.month, d.day) == DayNumber(d.(year := 1900 + d.year))
    ensures MakeDay(FullYear(d.year), d.month, d.day) > DayNumber(d)
  {
    var e := d.(year := 1900 + d.year);
    assert FullYear(d.year) == e.year;
    CenturiesApart(d.year);
  }

  // ---------------------------------------------------------------------------------------
  // Editing the current entry

  /** The value of an optional text argument after the source's truthiness test: an empty
      string counts as absent. */
  function IfTruthy(s: Option<string>): Option<string>
  {
    if s.Some? && s.value != "" then s else None
  }

  /** The symptom `addSymptom` builds; `now` is `Date.now()` and `time` the current time of day. */
  function NewSymptom(symptomId: string, icon: string, labelText: string, severity: Option<int>,
                      now: nat, time: string): (s: SymptomEntry)
    ensures s.id == symptomId + "_" + NatToString(now)
    ensures s.symptomId == symptomId && s.icon == icon && s.labelText == labelText && s.timestamp == time
    ensures s.severity == severity
  {
    SymptomEntry(symptomId + "_" + NatToString(now), symptomId, icon, labelText, severity, time)
  }

  /** The food `addFood` builds: meal type and notes are kept only when truthy. */
  function NewFood(name: string, mealType: Option<MealType>, notes: Option<string>,
                   now: nat, time: string): (f: FoodEntry)
    ensures f.id == "food_" + NatToString(now) && f.name == name && f.timestamp == time
    ensures f.mealType == mealType
    ensures f.notes.Some? <==> notes.Some? && notes.value != ""
    ensures f.notes.Some? ==> f.notes == notes
  {
    FoodEntry("food_" + NatToString(now), name, time, mealType, IfTruthy(notes))
  }

  /** `{...entry, symptoms: [...entry.symptoms, s]}`. */
  function WithSymptom(e: DayEntry, s: SymptomEntry): (r: DayEntry)
    ensures |r.symptoms| == |e.symptoms| + 1
    ensures r.symptoms[..|e.symptoms|] == e.symptoms && r.symptoms[|e.symptoms|] == s
    ensures r.date == e.date && r.foods == e.foods && r.notes == e.notes
  {
    e.(symptoms := e.symptoms + [s])
  }

  /** `{...entry, foods: [...entry.foods, f]}`. */
  function WithFood(e: DayEntry, f: FoodEntry): (r: DayEntry)
    ensures |r.foods| == |e.foods| + 1
    ensures r.foods[..|e.foods|] == e.foods && r.foods[|e.foods|] == f
    ensures r.date == e.date && r.symptoms == e.symptoms && r.notes == e.notes
  {
    e.(foods := e.foods + [f])
  }

  /** `entry.symptoms.filter(s => s.id !== id)`. */
  function WithoutSymptom(e: DayEntry, id: string): (r: DayEntry)
    ensures forall i :: 0 <= i < |r.symptoms| ==> r.symptoms[i].id != id
    ensures forall i :: 0 <= i < |e.symptoms| && e.symptoms[i].id != id ==> e.symptoms[i] in r.symptoms
    ensures forall i :: 0 <= i < |r.symptoms| ==> r.symptoms[i] in e.symptoms
    ensures r.date == e.date && r.foods == e.foods && r.notes == e.notes
  {
    e.(symptoms := Filter(e.symptoms, (s: SymptomEntry) => s.id != id))
  }

  /** `entry.foods.filter(f => f.id !== id)`. */
  function WithoutFood(e: DayEntry, id: string): (r: DayEntry)
    ensures forall i :: 0 <= i < |r.foods| ==> r.foods[i].id != id
    ensures forall i :: 0 <= i < |e.foods| && e.foods[i].id != id ==> e.foods[i] in r.foods
    ensures forall i :: 0 <= i < |r.foods| ==> r.foods[i] in e.foods
    ensures r.date == e.date && r.symptoms == e.symptoms && r.notes == e.notes
  {
    e.(foods := Filter(e.foods, (f: FoodEntry) => f.id != id))
  }

  /** Removing an id no symptom carries changes nothing. */
  lemma RemoveAbsentSymptom(e: DayEntry, id: string)
    requires forall i :: 0 <= i < |e.symptoms| ==> e.symptoms[i].id != id
    ensures WithoutSymptom(e, id) == e
  {
    FilterAll(e.symptoms, (s: SymptomEntry) => s.id != id);
  }

  /** Removing an id no food carries changes nothing. */
  lemma RemoveAbsentFood(e: DayEntry, id: string)
    requires forall i :: 0 <= i < |e.foods| ==> e.foods[i].id != id
    ensures WithoutFood(e, id) == e
  {
    FilterAll(e.foods, (f: FoodEntry) => f.id != id);
  }

  /** Removing a symptom keeps the relative order of the rest: the edit splits over any cut. */
  lemma RemoveSymptomKeepsOrder(e: DayEntry, id: string, k: nat)
    requires k <= |e.symptoms|
    ensures WithoutSymptom(e, id).symptoms
         == WithoutSymptom(e.(symptoms := e.symptoms[..k]), id).symptoms
          + WithoutSymptom(e.(symptoms := e.symptoms[k..]), id).symptoms
  {
    assert e.symptoms == e.symptoms[..k] + e.symptoms[k..];
    FilterConcat(e.symptoms[..k], e.symptoms[k..], (s: SymptomEntry) => s.id != id);
  }

  /** Removing a food keeps the relative order of the rest: the edit splits over any cut. */
  lemma RemoveFoodKeepsOrder(e: DayEntry, id: string, k: nat)
    requires k <= |e.foods|
    ensures WithoutFood(e, id).foods
         == WithoutFood(e.(foods := e.foods[..k]), id).foods
          + WithoutFood(e.(foods := e.foods[k..]), id).foods
  {
    assert e.foods == e.foods[..k] + e.foods[k..];
    FilterConcat(e.foods[..k], e.foods[k..], (f: FoodEntry) => f.id != id);
  }

  /** Adding a symptom whose id is new and then removing that id gives the entry back. */
  lemma RemoveUndoesAddSymptom(e: DayEntry, s: SymptomEntry)
    requires forall i :: 0 <= i < |e.symptoms| ==> e.symptoms[i].id != s.id
    ensures WithoutSymptom(WithSymptom(e, s), s.id) == e
  {
    var p := (x: SymptomEntry) => x.id != s.id;
    FilterConcat(e.symptoms, [s], p);
    FilterAll(e.symptoms, p);
  }

  /** Adding a food whose id is new and then removing that id gives the entry back. */
  lemma RemoveUndoesAddFood(e: DayEntry, f: FoodEntry)
    requires forall i :: 0 <= i < |e.foods| ==> e.foods[i].id != f.id
    ensures WithoutFood(WithFood(e, f), f.id) == e
  {
    var p := (x: FoodEntry) => x.id != f.id;
    FilterConcat(e.foods, [f], p);
    FilterAll(e.foods, p);
  }

  /** The item `updateFood` builds from a matching food: the new name, the meal type and notes
      when truthy, and every other field as it was. */
  function UpdatedFood(f: FoodEntry, name: string, mealType: Option<MealType>, notes: Option<string>): FoodEntry
  {
    f.(name := name, mealType := mealType, notes := IfTruthy(notes))
  }

  /** `entry.foods.map(...)` in `updateFood`. */
  function WithFoodUpdated(e: DayEntry, foodId: string, name: string,
                           mealType: Option<MealType>, notes: Option<string>): (r: DayEntry)
    ensures |r.foods| == |e.foods|
    ensures forall i :: 0 <= i < |e.foods| && e.foods[i].id != foodId ==> r.foods[i] == e.foods[i]
    ensures forall i :: 0 <= i < |e.foods| && e.foods[i].id == foodId ==>
      && r.foods[i].id == foodId && r.foods[i].timestamp == e.foods[i].timestamp
      && r.foods[i].name == name && r.foods[i].mealType == mealType
      && (r.foods[i].notes.Some? <==> notes.Some? && notes.value != "")
      && (r.foods[i].notes.Some? ==> r.foods[i].notes == notes)
    ensures r.date == e.date && r.symptoms == e.symptoms && r.notes == e.notes
  {
    e.(foods := seq(|e.foods|, i requires 0 <= i < |e.foods| =>
      if e.foods[i].id == foodId then UpdatedFood(e.foods[i], name, mealType, notes) else e.foods[i]))
  }

  /** Repeating the same update changes nothing more. */
  lemma UpdateFoodIdempotent(e: DayEntry, foodId: string, name: string,
                             mealType: Option<MealType>, notes: Option<string>)
    ensures var once := WithFoodUpdated(e, foodId, name, mealType, notes);
      WithFoodUpdated(once, foodId, name, mealType, notes) == once
  {
    var once := WithFoodUpdated(e, foodId, name, mealType, notes);
    var twice := WithFoodUpdated(once, foodId, name, mealType, notes);
    assert twice.foods == once.foods;
  }

  // ---------------------------------------------------------------------------------------
  // Food history

  /** Some history item, lower-cased, equals the normalised name. */
  predicate InHistory(history: seq<string>, foodName: string)
  {
    exists i :: 0 <= i < |history| && Lower(history[i]) == Trim(Lower(foodName))
  }

  /** The history after `updateFoodHistory(foodName)` has stored the name: unchanged when the name
      is already there case-insensitively, otherwise extended by the trimmed name. */
  function HistoryWith(history: seq<string>, foodName: string): seq<string>
  {
    if InHistory(history, foodName) then history else history + [Trim(foodName)]
  }

  lemma {:induction false} LowerTrimStart(s: string)
    ensures Lower(TrimStart(s)) == TrimStart(Lower(s))
  {
    if s != [] && IsSpace(s[0]) {
      assert Lower(s)[1..] == Lower(s[1..]);
      LowerTrimStart(s[1..]);
    }
  }

  lemma {:induction false} LowerTrimEnd(s: string)
    ensures Lower(TrimEnd(s)) == TrimEnd(Lower(s))
  {
    if s != [] && IsSpace(s[|s| - 1]) {
      assert Lower(s)[..|s| - 1] == Lower(s[..|s| - 1]);
      LowerTrimEnd(s[..|s| - 1]);
    }
  }

  /** Lower-casing and trimming commute: ASCII letters are never whitespace. */
  lemma LowerTrim(s: string)
    ensures Lower(Trim(s)) == Trim(Lower(s))
  {
    LowerTrimStart(s);
    LowerTrimEnd(TrimStart(s));
  }

  /** Storing the same food twice stores it once. */
  lemma HistoryWithIdempotent(history: seq<string>, foodName: string)
    ensures HistoryWith(HistoryWith(history, foodName), foodName) == HistoryWith(history, foodName)
  {
    var h := HistoryWith(history, foodName);
    if !InHistory(history, foodName) {
      LowerTrim(foodName);
      assert Lower(h[|history|]) == Trim(Lower(foodName));
    }
  }

  /** After storing, the history holds the name case-insensitively. */
  lemma HistoryWithHolds(history: seq<string>, foodName: string)
    ensures InHistory(HistoryWith(history, foodName), foodName)
  {
    HistoryWithIdempotent(history, foodName);
  }

  // ---------------------------------------------------------------------------------------
  // The store state: `currentDate`, `currentEntry` and `foodHistory`

  class EntryStore {
    var currentDate: string
    var currentEntry: Option<DayEntry>
    var foodHistory: seq<string>

    /** `today` is `formatDate(new Date())`, supplied by the caller. */
    constructor (today: string)
      ensures currentDate == today && currentEntry == None && foodHistory == []
    {
      currentDate := today;
      currentEntry := None;
      foodHistory := [];
    }

    /** `loadEntry(date)` once the database has answered: `fetched` is the stored entry, or
        `None` when there is none or the read failed; either way a fresh empty entry is used.
        `signedIn` is false when there is no user (the call then does nothing). */
    method LoadEntry(date: string, fetched: Option<DayEntry>, signedIn: bool)
      modifies this
      ensures !signedIn ==> currentDate == old(currentDate) && currentEntry == old(currentEntry)
      ensures signedIn ==>
        && currentDate == date
        && currentEntry == Some(if fetched.Some? then fetched.value else DayEntry(date, [], [], None))
      ensures foodHistory == old(foodHistory)
    {
      if !signedIn {
        return;
      }
      currentDate := date;
      if fetched.Some? {
        currentEntry := fetched;
      } else {
        currentEntry := Some(DayEntry(date, [], [], None));
      }
    }

    /** `addSymptom`: appends the new symptom to a loaded entry; nothing happens without one. */
    method AddSymptom(symptomId: string, icon: string, labelText: string, severity: Option<int>,
                      now: nat, time: string)
      modifies this
      ensures old(currentEntry).None? ==> currentEntry == None
      ensures old(currentEntry).Some? ==>
        currentEntry == Some(WithSymptom(old(currentEntry).value, NewSymptom(symptomId, icon, labelText, severity, now, time)))
      ensures foodHistory == old(foodHistory) && currentDate == old(currentDate)
    {
      if currentEntry.None? {
        return;
      }
      var s := NewSymptom(symptomId, icon, labelText, severity, now, time);
      currentEntry := Some(WithSymptom(currentEntry.value, s));
    }

    /** `removeSymptom`. */
    method RemoveSymptom(id: string)
      modifies this
      ensures old(currentEntry).None? ==> currentEntry == None
      ensures old(currentEntry).Some? ==> currentEntry == Some(WithoutSymptom(old(currentEntry).value, id))
      ensures foodHistory == old(foodHistory) && currentDate == old(currentDate)
    {
      if currentEntry.None? {
        return;
      }
      currentEntry := Some(WithoutSymptom(currentEntry.value, id));
    }

    /** `addFood`: appends the new food to a loaded entry, then records its name in the history.
        `saved` says whether the history write reached the database (signed in, no error). */
    method AddFood(name: string, mealType: Option<MealType>, notes: Option<string>,
                   now: nat, time: string, saved: bool)
      modifies this
      ensures old(currentEntry).None? ==> currentEntry == None && foodHistory == old(foodHistory)
      ensures old(currentEntry).Some? ==>
        && currentEntry == Some(WithFood(old(currentEntry).value, NewFood(name, mealType, notes, now, time)))
        && foodHistory == (if saved then HistoryWith(old(foodHistory), name) else old(foodHistory))
      ensures currentDate == old(currentDate)
    {
      if currentEntry.None? {
        return;
      }
      var f := NewFood(name, mealType, notes, now, time);
      currentEntry := Some(WithFood(currentEntry.value, f));
      UpdateFoodHistory(name, saved);
    }

    /** `updateFood`: rewrites the foods carrying `foodId`, then records the name in the history. */
    method UpdateFood(foodId: string, name: string, mealType: Option<MealType>, notes: Option<string>,
                      saved: bool)
      modifies this
      ensures old(currentEntry).None? ==> currentEntry == None && foodHistory == old(foodHistory)
      ensures old(currentEntry).Some? ==>
        && currentEntry == Some(WithFoodUpdated(old(currentEntry).value, foodId, name, mealType, notes))
        && foodHistory == (if saved then HistoryWith(old(foodHistory), name) else old(foodHistory))
      ensures currentDate == old(currentDate)
    {
      if currentEntry.None? {
        return;
      }
      currentEntry := Some(WithFoodUpdated(currentEntry.value, foodId, name, mealType, notes));
      UpdateFoodHistory(name, saved);
    }

    /** `removeFood`. */
    method RemoveFood(foodId: string)
      modifies this
      ensures old(currentEntry).None? ==> currentEntry == None
      ensures old(currentEntry).Some? ==> currentEntry == Some(WithoutFood(old(currentEntry).value, foodId))
      ensures foodHistory == old(foodHistory) && currentDate == old(currentDate)
    {
      if currentEntry.None? {
        return;
      }
      currentEntry := Some(WithoutFood(currentEntry.value, foodId));
    }

    /** `updateFoodHistory`: appends the trimmed name unless some item already matches it
        case-insensitively; the local list changes only once the database write succeeded. */
    method UpdateFoodHistory(foodName: string, saved: bool)
      modifies this
      ensures foodHistory == if saved then HistoryWith(old(foodHistory), foodName) else old(foodHistory)
      ensures currentEntry == old(currentEntry) && currentDate == old(currentDate)
    {
      if InHistory(foodHistory, foodName) {
        return;
      }
      if saved {
        foodHistory := foodHistory + [Trim(foodName)];
      }
    }
  }
}
