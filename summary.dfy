/** `getSummaryStats`: the numbers of days, symptoms and foods logged, how many days had a
    symptom and what percentage that is, and the five most frequent symptom labels and
    normalised food names. */
module Summary {
  import opened Options
  import opened Text
  import opened Sequences
  import opened JsMaps
  import opened Entries
  import opened Correlations

  /** A `symptomCounts` value: the icon of the label's first occurrence and the occurrences so far. */
  datatype SymptomData = SymptomData(icon: string, count: nat)

  /** An element of `topSymptoms`. */
  datatype TopSymptom = TopSymptom(labelText: string, icon: string, count: nat)

  /** An element of `topFoods`. */
  datatype TopFood = TopFood(name: string, count: nat)

  datatype SummaryStats = SummaryStats(
    totalDays: nat,
    totalSymptoms: nat,
    totalFoods: nat,
    daysWithSymptoms: nat,
    symptomRate: nat,
    topSymptoms: seq<TopSymptom>,
    topFoods: seq<TopFood>)

  // ---------------------------------------------------------------------------------------
  // What is counted

  /** The symptoms of every entry, entry by entry. */
  function AllSymptoms(entries: seq<DayEntry>): seq<SymptomEntry>
  {
    if entries == [] then [] else AllSymptoms(entries[..|entries| - 1]) + entries[|entries| - 1].symptoms
  }

  /** The foods of every entry, entry by entry. */
  function AllFoods(entries: seq<DayEntry>): seq<FoodEntry>
  {
    if entries == [] then [] else AllFoods(entries[..|entries| - 1]) + entries[|entries| - 1].foods
  }

  /** The normalised names of `items`, in order. */
  function NormNames(items: seq<FoodEntry>): (names: seq<string>)
  {
    seq(|items|, i requires 0 <= i < |items| => NormName(items[i].name))
  }

  /** The normalised names of all foods logged, entry by entry. */
  function EatenNames(entries: seq<DayEntry>): seq<string>
  {
    NormNames(AllFoods(entries))
  }

  /** How many foods logged have the normalised name `k`. */
  function FoodCount(entries: seq<DayEntry>, k: string): nat
  {
    multiset(EatenNames(entries))[k]
  }

  /** How many symptoms carry the label `l`. */
  function LabelCount(syms: seq<SymptomEntry>, l: string): (n: nat)
    ensures n <= |syms|
  {
    if syms == [] then 0
    else LabelCount(syms[..|syms| - 1], l) + (if syms[|syms| - 1].labelText == l then 1 else 0)
  }

  /** The icon of the first symptom labelled `l`. */
  function FirstIcon(syms: seq<SymptomEntry>, l: string): Option<string>
  {
    if syms == [] then None
    else
      var prev := FirstIcon(syms[..|syms| - 1], l);
      if prev.Some? then prev
      else if syms[|syms| - 1].labelText == l then Some(syms[|syms| - 1].icon)
      else None
  }

  /** What `symptomCounts.get(l)` holds once `syms` have been counted. */
  function Tallied(syms: seq<SymptomEntry>, l: string): Option<SymptomData>
  {
    match FirstIcon(syms, l)
    case None => None
    case Some(icon) => Some(SymptomData(icon, LabelCount(syms, l)))
  }

  predicate HasSymptoms(e: DayEntry)
  {
    |e.symptoms| > 0
  }

  /** The number of entries that log at least one symptom, counted entry by entry. */
  function DaysWith(entries: seq<DayEntry>): (n: nat)
    ensures n <= |entries|
  {
    if entries == [] then 0
    else (if HasSymptoms(entries[0]) then 1 else 0) + DaysWith(entries[1..])
  }

  /** `Math.round(days / total * 100)`, or 0 when there are no days: the nearest whole
      percentage, halves rounded up. */
  function SymptomRate(days: nat, total: nat): (r: nat)
    ensures total == 0 ==> r == 0
    ensures total > 0 ==> 2 * total * r <= 200 * days + total < 2 * total * (r + 1)
    ensures days <= total ==> r <= 100
  {
    if total == 0 then 0
    else
      RoundingBounds(days, total);
      (200 * days + total) / (2 * total)
  }

  /** The rounded quotient brackets the percentage, and stays at most 100 for a fraction. */
  lemma RoundingBounds(days: nat, total: nat)
    requires total > 0
    ensures var q := (200 * days + total) / (2 * total);
      && 2 * total * q <= 200 * days + total < 2 * total * (q + 1)
      && (days <= total ==> q <= 100)
  {
    var a, b := 200 * days + total, 2 * total;
    var q := a / b;
    assert a == b * q + a % b && 0 <= a % b < b;
    assert b * (q + 1) == b * q + b;
    if days <= total {
      assert a < b * 101;
      MulLess(b, q, 101);
    }
  }

  lemma MulLess(b: nat, x: nat, y: nat)
    requires b * x < b * y
    ensures x < y
  {
  }

  /** The comparator `(a, b) => b.count - a.count` of `topSymptoms`. */
  predicate SymptomCountDesc(a: TopSymptom, b: TopSymptom)
  {
    a.count >= b.count
  }

  /** The comparator `(a, b) => b.count - a.count` of `topFoods`. */
  predicate FoodCountDesc(a: TopFood, b: TopFood)
  {
    a.count >= b.count
  }

  /** `topSymptoms`: at most five distinct labels with their counts and first icons, most
      frequent first, and no label left out that occurs more often than one kept. */
  ghost predicate TopSymptomsOK(top: seq<TopSymptom>, syms: seq<SymptomEntry>)
  {
    && |top| <= 5
    && (forall i :: 0 <= i < |top| ==>
          0 < top[i].count == LabelCount(syms, top[i].labelText) && FirstIcon(syms, top[i].labelText) == Some(top[i].icon))
    && (forall i, j :: 0 <= i < j < |top| ==> top[i].labelText != top[j].labelText)
    && SortedBy(top, SymptomCountDesc)
    && (forall l :: LabelCount(syms, l) > 0 && (forall i :: 0 <= i < |top| ==> top[i].labelText != l) ==>
          |top| == 5 && forall i :: 0 <= i < |top| ==> top[i].count >= LabelCount(syms, l))
  }

  /** `topFoods`: at most five distinct normalised names with the number of foods of that
      name, most frequent first, and no name left out that occurs more often than one kept. */
  ghost predicate TopFoodsOK(top: seq<TopFood>, entries: seq<DayEntry>)
  {
    && |top| <= 5
    && (forall i :: 0 <= i < |top| ==> 0 < top[i].count == FoodCount(entries, top[i].name))
    && (forall i, j :: 0 <= i < j < |top| ==> top[i].name != top[j].name)
    && SortedBy(top, FoodCountDesc)
    && (forall k :: FoodCount(entries, k) > 0 && (forall i :: 0 <= i < |top| ==> top[i].name != k) ==>
          |top| == 5 && forall i :: 0 <= i < |top| ==> top[i].count >= FoodCount(entries, k))
  }

  // ---------------------------------------------------------------------------------------
  // The computation

  /** `getSummaryStats(entries)`. */
  method GetSummaryStats(entries: seq<DayEntry>) returns (st: SummaryStats)
    ensures st.totalDays == |entries|
    ensures st.totalSymptoms == |AllSymptoms(entries)| && st.totalFoods == |AllFoods(entries)|
    ensures st.daysWithSymptoms == DaysWith(entries)
    ensures st.daysWithSymptoms == 0 <==> st.totalSymptoms == 0
    ensures st.daysWithSymptoms == st.totalDays <==> forall i :: 0 <= i < |entries| ==> HasSymptoms(entries[i])
    ensures st.symptomRate == SymptomRate(st.daysWithSymptoms, st.totalDays)
    ensures TopSymptomsOK(st.topSymptoms, AllSymptoms(entries))
    ensures TopFoodsOK(st.topFoods, entries)
  {
    var totalSymptoms, totalFoods := 0, 0;
    var symptomCounts: JsMap<SymptomData> := [];
    var foodCounts: JsMap<nat> := [];
    var i := 0;
    while i < |entries|
      invariant 0 <= i <= |entries|
      invariant totalSymptoms == |AllSymptoms(entries[..i])| && totalFoods == |AllFoods(entries[..i])|
      invariant DistinctKeys(symptomCounts) && forall l :: Get(symptomCounts, l) == Tallied(AllSymptoms(entries[..i]), l)
      invariant DistinctKeys(foodCounts) && forall k :: Get(foodCounts, k) == Tally(FoodCount(entries[..i], k))
    {
      var e := entries[i];
      assert entries[..i + 1][..i] == entries[..i];
      totalSymptoms := totalSymptoms + |e.symptoms|;
      totalFoods := totalFoods + |e.foods|;
      symptomCounts := CountLabels(symptomCounts, AllSymptoms(entries[..i]), e.symptoms);
      NormNamesConcat(AllFoods(entries[..i]), e.foods);
      foodCounts := CountNames(foodCounts, EatenNames(entries[..i]), e.foods);
      i := i + 1;
    }
    assert entries[..i] == entries;
    var days := |Filter(entries, HasSymptoms)|;
    DaysWithSymptoms(entries);
    var topSymptoms := TopSymptomsOf(symptomCounts, AllSymptoms(entries));
    var topFoods := TopFoodsOf(foodCounts, entries);
    st := SummaryStats(|entries|, totalSymptoms, totalFoods, days, SymptomRate(days, |entries|), topSymptoms, topFoods);
  }

  /** The loop over `entry.symptoms`. */
  method CountLabels(m0: JsMap<SymptomData>, ghost done: seq<SymptomEntry>, items: seq<SymptomEntry>)
    returns (m: JsMap<SymptomData>)
    requires DistinctKeys(m0) && forall l :: Get(m0, l) == Tallied(done, l)
    ensures DistinctKeys(m) && forall l :: Get(m, l) == Tallied(done + items, l)
  {
    m := m0;
    var j := 0;
    assert done + items[..0] == done;
    while j < |items|
      invariant 0 <= j <= |items|
      invariant DistinctKeys(m) && forall l :: Get(m, l) == Tallied(done + items[..j], l)
    {
      var s := items[j];
      TalliedStep(done + items[..j], s);
      assert done + items[..j + 1] == done + items[..j] + [s];
      var d := match Get(m, s.labelText) {
        case Some(existing) => SymptomData(existing.icon, existing.count + 1)
        case None => SymptomData(s.icon, 1)
      };
      SetDistinct(m, s.labelText, d);
      m := Set(m, s.labelText, d);
      j := j + 1;
    }
    assert items[..j] == items;
  }

  /** The loop over `entry.foods`, on a map that holds the counts of the names `done`. */
  method CountNames(m0: JsMap<nat>, ghost done: seq<string>, items: seq<FoodEntry>) returns (m: JsMap<nat>)
    requires DistinctKeys(m0) && forall k :: Get(m0, k) == Tally(multiset(done)[k])
    ensures DistinctKeys(m) && forall k :: Get(m, k) == Tally(multiset(done + NormNames(items))[k])
  {
    ghost var names := NormNames(items);
    ghost var ms := multiset(done);
    m := m0;
    var j := 0;
    assert done + names[..0] == done;
    while j < |items|
      invariant 0 <= j <= |items|
      invariant ms == multiset(done + names[..j])
      invariant DistinctKeys(m) && forall k :: Get(m, k) == Tally(ms[k])
    {
      var name := NormName(items[j].name);
      assert done + names[..j + 1] == done + names[..j] + [name];
      var v := GetOr(m, name, 0) + 1;
      TallyStep(m, ms, name);
      m := Set(m, name, v);
      ms := ms + multiset{name};
      j := j + 1;
    }
    assert names[..j] == names;
  }

  /** Adding one to a name's entry counts one more occurrence of it. */
  lemma TallyStep(m: JsMap<nat>, ms: multiset<string>, name: string)
    requires DistinctKeys(m) && forall k :: Get(m, k) == Tally(ms[k])
    ensures var m' := Set(m, name, GetOr(m, name, 0) + 1);
      DistinctKeys(m') && forall k :: Get(m', k) == Tally((ms + multiset{name})[k])
  {
    SetDistinct(m, name, GetOr(m, name, 0) + 1);
  }

  lemma NormNamesConcat(a: seq<FoodEntry>, b: seq<FoodEntry>)
    ensures NormNames(a + b) == NormNames(a) + NormNames(b)
  {
  }

  lemma NormNamesSnoc(items: seq<FoodEntry>)
    requires items != []
    ensures NormNames(items) == NormNames(items[..|items| - 1]) + [NormName(items[|items| - 1].name)]
  {
  }

  lemma CountSnoc(names: seq<string>, x: string, k: string)
    ensures multiset(names + [x])[k] == multiset(names)[k] + (if x == k then 1 else 0)
  {
  }

  /** `NamedIn` counts the occurrences of a name among the normalised names. */
  lemma {:induction false} NamedInNames(items: seq<FoodEntry>, k: string)
    ensures NamedIn(items, k) == multiset(NormNames(items))[k]
    decreases |items|
  {
    if items != [] {
      var init, f := items[..|items| - 1], items[|items| - 1];
      NamedInNames(init, k);
      NormNamesSnoc(items);
      CountSnoc(NormNames(init), NormName(f.name), k);
    }
  }

  /** The summary's food counts are the correlations' `timesEaten`: both count the foods
      whose normalised name is `k`. */
  lemma {:induction false} FoodCountIsEaten(entries: seq<DayEntry>, k: string)
    ensures FoodCount(entries, k) == EatenCount(entries, k) == CountName(FoodOccs(entries), k)
    decreases |entries|
  {
    if entries != [] {
      var init, e := entries[..|entries| - 1], entries[|entries| - 1];
      FoodCountIsEaten(init, k);
      NormNamesConcat(AllFoods(init), e.foods);
      NamedInNames(e.foods, k);
      assert EatenNames(entries) == EatenNames(init) + NormNames(e.foods);
    }
    TimesEatenCountsEntries(entries, k);
  }

  /** Counting one more symptom: its label's count goes up by one, and the label takes the
      symptom's icon only when it had not been seen. */
  lemma TalliedStep(syms: seq<SymptomEntry>, s: SymptomEntry)
    ensures forall l :: l != s.labelText ==> Tallied(syms + [s], l) == Tallied(syms, l)
    ensures Tallied(syms + [s], s.labelText) == match Tallied(syms, s.labelText) {
      case Some(d) => Some(SymptomData(d.icon, d.count + 1))
      case None => Some(SymptomData(s.icon, 1))
    }
  {
    assert (syms + [s])[..|syms|] == syms;
    FirstIconCount(syms, s.labelText);
  }

  /** A label has a first icon exactly when it occurs. */
  lemma {:induction false} FirstIconCount(syms: seq<SymptomEntry>, l: string)
    ensures FirstIcon(syms, l).Some? <==> LabelCount(syms, l) > 0
  {
    if syms != [] {
      FirstIconCount(syms[..|syms| - 1], l);
    }
  }

  /** `entries.filter(e => e.symptoms.length > 0).length` is the entry-by-entry count: none
      exactly when no symptom was logged, and all exactly when every entry has one. */
  lemma DaysWithSymptoms(entries: seq<DayEntry>)
    ensures |Filter(entries, HasSymptoms)| == DaysWith(entries)
    ensures DaysWith(entries) == 0 <==> |AllSymptoms(entries)| == 0
    ensures DaysWith(entries) == |entries| <==> forall i :: 0 <= i < |entries| ==> HasSymptoms(entries[i])
  {
    var kept := Filter(entries, HasSymptoms);
    FilterDaysWith(entries);
    NoSymptomsAnywhere(entries);
    if kept != [] {
      assert HasSymptoms(kept[0]) && kept[0] in entries;
    }
    FilterKeepsAll(entries, HasSymptoms);
  }

  lemma {:induction false} FilterDaysWith(entries: seq<DayEntry>)
    ensures |Filter(entries, HasSymptoms)| == DaysWith(entries)
  {
    if entries != [] {
      FilterDaysWith(entries[1..]);
    }
  }

  /** The flattened symptoms are empty exactly when no entry has one. */
  lemma {:induction false} NoSymptomsAnywhere(entries: seq<DayEntry>)
    ensures |AllSymptoms(entries)| == 0 <==> forall i :: 0 <= i < |entries| ==> !HasSymptoms(entries[i])
  {
    if entries != [] {
      var init := entries[..|entries| - 1];
      NoSymptomsAnywhere(init);
      assert forall i :: 0 <= i < |init| ==> init[i] == entries[i];
    }
  }

  /** The rows `Array.from(symptomCounts).map(...)` builds. */
  function SymptomRows(m: JsMap<SymptomData>): (rows: seq<TopSymptom>)
  {
    seq(|m|, i requires 0 <= i < |m| => TopSymptom(m[i].0, m[i].1.icon, m[i].1.count))
  }

  /** The rows `Array.from(foodCounts).map(...)` builds. */
  function FoodRows(m: JsMap<nat>): (rows: seq<TopFood>)
  {
    seq(|m|, i requires 0 <= i < |m| => TopFood(m[i].0, m[i].1))
  }

  lemma SymptomRowsDistinct(m: JsMap<SymptomData>)
    requires DistinctKeys(m)
    ensures var rows := SymptomRows(m);
      forall i, j :: 0 <= i < j < |rows| ==> rows[i].labelText != rows[j].labelText
  {
  }

  lemma FoodRowsDistinct(m: JsMap<nat>)
    requires DistinctKeys(m)
    ensures var rows := FoodRows(m);
      forall i, j :: 0 <= i < j < |rows| ==> rows[i].name != rows[j].name
  {
  }

  /** `Array.from(symptomCounts).map(...).sort(by count).slice(0, 5)`. */
  method TopSymptomsOf(m: JsMap<SymptomData>, ghost syms: seq<SymptomEntry>) returns (top: seq<TopSymptom>)
    requires DistinctKeys(m) && forall l :: Get(m, l) == Tallied(syms, l)
    ensures TopSymptomsOK(top, syms)
  {
    var rows := SymptomRows(m);
    top := Take(Sort(rows, SymptomCountDesc), 5);
    TopSymptomsChosen(m, syms, rows, top);
  }

  lemma TopSymptomsChosen(m: JsMap<SymptomData>, syms: seq<SymptomEntry>, rows: seq<TopSymptom>, top: seq<TopSymptom>)
    requires DistinctKeys(m) && forall l :: Get(m, l) == Tallied(syms, l)
    requires rows == SymptomRows(m) && top == Take(Sort(rows, SymptomCountDesc), 5)
    ensures TopSymptomsOK(top, syms)
  {
    SortTake(rows, SymptomCountDesc, 5);
    assert |top| <= 5 && SortedBy(top, SymptomCountDesc);
    TopSymptomsCounted(m, syms, top);
    SymptomRowsDistinct(m);
    DistinctBySub(top, rows, (x: TopSymptom) => x.labelText);
    TopSymptomsLead(m, syms, top);
  }

  lemma TopSymptomsCounted(m: JsMap<SymptomData>, syms: seq<SymptomEntry>, top: seq<TopSymptom>)
    requires DistinctKeys(m) && forall l :: Get(m, l) == Tallied(syms, l)
    requires multiset(top) <= multiset(SymptomRows(m))
    ensures forall i :: 0 <= i < |top| ==>
      0 < top[i].count == LabelCount(syms, top[i].labelText) && FirstIcon(syms, top[i].labelText) == Some(top[i].icon)
  {
    var rows := SymptomRows(m);
    forall i | 0 <= i < |top|
      ensures 0 < top[i].count == LabelCount(syms, top[i].labelText) && FirstIcon(syms, top[i].labelText) == Some(top[i].icon)
    {
      assert top[i] in multiset(rows);
      var p :| 0 <= p < |rows| && rows[p] == top[i];
      GetAt(m, p);
      FirstIconCount(syms, m[p].0);
    }
  }

  lemma TopSymptomsLead(m: JsMap<SymptomData>, syms: seq<SymptomEntry>, top: seq<TopSymptom>)
    requires forall l :: Get(m, l) == Tallied(syms, l)
    requires forall x :: x in SymptomRows(m) && x !in top ==>
      |top| == 5 && forall i :: 0 <= i < |top| ==> SymptomCountDesc(top[i], x)
    ensures forall l :: LabelCount(syms, l) > 0 && (forall i :: 0 <= i < |top| ==> top[i].labelText != l) ==>
      |top| == 5 && forall i :: 0 <= i < |top| ==> top[i].count >= LabelCount(syms, l)
  {
    var rows := SymptomRows(m);
    forall l | LabelCount(syms, l) > 0 && (forall i :: 0 <= i < |top| ==> top[i].labelText != l)
      ensures |top| == 5 && forall i :: 0 <= i < |top| ==> top[i].count >= LabelCount(syms, l)
    {
      FirstIconCount(syms, l);
      GetSome(m, l);
      var v := Get(m, l).value;
      var p :| 0 <= p < |m| && m[p] == (l, v);
      assert rows[p] in rows && rows[p] !in top;
    }
  }

  /** `Array.from(foodCounts).map(...).sort(by count).slice(0, 5)`. */
  method TopFoodsOf(m: JsMap<nat>, ghost entries: seq<DayEntry>) returns (top: seq<TopFood>)
    requires DistinctKeys(m) && forall k :: Get(m, k) == Tally(FoodCount(entries, k))
    ensures TopFoodsOK(top, entries)
  {
    var rows := FoodRows(m);
    top := Take(Sort(rows, FoodCountDesc), 5);
    TopFoodsChosen(m, entries, rows, top);
  }

  lemma TopFoodsChosen(m: JsMap<nat>, entries: seq<DayEntry>, rows: seq<TopFood>, top: seq<TopFood>)
    requires DistinctKeys(m) && forall k :: Get(m, k) == Tally(FoodCount(entries, k))
    requires rows == FoodRows(m) && top == Take(Sort(rows, FoodCountDesc), 5)
    ensures TopFoodsOK(top, entries)
  {
    SortTake(rows, FoodCountDesc, 5);
    assert |top| <= 5 && SortedBy(top, FoodCountDesc);
    TopFoodsCounted(m, entries, top);
    FoodRowsDistinct(m);
    DistinctBySub(top, rows, (x: TopFood) => x.name);
    TopFoodsLead(m, entries, top);
  }

  lemma TopFoodsCounted(m: JsMap<nat>, entries: seq<DayEntry>, top: seq<TopFood>)
    requires DistinctKeys(m) && forall k :: Get(m, k) == Tally(FoodCount(entries, k))
    requires multiset(top) <= multiset(FoodRows(m))
    ensures forall i :: 0 <= i < |top| ==> 0 < top[i].count == FoodCount(entries, top[i].name)
  {
    var rows := FoodRows(m);
    forall i | 0 <= i < |top|
      ensures 0 < top[i].count == FoodCount(entries, top[i].name)
    {
      assert top[i] in multiset(rows);
      var p :| 0 <= p < |rows| && rows[p] == top[i];
      GetAt(m, p);
    }
  }

  lemma TopFoodsLead(m: JsMap<nat>, entries: seq<DayEntry>, top: seq<TopFood>)
    requires forall k :: Get(m, k) == Tally(FoodCount(entries, k))
    requires forall x :: x in FoodRows(m) && x !in top ==>
      |top| == 5 && forall i :: 0 <= i < |top| ==> FoodCountDesc(top[i], x)
    ensures forall k :: FoodCount(entries, k) > 0 && (forall i :: 0 <= i < |top| ==> top[i].name != k) ==>
      |top| == 5 && forall i :: 0 <= i < |top| ==> top[i].count >= FoodCount(entries, k)
  {
    var rows := FoodRows(m);
    forall k | FoodCount(entries, k) > 0 && (forall i :: 0 <= i < |top| ==> top[i].name != k)
      ensures |top| == 5 && forall i :: 0 <= i < |top| ==> top[i].count >= FoodCount(entries, k)
    {
      GetSome(m, k);
      var v := Get(m, k).value;
      var p :| 0 <= p < |m| && m[p] == (k, v);
      assert rows[p] in rows && rows[p] !in top;
    }
  }

  // ---------------------------------------------------------------------------------------
  // Properties

  /** The icon kept for a label is that of its first occurrence. */
  lemma {:induction false} FirstIconAt(syms: seq<SymptomEntry>, l: string, i: nat)
    requires i < |syms| && syms[i].labelText == l
    requires forall j :: 0 <= j < i ==> syms[j].labelText != l
    ensures FirstIcon(syms, l) == Some(syms[i].icon)
    decreases |syms|
  {
    var init := syms[..|syms| - 1];
    if i < |syms| - 1 {
      FirstIconAt(init, l, i);
    } else {
      NoLabelNoIcon(init, l);
    }
  }

  lemma {:induction false} NoLabelNoIcon(syms: seq<SymptomEntry>, l: string)
    requires forall j :: 0 <= j < |syms| ==> syms[j].labelText != l
    ensures FirstIcon(syms, l) == None
    decreases |syms|
  {
    if syms != [] {
      NoLabelNoIcon(syms[..|syms| - 1], l);
    }
  }

  /** When the percentage is a whole number, the rate is exactly that number. */
  lemma RateExact(days: nat, total: nat, pct: nat)
    requires total > 0 && 100 * days == pct * total
    ensures SymptomRate(days, total) == pct
  {
    var a, b, r := 200 * days + total, 2 * total, SymptomRate(days, total);
    assert b * r <= a < b * (r + 1);
    assert a == b * pct + total;
    assert b * (pct + 1) == b * pct + b;
    MulLess(b, r, pct + 1);
    MulLess(b, pct, r + 1);
  }

  /** Ten entries of which exactly three have a symptom: `GetSummaryStats` reports three days
      with symptoms and a rate of 30. */
  lemma TenDaysThreeWithSymptoms(entries: seq<DayEntry>)
    requires |entries| == 10 && DaysWith(entries) == 3
    ensures SymptomRate(DaysWith(entries), |entries|) == 30
  {
    RateExact(3, 10, 30);
  }

  /** The summary's totals count the same occurrences the correlations flatten. */
  lemma {:induction false} TotalsMatchOccurrences(entries: seq<DayEntry>)
    ensures |AllSymptoms(entries)| == |SymptomOccs(entries)|
    ensures |AllFoods(entries)| == |FoodOccs(entries)|
    decreases |entries|
  {
    if entries != [] {
      var e := entries[|entries| - 1];
      TotalsMatchOccurrences(entries[..|entries| - 1]);
      EntrySymptomsLength(e.date, e.symptoms);
      EntryFoodsLength(e.date, e.foods);
    }
  }

  lemma {:induction false} EntrySymptomsLength(date: string, items: seq<SymptomEntry>)
    ensures |EntrySymptoms(date, items)| == |items|
    decreases |items|
  {
    if items != [] {
      EntrySymptomsLength(date, items[..|items| - 1]);
    }
  }

  lemma {:induction false} EntryFoodsLength(date: string, items: seq<FoodEntry>)
    ensures |EntryFoods(date, items)| == |items|
    decreases |items|
  {
    if items != [] {
      EntryFoodsLength(date, items[..|items| - 1]);
    }
  }

  /** A food in `topFoods` and that food's correlation record report the same count. */
  lemma TopFoodTimesEaten(entries: seq<DayEntry>, top: seq<TopFood>, i: nat, c: FoodCorrelation,
                          syms: seq<SymptomOcc>, lagMs: real)
    requires TopFoodsOK(top, entries) && i < |top|
    requires CorrelationOK(c, FoodOccs(entries), syms, lagMs) && c.food == top[i].name
    ensures c.timesEaten == top[i].count
  {
    FoodCountIsEaten(entries, c.food);
  }
}
