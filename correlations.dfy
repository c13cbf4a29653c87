/** `calculateCorrelations`: which foods tend to be eaten within `lagHours` before a symptom.
    The day entries are flattened into food and symptom occurrences; then, per normalised food
    name, the method counts how often it was eaten, how many symptom occurrences it preceded
    (at most once per occurrence) and, per symptom label, how many (food occurrence, symptom
    occurrence) pairs qualified (not deduplicated). The specification functions below say what
    each count is; the methods compute them with the source's loops and maps. */
module Correlations {
  import opened Options
  import opened Text
  import opened Sequences
  import opened JsMaps
  import opened Entries
  import opened TimeOfDay

  /** An element of `allFoods`; `None` stands for a `NaN` timestamp. */
  datatype FoodOcc = FoodOcc(name: string, timestamp: Option<real>, date: string)

  /** An element of `allSymptoms`. */
  datatype SymptomOcc = SymptomOcc(labelText: string, icon: string, timestamp: Option<real>, date: string)

  datatype RelatedSymptom = RelatedSymptom(symptom: string, count: nat)

  /** The `FoodCorrelation` record. */
  datatype FoodCorrelation = FoodCorrelation(
    food: string,
    timesEaten: nat,
    timesBeforeSymptom: nat,
    suspicionScore: real,
    relatedSymptoms: seq<RelatedSymptom>)

  /** `name.toLowerCase().trim()`. */
  function NormName(name: string): (r: string)
    ensures Trim(Lower(r)) == r
  {
    var t := Trim(Lower(name));
    LowerTrim(Lower(name));
    LowerIdempotent(name);
    TrimIdempotent(Lower(name));
    t
  }

  // ---------------------------------------------------------------------------------------
  // Flattening

  /** The `allFoods` record of one food of the entry for `date`. */
  function FoodOccOf(date: string, f: FoodEntry): FoodOcc
  {
    FoodOcc(NormName(f.name), ToTimestamp(date, f.timestamp), date)
  }

  /** The `allSymptoms` record of one symptom of the entry for `date`. */
  function SymptomOccOf(date: string, s: SymptomEntry): SymptomOcc
  {
    SymptomOcc(s.labelText, s.icon, ToTimestamp(date, s.timestamp), date)
  }

  function EntryFoods(date: string, foods: seq<FoodEntry>): seq<FoodOcc>
  {
    if foods == [] then []
    else EntryFoods(date, foods[..|foods| - 1]) + [FoodOccOf(date, foods[|foods| - 1])]
  }

  function EntrySymptoms(date: string, symptoms: seq<SymptomEntry>): seq<SymptomOcc>
  {
    if symptoms == [] then []
    else EntrySymptoms(date, symptoms[..|symptoms| - 1]) + [SymptomOccOf(date, symptoms[|symptoms| - 1])]
  }

  /** `allFoods`: the foods of every entry, entry by entry. */
  function FoodOccs(entries: seq<DayEntry>): seq<FoodOcc>
  {
    if entries == [] then []
    else
      var e := entries[|entries| - 1];
      FoodOccs(entries[..|entries| - 1]) + EntryFoods(e.date, e.foods)
  }

  /** `allSymptoms`: the symptoms of every entry, entry by entry. */
  function SymptomOccs(entries: seq<DayEntry>): seq<SymptomOcc>
  {
    if entries == [] then []
    else
      var e := entries[|entries| - 1];
      SymptomOccs(entries[..|entries| - 1]) + EntrySymptoms(e.date, e.symptoms)
  }

  // ---------------------------------------------------------------------------------------
  // What is counted

  /** How many food occurrences carry the normalised name `name`. */
  function CountName(foods: seq<FoodOcc>, name: string): (n: nat)
    ensures n <= |foods|
  {
    if foods == [] then 0
    else CountName(foods[..|foods| - 1], name) + (if foods[|foods| - 1].name == name then 1 else 0)
  }

  /** A food occurrence counts for a symptom occurrence when it lies strictly before it and at
      most `lagMs` before it; a `NaN` timestamp makes both comparisons false. */
  predicate Qualifies(f: FoodOcc, s: SymptomOcc, lagMs: real)
    ensures Qualifies(f, s, lagMs) ==> lagMs > 0.0
    ensures Qualifies(f, s, lagMs) ==> f.timestamp.Some? && s.timestamp.Some? && f.timestamp.value < s.timestamp.value
  {
    f.timestamp.Some? && s.timestamp.Some?
    && 0.0 < s.timestamp.value - f.timestamp.value <= lagMs
  }

  /** How many occurrences of the food `name` qualify for the symptom occurrence `s`. */
  function HitsFor(foods: seq<FoodOcc>, s: SymptomOcc, name: string, lagMs: real): nat
  {
    if foods == [] then 0
    else
      var f := foods[|foods| - 1];
      HitsFor(foods[..|foods| - 1], s, name, lagMs) + (if f.name == name && Qualifies(f, s, lagMs) then 1 else 0)
  }

  /** `timesBeforeSymptom`: the symptom occurrences that some occurrence of `name` qualifies
      for, each counted once however many occurrences qualify. */
  function BeforeCount(foods: seq<FoodOcc>, syms: seq<SymptomOcc>, name: string, lagMs: real): (n: nat)
    ensures n <= |syms|
  {
    if syms == [] then 0
    else
      var s := syms[|syms| - 1];
      BeforeCount(foods, syms[..|syms| - 1], name, lagMs) + (if HitsFor(foods, s, name, lagMs) > 0 then 1 else 0)
  }

  /** All qualifying (occurrence of `name`, symptom occurrence) pairs. */
  function TotalHits(foods: seq<FoodOcc>, syms: seq<SymptomOcc>, name: string, lagMs: real): nat
  {
    if syms == [] then 0
    else
      var s := syms[|syms| - 1];
      TotalHits(foods, syms[..|syms| - 1], name, lagMs) + HitsFor(foods, s, name, lagMs)
  }

  /** The qualifying pairs whose symptom carries the label `symptomLabel`: the count the
      per-food symptom map holds for it. */
  function PairCount(foods: seq<FoodOcc>, syms: seq<SymptomOcc>, name: string, symptomLabel: string, lagMs: real): nat
  {
    if syms == [] then 0
    else
      var s := syms[|syms| - 1];
      PairCount(foods, syms[..|syms| - 1], name, symptomLabel, lagMs)
        + (if s.labelText == symptomLabel then HitsFor(foods, s, name, lagMs) else 0)
  }

  /** One label's pairs are among all the pairs of the food. */
  lemma {:induction false} PairAtMostTotal(foods: seq<FoodOcc>, syms: seq<SymptomOcc>, name: string, symptomLabel: string, lagMs: real)
    ensures PairCount(foods, syms, name, symptomLabel, lagMs) <= TotalHits(foods, syms, name, lagMs)
  {
    if syms != [] {
      PairAtMostTotal(foods, syms[..|syms| - 1], name, symptomLabel, lagMs);
    }
  }

  /** The deduplicated count never exceeds the number of qualifying pairs. */
  lemma {:induction false} BeforeAtMostTotal(foods: seq<FoodOcc>, syms: seq<SymptomOcc>, name: string, lagMs: real)
    ensures BeforeCount(foods, syms, name, lagMs) <= TotalHits(foods, syms, name, lagMs)
  {
    if syms != [] {
      BeforeAtMostTotal(foods, syms[..|syms| - 1], name, lagMs);
    }
  }

  /** A name is counted exactly when some occurrence carries it. */
  lemma {:induction false} CountNamePositive(foods: seq<FoodOcc>, name: string)
    ensures CountName(foods, name) > 0 <==> exists i :: 0 <= i < |foods| && foods[i].name == name
  {
    if foods != [] {
      var init := foods[..|foods| - 1];
      CountNamePositive(init, name);
      if exists i :: 0 <= i < |init| && init[i].name == name {
        var i :| 0 <= i < |init| && init[i].name == name;
        assert foods[i].name == name;
      }
      if exists i :: 0 <= i < |foods| && foods[i].name == name {
        var i :| 0 <= i < |foods| && foods[i].name == name;
        if i < |init| {
          assert init[i].name == name;
        }
      }
    }
  }

  /** `suspicionScore`: `timesBeforeSymptom / timesEaten` as a percentage, and 0 when there are
      no symptom occurrences at all. */
  function Score(timesEaten: nat, timesBefore: nat, totalSymptoms: nat): (r: real)
    ensures r >= 0.0
    ensures totalSymptoms == 0 || timesEaten == 0 ==> r == 0.0
  {
    if timesEaten > 0 && totalSymptoms > 0 then timesBefore as real / timesEaten as real * 100.0 else 0.0
  }

  /** With symptoms and servings the score is the percentage whose share of `timesEaten` is
      `timesBefore`, so it stays within 100 exactly when `timesBefore <= timesEaten`. */
  lemma ScoreMeaning(timesEaten: nat, timesBefore: nat, totalSymptoms: nat)
    ensures totalSymptoms > 0 && timesEaten > 0 ==>
      Score(timesEaten, timesBefore, totalSymptoms) * timesEaten as real == timesBefore as real * 100.0
    ensures totalSymptoms > 0 && timesEaten > 0 ==>
      (Score(timesEaten, timesBefore, totalSymptoms) <= 100.0 <==> timesBefore <= timesEaten)
  {
    if totalSymptoms > 0 && timesEaten > 0 {
      var r, te := Score(timesEaten, timesBefore, totalSymptoms), timesEaten as real;
      assert r * te == timesBefore as real * 100.0;
      if r <= 100.0 {
        assert r * te <= 100.0 * te;
      } else {
        assert r * te > 100.0 * te;
      }
    }
  }

  /** The comparator `(a, b) => b.count - a.count`. */
  predicate CountDesc(a: RelatedSymptom, b: RelatedSymptom)
  {
    a.count >= b.count
  }

  /** The comparator `(a, b) => b.suspicionScore - a.suspicionScore`. */
  predicate ScoreDesc(a: FoodCorrelation, b: FoodCorrelation)
  {
    a.suspicionScore >= b.suspicionScore
  }

  predicate Frequent(c: FoodCorrelation)
  {
    c.timesEaten >= 2
  }

  /** `relatedSymptoms` for the food `name`: one entry per label with a positive pair count,
      carrying that count, most frequent first. */
  ghost predicate RelatedOK(rs: seq<RelatedSymptom>, foods: seq<FoodOcc>, syms: seq<SymptomOcc>, name: string, lagMs: real)
  {
    && (forall i :: 0 <= i < |rs| ==> 0 < rs[i].count == PairCount(foods, syms, name, rs[i].symptom, lagMs))
    && (forall i, j :: 0 <= i < j < |rs| ==> rs[i].symptom != rs[j].symptom)
    && (forall l :: PairCount(foods, syms, name, l, lagMs) > 0 ==> exists i :: 0 <= i < |rs| && rs[i].symptom == l)
    && SortedBy(rs, CountDesc)
  }

  /** A correlation entry holds the counts the specification functions give for its food. */
  ghost predicate CorrelationOK(c: FoodCorrelation, foods: seq<FoodOcc>, syms: seq<SymptomOcc>, lagMs: real)
  {
    && c.timesEaten == CountName(foods, c.food)
    && c.timesBeforeSymptom == BeforeCount(foods, syms, c.food, lagMs)
    && c.suspicionScore == Score(c.timesEaten, c.timesBeforeSymptom, |syms|)
    && RelatedOK(c.relatedSymptoms, foods, syms, c.food, lagMs)
  }

  /** A positive count present under its key; a zero count absent, as `get(k) || 0` reads it. */
  function Tally(n: nat): Option<nat>
  {
    if n > 0 then Some(n) else None
  }

  // ---------------------------------------------------------------------------------------
  // The computation

  /** The first loop: flattens the entries into `allFoods` and `allSymptoms`. */
  method Flatten(entries: seq<DayEntry>) returns (foods: seq<FoodOcc>, syms: seq<SymptomOcc>)
    ensures foods == FoodOccs(entries) && syms == SymptomOccs(entries)
  {
    foods, syms := [], [];
    var i := 0;
    while i < |entries|
      invariant 0 <= i <= |entries|
      invariant foods == FoodOccs(entries[..i]) && syms == SymptomOccs(entries[..i])
    {
      var e := entries[i];
      assert entries[..i + 1][..i] == entries[..i];
      foods := PushFoods(foods, e.date, e.foods);
      syms := PushSymptoms(syms, e.date, e.symptoms);
      i := i + 1;
    }
    assert entries[..i] == entries;
  }

  /** The inner loop over `entry.foods`. */
  method PushFoods(acc: seq<FoodOcc>, date: string, items: seq<FoodEntry>) returns (foods: seq<FoodOcc>)
    ensures foods == acc + EntryFoods(date, items)
  {
    foods := acc;
    var j := 0;
    while j < |items|
      invariant 0 <= j <= |items|
      invariant foods == acc + EntryFoods(date, items[..j])
    {
      foods := foods + [FoodOccOf(date, items[j])];
      assert items[..j + 1][..j] == items[..j];
      j := j + 1;
    }
    assert items[..j] == items;
  }

  /** The inner loop over `entry.symptoms`. */
  method PushSymptoms(acc: seq<SymptomOcc>, date: string, items: seq<SymptomEntry>) returns (syms: seq<SymptomOcc>)
    ensures syms == acc + EntrySymptoms(date, items)
  {
    syms := acc;
    var j := 0;
    while j < |items|
      invariant 0 <= j <= |items|
      invariant syms == acc + EntrySymptoms(date, items[..j])
    {
      syms := syms + [SymptomOccOf(date, items[j])];
      assert items[..j + 1][..j] == items[..j];
      j := j + 1;
    }
    assert items[..j] == items;
  }

  /** The `foodCounts` loop. */
  method CountFoods(foods: seq<FoodOcc>) returns (counts: JsMap<nat>)
    ensures DistinctKeys(counts)
    ensures forall k :: Get(counts, k) == Tally(CountName(foods, k))
  {
    counts := [];
    var i := 0;
    while i < |foods|
      invariant 0 <= i <= |foods|
      invariant DistinctKeys(counts)
      invariant forall k :: Get(counts, k) == Tally(CountName(foods[..i], k))
    {
      var name := foods[i].name;
      SetDistinct(counts, name, GetOr(counts, name, 0) + 1);
      counts := Set(counts, name, GetOr(counts, name, 0) + 1);
      assert foods[..i + 1][..i] == foods[..i];
      i := i + 1;
    }
    assert foods[..i] == foods;
  }

  /** The pair counts after the symptom occurrences `syms` and, of the current occurrence `s`,
      the food occurrences `upTo`. */
  function PairSoFar(foods: seq<FoodOcc>, syms: seq<SymptomOcc>, lagMs: real, s: SymptomOcc, upTo: seq<FoodOcc>,
                     name: string, symptomLabel: string): nat
  {
    PairCount(foods, syms, name, symptomLabel, lagMs) + (if symptomLabel == s.labelText then HitsFor(upTo, s, name, lagMs) else 0)
  }

  function TotalSoFar(foods: seq<FoodOcc>, syms: seq<SymptomOcc>, lagMs: real, s: SymptomOcc, upTo: seq<FoodOcc>,
                      name: string): nat
  {
    TotalHits(foods, syms, name, lagMs) + HitsFor(upTo, s, name, lagMs)
  }

  /** `foodSymptomCounts` holds an inner map exactly for the foods with a qualifying pair, and
      each inner map holds exactly the positive pair counts. */
  ghost predicate PairsExact(pairs: JsMap<JsMap<nat>>, foods: seq<FoodOcc>, syms: seq<SymptomOcc>, lagMs: real)
  {
    && DistinctKeys(pairs)
    && (forall k :: Get(pairs, k).Some? <==> TotalHits(foods, syms, k, lagMs) > 0)
    && (forall k :: Get(pairs, k).Some? ==>
          && DistinctKeys(Get(pairs, k).value)
          && forall l :: Get(Get(pairs, k).value, l) == Tally(PairCount(foods, syms, k, l, lagMs)))
  }

  /** The same in the middle of the inner loop over the foods. */
  ghost predicate PairsSoFar(pairs: JsMap<JsMap<nat>>, foods: seq<FoodOcc>, syms: seq<SymptomOcc>, lagMs: real,
                             s: SymptomOcc, upTo: seq<FoodOcc>)
  {
    && DistinctKeys(pairs)
    && (forall k :: Get(pairs, k).Some? <==> TotalSoFar(foods, syms, lagMs, s, upTo, k) > 0)
    && (forall k :: Get(pairs, k).Some? ==>
          && DistinctKeys(Get(pairs, k).value)
          && forall l :: Get(Get(pairs, k).value, l) == Tally(PairSoFar(foods, syms, lagMs, s, upTo, k, l)))
  }

  /** The nested update of `foodSymptomCounts`: the food's inner map, created when absent,
      with the count of the label bumped. */
  function Bump(pairs: JsMap<JsMap<nat>>, name: string, symptomLabel: string): JsMap<JsMap<nat>>
  {
    var inner := GetOr(pairs, name, []);
    Set(pairs, name, Set(inner, symptomLabel, GetOr(inner, symptomLabel, 0) + 1))
  }

  lemma HitsStep(upTo: seq<FoodOcc>, f: FoodOcc, s: SymptomOcc, lagMs: real)
    ensures forall k ::
      HitsFor(upTo + [f], s, k, lagMs) == HitsFor(upTo, s, k, lagMs) + (if f.name == k && Qualifies(f, s, lagMs) then 1 else 0)
  {
    assert (upTo + [f])[..|upTo|] == upTo;
  }

  lemma StartSymptom(pairs: JsMap<JsMap<nat>>, foods: seq<FoodOcc>, syms: seq<SymptomOcc>, lagMs: real, s: SymptomOcc)
    requires PairsExact(pairs, foods, syms, lagMs)
    ensures PairsSoFar(pairs, foods, syms, lagMs, s, [])
  {
  }

  lemma FinishSymptom(pairs: JsMap<JsMap<nat>>, foods: seq<FoodOcc>, syms: seq<SymptomOcc>, lagMs: real, s: SymptomOcc)
    requires PairsSoFar(pairs, foods, syms, lagMs, s, foods)
    ensures PairsExact(pairs, foods, syms + [s], lagMs)
  {
    assert (syms + [s])[..|syms|] == syms;
  }

  lemma SkipFood(pairs: JsMap<JsMap<nat>>, foods: seq<FoodOcc>, syms: seq<SymptomOcc>, lagMs: real,
                 s: SymptomOcc, upTo: seq<FoodOcc>, f: FoodOcc)
    requires PairsSoFar(pairs, foods, syms, lagMs, s, upTo)
    requires !Qualifies(f, s, lagMs)
    ensures PairsSoFar(pairs, foods, syms, lagMs, s, upTo + [f])
  {
    HitsStep(upTo, f, s, lagMs);
    assert forall k :: TotalSoFar(foods, syms, lagMs, s, upTo + [f], k) == TotalSoFar(foods, syms, lagMs, s, upTo, k);
    assert forall k, l :: PairSoFar(foods, syms, lagMs, s, upTo + [f], k, l) == PairSoFar(foods, syms, lagMs, s, upTo, k, l);
  }

  lemma BumpStep(pairs: JsMap<JsMap<nat>>, foods: seq<FoodOcc>, syms: seq<SymptomOcc>, lagMs: real,
                 s: SymptomOcc, upTo: seq<FoodOcc>, f: FoodOcc)
    requires PairsSoFar(pairs, foods, syms, lagMs, s, upTo)
    requires Qualifies(f, s, lagMs)
    ensures PairsSoFar(Bump(pairs, f.name, s.labelText), foods, syms, lagMs, s, upTo + [f])
  {
    var name, symptomLabel := f.name, s.labelText;
    var inner := GetOr(pairs, name, []);
    var inner' := Set(inner, symptomLabel, GetOr(inner, symptomLabel, 0) + 1);
    var r := Bump(pairs, name, symptomLabel);
    assert r == Set(pairs, name, inner');
    HitsStep(upTo, f, s, lagMs);
    SetDistinct(pairs, name, inner');
    assert DistinctKeys(inner);
    SetDistinct(inner, symptomLabel, GetOr(inner, symptomLabel, 0) + 1);
    forall k | Get(r, k).Some?
      ensures DistinctKeys(Get(r, k).value)
      ensures forall l :: Get(Get(r, k).value, l) == Tally(PairSoFar(foods, syms, lagMs, s, upTo + [f], k, l))
    {
      if k == name {
        forall l
          ensures Get(inner', l) == Tally(PairSoFar(foods, syms, lagMs, s, upTo + [f], k, l))
        {
          if Get(pairs, name).None? {
            PairAtMostTotal(foods, syms, k, l, lagMs);
            assert PairSoFar(foods, syms, lagMs, s, upTo, k, l) <= TotalSoFar(foods, syms, lagMs, s, upTo, k);
          }
        }
      }
    }
  }

  /** The symptom loop: `foodBeforeSymptomCount` and `foodSymptomCounts` over all symptom
      occurrences. */
  method TallySymptoms(foods: seq<FoodOcc>, syms: seq<SymptomOcc>, lagMs: real)
    returns (before: JsMap<nat>, pairs: JsMap<JsMap<nat>>)
    ensures DistinctKeys(before)
    ensures forall k :: Get(before, k) == Tally(BeforeCount(foods, syms, k, lagMs))
    ensures PairsExact(pairs, foods, syms, lagMs)
  {
    before, pairs := [], [];
    var i := 0;
    while i < |syms|
      invariant 0 <= i <= |syms|
      invariant DistinctKeys(before)
      invariant forall k :: Get(before, k) == Tally(BeforeCount(foods, syms[..i], k, lagMs))
      invariant PairsExact(pairs, foods, syms[..i], lagMs)
    {
      var foodsBefore;
      foodsBefore, pairs := ScanFoods(foods, syms[..i], syms[i], lagMs, pairs);
      before := CountOnce(before, foodsBefore, foods, syms[..i], syms[i], lagMs);
      assert syms[..i + 1] == syms[..i] + [syms[i]];
      i := i + 1;
    }
    assert syms[..i] == syms;
  }

  /** The inner loop over `allFoods` for one symptom occurrence `s`: collects the JS `Set` of
      the foods that qualify and bumps their pair counts. */
  method ScanFoods(foods: seq<FoodOcc>, ghost done: seq<SymptomOcc>, s: SymptomOcc, lagMs: real,
                   pairs0: JsMap<JsMap<nat>>)
    returns (foodsBefore: seq<string>, pairs: JsMap<JsMap<nat>>)
    requires PairsExact(pairs0, foods, done, lagMs)
    ensures PairsExact(pairs, foods, done + [s], lagMs)
    ensures forall a, b :: 0 <= a < b < |foodsBefore| ==> foodsBefore[a] != foodsBefore[b]
    ensures forall k :: k in foodsBefore <==> HitsFor(foods, s, k, lagMs) > 0
  {
    foodsBefore, pairs := [], pairs0;
    StartSymptom(pairs, foods, done, lagMs, s);
    var j := 0;
    while j < |foods|
      invariant 0 <= j <= |foods|
      invariant PairsSoFar(pairs, foods, done, lagMs, s, foods[..j])
      invariant forall a, b :: 0 <= a < b < |foodsBefore| ==> foodsBefore[a] != foodsBefore[b]
      invariant forall k :: k in foodsBefore <==> HitsFor(foods[..j], s, k, lagMs) > 0
    {
      var f := foods[j];
      assert foods[..j + 1] == foods[..j] + [f];
      HitsStep(foods[..j], f, s, lagMs);
      if Qualifies(f, s, lagMs) {
        if f.name !in foodsBefore {
          foodsBefore := foodsBefore + [f.name];
        }
        BumpStep(pairs, foods, done, lagMs, s, foods[..j], f);
        pairs := Bump(pairs, f.name, s.labelText);
      } else {
        SkipFood(pairs, foods, done, lagMs, s, foods[..j], f);
      }
      j := j + 1;
    }
    assert foods[..j] == foods;
    FinishSymptom(pairs, foods, done, lagMs, s);
  }

  /** The loop over the JS `Set`: each food in it gains one in `foodBeforeSymptomCount`. */
  method CountOnce(before0: JsMap<nat>, foodsBefore: seq<string>,
                   ghost foods: seq<FoodOcc>, ghost done: seq<SymptomOcc>, ghost s: SymptomOcc, ghost lagMs: real)
    returns (before: JsMap<nat>)
    requires DistinctKeys(before0)
    requires forall k :: Get(before0, k) == Tally(BeforeCount(foods, done, k, lagMs))
    requires forall a, b :: 0 <= a < b < |foodsBefore| ==> foodsBefore[a] != foodsBefore[b]
    requires forall k :: k in foodsBefore <==> HitsFor(foods, s, k, lagMs) > 0
    ensures DistinctKeys(before)
    ensures forall k :: Get(before, k) == Tally(BeforeCount(foods, done + [s], k, lagMs))
  {
    before := before0;
    var t := 0;
    while t < |foodsBefore|
      invariant 0 <= t <= |foodsBefore|
      invariant DistinctKeys(before)
      invariant forall k ::
        Get(before, k) == Tally(BeforeCount(foods, done, k, lagMs) + (if k in foodsBefore[..t] then 1 else 0))
    {
      var name := foodsBefore[t];
      assert foodsBefore[..t + 1] == foodsBefore[..t] + [name];
      assert name !in foodsBefore[..t];
      SetDistinct(before, name, GetOr(before, name, 0) + 1);
      before := Set(before, name, GetOr(before, name, 0) + 1);
      t := t + 1;
    }
    assert foodsBefore[..t] == foodsBefore;
    assert (done + [s])[..|done|] == done;
  }

  /** `relatedSymptoms`: the entries of a food's symptom map, most frequent first. */
  function RelatedList(inner: JsMap<nat>): seq<RelatedSymptom>
  {
    Sort(RelatedRows(inner), CountDesc)
  }

  lemma CountDescPreorder()
    ensures TotalPreorder(CountDesc)
  {
  }

  lemma ScoreDescPreorder()
    ensures TotalPreorder(ScoreDesc)
  {
  }

  /** The rows of a food's symptom map. */
  function RelatedRows(inner: JsMap<nat>): seq<RelatedSymptom>
  {
    seq(|inner|, i requires 0 <= i < |inner| => RelatedSymptom(inner[i].0, inner[i].1))
  }

  lemma RelatedListOK(inner: JsMap<nat>, foods: seq<FoodOcc>, syms: seq<SymptomOcc>, name: string, lagMs: real)
    requires DistinctKeys(inner)
    requires forall l :: Get(inner, l) == Tally(PairCount(foods, syms, name, l, lagMs))
    ensures RelatedOK(RelatedList(inner), foods, syms, name, lagMs)
  {
    var rows := RelatedRows(inner);
    var rs := RelatedList(inner);
    assert rs == Sort(rows, CountDesc);
    CountDescPreorder();
    SortSorted(rows, CountDesc);
    RelatedCounted(inner, rs, foods, syms, name, lagMs);
    DistinctBySub(rs, rows, (x: RelatedSymptom) => x.symptom);
    RelatedComplete(inner, rs, foods, syms, name, lagMs);
  }

  lemma RelatedCounted(inner: JsMap<nat>, rs: seq<RelatedSymptom>, foods: seq<FoodOcc>, syms: seq<SymptomOcc>,
                       name: string, lagMs: real)
    requires DistinctKeys(inner)
    requires forall l :: Get(inner, l) == Tally(PairCount(foods, syms, name, l, lagMs))
    requires multiset(rs) == multiset(RelatedRows(inner))
    ensures forall i :: 0 <= i < |rs| ==> 0 < rs[i].count == PairCount(foods, syms, name, rs[i].symptom, lagMs)
  {
    var rows := RelatedRows(inner);
    forall i | 0 <= i < |rs|
      ensures 0 < rs[i].count == PairCount(foods, syms, name, rs[i].symptom, lagMs)
    {
      assert rs[i] in multiset(rows);
      var p :| 0 <= p < |rows| && rows[p] == rs[i];
      GetAt(inner, p);
    }
  }

  lemma RelatedComplete(inner: JsMap<nat>, rs: seq<RelatedSymptom>, foods: seq<FoodOcc>, syms: seq<SymptomOcc>,
                        name: string, lagMs: real)
    requires forall l :: Get(inner, l) == Tally(PairCount(foods, syms, name, l, lagMs))
    requires multiset(rs) == multiset(RelatedRows(inner))
    ensures forall l :: PairCount(foods, syms, name, l, lagMs) > 0 ==> exists i :: 0 <= i < |rs| && rs[i].symptom == l
  {
    var rows := RelatedRows(inner);
    forall l | PairCount(foods, syms, name, l, lagMs) > 0
      ensures exists i :: 0 <= i < |rs| && rs[i].symptom == l
    {
      GetSome(inner, l);
      var v := Get(inner, l).value;
      var p :| 0 <= p < |inner| && inner[p] == (l, v);
      assert rows[p] in multiset(rs);
    }
  }

  lemma NoPairsNoRelated(foods: seq<FoodOcc>, syms: seq<SymptomOcc>, name: string, lagMs: real)
    requires TotalHits(foods, syms, name, lagMs) == 0
    ensures RelatedOK([], foods, syms, name, lagMs)
  {
    forall l ensures PairCount(foods, syms, name, l, lagMs) == 0 {
      PairAtMostTotal(foods, syms, name, l, lagMs);
    }
  }

  /** The loop that turns `foodCounts` into correlation records. */
  method BuildCorrelations(counts: JsMap<nat>, before: JsMap<nat>, pairs: JsMap<JsMap<nat>>, totalSymptoms: nat,
                           ghost foods: seq<FoodOcc>, ghost syms: seq<SymptomOcc>, ghost lagMs: real)
    returns (cs: seq<FoodCorrelation>)
    requires DistinctKeys(counts) && forall k :: Get(counts, k) == Tally(CountName(foods, k))
    requires forall k :: Get(before, k) == Tally(BeforeCount(foods, syms, k, lagMs))
    requires PairsExact(pairs, foods, syms, lagMs)
    requires totalSymptoms == |syms|
    ensures |cs| == |counts|
    ensures forall i :: 0 <= i < |cs| ==> cs[i].food == counts[i].0 && CorrelationOK(cs[i], foods, syms, lagMs)
  {
    cs := [];
    var i := 0;
    while i < |counts|
      invariant 0 <= i <= |counts|
      invariant |cs| == i
      invariant forall p :: 0 <= p < i ==> cs[p].food == counts[p].0 && CorrelationOK(cs[p], foods, syms, lagMs)
    {
      var (name, timesEaten) := counts[i];
      GetAt(counts, i);
      var timesBefore := GetOr(before, name, 0);
      var score := Score(timesEaten, timesBefore, totalSymptoms);
      var related: seq<RelatedSymptom> := [];
      match Get(pairs, name) {
        case Some(inner) =>
          RelatedListOK(inner, foods, syms, name, lagMs);
          related := RelatedList(inner);
        case None =>
          NoPairsNoRelated(foods, syms, name, lagMs);
      }
      cs := cs + [FoodCorrelation(name, timesEaten, timesBefore, score, related)];
      i := i + 1;
    }
  }

  /** The records `filter(c => c.timesEaten >= 2).sort(by score)` keeps are built records
      of frequent foods, in non-increasing order of score. */
  lemma RankedEntries(cs: seq<FoodCorrelation>, foods: seq<FoodOcc>, syms: seq<SymptomOcc>, lagMs: real)
    requires forall i :: 0 <= i < |cs| ==> CorrelationOK(cs[i], foods, syms, lagMs)
    ensures var r := Sort(Filter(cs, Frequent), ScoreDesc);
      && SortedBy(r, ScoreDesc)
      && forall i :: 0 <= i < |r| ==> r[i].timesEaten >= 2 && CorrelationOK(r[i], foods, syms, lagMs)
  {
    ScoreDescPreorder();
    SortSorted(Filter(cs, Frequent), ScoreDesc);
    SortFilterKeeps(cs, Frequent, ScoreDesc, (c: FoodCorrelation) => CorrelationOK(c, foods, syms, lagMs));
  }

  lemma RankedDistinct(cs: seq<FoodCorrelation>)
    requires forall a, b :: 0 <= a < b < |cs| ==> cs[a].food != cs[b].food
    ensures var r := Sort(Filter(cs, Frequent), ScoreDesc);
      forall a, b :: 0 <= a < b < |r| ==> r[a].food != r[b].food
  {
    var r := Sort(Filter(cs, Frequent), ScoreDesc);
    DistinctBySub(r, cs, (x: FoodCorrelation) => x.food);
  }

  /** Every food eaten at least twice has a record among those kept. */
  lemma RankedCovers(counts: JsMap<nat>, cs: seq<FoodCorrelation>, foods: seq<FoodOcc>)
    requires forall k :: Get(counts, k) == Tally(CountName(foods, k))
    requires |cs| == |counts|
    requires forall i :: 0 <= i < |cs| ==> cs[i].food == counts[i].0 && cs[i].timesEaten == CountName(foods, cs[i].food)
    ensures var r := Sort(Filter(cs, Frequent), ScoreDesc);
      forall k :: CountName(foods, k) >= 2 ==> exists i :: 0 <= i < |r| && r[i].food == k
  {
    var r := Sort(Filter(cs, Frequent), ScoreDesc);
    forall k | CountName(foods, k) >= 2
      ensures exists i :: 0 <= i < |r| && r[i].food == k
    {
      GetSome(counts, k);
      var v := Get(counts, k).value;
      var p :| 0 <= p < |counts| && counts[p] == (k, v);
      assert Frequent(cs[p]);
      SortFilterHas(cs, Frequent, ScoreDesc, cs[p]);
      var i :| 0 <= i < |r| && r[i] == cs[p];
      assert r[i].food == k;
    }
    assert r == Sort(Filter(cs, Frequent), ScoreDesc);
  }

  /** The default of `lagHours`. */
  const DefaultLagHours: real := 24.0

  /** `calculateCorrelations(entries, lagHours)`: one record per food eaten at least twice,
      holding its counts, in non-increasing order of score. */
  method CalculateCorrelations(entries: seq<DayEntry>, lagHours: real) returns (r: seq<FoodCorrelation>)
    ensures forall i :: 0 <= i < |r| ==> r[i].timesEaten >= 2
    ensures SortedBy(r, ScoreDesc)
    ensures forall i :: 0 <= i < |r| ==>
      CorrelationOK(r[i], FoodOccs(entries), SymptomOccs(entries), lagHours * MsPerHour as real)
    ensures forall i, j :: 0 <= i < j < |r| ==> r[i].food != r[j].food
    ensures forall k :: CountName(FoodOccs(entries), k) >= 2 ==> exists i :: 0 <= i < |r| && r[i].food == k
  {
    var foods, syms := Flatten(entries);
    var counts := CountFoods(foods);
    var lagMs := lagHours * MsPerHour as real;
    var before, pairs := TallySymptoms(foods, syms, lagMs);
    var cs := BuildCorrelations(counts, before, pairs, |syms|, foods, syms, lagMs);
    r := Sort(Filter(cs, Frequent), ScoreDesc);
    RankedEntries(cs, foods, syms, lagMs);
    RankedDistinct(cs);
    RankedCovers(counts, cs, foods);
  }

  // ---------------------------------------------------------------------------------------
  // Properties of the counts

  /** A food occurrence qualifies only inside a window of positive length, so with
      `lagHours <= 0` nothing qualifies. */
  lemma {:induction false} NoLagNoHits(foods: seq<FoodOcc>, s: SymptomOcc, name: string, lagMs: real)
    requires lagMs <= 0.0
    ensures HitsFor(foods, s, name, lagMs) == 0
  {
    if foods != [] {
      NoLagNoHits(foods[..|foods| - 1], s, name, lagMs);
    }
  }

  lemma {:induction false} NoLagNoPairs(foods: seq<FoodOcc>, syms: seq<SymptomOcc>, name: string, lagMs: real)
    requires lagMs <= 0.0
    ensures TotalHits(foods, syms, name, lagMs) == 0
  {
    if syms != [] {
      NoLagNoPairs(foods, syms[..|syms| - 1], name, lagMs);
      NoLagNoHits(foods, syms[|syms| - 1], name, lagMs);
    }
  }

  /** With the default window of 24 hours, a food logged at 11:00 PM counts for a symptom
      logged at 1:00 AM on the next day; a window of one hour does not reach that far. */
  lemma LateSnackCounts(d: CivilDate, d': CivilDate, f: FoodEntry, s: SymptomEntry)
    requires InRange(d) && d.year >= 100 && InRange(d') && d'.year >= 100
    requires DayNumber(d') == DayNumber(d) + 1
    requires f.timestamp == ClockString(11, 0, " ", true) && s.timestamp == ClockString(1, 0, " ", false)
    ensures Qualifies(FoodOccOf(FormatDate(d), f), SymptomOccOf(FormatDate(d'), s), DefaultLagHours * MsPerHour as real)
    ensures !Qualifies(FoodOccOf(FormatDate(d), f), SymptomOccOf(FormatDate(d'), s), 1.0 * MsPerHour as real)
  {
    AcrossMidnight(d, d', " ", f.timestamp, 11, 0, true, s.timestamp, 1, 0, false);
    var apart := 24.0 + HoursOf(TwentyFourHour(1, false), 0) - HoursOf(TwentyFourHour(11, true), 0);
    assert apart == 2.0;
    QualifiesApart(FoodOccOf(FormatDate(d), f), SymptomOccOf(FormatDate(d'), s), 2.0, DefaultLagHours * MsPerHour as real);
    QualifiesApart(FoodOccOf(FormatDate(d), f), SymptomOccOf(FormatDate(d'), s), 2.0, 1.0 * MsPerHour as real);
  }

  /** Occurrences a positive number of hours apart qualify exactly when the window reaches. */
  lemma QualifiesApart(f: FoodOcc, s: SymptomOcc, hours: real, lagMs: real)
    requires hours > 0.0 && HoursApart(f.timestamp, s.timestamp, hours)
    ensures Qualifies(f, s, lagMs) <==> hours * MsPerHour as real <= lagMs
  {
  }

  /** With `lagHours <= 0` a record has no symptom before it, score 0 and no related symptoms. */
  lemma NoLagNoCorrelation(c: FoodCorrelation, foods: seq<FoodOcc>, syms: seq<SymptomOcc>, lagMs: real)
    requires lagMs <= 0.0
    requires CorrelationOK(c, foods, syms, lagMs)
    ensures c.timesBeforeSymptom == 0 && c.suspicionScore == 0.0 && c.relatedSymptoms == []
  {
    NoLagNoPairs(foods, syms, c.food, lagMs);
    BeforeAtMostTotal(foods, syms, c.food, lagMs);
    NoPairsEmptyRelated(c.relatedSymptoms, foods, syms, c.food, lagMs);
  }

  /** A food without qualifying pairs has no related symptoms. */
  lemma NoPairsEmptyRelated(rs: seq<RelatedSymptom>, foods: seq<FoodOcc>, syms: seq<SymptomOcc>, name: string, lagMs: real)
    requires RelatedOK(rs, foods, syms, name, lagMs)
    requires TotalHits(foods, syms, name, lagMs) == 0
    ensures rs == []
  {
    forall l ensures PairCount(foods, syms, name, l, lagMs) == 0 {
      PairAtMostTotal(foods, syms, name, l, lagMs);
    }
    assert |rs| > 0 ==> rs[0].count > 0;
  }

  /** Without any symptom occurrence every record has score 0 and nothing before it. */
  lemma NoSymptomsNoSuspicion(c: FoodCorrelation, foods: seq<FoodOcc>, lagMs: real)
    requires CorrelationOK(c, foods, [], lagMs)
    ensures c.timesBeforeSymptom == 0 && c.suspicionScore == 0.0 && c.relatedSymptoms == []
  {
    NoPairsEmptyRelated(c.relatedSymptoms, foods, [], c.food, lagMs);
  }

  /** Within the window the score is the share of symptom occurrences per meal, as a
      percentage; it is not bounded by 100 since one meal may precede several occurrences. */
  lemma ScoreOfRecord(c: FoodCorrelation, foods: seq<FoodOcc>, syms: seq<SymptomOcc>, lagMs: real)
    requires CorrelationOK(c, foods, syms, lagMs)
    ensures c.timesBeforeSymptom <= |syms|
    ensures c.suspicionScore >= 0.0
    ensures |syms| > 0 && c.timesEaten > 0 ==>
      c.suspicionScore * c.timesEaten as real == c.timesBeforeSymptom as real * 100.0
  {
    ScoreMeaning(c.timesEaten, c.timesBeforeSymptom, |syms|);
  }

  function SumCounts(rs: seq<RelatedSymptom>): nat
  {
    if rs == [] then 0 else rs[0].count + SumCounts(rs[1..])
  }

  function Labels(rs: seq<RelatedSymptom>): seq<string>
  {
    if rs == [] then [] else [rs[0].symptom] + Labels(rs[1..])
  }

  function SumPairs(labels: seq<string>, foods: seq<FoodOcc>, syms: seq<SymptomOcc>, name: string, lagMs: real): nat
  {
    if labels == [] then 0
    else PairCount(foods, syms, name, labels[0], lagMs) + SumPairs(labels[1..], foods, syms, name, lagMs)
  }

  lemma {:induction false} LabelsOf(rs: seq<RelatedSymptom>)
    ensures |Labels(rs)| == |rs|
    ensures forall i :: 0 <= i < |rs| ==> Labels(rs)[i] == rs[i].symptom
  {
    if rs != [] {
      LabelsOf(rs[1..]);
    }
  }

  lemma {:induction false} SumCountsIsSumPairs(rs: seq<RelatedSymptom>, foods: seq<FoodOcc>, syms: seq<SymptomOcc>,
                                             name: string, lagMs: real)
    requires forall i :: 0 <= i < |rs| ==> rs[i].count == PairCount(foods, syms, name, rs[i].symptom, lagMs)
    ensures SumCounts(rs) == SumPairs(Labels(rs), foods, syms, name, lagMs)
  {
    if rs != [] {
      SumCountsIsSumPairs(rs[1..], foods, syms, name, lagMs);
    }
  }

  lemma {:induction false} SumPairsNone(labels: seq<string>, foods: seq<FoodOcc>, name: string, lagMs: real)
    ensures SumPairs(labels, foods, [], name, lagMs) == 0
  {
    if labels != [] {
      SumPairsNone(labels[1..], foods, name, lagMs);
    }
  }

  /** One more symptom occurrence adds its hits to the sum exactly when its label is listed. */
  lemma {:induction false} SumPairsStep(labels: seq<string>, foods: seq<FoodOcc>, syms: seq<SymptomOcc>, s: SymptomOcc,
                                      name: string, lagMs: real)
    requires Distinct(labels)
    ensures SumPairs(labels, foods, syms + [s], name, lagMs)
         == SumPairs(labels, foods, syms, name, lagMs) + (if s.labelText in labels then HitsFor(foods, s, name, lagMs) else 0)
  {
    if labels != [] {
      assert Distinct(labels[1..]) by {
        forall i, j | 0 <= i < j < |labels[1..]| ensures labels[1..][i] != labels[1..][j] {
          assert labels[i + 1] != labels[j + 1];
        }
      }
      SumPairsStep(labels[1..], foods, syms, s, name, lagMs);
      assert (syms + [s])[..|syms|] == syms;
      assert labels == [labels[0]] + labels[1..];
      assert labels[0] == s.labelText ==> s.labelText !in labels[1..];
    }
  }

  /** Summed over a list of distinct labels that covers every occurrence with a hit, the
      pair counts give all qualifying pairs. */
  lemma {:induction false} SumPairsTotal(labels: seq<string>, foods: seq<FoodOcc>, syms: seq<SymptomOcc>,
                                       name: string, lagMs: real)
    requires Distinct(labels)
    requires forall j :: 0 <= j < |syms| && HitsFor(foods, syms[j], name, lagMs) > 0 ==> syms[j].labelText in labels
    ensures SumPairs(labels, foods, syms, name, lagMs) == TotalHits(foods, syms, name, lagMs)
    decreases |syms|
  {
    if syms == [] {
      SumPairsNone(labels, foods, name, lagMs);
    } else {
      var init, s := syms[..|syms| - 1], syms[|syms| - 1];
      assert syms == init + [s];
      SumPairsTotal(labels, foods, init, name, lagMs);
      SumPairsStep(labels, foods, init, s, name, lagMs);
    }
  }

  /** A symptom occurrence with hits gives its label a positive pair count. */
  lemma {:induction false} PairCountCovers(foods: seq<FoodOcc>, syms: seq<SymptomOcc>, name: string, lagMs: real, j: nat)
    requires j < |syms|
    ensures PairCount(foods, syms, name, syms[j].labelText, lagMs) >= HitsFor(foods, syms[j], name, lagMs)
    decreases |syms|
  {
    if j < |syms| - 1 {
      PairCountCovers(foods, syms[..|syms| - 1], name, lagMs, j);
    }
  }

  /** The `relatedSymptoms` counts add up to every qualifying pair, so never to less than
      `timesBeforeSymptom`: the breakdown counts pairs where the headline count is deduplicated. */
  lemma RelatedCoverBefore(rs: seq<RelatedSymptom>, foods: seq<FoodOcc>, syms: seq<SymptomOcc>, name: string, lagMs: real)
    requires RelatedOK(rs, foods, syms, name, lagMs)
    ensures SumCounts(rs) == TotalHits(foods, syms, name, lagMs)
    ensures SumCounts(rs) >= BeforeCount(foods, syms, name, lagMs)
  {
    LabelsOf(rs);
    SumCountsIsSumPairs(rs, foods, syms, name, lagMs);
    forall j | 0 <= j < |syms| && HitsFor(foods, syms[j], name, lagMs) > 0
      ensures syms[j].labelText in Labels(rs)
    {
      PairCountCovers(foods, syms, name, lagMs, j);
      var i :| 0 <= i < |rs| && rs[i].symptom == syms[j].labelText;
      assert Labels(rs)[i] == syms[j].labelText;
    }
    SumPairsTotal(Labels(rs), foods, syms, name, lagMs);
    BeforeAtMostTotal(foods, syms, name, lagMs);
  }

  /** The asymmetry made concrete: milk eaten twice in the hours before one bloating episode
      counts once in `timesBeforeSymptom` but twice in the bloating count. */
  lemma DedupAsymmetry()
    ensures var foods := [FoodOcc("milk", Some(0.0), "d"), FoodOcc("milk", Some(1.0), "d")];
      var syms := [SymptomOcc("Bloating", "b", Some(2.0), "d")];
      && BeforeCount(foods, syms, "milk", 10.0) == 1
      && PairCount(foods, syms, "milk", "Bloating", 10.0) == 2
  {
    var foods := [FoodOcc("milk", Some(0.0), "d"), FoodOcc("milk", Some(1.0), "d")];
    var syms := [SymptomOcc("Bloating", "b", Some(2.0), "d")];
    assert foods[..1] == [foods[0]] && foods[..1][..0] == [];
    assert syms[..0] == [];
    assert HitsFor(foods, syms[0], "milk", 10.0) == 2;
  }

  /** Two servings of cheese followed by three headaches within the window: the record is
      eaten twice, so it passes the `timesEaten >= 2` filter, and it scores 150. */
  lemma ScoreAboveHundred()
    ensures var foods := [FoodOcc("cheese", Some(0.0), "d"), FoodOcc("cheese", Some(0.5), "d")];
      var syms := [SymptomOcc("Headache", "h", Some(1.0), "d"), SymptomOcc("Headache", "h", Some(2.0), "d"),
                   SymptomOcc("Headache", "h", Some(3.0), "d")];
      && CountName(foods, "cheese") == 2
      && Score(CountName(foods, "cheese"), BeforeCount(foods, syms, "cheese", 10.0), |syms|) == 150.0
  {
    var foods := [FoodOcc("cheese", Some(0.0), "d"), FoodOcc("cheese", Some(0.5), "d")];
    var syms := [SymptomOcc("Headache", "h", Some(1.0), "d"), SymptomOcc("Headache", "h", Some(2.0), "d"),
                 SymptomOcc("Headache", "h", Some(3.0), "d")];
    assert foods[..1] == [foods[0]] && foods[..1][..0] == [];
    assert syms[..2] == [syms[0], syms[1]] && syms[..2][..1] == [syms[0]] && syms[..2][..1][..0] == [];
    assert HitsFor(foods, syms[0], "cheese", 10.0) == 2;
    assert HitsFor(foods, syms[1], "cheese", 10.0) == 2;
    assert HitsFor(foods, syms[2], "cheese", 10.0) == 2;
    assert CountName(foods, "cheese") == 2;
    assert BeforeCount(foods, syms, "cheese", 10.0) == 3;
  }

  /** The number of foods in `items` whose normalised name is `name`. */
  function NamedIn(items: seq<FoodEntry>, name: string): nat
  {
    if items == [] then 0
    else NamedIn(items[..|items| - 1], name) + (if NormName(items[|items| - 1].name) == name then 1 else 0)
  }

  /** The foods across all entries whose lower-cased, trimmed name is `name`. */
  function EatenCount(entries: seq<DayEntry>, name: string): nat
  {
    if entries == [] then 0
    else EatenCount(entries[..|entries| - 1], name) + NamedIn(entries[|entries| - 1].foods, name)
  }

  lemma {:induction false} CountNameConcat(a: seq<FoodOcc>, b: seq<FoodOcc>, name: string)
    ensures CountName(a + b, name) == CountName(a, name) + CountName(b, name)
    decreases |b|
  {
    if b == [] {
      assert a + b == a;
    } else {
      assert (a + b)[..|a + b| - 1] == a + b[..|b| - 1];
      CountNameConcat(a, b[..|b| - 1], name);
    }
  }

  lemma {:induction false} CountEntryFoods(date: string, items: seq<FoodEntry>, name: string)
    ensures CountName(EntryFoods(date, items), name) == NamedIn(items, name)
    decreases |items|
  {
    if items != [] {
      var init := items[..|items| - 1];
      CountEntryFoods(date, init, name);
      CountNameConcat(EntryFoods(date, init), [FoodOccOf(date, items[|items| - 1])], name);
      assert CountName([FoodOccOf(date, items[|items| - 1])], name)
          == (if NormName(items[|items| - 1].name) == name then 1 else 0) by {
        assert [FoodOccOf(date, items[|items| - 1])][..0] == [];
      }
    }
  }

  /** `timesEaten` counts the foods of all entries whose normalised name is the record's. */
  lemma {:induction false} TimesEatenCountsEntries(entries: seq<DayEntry>, name: string)
    ensures CountName(FoodOccs(entries), name) == EatenCount(entries, name)
    decreases |entries|
  {
    if entries != [] {
      var init, e := entries[..|entries| - 1], entries[|entries| - 1];
      TimesEatenCountsEntries(init, name);
      CountNameConcat(FoodOccs(init), EntryFoods(e.date, e.foods), name);
      CountEntryFoods(e.date, e.foods, name);
    }
  }
}
