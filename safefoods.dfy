/** `getSafeFoods`: from the correlation records, the at most five foods eaten at least three
    times whose suspicion score is below 20, least suspicious first. */
module SafeFoods {
  import opened Sequences
  import opened Correlations

  /** The filter `c => c.timesEaten >= 3 && c.suspicionScore < 20`. */
  predicate Safe(c: FoodCorrelation)
  {
    c.timesEaten >= 3 && c.suspicionScore < 20.0
  }

  /** The comparator `(a, b) => a.suspicionScore - b.suspicionScore`. */
  predicate ScoreAsc(a: FoodCorrelation, b: FoodCorrelation)
  {
    a.suspicionScore <= b.suspicionScore
  }

  lemma ScoreAscPreorder()
    ensures TotalPreorder(ScoreAsc)
  {
  }

  /** `getSafeFoods(correlations)`. */
  function GetSafeFoods(cs: seq<FoodCorrelation>): (r: seq<FoodCorrelation>)
    ensures |r| <= 5 && multiset(r) <= multiset(cs)
    ensures forall i :: 0 <= i < |r| ==> Safe(r[i])
  {
    ScoreAscPreorder();
    SortFilterTake(cs, Safe, ScoreAsc, 5);
    Take(Sort(Filter(cs, Safe), ScoreAsc), 5)
  }

  /** The safe foods are at most five records of the input that pass the filter, in
      non-decreasing order of score; a passing record is left out only when five others with
      a score no higher were kept. */
  lemma SafeFoodsSelected(cs: seq<FoodCorrelation>)
    ensures var r := GetSafeFoods(cs);
      && |r| <= 5
      && multiset(r) <= multiset(cs)
      && (forall i :: 0 <= i < |r| ==> Safe(r[i]))
      && SortedBy(r, ScoreAsc)
      && forall c :: c in cs && Safe(c) && c !in r ==>
           |r| == 5 && forall i :: 0 <= i < |r| ==> r[i].suspicionScore <= c.suspicionScore
  {
    ScoreAscPreorder();
    SortFilterTake(cs, Safe, ScoreAsc, 5);
  }

  /** Records for distinct foods give safe foods for distinct foods. */
  lemma SafeFoodsDistinct(cs: seq<FoodCorrelation>)
    requires forall i, j :: 0 <= i < j < |cs| ==> cs[i].food != cs[j].food
    ensures var r := GetSafeFoods(cs);
      forall i, j :: 0 <= i < j < |r| ==> r[i].food != r[j].food
  {
    SafeFoodsSelected(cs);
    DistinctBySub(GetSafeFoods(cs), cs, (x: FoodCorrelation) => x.food);
  }

  /** A score below 20 means fewer preceded symptoms than a fifth of the times eaten. */
  lemma LowScore(timesEaten: nat, timesBefore: nat, totalSymptoms: nat)
    requires timesEaten > 0 && Score(timesEaten, timesBefore, totalSymptoms) < 20.0
    requires totalSymptoms == 0 ==> timesBefore == 0
    ensures 5 * timesBefore < timesEaten
  {
    if totalSymptoms > 0 {
      ScoreMeaning(timesEaten, timesBefore, totalSymptoms);
      BelowFifth(Score(timesEaten, timesBefore, totalSymptoms), timesEaten as real, timesBefore as real);
      assert (5 * timesBefore) as real == 5.0 * timesBefore as real;
    }
  }

  lemma BelowFifth(r: real, te: real, tb: real)
    requires te > 0.0 && r < 20.0 && r * te == tb * 100.0
    ensures 5.0 * tb < te
  {
    MulPos(20.0 - r, te);
    assert (20.0 - r) * te == 20.0 * te - r * te;
  }

  lemma MulPos(x: real, y: real)
    requires x > 0.0 && y > 0.0
    ensures x * y > 0.0
  {
  }

  /** A safe record of the correlation engine is a food eaten at least three times that
      preceded fewer symptom occurrences than a fifth of the times it was eaten. */
  lemma SafeMeaning(c: FoodCorrelation, foods: seq<FoodOcc>, syms: seq<SymptomOcc>, lagMs: real)
    requires CorrelationOK(c, foods, syms, lagMs) && Safe(c)
    ensures CountName(foods, c.food) >= 3
    ensures 5 * BeforeCount(foods, syms, c.food, lagMs) < CountName(foods, c.food)
  {
    if |syms| == 0 {
      assert BeforeCount(foods, syms, c.food, lagMs) == 0;
    }
    LowScore(c.timesEaten, c.timesBeforeSymptom, |syms|);
  }
}
