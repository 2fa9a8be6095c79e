/** The SM-2 scheduler of src/lib/algorithms/spacedRepetition.ts: a pure
    update of one card's scheduling record from a quality rating, the
    "is due" test and the record of a card never reviewed. */
module SpacedRepetition {
  import opened Seqs
  import opened Ease
  import Clock

  /** One card's scheduling record. `easeFactor` is in hundredths, the
      interval is in days, the two timestamps are instants in milliseconds
      and `None` where the source holds `null`. */
  datatype CardReviewData = CardReviewData(
    cardId: string,
    easeFactor: int,
    interval: int,
    repetitions: int,
    lastReviewedAt: Option<int>,
    nextReviewAt: Option<int>)

  /** What every record built by this module satisfies: the ease is at least
      1.3, counts are non-negative, and a card with a streak has a positive
      interval. */
  predicate WellFormed(d: CardReviewData)
  {
    && d.easeFactor >= MinEase
    && d.interval >= 0
    && d.repetitions >= 0
    && (d.repetitions > 0 ==> d.interval >= 1)
  }

  /** The SM-2 ease change for quality q, in hundredths:
      0.1 - (5 - q) * (0.08 + (5 - q) * 0.02). */
  function EaseDelta(q: int): (delta: int)
    ensures q == 5 ==> delta == 10
    ensures q == 4 ==> delta == 0
    ensures q == 3 ==> delta == -14
    ensures q == 2 ==> delta == -32
    ensures q == 1 ==> delta == -54
    ensures q <= 5 ==> delta <= 10
  {
    var k := 5 - q;
    10 - k * (8 + 2 * k)
  }

  /** A better rating never earns a smaller ease change (ratings up to 5). */
  lemma EaseDeltaMonotone(q: int, q': int)
    requires q <= q' <= 5
    ensures EaseDelta(q) <= EaseDelta(q')
  {
    var k, k' := 5 - q, 5 - q';
    assert 0 <= k' <= k;
    assert k' * k' <= k * k by {
      assert k' * k' <= k' * k;
      assert k' * k <= k * k;
    }
  }

  /** `calculateNextReview`: the record after a review of the given quality
      at instant `now`. */
  function CalculateNextReview(current: CardReviewData, quality: int, now: int): (r: CardReviewData)
    ensures r.cardId == current.cardId
    ensures r.easeFactor >= MinEase
    ensures r.easeFactor == Max(MinEase, current.easeFactor + EaseDelta(quality))
    ensures r.lastReviewedAt == Some(now)
    ensures r.nextReviewAt == Some(Clock.AddDays(now, r.interval))
    ensures quality < 3 ==> r.repetitions == 0 && r.interval == 1
    ensures quality >= 3 ==> r.repetitions == current.repetitions + 1
    ensures WellFormed(current) ==> WellFormed(r) && r.interval >= 1 && !IsDue(r, now)
  {
    var newEase := Max(MinEase, current.easeFactor + EaseDelta(quality));
    var newRepetitions := if quality >= 3 then current.repetitions + 1 else 0;
    var newInterval :=
      if quality < 3 then 1
      else if current.repetitions == 0 then 1
      else if current.repetitions == 1 then 6
      else RoundHundredths(current.interval * newEase);
    ScaledIntervalGrows(current.interval, newEase);
    current.(easeFactor := newEase, interval := newInterval, repetitions := newRepetitions,
             lastReviewedAt := Some(now), nextReviewAt := Some(Clock.AddDays(now, newInterval)))
  }

  /** `isDue`: a card with no scheduled date is due; otherwise it is due once
      its date has been reached. */
  predicate IsDue(d: CardReviewData, now: int)
    ensures d.nextReviewAt.None? ==> IsDue(d, now)
    ensures d.nextReviewAt.Some? ==> (IsDue(d, now) <==> d.nextReviewAt.value <= now)
  {
    d.nextReviewAt.None? || d.nextReviewAt.value <= now
  }

  /** `getDefaultReviewData`: the record of a card never reviewed. */
  function DefaultReviewData(cardId: string): (d: CardReviewData)
    ensures d.cardId == cardId
    ensures WellFormed(d)
    ensures d.easeFactor == DefaultEase && d.interval == 0 && d.repetitions == 0
    ensures d.lastReviewedAt.None? && d.nextReviewAt.None?
    ensures forall now :: IsDue(d, now)
  {
    CardReviewData(cardId, DefaultEase, 0, 0, None, None)
  }

  /** The passing-review interval rule: 1 day after the first success, 6 after
      the second, and from then on the previous interval scaled by the new
      ease and rounded to the nearest day; it never shrinks. */
  lemma PassingInterval(current: CardReviewData, quality: int, now: int)
    requires quality >= 3
    ensures var r := CalculateNextReview(current, quality, now);
      && (current.repetitions == 0 ==> r.interval == 1)
      && (current.repetitions == 1 ==> r.interval == 6)
      && (current.repetitions != 0 && current.repetitions != 1 ==>
            100 * r.interval - 50 <= current.interval * r.easeFactor < 100 * r.interval + 50)
      && (WellFormed(current) && current.repetitions > 1 ==> r.interval >= current.interval)
  {
    var r := CalculateNextReview(current, quality, now);
    ScaledIntervalGrows(current.interval, r.easeFactor);
  }

  /** Once due, a card stays due as time goes on. */
  lemma DueStaysDue(d: CardReviewData, t: int, t': int)
    requires IsDue(d, t) && t <= t'
    ensures IsDue(d, t')
  {
  }

  /** A reviewed card becomes due exactly when its new interval has passed. */
  lemma DueAfterInterval(current: CardReviewData, quality: int, now: int, t: int)
    ensures var r := CalculateNextReview(current, quality, now);
      IsDue(r, t) <==> t >= Clock.AddDays(now, r.interval)
  {
  }

  /** The record after reviewing with each quality of `qs` in turn, all at
      instant `now`. */
  function ReviewAll(d: CardReviewData, qs: seq<int>, now: int): (r: CardReviewData)
    ensures r.cardId == d.cardId
    ensures WellFormed(d) ==> WellFormed(r)
    decreases |qs|
  {
    if qs == [] then d else ReviewAll(CalculateNextReview(d, qs[0], now), qs[1..], now)
  }

  /** A run of passing reviews adds one repetition per review. */
  lemma {:induction false} PassingRunCountsRepetitions(d: CardReviewData, qs: seq<int>, now: int)
    requires forall i :: 0 <= i < |qs| ==> qs[i] >= 3
    ensures ReviewAll(d, qs, now).repetitions == d.repetitions + |qs|
    decreases |qs|
  {
    if qs != [] {
      PassingRunCountsRepetitions(CalculateNextReview(d, qs[0], now), qs[1..], now);
    }
  }

  /** A failing review anywhere in a run resets the count: afterwards the
      repetitions are exactly the passing reviews that followed it. */
  lemma {:induction false} FailureResetsStreak(d: CardReviewData, qs: seq<int>, i: nat, now: int)
    requires i < |qs| && qs[i] < 3
    requires forall j :: i < j < |qs| ==> qs[j] >= 3
    ensures ReviewAll(d, qs, now).repetitions == |qs| - 1 - i
    decreases |qs|
  {
    var d' := CalculateNextReview(d, qs[0], now);
    if i == 0 {
      PassingRunCountsRepetitions(d', qs[1..], now);
    } else {
      FailureResetsStreak(d', qs[1..], i - 1, now);
    }
  }

  /** Each perfect review (quality 5) raises the ease by exactly 0.1. */
  lemma {:induction false} PerfectRunRaisesEase(d: CardReviewData, qs: seq<int>, now: int)
    requires d.easeFactor >= MinEase
    requires forall i :: 0 <= i < |qs| ==> qs[i] == 5
    ensures ReviewAll(d, qs, now).easeFactor == d.easeFactor + 10 * |qs|
    decreases |qs|
  {
    if qs != [] {
      PerfectRunRaisesEase(CalculateNextReview(d, qs[0], now), qs[1..], now);
    }
  }

  /** Three perfect reviews of a new card: ease 2.6, 2.7, 2.8 and intervals
      1, 6 and round(6 * 2.8) = 17 days. */
  lemma ThreePerfectReviews(cardId: string, now: int)
    ensures var d1 := CalculateNextReview(DefaultReviewData(cardId), 5, now);
      var d2 := CalculateNextReview(d1, 5, now);
      var d3 := CalculateNextReview(d2, 5, now);
      && d1.easeFactor == 260 && d1.interval == 1 && d1.repetitions == 1
      && d2.easeFactor == 270 && d2.interval == 6 && d2.repetitions == 2
      && d3.easeFactor == 280 && d3.interval == 17 && d3.repetitions == 3
  {
  }

  /** Quality 2 on a card with two successes, interval 6 and ease 2.6: the
      streak resets, the interval is one day and the ease drops to 2.28. */
  lemma FailedReviewExample(d: CardReviewData, now: int)
    requires d.repetitions == 2 && d.interval == 6 && d.easeFactor == 260
    ensures var r := CalculateNextReview(d, 2, now);
      r.repetitions == 0 && r.interval == 1 && r.easeFactor == 228
  {
  }
}
