/** The two SM-2 updates side by side: the one of
    src/lib/algorithms/spacedRepetition.ts and the one inside
    src/lib/storage/flashcardStore.ts. They agree on the repetition count and
    on the first two passing intervals, and on everything for a perfect
    rating; they part ways on the ease change below 5 and on when a failed
    card comes back. */
module SchedulerVariants {
  import opened Seqs
  import opened Ease
  import Clock
  import SR = SpacedRepetition
  import FS = FlashcardStorage

  /** The scheduler's record `d` and the store's entry `review` describe the
      same card state: no entry stands for the default record. */
  predicate Corresponds(d: SR.CardReviewData, review: Option<FS.CardReview>)
  {
    match review
    case None => d == SR.DefaultReviewData(d.cardId)
    case Some(c) =>
      && c.cardId == d.cardId
      && c.easeFactor == d.easeFactor
      && c.interval == d.interval
      && c.repetitions == d.repetitions
      && d.nextReviewAt == Some(c.nextReviewDate)
      && FS.WellFormed(c)
  }

  /** The store's update, with the card id it files the record under. */
  function StoreUpdate(d: SR.CardReviewData, review: Option<FS.CardReview>, rating: int, now: int): (c: FS.CardReview)
    ensures c.cardId == d.cardId
  {
    FS.NextReview(review, rating, now).(cardId := d.cardId)
  }

  /** Both variants see the same card as due. */
  lemma DueAgrees(d: SR.CardReviewData, reviews: map<string, FS.CardReview>, now: int)
    requires Corresponds(d, FS.Lookup(reviews, d.cardId))
    ensures SR.IsDue(d, now) <==> FS.Due(reviews, d.cardId, now)
  {
  }

  /** On a perfect rating the two updates produce the same state. */
  lemma PerfectRatingAgrees(d: SR.CardReviewData, review: Option<FS.CardReview>, now: int)
    requires Corresponds(d, review)
    ensures Corresponds(SR.CalculateNextReview(d, 5, now), Some(StoreUpdate(d, review, 5, now)))
  {
    var r := SR.CalculateNextReview(d, 5, now);
    var c := StoreUpdate(d, review, 5, now);
    SR.PassingInterval(d, 5, now);
    FS.PassingInterval(review, 5, now);
    assert c.easeFactor == r.easeFactor;
    assert c.repetitions == r.repetitions;
    if review.Some? {
      assert FS.PriorInterval(review) == d.interval;
    }
    assert c.interval == r.interval;
  }

  /** On any passing rating the two updates count repetitions alike and give
      the same first two intervals, 1 and 6 days. */
  lemma PassPathAgrees(d: SR.CardReviewData, review: Option<FS.CardReview>, rating: int, now: int)
    requires Corresponds(d, review) && rating >= 3
    ensures var r := SR.CalculateNextReview(d, rating, now);
      var c := StoreUpdate(d, review, rating, now);
      && r.repetitions == c.repetitions
      && (d.repetitions <= 1 ==> r.interval == c.interval && r.nextReviewAt == Some(c.nextReviewDate))
  {
    SR.PassingInterval(d, rating, now);
    FS.PassingInterval(review, rating, now);
  }

  /** For ratings 1 to 5 the store's ease is never below the scheduler's:
      its passing penalty is linear, not quadratic, and its failing penalty
      is a flat 0.2; a perfect rating gives both the same ease. */
  lemma StoreEaseIsGentler(d: SR.CardReviewData, review: Option<FS.CardReview>, rating: int, now: int)
    requires Corresponds(d, review) && 1 <= rating <= 5
    ensures var r := SR.CalculateNextReview(d, rating, now);
      var c := StoreUpdate(d, review, rating, now);
      && c.easeFactor >= r.easeFactor
      && (rating == 5 ==> c.easeFactor == r.easeFactor)
  {
  }

  /** At ratings 3 and 4 on a card well above the floor, the store's ease is
      strictly higher. */
  lemma StoreEaseDiffers(d: SR.CardReviewData, review: Option<FS.CardReview>, rating: int, now: int)
    requires Corresponds(d, review) && 3 <= rating <= 4 && d.easeFactor >= MinEase + 14
    ensures SR.CalculateNextReview(d, rating, now).easeFactor < StoreUpdate(d, review, rating, now).easeFactor
  {
  }

  /** On a failing rating both reset the streak to an interval of one day,
      but the scheduler makes the card due a day later while the store makes
      it due at once. */
  lemma FailurePoliciesDiffer(d: SR.CardReviewData, review: Option<FS.CardReview>, rating: int, now: int)
    requires Corresponds(d, review) && rating < 3
    ensures var r := SR.CalculateNextReview(d, rating, now);
      var c := StoreUpdate(d, review, rating, now);
      && r.repetitions == 0 && c.repetitions == 0
      && r.interval == 1 && c.interval == 1
      && !SR.IsDue(r, now) && SR.IsDue(r, Clock.AddDays(now, 1))
      && FS.Due(map[d.cardId := c], d.cardId, now)
  {
  }
}
