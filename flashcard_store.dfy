/** The flashcard review store of src/lib/storage/flashcardStore.ts: its own
    copy of the SM-2 update (a linear ease change, a flat 0.2 penalty and
    "due again now" on failure) and a store holding one record per card id. */
module FlashcardStorage {
  import opened Seqs
  import opened Ease
  import Clock

  /** A stored record: ease in hundredths, interval in days, the next review
      instant in milliseconds. */
  datatype CardReview = CardReview(
    cardId: string,
    nextReviewDate: int,
    interval: int,
    easeFactor: int,
    repetitions: int)

  /** What every record the store holds satisfies. */
  predicate WellFormed(c: CardReview)
  {
    c.easeFactor >= MinEase && c.interval >= 1 && c.repetitions >= 0
  }

  /** `review?.easeFactor || 2.5`: a missing or zero ease counts as 2.5. */
  function PriorEase(review: Option<CardReview>): (e: int)
    ensures review.Some? && review.value.easeFactor != 0 ==> e == review.value.easeFactor
    ensures review.Some? && review.value.easeFactor == 0 ==> e == DefaultEase
    ensures review.None? ==> e == DefaultEase
  {
    if review.Some? && review.value.easeFactor != 0 then review.value.easeFactor else DefaultEase
  }

  /** `review?.repetitions || 0`: a missing count is 0 (a stored 0 is 0
      either way). */
  function PriorRepetitions(review: Option<CardReview>): (n: int)
    ensures review.None? ==> n == 0
    ensures review.Some? ==> n == review.value.repetitions
  {
    if review.Some? then review.value.repetitions else 0
  }

  /** `review?.interval || 1`: a missing or zero interval counts as one day. */
  function PriorInterval(review: Option<CardReview>): (i: int)
    ensures review.None? ==> i == 1
    ensures review.Some? && review.value.interval == 0 ==> i == 1
    ensures review.Some? && review.value.interval != 0 ==> i == review.value.interval
    ensures (review.None? || review.value.interval >= 0) ==> i >= 1
  {
    if review.Some? && review.value.interval != 0 then review.value.interval else 1
  }

  /** The local `calculateNextReview`: the record after a rating given at
      instant `now`, from the stored record if there is one. */
  function NextReview(review: Option<CardReview>, rating: int, now: int): (r: CardReview)
    ensures r.cardId == if review.Some? then review.value.cardId else ""
    ensures r.easeFactor >= MinEase
    ensures rating < 3 ==>
      && r.repetitions == 0 && r.interval == 1 && r.nextReviewDate == now
      && r.easeFactor == Max(MinEase, PriorEase(review) - 20)
    ensures rating >= 3 ==>
      && r.repetitions == PriorRepetitions(review) + 1
      && r.easeFactor == Max(MinEase, PriorEase(review) + 10 - (5 - rating) * 8)
      && r.nextReviewDate == Clock.AddDays(now, r.interval)
    ensures (review.None? || WellFormed(review.value)) ==> WellFormed(r)
  {
    var cardId := if review.Some? then review.value.cardId else "";
    if rating < 3 then
      CardReview(cardId, now, 1, Max(MinEase, PriorEase(review) - 20), 0)
    else
      var easeFactor := Max(MinEase, PriorEase(review) + (10 - (5 - rating) * 8));
      var repetitions := PriorRepetitions(review) + 1;
      var interval :=
        if repetitions == 1 then 1
        else if repetitions == 2 then 6
        else RoundHundredths(PriorInterval(review) * easeFactor);
      ScaledIntervalGrows(PriorInterval(review), easeFactor);
      CardReview(cardId, Clock.AddDays(now, interval), interval, easeFactor, repetitions)
  }

  /** The stored record for `id`, if any. */
  function Lookup(reviews: map<string, CardReview>, id: string): (r: Option<CardReview>)
    ensures r.None? <==> id !in reviews
    ensures r.Some? ==> r.value == reviews[id]
  {
    if id in reviews then Some(reviews[id]) else None
  }

  /** The filter of `getDueCards`: no record yet, or its date has come. */
  predicate Due(reviews: map<string, CardReview>, id: string, now: int)
    ensures id !in reviews ==> Due(reviews, id, now)
    ensures id in reviews ==> (Due(reviews, id, now) <==> reviews[id].nextReviewDate <= now)
  {
    id !in reviews || reviews[id].nextReviewDate <= now
  }

  /** The filter of `getMasteredCards`: at least three successes in a row
      and an interval of three weeks or more. */
  predicate Mastered(reviews: map<string, CardReview>, id: string)
    ensures Mastered(reviews, id) ==> id in reviews
    ensures id in reviews ==> (Mastered(reviews, id) <==> reviews[id].repetitions >= 3 && reviews[id].interval >= 21)
  {
    id in reviews && reviews[id].repetitions >= 3 && reviews[id].interval >= 21
  }

  /** The record `reviewCard` files under `id`. */
  function Reviewed(reviews: map<string, CardReview>, id: string, rating: int, now: int): (c: CardReview)
    ensures c.cardId == id
  {
    NextReview(Lookup(reviews, id), rating, now).(cardId := id)
  }

  /** The state of `useFlashcardStore`: the `reviews` record keyed by card id. */
  class FlashcardStore {
    var reviews: map<string, CardReview>

    /** Every record is filed under its own card id and is well formed. */
    ghost predicate Valid()
      reads this
    {
      forall id :: id in reviews ==> reviews[id].cardId == id && WellFormed(reviews[id])
    }

    constructor ()
      ensures Valid() && reviews == map[]
    {
      reviews := map[];
    }

    /** `reviewCard`: applies the update to the record of `cardId`, files the
        result under `cardId`, and leaves every other record as it was. */
    method ReviewCard(cardId: string, rating: int, now: int)
      requires Valid()
      modifies this
      ensures Valid()
      ensures reviews == old(reviews)[cardId := Reviewed(old(reviews), cardId, rating, now)]
      ensures reviews.Keys == old(reviews.Keys) + {cardId}
    {
      var current := Lookup(reviews, cardId);
      var updated := NextReview(current, rating, now);
      updated := updated.(cardId := cardId);
      reviews := reviews[cardId := updated];
    }

    /** `getNextReviewDate`: the stored date, or `None` for a card never
        reviewed. */
    function GetNextReviewDate(cardId: string): (r: Option<int>)
      reads this
      ensures r.None? <==> cardId !in reviews
      ensures r.Some? ==> r.value == reviews[cardId].nextReviewDate
    {
      var review := Lookup(reviews, cardId);
      if review.Some? then Some(review.value.nextReviewDate) else None
    }

    /** `getDueCards`: the ids of `cardIds` that are due at `now`, in their
        order and multiplicity. */
    function GetDueCards(cardIds: seq<string>, now: int): (r: seq<string>)
      reads this
      ensures IsSubsequence(r, cardIds)
      ensures forall id :: id in r <==> id in cardIds && Due(reviews, id, now)
      ensures forall id :: multiset(r)[id] == if Due(reviews, id, now) then multiset(cardIds)[id] else 0
      ensures forall id :: id in cardIds && id !in reviews ==> id in r
    {
      var rs := reviews;
      FilterIsSubsequence(cardIds, id => Due(rs, id, now));
      FilterCounts(cardIds, id => Due(rs, id, now));
      Filter(cardIds, id => Due(rs, id, now))
    }

    /** `getMasteredCards`: the ids of `cardIds` whose record shows mastery,
        in their order and multiplicity. */
    function GetMasteredCards(cardIds: seq<string>): (r: seq<string>)
      reads this
      ensures IsSubsequence(r, cardIds)
      ensures forall id :: id in r <==> id in cardIds && Mastered(reviews, id)
      ensures forall id :: multiset(r)[id] == if Mastered(reviews, id) then multiset(cardIds)[id] else 0
      ensures forall id :: id in r ==> id in reviews
    {
      var rs := reviews;
      FilterIsSubsequence(cardIds, id => Mastered(rs, id));
      FilterCounts(cardIds, id => Mastered(rs, id));
      Filter(cardIds, id => Mastered(rs, id))
    }
  }

  /** A failed card is due again at once; a passed card is not due until its
      new interval has elapsed. */
  lemma DueAfterReview(reviews: map<string, CardReview>, id: string, rating: int, now: int, t: int)
    requires id in reviews ==> WellFormed(reviews[id])
    ensures var reviews' := reviews[id := Reviewed(reviews, id, rating, now)];
      && (rating < 3 ==> Due(reviews', id, now))
      && (rating >= 3 ==> !Due(reviews', id, now))
      && (rating >= 3 ==> (Due(reviews', id, t) <==> t >= Clock.AddDays(now, reviews'[id].interval)))
  {
  }

  /** The passing-review interval rule: 1 day on the first success, 6 on the
      second, then the previous interval (0 read as 1) scaled by the new ease
      and rounded to the nearest day. */
  lemma PassingInterval(review: Option<CardReview>, rating: int, now: int)
    requires rating >= 3
    ensures var r := NextReview(review, rating, now);
      && (r.repetitions == 1 ==> r.interval == 1)
      && (r.repetitions == 2 ==> r.interval == 6)
      && (r.repetitions != 1 && r.repetitions != 2 ==>
            100 * r.interval - 50 <= PriorInterval(review) * r.easeFactor < 100 * r.interval + 50)
  {
  }

  /** A card never reviewed is due and not mastered. */
  lemma UnreviewedCard(reviews: map<string, CardReview>, id: string, now: int)
    requires id !in reviews
    ensures Due(reviews, id, now) && !Mastered(reviews, id)
  {
  }

  /** Reviewing one card changes neither the due nor the mastered status of
      any other card. */
  lemma ReviewIsLocal(reviews: map<string, CardReview>, id: string, other: string, rating: int, now: int, t: int)
    requires other != id
    ensures var reviews' := reviews[id := Reviewed(reviews, id, rating, now)];
      && (Due(reviews', other, t) <==> Due(reviews, other, t))
      && (Mastered(reviews', other) <==> Mastered(reviews, other))
  {
  }

  /** The records of one card after each rating of `rs` in turn, all at
      instant `now`. */
  function ReviewAll(review: Option<CardReview>, rs: seq<int>, now: int): (r: Option<CardReview>)
    ensures rs != [] ==> r.Some?
    ensures (review.None? || WellFormed(review.value)) ==> (r.None? || WellFormed(r.value))
    decreases |rs|
  {
    if rs == [] then review else ReviewAll(Some(NextReview(review, rs[0], now)), rs[1..], now)
  }

  /** Perfect ratings on a new card: intervals 1, 6, 17 and then 49 days, so
      it takes four of them, not three, to reach mastery. */
  lemma FourPerfectReviewsToMastery(id: string, now: int)
    ensures var r3 := ReviewAll(None, [5, 5, 5], now);
      r3.Some? && r3.value.repetitions == 3 && r3.value.interval == 17 &&
      !Mastered(map[id := r3.value], id)
    ensures var r4 := ReviewAll(None, [5, 5, 5, 5], now);
      r4.Some? && r4.value.repetitions == 4 && r4.value.interval == 49 &&
      Mastered(map[id := r4.value], id)
  {
    var r1 := NextReview(None, 5, now);
    var r2 := NextReview(Some(r1), 5, now);
    var r3 := NextReview(Some(r2), 5, now);
    var r4 := NextReview(Some(r3), 5, now);
    assert r1.easeFactor == 260 && r1.interval == 1;
    assert r2.easeFactor == 270 && r2.interval == 6;
    assert r3.easeFactor == 280 && r3.interval == 17;
    assert r4.easeFactor == 290 && r4.interval == 49;
    assert ReviewAll(None, [5, 5, 5], now) == Some(r3) by {
      assert [5, 5, 5][1..] == [5, 5] && [5, 5][1..] == [5] && [5][1..] == [];
    }
    assert ReviewAll(None, [5, 5, 5, 5], now) == Some(r4) by {
      assert [5, 5, 5, 5][1..] == [5, 5, 5] && [5, 5, 5][1..] == [5, 5] && [5, 5][1..] == [5] && [5][1..] == [];
    }
  }

  /** After a failing rating the repetitions count only the passing
      ratings that followed it, so the card is out of mastery until three
      more successes have been recorded. */
  lemma {:induction false} FailureLosesMastery(review: Option<CardReview>, rs: seq<int>, i: nat, id: string, now: int)
    requires i < |rs| && rs[i] < 3
    requires forall j :: i < j < |rs| ==> rs[j] >= 3
    ensures var r := ReviewAll(review, rs, now);
      && r.Some? && r.value.repetitions == |rs| - 1 - i
      && (|rs| - 1 - i < 3 ==> !Mastered(map[id := r.value], id))
    decreases |rs|
  {
    var next := Some(NextReview(review, rs[0], now));
    if i == 0 {
      PassingRunCounts(next, rs[1..], now);
    } else {
      FailureLosesMastery(next, rs[1..], i - 1, id, now);
    }
  }

  /** A run of ratings of 3 or more adds one repetition per rating, to the
      stored count or, for a card never reviewed, to 0. */
  lemma {:induction false} PassingRunCounts(review: Option<CardReview>, rs: seq<int>, now: int)
    requires forall i :: 0 <= i < |rs| ==> rs[i] >= 3
    requires rs != [] || review.Some?
    ensures var r := ReviewAll(review, rs, now);
      r.Some? && r.value.repetitions == PriorRepetitions(review) + |rs|
    decreases |rs|
  {
    if rs != [] {
      PassingRunCounts(Some(NextReview(review, rs[0], now)), rs[1..], now);
    }
  }
}
