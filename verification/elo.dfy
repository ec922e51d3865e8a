/** The arithmetic of the Elo update that a saved match applies to its two
    participants (backend/api/models.py, Match.update_elo_ratings).

    Ratings are real numbers. The source raises ten to a fractional power; that
    function is a parameter `pow` here, constrained by the laws of x |-> 10^x
    that the properties below need (PowerOfTenLaws). Everything else is the
    source's own arithmetic. */
module Elo {

  /** The Elo K-factor. */
  const K: real := 32.0

  /** The rating a participant starts with (the field default). */
  const DefaultRating: real := 1200.0

  /** The winner value of a match that has not been played. */
  const NotPlayed: string := "not_played"

  /** The laws of x |-> 10^x used here: it is positive, 10^x * 10^-x == 1, and
      it exceeds 1 for positive exponents. */
  ghost predicate PowerOfTenLaws(pow: real -> real)
  {
    forall x :: pow(x) > 0.0 && pow(x) * pow(-x) == 1.0 && (x > 0.0 ==> pow(x) > 1.0)
  }

  datatype RatingPair = RatingPair(rating1: real, rating2: real)

  datatype Scores = Scores(actual1: real, actual2: real)

  /** The expected score of a player rated `rating` against one rated `opponent`:
      1 / (1 + 10 ** ((opponent - rating) / 400)). */
  function Expected(pow: real -> real, rating: real, opponent: real): (e: real)
    requires PowerOfTenLaws(pow)
    ensures 0.0 < e < 1.0
  {
    var p := pow((opponent - rating) / 400.0);
    1.0 / (1.0 + p)
  }

  /** The actual scores of participant 1 and participant 2 for a winner value:
      "1" scores (1, 0), "2" scores (0, 1), and every other value counts as a draw. */
  function ActualScores(winner: string): (s: Scores)
    ensures s.actual1 + s.actual2 == 1.0
    ensures 0.0 <= s.actual1 <= 1.0 && 0.0 <= s.actual2 <= 1.0
    ensures s.actual1 > s.actual2 <==> winner == "1"
    ensures s.actual1 < s.actual2 <==> winner == "2"
  {
    if winner == "1" then Scores(1.0, 0.0)
    else if winner == "2" then Scores(0.0, 1.0)
    else Scores(0.5, 0.5)
  }

  /** The ratings after one Elo update. Both expected scores are taken from the
      same pre-update pair. */
  function NewRatings(pow: real -> real, before: RatingPair, winner: string): (after: RatingPair)
    requires PowerOfTenLaws(pow)
    ensures winner == "1" ==> after.rating1 > before.rating1 && after.rating2 < before.rating2
    ensures winner == "2" ==> after.rating1 < before.rating1 && after.rating2 > before.rating2
  {
    var expected1 := Expected(pow, before.rating1, before.rating2);
    var expected2 := Expected(pow, before.rating2, before.rating1);
    var actual := ActualScores(winner);
    RatingPair(before.rating1 + K * (actual.actual1 - expected1),
               before.rating2 + K * (actual.actual2 - expected2))
  }

  /** The ratings after Match.save: a played match applies one fresh update,
      a match that is not played leaves the ratings alone. */
  function AfterSave(pow: real -> real, before: RatingPair, winner: string): (after: RatingPair)
    requires PowerOfTenLaws(pow)
  {
    if winner != NotPlayed then NewRatings(pow, before, winner) else before
  }

  /** The winner value seen from the other side of the board. */
  function Mirror(winner: string): (mirrored: string)
  {
    if winner == "1" then "2" else if winner == "2" then "1" else winner
  }

  // ---------------------------------------------------------------------------
  // Properties of the expected score

  /** 10 ** 0 == 1, which makes the expected score of equal ratings exactly 1/2. */
  lemma PowerAtZero(pow: real -> real)
    requires PowerOfTenLaws(pow)
    ensures pow(0.0) == 1.0
  {
    var p := pow(0.0);
    assert p > 0.0 && p * pow(-0.0) == 1.0;
    assert p * p == 1.0;
    // a positive square root of 1 other than 1 would square to something other than 1
    if p < 1.0 {
      assert false;
    } else if p > 1.0 {
      assert false;
    }
  }

  /** Two equal ratings expect half a point each. */
  lemma ExpectedOfEqualRatings(pow: real -> real, rating: real)
    requires PowerOfTenLaws(pow)
    ensures Expected(pow, rating, rating) == 0.5
  {
  }

  /** The two expected scores of a pairing sum to one. */
  lemma ExpectedComplement(pow: real -> real, a: real, b: real)
    requires PowerOfTenLaws(pow)
    ensures Expected(pow, a, b) + Expected(pow, b, a) == 1.0
  {
  }

  /** The lower-rated side of a pairing expects less than half a point. */
  lemma ExpectedBelowHalf(pow: real -> real, a: real, b: real)
    requires PowerOfTenLaws(pow)
    requires a < b
    ensures Expected(pow, a, b) < 0.5
  {
  }

  // ---------------------------------------------------------------------------
  // Properties of one update

  /** An update moves rating from one participant to the other: the sum is unchanged. */
  lemma RatingSumPreserved(pow: real -> real, before: RatingPair, winner: string)
    requires PowerOfTenLaws(pow)
    ensures var after := NewRatings(pow, before, winner);
            after.rating1 + after.rating2 == before.rating1 + before.rating2
  {
  }

  /** A draw between equal ratings changes nothing. */
  lemma EqualRatingsDrawUnchanged(pow: real -> real, rating: real, winner: string)
    requires PowerOfTenLaws(pow)
    requires winner != "1" && winner != "2"
    ensures NewRatings(pow, RatingPair(rating, rating), winner) == RatingPair(rating, rating)
  {
  }

  /** A win between equal ratings moves exactly K/2 = 16 points from the loser to the winner. */
  lemma EqualRatingsWinMovesSixteen(pow: real -> real, rating: real)
    requires PowerOfTenLaws(pow)
    ensures NewRatings(pow, RatingPair(rating, rating), "1") == RatingPair(rating + 16.0, rating - 16.0)
    ensures NewRatings(pow, RatingPair(rating, rating), "2") == RatingPair(rating - 16.0, rating + 16.0)
  {
  }

  /** A draw between different ratings moves the lower rating up and the higher one down. */
  lemma DrawPullsTogether(pow: real -> real, before: RatingPair, winner: string)
    requires PowerOfTenLaws(pow)
    requires winner != "1" && winner != "2"
    requires before.rating1 < before.rating2
    ensures var after := NewRatings(pow, before, winner);
            after.rating1 > before.rating1 && after.rating2 < before.rating2
  {
  }

  /** Swapping the two participants and mirroring the winner swaps the new ratings:
      the update does not depend on which side is called participant 1. */
  lemma RelabelSymmetric(pow: real -> real, before: RatingPair, winner: string)
    requires PowerOfTenLaws(pow)
    ensures var after := NewRatings(pow, before, winner);
            NewRatings(pow, RatingPair(before.rating2, before.rating1), Mirror(winner))
              == RatingPair(after.rating2, after.rating1)
  {
  }

  // ---------------------------------------------------------------------------
  // Properties of saving

  /** Saving a match that is not played leaves both ratings as they were. */
  lemma SaveNotPlayedKeepsRatings(pow: real -> real, before: RatingPair)
    requires PowerOfTenLaws(pow)
    ensures AfterSave(pow, before, NotPlayed) == before
  {
  }

  /** Saving a decided match again applies the update again: save is not idempotent. */
  lemma ResaveAppliesAgain(pow: real -> real, before: RatingPair, winner: string)
    requires PowerOfTenLaws(pow)
    requires winner == "1" || winner == "2"
    ensures var once := AfterSave(pow, before, winner);
            AfterSave(pow, once, winner) != once
  {
  }

  // ---------------------------------------------------------------------------

  /** A rational function that obeys PowerOfTenLaws, so the laws are consistent. */
  function PowerStandIn(x: real): (y: real)
  {
    if x >= 0.0 then 1.0 + x else 1.0 / (1.0 - x)
  }

  lemma PowerOfTenLawsConsistent()
    ensures PowerOfTenLaws(PowerStandIn)
  {
  }

}
