/** The records of backend/api/models.py: participants with their ratings,
    matches whose save applies the Elo update, and per-participant statistics.

    Each stored row is one object here, so two references are equal exactly when
    the rows have the same primary key. Saving an object to the database has no
    effect beyond the object itself and is left implicit. */
module Models {
  import opened Elo

  /** The values of Match.winner (the WinnerChoices of the winner field). */
  const WinnerChoices: set<string> := {"1", "2", "draw", "not_played"}

  /** The results ParticipantStats.update_stats recognises. */
  const StatResults: set<string> := {"win", "loss", "draw"}

  /** A user's membership of a competition, with its current rating. */
  class Participant {
    const user: nat
    const competition: nat
    var eloRating: real

    constructor (user: nat, competition: nat)
      ensures this.user == user && this.competition == competition
      ensures eloRating == DefaultRating
    {
      this.user := user;
      this.competition := competition;
      eloRating := DefaultRating;
    }
  }

  /** The two participants hold `pair` after it is written to them, participant 1
      first. When both sides are the same participant the second assignment is
      the one that sticks. */
  ghost predicate RatingsWritten(p1: Participant, p2: Participant, pair: RatingPair)
    reads p1, p2
  {
    if p1 == p2 then p1.eloRating == pair.rating2
    else p1.eloRating == pair.rating1 && p2.eloRating == pair.rating2
  }

  /** The two participants hold the ratings that saving a match with `winner`
      produces from `before`. */
  ghost predicate RatingsAfterSave(pow: real -> real, p1: Participant, p2: Participant,
                                   before: RatingPair, winner: string)
    requires PowerOfTenLaws(pow)
    reads p1, p2
  {
    RatingsWritten(p1, p2, AfterSave(pow, before, winner))
  }

  /** A pairing of two participants in a competition and its result. */
  class Match {
    var competition: nat
    var participant1: Participant
    var participant2: Participant
    var winner: string

    constructor (competition: nat, participant1: Participant, participant2: Participant, winner: string)
      ensures this.competition == competition && this.winner == winner
      ensures this.participant1 == participant1 && this.participant2 == participant2
    {
      this.competition := competition;
      this.participant1 := participant1;
      this.participant2 := participant2;
      this.winner := winner;
    }

    /** Match.save: a match whose winner is not "not_played" runs the Elo update
        on every save, from the participants' current ratings. */
    method Save(pow: real -> real)
      requires PowerOfTenLaws(pow)
      modifies participant1, participant2
      ensures RatingsAfterSave(pow, participant1, participant2,
                               RatingPair(old(participant1.eloRating), old(participant2.eloRating)), winner)
    {
      if winner != NotPlayed {
        UpdateEloRatings(pow);
      }
    }

    /** Match.update_elo_ratings: both expected scores and both new ratings come
        from the ratings read before either is written. */
    method UpdateEloRatings(pow: real -> real)
      requires PowerOfTenLaws(pow)
      modifies participant1, participant2
      ensures RatingsWritten(participant1, participant2,
                             NewRatings(pow, RatingPair(old(participant1.eloRating), old(participant2.eloRating)), winner))
    {
      var rating1 := participant1.eloRating;
      var rating2 := participant2.eloRating;
      var expected1 := Expected(pow, rating1, rating2);
      var expected2 := Expected(pow, rating2, rating1);
      var actual := ActualScores(winner);
      var newRating1 := rating1 + K * (actual.actual1 - expected1);
      var newRating2 := rating2 + K * (actual.actual2 - expected2);
      participant1.eloRating := newRating1;
      participant2.eloRating := newRating2;
    }
  }

  // ---------------------------------------------------------------------------
  // Statistics

  /** The counters of a ParticipantStats record. */
  datatype Counters = Counters(matchesPlayed: int, wins: int, losses: int, draws: int, peakElo: int)

  /** The counters of a new record: all zero, and a peak equal to the default rating. */
  const FreshCounters: Counters := Counters(0, 0, 0, 0, 1200)

  /** Every played match is counted as exactly one win, loss or draw. */
  predicate Balanced(c: Counters)
  {
    c.matchesPlayed == c.wins + c.losses + c.draws
  }

  /** The counters after update_stats(result). */
  function Tally(c: Counters, result: string): (r: Counters)
    ensures r.matchesPlayed == c.matchesPlayed + 1
    ensures r.peakElo == c.peakElo
    ensures r.wins + r.losses + r.draws == c.wins + c.losses + c.draws + (if result in StatResults then 1 else 0)
  {
    var counted :=
      if result == "win" then c.(wins := c.wins + 1)
      else if result == "loss" then c.(losses := c.losses + 1)
      else if result == "draw" then c.(draws := c.draws + 1)
      else c;
    counted.(matchesPlayed := c.matchesPlayed + 1)
  }

  /** A recognised result adds one to its own counter and to matches played, and nothing else. */
  lemma TallyRecognised(c: Counters, result: string)
    requires result in StatResults
    ensures Tally(c, result).wins == c.wins + (if result == "win" then 1 else 0)
    ensures Tally(c, result).losses == c.losses + (if result == "loss" then 1 else 0)
    ensures Tally(c, result).draws == c.draws + (if result == "draw" then 1 else 0)
    ensures Tally(c, result).matchesPlayed == c.matchesPlayed + 1
    ensures Tally(c, result).peakElo == c.peakElo
  {
  }

  /** Any other result only adds one to matches played. */
  lemma TallyUnrecognised(c: Counters, result: string)
    requires result !in StatResults
    ensures Tally(c, result) == c.(matchesPlayed := c.matchesPlayed + 1)
  {
  }

  /** From balanced counters, update_stats keeps them balanced exactly when the
      result is one of "win", "loss", "draw". */
  lemma TallyBalance(c: Counters, result: string)
    requires Balanced(c)
    ensures Balanced(Tally(c, result)) <==> result in StatResults
  {
  }

  /** A fresh record is balanced, and its peak equals the default rating. */
  lemma FreshCountersBalanced()
    ensures Balanced(FreshCounters)
    ensures FreshCounters.peakElo as real == DefaultRating
  {
  }

  /** The statistics record of one participant; `id` is the participant it belongs to. */
  class ParticipantStats {
    const id: Participant
    var matchesPlayed: int
    var wins: int
    var losses: int
    var draws: int
    var peakElo: int

    function Snapshot(): (c: Counters)
      reads this
    {
      Counters(matchesPlayed, wins, losses, draws, peakElo)
    }

    constructor (id: Participant)
      ensures this.id == id
      ensures Snapshot() == FreshCounters
    {
      this.id := id;
      matchesPlayed, wins, losses, draws, peakElo := 0, 0, 0, 0, 1200;
    }

    /** ParticipantStats.update_stats. */
    method UpdateStats(result: string)
      modifies this
      ensures Snapshot() == Tally(old(Snapshot()), result)
    {
      if result == "win" {
        wins := wins + 1;
      } else if result == "loss" {
        losses := losses + 1;
      } else if result == "draw" {
        draws := draws + 1;
      }
      matchesPlayed := matchesPlayed + 1;
    }
  }

  // ---------------------------------------------------------------------------
  // Stored rows

  /** The participant and statistics tables. */
  class Database {
    var participants: seq<Participant>
    var stats: map<Participant, ParticipantStats>

    /** Each statistics record is stored under its own participant. */
    predicate StatsKeyed()
      reads this
    {
      forall p :: p in stats ==> stats[p].id == p
    }

    /** No user joins the same competition twice (unique_together). */
    predicate UniqueMembership()
      reads this
    {
      forall i, j :: 0 <= i < j < |participants| ==>
        participants[i].user != participants[j].user || participants[i].competition != participants[j].competition
    }

    /** Every participant has a statistics record. */
    predicate StatsCover()
      reads this
    {
      forall i :: 0 <= i < |participants| ==> participants[i] in stats
    }

    predicate Valid()
      reads this
    {
      StatsKeyed() && UniqueMembership() && StatsCover()
    }

    /** Whether `user` already takes part in `competition`. */
    predicate HasMember(user: nat, competition: nat)
      reads this
    {
      exists i :: 0 <= i < |participants| && participants[i].user == user && participants[i].competition == competition
    }

    constructor ()
      ensures Valid()
      ensures participants == [] && stats == map[]
    {
      participants := [];
      stats := map[];
    }
  }
}
