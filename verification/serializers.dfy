/** The input handling of backend/api/serializers.py: adding a participant by
    username, and checking, creating and updating matches. */
module Serializers {
  import opened Errors
  import opened Elo
  import opened Models
  import Signals

  const UnknownUsernameMessage: string := "User with this username does not exist."
  const SameParticipantsMessage: string := "Both participants must be different."
  const BadWinnerMessage: string := "winner should be one of 1, 2, draw, not_played"
  const DuplicateMemberMessage: string := "this user already takes part in this competition"

  /** The fields a client may send for a match; absent fields are None. The
      competition is read-only: a value sent for it is never used. */
  datatype MatchData = MatchData(
    competition: Option<nat>,
    participant1: Option<Participant>,
    participant2: Option<Participant>,
    winner: Option<string>)

  /** The participants named in the data. */
  function ParticipantsIn(data: MatchData): (ps: set<Participant>)
  {
    (if data.participant1.Some? then {data.participant1.value} else {}) +
    (if data.participant2.Some? then {data.participant2.value} else {})
  }

  /** MatchSerializer.validate: data naming the same participant twice is
      rejected; anything else, including data that leaves out either
      participant, is returned as it came. */
  function Validate(data: MatchData): (r: Result<MatchData>)
    ensures r.Failure? <==> data.participant1.Some? && data.participant1 == data.participant2
    ensures r.Success? ==> r.value == data
    ensures r.Failure? ==> r.error == ValidationError(SameParticipantsMessage)
  {
    if data.participant1.Some? && data.participant2.Some? && data.participant1.value == data.participant2.value then
      Failure(ValidationError(SameParticipantsMessage))
    else
      Success(data)
  }

  /** The winner check at the start of MatchSerializer.update: a winner, when
      sent, must be one of the four winner choices. */
  function CheckWinner(data: MatchData): (r: Outcome)
    ensures r.Pass? <==> forall w :: data.winner == Some(w) ==> w in WinnerChoices
    ensures r.Fail? ==> r.error == ValidationError(BadWinnerMessage)
  {
    if data.winner.Some? && data.winner.value !in WinnerChoices then Fail(ValidationError(BadWinnerMessage))
    else Pass
  }

  /** ParticipantSerializer.create followed by the insert it asks for: an
      unknown username is rejected under the key "username"; a user who is
      already a member is refused by the database; otherwise a participant
      with the default rating is stored, and its save hook adds its zeroed
      statistics record. */
  method CreateParticipant(db: Database, users: map<string, nat>, username: string, competition: nat)
    returns (r: Result<Participant>)
    requires db.Valid()
    modifies db
    ensures db.Valid()
    ensures username !in users ==>
              r == Failure(FieldError("username", UnknownUsernameMessage)) &&
              db.participants == old(db.participants) && db.stats == old(db.stats)
    ensures username in users && old(db.HasMember(users[username], competition)) ==>
              r.Failure? && r.error.IntegrityError? &&
              db.participants == old(db.participants) && db.stats == old(db.stats)
    ensures r.Success? <==> username in users && !old(db.HasMember(users[username], competition))
    ensures r.Success? ==>
              var p := r.value;
              fresh(p) && p.user == users[username] && p.competition == competition &&
              p.eloRating == DefaultRating &&
              db.participants == old(db.participants) + [p] &&
              p in db.stats && fresh(db.stats[p]) && db.stats[p].Snapshot() == FreshCounters &&
              db.stats == old(db.stats)[p := db.stats[p]]
  {
    if username !in users {
      return Failure(FieldError("username", UnknownUsernameMessage));
    }
    var user := users[username];
    if db.HasMember(user, competition) {
      return Failure(IntegrityError(DuplicateMemberMessage));
    }
    var p := new Participant(user, competition);
    db.participants := db.participants + [p];
    var hook := Signals.CreateParticipantStats(db, p, true);
    r := Success(p);
  }

  /** MatchSerializer.create: the match is stored in the competition the request
      addresses, whatever the data says, with the winner "not_played" unless one
      is sent; storing it saves it, so a sent winner already moves the ratings. */
  method CreateMatch(data: MatchData, competition: nat, pow: real -> real) returns (m: Match)
    requires PowerOfTenLaws(pow)
    requires data.participant1.Some? && data.participant2.Some?
    modifies data.participant1.value, data.participant2.value
    ensures fresh(m)
    ensures m.competition == competition
    ensures m.participant1 == data.participant1.value && m.participant2 == data.participant2.value
    ensures m.winner == (if data.winner.Some? then data.winner.value else NotPlayed)
    ensures RatingsAfterSave(pow, m.participant1, m.participant2,
                             RatingPair(old(data.participant1.value.eloRating), old(data.participant2.value.eloRating)), m.winner)
  {
    var winner := if data.winner.Some? then data.winner.value else NotPlayed;
    m := new Match(competition, data.participant1.value, data.participant2.value, winner);
    m.Save(pow);
  }

  /** MatchSerializer.update: a winner outside the four choices is rejected
      before anything changes; otherwise every sent field except the competition
      is written to the match and the match is saved, which runs the Elo update
      again whenever its winner (sent or stored) is not "not_played". A
      participant the update takes off the match keeps its rating. */
  method UpdateMatch(instance: Match, data: MatchData, pow: real -> real) returns (r: Result<Match>)
    requires PowerOfTenLaws(pow)
    modifies instance, instance.participant1, instance.participant2, ParticipantsIn(data)
    ensures r.Failure? <==> CheckWinner(data).Fail?
    ensures r.Failure? ==>
              r.error == ValidationError(BadWinnerMessage) &&
              unchanged(instance, old(instance.participant1), old(instance.participant2)) && unchanged(ParticipantsIn(data))
    ensures r.Success? ==> r.value == instance
    ensures r.Success? ==>
              instance.competition == old(instance.competition) &&
              instance.participant1 == (if data.participant1.Some? then data.participant1.value else old(instance.participant1)) &&
              instance.participant2 == (if data.participant2.Some? then data.participant2.value else old(instance.participant2)) &&
              instance.winner == (if data.winner.Some? then data.winner.value else old(instance.winner))
    ensures r.Success? ==>
              var p1, p2 := instance.participant1, instance.participant2;
              RatingsAfterSave(pow, p1, p2, RatingPair(old(p1.eloRating), old(p2.eloRating)), instance.winner)
    ensures r.Success? ==>
              forall q :: q in {old(instance.participant1), old(instance.participant2)} &&
                          q != instance.participant1 && q != instance.participant2 ==>
                q.eloRating == old(q.eloRating)
  {
    var check := CheckWinner(data);
    if check.Fail? {
      return Failure(check.error);
    }
    if data.participant1.Some? {
      instance.participant1 := data.participant1.value;
    }
    if data.participant2.Some? {
      instance.participant2 := data.participant2.value;
    }
    if data.winner.Some? {
      instance.winner := data.winner.value;
    }
    instance.Save(pow);
    r := Success(instance);
  }
}
