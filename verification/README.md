# Leaderboard rating engine: a Dafny model

This project models the rating and statistics logic of a small competition
leaderboard service. In the service, users join competitions as participants. Each participant
starts with an Elo rating of 1200. Matches pair two participants, and saving a match with a
recorded winner moves both ratings by the Elo rule with K = 32. The model covers:

- `Elo` (`elo.dfy`): the arithmetic of one update. It covers the expected scores, the mapping from the
  winner value to actual scores, and the new rating pair. It also defines the rating pair that
  `Match.save` leaves behind. Ratings are real numbers. The source computes `10 ** x`, which
  is a parameter `pow` here, constrained by `PowerOfTenLaws`: `pow` is positive,
  `pow(x) * pow(-x) == 1`, and `pow(x) > 1` for `x > 0`. The facts the source relies on
  (equal ratings expect exactly 1/2, and the two expected scores sum to 1) are proved from
  these laws, not assumed. `PowerOfTenLawsConsistent` shows that a function obeys them.
- `Models` (`models.dfy`): the stored records. `Participant`, `Match` and `ParticipantStats` are
  classes whose methods update their fields in place. `Match.Save` and `Match.UpdateEloRatings`
  write the participants' ratings. `ParticipantStats.UpdateStats` increments its counters.
  `Database` holds the participant and statistics tables. It has an invariant: each statistics
  record is keyed by its own participant, no user joins a competition twice, and every
  participant has a record.
- `Signals` (`signals.dfy`): the post-save hook that gives a newly created participant a
  zeroed statistics record.
- `Serializers` (`serializers.dfy`): creating a participant from a username, the
  distinct-participants check, creating a match, and updating a match after the winner check.
- `Errors` (`errors.dfy`): the rejections, either keyed by a field or not, and database integrity errors.

The model follows the code as written, which is not a reversible ledger. The code stores no rating deltas and reverses nothing when a winner changes or a
match is deleted. It computes no rounded delta. Its statistics are not updated by matches. Every save of a match with a
winner other than `"not_played"` applies a fresh update from the current ratings, so saving
twice moves the ratings twice (`Elo.ResaveAppliesAgain`). This includes an update that sends no winner.

A stored row is one object, so two references are equal exactly when their primary keys are.
`MatchSerializer.validate` compares only the participants that the data supplies. A partial update can
therefore set `participant1` to the match's current `participant2`. When a match's two sides are then the same participant,
its save writes `new_rating1` and then `new_rating2` to that one row, and the second write
stays. `Models.RatingsAfterSave` states both the separate and the shared case.

## Model

| member | source | states |
|---|---|---|
| `Elo.Expected` | backend/api/models.py:49-50 | an expected score lies strictly between 0 and 1 |
| `Elo.PowerAtZero` | backend/api/models.py:49-50 | the exponent 0 that equal ratings produce gives 10 ** 0 == 1 exactly, from the laws of the power alone |
| `Elo.ExpectedOfEqualRatings` | backend/api/models.py:49-50 | equal ratings expect exactly 1/2 each |
| `Elo.ExpectedComplement` | backend/api/models.py:49-50 | expected1 and expected2, computed from the same pair, sum to 1 |
| `Elo.ExpectedBelowHalf` | backend/api/models.py:49 | the lower-rated side expects less than 1/2 |
| `Elo.ActualScores` | backend/api/models.py:53-61 | the two actual scores lie in [0, 1] and sum to 1; participant 1 scores more exactly when the winner is "1", participant 2 exactly when it is "2"; any other value scores both equally |
| `Elo.NewRatings` | backend/api/models.py:43-65 | winner "1" strictly raises rating 1 and strictly lowers rating 2; winner "2" does the reverse |
| `Elo.RatingSumPreserved` | backend/api/models.py:46-65 | an update leaves the sum of the two ratings unchanged |
| `Elo.EqualRatingsDrawUnchanged` | backend/api/models.py:44-65 | from equal ratings, any winner other than "1" or "2" leaves both ratings exactly unchanged |
| `Elo.EqualRatingsWinMovesSixteen` | backend/api/models.py:44-65 | from equal ratings, a win moves exactly 16 points from the loser to the winner |
| `Elo.DrawPullsTogether` | backend/api/models.py:49-65 | a draw between different ratings raises the lower one and lowers the higher one |
| `Elo.RelabelSymmetric` | backend/api/models.py:46-65 | swapping the participants and mirroring the winner swaps the new ratings: the update does not depend on which side is participant 1 |
| `Elo.SaveNotPlayedKeepsRatings` | backend/api/models.py:38-41 | saving a match whose winner is "not_played" leaves both ratings unchanged |
| `Elo.ResaveAppliesAgain` | backend/api/models.py:38-41 | saving a decided match a second time changes the ratings again: save is not idempotent |
| `Models.Participant.constructor` | backend/api/models.py:16-19 | a new participant has the default rating 1200 |
| `Models.Match.constructor` | backend/api/models.py:26-35 | a new match holds the competition, participants and winner it is given |
| `Models.Match.UpdateEloRatings` | backend/api/models.py:43-71 | both new ratings are computed from the ratings read before either is written; with one participant on both sides, the second write stays |
| `Models.Match.Save` | backend/api/models.py:38-41 | a played winner applies one Elo update to the current ratings; "not_played" changes nothing |
| `Models.Tally` | backend/api/models.py:85-92 | update_stats adds one to matches played, keeps the peak rating, and adds one to wins + losses + draws exactly when the result is recognised |
| `Models.TallyRecognised` | backend/api/models.py:85-92 | "win", "loss" or "draw" adds one to exactly that counter and to matches played, and changes nothing else |
| `Models.TallyUnrecognised` | backend/api/models.py:85-92 | any other result adds one to matches played only |
| `Models.TallyBalance` | backend/api/models.py:85-92 | from matches_played == wins + losses + draws, the equality survives update_stats exactly when the result is recognised |
| `Models.FreshCountersBalanced` | backend/api/models.py:79-83 | fresh counters satisfy matches_played == wins + losses + draws, and the peak equals the default rating |
| `Models.ParticipantStats.constructor` | backend/api/models.py:77-83 | a new statistics record belongs to the given participant and has zero counters and peak 1200 |
| `Models.ParticipantStats.UpdateStats` | backend/api/models.py:85-93 | the record's counters become the tally of their old values with the result |
| `Signals.CreateParticipantStats` | backend/api/signals.py:5-8 | a record is added only when the participant was just created; it is fresh, keyed by that participant and zeroed; a save that did not create the participant adds nothing; a duplicate record is refused |
| `Serializers.Validate` | backend/api/serializers.py:45-55 | data is rejected exactly when both participants are supplied and equal; accepted data is returned unchanged |
| `Serializers.CheckWinner` | backend/api/serializers.py:63-68 | the check passes exactly when no winner is sent or the winner is one of "1", "2", "draw", "not_played" |
| `Serializers.CreateParticipant` | backend/api/serializers.py:23-37 | an unknown username is rejected under the key "username"; a repeated membership is refused; on rejection no participant or statistics record is stored; otherwise a fresh participant with the default rating is appended, with its zeroed statistics record; the table invariant is kept |
| `Serializers.CreateMatch` | backend/api/serializers.py:57-61 | the match's competition is the one in the context, never the client's; its winner defaults to "not_played"; storing it applies the save rule to the ratings |
| `Serializers.UpdateMatch` | backend/api/serializers.py:63-70 | a winner outside the four choices is rejected before anything changes; otherwise the sent fields except the competition are written and the save rule is applied again, even when no winner is sent; a participant the update takes off the match keeps its rating |

## Left out

- The exact value of `10 ** x`: it is the parameter `pow`, known only through `PowerOfTenLaws`.
  Floating-point rounding of the Python computation is not modelled.
- Writing a rating into the integer rating column: Django truncates the value toward zero there.
  The model keeps ratings as exact reals, so its rating facts hold of the in-memory values and not
  of the stored integers. With truncation, `Elo.RatingSumPreserved` fails: 2400 beating 1200 gives
  2400.03 and 1199.97, stored as 2400 and 1199, so the sum drops by 1. The "strictly raises" half
  of `Elo.NewRatings` fails too: when the winner leads by about 597 points or more, its gain is
  below 1 and its stored rating stays the same.
- The serializer lists `participant1_elo_change` and `participant2_elo_change`, but the match model
  has no such fields. The framework would refuse that field list. This is not modelled.
- Field-level validation done by the framework before the serializers run: required fields,
  the choice list of `winner` and primary-key lookups.
- Serializers.CreateMatch: requires both participants, because the framework rejects a create
  without them before `create` runs.
- Users are a map from username to user id. Authentication, permissions, timestamps
  (`played_at`, `created_at`), competitions' own fields and `print` calls are left out.
- Persistence: each stored row is one object, and `save()` has no effect beyond it. This assumes
  requests run one at a time. The source reads, changes and writes back a rating without a lock,
  so two concurrent saves of matches that share a participant can lose one update; the model does
  not capture that race. The post-save
  hook that runs when `UpdateEloRatings` saves an existing participant is the `created == false`
  case of `Signals.CreateParticipantStats`, which adds nothing. `Match.Save` does not call it.
- Request handling in backend/api/views.py, including `match.delete()`: it removes the row and
  reverses nothing. Routing, admin registration and migrations are left out too.
- `ParticipantStats.update_stats` is never called by the service, so it is modelled on its own.
