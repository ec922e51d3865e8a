/** The post-save hook of backend/api/signals.py: a participant that has just
    been created gets a statistics record with zeroed counters. */
module Signals {
  import opened Errors
  import opened Models

  /** create_participant_stats, run after every save of a participant. `created`
      says whether that save inserted the participant. The record is inserted
      under the participant itself; inserting a second record for the same
      participant is refused by the database. */
  method CreateParticipantStats(db: Database, instance: Participant, created: bool) returns (r: Outcome)
    modifies db
    ensures db.participants == old(db.participants)
    ensures !created ==> r == Pass && db.stats == old(db.stats)
    ensures created && instance in old(db.stats) ==> r.Fail? && r.error.IntegrityError? && db.stats == old(db.stats)
    ensures created && instance !in old(db.stats) ==>
              r == Pass && instance in db.stats && fresh(db.stats[instance]) &&
              db.stats[instance].id == instance && db.stats[instance].Snapshot() == FreshCounters &&
              db.stats == old(db.stats)[instance := db.stats[instance]]
  {
    r := Pass;
    if created {
      if instance in db.stats {
        r := Fail(IntegrityError("duplicate key value violates unique constraint on participant statistics"));
      } else {
        var record := new ParticipantStats(instance);
        db.stats := db.stats[instance := record];
      }
    }
  }
}
