/** The in-memory checkpoint and retry repositories. */
module Repositories {
  import opened Prelude
  import opened Runner

  class InMemoryCheckpointRepository {
    var checkpoints: map<string, Checkpoint>

    constructor ()
      ensures checkpoints == map[]
    {
      checkpoints := map[];
    }

    /** The last checkpoint saved for a job wins. */
    method SaveCheckpoint(checkpoint: Checkpoint)
      modifies this
      ensures checkpoints == old(checkpoints)[checkpoint.job := checkpoint]
    {
      checkpoints := checkpoints[checkpoint.job := checkpoint];
    }

    method LoadCheckpoint(job: string) returns (checkpoint: Option<Checkpoint>)
      ensures checkpoint == Lookup(checkpoints, job)
    {
      return Lookup(checkpoints, job);
    }

    /** Forgets a job's checkpoint, if there is one. */
    method DeleteCheckpoint(job: string)
      modifies this
      ensures checkpoints == old(checkpoints) - {job}
    {
      checkpoints := checkpoints - {job};
    }

    method CheckpointExists(job: string) returns (found: bool)
      ensures found <==> Lookup(checkpoints, job).Some?
    {
      return job in checkpoints;
    }
  }

  class InMemoryRetryRepository {
    var records: map<string, seq<RetryRecord>>

    constructor ()
      ensures records == map[]
    {
      records := map[];
    }

    /** Appends to the list of the record's job and touches no other. */
    method Save(record: RetryRecord)
      modifies this
      ensures RecordsOf(records, record.job) == RecordsOf(old(records), record.job) + [record]
      ensures records == old(records)[record.job := RecordsOf(old(records), record.job) + [record]]
    {
      records := records[record.job := RecordsOf(records, record.job) + [record]];
    }

    method ListForJob(job: string) returns (listed: seq<RetryRecord>)
      ensures listed == RecordsOf(records, job)
    {
      return RecordsOf(records, job);
    }
  }
}
