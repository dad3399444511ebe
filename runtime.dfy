/**
 * The runtime directory shared by the submission gateway and the job executor:
 * the status ledger (one status document per run id, overwritten in place) and
 * the request directory (one input record per run).
 */
module Runtime {
  import opened Json
  import opened Writes

  /** The statuses directory: run id to the latest status document written for it. */
  class StatusLedger {
    var records: map<string, StatusRecord>
    /** Where each status write is recorded. */
    ghost const journal: Journal

    constructor (records: map<string, StatusRecord>, ghost journal: Journal)
      ensures this.records == records && this.journal == journal
    {
      this.records := records;
      this.journal := journal;
    }

    /**
     * `write_status`: replaces the run's document (last write wins, no merge);
     * `updatedAt` is the clock reading the source takes at the call.
     */
    method Write(runId: string, status: Status, updatedAt: string)
      modifies this, journal
      ensures records == old(records)[runId := StatusRecord(runId, status, updatedAt)]
      ensures journal.log == old(journal.log) + [SetStatus(StatusRecord(runId, status, updatedAt))]
      ensures runId in records && records[runId].status == status
      ensures forall id :: id != runId ==> (id in records <==> id in old(records))
      ensures forall id :: id != runId && id in old(records) ==> records[id] == old(records)[id]
    {
      records := records[runId := StatusRecord(runId, status, updatedAt)];
      journal.log := journal.log + [SetStatus(StatusRecord(runId, status, updatedAt))];
    }
  }

  /** The requests directory: input-record location to the decoded input document. */
  class RequestDirectory {
    var files: map<string, Json>

    constructor (files: map<string, Json>)
      ensures this.files == files
    {
      this.files := files;
    }
  }
}
