/**
 * The durable writes the gateway's runtime and the artifact stores perform, and the journal
 * that records them in the order they are made.
 */
module Writes {
  import opened Json

  datatype Status = Running | Completed | Failed

  /** The status document `{run_id, status, updated_at}`. */
  datatype StatusRecord = StatusRecord(runId: string, status: Status, updatedAt: string)

  /** An object's address in the object-storage service. */
  datatype ObjectId = ObjectId(bucket: string, key: string)

  /** Where a document lands: a file under the local root, or an object in a bucket. */
  datatype Target = LocalFile(path: string) | BucketObject(id: ObjectId)

  /** One durable write: a status document, or an artifact at its location. */
  datatype Effect = SetStatus(record: StatusRecord) | PutArtifact(target: Target, doc: Json)

  /**
   * Every durable write, oldest first. The ledger and the stores share one journal and each of
   * their writes appends itself to it, so the journal shows which writes happened and in what order.
   */
  class Journal {
    ghost var log: seq<Effect>

    constructor ()
      ensures log == []
    {
      log := [];
    }
  }
}
