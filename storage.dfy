/**
 * The artifact-store interface `{write_json, exists}`, which both backends implement.
 * It is a tagged union over the two store classes, with methods that dispatch to them.
 */
module Storage {
  import opened Json
  import opened LocalStorage
  import opened S3Storage
  import opened Writes

  datatype Backend = LocalBackend(local: LocalArtifactStore) | S3Backend(s3: S3ArtifactStore)
  {
    /** The objects whose state the backend reads and writes. */
    ghost function Repr(): set<object> {
      if LocalBackend? then {local, local.journal} else {s3.client, s3.client.journal}
    }

    /** The journal the backend's writes are recorded in. */
    ghost function Recorder(): Journal {
      if LocalBackend? then local.journal else s3.client.journal
    }

    function Location(key: string): Target {
      if LocalBackend? then LocalFile(key) else BucketObject(s3.Id(key))
    }

    /** What `exists(key)` answers in the current state. */
    ghost predicate Has(key: string)
      reads Repr()
    {
      match this
      case LocalBackend(l) => key in l.files
      case S3Backend(s) => HeadSucceeds(s.client.objects, s.client.headFaults, s.Id(key))
    }

    method Exists(key: string) returns (b: bool)
      ensures b == Has(key)
    {
      match this
      case LocalBackend(l) => b := l.Exists(key);
      case S3Backend(s) => b := s.Exists(key);
    }

    method WriteJson(key: string, data: Json)
      modifies Repr()
      ensures LocalBackend? ==> local.files == old(local.files)[key := data]
      ensures S3Backend? ==> s3.client.objects == old(s3.client.objects)[s3.Id(key) := data]
      ensures Recorder().log == old(Recorder().log) + [PutArtifact(Location(key), data)]
    {
      match this
      case LocalBackend(l) => l.WriteJson(key, data);
      case S3Backend(s) => s.WriteJson(key, data);
    }
  }
}
