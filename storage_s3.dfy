/** The object-storage artifact store: documents kept as objects in a bucket, under a key prefix. */
module S3Storage {
  import opened Json
  import opened Results
  import opened Writes

  datatype S3Error = NoSuchKey(id: ObjectId)

  /** The object-storage service as the client sees it. */
  class S3Client {
    var objects: map<ObjectId, Json>
    /** Objects whose metadata probe answers with a client error other than not-found (denied, throttled, ...). */
    const headFaults: set<ObjectId>
    /** Where each put is recorded. */
    ghost const journal: Journal

    constructor (objects: map<ObjectId, Json>, headFaults: set<ObjectId>, ghost journal: Journal)
      ensures this.objects == objects && this.headFaults == headFaults && this.journal == journal
    {
      this.objects := objects;
      this.headFaults := headFaults;
      this.journal := journal;
    }
  }

  /** The metadata probe of `id` returns normally: the object is there and its probe does not fault. */
  predicate HeadSucceeds(objects: map<ObjectId, Json>, headFaults: set<ObjectId>, id: ObjectId) {
    id in objects && id !in headFaults
  }

  /** `prefix.rstrip("/")`: removes every trailing slash and nothing else. */
  function RStripSlash(s: string): (r: string)
    ensures |r| <= |s| && r == s[..|r|]
    ensures r == "" || r[|r| - 1] != '/'
    ensures forall i :: |r| <= i < |s| ==> s[i] == '/'
    decreases |s|
  {
    if s != "" && s[|s| - 1] == '/' then RStripSlash(s[..|s| - 1]) else s
  }

  /** A prefix made only of slashes normalises to the empty prefix. */
  lemma SlashesStripToEmpty(s: string)
    requires forall i :: 0 <= i < |s| ==> s[i] == '/'
    ensures RStripSlash(s) == ""
  {
  }

  /** Normalising twice is normalising once. */
  lemma RStripSlashIdempotent(s: string)
    ensures RStripSlash(RStripSlash(s)) == RStripSlash(s)
  {
  }

  /** `_full_key`: the object name of `key` under `prefix`; an empty prefix leaves the key as it is. */
  function FullKey(prefix: string, key: string): (r: string)
    ensures |r| == (if prefix == "" then 0 else |prefix| + 1) + |key|
    ensures r[|r| - |key|..] == key
    ensures prefix == "" <==> r == key
    ensures prefix != "" ==> r[..|prefix| + 1] == prefix + "/"
  {
    if prefix != "" then prefix + "/" + key else key
  }

  /** Distinct keys never share an object under the same prefix. */
  lemma FullKeyInjective(prefix: string, k1: string, k2: string)
    requires FullKey(prefix, k1) == FullKey(prefix, k2)
    ensures k1 == k2
  {
  }

  class S3ArtifactStore {
    const bucket: string
    /** The key prefix, with trailing slashes removed. */
    const prefix: string
    const client: S3Client

    constructor (bucketName: string, prefix: string, client: S3Client)
      ensures bucket == bucketName && this.prefix == RStripSlash(prefix) && this.client == client
      ensures this.prefix == "" || this.prefix[|this.prefix| - 1] != '/'
    {
      bucket := bucketName;
      this.prefix := RStripSlash(prefix);
      this.client := client;
    }

    /** Where `key` is stored. */
    function Id(key: string): ObjectId {
      ObjectId(bucket, FullKey(prefix, key))
    }

    /** A single put of `data` under the full key of `key`; other objects are left as they were. */
    method WriteJson(key: string, data: Json)
      modifies client, client.journal
      ensures client.objects == old(client.objects)[Id(key) := data]
      ensures client.journal.log == old(client.journal.log) + [PutArtifact(BucketObject(Id(key)), data)]
      ensures forall id :: id != Id(key) ==> (id in client.objects <==> id in old(client.objects))
      ensures forall id :: id != Id(key) && id in old(client.objects) ==> client.objects[id] == old(client.objects)[id]
    {
      client.objects := client.objects[Id(key) := data];
      client.journal.log := client.journal.log + [PutArtifact(BucketObject(Id(key)), data)];
    }

    /** Returns the stored document, or the service's error when there is none; reads only. */
    method ReadJson(key: string) returns (r: Result<Json, S3Error>)
      ensures Id(key) in client.objects ==> r == Ok(client.objects[Id(key)])
      ensures Id(key) !in client.objects ==> r == Err(NoSuchKey(Id(key)))
    {
      if Id(key) in client.objects {
        r := Ok(client.objects[Id(key)]);
      } else {
        r := Err(NoSuchKey(Id(key)));
      }
    }

    /** Any client error of the probe, not only not-found, answers false; reads only. */
    method Exists(key: string) returns (b: bool)
      ensures b == HeadSucceeds(client.objects, client.headFaults, Id(key))
      ensures Id(key) !in client.objects ==> !b
      ensures Id(key) in client.headFaults ==> !b
    {
      if Id(key) in client.objects && Id(key) !in client.headFaults {
        b := true;
      } else {
        b := false;
      }
    }
  }

  /** Round trip: reading a key just written returns the document written. */
  method WriteThenRead(store: S3ArtifactStore, key: string, data: Json) returns (r: Result<Json, S3Error>)
    modifies store.client, store.client.journal
    ensures r == Ok(data)
  {
    store.WriteJson(key, data);
    r := store.ReadJson(key);
  }

  /** After a write the key exists, unless its probe faults. */
  method WriteThenExists(store: S3ArtifactStore, key: string, data: Json) returns (b: bool)
    modifies store.client, store.client.journal
    ensures b <==> store.Id(key) !in store.client.headFaults
  {
    store.WriteJson(key, data);
    b := store.Exists(key);
  }
}
