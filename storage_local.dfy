/** The local-filesystem artifact store: documents kept under a root directory. */
module LocalStorage {
  import opened Json
  import opened Writes

  class LocalArtifactStore {
    /** The root directory; every key names a file relative to it. */
    const basePath: string
    /** The documents under `basePath`, by key. */
    var files: map<string, Json>
    /** Where each document write is recorded. */
    ghost const journal: Journal

    /** Opens the store over the directory's current contents (creating the directory changes no document). */
    constructor (basePath: string, contents: map<string, Json>, ghost journal: Journal)
      ensures this.basePath == basePath && files == contents && this.journal == journal
    {
      this.basePath := basePath;
      files := contents;
      this.journal := journal;
    }

    /** Writes `data` at `key`, replacing any earlier document there. */
    method WriteJson(key: string, data: Json)
      modifies this, journal
      ensures files == old(files)[key := data]
      ensures journal.log == old(journal.log) + [PutArtifact(LocalFile(key), data)]
      ensures key in files && files[key] == data
      ensures forall k :: k != key ==> (k in files <==> k in old(files))
      ensures forall k :: k != key && k in old(files) ==> files[k] == old(files)[k]
    {
      files := files[key := data];
      journal.log := journal.log + [PutArtifact(LocalFile(key), data)];
    }

    /** True exactly when a document is stored at `key`; reads only. */
    method Exists(key: string) returns (b: bool)
      ensures b <==> key in files
    {
      b := key in files;
    }
  }

  /** A write followed by an existence check of the same key answers true, whatever the store held. */
  method WriteThenExists(store: LocalArtifactStore, key: string, data: Json) returns (b: bool)
    modifies store, store.journal
    ensures b && key in store.files && store.files[key] == data
  {
    store.WriteJson(key, data);
    b := store.Exists(key);
  }
}
