# Asynchronous inference job lifecycle — a verified model

This project models the core of an asynchronous inference pipeline:

- a **submission gateway** (`run_inference`, `get_status`) that validates a request, writes the
  run's input record, hands the run to a newly launched executor through its environment, and
  answers status queries from the status ledger;
- a **job executor** (`run_job`, `write_status`). It runs the pre-checks and then writes `running`.
  It then passes the idempotency gate, where a stored artifact ends the run `completed` at once.
  Otherwise it computes `predictions = [v * multiplier for v in values]`, writes the artifact and
  then `completed`. Any exception after `running` becomes `failed` and is re-raised;
- two **artifact stores** behind one interface `{write_json, exists}`: the local store, which keeps
  documents by key under a root directory, and the object store, which keeps them as objects named
  `prefix/key` in a bucket and also offers `read_json`.

Every I/O effect is a change to explicit state:
- the status ledger (`Runtime.StatusLedger`, run id to status document);
- the requests directory (`Runtime.RequestDirectory`);
- the local store's documents (`LocalStorage.LocalArtifactStore.files`);
- the object-storage service (`S3Storage.S3Client.objects`).

The model configuration is an `Option<Json>`, where `None` means the file is missing. JSON
documents are the datatype `Json.Json`. Python truthiness is `Json.Truthy`. Numbers are `real`,
and booleans multiply as 1 and 0, as Python's `True * m` does.

The executor is specified by pure functions:
- `JobRunner.Prechecks` covers the steps before the first status write;
- `JobRunner.Execute` and `JobRunner.JobSpec` give the ordered list of durable writes (`Effect`s) a
  run performs, and how it ends;
- `JobRunner.Apply` gives the state those writes leave.

The ledger and the two stores share one ghost journal (`Writes.Journal`). Every
`StatusLedger.Write` and every `write_json` of a store appends the write it performs to the
journal. `JobRunner.RunJob` performs the writes on the ledger and store objects. It is proved to
make exactly the planned writes, in order: the journal grows by the plan's effects. The state it
leaves is `Apply` of the plan's effects to the old state. The lemmas state what every plan
guarantees.

The interface of `src/storage/base.py` is `Storage.Backend`, a tagged union over the two store
classes whose methods dispatch to them. The model has no traits.

A metadata probe can fail for reasons other than a missing object, such as access denied or
throttling. The code catches every `ClientError` and answers `False`. The model follows the code:
`S3Client.headFaults` holds the objects whose probe errors, and `exists` answers false for them.
After such a false answer the executor recomputes the run and overwrites the artifact. This is why
`JobRunner.RerunKeepsArtifact` needs the artifact's probe not to fault.

## Model

| member | source | states |
|---|---|---|
| `Runtime.StatusLedger.Write` | src/job_runner.py:27-35 | overwrites the run's status document with `{run_id, status, updated_at}`; last write wins; every other run's document is unchanged; the write is appended to the journal |
| `LocalStorage.LocalArtifactStore.constructor` | src/storage/local.py:9-11 | opening the store over a directory changes no document |
| `LocalStorage.LocalArtifactStore.WriteJson` | src/storage/local.py:13-18 | the document at the key becomes the one written (overwrite); every other key keeps its document; the write is appended to the journal |
| `LocalStorage.LocalArtifactStore.Exists` | src/storage/local.py:20-21 | true exactly when a document is stored at the key; changes nothing |
| `LocalStorage.WriteThenExists` | src/storage/local.py:13-21 | after writing a key, `exists` of that key is true and the key holds the written document |
| `S3Storage.S3ArtifactStore.constructor` | src/storage/s3.py:9-12 | the stored prefix is the given one with trailing slashes stripped, so it never ends in `/` |
| `S3Storage.RStripSlash` | src/storage/s3.py:11 | the result is a prefix of the input that does not end in `/`, and everything removed is `/` |
| `S3Storage.SlashesStripToEmpty` | src/storage/s3.py:11 | a prefix made only of slashes normalises to the empty prefix |
| `S3Storage.RStripSlashIdempotent` | src/storage/s3.py:11 | normalising a normalised prefix changes nothing |
| `S3Storage.FullKey` | src/storage/s3.py:14-17 | the full key ends with the whole key; it equals the key exactly when the prefix is empty; otherwise it starts with `prefix/` |
| `S3Storage.FullKeyInjective` | src/storage/s3.py:14-17 | two keys with the same full key under one prefix are the same key |
| `S3Storage.S3ArtifactStore.WriteJson` | src/storage/s3.py:19-28 | puts the document at the full key in the bucket; every other object is unchanged; the put is appended to the journal |
| `S3Storage.S3ArtifactStore.ReadJson` | src/storage/s3.py:30-34 | returns the stored document at the full key, or a no-such-key error when there is none; changes nothing |
| `S3Storage.S3ArtifactStore.Exists` | src/storage/s3.py:37-43 | true exactly when the object exists and its probe returns normally; any probe client error answers false; changes nothing |
| `S3Storage.WriteThenRead` | src/storage/s3.py:19-34 | round trip: `read_json` after `write_json` of a key returns the written document |
| `S3Storage.WriteThenExists` | src/storage/s3.py:19-43 | after a write, `exists` is true exactly when the object's probe does not fault |
| `Storage.Backend.Exists` | src/storage/base.py:10-12 | the interface's `exists` answers as the selected backend does |
| `Storage.Backend.WriteJson` | src/storage/base.py:6-8 | the interface's `write_json` performs the selected backend's write only, and journals it at the backend's location for the key |
| `JobRunner.Prechecks` | src/job_runner.py:39-70 | a run that passes has INPUT_PATH and a non-empty RUN_ID from the environment, mode `inference`, and an existing input record |
| `JobRunner.PrechecksPassExactly` | src/job_runner.py:39-70 | the pre-checks pass if and only if INPUT_PATH and RUN_ID are set and non-empty, MODE (default `batch`) is `inference`, the input record exists, and S3_BUCKET is given when STORE_TYPE is `s3` |
| `JobRunner.RejectedRunWritesNothing` | src/job_runner.py:39-72 | a run that fails a pre-check raises that error, has no writes, and leaves ledger and stores as they were |
| `JobRunner.AbsentModeRejected` | src/job_runner.py:51-53 | with no MODE variable the mode is `batch`, which is rejected as unsupported |
| `JobRunner.ArtifactKeyShape` | src/job_runner.py:58-59 | the artifact key is `run_id + "/" + artifact_name`, and the name defaults to `output.json` |
| `JobRunner.BackendSelection` | src/job_runner.py:61-70 | STORE_TYPE `s3` selects bucket S3_BUCKET with the artifact at `artifacts/<key>`; any other value or none selects the local store at `<key>` |
| `JobRunner.ReadValues` | src/job_runner.py:86 | definition: `data.get("values", [])` on an object, an `AttributeError` on any other document; `InferenceApi.InputRecordRoundTrip` is proved about it |
| `JobRunner.Subscript` | src/job_runner.py:97 | definition: `model[key]`, a `KeyError` for a missing key and a `TypeError` on a non-object; used for `multiplier` and for `model_version` (line 106) |
| `JobRunner.Scaled` | src/job_runner.py:98 | one result per value; the i-th is the number `values[i] * multiplier` |
| `JobRunner.Predictions` | src/job_runner.py:97-98 | the comprehension succeeds exactly when `values` is a list of numbers and the multiplier is a number, and then gives one prediction per value, the i-th equal to `values[i] * multiplier`; otherwise it is a `TypeError` |
| `JobRunner.ArtifactDocument` | src/job_runner.py:103-114 | definition: the artifact document; `JobRunner.SuccessfulArtifact` states each of its fields |
| `JobRunner.Compute` | src/job_runner.py:83-114 | definition: the `try` block after the gate, in the source's order (values, emptiness, configuration, multiplier, predictions, model version); `JobRunner.SucceedsExactlyWhenComputable` gives its success condition |
| `JobRunner.Settle` | src/job_runner.py:116-128 | definition: after an absent artifact, the artifact write and then `completed`, or only `failed` when the `try` block raises |
| `JobRunner.Gated` | src/job_runner.py:76-117 | definition: the writes after `running`, only `completed` when the artifact is present and otherwise `Settle`'s |
| `JobRunner.Execute` | src/job_runner.py:72-128 | definition: the writes after the pre-checks, `running` followed by `Gated`'s writes; the lemmas below are proved about it |
| `JobRunner.JobSpec` | src/job_runner.py:38-128 | definition: a whole run, no writes when a pre-check raises and otherwise `Execute` with the gate's answer in the current state |
| `JobRunner.Step` | src/job_runner.py:27-35 | definition: one durable write, a status document replacing the run's or an artifact replacing the document at its location |
| `JobRunner.Apply` | src/job_runner.py:72-128 | definition: the writes performed in order from a state |
| `JobRunner.ApplyAppend` | src/job_runner.py:72-128 | performing one list of writes and then another is performing their concatenation |
| `JobRunner.ApplyExecute` | src/job_runner.py:72-128 | the state a run's writes leave, one `Step` per write: `running` then `completed`; or `running`, the artifact, `completed`; or `running`, `failed` |
| `JobRunner.StatusSequence` | src/job_runner.py:72-128 | after the pre-checks the first write is `running` and the last is `completed` on normal return or `failed` on an exception; in between there is at most the artifact write; all statuses are the run's own |
| `JobRunner.FinalLedger` | src/job_runner.py:72-128 | the run's ledger entry ends `completed` or `failed`, with the final timestamp; no other run's entry changes |
| `JobRunner.StoreAfterRun` | src/job_runner.py:76-117 | when the artifact is already present or the computation raises, the stores are unchanged; otherwise exactly the artifact location is set |
| `JobRunner.GateShortCircuits` | src/job_runner.py:76-79 | a present artifact ends the run `running` then `completed` with no store write, whatever the input and configuration |
| `JobRunner.EmptyInputFails` | src/job_runner.py:86-88 | empty or missing `values` ends `running` then `failed` with `EmptyInput`, and no artifact |
| `JobRunner.MissingConfigFails` | src/job_runner.py:90-92 | a missing model configuration ends `running` then `failed` with `ConfigNotFound`, and no artifact |
| `JobRunner.ArtifactOnlyBeforeCompleted` | src/job_runner.py:116-128 | a run that raises writes only status documents; an artifact write is always immediately followed by `completed` |
| `JobRunner.SucceedsExactlyWhenComputable` | src/job_runner.py:83-114 | without a stored artifact, the run returns normally if and only if the input is an object with a non-empty list of numbers and the configuration has a numeric `multiplier` and a `model_version` |
| `JobRunner.SuccessfulArtifact` | src/job_runner.py:97-116 | a computed run writes at its artifact location a document with run id, mode `inference`, the config's `model_version`, `input == values`, `predictions[i] == values[i] * multiplier`, and `num_inputs == num_predictions == len(values)` |
| `JobRunner.RerunKeepsArtifact` | src/job_runner.py:76-79 | a second run with the same run id after a normal return ends `completed`, writes nothing to the stores, and keeps the first artifact (for the object store, when its probe does not fault) |
| `JobRunner.BackendsWriteSameDocuments` | src/job_runner.py:103-116 | both backends receive the same writes with the same artifact document; only the location differs |
| `JobRunner.ExampleOneTwoThree` | src/job_runner.py:97-114 | values `[1, 2, 3]` with multiplier 2 give predictions `[2, 4, 6]` and three inputs and predictions |
| `JobRunner.RunJob` | src/job_runner.py:38-128 | `run_job` returns or raises as the plan says; the journal grows by exactly the plan's writes, in order, so a rejected run writes nothing; the state left is `Apply` of those writes |
| `JobRunner.Attempt` | src/job_runner.py:72-128 | writes `running` and then runs `Gate`; the journal grows by exactly `Execute`'s writes, in order, and the state left is `Apply` of them |
| `JobRunner.Gate` | src/job_runner.py:74-79 | probes `exists` for the artifact key; on a present artifact writes only `completed`, otherwise runs `Conclude`; the journal grows by exactly `Gated`'s writes, in order |
| `JobRunner.Conclude` | src/job_runner.py:83-128 | writes the artifact and then `completed`, or `failed` when the `try` block raises; the journal grows by exactly `Settle`'s writes, in order, and the result is its result |
| `InferenceApi.Gateway.RunInference` | src/inference_api.py:22-50 | without `values`: a 400 reply, no input record, nothing launched. Otherwise: the input record `{values}` is written at the run's location, one executor is launched with the handoff environment, and `{status: accepted, run_id}` is returned with the same run id |
| `InferenceApi.InputLocation` | src/inference_api.py:30 | definition: `<requests dir>/<run_id>.json`; `InferenceApi.InputLocationInjective` is proved about it |
| `InferenceApi.InputRecord` | src/inference_api.py:32 | definition: the record `{values}`; `InferenceApi.InputRecordRoundTrip` is proved about it |
| `InferenceApi.HandoffEnv` | src/inference_api.py:35-38 | definition: a copy of the gateway's environment with MODE, INPUT_PATH and RUN_ID set; `InferenceApi.HandoffEnvContents` is proved about it |
| `InferenceApi.AcceptedBody` | src/inference_api.py:47-50 | definition: the reply `{status: accepted, run_id}` |
| `InferenceApi.Gateway.GetStatus` | src/inference_api.py:54-63 | returns the stored status document unchanged, or 404 when the ledger has no record for the run id |
| `InferenceApi.InputLocationInjective` | src/inference_api.py:27-32 | distinct run ids get distinct input-record locations |
| `InferenceApi.HandoffEnvContents` | src/inference_api.py:35-38 | the handoff sets MODE to `inference`, INPUT_PATH to the run's input record and RUN_ID to the run id, and keeps every other variable of the gateway |
| `InferenceApi.InputRecordRoundTrip` | src/inference_api.py:30-32 | the executor reads back from the input record exactly the `values` that were submitted, whatever they are, including an empty list |
| `InferenceApi.HandoffPassesPrechecks` | src/inference_api.py:35-38 | an accepted submission's handoff passes the executor's pre-checks with the same run id and input record, provided the gateway's environment selects a usable backend |
| `InferenceApi.EmptySubmissionFailsInExecutor` | src/inference_api.py:24-32 | a submission with `values: []` reaches the executor, which ends `running` then `failed` with `EmptyInput` |

## Left out

- Launching the executor process (`subprocess.Popen`). The model records it as the handoff environment
  appended to `Gateway.launched`. Concurrency between the gateway and executors, and races between two
  executors on one run id, are not modelled.
- The uuid is the `runId` parameter of `RunInference`. Its uniqueness is not proved: a reused id
  overwrites the earlier input record.
- Clock readings are parameters: `updated_at` for the two status writes (`startedAt`, `finishedAt`) and
  `run_duration_ms` (`durationMs`).
- Logging; FastAPI routing, payload parsing and response serialisation.
- The JSON text format (`indent=2`), file encodings and decode errors of a corrupt file. Documents are
  values of `Json`.
- Filesystem details: directory creation, path resolution and normalisation, `PROJECT_ROOT`. A key names
  a file under the local root; that a directory also "exists" is not modelled.
- The boto3 client, credentials, content type and non-`ClientError` exceptions of the object-storage
  client (for example, connection errors).
- Failures of the writes themselves: a disk error, a failed `put_object`, a `get_object` error other
  than a missing key. Every store and ledger write succeeds in the model.
- The Python int/float distinction and floating-point rounding of `v * multiplier`: numbers are `real`.
- JobRunner.Predictions: sequence repetition is modelled as a `TypeError`. The cases are a string or
  list operand with an integer multiplier, or an integer operand with a string or list multiplier,
  which Python evaluates as repetition. A truthy non-list `values` likewise counts as a `TypeError`.
- The bucket name is an address component of `S3Storage.ObjectId`. A missing bucket is not modelled.
- `src/storage/__init__.py` only re-exports the three classes and is not part of this model.
