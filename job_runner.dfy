/**
 * The job executor `run_job`: the pre-checks, the status sequence, the idempotency gate,
 * the computation and the failure handler.
 *
 * `Prechecks` and `Compute` give the outcome of the steps that write nothing, `Execute` and
 * `JobSpec` the ordered writes a run performs (a `Plan`), and `Apply` the state those writes
 * leave behind. The method `RunJob` performs the writes on the ledger and store objects, which
 * record each write in their shared journal as they make it; the journal is proved to grow by
 * exactly the plan's writes, in order. The lemmas state what the plan promises.
 */
module JobRunner {
  import opened Results
  import opened Json
  import opened Runtime
  import opened LocalStorage
  import opened S3Storage
  import opened Storage
  import opened Writes

  const InferenceMode := "inference"
  const DefaultMode := "batch"
  const DefaultArtifactName := "output.json"
  const DefaultStoreType := "local"
  /** The key prefix the executor gives the object-storage backend. */
  const ArtifactsPrefix := "artifacts"

  /** The exceptions `run_job` can raise. */
  datatype JobError =
    | MissingInputPath
    | MissingRunId
    | UnsupportedMode(mode: string)
    | InputNotFound
    | KeyError(key: string)
    | AttributeError
    | TypeError
    | EmptyInput
    | ConfigNotFound

  datatype StoreChoice = LocalChoice | S3Choice(bucket: string)

  /** What the pre-checks resolve from the environment. */
  datatype JobConfig = JobConfig(inputPath: string, runId: string, artifactKey: string, store: StoreChoice)

  /** Normal return, or the exception the process ends with. */
  datatype JobResult = Succeeded | Raised(error: JobError)

  /** The writes of one run, in order, and how the run ends. */
  datatype Plan = Plan(effects: seq<Effect>, result: JobResult)

  /** The durable state the executor writes: the ledger, the local store and the buckets. */
  datatype World = World(statuses: map<string, StatusRecord>, files: map<string, Json>, objects: map<ObjectId, Json>)

  // ---------------------------------------------------------------- configuration

  /** `os.getenv(name, default)`. */
  function GetEnv(env: map<string, string>, name: string, default: string): string {
    if name in env then env[name] else default
  }

  /** `os.getenv(name)` is neither missing nor empty. */
  predicate EnvSet(env: map<string, string>, name: string) {
    name in env && env[name] != ""
  }

  /**
   * The steps before the first status write: the required variables, the mode, the input
   * record, the artifact key and the backend selection. `inputPaths` are the input records
   * that exist.
   */
  function Prechecks(env: map<string, string>, inputPaths: set<string>): (r: Result<JobConfig, JobError>)
    ensures r.Ok? ==> && "INPUT_PATH" in env && r.value.inputPath == env["INPUT_PATH"]
                      && r.value.inputPath in inputPaths
                      && "RUN_ID" in env && r.value.runId == env["RUN_ID"] && r.value.runId != ""
                      && GetEnv(env, "MODE", DefaultMode) == InferenceMode
  {
    if !EnvSet(env, "INPUT_PATH") then Err(MissingInputPath)
    else if !EnvSet(env, "RUN_ID") then Err(MissingRunId)
    else if GetEnv(env, "MODE", DefaultMode) != InferenceMode then Err(UnsupportedMode(GetEnv(env, "MODE", DefaultMode)))
    else if env["INPUT_PATH"] !in inputPaths then Err(InputNotFound)
    else
      var key := env["RUN_ID"] + "/" + GetEnv(env, "ARTIFACT_NAME", DefaultArtifactName);
      if GetEnv(env, "STORE_TYPE", DefaultStoreType) == "s3" then
        if "S3_BUCKET" in env then Ok(JobConfig(env["INPUT_PATH"], env["RUN_ID"], key, S3Choice(env["S3_BUCKET"])))
        else Err(KeyError("S3_BUCKET"))
      else Ok(JobConfig(env["INPUT_PATH"], env["RUN_ID"], key, LocalChoice))
  }

  /** Where the run's artifact is stored by the selected backend. */
  function ArtifactTarget(c: JobConfig): Target {
    match c.store
    case LocalChoice => LocalFile(c.artifactKey)
    case S3Choice(bucket) => BucketObject(ObjectId(bucket, FullKey(RStripSlash(ArtifactsPrefix), c.artifactKey)))
  }

  /** What the idempotency gate's `exists` answers in state `w`. */
  predicate Present(c: JobConfig, w: World, headFaults: set<ObjectId>) {
    match ArtifactTarget(c)
    case LocalFile(path) => path in w.files
    case BucketObject(id) => HeadSucceeds(w.objects, headFaults, id)
  }

  // ---------------------------------------------------------------- computation

  /** `data.get("values", [])`. */
  function ReadValues(data: Json): Result<Json, JobError> {
    match data
    case JObj(m) => Ok(if "values" in m then m["values"] else JArr([]))
    case _ => Err(AttributeError)
  }

  /** `doc[key]` on a decoded document. */
  function Subscript(doc: Json, key: string): Result<Json, JobError> {
    match doc
    case JObj(m) => if key in m then Ok(m[key]) else Err(KeyError(key))
    case _ => Err(TypeError)
  }

  predicate AllNumeric(vs: seq<Json>) {
    forall i :: 0 <= i < |vs| ==> IsNumeric(vs[i])
  }

  /** `[v * m for v in vs]` over numeric operands. */
  function Scaled(vs: seq<Json>, m: real): (r: seq<Json>)
    requires AllNumeric(vs)
    ensures |r| == |vs|
    ensures forall i :: 0 <= i < |vs| ==> r[i].JNum? && r[i].number == AsReal(vs[i]) * m
  {
    seq(|vs|, i requires 0 <= i < |vs| => JNum(AsReal(vs[i]) * m))
  }

  /**
   * The list comprehension of a non-empty `values` by the configured multiplier: a `TypeError`
   * as soon as an operand is not a number.
   */
  function Predictions(values: Json, multiplier: Json): (r: Result<seq<Json>, JobError>)
    ensures r.Ok? <==> values.JArr? && IsNumeric(multiplier) && AllNumeric(values.items)
    ensures r.Err? ==> r.error == TypeError
    ensures r.Ok? ==> && |r.value| == |values.items|
                      && forall i :: 0 <= i < |r.value| ==>
                           r.value[i] == JNum(AsReal(values.items[i]) * AsReal(multiplier))
  {
    if values.JArr? && IsNumeric(multiplier) && AllNumeric(values.items) then Ok(Scaled(values.items, AsReal(multiplier)))
    else Err(TypeError)
  }

  /** The artifact document. */
  function ArtifactDocument(runId: string, modelVersion: Json, durationMs: int, values: seq<Json>, predictions: seq<Json>): Json {
    JObj(map[
      "run_id" := JStr(runId),
      "mode" := JStr(InferenceMode),
      "model_version" := modelVersion,
      "metrics" := JObj(map[
        "run_duration_ms" := JNum(durationMs as real),
        "num_inputs" := JNum(|values| as real),
        "num_predictions" := JNum(|predictions| as real)]),
      "input" := JArr(values),
      "predictions" := JArr(predictions)])
  }

  /** The body of the `try` after the gate: load the input, check it, load the configuration, compute, assemble. */
  function Compute(runId: string, input: Json, config: Option<Json>, durationMs: int): Result<Json, JobError> {
    match ReadValues(input)
    case Err(e) => Err(e)
    case Ok(values) =>
      if !Truthy(values) then Err(EmptyInput)
      else if config.None? then Err(ConfigNotFound)
      else match Subscript(config.value, "multiplier")
        case Err(e) => Err(e)
        case Ok(multiplier) =>
          match Predictions(values, multiplier)
          case Err(e) => Err(e)
          case Ok(predictions) =>
            match Subscript(config.value, "model_version")
            case Err(e) => Err(e)
            case Ok(version) => Ok(ArtifactDocument(runId, version, durationMs, values.items, predictions))
  }

  // ---------------------------------------------------------------- the run as a plan

  /**
   * The writes once the gate found no artifact: the artifact and `completed` when the `try` block
   * runs through, `failed` when it raises.
   */
  function Settle(c: JobConfig, outcome: Result<Json, JobError>, finishedAt: string): Plan {
    match outcome
    case Ok(doc) => Plan([PutArtifact(ArtifactTarget(c), doc), SetStatus(StatusRecord(c.runId, Completed, finishedAt))], Succeeded)
    case Err(e) => Plan([SetStatus(StatusRecord(c.runId, Failed, finishedAt))], Raised(e))
  }

  /** The writes after `running`: `completed` at once when the gate finds the artifact, else `Settle`'s. */
  function Gated(c: JobConfig, present: bool, input: Json, config: Option<Json>, durationMs: int, finishedAt: string): Plan {
    if present then Plan([SetStatus(StatusRecord(c.runId, Completed, finishedAt))], Succeeded)
    else Settle(c, Compute(c.runId, input, config, durationMs), finishedAt)
  }

  /** The writes after the pre-checks: `running`, then the gate, then the artifact and `completed`, or `failed`. */
  function Execute(c: JobConfig, present: bool, input: Json, config: Option<Json>, durationMs: int,
                   startedAt: string, finishedAt: string): Plan
  {
    var rest := Gated(c, present, input, config, durationMs, finishedAt);
    Plan([SetStatus(StatusRecord(c.runId, Running, startedAt))] + rest.effects, rest.result)
  }

  /** A whole run: `inputs` are the input records, `w` the state the gate probes. */
  function JobSpec(env: map<string, string>, inputs: map<string, Json>, w: World, headFaults: set<ObjectId>,
                   config: Option<Json>, durationMs: int, startedAt: string, finishedAt: string): Plan
  {
    match Prechecks(env, inputs.Keys)
    case Err(e) => Plan([], Raised(e))
    case Ok(c) => Execute(c, Present(c, w, headFaults), inputs[c.inputPath], config, durationMs, startedAt, finishedAt)
  }

  function Step(w: World, e: Effect): World {
    match e
    case SetStatus(rec) => w.(statuses := w.statuses[rec.runId := rec])
    case PutArtifact(LocalFile(path), doc) => w.(files := w.files[path := doc])
    case PutArtifact(BucketObject(id), doc) => w.(objects := w.objects[id := doc])
  }

  /** The state after performing `effects` in order. */
  function Apply(w: World, effects: seq<Effect>): World
    decreases |effects|
  {
    if effects == [] then w else Step(Apply(w, effects[..|effects| - 1]), effects[|effects| - 1])
  }

  lemma ApplySnoc(w: World, effects: seq<Effect>, e: Effect)
    ensures Apply(w, effects + [e]) == Step(Apply(w, effects), e)
  {
  }

  /** Performing `a` and then `b` is performing `a + b`. */
  lemma {:induction false} ApplyAppend(w: World, a: seq<Effect>, b: seq<Effect>)
    ensures Apply(w, a + b) == Apply(Apply(w, a), b)
    decreases |b|
  {
    if b != [] {
      var b' := b[..|b| - 1];
      ApplyAppend(w, a, b');
      assert (a + b)[..|a + b| - 1] == a + b';
    } else {
      assert a + b == a;
    }
  }

  // ---------------------------------------------------------------- the method

  ghost function Snapshot(ledger: StatusLedger, local: LocalArtifactStore, s3: S3Client): World
    reads ledger, local, s3
  {
    World(ledger.records, local.files, s3.objects)
  }

  /** The ledger and both stores record their writes in one journal. */
  ghost predicate SharedJournal(ledger: StatusLedger, local: LocalArtifactStore, s3: S3Client) {
    local.journal == ledger.journal && s3.journal == ledger.journal
  }

  /**
   * `run_job`. `durationMs`, `startedAt` and `finishedAt` are the clock readings. The writes
   * the run makes, as the ledger and the stores record them in the journal, are the plan's.
   */
  method RunJob(env: map<string, string>, inputs: RequestDirectory, config: Option<Json>,
                ledger: StatusLedger, local: LocalArtifactStore, s3: S3Client,
                durationMs: int, startedAt: string, finishedAt: string)
    returns (r: JobResult)
    requires SharedJournal(ledger, local, s3)
    modifies ledger, local, s3, ledger.journal
    ensures var plan := JobSpec(env, inputs.files, old(Snapshot(ledger, local, s3)), s3.headFaults,
                                config, durationMs, startedAt, finishedAt);
            && r == plan.result
            && ledger.journal.log == old(ledger.journal.log) + plan.effects
            && Snapshot(ledger, local, s3) == Apply(old(Snapshot(ledger, local, s3)), plan.effects)
  {
    var pre := Prechecks(env, inputs.files.Keys);
    if pre.Err? {
      r := Raised(pre.error);
      return;
    }
    var c := pre.value;
    var store: Backend;
    match c.store {
      case S3Choice(bucket) =>
        var s := new S3ArtifactStore(bucket, ArtifactsPrefix, s3);
        store := S3Backend(s);
      case LocalChoice =>
        store := LocalBackend(local);
    }
    r := Attempt(c, store, inputs.files[c.inputPath], config, ledger, local, s3, durationMs, startedAt, finishedAt);
  }

  /** The backend `store` is the one the configuration selects, over the given ledger's stores. */
  ghost predicate Selected(c: JobConfig, store: Backend, ledger: StatusLedger, local: LocalArtifactStore, s3: S3Client)
    reads ledger, local, s3
  {
    && SharedJournal(ledger, local, s3)
    && (store.LocalBackend? ==> c.store == LocalChoice && store.local == local)
    && (store.S3Backend? ==> && c.store == S3Choice(store.s3.bucket) && store.s3.client == s3
                             && store.s3.prefix == RStripSlash(ArtifactsPrefix))
  }

  /** From the `running` write on: the write itself, then the idempotency gate. */
  method Attempt(c: JobConfig, store: Backend, input: Json, config: Option<Json>,
                 ledger: StatusLedger, local: LocalArtifactStore, s3: S3Client,
                 durationMs: int, startedAt: string, finishedAt: string)
    returns (r: JobResult)
    requires Selected(c, store, ledger, local, s3)
    modifies ledger, local, s3, ledger.journal
    ensures var plan := Execute(c, Present(c, old(Snapshot(ledger, local, s3)), s3.headFaults), input, config,
                                durationMs, startedAt, finishedAt);
            && r == plan.result
            && ledger.journal.log == old(ledger.journal.log) + plan.effects
            && Snapshot(ledger, local, s3) == Apply(old(Snapshot(ledger, local, s3)), plan.effects)
  {
    ghost var w0 := Snapshot(ledger, local, s3);
    ghost var present := Present(c, w0, s3.headFaults);
    var running := SetStatus(StatusRecord(c.runId, Running, startedAt));
    ledger.Write(c.runId, Running, startedAt);
    ApplySnoc(w0, [], running);
    assert Present(c, Snapshot(ledger, local, s3), s3.headFaults) == present;

    r := Gate(c, store, input, config, ledger, local, s3, durationMs, finishedAt);
    ApplyAppend(w0, [running], Gated(c, present, input, config, durationMs, finishedAt).effects);
  }

  /** The idempotency gate: `completed` at once when the artifact is there, otherwise the `try` block. */
  method Gate(c: JobConfig, store: Backend, input: Json, config: Option<Json>,
              ledger: StatusLedger, local: LocalArtifactStore, s3: S3Client,
              durationMs: int, finishedAt: string)
    returns (r: JobResult)
    requires Selected(c, store, ledger, local, s3)
    modifies ledger, local, s3, ledger.journal
    ensures var plan := Gated(c, Present(c, old(Snapshot(ledger, local, s3)), s3.headFaults), input, config,
                              durationMs, finishedAt);
            && r == plan.result
            && ledger.journal.log == old(ledger.journal.log) + plan.effects
            && Snapshot(ledger, local, s3) == Apply(old(Snapshot(ledger, local, s3)), plan.effects)
  {
    ghost var w0 := Snapshot(ledger, local, s3);
    var present := store.Exists(c.artifactKey);
    assert present == Present(c, w0, s3.headFaults);
    if present {
      ledger.Write(c.runId, Completed, finishedAt);
      ApplySnoc(w0, [], SetStatus(StatusRecord(c.runId, Completed, finishedAt)));
      r := Succeeded;
    } else {
      var outcome := Compute(c.runId, input, config, durationMs);
      r := Conclude(c, store, outcome, ledger, local, s3, finishedAt);
    }
  }

  /** The `try` block's writes after an absent artifact, or its `failed` handler, which re-raises. */
  method Conclude(c: JobConfig, store: Backend, outcome: Result<Json, JobError>,
                  ledger: StatusLedger, local: LocalArtifactStore, s3: S3Client, finishedAt: string)
    returns (r: JobResult)
    requires Selected(c, store, ledger, local, s3)
    modifies ledger, local, s3, ledger.journal
    ensures var plan := Settle(c, outcome, finishedAt);
            && r == plan.result
            && ledger.journal.log == old(ledger.journal.log) + plan.effects
            && Snapshot(ledger, local, s3) == Apply(old(Snapshot(ledger, local, s3)), plan.effects)
  {
    ghost var w0 := Snapshot(ledger, local, s3);
    assert store.Location(c.artifactKey) == ArtifactTarget(c);
    match outcome {
      case Ok(doc) =>
        var put := PutArtifact(ArtifactTarget(c), doc);
        store.WriteJson(c.artifactKey, doc);
        ApplySnoc(w0, [], put);
        ledger.Write(c.runId, Completed, finishedAt);
        ApplySnoc(w0, [put], SetStatus(StatusRecord(c.runId, Completed, finishedAt)));
        r := Succeeded;
      case Err(e) =>
        ledger.Write(c.runId, Failed, finishedAt);
        ApplySnoc(w0, [], SetStatus(StatusRecord(c.runId, Failed, finishedAt)));
        r := Raised(e);
    }
  }

  // ---------------------------------------------------------------- pre-checks

  /** The pre-checks pass exactly when every required value is there and nothing is rejected. */
  lemma PrechecksPassExactly(env: map<string, string>, inputPaths: set<string>)
    ensures Prechecks(env, inputPaths).Ok? <==>
              && EnvSet(env, "INPUT_PATH") && EnvSet(env, "RUN_ID")
              && GetEnv(env, "MODE", DefaultMode) == InferenceMode
              && env["INPUT_PATH"] in inputPaths
              && (GetEnv(env, "STORE_TYPE", DefaultStoreType) == "s3" ==> "S3_BUCKET" in env)
  {
  }

  /** A run rejected by the pre-checks raises and leaves no status record and no artifact. */
  lemma RejectedRunWritesNothing(env: map<string, string>, inputs: map<string, Json>, w: World, headFaults: set<ObjectId>,
                                 config: Option<Json>, durationMs: int, startedAt: string, finishedAt: string)
    requires Prechecks(env, inputs.Keys).Err?
    ensures var plan := JobSpec(env, inputs, w, headFaults, config, durationMs, startedAt, finishedAt);
            && plan.result == Raised(Prechecks(env, inputs.Keys).error)
            && plan.effects == []
            && Apply(w, plan.effects) == w
  {
  }

  /** With the two variables set, an absent MODE defaults to "batch", which is rejected. */
  lemma AbsentModeRejected(env: map<string, string>, inputPaths: set<string>)
    requires EnvSet(env, "INPUT_PATH") && EnvSet(env, "RUN_ID") && "MODE" !in env
    ensures Prechecks(env, inputPaths) == Err(UnsupportedMode("batch"))
  {
  }

  /** The artifact key is `<run_id>/<artifact name>`, the name defaulting to `output.json`. */
  lemma ArtifactKeyShape(env: map<string, string>, inputPaths: set<string>)
    requires Prechecks(env, inputPaths).Ok?
    ensures var c := Prechecks(env, inputPaths).value;
            && c.artifactKey == c.runId + "/" + GetEnv(env, "ARTIFACT_NAME", DefaultArtifactName)
            && ("ARTIFACT_NAME" !in env ==> c.artifactKey == c.runId + "/output.json")
  {
  }

  /**
   * STORE_TYPE "s3" selects the object store in the bucket S3_BUCKET under the prefix
   * "artifacts"; any other value, or none, selects the local store.
   */
  lemma BackendSelection(env: map<string, string>, inputPaths: set<string>)
    requires Prechecks(env, inputPaths).Ok?
    ensures var c := Prechecks(env, inputPaths).value;
            && (c.store.S3Choice? <==> GetEnv(env, "STORE_TYPE", DefaultStoreType) == "s3")
            && (c.store.S3Choice? ==> "S3_BUCKET" in env && c.store.bucket == env["S3_BUCKET"]
                                      && ArtifactTarget(c) == BucketObject(ObjectId(c.store.bucket, "artifacts/" + c.artifactKey)))
            && (c.store.LocalChoice? ==> ArtifactTarget(c) == LocalFile(c.artifactKey))
  {
  }

  // ---------------------------------------------------------------- status sequence

  /**
   * After the pre-checks the first write is `running` and the last is `completed` on a normal
   * return or `failed` on an exception; in between there is at most the artifact write; every
   * status written is the run's own.
   */
  lemma StatusSequence(c: JobConfig, present: bool, input: Json, config: Option<Json>, durationMs: int,
                       startedAt: string, finishedAt: string)
    ensures var e := Execute(c, present, input, config, durationMs, startedAt, finishedAt).effects;
            var result := Execute(c, present, input, config, durationMs, startedAt, finishedAt).result;
            && 2 <= |e| <= 3
            && e[0] == SetStatus(StatusRecord(c.runId, Running, startedAt))
            && e[|e| - 1] == SetStatus(StatusRecord(c.runId, if result.Succeeded? then Completed else Failed, finishedAt))
            && (forall i :: 0 < i < |e| - 1 ==> e[i].PutArtifact?)
  {
  }

  /** The run's ledger entry ends `completed` or `failed`; no other run's entry changes. */
  /** The state a run's writes leave, spelled out write by write. */
  lemma {:induction false} ApplyExecute(c: JobConfig, present: bool, input: Json, config: Option<Json>, durationMs: int,
                                        startedAt: string, finishedAt: string, w: World)
    ensures var w1 := Step(w, SetStatus(StatusRecord(c.runId, Running, startedAt)));
            Apply(w, Execute(c, present, input, config, durationMs, startedAt, finishedAt).effects)
              == if present then Step(w1, SetStatus(StatusRecord(c.runId, Completed, finishedAt)))
                 else match Compute(c.runId, input, config, durationMs)
                   case Ok(doc) => Step(Step(w1, PutArtifact(ArtifactTarget(c), doc)), SetStatus(StatusRecord(c.runId, Completed, finishedAt)))
                   case Err(_) => Step(w1, SetStatus(StatusRecord(c.runId, Failed, finishedAt)))
  {
    var running := SetStatus(StatusRecord(c.runId, Running, startedAt));
    ApplySnoc(w, [], running);
    var done := SetStatus(StatusRecord(c.runId, Completed, finishedAt));
    if present {
      ApplySnoc(w, [running], done);
    } else {
      var outcome := Compute(c.runId, input, config, durationMs);
      if outcome.Ok? {
        var put := PutArtifact(ArtifactTarget(c), outcome.value);
        ApplySnoc(w, [running], put);
        ApplySnoc(w, [running, put], done);
        assert Execute(c, present, input, config, durationMs, startedAt, finishedAt).effects == [running] + [put] + [done];
      } else {
        ApplySnoc(w, [running], SetStatus(StatusRecord(c.runId, Failed, finishedAt)));
      }
    }
  }

  lemma {:induction false} FinalLedger(c: JobConfig, present: bool, input: Json, config: Option<Json>, durationMs: int,
                                       startedAt: string, finishedAt: string, w: World)
    ensures var plan := Execute(c, present, input, config, durationMs, startedAt, finishedAt);
            Apply(w, plan.effects).statuses
              == w.statuses[c.runId := StatusRecord(c.runId, if plan.result.Succeeded? then Completed else Failed, finishedAt)]
  {
    ApplyExecute(c, present, input, config, durationMs, startedAt, finishedAt, w);
  }

  /**
   * The store changes only by the artifact write of a run that computed its result:
   * exactly the artifact's location is set and nothing else is touched.
   */
  lemma {:induction false} StoreAfterRun(c: JobConfig, present: bool, input: Json, config: Option<Json>, durationMs: int,
                                         startedAt: string, finishedAt: string, w: World)
    ensures var w' := Apply(w, Execute(c, present, input, config, durationMs, startedAt, finishedAt).effects);
            var outcome := Compute(c.runId, input, config, durationMs);
            && (present || outcome.Err? ==> w'.files == w.files && w'.objects == w.objects)
            && (!present && outcome.Ok? ==>
                  var stored := Step(w, PutArtifact(ArtifactTarget(c), outcome.value));
                  w'.files == stored.files && w'.objects == stored.objects)
  {
    ApplyExecute(c, present, input, config, durationMs, startedAt, finishedAt, w);
  }

  // ---------------------------------------------------------------- idempotency gate and errors

  /**
   * A present artifact ends the run `completed` at once: nothing is computed, so the input
   * and the configuration make no difference, and nothing is stored.
   */
  lemma GateShortCircuits(c: JobConfig, input1: Json, input2: Json, config1: Option<Json>, config2: Option<Json>,
                          duration1: int, duration2: int, startedAt: string, finishedAt: string)
    ensures Execute(c, true, input1, config1, duration1, startedAt, finishedAt)
         == Execute(c, true, input2, config2, duration2, startedAt, finishedAt)
         == Plan([SetStatus(StatusRecord(c.runId, Running, startedAt)),
                  SetStatus(StatusRecord(c.runId, Completed, finishedAt))], Succeeded)
  {
  }

  /** Empty or missing `values` ends `failed` with `EmptyInput`, and no artifact is written. */
  lemma EmptyInputFails(c: JobConfig, input: Json, config: Option<Json>, durationMs: int, startedAt: string, finishedAt: string)
    requires input.JObj? && ("values" !in input.fields || !Truthy(input.fields["values"]))
    ensures Execute(c, false, input, config, durationMs, startedAt, finishedAt)
         == Plan([SetStatus(StatusRecord(c.runId, Running, startedAt)),
                  SetStatus(StatusRecord(c.runId, Failed, finishedAt))], Raised(EmptyInput))
  {
  }

  /** A missing model configuration is caught by the handler: `failed`, no artifact. */
  lemma MissingConfigFails(c: JobConfig, input: Json, durationMs: int, startedAt: string, finishedAt: string)
    requires input.JObj? && "values" in input.fields && Truthy(input.fields["values"])
    ensures Execute(c, false, input, None, durationMs, startedAt, finishedAt)
         == Plan([SetStatus(StatusRecord(c.runId, Running, startedAt)),
                  SetStatus(StatusRecord(c.runId, Failed, finishedAt))], Raised(ConfigNotFound))
  {
  }

  /** A run that raises writes status documents only; an artifact write is always followed by `completed`. */
  lemma ArtifactOnlyBeforeCompleted(c: JobConfig, present: bool, input: Json, config: Option<Json>, durationMs: int,
                                    startedAt: string, finishedAt: string)
    ensures var plan := Execute(c, present, input, config, durationMs, startedAt, finishedAt);
            && (plan.result.Raised? ==> forall i :: 0 <= i < |plan.effects| ==> plan.effects[i].SetStatus?)
            && (forall i :: 0 <= i < |plan.effects| && plan.effects[i].PutArtifact? ==>
                  && plan.result.Succeeded?
                  && i + 1 < |plan.effects|
                  && plan.effects[i + 1] == SetStatus(StatusRecord(c.runId, Completed, finishedAt)))
  {
  }

  // ---------------------------------------------------------------- the computed artifact

  /** When the `try` block runs through: the input holds a non-empty list of numbers and the configuration both keys. */
  ghost predicate Computable(input: Json, config: Option<Json>) {
    && input.JObj? && "values" in input.fields
    && input.fields["values"].JArr? && input.fields["values"].items != []
    && AllNumeric(input.fields["values"].items)
    && config.Some? && config.value.JObj?
    && "multiplier" in config.value.fields && IsNumeric(config.value.fields["multiplier"])
    && "model_version" in config.value.fields
  }

  /** The artifact of run `runId` over `values`: the echoed input, one prediction per value, the counts. */
  ghost predicate IsArtifactOf(doc: Json, runId: string, values: seq<Json>, multiplier: real, version: Json, durationMs: int)
    requires AllNumeric(values)
  {
    && doc.JObj?
    && doc.fields.Keys == {"run_id", "mode", "model_version", "metrics", "input", "predictions"}
    && doc.fields["run_id"] == JStr(runId)
    && doc.fields["mode"] == JStr("inference")
    && doc.fields["model_version"] == version
    && doc.fields["input"] == JArr(values)
    && doc.fields["predictions"].JArr?
    && |doc.fields["predictions"].items| == |values|
    && (forall i :: 0 <= i < |values| ==>
          doc.fields["predictions"].items[i].JNum? && doc.fields["predictions"].items[i].number == AsReal(values[i]) * multiplier)
    && doc.fields["metrics"].JObj?
    && doc.fields["metrics"].fields.Keys == {"run_duration_ms", "num_inputs", "num_predictions"}
    && doc.fields["metrics"].fields["run_duration_ms"] == JNum(durationMs as real)
    && doc.fields["metrics"].fields["num_inputs"] == JNum(|values| as real)
    && doc.fields["metrics"].fields["num_predictions"] == JNum(|values| as real)
  }

  /** Without a stored artifact, the run returns normally exactly when its input and configuration are computable. */
  lemma SucceedsExactlyWhenComputable(c: JobConfig, input: Json, config: Option<Json>, durationMs: int,
                                      startedAt: string, finishedAt: string)
    ensures Execute(c, false, input, config, durationMs, startedAt, finishedAt).result.Succeeded? <==> Computable(input, config)
  {
  }

  /**
   * A computed run writes, between `running` and `completed`, the artifact of its run id over
   * its values at its artifact location.
   */
  lemma SuccessfulArtifact(c: JobConfig, input: Json, config: Option<Json>, durationMs: int,
                                              startedAt: string, finishedAt: string)
    requires Computable(input, config)
    ensures var e := Execute(c, false, input, config, durationMs, startedAt, finishedAt).effects;
            && |e| == 3 && e[1].PutArtifact? && e[1].target == ArtifactTarget(c)
            && IsArtifactOf(e[1].doc, c.runId, input.fields["values"].items,
                            AsReal(config.value.fields["multiplier"]), config.value.fields["model_version"], durationMs)
  {
    var values := input.fields["values"];
    var model := config.value.fields;
    var predictions := Predictions(values, model["multiplier"]);
    assert Compute(c.runId, input, config, durationMs)
        == Ok(ArtifactDocument(c.runId, model["model_version"], durationMs, values.items, predictions.value));
  }

  /**
   * Running again with the same run id after a run that returned normally ends `completed`,
   * writes no artifact and leaves the stored one as it is; on the object store this needs the
   * artifact's own probe not to fault.
   */
  lemma {:induction false} RerunKeepsArtifact(env: map<string, string>, inputs: map<string, Json>, w: World,
                                              headFaults: set<ObjectId>, config1: Option<Json>, config2: Option<Json>,
                                              duration1: int, duration2: int,
                                              started1: string, finished1: string, started2: string, finished2: string)
    requires Prechecks(env, inputs.Keys).Ok?
    requires var t := ArtifactTarget(Prechecks(env, inputs.Keys).value); t.BucketObject? ==> t.id !in headFaults
    requires JobSpec(env, inputs, w, headFaults, config1, duration1, started1, finished1).result.Succeeded?
    ensures var c := Prechecks(env, inputs.Keys).value;
            var w1 := Apply(w, JobSpec(env, inputs, w, headFaults, config1, duration1, started1, finished1).effects);
            var second := JobSpec(env, inputs, w1, headFaults, config2, duration2, started2, finished2);
            && second == Plan([SetStatus(StatusRecord(c.runId, Running, started2)),
                               SetStatus(StatusRecord(c.runId, Completed, finished2))], Succeeded)
            && Apply(w1, second.effects).files == w1.files
            && Apply(w1, second.effects).objects == w1.objects
  {
    var c := Prechecks(env, inputs.Keys).value;
    var present := Present(c, w, headFaults);
    var input := inputs[c.inputPath];
    StoreAfterRun(c, present, input, config1, duration1, started1, finished1, w);
    var w1 := Apply(w, Execute(c, present, input, config1, duration1, started1, finished1).effects);
    assert Present(c, w1, headFaults);
    StoreAfterRun(c, true, input, config2, duration2, started2, finished2, w1);
  }

  /**
   * The backend decides only where the artifact goes: the two backends receive the same writes
   * with the same documents.
   */
  lemma BackendsWriteSameDocuments(c: JobConfig, other: StoreChoice, present: bool, input: Json, config: Option<Json>,
                                   durationMs: int, startedAt: string, finishedAt: string)
    ensures var e1 := Execute(c, present, input, config, durationMs, startedAt, finishedAt);
            var e2 := Execute(c.(store := other), present, input, config, durationMs, startedAt, finishedAt);
            && e1.result == e2.result
            && |e1.effects| == |e2.effects|
            && (forall i :: 0 <= i < |e1.effects| ==>
                  if e1.effects[i].SetStatus? then e2.effects[i] == e1.effects[i]
                  else e2.effects[i].PutArtifact? && e2.effects[i].doc == e1.effects[i].doc)
  {
  }

  /** The worked example: values [1, 2, 3] with multiplier 2 give predictions [2, 4, 6] and three inputs. */
  lemma ExampleOneTwoThree(c: JobConfig, durationMs: int, startedAt: string, finishedAt: string)
    ensures var input := JObj(map["values" := JArr([JNum(1.0), JNum(2.0), JNum(3.0)])]);
            var config := Some(JObj(map["multiplier" := JNum(2.0), "model_version" := JStr("v1")]));
            var plan := Execute(c, false, input, config, durationMs, startedAt, finishedAt);
            && plan.result == Succeeded
            && plan.effects[1].doc.fields["predictions"] == JArr([JNum(2.0), JNum(4.0), JNum(6.0)])
            && plan.effects[1].doc.fields["metrics"].fields["num_inputs"] == JNum(3.0)
            && plan.effects[1].doc.fields["metrics"].fields["num_predictions"] == JNum(3.0)
  {
  }
}
