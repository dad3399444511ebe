/**
 * The submission gateway: `run_inference` validates a request, writes the run's input record
 * and hands the run to a new executor; `get_status` reads the run's status document.
 */
module InferenceApi {
  import opened Results
  import opened Json
  import opened Runtime
  import opened Writes
  import JobRunner

  /** A reply, or the HTTP error the handler raises. */
  datatype Response<+T> = Response(body: T) | HttpError(statusCode: int, detail: string)

  /** Where the input record of `runId` is written under the requests directory. */
  function InputLocation(requestsDir: string, runId: string): string {
    requestsDir + "/" + runId + ".json"
  }

  /** The input record: the `values` of the payload and nothing else. */
  function InputRecord(values: Json): Json {
    JObj(map["values" := values])
  }

  /** The executor's environment: the gateway's own, with the three run variables set over it. */
  function HandoffEnv(environ: map<string, string>, inputPath: string, runId: string): map<string, string> {
    environ["MODE" := JobRunner.InferenceMode]["INPUT_PATH" := inputPath]["RUN_ID" := runId]
  }

  function AcceptedBody(runId: string): Json {
    JObj(map["status" := JStr("accepted"), "run_id" := JStr(runId)])
  }

  class Gateway {
    const requestsDir: string
    /** The gateway process's environment, which every handoff copies. */
    const environ: map<string, string>
    const requests: RequestDirectory
    const ledger: StatusLedger
    /** The environments of the executors launched so far, oldest first. */
    var launched: seq<map<string, string>>

    constructor (requestsDir: string, environ: map<string, string>, requests: RequestDirectory, ledger: StatusLedger)
      ensures this.requestsDir == requestsDir && this.environ == environ
      ensures this.requests == requests && this.ledger == ledger && launched == []
    {
      this.requestsDir := requestsDir;
      this.environ := environ;
      this.requests := requests;
      this.ledger := ledger;
      launched := [];
    }

    /**
     * `run_inference`; `runId` is the fresh identifier the source draws from `uuid4`.
     * Without `values` nothing is written and nothing launched.
     */
    method RunInference(payload: map<string, Json>, runId: string) returns (reply: Response<Json>)
      modifies this`launched, requests
      ensures "values" !in payload ==>
                && reply == HttpError(400, "Missing 'values' key")
                && requests.files == old(requests.files) && launched == old(launched)
      ensures "values" in payload ==>
                && reply == Response(AcceptedBody(runId))
                && requests.files == old(requests.files)[InputLocation(requestsDir, runId) := InputRecord(payload["values"])]
                && launched == old(launched) + [HandoffEnv(environ, InputLocation(requestsDir, runId), runId)]
    {
      if "values" !in payload {
        reply := HttpError(400, "Missing 'values' key");
        return;
      }
      var inputPath := InputLocation(requestsDir, runId);
      requests.files := requests.files[inputPath := InputRecord(payload["values"])];

      var env := environ;
      env := env["MODE" := JobRunner.InferenceMode];
      env := env["INPUT_PATH" := inputPath];
      env := env["RUN_ID" := runId];
      launched := launched + [env];

      reply := Response(AcceptedBody(runId));
    }

    /** `get_status`: the stored status document, or 404 when the run has none; reads only. */
    method GetStatus(runId: string) returns (reply: Response<StatusRecord>)
      ensures runId in ledger.records ==> reply == Response(ledger.records[runId])
      ensures runId !in ledger.records ==> reply == HttpError(404, "Run ID not found")
    {
      if runId !in ledger.records {
        reply := HttpError(404, "Run ID not found");
        return;
      }
      reply := Response(ledger.records[runId]);
    }
  }

  /** Distinct run ids get distinct input records. */
  lemma {:induction false} InputLocationInjective(requestsDir: string, id1: string, id2: string)
    requires InputLocation(requestsDir, id1) == InputLocation(requestsDir, id2)
    ensures id1 == id2
  {
    var p1 := InputLocation(requestsDir, id1);
    var n := |requestsDir| + 1;
    assert |id1| == |id2|;
    assert id1 == p1[n..n + |id1|];
    assert id2 == InputLocation(requestsDir, id2)[n..n + |id2|];
  }

  /** The handoff sets MODE, INPUT_PATH and RUN_ID and keeps every other variable of the gateway. */
  lemma HandoffEnvContents(environ: map<string, string>, inputPath: string, runId: string)
    ensures var env := HandoffEnv(environ, inputPath, runId);
            && env["MODE"] == "inference" && env["INPUT_PATH"] == inputPath && env["RUN_ID"] == runId
            && env.Keys == environ.Keys + {"MODE", "INPUT_PATH", "RUN_ID"}
            && forall k :: k in environ && k != "MODE" && k != "INPUT_PATH" && k != "RUN_ID" ==> env[k] == environ[k]
  {
  }

  /** Presence is the only check: an empty `values` is accepted and reaches the executor as it was sent. */
  lemma InputRecordRoundTrip(values: Json)
    ensures JobRunner.ReadValues(InputRecord(values)) == Ok(values)
  {
  }

  /**
   * An accepted submission's handoff passes the executor's pre-checks with the same run id and
   * input record, provided the gateway's own environment selects a usable backend.
   */
  lemma HandoffPassesPrechecks(environ: map<string, string>, requestsDir: string, runId: string, inputPaths: set<string>)
    requires runId != ""
    requires InputLocation(requestsDir, runId) in inputPaths
    requires JobRunner.GetEnv(environ, "STORE_TYPE", JobRunner.DefaultStoreType) == "s3" ==> "S3_BUCKET" in environ
    ensures var pre := JobRunner.Prechecks(HandoffEnv(environ, InputLocation(requestsDir, runId), runId), inputPaths);
            && pre.Ok?
            && pre.value.runId == runId
            && pre.value.inputPath == InputLocation(requestsDir, runId)
            && pre.value.artifactKey == runId + "/" + JobRunner.GetEnv(environ, "ARTIFACT_NAME", JobRunner.DefaultArtifactName)
  {
  }

  /** A submission of `{values: []}` is accepted, and its run reaches `running` and then fails with `EmptyInput`. */
  lemma EmptySubmissionFailsInExecutor(c: JobRunner.JobConfig, config: Option<Json>, durationMs: int,
                                       startedAt: string, finishedAt: string)
    ensures JobRunner.Execute(c, false, InputRecord(JArr([])), config, durationMs, startedAt, finishedAt)
         == JobRunner.Plan([SetStatus(StatusRecord(c.runId, Running, startedAt)),
                            SetStatus(StatusRecord(c.runId, Failed, finishedAt))],
                           JobRunner.Raised(JobRunner.EmptyInput))
  {
  }
}
