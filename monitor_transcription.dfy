/**
 * The monitor handler.  For each queued message it asks the transcription
 * service how the job is doing and then stores the finished transcript,
 * retries or gives up on a failed job, re-queues a running one or marks a
 * vanished one failed.  It reports how many messages it processed; a
 * message whose handling raised is left out of the count, so the queue
 * delivers it again.
 *
 * The services are parameters (`Env`): the job's status and transcript
 * URI, the transcript download, the transcriptions record, whether table
 * writes and job starts succeed, JSON decoding, `str` and the clock.
 */
module MonitorTranscription {
  import opened Wrappers
  import opened Json
  import Requests
  import Text
  import Transcription
  import TranscriptLocation
  import TranscriptText
  import StartTranscription

  /** One call the monitor makes on the services. */
  datatype Action =
    | MarkCompleted(transcriptionId: Value, parsed: TranscriptText.Parsed, raw: Value)
    | UpdateStatus(transcriptionId: Value, update: Transcription.StatusUpdate)
    | IncrementRetry(transcriptionId: Value)
    | StartRetryJob(jobName: string, mediaUri: string, format: string)
    | SendMonitoring(message: map<string, Value>, delaySeconds: nat)

  datatype Env = Env(
    jobStatus: Value -> string,                              // `check_transcription_job`, which never raises
    transcriptUri: Value -> Option<Value>,                   // the finished job's transcript URI; `None` where the call raises
    download: TranscriptLocation.Location -> Option<Value>,  // `get_object` and `json.loads`; `None` where either raises
    lookup: Value -> Option<map<string, Value>>,             // the record's `Item`; `None` when absent or the call raises
    writesOk: bool,                                          // whether table updates succeed
    startOk: bool,                                           // whether starting a job succeeds
    decode: string -> Option<Value>,                         // `json.loads`
    show: Value -> string,                                   // `str` of values other than strings and integers
    now: string,                                             // the ISO time of every clock reading
    error: string)                                           // the text of an exception the model does not spell out

  /** The calls one step made, and whether it raised out to the handler. */
  datatype StepResult = StepResult(actions: seq<Action>, raised: bool)

  /** A status update to `FAILED`; it raises when the write fails. */
  function MarkFailed(id: Value, error: string, env: Env): (r: StepResult)
    ensures r.actions == [UpdateStatus(id, Transcription.FailedUpdate(error, env.now))]
    ensures r.raised <==> !env.writesOk
  {
    StepResult([UpdateStatus(id, Transcription.FailedUpdate(error, env.now))], !env.writesOk)
  }

  /**
   * `process_completed_transcription`: fetch the transcript from where the
   * job says it is, parse it with `parse_transcript` as written and store
   * it; anything that raises on the way marks the record `FAILED`, and that
   * update's own failure raises.
   */
  function ProcessCompleted(id: Value, job: Value, env: Env): (r: StepResult)
    ensures r.raised ==> !env.writesOk
    ensures |r.actions| > 0
    ensures r.actions[0].MarkCompleted? ==>
              r.actions[0].parsed == TranscriptText.ParseTranscript(r.actions[0].raw) && r.actions[0].parsed.confidence == 0.0
  {
    var uri := env.transcriptUri(job);
    if uri.None? || !uri.value.Str? then MarkFailed(id, env.error, env)
    else
      match TranscriptLocation.Locate(uri.value.s)
      case Err(message) => MarkFailed(id, message, env)
      case Ok(location) =>
        var data := env.download(location);
        if data.None? then MarkFailed(id, env.error, env)
        else
          var stored := [MarkCompleted(id, TranscriptText.ParseTranscript(data.value), data.value)];
          if env.writesOk then StepResult(stored, false)
          else StepResult(stored + MarkFailed(id, env.error, env).actions, true)
  }

  /** `retryCount + 1` for the counts Python can add 1 to. */
  function Incremented(count: Value): (r: Value)
    ensures count.Int? ==> r == Int(count.i + 1)
  {
    match count
    case Int(i) => Int(i + 1)
    case Decimal(d) => Decimal(d + 1.0)
    case Float(f) => Float(f + 1.0)
    case Bool(b) => Int(if b then 2 else 1)
    case _ => count
  }

  /** The retry job's name: the id and the attempt number. */
  function RetryJobName(id: Value, count: Value, show: Value -> string): string
  {
    "transcription-retry-" + Transcription.Show(id, show) + "-" + Transcription.Show(Incremented(count), show)
  }

  /** `send_monitoring_message` and `requeue_monitoring`'s body: keyed by `transcriptionId`. */
  function MonitorMessage(id: Value, job: Value, now: string): (r: map<string, Value>)
    ensures r.Keys == {"transcriptionId", "jobName", "action", "timestamp"}
    ensures r["transcriptionId"] == id && r["jobName"] == job
  {
    map["transcriptionId" := id, "jobName" := job, "action" := Str("monitor"), "timestamp" := Str(now)]
  }

  /**
   * `retry_transcription`: count the retry, start a job under the retry
   * name on the record's audio and queue it for monitoring.  Every
   * exception is caught, so it never raises; a failing call stops it.
   */
  function Retry(id: Value, record: map<string, Value>, count: Value, env: Env): (r: StepResult)
    ensures !r.raised && |r.actions| > 0 && r.actions[0] == IncrementRetry(id)
    ensures |r.actions| > 1 ==> env.writesOk && "bucketName" in record && "s3Key" in record && record["s3Key"].Str?
    ensures |r.actions| > 1 ==>
              r.actions[1] == StartRetryJob(RetryJobName(id, count, env.show),
                                            "s3://" + Transcription.Show(record["bucketName"], env.show) + "/" + record["s3Key"].s,
                                            Transcription.AudioFormat(record["s3Key"].s))
    ensures |r.actions| > 2 ==> env.startOk && r.actions[2] == SendMonitoring(MonitorMessage(id, Str(RetryJobName(id, count, env.show)), env.now), 60)
  {
    var counted := [IncrementRetry(id)];
    if !env.writesOk || "bucketName" !in record || "s3Key" !in record || !record["s3Key"].Str? then StepResult(counted, false)
    else
      var key := record["s3Key"].s;
      var name := RetryJobName(id, count, env.show);
      var started := counted + [StartRetryJob(name, "s3://" + Transcription.Show(record["bucketName"], env.show) + "/" + key, Transcription.AudioFormat(key))];
      if !env.startOk then StepResult(started, false)
      else StepResult(started + [SendMonitoring(MonitorMessage(id, Str(name), env.now), 60)], false)
  }

  const MaxRetries: int := 3

  /**
   * `handle_failed_transcription`: retry while the count is below 3,
   * otherwise mark the record failed for good.  Every exception is caught:
   * a missing record or a count that cannot be compared does nothing.
   */
  function HandleFailed(id: Value, env: Env): (r: StepResult)
    ensures !r.raised
  {
    var record := env.lookup(id);
    if record.None? then StepResult([], false)
    else
      var count := GetOr(record.value, "retryCount", Int(0));
      match Transcription.Below(count, MaxRetries)
      case None => StepResult([], false)
      case Some(true) => Retry(id, record.value, count, env)
      case Some(false) => StepResult([UpdateStatus(id, Transcription.FailedUpdate("Max retries exceeded", env.now))], false)
  }

  /** The step for the job's status. */
  function Step(status: string, id: Value, job: Value, env: Env): (r: StepResult)
    ensures r.raised ==> (status == "COMPLETED" || status == "NOT_FOUND") && !env.writesOk
    ensures status !in {"COMPLETED", "FAILED", "IN_PROGRESS", "NOT_FOUND"} ==> r == StepResult([], false)
    ensures status == "IN_PROGRESS" ==> r == StepResult([SendMonitoring(MonitorMessage(id, job, env.now), 120)], false)
    ensures status == "NOT_FOUND" ==> r == MarkFailed(id, "Transcription job not found", env)
  {
    if status == "COMPLETED" then ProcessCompleted(id, job, env)
    else if status == "FAILED" then HandleFailed(id, env)
    else if status == "IN_PROGRESS" then StepResult([SendMonitoring(MonitorMessage(id, job, env.now), 120)], false)
    else if status == "NOT_FOUND" then MarkFailed(id, "Transcription job not found", env)
    else StepResult([], false)
  }

  /** A record's decoded message, `None` where reading it raises. */
  function Message(record: map<string, Value>, env: Env): Option<Value>
  {
    if "body" !in record || !record["body"].Str? then None
    else env.decode(record["body"].s)
  }

  /** The calls one queue record led to, and its receipt handle when it counts as processed. */
  datatype RecordResult = RecordResult(actions: seq<Action>, handle: Option<Value>)

  /**
   * One pass of the handler's loop.  The record counts exactly when its
   * message names a `transcriptionId` and a `jobName`, its step did not
   * raise and it has a receipt handle; which status the job had does not
   * matter.
   */
  function ProcessRecord(record: map<string, Value>, env: Env): (r: RecordResult)
    ensures r.handle.Some? <==>
              Message(record, env).Some?
              && Requests.PyIndex(Message(record, env).value, "transcriptionId").Some?
              && Requests.PyIndex(Message(record, env).value, "jobName").Some?
              && !Step(env.jobStatus(Message(record, env).value.fields["jobName"]),
                       Message(record, env).value.fields["transcriptionId"],
                       Message(record, env).value.fields["jobName"], env).raised
              && "receiptHandle" in record
    ensures r.handle.Some? ==> r.handle.value == record["receiptHandle"]
  {
    var message := Message(record, env);
    if message.None? then RecordResult([], None)
    else
      var id := Requests.PyIndex(message.value, "transcriptionId");
      var job := Requests.PyIndex(message.value, "jobName");
      if id.None? || job.None? then RecordResult([], None)
      else
        var step := Step(env.jobStatus(job.value), id.value, job.value, env);
        if step.raised || "receiptHandle" !in record then RecordResult(step.actions, None)
        else RecordResult(step.actions, Some(record["receiptHandle"]))
  }

  /** The receipt handles of the processed records, in order. */
  function Processed(records: seq<map<string, Value>>, env: Env): (r: seq<Value>)
    ensures |r| <= |records|
  {
    if records == [] then []
    else
      var n := |records| - 1;
      var h := ProcessRecord(records[n], env).handle;
      Processed(records[..n], env) + (if h.Some? then [h.value] else [])
  }

  /** Every call the handler makes, record by record. */
  function Effects(records: seq<map<string, Value>>, env: Env): seq<Action>
  {
    if records == [] then []
    else
      var n := |records| - 1;
      Effects(records[..n], env) + ProcessRecord(records[n], env).actions
  }

  datatype Response = Response(statusCode: int, processedCount: nat)

  /** `handler`: the loop over the records, collecting the processed receipt handles. */
  method Handle(records: seq<map<string, Value>>, env: Env) returns (response: Response, actions: seq<Action>)
    ensures response == Response(200, |Processed(records, env)|)
    ensures actions == Effects(records, env)
  {
    var processed: seq<Value> := [];
    actions := [];
    assert records[..0] == [];
    for i := 0 to |records|
      invariant processed == Processed(records[..i], env)
      invariant actions == Effects(records[..i], env)
    {
      processed, actions := HandleRecord(records, env, i, processed, actions);
    }
    assert records[..|records|] == records;
    response := Response(200, |processed|);
  }

  /** One pass of the handler's loop, on the receipt handles and calls of the records before `i`. */
  method HandleRecord(records: seq<map<string, Value>>, env: Env, i: nat, processed: seq<Value>, actions: seq<Action>)
    returns (processed': seq<Value>, actions': seq<Action>)
    requires i < |records|
    requires processed == Processed(records[..i], env) && actions == Effects(records[..i], env)
    ensures processed' == Processed(records[..i + 1], env) && actions' == Effects(records[..i + 1], env)
  {
    assert records[..i + 1][..i] == records[..i];
    var result := ProcessRecord(records[i], env);
    actions' := actions + result.actions;
    processed' := processed;
    if result.handle.Some? {
      processed' := processed + [result.handle.value];
    }
  }

  /** The number of records that count as processed. */
  function CountProcessed(records: seq<map<string, Value>>, env: Env): nat
  {
    if records == [] then 0
    else
      var n := |records| - 1;
      CountProcessed(records[..n], env) + (if ProcessRecord(records[n], env).handle.Some? then 1 else 0)
  }

  /** The processed count is the number of records whose handling raised nothing. */
  lemma {:induction false} ProcessedCount(records: seq<map<string, Value>>, env: Env)
    ensures |Processed(records, env)| == CountProcessed(records, env)
  {
    if records != [] {
      ProcessedCount(records[..|records| - 1], env);
    }
  }

  /**
   * A message from the start handler names the content by `contentId`,
   * not `transcriptionId`: reading it raises, so it makes no call and is
   * never counted.
   */
  lemma StartMessageIgnored(record: map<string, Value>, env: Env, id: Value, name: string, now: string)
    requires Message(record, env) == Some(Object(StartTranscription.MonitoringMessage(id, name, now)))
    ensures ProcessRecord(record, env) == RecordResult([], None)
  {
    StartTranscription.MonitoringMessageFields(id, name, now);
  }

  /** The record carries a message the start handler sent. */
  ghost predicate FromStart(record: map<string, Value>, env: Env)
  {
    exists id: Value, name: string, now: string ::
      Message(record, env) == Some(Object(StartTranscription.MonitoringMessage(id, name, now)))
  }

  /** A batch made only of start-handler messages processes nothing and calls nothing. */
  lemma {:induction false} StartBatchIgnored(records: seq<map<string, Value>>, env: Env)
    requires forall i :: 0 <= i < |records| ==> FromStart(records[i], env)
    ensures Processed(records, env) == [] && Effects(records, env) == []
  {
    if records != [] {
      var n := |records| - 1;
      assert forall i :: 0 <= i < n ==> records[..n][i] == records[i];
      assert FromStart(records[n], env);
      StartBatchIgnored(records[..n], env);
      var id: Value, name: string, now: string :| Message(records[n], env) == Some(Object(StartTranscription.MonitoringMessage(id, name, now)));
      StartMessageIgnored(records[n], env, id, name, now);
      assert Processed(records, env) == Processed(records[..n], env) + [];
      assert Effects(records, env) == Effects(records[..n], env) + [];
    }
  }

  /** The monitor's own re-queued message is read back with its id and job name. */
  lemma RequeuedMessageReadable(id: Value, job: Value, now: string)
    ensures Requests.PyIndex(Object(MonitorMessage(id, job, now)), "transcriptionId") == Some(id)
    ensures Requests.PyIndex(Object(MonitorMessage(id, job, now)), "jobName") == Some(job)
  {
  }

  /**
   * A failed job is retried exactly when its record's count is below 3,
   * and then under the name `transcription-retry-<id>-<count + 1>`;
   * otherwise the record is marked failed with `Max retries exceeded`.
   */
  lemma FailedJobRetriedIff(id: Value, env: Env, count: int)
    requires env.lookup(id).Some? && GetOr(env.lookup(id).value, "retryCount", Int(0)) == Int(count)
    ensures count < MaxRetries ==> HandleFailed(id, env).actions[0] == IncrementRetry(id)
    ensures count < MaxRetries && |HandleFailed(id, env).actions| > 1 ==>
              HandleFailed(id, env).actions[1].jobName
              == "transcription-retry-" + Transcription.Show(id, env.show) + "-" + Text.IntToString(count + 1)
    ensures count >= MaxRetries ==>
              HandleFailed(id, env).actions == [UpdateStatus(id, Transcription.FailedUpdate("Max retries exceeded", env.now))]
  {
  }

  /**
   * A completed job's transcript is fetched from the bucket and key read
   * off its URI; a URI that cannot be read marks the record failed with
   * the parser's message; a downloaded transcript is stored as
   * `parse_transcript` reads it.
   */
  lemma CompletedUsesLocation(id: Value, job: Value, env: Env, uri: string)
    requires env.transcriptUri(job) == Some(Str(uri))
    ensures TranscriptLocation.Locate(uri).Err? ==>
              ProcessCompleted(id, job, env) == MarkFailed(id, TranscriptLocation.Locate(uri).error, env)
    ensures TranscriptLocation.Locate(uri).Ok? && env.download(TranscriptLocation.Locate(uri).value).Some? ==>
              ProcessCompleted(id, job, env).actions[0]
              == MarkCompleted(id, TranscriptText.ParseTranscript(env.download(TranscriptLocation.Locate(uri).value).value),
                               env.download(TranscriptLocation.Locate(uri).value).value)
  {
  }

  /**
   * The sample transcript, "hello world" with one word at confidence
   * 0.99, is stored as the empty parse: no text, no words, no items.
   */
  lemma CompletedSampleStoresEmpty(id: Value, job: Value, env: Env, uri: string)
    requires env.transcriptUri(job) == Some(Str(uri))
    requires TranscriptLocation.Locate(uri).Ok?
    requires env.download(TranscriptLocation.Locate(uri).value) == Some(TranscriptText.Sample)
    ensures ProcessCompleted(id, job, env).actions[0] == MarkCompleted(id, TranscriptText.EmptyParse, TranscriptText.Sample)
    ensures ProcessCompleted(id, job, env).raised <==> !env.writesOk
  {
    TranscriptText.SampleShowsLoss(_ => Some(0.99));
  }
}
