/**
 * The start-transcription handler.  It is invoked with the new content's
 * id, audio key and bucket; it refuses to start a second job while one is
 * running or after one has completed, otherwise it writes a fresh
 * `PROCESSING` record, starts the transcription job, records the job's
 * name on the record and queues a message for the monitor.  Any exception
 * ends in a 500 answer after an attempt to mark the record `FAILED`.
 *
 * The transcriptions table, the transcription service and the queue are
 * parameters (`Env`): what the lookup returns and which of the four writes
 * succeed.  The handler's effects are the sequence of calls it makes.
 */
module StartTranscription {
  import opened Wrappers
  import opened Json
  import Transcription

  /** One call the handler makes on the services. */
  datatype Action =
    | PutRecord(record: map<string, Value>)
    | StartJob(jobName: string, mediaUri: string, format: string, outputBucket: Value, outputKey: string)
    | UpdateStatus(contentId: Value, update: Transcription.StatusUpdate)
    | SendMonitoring(message: map<string, Value>)

  /**
   * The services: the record the table holds for the content (`None` when
   * it has none or the lookup fails, which the handler treats alike) and
   * whether each write succeeds.
   */
  datatype Env = Env(existing: Option<map<string, Value>>, putOk: bool, startOk: bool, updateOk: bool, sendOk: bool)

  /** The two clock readings: the job-name stamp (`%Y%m%d-%H%M%S`) and the ISO time of every other reading. */
  datatype Clock = Clock(stamp: string, now: string)

  datatype Response = Response(statusCode: int, body: map<string, Value>)

  /** The answer and the calls made, in order. */
  datatype Outcome = Outcome(response: Response, actions: seq<Action>)

  const StartFailed: string := "Failed to start transcription"

  /** What the existing record decides before anything is written. */
  datatype Decision = Proceed | AlreadyInProgress | AlreadyCompleted | Raise

  /**
   * The duplicate check.  An empty or absent record lets the job start; a
   * record without a `status` raises; a `FAILED` record with a retry count
   * that cannot be compared with 3 raises; a `PROCESSING` or `COMPLETED`
   * record stops the handler.  A `FAILED` record whose retries are used up
   * matches neither later branch and so also proceeds.
   */
  function Decide(existing: Option<map<string, Value>>): (r: Decision)
    ensures existing.None? || existing.value == map[] ==> r == Proceed
    ensures existing.Some? && existing.value != map[] ==>
              (r == Raise <==> ("status" !in existing.value
                               || (existing.value["status"] == Str("FAILED")
                                   && Transcription.Below(GetOr(existing.value, "retryCount", Int(0)), 3).None?)))
    ensures r == AlreadyInProgress <==> existing.Some? && "status" in existing.value && existing.value["status"] == Str("PROCESSING")
    ensures r == AlreadyCompleted <==> existing.Some? && "status" in existing.value && existing.value["status"] == Str("COMPLETED")
  {
    if existing.None? || existing.value == map[] then Proceed
    else if "status" !in existing.value then Raise
    else
      var status := existing.value["status"];
      if status == Str("FAILED") then
        match Transcription.Below(GetOr(existing.value, "retryCount", Int(0)), 3)
        case None => Raise
        case Some(_) => Proceed
      else if status == Str("PROCESSING") then AlreadyInProgress
      else if status == Str("COMPLETED") then AlreadyCompleted
      else Proceed
  }

  /** `create_transcription_record`: a fresh `PROCESSING` record with no retries. */
  function NewRecord(id: Value, key: Value, bucket: Value, now: string): map<string, Value>
  {
    map["contentId" := id, "s3Key" := key, "bucketName" := bucket, "status" := Str("PROCESSING"),
        "createdAt" := Str(now), "updatedAt" := Str(now), "retryCount" := Int(0),
        "metadata" := Object(map["language" := Str("en-US"), "confidence" := Null, "duration" := Null])]
  }

  /** The new record holds the event's id, key and bucket, status `PROCESSING`, no retries and the time twice. */
  lemma NewRecordFields(id: Value, key: Value, bucket: Value, now: string)
    ensures var r := NewRecord(id, key, bucket, now);
            r.Keys == {"contentId", "s3Key", "bucketName", "status", "createdAt", "updatedAt", "retryCount", "metadata"}
            && r["contentId"] == id && r["s3Key"] == key && r["bucketName"] == bucket
            && r["status"] == Str("PROCESSING") && r["retryCount"] == Int(0)
            && r["createdAt"] == Str(now) && r["updatedAt"] == Str(now)
  {
  }

  /** The job name, unique per content and second. */
  function JobName(id: Value, stamp: string, show: Value -> string): string
  {
    "transcription-" + Transcription.Show(id, show) + "-" + stamp
  }

  function MediaUri(bucket: Value, key: Value, show: Value -> string): string
  {
    "s3://" + Transcription.Show(bucket, show) + "/" + Transcription.Show(key, show)
  }

  /** Where the transcription service writes its result. */
  function OutputKey(id: Value, show: Value -> string): string
  {
    "transcriptions/" + Transcription.Show(id, show) + "/result.json"
  }

  /** `send_monitoring_message`'s message body. */
  function MonitoringMessage(id: Value, jobName: string, now: string): map<string, Value>
  {
    map["contentId" := id, "jobName" := Str(jobName), "action" := Str("monitor"), "timestamp" := Str(now)]
  }

  /** The monitor message names the content and the job and asks for monitoring; it has no other key. */
  lemma MonitoringMessageFields(id: Value, jobName: string, now: string)
    ensures var r := MonitoringMessage(id, jobName, now);
            r.Keys == {"contentId", "jobName", "action", "timestamp"}
            && r["contentId"] == id && r["jobName"] == Str(jobName) && r["action"] == Str("monitor")
  {
  }

  /** The exception message of the missing-parameters check. */
  function MissingMessage(id: Value, key: Value, bucket: Value, show: Value -> string): string
  {
    "Missing required parameters: contentId=" + Transcription.Show(id, show)
    + ", s3Key=" + Transcription.Show(key, show) + ", bucketName=" + Transcription.Show(bucket, show)
  }

  /** The exception path: the calls made so far, the attempt to mark the record `FAILED`, and a 500. */
  function Fail(prior: seq<Action>, id: Value, error: string, now: string): (r: Outcome)
    ensures r.response == Response(500, map["error" := Str(StartFailed)])
    ensures r.actions == prior + [UpdateStatus(id, Transcription.FailedUpdate(error, now))]
  {
    Outcome(Response(500, map["error" := Str(StartFailed)]),
            prior + [UpdateStatus(id, Transcription.FailedUpdate(error, now))])
  }

  /** The answer to an existing job, which makes no call at all. */
  function AlreadyReply(message: string, id: Value, status: Value): Outcome
  {
    Outcome(Response(200, map["message" := Str(message), "contentId" := id, "status" := status]), [])
  }

  /**
   * `handler`.  `error` stands for the text of an exception raised by a
   * service call or by Python itself, which the model does not spell out.
   */
  function Start(event: map<string, Value>, env: Env, clock: Clock, show: Value -> string, error: string): (r: Outcome)
    ensures r.response.statusCode in {200, 500}
    ensures r.response.statusCode == 500 ==> r.response.body == map["error" := Str(StartFailed)]
    ensures r.response.statusCode == 200 ==> "contentId" in r.response.body && r.response.body["contentId"] == Get(event, "contentId")
  {
    var id := Get(event, "contentId");
    var key := Get(event, "s3Key");
    var bucket := Get(event, "bucketName");
    if !(Truthy(id) && Truthy(key) && Truthy(bucket)) then
      Fail([], id, MissingMessage(id, key, bucket, show), clock.now)
    else
      match Decide(env.existing)
      case Raise => Fail([], id, error, clock.now)
      case AlreadyInProgress => AlreadyReply("Transcription already in progress", id, env.existing.value["status"])
      case AlreadyCompleted => AlreadyReply("Transcription already completed", id, env.existing.value["status"])
      case Proceed => Launch(id, key, bucket, env, clock, show, error)
  }

  /** The job-start update: status `PROCESSING`, with the job's name and start time. */
  function ProcessingUpdate(name: string, now: string): Transcription.StatusUpdate
  {
    Transcription.StatusUpdateOf("PROCESSING", now, [("jobName", Str(name)), ("startedAt", Str(now))])
  }

  /**
   * From writing the record to queueing the monitor message; any failing
   * call, or a key that is not a string, ends on the exception path.
   */
  function Launch(id: Value, key: Value, bucket: Value, env: Env, clock: Clock, show: Value -> string, error: string): (r: Outcome)
    ensures r.response.statusCode in {200, 500}
    ensures r.response.statusCode == 500 ==> r.response.body == map["error" := Str(StartFailed)]
    ensures r.response.statusCode == 200 ==> "contentId" in r.response.body && r.response.body["contentId"] == id
    ensures |r.actions| > 0 && r.actions[0] == PutRecord(NewRecord(id, key, bucket, clock.now))
  {
    var put := [PutRecord(NewRecord(id, key, bucket, clock.now))];
    if !env.putOk || !key.Str? then Fail(put, id, error, clock.now)
    else
      var name := JobName(id, clock.stamp, show);
      var start := put + [StartJob(name, MediaUri(bucket, key, show), Transcription.AudioFormat(key.s), bucket, OutputKey(id, show))];
      if !env.startOk then Fail(start, id, error, clock.now)
      else
        var update := start + [UpdateStatus(id, ProcessingUpdate(name, clock.now))];
        if !env.updateOk then Fail(update, id, error, clock.now)
        else
          var send := update + [SendMonitoring(MonitoringMessage(id, name, clock.now))];
          if !env.sendOk then Fail(send, id, error, clock.now)
          else Outcome(Response(200, map["message" := Str("Transcription started successfully"), "contentId" := id,
                                         "jobName" := Str(name), "status" := Str("PROCESSING")]), send)
  }

  /** A call that sets the record's status to `FAILED`. */
  predicate MarksFailed(a: Action)
  {
    a.UpdateStatus? && ":status" in a.update.values && a.update.values[":status"] == Str("FAILED")
  }

  /** A call that sets the record's status to `PROCESSING`. */
  predicate MarksProcessing(a: Action)
  {
    a.UpdateStatus? && ":status" in a.update.values && a.update.values[":status"] == Str("PROCESSING")
  }

  /** `Launch` answers 500 exactly when its last call marks the record `FAILED`. */
  lemma LaunchMarksFailed(id: Value, key: Value, bucket: Value, env: Env, clock: Clock, show: Value -> string, error: string)
    ensures var r := Launch(id, key, bucket, env, clock, show, error);
            r.response.statusCode == 500 <==> MarksFailed(r.actions[|r.actions| - 1])
  {
    FailedShape(error, clock.now);
    if key.Str? {
      ProcessingShape(JobName(id, clock.stamp, show), clock.now);
    }
  }

  /** The handler answers 500 exactly when its last call marks the record `FAILED`. */
  lemma FailureMarksFailed(event: map<string, Value>, env: Env, clock: Clock, show: Value -> string, error: string)
    ensures var r := Start(event, env, clock, show, error);
            r.response.statusCode == 500 <==> |r.actions| > 0 && MarksFailed(r.actions[|r.actions| - 1])
  {
    var id := Get(event, "contentId");
    var key := Get(event, "s3Key");
    var bucket := Get(event, "bucketName");
    if !(Truthy(id) && Truthy(key) && Truthy(bucket)) {
      FailEndsFailed([], id, MissingMessage(id, key, bucket, show), clock.now);
    } else {
      match Decide(env.existing)
      case Raise => FailEndsFailed([], id, error, clock.now);
      case Proceed => LaunchMarksFailed(id, key, bucket, env, clock, show, error);
      case _ =>
    }
  }

  /** The exception path answers 500 and its last call marks the record `FAILED`. */
  lemma FailEndsFailed(prior: seq<Action>, id: Value, error: string, now: string)
    ensures var r := Fail(prior, id, error, now);
            r.response.statusCode == 500 && |r.actions| > 0 && MarksFailed(r.actions[|r.actions| - 1])
  {
    FailedShape(error, now);
  }

  /** The failure update sets the status to `FAILED`. */
  lemma FailedShape(error: string, now: string)
    ensures ":status" in Transcription.FailedUpdate(error, now).values
    ensures Transcription.FailedUpdate(error, now).values[":status"] == Str("FAILED")
  {
    Transcription.FailedUpdateShape(error, now);
  }

  /** The job-start update sets the status to `PROCESSING` and records the job's name and start time. */
  lemma ProcessingShape(name: string, now: string)
    ensures var u := ProcessingUpdate(name, now);
            ":status" in u.values && u.values[":status"] == Str("PROCESSING")
            && ":" + "jobName" in u.values && u.values[":" + "jobName"] == Str(name)
            && ":" + "startedAt" in u.values && u.values[":" + "startedAt"] == Str(now)
  {
    var extra := [("jobName", Str(name)), ("startedAt", Str(now))];
    assert extra[0].0 == "jobName" && extra[1].0 == "startedAt" && "jobName" != "startedAt";
    Transcription.StatusBaseValues("PROCESSING", now, extra);
    Transcription.StatusExtraValues("PROCESSING", now, extra);
  }

  /** An event without a truthy id, key and bucket makes no call but the `FAILED` update, addressed to whatever id it has. */
  lemma MissingParametersFail(event: map<string, Value>, env: Env, clock: Clock, show: Value -> string, error: string)
    requires !Truthy(Get(event, "contentId")) || !Truthy(Get(event, "s3Key")) || !Truthy(Get(event, "bucketName"))
    ensures var r := Start(event, env, clock, show, error);
            r.response.statusCode == 500
            && r.actions == [UpdateStatus(Get(event, "contentId"),
                                          Transcription.FailedUpdate(MissingMessage(Get(event, "contentId"), Get(event, "s3Key"), Get(event, "bucketName"), show), clock.now))]
  {
  }

  /**
   * A job in progress or completed is never started again: the handler
   * answers 200 with the record's status and makes no call.
   */
  lemma NoDuplicateJob(event: map<string, Value>, env: Env, clock: Clock, show: Value -> string, error: string)
    requires Truthy(Get(event, "contentId")) && Truthy(Get(event, "s3Key")) && Truthy(Get(event, "bucketName"))
    requires env.existing.Some? && "status" in env.existing.value
    requires env.existing.value["status"] in {Str("PROCESSING"), Str("COMPLETED")}
    ensures var r := Start(event, env, clock, show, error);
            r.actions == [] && r.response.statusCode == 200
            && r.response.body["status"] == env.existing.value["status"]
            && r.response.body["contentId"] == Get(event, "contentId")
  {
  }

  /**
   * The job is started exactly when the parameters are present, the
   * existing record allows it, the key is a string and the record was
   * written; the handler succeeds exactly when every write succeeds too.
   */
  lemma StartedIff(event: map<string, Value>, env: Env, clock: Clock, show: Value -> string, error: string)
    ensures var r := Start(event, env, clock, show, error);
            var ready := Truthy(Get(event, "contentId")) && Truthy(Get(event, "s3Key")) && Truthy(Get(event, "bucketName"))
                         && Decide(env.existing) == Proceed && Get(event, "s3Key").Str? && env.putOk;
            (|r.actions| >= 2 && r.actions[1].StartJob? <==> ready)
            && ("jobName" in r.response.body <==> ready && env.startOk && env.updateOk && env.sendOk)
  {
    var id := Get(event, "contentId");
    var key := Get(event, "s3Key");
    var bucket := Get(event, "bucketName");
    if !(Truthy(id) && Truthy(key) && Truthy(bucket)) {
      FailHasNoJob([], id, MissingMessage(id, key, bucket, show), clock.now);
    } else {
      match Decide(env.existing)
      case Raise => FailHasNoJob([], id, error, clock.now);
      case AlreadyInProgress => AlreadyHasNoJob("Transcription already in progress", id, env.existing.value["status"]);
      case AlreadyCompleted => AlreadyHasNoJob("Transcription already completed", id, env.existing.value["status"]);
      case Proceed => LaunchStartedIff(id, key, bucket, env, clock, show, error);
    }
  }

  /** Within `Launch`: the job starts when the key is a string and the record was written, and all four calls must succeed. */
  lemma LaunchStartedIff(id: Value, key: Value, bucket: Value, env: Env, clock: Clock, show: Value -> string, error: string)
    ensures var r := Launch(id, key, bucket, env, clock, show, error);
            (|r.actions| >= 2 && r.actions[1].StartJob? <==> key.Str? && env.putOk)
            && ("jobName" in r.response.body <==> key.Str? && env.putOk && env.startOk && env.updateOk && env.sendOk)
  {
    var put := [PutRecord(NewRecord(id, key, bucket, clock.now))];
    if !env.putOk || !key.Str? {
      FailHasNoJob(put, id, error, clock.now);
    } else {
      var name := JobName(id, clock.stamp, show);
      var start := put + [StartJob(name, MediaUri(bucket, key, show), Transcription.AudioFormat(key.s), bucket, OutputKey(id, show))];
      var update := start + [UpdateStatus(id, ProcessingUpdate(name, clock.now))];
      var send := update + [SendMonitoring(MonitoringMessage(id, name, clock.now))];
      FailHasNoJob(start, id, error, clock.now);
      FailHasNoJob(update, id, error, clock.now);
      FailHasNoJob(send, id, error, clock.now);
    }
  }

  /** The exception path's answer names no job and keeps the calls made before it. */
  lemma FailHasNoJob(prior: seq<Action>, id: Value, error: string, now: string)
    ensures "jobName" !in Fail(prior, id, error, now).response.body
    ensures |prior| >= 2 ==> Fail(prior, id, error, now).actions[1] == prior[1]
    ensures |prior| < 2 ==> |Fail(prior, id, error, now).actions| < 2 || !Fail(prior, id, error, now).actions[1].StartJob?
  {
  }

  /** The answer to an existing job names no job. */
  lemma AlreadyHasNoJob(message: string, id: Value, status: Value)
    ensures "jobName" !in AlreadyReply(message, id, status).response.body
  {
  }

  /**
   * A successful start writes the record, starts the job, records it and
   * queues the monitor message, all under one job name built from the
   * content id, and reads the audio from the event's bucket and key.
   */
  lemma StartedCalls(event: map<string, Value>, env: Env, clock: Clock, show: Value -> string, error: string)
    requires "jobName" in Start(event, env, clock, show, error).response.body
    ensures var r := Start(event, env, clock, show, error);
            var id := Get(event, "contentId");
            var key := Get(event, "s3Key");
            var bucket := Get(event, "bucketName");
            var name := "transcription-" + Transcription.Show(id, show) + "-" + clock.stamp;
            r.response.statusCode == 200 && r.response.body["jobName"] == Str(name)
            && key.Str?
            && r.actions == [PutRecord(NewRecord(id, key, bucket, clock.now)),
                             StartJob(name, "s3://" + Transcription.Show(bucket, show) + "/" + key.s,
                                      Transcription.AudioFormat(key.s), bucket,
                                      "transcriptions/" + Transcription.Show(id, show) + "/result.json"),
                             UpdateStatus(id, ProcessingUpdate(name, clock.now)),
                             SendMonitoring(MonitoringMessage(id, name, clock.now))]
  {
    StartedIff(event, env, clock, show, error);
  }

  /**
   * The retry limit is not enforced here: a `FAILED` record whose count has
   * reached 3 is started again, and the new record resets the count to 0.
   */
  lemma ExhaustedRetriesRestart(event: map<string, Value>, env: Env, clock: Clock, show: Value -> string, error: string, count: int)
    requires Truthy(Get(event, "contentId")) && Truthy(Get(event, "s3Key")) && Truthy(Get(event, "bucketName"))
    requires env.existing.Some? && "status" in env.existing.value && env.existing.value["status"] == Str("FAILED")
    requires "retryCount" in env.existing.value && env.existing.value["retryCount"] == Int(count) && count >= 3
    ensures var r := Start(event, env, clock, show, error);
            |r.actions| > 0 && r.actions[0].PutRecord? && r.actions[0].record["retryCount"] == Int(0)
  {
    NewRecordFields(Get(event, "contentId"), Get(event, "s3Key"), Get(event, "bucketName"), clock.now);
  }
}
