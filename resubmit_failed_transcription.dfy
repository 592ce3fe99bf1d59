/**
 * The resubmission job (app/Jobs/ResubmitFailedTranscription.php): a unique
 * job, keyed by its record id, that makes one more attempt at a FAILED record.
 */
module ResubmitFailedTranscription {
  import opened Wrappers
  import opened TranscriptionStatus
  import opened Repository
  import opened Runtime
  import opened Attempt

  const ResubmitMessages: Messages :=
    Messages("Audio transcription resubmission completed successfully",
             "Failed to resubmit audio transcription",
             "Exception while resubmitting audio transcription")

  const FailedHandlerMessage: string := "Job failed while resubmitting audio transcription"

  /** The error line of an unknown id. */
  function NotFoundLine(id: int): LogLine
  {
    LogLine(Error, "Audio transcription not found for resubmission", map["id" := IntValue(id)])
  }

  /** The info line of a record that is not FAILED, with its stored status code. */
  function SkippedLine(id: int, status: Status): LogLine
  {
    LogLine(Info, "Skipping resubmission as transcription is not in failed state",
            map["id" := IntValue(id), "status" := StrValue([Code(status)])])
  }

  /** The error line of a missing file. */
  function MissingFileLine(path: string): LogLine
  {
    LogLine(Error, "Audio file not found for resubmission", map["path" := StrValue(path)])
  }

  /**
   * One run of `handle` for record `id`. An unknown id, and a record that is
   * not FAILED, log and throw before anything changes. A FAILED record is first
   * set IN_PROGRESS and that is announced; a missing file then logs, sets FAILED
   * again, announces the failure and throws, without calling the provider;
   * else the provider is called once and its answer recorded in one update,
   * one event and one log line. A run that starts never leaves the record
   * IN_PROGRESS.
   */
  function ResubmitRun(rows: map<int, Record>, blobs: set<string>, id: int, outcome: Outcome): (run: Run)
    requires KeyedById(rows)
    ensures KeyedById(run.rows) && OthersUnchanged(rows, run.rows, id)
    ensures id !in rows ==>
      && run.rows == rows && run.trace == [Logged(NotFoundLine(id))]
      && run.error == Some(AudioTranscriptionNotFound("Audio transcription not found for resubmission"))
    ensures id in rows && rows[id].status != Failed ==>
      && run.rows == rows && run.trace == [Logged(SkippedLine(id, rows[id].status))]
      && run.error == Some(AudioTranscriptionNotInFailedState("Audio transcription is not in a failed state"))
    ensures id in rows && rows[id].status == Failed ==>
      && run.rows[id].status != InProgress
      && run.rows[id].filePath == rows[id].filePath
    ensures id in rows && rows[id].status == Failed && rows[id].filePath !in blobs ==>
      && run.rows[id] == rows[id]
      && run.trace == Started(id) + [Logged(MissingFileLine(rows[id].filePath)),
                                     Write(id, StatusPatch(Failed)), Emit(TranscriptionFailed(id))]
      && run.error == Some(AudioFileNotFound("Audio file not found for resubmission"))
    ensures id in rows && rows[id].status == Failed && rows[id].filePath in blobs && outcome.Ok? ==>
      && run.rows[id] == rows[id].(status := Success, transcription := Some(outcome.text))
      && run.trace == Started(id) + [Call(rows[id].filePath), Write(id, SuccessPatch(outcome.text)),
                                     Emit(TranscriptionCompleted(id, outcome.text)),
                                     Logged(LogLine(Info, ResubmitMessages.completed, map["id" := IntValue(id)]))]
      && run.error == None
    ensures id in rows && rows[id].status == Failed && rows[id].filePath in blobs && !outcome.Ok? ==>
      && run.rows[id] == rows[id]
      && run.trace == Started(id) + [Call(rows[id].filePath), Write(id, StatusPatch(Failed)),
                                     Emit(TranscriptionFailed(id)), Logged(FailureLine(id, outcome, ResubmitMessages))]
      && run.error == None
  {
    if id !in rows then
      Run(rows, [Logged(NotFoundLine(id))],
          Some(AudioTranscriptionNotFound("Audio transcription not found for resubmission")))
    else if !CanBeResubmitted(rows[id].status) then
      Run(rows, [Logged(SkippedLine(id, rows[id].status))],
          Some(AudioTranscriptionNotInFailedState("Audio transcription is not in a failed state")))
    else
      RetryRun(rows, blobs, id, outcome)
  }

  /** `ResubmitRun` from the IN_PROGRESS update on, once the guards have passed. */
  function RetryRun(rows: map<int, Record>, blobs: set<string>, id: int, outcome: Outcome): Run
    requires KeyedById(rows) && id in rows
  {
    var started := rows[id := Apply(rows[id], StatusPatch(InProgress))];
    var path := rows[id].filePath;
    if path !in blobs then
      Run(started[id := Apply(started[id], StatusPatch(Failed))],
          Started(id) + ([Logged(MissingFileLine(path))] + [Write(id, StatusPatch(Failed)), Emit(TranscriptionFailed(id))]),
          Some(AudioFileNotFound("Audio file not found for resubmission")))
    else
      var answer := OutcomeRun(started, id, outcome, ResubmitMessages);
      Run(answer.rows, Started(id) + ([Call(path)] + answer.trace), None)
  }

  /**
   * The events of a resubmission of a FAILED record: in-progress first, then
   * exactly one of completed or failed; any other record fires none.
   */
  lemma ResubmitEvents(rows: map<int, Record>, blobs: set<string>, id: int, outcome: Outcome)
    requires KeyedById(rows)
    ensures var events := Emitted(ResubmitRun(rows, blobs, id, outcome).trace);
      && (id in rows && rows[id].status == Failed ==> AttemptTrace(id, events) && |events| == 2)
      && (id !in rows || rows[id].status != Failed ==> events == [])
  {
    var t := ResubmitRun(rows, blobs, id, outcome).trace;
    if id !in rows || rows[id].status != Failed {
      EmittedSteps(t[0], t[0], t[0]);
    } else if rows[id].filePath !in blobs {
      MissingFileEvents(rows, blobs, id, outcome);
    } else {
      AnsweredEvents(rows, blobs, id, outcome);
    }
  }

  lemma MissingFileEvents(rows: map<int, Record>, blobs: set<string>, id: int, outcome: Outcome)
    requires KeyedById(rows) && id in rows && rows[id].status == Failed && rows[id].filePath !in blobs
    ensures Emitted(ResubmitRun(rows, blobs, id, outcome).trace) == [TranscriptionInProgress(id), TranscriptionFailed(id)]
  {
    var started := rows[id := Apply(rows[id], StatusPatch(InProgress))];
    var path := rows[id].filePath;
    var tail := [Write(id, StatusPatch(Failed)), Emit(TranscriptionFailed(id))];
    assert ResubmitRun(rows, blobs, id, outcome).trace == Started(id) + ([Logged(MissingFileLine(path))] + tail);
    StartedSteps(rows, id, [Logged(MissingFileLine(path))] + tail);
    QuietStep(started, Logged(MissingFileLine(path)), tail);
    EmittedSteps(tail[0], tail[1], tail[1]);
  }

  lemma AnsweredEvents(rows: map<int, Record>, blobs: set<string>, id: int, outcome: Outcome)
    requires KeyedById(rows) && id in rows && rows[id].status == Failed && rows[id].filePath in blobs
    ensures Emitted(ResubmitRun(rows, blobs, id, outcome).trace)
         == [TranscriptionInProgress(id)] + if outcome.Ok? then [TranscriptionCompleted(id, outcome.text)] else [TranscriptionFailed(id)]
  {
    var started := rows[id := Apply(rows[id], StatusPatch(InProgress))];
    var path := rows[id].filePath;
    var answer := OutcomeRun(started, id, outcome, ResubmitMessages);
    assert ResubmitRun(rows, blobs, id, outcome).trace == Started(id) + ([Call(path)] + answer.trace);
    StartedSteps(rows, id, [Call(path)] + answer.trace);
    QuietStep(started, Call(path), answer.trace);
    OutcomeEvents(started, id, outcome, ResubmitMessages);
  }

  /** The table a resubmission leaves is the one its updates produce, in the order the trace lists them. */
  lemma ResubmitReplays(rows: map<int, Record>, blobs: set<string>, id: int, outcome: Outcome)
    requires KeyedById(rows)
    ensures var run := ResubmitRun(rows, blobs, id, outcome);
      run.rows == Replay(rows, run.trace)
  {
    var run := ResubmitRun(rows, blobs, id, outcome);
    if id !in rows || rows[id].status != Failed {
      ReplayOne(rows, run.trace[0]);
    } else {
      RetryReplays(rows, blobs, id, outcome);
    }
  }

  lemma RetryReplays(rows: map<int, Record>, blobs: set<string>, id: int, outcome: Outcome)
    requires KeyedById(rows) && id in rows
    ensures var run := RetryRun(rows, blobs, id, outcome);
      run.rows == Replay(rows, run.trace)
  {
    var started := rows[id := Apply(rows[id], StatusPatch(InProgress))];
    var path := rows[id].filePath;
    if path !in blobs {
      var tail := [Write(id, StatusPatch(Failed)), Emit(TranscriptionFailed(id))];
      StartedSteps(rows, id, [Logged(MissingFileLine(path))] + tail);
      QuietStep(started, Logged(MissingFileLine(path)), tail);
      assert tail == [tail[0]] + [tail[1]];
      ReplayAppend(started, [tail[0]], [tail[1]]);
      ReplayOne(started, tail[0]);
      ReplayOne(started[id := Apply(started[id], StatusPatch(Failed))], tail[1]);
    } else {
      var answer := OutcomeRun(started, id, outcome, ResubmitMessages);
      StartedSteps(rows, id, [Call(path)] + answer.trace);
      QuietStep(started, Call(path), answer.trace);
      OutcomeReplays(started, id, outcome, ResubmitMessages);
    }
  }

  /** The queue and the unique-job locks held for resubmission jobs. */
  datatype QueueState = QueueState(jobs: seq<Job>, held: set<int>)

  /**
   * `ResubmitFailedTranscription::dispatch(id)`: the job is pushed only when no
   * lock is held for its unique id, and pushing takes the lock.
   */
  function DispatchUnique(q: QueueState, id: int): (r: QueueState)
    ensures id in r.held && q.held <= r.held
    ensures id in q.held ==> r == q
    ensures id !in q.held ==> r.jobs == q.jobs + [ResubmitJob(id)] && r.held == q.held + {id}
  {
    if id in q.held then q else QueueState(q.jobs + [ResubmitJob(id)], q.held + {id})
  }

  /** Dispatching the same id twice queues what dispatching it once does: at most one job per id while its lock is held. */
  lemma DispatchTwiceQueuesOnce(q: QueueState, id: int)
    ensures DispatchUnique(DispatchUnique(q, id), id) == DispatchUnique(q, id)
    ensures |DispatchUnique(q, id).jobs| <= |q.jobs| + 1
  {
  }

  class ResubmitFailedTranscriptionJob {
    const audioTranscriptionId: int

    constructor (id: int)
      ensures audioTranscriptionId == id
    {
      audioTranscriptionId := id;
    }

    /** `uniqueId`: the key of the job's unique lock is the record id, so one lock guards each record. */
    function UniqueId(): (key: int)
      ensures key == audioTranscriptionId
    {
      audioTranscriptionId
    }

    /** `handle`: one resubmission attempt, with the effect `ResubmitRun` describes; the id counter is not touched. */
    method Handle(repo: AudioTranscriptionRepository, env: Services, outcome: Outcome) returns (error: Option<JobError>)
      requires repo.Valid()
      modifies repo, env`trace
      ensures repo.Valid() && repo.nextId == old(repo.nextId)
      ensures var run := ResubmitRun(old(repo.rows), env.blobs, audioTranscriptionId, outcome);
        repo.rows == run.rows && env.trace == old(env.trace) + run.trace && error == run.error
    {
      var id := audioTranscriptionId;
      var found := repo.FindById(id);
      if found.None? {
        env.trace := env.trace + [Logged(NotFoundLine(id))];
        return Some(AudioTranscriptionNotFound("Audio transcription not found for resubmission"));
      }
      var r := found.value;
      if !CanBeResubmitted(r.status) {
        env.trace := env.trace + [Logged(SkippedLine(id, r.status))];
        return Some(AudioTranscriptionNotInFailedState("Audio transcription is not in a failed state"));
      }
      error := Retry(repo, env, r, outcome);
    }

    /** The part of `handle` after the guards, for the job's FAILED record, as `RetryRun` describes. */
    method Retry(repo: AudioTranscriptionRepository, env: Services, r: Record, outcome: Outcome) returns (error: Option<JobError>)
      requires repo.Valid() && r.id == audioTranscriptionId && r.id in repo.rows && repo.rows[r.id] == r && r.status == Status.Failed
      modifies repo, env`trace
      ensures repo.Valid() && repo.nextId == old(repo.nextId)
      ensures var run := RetryRun(old(repo.rows), env.blobs, r.id, outcome);
        repo.rows == run.rows && env.trace == old(env.trace) + run.trace && error == run.error
    {
      var id := r.id;
      var _ := repo.Update(r, StatusPatch(InProgress));
      env.trace := env.trace + Started(id);

      if r.filePath !in env.blobs {
        RestoreFailed(repo, env, r);
        return Some(AudioFileNotFound("Audio file not found for resubmission"));
      }
      env.trace := env.trace + [Call(r.filePath)];
      RecordOutcome(repo, env, r, outcome, ResubmitMessages);
      error := None;
    }

    /** The missing-file branch of `handle`: log the path, put the record back to FAILED, announce it. */
    method RestoreFailed(repo: AudioTranscriptionRepository, env: Services, r: Record)
      requires repo.Valid() && r.id in repo.rows
      modifies repo, env`trace
      ensures repo.Valid() && repo.nextId == old(repo.nextId)
      ensures repo.rows == old(repo.rows)[r.id := Apply(old(repo.rows)[r.id], StatusPatch(Status.Failed))]
      ensures env.trace == old(env.trace) + ([Logged(MissingFileLine(r.filePath))]
                                             + [Write(r.id, StatusPatch(Status.Failed)), Emit(TranscriptionFailed(r.id))])
    {
      env.trace := env.trace + [Logged(MissingFileLine(r.filePath))];
      var _ := repo.Update(r, StatusPatch(Status.Failed));
      env.trace := env.trace + [Write(r.id, StatusPatch(Status.Failed)), Emit(TranscriptionFailed(r.id))];
    }

    /** `failed()`: forces FAILED and announces it when the record exists; does nothing otherwise. */
    method Failed(repo: AudioTranscriptionRepository, env: Services, exceptionMessage: string)
      requires repo.Valid()
      modifies repo, env`trace
      ensures repo.Valid() && repo.nextId == old(repo.nextId)
      ensures var run := ForceFailedRun(old(repo.rows), audioTranscriptionId, FailedHandlerMessage, exceptionMessage);
        repo.rows == run.rows && env.trace == old(env.trace) + run.trace
    {
      ForceFailed(repo, env, audioTranscriptionId, FailedHandlerMessage, exceptionMessage);
    }
  }

  /** Dispatches a resubmission job for `id` onto the queue, as `DispatchUnique` describes. */
  method Dispatch(env: Services, id: int)
    modifies env`queue, env`held
    ensures QueueState(env.queue, env.held) == DispatchUnique(QueueState(old(env.queue), old(env.held)), id)
  {
    var job := new ResubmitFailedTranscriptionJob(id);
    var key := job.UniqueId();
    if key !in env.held {
      env.queue := env.queue + [ResubmitJob(job.audioTranscriptionId)];
      env.held := env.held + {key};
    }
  }
}
