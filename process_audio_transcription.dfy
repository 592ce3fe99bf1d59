/**
 * The transcription worker (app/Jobs/ProcessAudioTranscription.php): one
 * attempt at transcribing the audio of one record.
 */
module ProcessAudioTranscription {
  import opened Wrappers
  import opened TranscriptionStatus
  import opened Repository
  import opened Runtime
  import opened Attempt

  const WorkerMessages: Messages :=
    Messages("Audio transcription completed", "Failed to transcribe audio", "Exception while transcribing audio")

  const FailedHandlerMessage: string := "Job failed while processing audio transcription"

  /** The error line of an unknown id. */
  function NotFoundLine(id: int): LogLine
  {
    LogLine(Error, "Audio transcription not found", map["id" := IntValue(id)])
  }

  /** The error line of a missing file. */
  function MissingFileLine(path: string): LogLine
  {
    LogLine(Error, "Audio file not found", map["path" := StrValue(path)])
  }

  /**
   * One run of `handle` for record `id`, given the files on disk and the
   * provider's answer. An unknown id logs and throws before anything changes.
   * Otherwise the record is first set IN_PROGRESS (whatever its status was) and
   * that is announced; a missing file then logs and throws, with the record
   * left IN_PROGRESS and the provider not called; else the provider is called
   * once, and its answer is recorded in one update, one event and one log line.
   */
  function ProcessRun(rows: map<int, Record>, blobs: set<string>, id: int, outcome: Outcome): (run: Run)
    requires KeyedById(rows)
    ensures KeyedById(run.rows) && OthersUnchanged(rows, run.rows, id)
    ensures id !in rows ==>
      && run.rows == rows
      && run.trace == [Logged(NotFoundLine(id))]
      && run.error == Some(AudioTranscriptionNotFound("Audio transcription not found with ID: " + IntToString(id)))
    ensures id in rows && rows[id].filePath !in blobs ==>
      && run.rows[id] == rows[id].(status := InProgress)
      && run.trace == Started(id) + [Logged(MissingFileLine(rows[id].filePath))]
      && run.error == Some(AudioTranscriptionNotFound("Audio file not found at path: " + rows[id].filePath))
    ensures id in rows && rows[id].filePath in blobs && outcome.Ok? ==>
      && run.rows[id] == rows[id].(status := Success, transcription := Some(outcome.text))
      && run.trace == Started(id) + [Call(rows[id].filePath), Write(id, SuccessPatch(outcome.text)),
                                     Emit(TranscriptionCompleted(id, outcome.text)),
                                     Logged(LogLine(Info, WorkerMessages.completed, map["id" := IntValue(id)]))]
      && run.error == None
    ensures id in rows && rows[id].filePath in blobs && !outcome.Ok? ==>
      && run.rows[id] == rows[id].(status := Failed)
      && run.trace == Started(id) + [Call(rows[id].filePath), Write(id, StatusPatch(Failed)),
                                     Emit(TranscriptionFailed(id)), Logged(FailureLine(id, outcome, WorkerMessages))]
      && run.error == None
  {
    if id !in rows then
      Run(rows, [Logged(NotFoundLine(id))],
          Some(AudioTranscriptionNotFound("Audio transcription not found with ID: " + IntToString(id))))
    else
      var started := rows[id := Apply(rows[id], StatusPatch(InProgress))];
      var path := rows[id].filePath;
      if path !in blobs then
        Run(started, Started(id) + [Logged(MissingFileLine(path))],
            Some(AudioTranscriptionNotFound("Audio file not found at path: " + path)))
      else
        var answer := OutcomeRun(started, id, outcome, WorkerMessages);
        Run(answer.rows, Started(id) + ([Call(path)] + answer.trace), None)
  }

  /**
   * The events of a worker run on an existing record: in-progress first, then
   * at most one of completed or failed; an unknown id fires none.
   */
  lemma WorkerEvents(rows: map<int, Record>, blobs: set<string>, id: int, outcome: Outcome)
    requires KeyedById(rows)
    ensures var events := Emitted(ProcessRun(rows, blobs, id, outcome).trace);
      && (id in rows ==> AttemptTrace(id, events))
      && (id !in rows ==> events == [])
  {
    var run := ProcessRun(rows, blobs, id, outcome);
    if id !in rows {
      EmittedSteps(run.trace[0], run.trace[0], run.trace[0]);
    } else {
      var started := rows[id := Apply(rows[id], StatusPatch(InProgress))];
      var path := rows[id].filePath;
      if path !in blobs {
        StartedSteps(rows, id, [Logged(MissingFileLine(path))]);
        EmittedSteps(Logged(MissingFileLine(path)), Call(path), Call(path));
      } else {
        var answer := OutcomeRun(started, id, outcome, WorkerMessages);
        StartedSteps(rows, id, [Call(path)] + answer.trace);
        QuietStep(started, Call(path), answer.trace);
        OutcomeEvents(started, id, outcome, WorkerMessages);
      }
    }
  }

  /** The table a worker run leaves is the one its updates produce, in the order the trace lists them. */
  lemma WorkerReplays(rows: map<int, Record>, blobs: set<string>, id: int, outcome: Outcome)
    requires KeyedById(rows)
    ensures var run := ProcessRun(rows, blobs, id, outcome);
      run.rows == Replay(rows, run.trace)
  {
    var run := ProcessRun(rows, blobs, id, outcome);
    if id !in rows {
      ReplayOne(rows, run.trace[0]);
    } else {
      var started := rows[id := Apply(rows[id], StatusPatch(InProgress))];
      var path := rows[id].filePath;
      if path !in blobs {
        StartedSteps(rows, id, [Logged(MissingFileLine(path))]);
        ReplayOne(started, Logged(MissingFileLine(path)));
      } else {
        var answer := OutcomeRun(started, id, outcome, WorkerMessages);
        StartedSteps(rows, id, [Call(path)] + answer.trace);
        QuietStep(started, Call(path), answer.trace);
        OutcomeReplays(started, id, outcome, WorkerMessages);
      }
    }
  }

  class ProcessAudioTranscriptionJob {
    const audioTranscriptionId: int
    var audioTranscriptionRepository: AudioTranscriptionRepository?

    constructor (id: int)
      ensures audioTranscriptionId == id && audioTranscriptionRepository == null
    {
      audioTranscriptionId := id;
      audioTranscriptionRepository := null;
    }

    /** `handle`: one attempt, with the effect `ProcessRun` describes; the disk, the queue and the id counter are not touched. */
    method Handle(repo: AudioTranscriptionRepository, env: Services, outcome: Outcome) returns (error: Option<JobError>)
      requires repo.Valid()
      modifies this, repo, env`trace
      ensures repo.Valid() && repo.nextId == old(repo.nextId) && audioTranscriptionRepository == repo
      ensures var run := ProcessRun(old(repo.rows), env.blobs, audioTranscriptionId, outcome);
        repo.rows == run.rows && env.trace == old(env.trace) + run.trace && error == run.error
    {
      audioTranscriptionRepository := repo;
      var record;
      record, error := GetAudioTranscriptionRecord(env);
      if record.None? {
        return;
      }
      var r := record.value;
      var _ := repo.Update(r, StatusPatch(InProgress));
      env.trace := env.trace + Started(audioTranscriptionId);

      error := EnsureAudioFileExists(env, r.filePath);
      if error.Some? {
        return;
      }
      env.trace := env.trace + [Call(r.filePath)];
      if outcome.Ok? {
        HandleSuccess(env, r, outcome.text);
      } else {
        // a non-2xx answer and an exception thrown inside the call differ only in the log message
        HandleError(env, r, if outcome.Exn? then WorkerMessages.exception else WorkerMessages.providerFailed, outcome);
      }
    }

    /** `failed()`: forces FAILED and announces it when the record exists; does nothing otherwise. */
    method Failed(repo: AudioTranscriptionRepository, env: Services, exceptionMessage: string)
      requires repo.Valid()
      modifies repo, env`trace
      ensures repo.Valid() && repo.nextId == old(repo.nextId)
      ensures var run := ForceFailedRun(old(repo.rows), audioTranscriptionId, FailedHandlerMessage, exceptionMessage);
        repo.rows == run.rows && env.trace == old(env.trace) + run.trace
    {
      ForceFailed(repo, env, audioTranscriptionId, FailedHandlerMessage, exceptionMessage);
    }

    /** `ensureAudioFileExists`: logs and throws when the file is not on the disk. */
    method EnsureAudioFileExists(env: Services, filePath: string) returns (error: Option<JobError>)
      modifies env`trace
      ensures error.None? <==> filePath in env.blobs
      ensures error.None? ==> env.trace == old(env.trace)
      ensures error.Some? ==> error.value == AudioTranscriptionNotFound("Audio file not found at path: " + filePath)
      ensures error.Some? ==> env.trace == old(env.trace) + [Logged(MissingFileLine(filePath))]
    {
      if filePath !in env.blobs {
        env.trace := env.trace + [Logged(MissingFileLine(filePath))];
        return Some(AudioTranscriptionNotFound("Audio file not found at path: " + filePath));
      }
      return None;
    }

    /** `getAudioTranscriptionRecord`: the job's record, or a logged not-found exception. */
    method GetAudioTranscriptionRecord(env: Services) returns (record: Option<Record>, error: Option<JobError>)
      requires audioTranscriptionRepository != null && audioTranscriptionRepository.Valid()
      modifies env`trace
      ensures record == audioTranscriptionRepository.FindById(audioTranscriptionId)
      ensures record.None? <==> error.Some?
      ensures record.Some? ==> env.trace == old(env.trace)
      ensures record.None? ==> error.value == AudioTranscriptionNotFound("Audio transcription not found with ID: " + IntToString(audioTranscriptionId))
      ensures record.None? ==> env.trace == old(env.trace) + [Logged(NotFoundLine(audioTranscriptionId))]
    {
      record := audioTranscriptionRepository.FindById(audioTranscriptionId);
      error := None;
      if record.None? {
        env.trace := env.trace + [Logged(NotFoundLine(audioTranscriptionId))];
        error := Some(AudioTranscriptionNotFound("Audio transcription not found with ID: " + IntToString(audioTranscriptionId)));
      }
    }

    /** `handleSuccess`: text and SUCCESS in one update, then the completed event and an info line. */
    method HandleSuccess(env: Services, r: Record, text: string)
      requires audioTranscriptionRepository != null && audioTranscriptionRepository.Valid()
      requires r.id == audioTranscriptionId && r.id in audioTranscriptionRepository.rows
      modifies audioTranscriptionRepository, env`trace
      ensures audioTranscriptionRepository.Valid() && audioTranscriptionRepository.nextId == old(audioTranscriptionRepository.nextId)
      ensures var run := OutcomeRun(old(audioTranscriptionRepository.rows), r.id, Ok(text), WorkerMessages);
        audioTranscriptionRepository.rows == run.rows && env.trace == old(env.trace) + run.trace
    {
      var _ := audioTranscriptionRepository.Update(r, SuccessPatch(text));
      env.trace := env.trace + [Write(audioTranscriptionId, SuccessPatch(text)),
                                Emit(TranscriptionCompleted(audioTranscriptionId, text)),
                                Logged(LogLine(Info, WorkerMessages.completed, map["id" := IntValue(audioTranscriptionId)]))];
    }

    /** `handleError`: FAILED, the failed event, and an error line whose context carries the response or the exception. */
    method HandleError(env: Services, r: Record, errorLogMessage: string, outcome: Outcome)
      requires audioTranscriptionRepository != null && audioTranscriptionRepository.Valid()
      requires r.id == audioTranscriptionId && r.id in audioTranscriptionRepository.rows
      requires !outcome.Ok?
      requires errorLogMessage == (if outcome.Exn? then WorkerMessages.exception else WorkerMessages.providerFailed)
      modifies audioTranscriptionRepository, env`trace
      ensures audioTranscriptionRepository.Valid() && audioTranscriptionRepository.nextId == old(audioTranscriptionRepository.nextId)
      ensures var run := OutcomeRun(old(audioTranscriptionRepository.rows), r.id, outcome, WorkerMessages);
        audioTranscriptionRepository.rows == run.rows && env.trace == old(env.trace) + run.trace
    {
      var _ := audioTranscriptionRepository.Update(r, StatusPatch(Status.Failed));
      env.trace := env.trace + [Write(audioTranscriptionId, StatusPatch(Status.Failed)),
                                Emit(TranscriptionFailed(audioTranscriptionId)),
                                Logged(LogLine(Error, errorLogMessage, FailureContext(audioTranscriptionId, outcome)))];
    }
  }
}
