# Speech-to-text pipeline: a Dafny model

This project models the server side of a small Laravel speech-to-text
application, together with the browser helper that builds the WAV files it
receives:

- The **ingest endpoint** takes an uploaded speech segment. It names it
  `speech_segment_<uuid>.<ext>` and stores it under
  `speech_segments/<Y/m/d/H>/`. It then creates a PENDING transcription record,
  queues one worker job and answers with a JSON result. Any exception becomes
  a 500 answer.
- The **worker job** (`ProcessAudioTranscription`) handles one record. It marks
  the record IN_PROGRESS and sends its file to the transcription provider. It
  then records SUCCESS with the text, or FAILED. It broadcasts an event at each
  step.
- The **resubmission job** (`ResubmitFailedTranscription`) does the same for a
  record that is FAILED. It is a unique job keyed by the record id.
- The **sweeper command** (`transcriptions:resubmit-failed`) reads the FAILED
  records in chunks of 100. It dispatches one resubmission job per record.
- The **repository** is the table of records, keyed by an auto-incremented id.
  It provides lookup, creation, partial update and two newest-first listings.
- The **status enum** has four cases. Each has a one-character code and a
  label, plus the "can be resubmitted" guard.
- The **WAV header writer** (`resources/js/helpers.js`) writes the 44-byte
  canonical header of a mono 16-bit PCM RIFF WAVE file.

## Layout

One Dafny module per source file. The framework services become values and
fields:

- `runtime.dfy` (`Runtime`) holds these as the class `Services`:
  - the public disk is a set of paths;
  - the queue is a sequence of jobs, plus the set of held unique-job locks;
  - everything else a job or the command does is one ordered trace of
    `Effect`s: each `update` of a row (`Write`), each event passed to
    `event()` (`Emit`), each file sent to the transcription provider (`Call`)
    and each log line (`Logged`). One trace keeps the order across these
    channels. For example, IN_PROGRESS is written and announced before the
    provider is called.
- The provider's answer is a parameter:
  `Outcome = Ok(text) | HttpError(status, body) | Exn(message)`.
- The generated UUID, the `Y/m/d/H` folder string and the clock are
  parameters of the ingest.
- Which ingest step throws is a parameter (`Fault`).

Each stateful operation is an imperative method:

- It changes a `Repository.AudioTranscriptionRepository` (fields `rows`,
  `nextId`) and the `Services` fields its `modifies` clause names.
- Its `ensures` ties the new state to a pure function of the old state:
  `ProcessRun`, `ResubmitRun`, `ForceFailedRun`, `SweepRun`, `IngestRun` or
  `HeaderBytes`.
- The properties are stated and proved about those functions. The job runs
  give their exact trace per branch. Lemmas then project the trace:
  `Emitted` gives the events in order, and `Replay` applies the updates in
  order. The lemmas show that the projected events follow the lifecycle and
  that the replayed updates give exactly the final table.

## Model

| member | source | states |
|---|---|---|
| TranscriptionStatus.Code | app/Enums/TranscriptionStatus.php:9-12 | every status is stored as one of the four codes `P`, `I`, `S`, `F` |
| TranscriptionStatus.Label | app/Enums/TranscriptionStatus.php:14-22 | every status has a non-empty label that begins with its code letter |
| TranscriptionStatus.FromCode | app/Enums/TranscriptionStatus.php:7-12 | a stored code maps back to a status exactly when it is one of `P`, `I`, `S`, `F`, and the status found has that code |
| TranscriptionStatus.CodeRoundTrip | app/Enums/TranscriptionStatus.php:9-12 | every status is recovered from its code |
| TranscriptionStatus.CodeInjective | app/Enums/TranscriptionStatus.php:9-12 | distinct statuses have distinct codes |
| TranscriptionStatus.LabelInjective | app/Enums/TranscriptionStatus.php:14-22 | distinct statuses have distinct labels |
| TranscriptionStatus.CanBeResubmitted | app/Enums/TranscriptionStatus.php:24-27 | true exactly for FAILED, i.e. exactly for code `F` |
| TranscriptionStatus.StatusOrDefault | database/migrations/2025_07_31_143200_add_status_to_audio_transcriptions_table.php:17-19 | a record created without a status is PENDING, otherwise it keeps the given status |
| Repository.Apply | app/Repositories/AudioTranscriptionRepository.php:67-70 | `update` writes exactly the keys present in the data; id, path, creation time and every absent key keep their values |
| Repository.NewestFirst | app/Repositories/AudioTranscriptionRepository.php:17-21 | the listing holds every row of the table exactly once, as stored, ordered by `created_at` descending (ties by id) |
| Repository.NewestFirstIsDescending | app/Repositories/AudioTranscriptionRepository.php:17-21 | a newest-first listing never increases in `created_at` |
| Repository.WithTranscription | app/Repositories/AudioTranscriptionRepository.php:28-33 | keeps exactly the rows whose transcription is not null |
| Repository.WithTranscriptionKeepsListing | app/Repositories/AudioTranscriptionRepository.php:28-33 | filtering keeps the rows stored, distinct and in newest-first order |
| Repository.AudioTranscriptionRepository.FindById | app/Repositories/AudioTranscriptionRepository.php:42-45 | the row with that id when there is one, null otherwise |
| Repository.AudioTranscriptionRepository.Create | app/Repositories/AudioTranscriptionRepository.php:54-57 | adds exactly one row under a fresh id with the given fields (status defaulting to PENDING); every other row is unchanged |
| Repository.AudioTranscriptionRepository.Update | app/Repositories/AudioTranscriptionRepository.php:67-70 | replaces the row by `Apply(row, data)`, reports success, and changes nothing else |
| Repository.AudioTranscriptionRepository.AllTranscriptions | app/Repositories/AudioTranscriptionRepository.php:17-21 | every row exactly once, as stored, `created_at` descending |
| Repository.AudioTranscriptionRepository.CompletedTranscriptions | app/Repositories/AudioTranscriptionRepository.php:28-33 | exactly the rows with a transcription, each once, `created_at` descending |
| Runtime.IntToStringReadsBack | app/Jobs/ProcessAudioTranscription.php:187 | the id in the not-found message is written as PHP writes an int: a `-` exactly when it is negative, then decimal digits without a leading zero that read back as its magnitude |
| Runtime.NatToStringReadsBack | app/Jobs/ProcessAudioTranscription.php:187 | a natural number is written as decimal digits only, without a leading zero, and reads back as itself |
| Attempt.FailureContext | app/Jobs/ProcessAudioTranscription.php:159-170 | the error-log context holds the id, plus the exception message, or the response status and body |
| Attempt.OutcomeRun | app/Jobs/ProcessAudioTranscription.php:126-171 | a successful answer is exactly one update setting the text and SUCCESS together, then Completed(id, text), then the info line; any other answer is one update to FAILED (transcription kept), then Failed(id), then the error line; no other row changes |
| Attempt.OutcomeReplays | app/Jobs/ProcessAudioTranscription.php:126-171 | the table after an answer is the one its single update produces |
| Attempt.OutcomeEvents | app/Jobs/ProcessAudioTranscription.php:137-140 | an answer fires exactly one event: Completed(id, text) for a success, Failed(id) otherwise |
| Attempt.ForceFailedRun | app/Jobs/ProcessAudioTranscription.php:90-111 | for an existing record, whatever its status, `failed()` is one update to FAILED, then Failed(id), then the error line with the exception message; an unknown id does nothing |
| Attempt.RecordOutcome | app/Jobs/ProcessAudioTranscription.php:66-80 | the store and the trace change as `OutcomeRun` says; the id counter is kept |
| Attempt.ForceFailed | app/Jobs/ProcessAudioTranscription.php:90-111 | the store and the trace change as `ForceFailedRun` says; the id counter is kept |
| ProcessAudioTranscription.ProcessRun | app/Jobs/ProcessAudioTranscription.php:45-81 | exact trace per branch. An unknown id is one error line and the not-found exception, with nothing updated. Otherwise the IN_PROGRESS update and its event come first, whatever the prior status. A missing file then logs and throws, leaving the record IN_PROGRESS with no provider call. Else one provider call follows, then the answer's single update, event and log line. No other row changes |
| ProcessAudioTranscription.WorkerEvents | app/Jobs/ProcessAudioTranscription.php:45-81 | the events of a worker run on an existing record are InProgress, then at most one of Completed or Failed; an unknown id fires none |
| ProcessAudioTranscription.WorkerReplays | app/Jobs/ProcessAudioTranscription.php:45-81 | the table after a worker run is what its updates produce, applied in trace order |
| ProcessAudioTranscription.ProcessAudioTranscriptionJob.Handle | app/Jobs/ProcessAudioTranscription.php:45-81 | the store, the trace and the thrown error are those of `ProcessRun`; the id counter is kept |
| ProcessAudioTranscription.ProcessAudioTranscriptionJob.Failed | app/Jobs/ProcessAudioTranscription.php:90-111 | the effect is `ForceFailedRun` with this job's log message; the id counter is kept |
| ProcessAudioTranscription.ProcessAudioTranscriptionJob.EnsureAudioFileExists | app/Jobs/ProcessAudioTranscription.php:118-124 | throws (and logs the path) exactly when the file is not on the disk |
| ProcessAudioTranscription.ProcessAudioTranscriptionJob.GetAudioTranscriptionRecord | app/Jobs/ProcessAudioTranscription.php:181-191 | returns the record when it exists; otherwise logs and throws not-found with the id in the message |
| ProcessAudioTranscription.ProcessAudioTranscriptionJob.HandleSuccess | app/Jobs/ProcessAudioTranscription.php:126-143 | the store and the trace change as `OutcomeRun` says for a successful answer; the id counter is kept |
| ProcessAudioTranscription.ProcessAudioTranscriptionJob.HandleError | app/Jobs/ProcessAudioTranscription.php:145-171 | the store and the trace change as `OutcomeRun` says for a failed answer or an exception; the id counter is kept |
| ResubmitFailedTranscription.ResubmitRun | app/Jobs/ResubmitFailedTranscription.php:59-164 | exact trace per branch. An unknown id, or a record that is not FAILED, is one log line and an exception, with nothing updated. A FAILED record first gets the IN_PROGRESS update and its event. A missing file then logs, updates back to FAILED and fires Failed(id), then throws without a provider call. Else one provider call follows, then the answer's single update, event and log line. The record is never left IN_PROGRESS |
| ResubmitFailedTranscription.ResubmitEvents | app/Jobs/ResubmitFailedTranscription.php:85-157 | resubmitting a FAILED record fires InProgress, then exactly one of Completed or Failed; any other record fires nothing |
| ResubmitFailedTranscription.ResubmitReplays | app/Jobs/ResubmitFailedTranscription.php:59-164 | the table after a resubmission is what its updates produce, applied in trace order |
| ResubmitFailedTranscription.DispatchUnique | app/Jobs/ResubmitFailedTranscription.php:25-41 | a job is queued only when no lock is held for its id, and queuing takes the lock |
| ResubmitFailedTranscription.DispatchTwiceQueuesOnce | app/Jobs/ResubmitFailedTranscription.php:25-41 | dispatching the same id twice queues at most one job |
| ResubmitFailedTranscription.ResubmitFailedTranscriptionJob.UniqueId | app/Jobs/ResubmitFailedTranscription.php:38-41 | the lock key is the record id, so `Dispatch` and `DispatchUnique` guard each record by its own lock |
| ResubmitFailedTranscription.ResubmitFailedTranscriptionJob.Handle | app/Jobs/ResubmitFailedTranscription.php:59-164 | the store, the trace and the thrown error are those of `ResubmitRun`; the id counter is kept |
| ResubmitFailedTranscription.ResubmitFailedTranscriptionJob.Retry | app/Jobs/ResubmitFailedTranscription.php:80-163 | for the job's FAILED record, the store, the trace and the thrown error are those of `ResubmitRun`; the id counter is kept |
| ResubmitFailedTranscription.ResubmitFailedTranscriptionJob.RestoreFailed | app/Jobs/ResubmitFailedTranscription.php:93-104 | a missing file is logged first, then the record is set back to FAILED in one update and Failed(id) is announced; nothing else in the store changes and the id counter is kept |
| ResubmitFailedTranscription.ResubmitFailedTranscriptionJob.Failed | app/Jobs/ResubmitFailedTranscription.php:173-194 | the effect is `ForceFailedRun` with this job's log message; the id counter is kept |
| ResubmitFailedTranscription.Dispatch | app/Console/Commands/ResubmitFailedTranscriptions.php:49 | the queue and locks change as `DispatchUnique` says |
| ResubmitFailedTranscriptions.AscendingIsListing | app/Console/Commands/ResubmitFailedTranscriptions.php:42-43 | the ids are listed each once, in increasing order, which is the primary-key order `chunk` reads them in |
| ResubmitFailedTranscriptions.FailedIdsListing | app/Console/Commands/ResubmitFailedTranscriptions.php:42-43 | the swept ids are exactly the FAILED records, each once, in increasing order |
| ResubmitFailedTranscriptions.Window | app/Console/Commands/ResubmitFailedTranscriptions.php:43 | a page holds at most `size` ids, namely the ids from its offset on |
| ResubmitFailedTranscriptions.FailedPage | app/Console/Commands/ResubmitFailedTranscriptions.php:42-43 | a page holds at most `size` records, all FAILED, in increasing id order; they are the ascending FAILED ids that follow the first `(p-1)*size`, and a short page holds the last of them |
| ResubmitFailedTranscriptions.DispatchAllAppend | app/Console/Commands/ResubmitFailedTranscriptions.php:43-51 | dispatching in chunks equals dispatching the whole list, so chunk boundaries do not matter |
| ResubmitFailedTranscriptions.DispatchAllDistinct | app/Console/Commands/ResubmitFailedTranscriptions.php:43-51 | dispatching distinct ids queues one job for every id not already locked, in order, and leaves all of them locked |
| ResubmitFailedTranscriptions.SweepAppendsFailedJobs | app/Console/Commands/ResubmitFailedTranscriptions.php:42-51 | with no lock held for a FAILED record, one run queues one job per FAILED record, in id order, and locks them all |
| ResubmitFailedTranscriptions.SweepJobsExactlyFailed | app/Console/Commands/ResubmitFailedTranscriptions.php:42-51 | the jobs of a sweep name exactly the FAILED records, with no duplicates |
| ResubmitFailedTranscriptions.SweepQueuesUnlockedFailed | app/Console/Commands/ResubmitFailedTranscriptions.php:42-51 | a FAILED record whose resubmission lock is free gets a job from the next sweep |
| ResubmitFailedTranscriptions.SweepWithoutFailedIsNoop | app/Console/Commands/ResubmitFailedTranscriptions.php:42-51 | with no FAILED record the queue is unchanged |
| ResubmitFailedTranscriptions.WorkerFailureIsSwept | app/Jobs/ProcessAudioTranscription.php:66-80 | after a worker attempt that reaches the provider, the record is swept next time exactly when the answer was not a success |
| ResubmitFailedTranscriptions.ResubmissionRetriesUntilSuccess | app/Jobs/ResubmitFailedTranscription.php:93-163 | a resubmission that fails, or finds no file, leaves the record among the FAILED ids later sweeps read; a successful one takes it out; a record that is not FAILED is never read |
| ResubmitFailedTranscriptions.ChunkFailed | app/Console/Commands/ResubmitFailedTranscriptions.php:42-51 | paging through the FAILED rows, whatever the page size, leaves the queue and locks as `SweepRun` says |
| ResubmitFailedTranscriptions.ChunkPage | app/Console/Commands/ResubmitFailedTranscriptions.php:43 | one page advances the dispatched prefix by the page's length; a short page ends the list |
| ResubmitFailedTranscriptions.DispatchChunk | app/Console/Commands/ResubmitFailedTranscriptions.php:45-50 | the callback dispatches the page's ids in order |
| ResubmitFailedTranscriptions.Handle | app/Console/Commands/ResubmitFailedTranscriptions.php:35-56 | logs the start line, sweeps (the queue and locks as `SweepRun` says), logs the end line, and returns SUCCESS |
| HandleSpeechSegment.SegmentFilename | app/Actions/HandleSpeechSegment.php:32 | the name is the prefix, then the UUID, a dot and the extension, at fixed positions |
| HandleSpeechSegment.StoredPath | app/Actions/HandleSpeechSegment.php:33-35 | the path is the segment directory, then the hourly folder, a slash and the file name |
| HandleSpeechSegment.SegmentPathInjective | app/Actions/HandleSpeechSegment.php:32-35 | for fixed-length UUIDs and folders, two segments share a path exactly when folder, UUID and extension agree |
| HandleSpeechSegment.IngestRun | app/Actions/HandleSpeechSegment.php:27-60 | the result is a success (status 200, with the id of a record that exists) exactly when no step throws, otherwise status 500 with no id; exactly one job is queued exactly on success, and nothing already queued changes |
| HandleSpeechSegment.IngestSuccess | app/Actions/HandleSpeechSegment.php:35-50 | on success the file is stored, exactly one record is added (fresh id, the stored path, PENDING, no transcription), and exactly one worker job for it is queued |
| HandleSpeechSegment.IngestFailure | app/Actions/HandleSpeechSegment.php:51-58 | after an exception the result is the generic failure and nothing is queued; the stored file stays when `create` throws, and the record stays without a job when the dispatch throws |
| HandleSpeechSegment.IngestKeepsBacking | app/Actions/HandleSpeechSegment.php:35-43 | every record's file is on disk and every queued job names a record, before and after any ingest |
| HandleSpeechSegment.Execute | app/Actions/HandleSpeechSegment.php:27-60 | the result, table, disk and queue are those of `IngestRun` |
| Controllers.StatusCode | app/Http/Controllers/HomeController.php:39 | the HTTP status is the result's `status` entry, or 200 when there is none |
| Controllers.ResponseBody | app/Http/Controllers/HomeController.php:40-42 | the body is the result without `status`, every other entry unchanged |
| Controllers.IngestResponse | app/Http/Controllers/HomeController.php:36-42 | a successful ingest answers 200 with success, message and id; a failed one answers 500 with `success: false` and the generic message |
| Controllers.HomeController.Index | app/Http/Controllers/HomeController.php:20-26 | the page lists every record exactly once, newest first |
| Controllers.HomeController.HandleSpeechSegment | app/Http/Controllers/HomeController.php:34-43 | runs the ingest and answers with `StatusCode` and `ResponseBody` of its result |
| WavHeader.StringBytes | resources/js/helpers.js:13-17 | one byte per character, its code modulo 256 |
| WavHeader.WriteString | resources/js/helpers.js:13-17 | byte `offset+i` becomes the byte of `s[i]`; every other byte is unchanged |
| WavHeader.SetUint16 | resources/js/helpers.js:52 | the two little-endian bytes of the value modulo 2^16 at the offset; every other byte is unchanged |
| WavHeader.SetUint32 | resources/js/helpers.js:46 | the four little-endian bytes of the value modulo 2^32 at the offset; every other byte is unchanged |
| WavHeader.Uint16RoundTrip | resources/js/helpers.js:52-57 | a 16-bit field reads back as its value modulo 2^16, so as itself when it fits |
| WavHeader.Uint16BytesRoundTrip | resources/js/helpers.js:52-57 | two bytes read and written back are unchanged |
| WavHeader.Uint32RoundTrip | resources/js/helpers.js:46 | a 32-bit field reads back as its value modulo 2^32, so as itself when it fits |
| WavHeader.Uint32BytesRoundTrip | resources/js/helpers.js:46 | four bytes read and written back are unchanged |
| WavHeader.SampleRateOrDefault | resources/js/helpers.js:38 | the sample rate defaults to 16000 |
| WavHeader.HeaderLayout | resources/js/helpers.js:43-61 | the tags `RIFF`, `WAVE`, `fmt `, `data` are at bytes 0, 8, 12, 36; the fields decode to RIFF size 36+2n, chunk size 16, format 1, 1 channel, the rate, byte rate 2*rate, block align 2, 16 bits and data size 2n (sizes modulo 2^32) |
| WavHeader.RiffSizeCoversData | resources/js/helpers.js:46-61 | while it fits in 32 bits, the RIFF size is the data size plus 36 |
| WavHeader.ByteRateIsTwiceSampleRate | resources/js/helpers.js:54-55 | while it fits in 32 bits, the byte rate is twice the sample rate |
| WavHeader.Float32ArrayToWav | resources/js/helpers.js:38-61 | a fresh buffer of 44+2n bytes; its first 44 bytes are `HeaderBytes(n, rate)`, the rate defaulting to 16000 |
| WavHeader.WriteRiffDescriptor | resources/js/helpers.js:44-47 | bytes 0-11 become the RIFF descriptor; later bytes are unchanged |
| WavHeader.WriteFmtChunk | resources/js/helpers.js:49-57 | bytes 12-35 become the `fmt ` chunk; earlier and later bytes are unchanged |
| WavHeader.WriteDataChunkHead | resources/js/helpers.js:59-61 | bytes 36-43 become the `data` chunk head; earlier and later bytes are unchanged |

## Left out

- The transcription provider call (app/Traits/SendAudioForTranscription.php) is an HTTP request to an outside service. Its answer is the `Outcome` parameter, and the model records which file was sent.
- Laravel's facades are reduced to what the pipeline observes:
  - Storage, the event dispatcher, Log and the queue become the `Services` fields.
  - Broadcasting of events to the browser is not modelled.
  - Console output of the command is not modelled. Its two `Log::info` lines are part of the trace; the console copies of them and the per-id "Dispatching resubmission job" console lines are not.
- The queue runtime is not modelled: running queued jobs, retries and the release of a unique-job lock when its job ends. `Dispatch` only takes the lock. A lock held by an earlier run therefore suppresses the dispatch for that id. `SweepQueuesUnlockedFailed` states what happens once the lock is free.
- `updated_at` and the other time stamps are not modelled, except `createdAt`, which orders the listings.
- Rows with equal `created_at` are ordered by id, highest first. SQL leaves their order unspecified.
- The `fillable` list of the model (app/Models/AudioTranscription.php) omits `status`. The model treats `status` as an ordinary column, as the jobs use it.
- `update` with a null transcription (clearing the column) is not modelled. `Patch` only sets values.
- Database, event or log failures inside a job attempt are not modelled. The source's `try` also covers `handleSuccess` and `handleError`, so such a failure would run the error branch after part of the success branch. The model lets only the provider call fail.
- A successful provider answer whose `text` is null or not a string is not modelled: `Outcome.Ok` always carries a string. Under strict types the worker would throw a `TypeError` when it calls `handleSuccess`. That is an `\Error`, which `catch (\Exception)` does not catch, so the record would stay IN_PROGRESS until `failed()` runs. The resubmission job would first write SUCCESS with a null transcription, then throw when it builds the completed event.
- Attempt.FailureContext: the `response` entry of the error line is the response body as one string. The source logs the decoded JSON (an array).
- The sweep reads each page with a fresh query at offset `(page-1)*size`. `ChunkFailed` assumes the table does not change during the sweep. A resubmission that finishes between two pages would take a FAILED row out of the query, shift the offsets and make the next page skip a row. This interleaving is not modelled.
- The UUID generator (app/Services/UuidGenerator.php) and the wall clock (`now()->format('Y/m/d/H')`) are parameters.
- `report($e)` in the ingest hands the exception to the framework's handler. It is not modelled.
- `storeAs` returning `false` without throwing is not modelled. A failing store is the `StoreThrows` fault.
- A synchronous queue driver, which would run the worker inside the dispatch, is not modelled.
- The order of keys in the JSON body is not modelled. The result is a map.
- Controllers.StatusCode: a `status` entry that is not an integer is treated as absent. PHP would pass it on to the response. `execute` never produces one.
- The validation of the upload request (`SpeechSegmentRequest`) and the request throttle are not part of this model.
- `floatTo16BitPCM` and the sample data of the WAV file are not modelled, nor the `Blob` construction. The samples are counted but not written, so the bytes after the header stay as allocated.
- WavHeader.WriteString: takes one byte per Dafny character. JavaScript's `charCodeAt` counts UTF-16 code units, so the two agree for characters of the Basic Multilingual Plane only. The header's tags are ASCII.
- WavHeader.WriteString, WavHeader.SetUint16, WavHeader.SetUint32: require the bytes to lie inside the buffer. `DataView` would throw a `RangeError` there, which the source never triggers.
- WavHeader.Float32ArrayToWav: the sample rate is an integer. A fractional rate, which `setUint32` would truncate, is not modelled.

## Where the code and its documentation disagree

The model follows the code in each case:

- The ingest does not undo earlier steps when a later one throws. A stored file stays when `create` throws. A created record stays without a worker job when the dispatch throws.
- The stored path includes the hourly folder `speech_segments/<Y/m/d/H>/`. The feature test at tests/Feature/Http/Controllers/HomeControllerTest.php:74-75 expects the file directly under `speech_segments/`.
- The worker throws on an unknown id and on a missing file. The unit tests at tests/Unit/Jobs/ProcessAudioTranscriptionTest.php:69-97 expect only log lines.
