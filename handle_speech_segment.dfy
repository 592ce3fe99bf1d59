/**
 * The ingest action (app/Actions/HandleSpeechSegment.php): names and stores the
 * uploaded segment, creates a PENDING record for it, queues one worker job, and
 * answers with a result array; any exception turns into the generic 500 result.
 */
module HandleSpeechSegment {
  import opened Wrappers
  import opened TranscriptionStatus
  import opened Repository
  import opened Runtime

  /** A value of the result array (`array<string, string|int|bool>`). */
  datatype Value = BoolVal(b: bool) | StrVal(s: string) | IntVal(i: int)

  type ResultMap = map<string, Value>

  /**
   * The step of `execute` that throws, if any: writing the file to the disk,
   * creating the record, or pushing the job onto the queue.
   */
  datatype Fault = NoFault | StoreThrows | CreateThrows | DispatchThrows

  const SuccessMessage: string := "Speech segment received successfully"
  const ErrorMessage: string := "An error occurred while processing speech segment."
  const FilenamePrefix: string := "speech_segment_"
  const SegmentDirectory: string := "speech_segments/"

  /** The stored file name: prefix, the generated UUID, a dot, the client's extension. */
  function SegmentFilename(uuid: string, extension: string): (name: string)
    ensures |name| == |FilenamePrefix| + |uuid| + 1 + |extension|
    ensures name[..|FilenamePrefix|] == FilenamePrefix
    ensures name[|FilenamePrefix| .. |FilenamePrefix| + |uuid|] == uuid
    ensures name[|FilenamePrefix| + |uuid|] == '.'
    ensures name[|name| - |extension| ..] == extension
  {
    FilenamePrefix + uuid + "." + extension
  }

  /** Where `storeAs` puts the file: the segment directory, the hourly folder, the file name. */
  function StoredPath(folder: string, filename: string): (path: string)
    ensures |path| == |SegmentDirectory| + |folder| + 1 + |filename|
    ensures path[..|SegmentDirectory|] == SegmentDirectory
    ensures path[|SegmentDirectory| .. |SegmentDirectory| + |folder|] == folder
    ensures path[|SegmentDirectory| + |folder|] == '/'
    ensures path[|path| - |filename| ..] == filename
  {
    SegmentDirectory + folder + "/" + filename
  }

  /** The path of the segment with this UUID and extension, stored in `folder`. */
  function SegmentPath(folder: string, uuid: string, extension: string): string
  {
    StoredPath(folder, SegmentFilename(uuid, extension))
  }

  /**
   * UUIDs and `Y/m/d/H` folders have a fixed length, so two segments land on the
   * same path exactly when folder, UUID and extension all agree: a fresh UUID
   * never overwrites an earlier segment.
   */
  lemma {:induction false} SegmentPathInjective(f1: string, u1: string, e1: string, f2: string, u2: string, e2: string)
    requires |f1| == |f2| && |u1| == |u2|
    ensures SegmentPath(f1, u1, e1) == SegmentPath(f2, u2, e2) <==> f1 == f2 && u1 == u2 && e1 == e2
  {
    var n1 := SegmentFilename(u1, e1);
    var n2 := SegmentFilename(u2, e2);
    var p1 := StoredPath(f1, n1);
    var p2 := StoredPath(f2, n2);
    if p1 == p2 {
      assert f1 == p1[|SegmentDirectory| .. |SegmentDirectory| + |f1|] == f2;
      assert |n1| == |n2|;
      assert n1 == p1[|p1| - |n1| ..] == n2;
      assert u1 == n1[|FilenamePrefix| .. |FilenamePrefix| + |u1|] == u2;
      assert e1 == n1[|n1| - |e1| ..] == e2;
    }
  }

  /** The result array of a successful run. */
  function SuccessResult(id: int): ResultMap
  {
    map["success" := BoolVal(true), "message" := StrVal(SuccessMessage), "id" := IntVal(id), "status" := IntVal(200)]
  }

  /** The result array after an exception. */
  function FailureResult(): ResultMap
  {
    map["success" := BoolVal(false), "message" := StrVal(ErrorMessage), "status" := IntVal(500)]
  }

  /** What one call of `execute` leaves behind: the records, the id counter, the disk, the queue, and its result. */
  datatype Ingest = Ingest(rows: map<int, Record>, nextId: int, blobs: set<string>, queue: seq<Job>, result: ResultMap)

  /**
   * `execute` on the given state. The steps run in order and the first that
   * throws stops the rest, so what it had already done stays done.
   */
  function IngestRun(rows: map<int, Record>, nextId: int, blobs: set<string>, queue: seq<Job>,
                     uuid: string, extension: string, folder: string, now: int, fault: Fault): (run: Ingest)
    ensures "success" in run.result && "message" in run.result && "status" in run.result
    ensures run.result["success"] == BoolVal(true) <==> fault == NoFault
    ensures run.result["status"] == IntVal(200) <==> fault == NoFault
    ensures run.result["status"] == IntVal(500) <==> fault != NoFault
    ensures "id" in run.result <==> fault == NoFault
    ensures fault == NoFault ==> run.result["id"] == IntVal(nextId) && nextId in run.rows
    ensures |queue| <= |run.queue| <= |queue| + 1 && run.queue[..|queue|] == queue
    ensures |run.queue| == |queue| + 1 <==> fault == NoFault
  {
    var path := SegmentPath(folder, uuid, extension);
    var record := Record(nextId, path, None, Pending, now);
    match fault
    case StoreThrows => Ingest(rows, nextId, blobs, queue, FailureResult())
    case CreateThrows => Ingest(rows, nextId, blobs + {path}, queue, FailureResult())
    case DispatchThrows => Ingest(rows[nextId := record], nextId + 1, blobs + {path}, queue, FailureResult())
    case NoFault => Ingest(rows[nextId := record], nextId + 1, blobs + {path}, queue + [ProcessJob(nextId)], SuccessResult(nextId))
  }

  /**
   * A successful ingest writes the file, adds exactly one record (fresh id,
   * the stored path, PENDING, no transcription) and queues exactly one worker
   * job for it; nothing else changes.
   */
  lemma IngestSuccess(rows: map<int, Record>, nextId: int, blobs: set<string>, queue: seq<Job>,
                      uuid: string, extension: string, folder: string, now: int)
    requires nextId !in rows
    ensures var run := IngestRun(rows, nextId, blobs, queue, uuid, extension, folder, now, NoFault);
      var path := SegmentPath(folder, uuid, extension);
      && run.blobs == blobs + {path}
      && run.rows.Keys == rows.Keys + {nextId} && |run.rows| == |rows| + 1
      && (forall k :: k in rows ==> run.rows[k] == rows[k])
      && run.rows[nextId].filePath == path
      && run.rows[nextId].status == Pending && run.rows[nextId].transcription.None?
      && run.queue == queue + [ProcessJob(nextId)]
      && run.result == SuccessResult(nextId)
  {
  }

  /**
   * After an exception the result is the generic failure with no id and no job
   * is queued; the file is kept when `create` throws, and the record is kept
   * without a job when the dispatch throws.
   */
  lemma IngestFailure(rows: map<int, Record>, nextId: int, blobs: set<string>, queue: seq<Job>,
                      uuid: string, extension: string, folder: string, now: int, fault: Fault)
    requires fault != NoFault
    ensures var run := IngestRun(rows, nextId, blobs, queue, uuid, extension, folder, now, fault);
      var path := SegmentPath(folder, uuid, extension);
      && run.result == FailureResult() && "id" !in run.result
      && run.queue == queue
      && (fault == StoreThrows ==> run.rows == rows && run.nextId == nextId && run.blobs == blobs)
      && (fault == CreateThrows ==> run.rows == rows && run.nextId == nextId && run.blobs == blobs + {path})
      && (fault == DispatchThrows ==> run.rows == rows[nextId := Record(nextId, path, None, Pending, now)]
                                      && run.blobs == blobs + {path})
  {
  }

  /** Every record's file is on the disk: ingest keeps this, whichever step throws. */
  ghost predicate FilesBacked(rows: map<int, Record>, blobs: set<string>)
  {
    forall k :: k in rows ==> rows[k].filePath in blobs
  }

  /** Every queued worker job names an existing record. */
  ghost predicate JobsBacked(rows: map<int, Record>, queue: seq<Job>)
  {
    forall i :: 0 <= i < |queue| ==> queue[i].audioTranscriptionId in rows
  }

  lemma IngestKeepsBacking(rows: map<int, Record>, nextId: int, blobs: set<string>, queue: seq<Job>,
                           uuid: string, extension: string, folder: string, now: int, fault: Fault)
    requires FilesBacked(rows, blobs) && JobsBacked(rows, queue)
    ensures var run := IngestRun(rows, nextId, blobs, queue, uuid, extension, folder, now, fault);
      FilesBacked(run.rows, run.blobs) && JobsBacked(run.rows, run.queue)
  {
    var run := IngestRun(rows, nextId, blobs, queue, uuid, extension, folder, now, fault);
    forall i | 0 <= i < |run.queue| ensures run.queue[i].audioTranscriptionId in run.rows {
      if i < |queue| {
        assert run.queue[i] == queue[i];
      }
    }
  }

  /**
   * `execute`. The UUID, the `Y/m/d/H` folder, the clock and the failing step
   * are inputs; the result array and the new state are those of `IngestRun`.
   */
  method Execute(repo: AudioTranscriptionRepository, env: Services,
                 uuid: string, extension: string, folder: string, now: int, fault: Fault)
    returns (result: ResultMap)
    requires repo.Valid()
    modifies repo, env`blobs, env`queue
    ensures repo.Valid()
    ensures Ingest(repo.rows, repo.nextId, env.blobs, env.queue, result)
         == IngestRun(old(repo.rows), old(repo.nextId), old(env.blobs), old(env.queue), uuid, extension, folder, now, fault)
  {
    var filename := SegmentFilename(uuid, extension);
    var path := StoredPath(folder, filename);
    if fault == StoreThrows {
      return FailureResult();
    }
    env.blobs := env.blobs + {path};
    if fault == CreateThrows {
      return FailureResult();
    }
    var audioTranscription := repo.Create(NewRecord(path, None, Some(Pending)), now);
    if fault == DispatchThrows {
      return FailureResult();
    }
    env.queue := env.queue + [ProcessJob(audioTranscription.id)];
    result := SuccessResult(audioTranscription.id);
  }
}
