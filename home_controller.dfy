/**
 * The HTTP controller (app/Http/Controllers/HomeController.php): the home page
 * listing and the endpoint that turns the ingest result into a JSON response.
 */
module Controllers {
  import opened Repository
  import opened Runtime
  import opened HandleSpeechSegment

  /** The HTTP status of a result array: its `status` entry when there is one, else 200. */
  function StatusCode(result: ResultMap): (code: int)
    ensures "status" in result && result["status"].IntVal? ==> code == result["status"].i
    ensures "status" !in result ==> code == 200
  {
    if "status" in result && result["status"].IntVal? then result["status"].i else 200
  }

  /** The JSON body: the result array without its `status` entry, every other entry unchanged. */
  function ResponseBody(result: ResultMap): (body: ResultMap)
    ensures "status" !in body
    ensures forall k :: k != "status" ==> (k in body <==> k in result)
    ensures forall k :: k in body ==> body[k] == result[k]
  {
    result - {"status"}
  }

  /**
   * The response of the endpoint for every outcome of the ingest: 200 with
   * success, message and the new id, or 500 with the failure and the generic
   * message; the status never reaches the body.
   */
  lemma IngestResponse(rows: map<int, Record>, nextId: int, blobs: set<string>, queue: seq<Job>,
                       uuid: string, extension: string, folder: string, now: int, fault: Fault)
    ensures var result := IngestRun(rows, nextId, blobs, queue, uuid, extension, folder, now, fault).result;
      && (fault == NoFault ==>
            StatusCode(result) == 200
            && ResponseBody(result) == map["success" := BoolVal(true), "message" := StrVal(SuccessMessage), "id" := IntVal(nextId)])
      && (fault != NoFault ==>
            StatusCode(result) == 500
            && ResponseBody(result) == map["success" := BoolVal(false), "message" := StrVal(ErrorMessage)])
  {
    var result := IngestRun(rows, nextId, blobs, queue, uuid, extension, folder, now, fault).result;
    if fault == NoFault {
      assert result == SuccessResult(nextId);
      assert ResponseBody(result) == map["success" := BoolVal(true), "message" := StrVal(SuccessMessage), "id" := IntVal(nextId)];
    } else {
      IngestFailure(rows, nextId, blobs, queue, uuid, extension, folder, now, fault);
      assert ResponseBody(result) == map["success" := BoolVal(false), "message" := StrVal(ErrorMessage)];
    }
  }

  class HomeController {
    const audioTranscriptionRepository: AudioTranscriptionRepository

    constructor (repo: AudioTranscriptionRepository)
      ensures audioTranscriptionRepository == repo
    {
      audioTranscriptionRepository := repo;
    }

    /** `index`: the records the home page lists, every one exactly once, newest first. */
    function Index(): (transcriptions: seq<Record>)
      reads audioTranscriptionRepository
      requires audioTranscriptionRepository.Valid()
      ensures var rows := audioTranscriptionRepository.rows;
        && |transcriptions| == |rows| && RowsOf(transcriptions, rows) && DistinctIds(transcriptions)
        && (forall k :: k in rows ==> rows[k] in transcriptions)
        && CreatedAtDescending(transcriptions)
    {
      audioTranscriptionRepository.AllTranscriptions()
    }

    /** `handleSpeechSegment`: runs the ingest, takes its status out of the array, and answers with both. */
    method HandleSpeechSegment(env: Services, uuid: string, extension: string, folder: string, now: int, fault: Fault)
      returns (status: int, body: ResultMap)
      requires audioTranscriptionRepository.Valid()
      modifies audioTranscriptionRepository, env`blobs, env`queue
      ensures audioTranscriptionRepository.Valid()
      ensures var run := IngestRun(old(audioTranscriptionRepository.rows), old(audioTranscriptionRepository.nextId),
                                   old(env.blobs), old(env.queue), uuid, extension, folder, now, fault);
        && Ingest(audioTranscriptionRepository.rows, audioTranscriptionRepository.nextId, env.blobs, env.queue, run.result) == run
        && status == StatusCode(run.result) && body == ResponseBody(run.result)
    {
      var result := Execute(audioTranscriptionRepository, env, uuid, extension, folder, now, fault);
      status := StatusCode(result);
      result := result - {"status"};
      body := result;
    }
  }
}
