/**
 * What the two transcription jobs (app/Jobs/ProcessAudioTranscription.php and
 * app/Jobs/ResubmitFailedTranscription.php) have in common: the observable
 * effect of one run, the handling of the provider's answer, and the `failed()`
 * handler that forces a record into FAILED.
 */
module Attempt {
  import opened Wrappers
  import opened TranscriptionStatus
  import opened Repository
  import opened Runtime

  /** The effect of one job run: the table afterwards, the steps it took in order, and the exception it threw. */
  datatype Run = Run(rows: map<int, Record>, trace: seq<Effect>, error: Option<JobError>)

  /** The log messages a job uses for the three answers of the provider. */
  datatype Messages = Messages(completed: string, providerFailed: string, exception: string)

  /** The event of one step, if it is one. */
  function EventOf(e: Effect): seq<Event>
  {
    if e.Emit? then [e.event] else []
  }

  /** The events of a trace, in the order they were fired. */
  function Emitted(trace: seq<Effect>): (events: seq<Event>)
    ensures |events| <= |trace|
    decreases |trace|
  {
    if trace == [] then [] else EventOf(trace[0]) + Emitted(trace[1..])
  }

  /** The table after the updates of a trace, applied in order, each to the row it names. */
  function Replay(rows: map<int, Record>, trace: seq<Effect>): map<int, Record>
    decreases |trace|
  {
    if trace == [] then rows
    else
      var e := trace[0];
      Replay(if e.Write? && e.id in rows then rows[e.id := Apply(rows[e.id], e.patch)] else rows, trace[1..])
  }

  lemma {:induction false} EmittedAppend(s: seq<Effect>, t: seq<Effect>)
    ensures Emitted(s + t) == Emitted(s) + Emitted(t)
    decreases |s|
  {
    if s != [] {
      assert (s + t)[1..] == s[1..] + t;
      EmittedAppend(s[1..], t);
    } else {
      assert s + t == t;
    }
  }

  lemma {:induction false} ReplayAppend(rows: map<int, Record>, s: seq<Effect>, t: seq<Effect>)
    ensures Replay(rows, s + t) == Replay(Replay(rows, s), t)
    decreases |s|
  {
    if s != [] {
      assert (s + t)[1..] == s[1..] + t;
      var e := s[0];
      ReplayAppend(if e.Write? && e.id in rows then rows[e.id := Apply(rows[e.id], e.patch)] else rows, s[1..], t);
    } else {
      assert s + t == t;
    }
  }

  /** The events of a trace of at most three steps. */
  lemma EmittedSteps(a: Effect, b: Effect, c: Effect)
    ensures Emitted([a]) == EventOf(a)
    ensures Emitted([a, b]) == EventOf(a) + EventOf(b)
    ensures Emitted([a, b, c]) == EventOf(a) + EventOf(b) + EventOf(c)
  {
    assert [a, b, c] == [a] + [b] + [c];
    assert [a, b] == [a] + [b];
    assert [a][1..] == [] && [b][1..] == [] && [c][1..] == [];
    EmittedAppend([a] + [b], [c]);
    EmittedAppend([a], [b]);
  }

  /** The table after a one-step trace. */
  lemma ReplayOne(rows: map<int, Record>, e: Effect)
    ensures Replay(rows, [e]) == if e.Write? && e.id in rows then rows[e.id := Apply(rows[e.id], e.patch)] else rows
  {
    assert [e][1..] == [];
  }

  /** The events one attempt on record `id` may emit: in-progress, then at most one of completed or failed. */
  ghost predicate AttemptTrace(id: int, events: seq<Event>)
  {
    || events == [TranscriptionInProgress(id)]
    || events == [TranscriptionInProgress(id), TranscriptionFailed(id)]
    || (exists text :: events == [TranscriptionInProgress(id), TranscriptionCompleted(id, text)])
  }

  /** Only the row of `id` may differ between the two tables. */
  ghost predicate OthersUnchanged(before: map<int, Record>, after: map<int, Record>, id: int)
  {
    before.Keys == after.Keys && forall j :: j in before && j != id ==> after[j] == before[j]
  }

  /** The patch of the successful attempt: the text and SUCCESS, written together. */
  function SuccessPatch(text: string): Patch
  {
    Patch(Some(text), Some(Success))
  }

  /** The update and the event that open an attempt on record `id`. */
  function Started(id: int): seq<Effect>
  {
    [Write(id, StatusPatch(InProgress)), Emit(TranscriptionInProgress(id))]
  }

  /** The log context a failed provider call leaves: the id, then the exception message or the response's status and body. */
  function FailureContext(id: int, outcome: Outcome): (ctx: map<string, LogValue>)
    requires !outcome.Ok?
    ensures "id" in ctx && ctx["id"] == IntValue(id)
    ensures outcome.Exn? ==> ctx.Keys == {"id", "message"} && ctx["message"] == StrValue(outcome.message)
    ensures outcome.HttpError? ==> ctx.Keys == {"id", "status", "response"}
    ensures outcome.HttpError? ==> ctx["status"] == IntValue(outcome.status) && ctx["response"] == StrValue(outcome.body)
  {
    match outcome
    case Exn(message) => map["id" := IntValue(id), "message" := StrValue(message)]
    case HttpError(status, body) => map["id" := IntValue(id), "status" := IntValue(status), "response" := StrValue(body)]
  }

  /** The error line of a failed answer: the job's message for an exception or for a failed response. */
  function FailureLine(id: int, outcome: Outcome, msgs: Messages): LogLine
    requires !outcome.Ok?
  {
    LogLine(Error, if outcome.Exn? then msgs.exception else msgs.providerFailed, FailureContext(id, outcome))
  }

  /**
   * The answer of the provider recorded on row `id` (already IN_PROGRESS): a
   * successful answer sets the text and SUCCESS in one update and announces the
   * text; any other answer sets FAILED, keeps the transcription and announces
   * the failure. Exactly one update, then one event, then one log line.
   */
  function OutcomeRun(rows: map<int, Record>, id: int, outcome: Outcome, msgs: Messages): (run: Run)
    requires KeyedById(rows) && id in rows
    ensures KeyedById(run.rows) && OthersUnchanged(rows, run.rows, id)
    ensures run.rows[id].filePath == rows[id].filePath && run.rows[id].createdAt == rows[id].createdAt
    ensures outcome.Ok? ==> run.rows[id].status == Success && run.rows[id].transcription == Some(outcome.text)
    ensures outcome.Ok? ==> run.trace == [Write(id, SuccessPatch(outcome.text)),
                                          Emit(TranscriptionCompleted(id, outcome.text)),
                                          Logged(LogLine(Info, msgs.completed, map["id" := IntValue(id)]))]
    ensures !outcome.Ok? ==> run.rows[id].status == Failed && run.rows[id].transcription == rows[id].transcription
    ensures !outcome.Ok? ==> run.trace == [Write(id, StatusPatch(Failed)), Emit(TranscriptionFailed(id)), Logged(FailureLine(id, outcome, msgs))]
    ensures run.error == None
  {
    match outcome
    case Ok(text) =>
      Run(rows[id := Apply(rows[id], SuccessPatch(text))],
          [Write(id, SuccessPatch(text)), Emit(TranscriptionCompleted(id, text)),
           Logged(LogLine(Info, msgs.completed, map["id" := IntValue(id)]))], None)
    case _ =>
      Run(rows[id := Apply(rows[id], StatusPatch(Failed))],
          [Write(id, StatusPatch(Failed)), Emit(TranscriptionFailed(id)), Logged(FailureLine(id, outcome, msgs))], None)
  }

  /** The table `OutcomeRun` leaves is the one its single update produces. */
  lemma OutcomeReplays(rows: map<int, Record>, id: int, outcome: Outcome, msgs: Messages)
    requires KeyedById(rows) && id in rows
    ensures var run := OutcomeRun(rows, id, outcome, msgs);
      run.rows == Replay(rows, run.trace)
  {
    var t := OutcomeRun(rows, id, outcome, msgs).trace;
    assert t == [t[0]] + [t[1]] + [t[2]];
    ReplayAppend(rows, [t[0]] + [t[1]], [t[2]]);
    ReplayAppend(rows, [t[0]], [t[1]]);
    ReplayOne(rows, t[0]);
    ReplayOne(Replay(rows, [t[0]]), t[1]);
    ReplayOne(Replay(rows, [t[0]] + [t[1]]), t[2]);
  }

  /** The events `OutcomeRun` fires: the completed event with the text, or the failed event. */
  lemma OutcomeEvents(rows: map<int, Record>, id: int, outcome: Outcome, msgs: Messages)
    requires KeyedById(rows) && id in rows
    ensures Emitted(OutcomeRun(rows, id, outcome, msgs).trace)
         == if outcome.Ok? then [TranscriptionCompleted(id, outcome.text)] else [TranscriptionFailed(id)]
  {
    var t := OutcomeRun(rows, id, outcome, msgs).trace;
    EmittedSteps(t[0], t[1], t[2]);
  }

  /** Opening an attempt fires the in-progress event and marks the row IN_PROGRESS; what follows comes after it. */
  lemma StartedSteps(rows: map<int, Record>, id: int, rest: seq<Effect>)
    requires id in rows
    ensures Emitted(Started(id) + rest) == [TranscriptionInProgress(id)] + Emitted(rest)
    ensures Replay(rows, Started(id) + rest) == Replay(rows[id := Apply(rows[id], StatusPatch(InProgress))], rest)
  {
    var a := Write(id, StatusPatch(InProgress));
    var b := Emit(TranscriptionInProgress(id));
    assert Started(id) == [a] + [b];
    EmittedAppend(Started(id), rest);
    EmittedSteps(a, b, b);
    ReplayAppend(rows, Started(id), rest);
    ReplayAppend(rows, [a], [b]);
    ReplayOne(rows, a);
    ReplayOne(rows[id := Apply(rows[id], StatusPatch(InProgress))], b);
  }

  /** A step that is neither an update nor an event leaves both the events and the table as they are. */
  lemma QuietStep(rows: map<int, Record>, e: Effect, rest: seq<Effect>)
    requires e.Call? || e.Logged?
    ensures Emitted([e] + rest) == Emitted(rest)
    ensures Replay(rows, [e] + rest) == Replay(rows, rest)
  {
    assert ([e] + rest)[1..] == rest;
  }

  /**
   * The `failed()` handler: for an existing record, FAILED, one failed event
   * and one error line whatever the record's status was; for an unknown id, no
   * effect at all.
   */
  function ForceFailedRun(rows: map<int, Record>, id: int, logMessage: string, exceptionMessage: string): (run: Run)
    requires KeyedById(rows)
    ensures KeyedById(run.rows) && OthersUnchanged(rows, run.rows, id)
    ensures id in rows ==> run.rows[id] == rows[id].(status := Failed)
    ensures id in rows ==> run.trace == [Write(id, StatusPatch(Failed)), Emit(TranscriptionFailed(id)),
                                         Logged(LogLine(Error, logMessage, map["id" := IntValue(id), "message" := StrValue(exceptionMessage)]))]
    ensures id !in rows ==> run.rows == rows && run.trace == []
    ensures run.error == None
  {
    if id in rows then
      Run(rows[id := Apply(rows[id], StatusPatch(Failed))],
          [Write(id, StatusPatch(Failed)), Emit(TranscriptionFailed(id)),
           Logged(LogLine(Error, logMessage, map["id" := IntValue(id), "message" := StrValue(exceptionMessage)]))],
          None)
    else
      Run(rows, [], None)
  }

  /** The provider's answer applied to the store and the trace, as `OutcomeRun` describes. */
  method RecordOutcome(repo: AudioTranscriptionRepository, env: Services, r: Record, outcome: Outcome, msgs: Messages)
    requires repo.Valid() && r.id in repo.rows
    modifies repo, env`trace
    ensures repo.Valid() && repo.nextId == old(repo.nextId)
    ensures var run := OutcomeRun(old(repo.rows), r.id, outcome, msgs);
      repo.rows == run.rows && env.trace == old(env.trace) + run.trace
  {
    var id := r.id;
    match outcome {
      case Ok(text) =>
        var _ := repo.Update(r, SuccessPatch(text));
        env.trace := env.trace + [Write(id, SuccessPatch(text)), Emit(TranscriptionCompleted(id, text)),
                                  Logged(LogLine(Info, msgs.completed, map["id" := IntValue(id)]))];
      case _ =>
        var _ := repo.Update(r, StatusPatch(Failed));
        env.trace := env.trace + [Write(id, StatusPatch(Failed)), Emit(TranscriptionFailed(id)), Logged(FailureLine(id, outcome, msgs))];
    }
  }

  /** The `failed()` handler applied to the store and the trace, as `ForceFailedRun` describes. */
  method ForceFailed(repo: AudioTranscriptionRepository, env: Services, id: int, logMessage: string, exceptionMessage: string)
    requires repo.Valid()
    modifies repo, env`trace
    ensures repo.Valid() && repo.nextId == old(repo.nextId)
    ensures var run := ForceFailedRun(old(repo.rows), id, logMessage, exceptionMessage);
      repo.rows == run.rows && env.trace == old(env.trace) + run.trace
  {
    var found := repo.FindById(id);
    if found.Some? {
      var _ := repo.Update(found.value, StatusPatch(Failed));
      env.trace := env.trace + [Write(id, StatusPatch(Failed)), Emit(TranscriptionFailed(id)),
                                Logged(LogLine(Error, logMessage, map["id" := IntValue(id), "message" := StrValue(exceptionMessage)]))];
    }
  }
}
