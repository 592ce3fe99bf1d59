/**
 * The framework services the pipeline talks to, reduced to what it observes:
 * the public storage disk as a set of paths, the queue as a list of jobs plus
 * the unique-job locks, and one ordered trace of everything else a job does:
 * its row updates, the events it fires, its calls to the transcription
 * provider and its log lines.
 */
module Runtime {
  import opened Wrappers
  import opened Repository

  /** The lifecycle events broadcast to listeners (app/Events). */
  datatype Event =
    | TranscriptionInProgress(segmentId: int)
    | TranscriptionCompleted(segmentId: int, transcription: string)
    | TranscriptionFailed(segmentId: int)

  /** A queued job and the record id it carries. */
  datatype Job = ProcessJob(audioTranscriptionId: int) | ResubmitJob(audioTranscriptionId: int)

  /**
   * What one call to the transcription provider produced: a successful response
   * carrying its `text` field, a response that is not successful (status and
   * decoded body), or an exception thrown by the call.
   */
  datatype Outcome = Ok(text: string) | HttpError(status: int, body: string) | Exn(message: string)

  /** The exceptions a job throws (app/Exceptions), with their messages. */
  datatype JobError =
    | AudioTranscriptionNotFound(message: string)
    | AudioTranscriptionNotInFailedState(message: string)
    | AudioFileNotFound(message: string)

  datatype Level = Info | Error
  datatype LogValue = IntValue(i: int) | StrValue(s: string)
  /** One call to the Log facade: level, message and context array. */
  datatype LogLine = LogLine(level: Level, message: string, context: map<string, LogValue>)

  /**
   * One observable step, in the order it happens: an `update` of row `id`
   * with `patch`, an event passed to `event()`, a file sent to the provider,
   * or a call to the Log facade.
   */
  datatype Effect =
    | Write(id: int, patch: Patch)
    | Emit(event: Event)
    | Call(path: string)
    | Logged(line: LogLine)

  /** Decimal rendering of an integer, as PHP's string concatenation does. */
  function IntToString(i: int): (s: string)
    ensures s != []
  {
    if i < 0 then "-" + NatToString(-i) else NatToString(i)
  }

  function NatToString(n: nat): (s: string)
    ensures s != []
    decreases n
  {
    var digit := ('0' as int + n % 10) as char;
    if n < 10 then [digit] else NatToString(n / 10) + [digit]
  }

  /** Every character is a decimal digit. */
  predicate AllDigits(s: string)
  {
    forall i :: 0 <= i < |s| ==> '0' <= s[i] <= '9'
  }

  /** The number a string of decimal digits denotes, most significant digit first. */
  function DigitsValue(s: string): int
    requires AllDigits(s)
    decreases |s|
  {
    if s == [] then 0 else 10 * DigitsValue(s[..|s| - 1]) + (s[|s| - 1] as int - '0' as int)
  }

  /** A natural number is written as digits only, without a leading zero, and reads back as itself. */
  lemma {:induction false} NatToStringReadsBack(n: nat)
    ensures AllDigits(NatToString(n)) && DigitsValue(NatToString(n)) == n
    ensures NatToString(n)[0] == '0' ==> NatToString(n) == "0"
    decreases n
  {
    var s := NatToString(n);
    var digit := ('0' as int + n % 10) as char;
    if n >= 10 {
      NatToStringReadsBack(n / 10);
      var p := NatToString(n / 10);
      assert s == p + [digit];
      assert s[..|s| - 1] == p;
      assert s[0] == p[0];
    }
  }

  /**
   * `IntToString` is the decimal text PHP prints: a `-` exactly for a negative
   * number, then the digits of its magnitude without a leading zero.
   */
  lemma IntToStringReadsBack(i: int)
    ensures var s := IntToString(i);
      && (s[0] == '-' <==> i < 0)
      && (i >= 0 ==> AllDigits(s) && DigitsValue(s) == i && (s[0] == '0' ==> s == "0"))
      && (i < 0 ==> AllDigits(s[1..]) && DigitsValue(s[1..]) == -i && s[1] != '0')
  {
    var s := IntToString(i);
    if i < 0 {
      NatToStringReadsBack(-i);
      assert s[1..] == NatToString(-i);
    } else {
      NatToStringReadsBack(i);
    }
  }

  class Services {
    /** Paths that exist on the public storage disk. */
    var blobs: set<string>
    /** Every job pushed onto the queue, in order. */
    var queue: seq<Job>
    /** Unique ids whose unique-job lock is held (`ShouldBeUnique`). */
    var held: set<int>
    /** Every update, event, provider call and log line, in the order they happened. */
    var trace: seq<Effect>

    constructor ()
      ensures blobs == {} && queue == [] && held == {} && trace == []
    {
      blobs, queue, held, trace := {}, [], {}, [];
    }
  }
}
