/**
 * The lifecycle status of one transcription (app/Enums/TranscriptionStatus.php):
 * four cases backed by one-character codes, a human label, and the guard that
 * decides whether a transcription may be resubmitted.
 */
module TranscriptionStatus {
  import opened Wrappers

  datatype Status = Pending | InProgress | Success | Failed

  /** The status a record gets when it is created without one (the column default). */
  const DefaultStatus: Status := Pending

  /** The backing value stored in the one-character `status` column: one of `P`, `I`, `S`, `F`. */
  function Code(s: Status): (c: char)
    ensures c in "PISF"
  {
    match s
    case Pending => 'P'
    case InProgress => 'I'
    case Success => 'S'
    case Failed => 'F'
  }

  /** Reading a stored code back into a status (the enum's `tryFrom`). */
  function FromCode(c: char): (r: Option<Status>)
    ensures r.Some? <==> c in "PISF"
    ensures r.Some? ==> Code(r.value) == c
  {
    match c
    case 'P' => Some(Pending)
    case 'I' => Some(InProgress)
    case 'S' => Some(Success)
    case 'F' => Some(Failed)
    case _ => None
  }

  /** Every status survives the trip through its stored code. */
  lemma CodeRoundTrip(s: Status)
    ensures FromCode(Code(s)) == Some(s)
  {
  }

  /** Distinct statuses are stored under distinct codes. */
  lemma CodeInjective(a: Status, b: Status)
    requires Code(a) == Code(b)
    ensures a == b
  {
    CodeRoundTrip(a);
    CodeRoundTrip(b);
  }

  /** The human-readable name of a status; it begins with the status's code letter. */
  function Label(s: Status): (name: string)
    ensures name != [] && name[0] == Code(s)
  {
    match s
    case Pending => "Pending"
    case InProgress => "In Progress"
    case Success => "Success"
    case Failed => "Failed"
  }

  /** No two statuses share a label. */
  lemma LabelInjective(a: Status, b: Status)
    requires Label(a) == Label(b)
    ensures a == b
  {
  }

  /** Only a failed transcription may be sent to the provider again. */
  function CanBeResubmitted(s: Status): (b: bool)
    ensures b <==> s == Failed
    ensures b <==> Code(s) == 'F'
  {
    s == Failed
  }

  /** The status a newly created record ends up with, given the one it was created with, if any. */
  function StatusOrDefault(given: Option<Status>): (s: Status)
    ensures given.None? ==> s == Pending
    ensures given.Some? ==> s == given.value
  {
    if given.Some? then given.value else DefaultStatus
  }
}
