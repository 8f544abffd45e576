/** The states a job reports. */
module JobStatus {

  /** Go's `type JobState uint8`. */
  newtype JobState = x: int | 0 <= x < 256

  const JobWaiting: JobState := 0
  const JobCancelled: JobState := 1
  const JobFailed: JobState := 2
  const JobRunning: JobState := 3
  const JobDone: JobState := 4
  const JobPaused: JobState := 5

  predicate Declared(js: JobState) {
    js <= JobPaused
  }

  /** The marker for an undeclared state, spelled as the library spells it. */
  const Invalid: string := "<invaild>"

  /** JobState.String. */
  function String(js: JobState): (s: string)
    ensures js == JobWaiting ==> s == "Waiting"
    ensures js == JobCancelled ==> s == "Cancelled"
    ensures js == JobFailed ==> s == "Failed"
    ensures js == JobRunning ==> s == "Running"
    ensures js == JobDone ==> s == "Done"
    ensures js == JobPaused ==> s == "Paused"
    ensures s == Invalid <==> !Declared(js)
  {
    match js
    case 0 => "Waiting"
    case 1 => "Cancelled"
    case 2 => "Failed"
    case 3 => "Running"
    case 4 => "Done"
    case 5 => "Paused"
    case _ => Invalid
  }

  /** Distinct declared states have distinct names. */
  lemma StringInjective(a: JobState, b: JobState)
    requires Declared(a) && Declared(b)
    requires String(a) == String(b)
    ensures a == b
  {
  }
}
