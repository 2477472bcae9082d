/** The states of a two-phase commit. */
module Enums {
  import opened Wrappers

  datatype Status = Initiated | Preparing | Prepared | Committing | Committed | Aborting | Aborted

  /** The name a status is stored under. */
  function StatusName(s: Status): string {
    match s
    case Initiated => "INITIATED"
    case Preparing => "PREPARING"
    case Prepared => "PREPARED"
    case Committing => "COMMITTING"
    case Committed => "COMMITTED"
    case Aborting => "ABORTING"
    case Aborted => "ABORTED"
  }

  /** `TransactionStatus(text)`; None where it raises. */
  function ParseStatus(text: string): Option<Status> {
    if text == "INITIATED" then Some(Initiated)
    else if text == "PREPARING" then Some(Preparing)
    else if text == "PREPARED" then Some(Prepared)
    else if text == "COMMITTING" then Some(Committing)
    else if text == "COMMITTED" then Some(Committed)
    else if text == "ABORTING" then Some(Aborting)
    else if text == "ABORTED" then Some(Aborted)
    else None
  }

  lemma StatusRoundTrip(s: Status)
    ensures ParseStatus(StatusName(s)) == Some(s)
  {
  }
}
