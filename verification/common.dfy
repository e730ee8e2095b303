/** Small shared vocabulary: an optional value and the identifiers of the document store. */
module Common {

  datatype Option<T> = None | Some(value: T) {
    function GetOr(default: T): T {
      match this
      case Some(v) => v
      case None => default
    }
  }

  /** Document identifiers generated by the store. */
  type DocId = nat

  /** A server timestamp, in milliseconds. */
  type Timestamp = int

  /** The value of `createdAt?.toDate() || 0`: a missing timestamp counts as 0. */
  function CreatedOrZero(t: Option<Timestamp>): real
  {
    match t
    case Some(v) => v as real
    case None => 0.0
  }

  /** The outcome of a screen's save handler, with the notification it raises. */
  datatype SaveOutcome =
    | Invalid   // the form failed its check: error shown, nothing written
    | Saved     // written: success notification, form reset
    | Failed    // the write was refused: error shown, the form stays as it is
}
