/** The error records of the join layer (lib/jointype.js). Each record keeps
    the join's path and a free-text detail verbatim, under one of four fixed
    names. The message text and the stack trace of the host error base are
    not modelled. */
module Errors {

  datatype ErrorKind = JoinError | FollowerError | ConstraintError | CascadeError {
    /** The fixed `name` of the record. */
    function Name(): (s: string)
    {
      match this
      case JoinError => "JoinError"
      case FollowerError => "FollowerError"
      case ConstraintError => "ConstraintError"
      case CascadeError => "CascadeError"
    }
  }

  /** A record built by `new JoinError(path, detail)` and its three siblings. */
  datatype JoinFault = JoinFault(kind: ErrorKind, path: string, detail: string)

  /** What can travel in the error position of a callback, or be thrown:
      a join error record, an error from the store, or the TypeError the
      runtime throws on a property read of undefined or null. */
  datatype Fault =
    | Raised(fault: JoinFault)
    | StoreError(message: string)
    | TypeError

  /** The record a name and the two arguments produce: the four names are
      told apart by `name`, and path and detail are kept verbatim. */
  function MakeError(kind: ErrorKind, path: string, detail: string): (e: JoinFault)
    ensures e.kind.Name() == kind.Name() && e.path == path && e.detail == detail
    ensures forall k: ErrorKind :: k != kind ==> e.kind.Name() != k.Name()
  {
    JoinFault(kind, path, detail)
  }
}
