/** Return codes of the ODBC interface and the small datatypes shared by all components. */
module Codes {

  datatype Option<+T> = None | Some(value: T)

  // A return code is a signed short. The codes the driver manager tests for by name are
  // constructors; a driver may also answer any other 16-bit pattern.
  datatype SqlReturn =
    | Success | SuccessWithInfo | StillExecuting | NeedData | NoData | Error | InvalidHandle
    | Other(pattern: bv16)
  {
    predicate Succeeded() {
      Success? || SuccessWithInfo?
    }

    function Bits(): bv16 {
      match this
      case Success => 0
      case SuccessWithInfo => 1
      case StillExecuting => 2
      case NeedData => 99
      case NoData => 100
      case Error => 0xFFFF
      case InvalidHandle => 0xFFFE
      case Other(pattern) => pattern
    }

    // Other is used only for patterns that have no name of their own.
    predicate Canonical() {
      Other? ==> pattern !in {0, 1, 2, 99, 100, 0xFFFF, 0xFFFE}
    }
  }

  /** What connecting comes to once the driver has answered rc: anything but a plain success of the options sent
      afterwards shows as mere information. */
  function ConnectCode(rc: SqlReturn, delayed: SqlReturn): (r: SqlReturn)
    ensures r.Succeeded() <==> rc.Succeeded()
    ensures r == Success <==> rc == Success && delayed == Success
    ensures !rc.Succeeded() ==> r == rc
  {
    if !rc.Succeeded() || delayed == Success then rc else SuccessWithInfo
  }

  // The SQLSTATE codes posted by the modelled functions.
  datatype SqlState =
    | S1002 | S1003 | S1009 | S1010 | S1012 | S1090 | S1092 | S1093 | S1106
    | E24000 | E08002 | E08003 | IM001 | HY092 | HYC00
}
