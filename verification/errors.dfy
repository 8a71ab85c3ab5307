/** The crate's closed error set and its `Display` messages. */
module Errors {

  datatype Error = InvalidArgument | Failed | NotAvailable

  /** `Result<T> = std::result::Result<T, Error>` */
  datatype Result<+T> = Ok(value: T) | Err(error: Error)

  /** Every error there is. */
  const AllErrors: set<Error> := {InvalidArgument, Failed, NotAvailable}

  /** The `Display` text of each error; each message names exactly one error. */
  function Display(e: Error): (s: string)
    ensures s == "invalid argument" <==> e == InvalidArgument
    ensures s == "failure" <==> e == Failed
    ensures s == "not available" <==> e == NotAvailable
  {
    match e
    case InvalidArgument => "invalid argument"
    case Failed => "failure"
    case NotAvailable => "not available"
  }

  /** The error set is closed: exactly three variants, nothing else. */
  lemma ExactlyThreeErrors(e: Error)
    ensures e in AllErrors
    ensures |AllErrors| == 3
  {
    assert AllErrors == {InvalidArgument} + {Failed} + {NotAvailable};
  }

  /** Distinct errors display distinct messages. */
  lemma DisplayInjective(e1: Error, e2: Error)
    ensures Display(e1) == Display(e2) <==> e1 == e2
  {
  }
}
