/**
  The errors an instruction can end with: the program's own two error codes
  and any error of the token program, passed through unchanged.
 */
module Errors {
  import opened TokenLedger

  datatype Error =
    | ContractPaused          // an asset instruction while the pause flag is set
    | Unauthorized            // pause or unpause signed by someone other than the admin
    | LedgerError(code: nat)  // propagated from the token program

  datatype Result<T> = Ok(value: T) | Err(error: Error)

  /**
    The `?` after a token-program call: success continues, a refusal is
    returned as it is, never turned into one of the program's own errors.
   */
  function Propagate(reply: LedgerReply): (r: Result<()>)
    ensures r.Ok? <==> reply.Done?
    ensures reply.Refused? ==> r == Err(LedgerError(reply.code))
    ensures r != Err(ContractPaused) && r != Err(Unauthorized)
  {
    match reply
    case Done => Ok(())
    case Refused(code) => Err(LedgerError(code))
  }
}
