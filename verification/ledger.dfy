/**
  The boundary with the external SPL Token program. The program under model
  never computes balances or supply; it only forwards one of these calls and
  hands back whatever the token program answers.
 */
module TokenLedger {
  import opened Types

  /** One cross-program invocation of the SPL Token program, with its accounts and amount. */
  datatype LedgerCall =
    | MintTo(mint: Pubkey, to: Pubkey, authority: Pubkey, amount: U64)
    | Burn(mint: Pubkey, from: Pubkey, authority: Pubkey, amount: U64)
    | Transfer(from: Pubkey, to: Pubkey, authority: Pubkey, amount: U64)
    | FreezeAccount(account: Pubkey, mint: Pubkey, authority: Pubkey)
    | ThawAccount(account: Pubkey, mint: Pubkey, authority: Pubkey)

  /**
    The token program's answer to a forwarded call. Its internal checks
    (authority matching, balances, frozen flags) are not modelled: a refusal
    is an uninterpreted error code.
   */
  datatype LedgerReply = Done | Refused(code: nat)
}
