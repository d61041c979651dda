/**
  The five asset instructions. Each reads the control state, rejects with
  `ContractPaused` while the flag is set, and otherwise forwards the request
  to the token program unchanged and returns the token program's answer.
  None of them writes the control state: they receive it as a value and
  return no new one.
 */
module Gate {
  import opened Types
  import opened TokenLedger
  import opened Errors
  import opened Control

  /** The result of an asset instruction and the call it forwarded, if any. */
  datatype Response = Response(outcome: Result<()>, cpi: Option<LedgerCall>)

  /** `mint_tokens`: mint `amount` to `to` under `mintAuthority`. */
  function MintTokens(state: ControlState, mint: Pubkey, to: Pubkey, mintAuthority: Pubkey,
                      amount: U64, reply: LedgerReply): (r: Response)
    ensures r.outcome == Err(ContractPaused) <==> state.isPaused
    ensures state.isPaused ==> r.cpi == None
    ensures !state.isPaused ==>
              r.cpi == Some(MintTo(mint, to, mintAuthority, amount)) && r.outcome == Propagate(reply)
  {
    if state.isPaused then Response(Err(ContractPaused), None)
    else
      var call := MintTo(mint, to, mintAuthority, amount);
      Response(Propagate(reply), Some(call))
  }

  /** `burn_tokens`: burn `amount` from `from` under `authority`. */
  function BurnTokens(state: ControlState, mint: Pubkey, from: Pubkey, authority: Pubkey,
                      amount: U64, reply: LedgerReply): (r: Response)
    ensures r.outcome == Err(ContractPaused) <==> state.isPaused
    ensures state.isPaused ==> r.cpi == None
    ensures !state.isPaused ==>
              r.cpi == Some(Burn(mint, from, authority, amount)) && r.outcome == Propagate(reply)
  {
    if state.isPaused then Response(Err(ContractPaused), None)
    else
      var call := Burn(mint, from, authority, amount);
      Response(Propagate(reply), Some(call))
  }

  /** `transfer_tokens`: move `amount` from `from` to `to` under `authority`. */
  function TransferTokens(state: ControlState, from: Pubkey, to: Pubkey, authority: Pubkey,
                          amount: U64, reply: LedgerReply): (r: Response)
    ensures r.outcome == Err(ContractPaused) <==> state.isPaused
    ensures state.isPaused ==> r.cpi == None
    ensures !state.isPaused ==>
              r.cpi == Some(Transfer(from, to, authority, amount)) && r.outcome == Propagate(reply)
  {
    if state.isPaused then Response(Err(ContractPaused), None)
    else
      var call := Transfer(from, to, authority, amount);
      Response(Propagate(reply), Some(call))
  }

  /** `freeze_account`: freeze `account` of `mint` under `freezeAuthority`. */
  function FreezeTokenAccount(state: ControlState, account: Pubkey, mint: Pubkey,
                              freezeAuthority: Pubkey, reply: LedgerReply): (r: Response)
    ensures r.outcome == Err(ContractPaused) <==> state.isPaused
    ensures state.isPaused ==> r.cpi == None
    ensures !state.isPaused ==>
              r.cpi == Some(FreezeAccount(account, mint, freezeAuthority)) && r.outcome == Propagate(reply)
  {
    if state.isPaused then Response(Err(ContractPaused), None)
    else
      var call := FreezeAccount(account, mint, freezeAuthority);
      Response(Propagate(reply), Some(call))
  }

  /** `thaw_account`: thaw `account` of `mint` under `freezeAuthority`. */
  function ThawTokenAccount(state: ControlState, account: Pubkey, mint: Pubkey,
                            freezeAuthority: Pubkey, reply: LedgerReply): (r: Response)
    ensures r.outcome == Err(ContractPaused) <==> state.isPaused
    ensures state.isPaused ==> r.cpi == None
    ensures !state.isPaused ==>
              r.cpi == Some(ThawAccount(account, mint, freezeAuthority)) && r.outcome == Propagate(reply)
  {
    if state.isPaused then Response(Err(ContractPaused), None)
    else
      var call := ThawAccount(account, mint, freezeAuthority);
      Response(Propagate(reply), Some(call))
  }
}
