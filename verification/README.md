# Pausable token controller: a Dafny model

The program (`rwap_meme_token`, an Anchor program on Solana) puts an
administrative gate in front of the SPL Token program. It owns a single state
account `{ is_paused, admin }`. `initialize_token` creates that account with the
flag cleared. It records the `admin` signer and mints the fixed initial supply,
100,000,000 tokens of 9 decimals (10^17 base units), to a destination account.
Five asset instructions (`mint_tokens`, `burn_tokens`, `transfer_tokens`,
`freeze_account`, `thaw_account`) each refuse with `ContractPaused` while the
flag is set. Otherwise each forwards its request unchanged to the token program
and returns the token program's answer. `pause_contract` and `unpause_contract`
set and clear the flag. Only the admin may call them (`Unauthorized` otherwise),
and neither looks at the flag first.

The model has six modules:

- `Types` (`types.dfy`): 32-byte public keys, `u64` amounts, `Option`.
- `TokenLedger` (`ledger.dfy`): the calls forwarded to the token program and its opaque reply.
- `Errors` (`errors.dfy`): the program's two error codes, the token program's
  errors passed through, and `Propagate`, the Rust `?`.
- `Control` (`control.dfy`): the control state as a value (`ControlState`) and
  as the account the admin instructions update in place (class `StateAccount`).
  It also holds initialisation and the checked `u64` arithmetic of the initial supply.
- `Gate` (`gate.dfy`): the five asset handlers, as functions of the state value.
- `Transactions` (`transactions.dfy`): instructions as atomic transactions over
  the committed state and the log of calls the token program has carried out.
  It holds the lemmas about arbitrary sequences of transactions.

The token program is modelled only by its interface. Each transaction carries the
reply the token program would give to the call forwarded in it. A refusal is an
uninterpreted error code, propagated unchanged. The identity of each signer is
an input, because the runtime has already verified signatures before the program runs.

## Model

| member | source | states |
|---|---|---|
| `Errors.Propagate` | programs/my-token-project/src/lib.rs:42 | the `?` after a token-program call: success continues; a refusal comes back as that same ledger error, never as `ContractPaused` or `Unauthorized` |
| `Control.AdminSetPaused` | programs/my-token-project/src/lib.rs:116-129 | pause/unpause succeed iff the signer is the admin; a non-admin gets `Unauthorized` and the state is unchanged; the admin's call sets the flag to the requested value whatever it was; the admin is never changed |
| `Control.SetPausedIdempotent` | programs/my-token-project/src/lib.rs:116-129 | a second pause (or unpause) right after the first gives the same state and result as the first |
| `Control.PauseUnpauseRoundTrip` | programs/my-token-project/src/lib.rs:116-129 | on an active contract, the admin's pause followed by unpause succeeds and restores exactly the original `{false, admin}` |
| `Control.NoTerminalState` | programs/my-token-project/src/lib.rs:116-129 | from any state the admin can both unpause and pause, so no state of the Active/Paused machine is terminal |
| `Control.CheckedMul` | programs/my-token-project/src/lib.rs:17 | overflow-checked `u64` product: defined iff the true product fits in 64 bits, and then equals it |
| `Control.CheckedPow` | programs/my-token-project/src/lib.rs:17 | overflow-checked `u64::pow`: defined iff the true power is below 2^64, and then equals it |
| `Control.InitialSupply` | programs/my-token-project/src/lib.rs:17 | `100_000_000 * 10_u64.pow(9)` does not overflow and equals 10^17 |
| `Control.Initialization` | programs/my-token-project/src/lib.rs:11-28 | initialisation forwards exactly one `MintTo(mint, to, mint_authority, 10^17)`; it yields `{is_paused: false, admin}` iff the token program accepts; a refusal is returned as that ledger error and no state results |
| `Control.StateAccount.constructor` | programs/my-token-project/src/lib.rs:12-14 | a new state account holds `{is_paused: false, admin}` |
| `Control.StateAccount.PauseContract` | programs/my-token-project/src/lib.rs:116-121 | in-place pause: the new account value is `AdminSetPaused(old, signer, true)`; the admin's call sets the flag and returns Ok; anyone else gets `Unauthorized` and the flag is unchanged; `admin` is never written |
| `Control.StateAccount.UnpauseContract` | programs/my-token-project/src/lib.rs:124-129 | in-place unpause: as for pause, with the flag cleared; it works from any state, so pausing never locks the admin out |
| `Control.PauseUnpauseInPlace` | programs/my-token-project/src/lib.rs:116-129 | on an active account, the admin's in-place pause then unpause both return Ok and leave the account holding exactly its original value |
| `Control.InitializeToken` | programs/my-token-project/src/lib.rs:11-28 | imperative initialisation: it forwards the mint of `Initialization`; a fresh account with `{false, admin}` exists afterwards iff the token program accepted; otherwise the result is the propagated error and no account exists |
| `Gate.MintTokens` | programs/my-token-project/src/lib.rs:31-45 | `ContractPaused` iff paused, and then nothing is forwarded, whatever the ledger would say; otherwise exactly `MintTo(mint, to, mint_authority, amount)` is forwarded and the ledger's reply returned as is |
| `Gate.BurnTokens` | programs/my-token-project/src/lib.rs:48-62 | same as mint, forwarding exactly `Burn(mint, from, authority, amount)` |
| `Gate.TransferTokens` | programs/my-token-project/src/lib.rs:65-79 | same as mint, forwarding exactly `Transfer(from, to, authority, amount)` |
| `Gate.FreezeTokenAccount` | programs/my-token-project/src/lib.rs:82-96 | same as mint, forwarding exactly `FreezeAccount(account, mint, freeze_authority)` |
| `Gate.ThawTokenAccount` | programs/my-token-project/src/lib.rs:99-113 | same as mint, forwarding exactly `ThawAccount(account, mint, freeze_authority)` |
| `Transactions.Dispatch` | programs/my-token-project/src/lib.rs:31-113 | all five asset handlers have one shape: the flag alone decides `ContractPaused`; otherwise the forwarded call is the requested operation (`Requested`) and the ledger's reply is returned |
| `Transactions.Genesis` | programs/my-token-project/src/lib.rs:11-28 | a successful initialisation commits `{false, admin}` with the initial-supply mint as the only ledger call; a refusal commits nothing and returns the ledger error |
| `Transactions.Step` | programs/my-token-project/src/lib.rs:31-129 | one atomic instruction: an error leaves state and log unchanged; the admin is never written; asset instructions never write the control state and append exactly their requested call iff they succeed; pause/unpause never touch the log, succeed iff signed by the admin and otherwise return `Unauthorized` |
| `Transactions.RunPreservesAdmin` | programs/my-token-project/src/lib.rs:11-129 | no sequence of instructions changes the admin |
| `Transactions.AdminFixedAfterInitialization` | programs/my-token-project/src/lib.rs:11-129 | after initialisation by `admin`, the admin is `admin` after any later sequence of instructions |
| `Transactions.RunAppend` | programs/my-token-project/src/lib.rs:31-129 | instructions run one after another: one more transaction at the end is one more step |
| `Transactions.RunPauseFlag` | programs/my-token-project/src/lib.rs:116-129 | after any sequence of instructions the flag equals the value set by the admin's most recent pause or unpause, or the initial value if there was none |
| `Transactions.PausedChainIsFrozen` | programs/my-token-project/src/lib.rs:31-129 | while paused, until the admin unpauses, nothing changes: neither the control state nor the ledger log |
| `Transactions.OnlyAdminTogglesState` | programs/my-token-project/src/lib.rs:31-129 | without a pause or unpause signed by the admin, the control state never changes |
| `Transactions.ForwardedCallsWereRequested` | programs/my-token-project/src/lib.rs:31-113 | a run only appends to the ledger log, and what it appends is a subsequence, in order, of the operations requested by the asset instructions, each carried unmodified |
| `Transactions.PausedTransferByStranger` | programs/my-token-project/src/lib.rs:65-121 | admin A initialises and pauses, then non-admin B tries a transfer: the result is `ContractPaused`, decided before B's authority is looked at, and the ledger has seen only the initial mint |

## Left out

- The Anchor account contexts (lib.rs:133-230) are framework wiring. These are the `init`, `payer`, `mint::decimals = 9`, `signer`, `mut`, rent and space constraints. The checks they imply are not modelled. One is the refusal of a second initialisation of the same state account. Another is the creation of the mint with its authorities.
- The SPL Token program's own behaviour is not modelled: balances, supply, decimals, frozen flags and its authority checks. Its reply is an input and a refusal is an opaque code.
- Signature verification, the program id and account ownership belong to the runtime. Signers are given identities.
- The on-chain byte layout of the state account (discriminator plus `State::SIZE = 33`) is Borsh serialisation done by the framework.
- Error message strings are left out. Only the error kind is modelled.
- The pause flag gates only instructions that name a paused state account. The token program also accepts calls signed directly by token holders or by the mint and freeze authorities. Those calls are outside this model.
- Every instruction is assumed to name the one state account created at initialisation. The source does not enforce this: the `state` account of the asset and pause contexts (lib.rs:172, 184, 196, 208, 220, 229) has no `has_one`, `seeds` or `address` constraint, so any `State` account owned by the program is accepted. A caller who passes another, unpaused `State` account gets `mint_tokens` and the other asset instructions forwarded while the first account is paused. `PausedChainIsFrozen` and `ForwardedCallsWereRequested` hold under this single-account assumption.
- `initialize_token` is not an `Instruction` after `Genesis`. The model assumes that Anchor's `init` constraint (lib.rs:153) refuses a second initialisation of the same state account. `AdminFixedAfterInitialization` relies on that assumption.
- `10_u64.pow(9)` and the product are modelled as overflow-checked (a panic aborts). Since the supply is proved not to overflow, wrapping arithmetic would give the same value.
- The admin recorded is the `admin` signer of `initialize_token` (lib.rs:14), which may differ from the mint authority that pays for the mint.
- The TypeScript test calls an `initialize` method that the program does not define and asserts nothing. It contributes no property.
