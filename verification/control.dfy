/**
  The control state of the program: the pause flag and the admin key, the
  only data the program itself owns, together with the three instructions
  that write it (initialisation, pause, unpause) and the fixed initial supply.
 */
module Control {
  import opened Types
  import opened TokenLedger
  import opened Errors

  /** The value stored in the state account: `{ is_paused, admin }`. */
  datatype ControlState = ControlState(isPaused: bool, admin: Pubkey)

  /** The result of an admin instruction: the state to commit and the instruction's result. */
  datatype Transition = Transition(next: ControlState, outcome: Result<()>)

  /**
    What pause (`value == true`) and unpause (`value == false`) do to the
    state when signed by `signer`: only the admin may set the flag, and the
    flag's current value is not consulted.
   */
  function AdminSetPaused(s: ControlState, signer: Pubkey, value: bool): (r: Transition)
    ensures r.outcome.Ok? <==> signer == s.admin
    ensures signer != s.admin ==> r.outcome == Err(Unauthorized) && r.next == s
    ensures signer == s.admin ==> r.next.isPaused == value
    ensures r.next.admin == s.admin
  {
    if signer != s.admin then Transition(s, Err(Unauthorized))
    else Transition(s.(isPaused := value), Ok(()))
  }

  /** Pausing twice in a row is the same as pausing once, and likewise for unpausing. */
  lemma SetPausedIdempotent(s: ControlState, signer: Pubkey, value: bool)
    ensures AdminSetPaused(AdminSetPaused(s, signer, value).next, signer, value)
            == AdminSetPaused(s, signer, value)
  {
  }

  /** The admin pausing an active contract and then unpausing it restores the original state. */
  lemma PauseUnpauseRoundTrip(s: ControlState)
    requires !s.isPaused
    ensures AdminSetPaused(AdminSetPaused(s, s.admin, true).next, s.admin, false)
            == Transition(s, Ok(()))
  {
  }

  /** Pausing never locks the admin out: from any state the admin can unpause and can pause. */
  lemma NoTerminalState(s: ControlState)
    ensures AdminSetPaused(s, s.admin, false) == Transition(ControlState(false, s.admin), Ok(()))
    ensures AdminSetPaused(s, s.admin, true) == Transition(ControlState(true, s.admin), Ok(()))
  {
  }

  // ----- the fixed initial supply -----

  /** Number of decimal places of the mint. */
  const DECIMALS: nat := 9

  /** Whole tokens minted at initialisation. */
  const WHOLE_TOKENS: U64 := 100_000_000

  /** 100,000,000 tokens of 9 decimals, in base units. */
  const TOTAL_SUPPLY: U64 := 100_000_000_000_000_000

  function Pow(base: nat, exp: nat): nat
  {
    if exp == 0 then 1 else base * Pow(base, exp - 1)
  }

  /** `u64` multiplication with overflow checks: `None` stands for the panic that aborts the instruction. */
  function CheckedMul(a: U64, b: U64): (r: Option<U64>)
    ensures r.Some? <==> a * b < U64_BOUND
    ensures r.Some? ==> r.value == a * b
  {
    if a * b < U64_BOUND then Some(a * b) else None
  }

  /** `u64::pow` with overflow checks: it succeeds exactly when the true power fits in 64 bits. */
  function CheckedPow(base: U64, exp: nat): (r: Option<U64>)
    ensures r.Some? <==> Pow(base, exp) < U64_BOUND
    ensures r.Some? ==> r.value == Pow(base, exp)
  {
    if exp == 0 then Some(1)
    else
      match CheckedPow(base, exp - 1)
      case None =>
        PowOverflowPersists(base, exp - 1);
        None
      case Some(p) => CheckedMul(base, p)
  }

  /** Once a power has overflowed, multiplying by the base once more does not bring it back. */
  lemma PowOverflowPersists(base: nat, exp: nat)
    requires Pow(base, exp) >= U64_BOUND
    ensures Pow(base, exp + 1) >= U64_BOUND
  {
  }

  /** The supply expression `100_000_000 * 10_u64.pow(9)`: it does not overflow and equals 10^17. */
  function InitialSupply(): (r: Option<U64>)
    ensures r == Some(TOTAL_SUPPLY)
  {
    match CheckedPow(10, DECIMALS)
    case None => None
    case Some(p) => CheckedMul(WHOLE_TOKENS, p)
  }

  // ----- initialisation -----

  /** What initialisation yields: the new state (or the error that rolls it back) and the mint it forwards. */
  datatype Init = Init(state: Result<ControlState>, cpi: LedgerCall)

  /**
    `initialize_token`: records the admin with the flag cleared and forwards
    one mint of the whole initial supply to `to`; a refusal by the token
    program aborts the instruction, so no state is created.
   */
  function Initialization(admin: Pubkey, mint: Pubkey, to: Pubkey, mintAuthority: Pubkey,
                          reply: LedgerReply): (r: Init)
    ensures r.cpi == MintTo(mint, to, mintAuthority, 100_000_000_000_000_000)
    ensures r.state.Ok? <==> reply.Done?
    ensures r.state.Ok? ==> r.state.value == ControlState(false, admin)
    ensures reply.Refused? ==> r.state == Err(LedgerError(reply.code))
  {
    var supply := InitialSupply().value;
    var cpi := MintTo(mint, to, mintAuthority, supply);
    match Propagate(reply)
    case Ok(_) => Init(Ok(ControlState(false, admin)), cpi)
    case Err(e) => Init(Err(e), cpi)
  }

  /** The state account, which the admin instructions update in place. */
  class StateAccount {
    var isPaused: bool
    var admin: Pubkey

    /** The stored value. */
    function Data(): ControlState
      reads this
    {
      ControlState(isPaused, admin)
    }

    constructor (admin: Pubkey)
      ensures Data() == ControlState(false, admin)
    {
      this.isPaused := false;
      this.admin := admin;
    }

    /** `pause_contract`: the admin sets the flag; anyone else gets `Unauthorized`. */
    method PauseContract(signer: Pubkey) returns (outcome: Result<()>)
      modifies this
      ensures Data() == AdminSetPaused(old(Data()), signer, true).next
      ensures outcome == AdminSetPaused(old(Data()), signer, true).outcome
      ensures admin == old(admin)
      ensures signer == old(admin) ==> isPaused && outcome == Ok(())
      ensures signer != old(admin) ==> isPaused == old(isPaused) && outcome == Err(Unauthorized)
    {
      if signer != admin {
        return Err(Unauthorized);
      }
      isPaused := true;
      outcome := Ok(());
    }

    /** `unpause_contract`: the admin clears the flag; anyone else gets `Unauthorized`. */
    method UnpauseContract(signer: Pubkey) returns (outcome: Result<()>)
      modifies this
      ensures Data() == AdminSetPaused(old(Data()), signer, false).next
      ensures outcome == AdminSetPaused(old(Data()), signer, false).outcome
      ensures admin == old(admin)
      ensures signer == old(admin) ==> !isPaused && outcome == Ok(())
      ensures signer != old(admin) ==> isPaused == old(isPaused) && outcome == Err(Unauthorized)
    {
      if signer != admin {
        return Err(Unauthorized);
      }
      isPaused := false;
      outcome := Ok(());
    }
  }

  /**
    `initialize_token`, step by step: write the state account, compute the
    supply, forward the mint. If the token program refuses, the transaction
    is rolled back and no account exists afterwards (`null`).
   */
  method InitializeToken(admin: Pubkey, mint: Pubkey, to: Pubkey, mintAuthority: Pubkey,
                         reply: LedgerReply)
    returns (account: StateAccount?, outcome: Result<()>, cpi: LedgerCall)
    ensures cpi == Initialization(admin, mint, to, mintAuthority, reply).cpi
    ensures outcome == Propagate(reply)
    ensures account != null <==> Initialization(admin, mint, to, mintAuthority, reply).state.Ok?
    ensures account != null ==> fresh(account)
    ensures account != null ==>
              account.Data() == Initialization(admin, mint, to, mintAuthority, reply).state.value
  {
    account := new StateAccount(admin);
    var supply := InitialSupply();
    cpi := MintTo(mint, to, mintAuthority, supply.value);
    outcome := Propagate(reply);
    if outcome.Err? {
      account := null;
    }
  }

  /**
    The admin pausing an active account and then unpausing it, in place:
    both calls succeed and the account ends holding exactly what it held.
   */
  method PauseUnpauseInPlace(account: StateAccount) returns (paused: Result<()>, unpaused: Result<()>)
    requires !account.isPaused
    modifies account
    ensures paused == Ok(()) && unpaused == Ok(())
    ensures account.Data() == old(account.Data())
  {
    var who := account.admin;
    paused := account.PauseContract(who);
    assert account.isPaused;
    unpaused := account.UnpauseContract(who);
  }
}
