/**
  The program as a sequence of transactions. Each instruction runs to
  completion atomically: on any error neither the control state nor the
  token program sees an effect. A `Chain` is what has been committed so far,
  the control state and the calls the token program has carried out on this
  program's behalf.
 */
module Transactions {
  import opened Types
  import opened TokenLedger
  import opened Errors
  import opened Control
  import Gate

  /** The arguments of the five asset instructions. */
  datatype AssetOp =
    | MintTokens(mint: Pubkey, to: Pubkey, mintAuthority: Pubkey, amount: U64)
    | BurnTokens(mint: Pubkey, from: Pubkey, authority: Pubkey, amount: U64)
    | TransferTokens(from: Pubkey, to: Pubkey, authority: Pubkey, amount: U64)
    | FreezeTokenAccount(account: Pubkey, mint: Pubkey, freezeAuthority: Pubkey)
    | ThawTokenAccount(account: Pubkey, mint: Pubkey, freezeAuthority: Pubkey)

  /** The instructions that follow initialisation. */
  datatype Instruction = Asset(op: AssetOp) | PauseContract | UnpauseContract

  /**
    One transaction: the already-authenticated signer, the instruction, and
    the answer the token program gives if a call is forwarded to it.
   */
  datatype Tx = Tx(signer: Pubkey, instr: Instruction, reply: LedgerReply)

  /** Committed state: the control state and the token-program calls carried out so far. */
  datatype Chain = Chain(state: ControlState, log: seq<LedgerCall>)

  datatype Effect = Effect(chain: Chain, outcome: Result<()>)

  /** The token-program operation each asset request stands for, with its own accounts and amount. */
  function Requested(op: AssetOp): LedgerCall
  {
    match op
    case MintTokens(mint, to, auth, amount) => MintTo(mint, to, auth, amount)
    case BurnTokens(mint, from, auth, amount) => Burn(mint, from, auth, amount)
    case TransferTokens(from, to, auth, amount) => Transfer(from, to, auth, amount)
    case FreezeTokenAccount(account, mint, auth) => FreezeAccount(account, mint, auth)
    case ThawTokenAccount(account, mint, auth) => ThawAccount(account, mint, auth)
  }

  /**
    The five asset handlers behave alike: the pause flag alone decides
    rejection, and otherwise exactly the requested operation is forwarded
    and the token program's answer returned.
   */
  function Dispatch(s: ControlState, op: AssetOp, reply: LedgerReply): (r: Gate.Response)
    ensures r.outcome == Err(ContractPaused) <==> s.isPaused
    ensures r.cpi == if s.isPaused then None else Some(Requested(op))
    ensures !s.isPaused ==> r.outcome == Propagate(reply)
  {
    match op
    case MintTokens(mint, to, auth, amount) => Gate.MintTokens(s, mint, to, auth, amount, reply)
    case BurnTokens(mint, from, auth, amount) => Gate.BurnTokens(s, mint, from, auth, amount, reply)
    case TransferTokens(from, to, auth, amount) => Gate.TransferTokens(s, from, to, auth, amount, reply)
    case FreezeTokenAccount(account, mint, auth) => Gate.FreezeTokenAccount(s, account, mint, auth, reply)
    case ThawTokenAccount(account, mint, auth) => Gate.ThawTokenAccount(s, account, mint, auth, reply)
  }

  /** The committed state right after a successful `initialize_token`, or its error. */
  function Genesis(admin: Pubkey, mint: Pubkey, to: Pubkey, mintAuthority: Pubkey,
                   reply: LedgerReply): (r: Result<Chain>)
    ensures r.Ok? <==> reply.Done?
    ensures r.Ok? ==>
              r.value == Chain(ControlState(false, admin), [MintTo(mint, to, mintAuthority, TOTAL_SUPPLY)])
    ensures reply.Refused? ==> r == Err(LedgerError(reply.code))
  {
    var init := Initialization(admin, mint, to, mintAuthority, reply);
    match init.state
    case Ok(s) => Ok(Chain(s, [init.cpi]))
    case Err(e) => Err(e)
  }

  /** One transaction, committed only when it succeeds. */
  function Step(c: Chain, tx: Tx): (r: Effect)
    ensures r.outcome.Err? ==> r.chain == c
    ensures r.chain.state.admin == c.state.admin
    ensures tx.instr.Asset? ==> r.chain.state == c.state
    ensures tx.instr.Asset? ==> (r.outcome == Err(ContractPaused) <==> c.state.isPaused)
    ensures tx.instr.Asset? && !c.state.isPaused ==> r.outcome == Propagate(tx.reply)
    ensures tx.instr.Asset? ==>
              r.chain.log == c.log + if r.outcome.Ok? then [Requested(tx.instr.op)] else []
    ensures !tx.instr.Asset? ==> r.chain.log == c.log
    ensures !tx.instr.Asset? ==> (r.outcome.Ok? <==> tx.signer == c.state.admin)
    ensures !tx.instr.Asset? && tx.signer != c.state.admin ==> r.outcome == Err(Unauthorized)
    ensures tx.instr.PauseContract? && tx.signer == c.state.admin ==> r.chain.state.isPaused
    ensures tx.instr.UnpauseContract? && tx.signer == c.state.admin ==> !r.chain.state.isPaused
  {
    match tx.instr
    case Asset(op) =>
      var resp := Dispatch(c.state, op, tx.reply);
      if resp.outcome.Ok? then Effect(Chain(c.state, c.log + [resp.cpi.value]), Ok(()))
      else Effect(c, resp.outcome)
    case PauseContract =>
      var t := AdminSetPaused(c.state, tx.signer, true);
      Effect(Chain(t.next, c.log), t.outcome)
    case UnpauseContract =>
      var t := AdminSetPaused(c.state, tx.signer, false);
      Effect(Chain(t.next, c.log), t.outcome)
  }

  /** The committed state after running `txs` in order. */
  function Run(c: Chain, txs: seq<Tx>): Chain
    decreases |txs|
  {
    if txs == [] then c else Run(Step(c, txs[0]).chain, txs[1..])
  }

  /** Running one more transaction at the end is one more step. */
  lemma {:induction false} RunAppend(c: Chain, txs: seq<Tx>, tx: Tx)
    ensures Run(c, txs + [tx]) == Step(Run(c, txs), tx).chain
    decreases |txs|
  {
    if txs == [] {
      assert [tx][1..] == [];
    } else {
      assert (txs + [tx])[1..] == txs[1..] + [tx];
      RunAppend(Step(c, txs[0]).chain, txs[1..], tx);
    }
  }

  /** No sequence of instructions changes the admin recorded at initialisation. */
  lemma {:induction false} RunPreservesAdmin(c: Chain, txs: seq<Tx>)
    ensures Run(c, txs).state.admin == c.state.admin
    decreases |txs|
  {
    if txs != [] {
      RunPreservesAdmin(Step(c, txs[0]).chain, txs[1..]);
    }
  }

  /** After initialisation by `admin`, whatever follows, the admin is still `admin`. */
  lemma AdminFixedAfterInitialization(admin: Pubkey, mint: Pubkey, to: Pubkey, mintAuthority: Pubkey,
                                       reply: LedgerReply, txs: seq<Tx>)
    requires Genesis(admin, mint, to, mintAuthority, reply).Ok?
    ensures Run(Genesis(admin, mint, to, mintAuthority, reply).value, txs).state.admin == admin
  {
    RunPreservesAdmin(Genesis(admin, mint, to, mintAuthority, reply).value, txs);
  }

  /** A pause instruction signed by `admin`. */
  predicate IsAdminPause(admin: Pubkey, tx: Tx)
  {
    tx.instr.PauseContract? && tx.signer == admin
  }

  /** An unpause instruction signed by `admin`. */
  predicate IsAdminUnpause(admin: Pubkey, tx: Tx)
  {
    tx.instr.UnpauseContract? && tx.signer == admin
  }

  /**
    The pause flag as a function of the history: the value set by the
    admin's most recent pause or unpause in `txs`, or `initial` if there was
    none.
   */
  function LastPauseSetting(admin: Pubkey, initial: bool, txs: seq<Tx>): bool
    decreases |txs|
  {
    if txs == [] then initial
    else
      var last := txs[|txs| - 1];
      if IsAdminPause(admin, last) then true
      else if IsAdminUnpause(admin, last) then false
      else LastPauseSetting(admin, initial, txs[..|txs| - 1])
  }

  /** The pause flag after any run is exactly what the admin last set it to. */
  lemma {:induction false} RunPauseFlag(c: Chain, txs: seq<Tx>)
    ensures Run(c, txs).state.isPaused == LastPauseSetting(c.state.admin, c.state.isPaused, txs)
    decreases |txs|
  {
    if txs != [] {
      var init, last := txs[..|txs| - 1], txs[|txs| - 1];
      assert txs == init + [last];
      RunAppend(c, init, last);
      RunPauseFlag(c, init);
      RunPreservesAdmin(c, init);
    }
  }

  /**
    While the contract is paused, and until the admin unpauses it, nothing
    changes at all: every asset instruction is rejected and nothing reaches
    the token program.
   */
  lemma {:induction false} PausedChainIsFrozen(c: Chain, txs: seq<Tx>)
    requires c.state.isPaused
    requires forall i :: 0 <= i < |txs| ==> !IsAdminUnpause(c.state.admin, txs[i])
    ensures Run(c, txs) == c
    decreases |txs|
  {
    if txs != [] {
      assert !IsAdminUnpause(c.state.admin, txs[0]);
      assert Step(c, txs[0]).chain == c;
      assert forall i :: 0 <= i < |txs[1..]| ==> txs[1..][i] == txs[i + 1];
      PausedChainIsFrozen(c, txs[1..]);
    }
  }

  /**
    Without a pause or unpause signed by the admin, the control state stays
    as it is: asset instructions never write it and nobody else can.
   */
  lemma {:induction false} OnlyAdminTogglesState(c: Chain, txs: seq<Tx>)
    requires forall i :: 0 <= i < |txs| ==>
               !IsAdminPause(c.state.admin, txs[i]) && !IsAdminUnpause(c.state.admin, txs[i])
    ensures Run(c, txs).state == c.state
    decreases |txs|
  {
    if txs != [] {
      var next := Step(c, txs[0]).chain;
      assert next.state == c.state;
      assert forall i :: 0 <= i < |txs[1..]| ==> txs[1..][i] == txs[i + 1];
      OnlyAdminTogglesState(next, txs[1..]);
    }
  }

  /** The operations the asset instructions of `txs` ask for, in order. */
  function RequestedCalls(txs: seq<Tx>): seq<LedgerCall>
    decreases |txs|
  {
    if txs == [] then []
    else (if txs[0].instr.Asset? then [Requested(txs[0].instr.op)] else []) + RequestedCalls(txs[1..])
  }

  /** `a` is `b` with some elements left out, order kept. */
  predicate IsSubsequence(a: seq<LedgerCall>, b: seq<LedgerCall>)
    decreases |b|
  {
    a == [] || (b != [] && ((a[0] == b[0] && IsSubsequence(a[1..], b[1..])) || IsSubsequence(a, b[1..])))
  }

  lemma SubsequenceSkip(a: seq<LedgerCall>, y: LedgerCall, b: seq<LedgerCall>)
    requires IsSubsequence(a, b)
    ensures IsSubsequence(a, [y] + b)
  {
  }

  lemma SubsequenceKeep(y: LedgerCall, a: seq<LedgerCall>, b: seq<LedgerCall>)
    requires IsSubsequence(a, b)
    ensures IsSubsequence([y] + a, [y] + b)
  {
  }

  /**
    The token program only ever receives what callers asked for: a run
    appends to the log (never rewrites it), and what it appends is some of
    the requested operations, in request order, each with its accounts and
    amount unchanged.
   */
  lemma {:induction false} ForwardedCallsWereRequested(c: Chain, txs: seq<Tx>)
    returns (added: seq<LedgerCall>)
    ensures Run(c, txs).log == c.log + added
    ensures IsSubsequence(added, RequestedCalls(txs))
    decreases |txs|
  {
    if txs == [] {
      added := [];
    } else {
      var tx := txs[0];
      var next := Step(c, tx).chain;
      var later := ForwardedCallsWereRequested(next, txs[1..]);
      var rest := RequestedCalls(txs[1..]);
      if tx.instr.Asset? {
        var call := Requested(tx.instr.op);
        assert RequestedCalls(txs) == [call] + rest;
        if next.log == c.log {
          added := later;
          SubsequenceSkip(later, call, rest);
        } else {
          added := [call] + later;
          SubsequenceKeep(call, later, rest);
        }
      } else {
        assert RequestedCalls(txs) == rest;
        added := later;
      }
    }
  }

  /**
    Admin A initialises and pauses; then B, who is not the admin, tries a
    transfer: the result is `ContractPaused`, decided before B's authority
    is looked at, and the token program has seen only the initial mint.
   */
  lemma PausedTransferByStranger(a: Pubkey, b: Pubkey, mint: Pubkey, to: Pubkey, mintAuthority: Pubkey,
                                 from: Pubkey, dest: Pubkey, amount: U64, reply: LedgerReply)
    requires a != b
    ensures var g := Genesis(a, mint, to, mintAuthority, Done).value;
            var paused := Step(g, Tx(a, PauseContract, reply));
            var moved := Step(paused.chain, Tx(b, Asset(TransferTokens(from, dest, b, amount)), reply));
            paused.outcome == Ok(()) && moved.outcome == Err(ContractPaused)
            && moved.chain.log == [MintTo(mint, to, mintAuthority, TOTAL_SUPPLY)]
  {
  }
}
