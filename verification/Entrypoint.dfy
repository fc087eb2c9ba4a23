/** The program's entry point on a bank: `Processor::process`, `_process_inner` and the
    loop of `process_batch`, and the transaction around them. */
module Entrypoint {
  import opened Base
  import opened ByteStrings
  import opened State
  import opened Processor
  import opened TokenBank
  import opened BatchProcessing
  import opened Runs
  import opened Invariant
  import opened Transactions

  method Dispatch(bank: Bank, env: Env, accounts: seq<Meta>, op: Operation) returns (r: Result<()>)
    modifies bank
    ensures Ends(r, bank.ledger, Apply(env, old(bank.ledger), accounts, op))
  {
    match op {
      case OpInitializeMint(decimals, auth, freeze, rent) =>
        r := bank.ProcessInitializeMint(env, accounts, decimals, auth, freeze, rent);
      case OpInitializeAccount(owner, rent) => r := bank.ProcessInitializeAccount(env, accounts, owner, rent);
      case OpInitializeMultisig(m, rent) => r := bank.ProcessInitializeMultisig(env, accounts, m, rent);
      case OpTransfer(amount, kind) => r := bank.ProcessTransfer(env, accounts, amount, kind);
      case OpApprove(amount, checked) => r := bank.ProcessApprove(env, accounts, amount, checked);
      case OpRevoke => r := bank.ProcessRevoke(accounts);
      case OpSetAuthority(kind, auth) => r := bank.ProcessSetAuthority(env, accounts, kind, auth);
      case OpMintTo(amount, checked) => r := bank.ProcessMintTo(accounts, amount, checked);
      case OpBurn(amount, permissioned, checked) => r := bank.ProcessBurn(env, accounts, amount, permissioned, checked);
      case OpCloseAccount => r := bank.ProcessCloseAccount(env, accounts);
      case OpToggleFreeze(freeze) => r := bank.ProcessToggleFreeze(accounts, freeze);
      case OpSyncNative => r := bank.ProcessSyncNative(env, accounts);
      case OpWithdrawExcessLamports => r := bank.ProcessWithdrawExcessLamports(env, accounts);
      case OpUnwrapLamports(requested) => r := bank.ProcessUnwrapLamports(env, accounts, requested);
      case OpCreateNativeMint => r := bank.ProcessCreateNativeMint(env, accounts);
    }
  }

  /** `_process_inner`. */
  method RunInner(bank: Bank, env: Env, accounts: seq<Meta>, input: Bytes) returns (r: Result<()>)
    modifies bank
    ensures Ends(r, bank.ledger, Inner(env)(old(bank.ledger), accounts, input))
  {
    var op :- Decode(input);
    r := Dispatch(bank, env, accounts, op);
  }

  /** `process_batch`: each turn takes a header, its accounts and its data off the front,
      so at least two bytes; the loop ends when the data ends with a frame. */
  method RunBatch(bank: Bank, env: Env, allAccounts: seq<Meta>, allData: Bytes) returns (r: Result<()>)
    modifies bank
    ensures Ends(r, bank.ledger, BatchFrom(Inner(env), old(bank.ledger), allAccounts, allData))
  {
    var accounts, data := allAccounts, allData;
    ghost var run := Inner(env);
    ghost var whole := BatchFrom(run, bank.ledger, accounts, data);
    while true
      invariant BatchFrom(run, bank.ledger, accounts, data) == whole
      decreases |data|
    {
      if |data| < 2 { return Err(InvalidInstruction); }
      var expectedAccounts, dataOffset := data[0], DataEnd(data);
      if |accounts| < expectedAccounts { return Err(NotEnoughAccountKeys); }
      if |data| < dataOffset { return Err(InvalidInstruction); }
      var step := RunInner(bank, env, accounts[..expectedAccounts], data[2..dataOffset]);
      if step.Err? { return step; }
      if dataOffset == |data| { return Ok(()); }
      accounts := accounts[expectedAccounts..];
      data := data[dataOffset..];
    }
  }

  /** `Processor::process`. */
  method RunProcess(bank: Bank, env: Env, accounts: seq<Meta>, input: Bytes) returns (r: Result<()>)
    modifies bank
    ensures Ends(r, bank.ledger, Process(env, old(bank.ledger), accounts, input))
  {
    if input != [] && input[0] == 255 {
      r := RunBatch(bank, env, accounts, input[1..]);
    } else {
      r := RunInner(bank, env, accounts, input);
    }
  }

  lemma TransactKeeps(env: Env, l: Ledger, call: Call)
    requires Inv(env, l)
    ensures Inv(env, Transact(env, l, call))
  {
    var events := TransactionIsRun(env, l, call);
    ExecKeeps(env, l, events);
  }

  /** A transaction: the runtime puts the ledger back when the program fails, whatever
      the handlers had written by then. */
  method Execute(bank: Bank, env: Env, call: Call) returns (r: Result<()>)
    modifies bank
    ensures bank.ledger == Transact(env, old(bank.ledger), call)
    ensures r.Err? ==> bank.ledger == old(bank.ledger)
    ensures old(Inv(env, bank.ledger)) ==> Inv(env, bank.ledger)
  {
    var saved := bank.ledger;
    r := RunProcess(bank, CallEnv(env, call), call.accounts, call.input);
    if r.Err? {
      bank.ledger := saved;
    }
    if Inv(env, saved) {
      TransactKeeps(env, saved, call);
    }
  }
}
