/** From input bytes to the ledger: `Processor::process`, `_process_inner` and
    `process_batch`, and that a batch is its instructions one after another. */
module BatchProcessing {
  import opened Base
  import opened ByteStrings
  import opened State
  import opened Processor
  import opened InstructionCodec
  import opened PodInstruction

  /** The transfer-fee extension's own instruction byte 1 is TransferCheckedWithFee. */
  function TransferFeeOperation(data: Bytes): Result<Operation> {
    if data == [] then Err(InvalidInstruction)
    else if data[0] != 1 then Err(NotModelled)
    else
      var pair :- UnpackAmountDecimals(data[1..]);
      var fee :- UnpackU64(pair.rest);
      Ok(OpTransfer(pair.value.amount, CheckedWithFee(pair.value.decimals, fee.value)))
  }

  /** Of the permissioned-burn extension, instruction bytes 1 and 2 burn. */
  function PermissionedBurnOperation(data: Bytes): Result<Operation> {
    if data == [] then Err(InvalidInstructionData)
    else if data[0] == 1 then (var d :- DecodeData(data, 8); Ok(OpBurn(U64Of(d), true, None)))
    else if data[0] == 2 then (var d :- DecodeData(data, 9); Ok(OpBurn(U64Of(d[..8]), true, Some(d[8]))))
    else Err(NotModelled)
  }

  /** The handler and arguments `_process_inner` dispatches a decoded instruction to. */
  function ToOperation(ins: TokenInstruction, input: Bytes): Result<Operation>
    requires input != []
  {
    match ins
    case InitializeMint(decimals, key, freeze) => Ok(OpInitializeMint(decimals, key, freeze, true))
    case InitializeMint2(decimals, key, freeze) => Ok(OpInitializeMint(decimals, key, freeze, false))
    case InitializeAccount => Ok(OpInitializeAccount(None, true))
    case InitializeAccount2(owner) => Ok(OpInitializeAccount(Some(owner), true))
    case InitializeAccount3(owner) => Ok(OpInitializeAccount(Some(owner), false))
    case InitializeMultisig(m) => Ok(OpInitializeMultisig(m, true))
    case InitializeMultisig2(m) => Ok(OpInitializeMultisig(m, false))
    case Transfer(amount) => Ok(OpTransfer(amount, Unchecked))
    case TransferChecked(amount, decimals) => Ok(OpTransfer(amount, TransferKind.Checked(decimals)))
    case TransferFeeExtension => TransferFeeOperation(input[1..])
    case Approve(amount) => Ok(OpApprove(amount, None))
    case ApproveChecked(amount, decimals) => Ok(OpApprove(amount, Some(decimals)))
    case Revoke => Ok(OpRevoke)
    case SetAuthority(kind, key) => Ok(OpSetAuthority(kind, key))
    case MintTo(amount) => Ok(OpMintTo(amount, None))
    case MintToChecked(amount, decimals) => Ok(OpMintTo(amount, Some(decimals)))
    case Burn(amount) => Ok(OpBurn(amount, false, None))
    case BurnChecked(amount, decimals) => Ok(OpBurn(amount, false, Some(decimals)))
    case PermissionedBurnExtension => PermissionedBurnOperation(input[1..])
    case CloseAccount => Ok(OpCloseAccount)
    case FreezeAccount => Ok(OpToggleFreeze(true))
    case ThawAccount => Ok(OpToggleFreeze(false))
    case SyncNative => Ok(OpSyncNative)
    case WithdrawExcessLamports => Ok(OpWithdrawExcessLamports)
    case UnwrapLamports(requested) => Ok(OpUnwrapLamports(requested))
    case CreateNativeMint => Ok(OpCreateNativeMint)
    case _ => Err(NotModelled)
  }

  function Decode(input: Bytes): Result<Operation> {
    var ins :- PodDecode(input);
    if input == [] then Err(InvalidInstruction) else ToOperation(ins, input)
  }

  /** `_process_inner`. */
  function ProcessInner(env: Env, l: Ledger, accounts: seq<Meta>, input: Bytes): Result<Ledger> {
    var op :- Decode(input);
    Apply(env, l, accounts, op)
  }

  /** How one instruction acts on the ledger, given its accounts and its data. */
  type Step = (Ledger, seq<Meta>, Bytes) -> Result<Ledger>

  function Inner(env: Env): Step {
    (l, accounts, input) => ProcessInner(env, l, accounts, input)
  }

  /** Where the instruction data at the front of a batch ends. */
  function DataEnd(data: Bytes): nat
    requires |data| >= 2
  {
    2 + data[1] as nat
  }

  /** The batch loop from any point on, one turn at a time. */
  function BatchFrom(run: Step, l: Ledger, accounts: seq<Meta>, data: Bytes): Result<Ledger>
    decreases |data|
  {
    var _ :- Need(|data| >= 2, InvalidInstruction);
    var _ :- Need(|accounts| >= data[0], NotEnoughAccountKeys);
    var _ :- Need(|data| >= DataEnd(data), InvalidInstruction);
    var l' :- run(l, accounts[..data[0]], data[2..DataEnd(data)]);
    if DataEnd(data) == |data| then Ok(l')
    else BatchFrom(run, l', accounts[data[0]..], data[DataEnd(data)..])
  }

  /** `Processor::process`. */
  function Process(env: Env, l: Ledger, accounts: seq<Meta>, input: Bytes): Result<Ledger> {
    if input != [] && input[0] == 255 then BatchFrom(Inner(env), l, accounts, input[1..])
    else ProcessInner(env, l, accounts, input)
  }

  // ---------------------------------------------------------------- a batch is a fold

  /** One instruction of a batch: its own accounts and its own data. */
  datatype Sub = Sub(accounts: seq<Meta>, data: Bytes)

  predicate Fits(sub: Sub) {
    |sub.accounts| < 0x100 && |sub.data| < 0x100
  }

  predicate AllFit(subs: seq<Sub>) {
    forall i | 0 <= i < |subs| :: Fits(subs[i])
  }

  function Frame(sub: Sub): Bytes
    requires Fits(sub)
  {
    [|sub.accounts|, |sub.data|] + sub.data
  }

  function Frames(subs: seq<Sub>): Bytes
    requires AllFit(subs)
  {
    if subs == [] then [] else Frame(subs[0]) + Frames(subs[1..])
  }

  function AllAccounts(subs: seq<Sub>): seq<Meta> {
    if subs == [] then [] else subs[0].accounts + AllAccounts(subs[1..])
  }

  /** The instructions one after another, each on the ledger the last one left. */
  function Sequential(run: Step, l: Ledger, subs: seq<Sub>): Result<Ledger>
    decreases |subs|
  {
    if subs == [] then Ok(l)
    else
      var l' :- run(l, subs[0].accounts, subs[0].data);
      Sequential(run, l', subs[1..])
  }

  lemma FrameSplits(sub: Sub, rest: Bytes)
    requires Fits(sub)
    ensures var data := Frame(sub) + rest;
            && |data| >= 2 && data[0] == |sub.accounts| && DataEnd(data) == 2 + |sub.data| <= |data|
            && data[2..DataEnd(data)] == sub.data && data[DataEnd(data)..] == rest
  {
  }

  lemma AccountsSplit(first: seq<Meta>, more: seq<Meta>, extra: seq<Meta>)
    ensures var accounts := (first + more) + extra;
            accounts[..|first|] == first && accounts[|first|..] == more + extra
  {
  }

  /** A batch runs exactly its instructions, in order: it succeeds if and only if all of
      them do one after another, with the ledger the last one leaves, and otherwise fails
      with the first one's error. Accounts left over at the end do not matter. */
  lemma {:induction false} BatchIsSequential(run: Step, l: Ledger, subs: seq<Sub>, extra: seq<Meta>)
    requires subs != [] && AllFit(subs)
    ensures BatchFrom(run, l, AllAccounts(subs) + extra, Frames(subs)) == Sequential(run, l, subs)
    decreases |subs|
  {
    FrameSplits(subs[0], Frames(subs[1..]));
    AccountsSplit(subs[0].accounts, AllAccounts(subs[1..]), extra);
    var first := run(l, subs[0].accounts, subs[0].data);
    if first.Ok? {
      if |subs| > 1 {
        assert Frames(subs[1..]) != [];
        BatchIsSequential(run, first.value, subs[1..], extra);
      } else {
        assert Frames(subs[1..]) == [];
      }
    }
  }

  /** The instructions a batch's bytes and accounts consist of, as far as they go. */
  function Cut(accounts: seq<Meta>, data: Bytes): seq<Sub>
    decreases |data|
  {
    if |data| < 2 || |accounts| < data[0] || |data| < DataEnd(data) then []
    else [Sub(accounts[..data[0]], data[2..DataEnd(data)])] + Cut(accounts[data[0]..], data[DataEnd(data)..])
  }

  lemma CutsRejoin(accounts: seq<Meta>, data: Bytes)
    requires |data| >= 2 && |accounts| >= data[0] && |data| >= DataEnd(data)
    ensures var sub := Sub(accounts[..data[0]], data[2..DataEnd(data)]);
            && Fits(sub) && data == Frame(sub) + data[DataEnd(data)..] && accounts == sub.accounts + accounts[data[0]..]
  {
  }

  /** Conversely, whatever a batch accepts is such a sequence of frames. */
  lemma {:induction false} AcceptedBatchIsFrames(run: Step, l: Ledger, accounts: seq<Meta>, data: Bytes)
    requires BatchFrom(run, l, accounts, data).Ok?
    ensures var subs := Cut(accounts, data);
            && subs != [] && AllFit(subs) && Frames(subs) == data && AllAccounts(subs) <= accounts
            && Sequential(run, l, subs) == BatchFrom(run, l, accounts, data)
    decreases |data|
  {
    CutsRejoin(accounts, data);
    var end := DataEnd(data);
    var sub := Sub(accounts[..data[0]], data[2..end]);
    var subs := Cut(accounts, data);
    var more := Cut(accounts[data[0]..], data[end..]);
    assert subs[0] == sub && subs[1..] == more;
    var l' := run(l, sub.accounts, sub.data).value;
    if end < |data| {
      AcceptedBatchIsFrames(run, l', accounts[data[0]..], data[end..]);
    } else {
      assert more == [];
    }
  }

  ghost predicate Refuses(run: Step, tag: u8) {
    forall l, accounts, input: Bytes | input != [] && input[0] == tag :: run(l, accounts, input).Err?
  }

  lemma InnerRefusesBatches(env: Env)
    ensures Refuses(Inner(env), 255)
  {
    forall l, accounts, input: Bytes | input != [] && input[0] == 255
      ensures Inner(env)(l, accounts, input).Err?
    {
      assert Decode(input) == Err(InvalidInstruction);
    }
  }

  lemma {:induction false} OneRefusalIsEnough(run: Step, l: Ledger, subs: seq<Sub>, i: nat)
    requires i < |subs| && subs[i].data != [] && Refuses(run, subs[i].data[0])
    ensures Sequential(run, l, subs).Err?
    decreases i
  {
    if i > 0 {
      var first := run(l, subs[0].accounts, subs[0].data);
      if first.Ok? {
        OneRefusalIsEnough(run, first.value, subs[1..], i - 1);
      }
    }
  }

  /** A batch with an instruction that is itself a batch fails as a whole. */
  lemma BatchesDoNotNest(env: Env, l: Ledger, subs: seq<Sub>, extra: seq<Meta>, i: nat)
    requires AllFit(subs) && i < |subs| && subs[i].data != [] && subs[i].data[0] == 255
    ensures BatchFrom(Inner(env), l, AllAccounts(subs) + extra, Frames(subs)).Err?
  {
    InnerRefusesBatches(env);
    BatchIsSequential(Inner(env), l, subs, extra);
    OneRefusalIsEnough(Inner(env), l, subs, i);
  }

  /** A batch of nothing is refused. */
  lemma EmptyBatchIsRefused(env: Env, l: Ledger, accounts: seq<Meta>)
    ensures Process(env, l, accounts, [255]) == Err(InvalidInstruction)
  {
    var input: Bytes := [255];
    assert input[1..] == [];
  }
}
