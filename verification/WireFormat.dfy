/** From the bytes of an instruction to the handler that runs, byte for byte: what the
    program does with each input, without the tables of the codec in between. */
module WireFormat {
  import opened Base
  import opened ByteStrings
  import opened State
  import opened Authority
  import opened Processor
  import opened Effects
  import InstructionCodec
  import opened PodInstruction
  import opened BatchProcessing

  /** An optional key: a zero, or a one and the key. */
  function Opt(key: Option<Address>): Bytes {
    match key
    case None => [0]
    case Some(k) => [1] + k.bytes
  }

  /** What is left of a number after dropping its `i` least significant bytes. */
  function Shifted(x: nat, i: nat): nat {
    if i == 0 then x else Shifted(x / 0x100, i - 1)
  }

  /** Eight bytes, the least significant first. */
  function Word(x: u64): Bytes {
    seq(8, i requires 0 <= i < 8 => Shifted(x, i) % 0x100)
  }

  lemma {:induction false} BytesOfWidth(x: nat, width: nat, i: nat)
    requires i < width
    ensures LeBytes(x, width)[i] == Shifted(x, i) % 0x100
    decreases width
  {
    if i > 0 {
      BytesOfWidth(x / 0x100, width - 1, i - 1);
    }
  }

  lemma WordIsU64Bytes(x: u64)
    ensures Word(x) == U64Bytes(x)
  {
    forall i | 0 <= i < 8 ensures Word(x)[i] == U64Bytes(x)[i] { BytesOfWidth(x, 8, i); }
  }

  // ---------------------------------------------------------------- one input, one operation

  /** A decoded input that is no batch runs its operation's handler. */
  lemma DecodedRuns(env: Env, l: Ledger, accounts: seq<Meta>, input: Bytes, op: Operation)
    requires input != [] && input[0] != 255 && Decode(input) == Ok(op)
    ensures Process(env, l, accounts, input) == Apply(env, l, accounts, op)
  {
  }

  lemma OptParses(key: Option<Address>)
    ensures PodPubkeyOption(Opt(key)) == Ok(key)
  {
    if key.Some? {
      assert Opt(key)[1..33] == key.value.bytes;
    }
  }

  predicate IsBare(tag: u8) {
    tag == 1 || tag == 5 || tag == 9 || tag == 10 || tag == 11 || tag == 17 || tag == 31 || tag == 38
  }

  function BareHandler(env: Env, l: Ledger, accounts: seq<Meta>, tag: u8): Result<Ledger>
    requires IsBare(tag)
  {
    match tag
    case 1 => InitializeAccount(env, l, accounts, None, true)
    case 5 => Revoke(l, accounts)
    case 9 => CloseSlot(env, l, accounts)
    case 10 => ToggleFreeze(l, accounts, true)
    case 11 => ToggleFreeze(l, accounts, false)
    case 17 => SyncNative(env, l, accounts)
    case 31 => CreateNativeMint(env, l, accounts)
    case 38 => WithdrawExcessLamports(env, l, accounts)
  }

  lemma BareDecodes(tag: u8) returns (op: Operation)
    requires IsBare(tag)
    ensures Decode([tag]) == Ok(op)
    ensures op == match tag case 1 => OpInitializeAccount(None, true) case 5 => OpRevoke case 9 => OpCloseAccount
                            case 10 => OpToggleFreeze(true) case 11 => OpToggleFreeze(false) case 17 => OpSyncNative
                            case 31 => OpCreateNativeMint case _ => OpWithdrawExcessLamports
  {
    op := Decode([tag]).value;
  }

  /** The instructions that are one byte. */
  lemma OneByte(env: Env, l: Ledger, accounts: seq<Meta>, tag: u8)
    requires IsBare(tag)
    ensures Process(env, l, accounts, [tag]) == BareHandler(env, l, accounts, tag)
  {
    var op := BareDecodes(tag);
    DecodedRuns(env, l, accounts, [tag], op);
  }

  /** Transfer, Approve, MintTo and Burn, without and with the mint's decimals. */
  predicate IsAmount(tag: u8, checked: Option<u8>) {
    if checked == None then tag == 3 || tag == 4 || tag == 7 || tag == 8 else tag == 12 || tag == 13 || tag == 14 || tag == 15
  }

  function AmountOperation(tag: u8, x: u64, checked: Option<u8>): Operation {
    if tag == 3 || tag == 12 then OpTransfer(x, if checked == None then Unchecked else TransferKind.Checked(checked.value))
    else if tag == 4 || tag == 13 then OpApprove(x, checked)
    else if tag == 7 || tag == 14 then OpMintTo(x, checked)
    else OpBurn(x, false, checked)
  }

  function AmountHandler(env: Env, l: Ledger, accounts: seq<Meta>, tag: u8, x: u64, checked: Option<u8>): Result<Ledger>
    requires IsAmount(tag, checked)
  {
    match tag
    case 3 => Transfer(env, l, accounts, x, Unchecked)
    case 4 => Approve(env, l, accounts, x, None)
    case 7 => MintTo(l, accounts, x, None)
    case 8 => Burn(env, l, accounts, x, false, None)
    case 12 => Transfer(env, l, accounts, x, TransferKind.Checked(checked.value))
    case 13 => Approve(env, l, accounts, x, checked)
    case 14 => MintTo(l, accounts, x, checked)
    case 15 => Burn(env, l, accounts, x, false, checked)
  }

  lemma AmountApplies(env: Env, l: Ledger, accounts: seq<Meta>, tag: u8, x: u64, checked: Option<u8>)
    requires IsAmount(tag, checked)
    ensures Apply(env, l, accounts, AmountOperation(tag, x, checked)) == AmountHandler(env, l, accounts, tag, x, checked)
  {
  }

  function AmountInput(tag: u8, x: u64, checked: Option<u8>): Bytes {
    [tag] + Word(x) + if checked == None then [] else [checked.value]
  }

  lemma PlainAmountDecodes(tag: u8, word: Bytes, x: u64)
    requires IsAmount(tag, None) && word == U64Bytes(x)
    ensures Decode([tag] + word) == Ok(AmountOperation(tag, x, None))
  {
    U64RoundTrip(x);
    assert ([tag] + word)[1..] == word;
  }

  lemma CheckedAmountDecodes(tag: u8, word: Bytes, x: u64, d: u8)
    requires IsAmount(tag, Some(d)) && word == U64Bytes(x)
    ensures Decode([tag] + word + [d]) == Ok(AmountOperation(tag, x, Some(d)))
  {
    U64RoundTrip(x);
    var data := word + [d];
    assert ([tag] + word + [d])[1..] == data && data[..8] == word;
  }

  lemma AmountDecodes(tag: u8, x: u64, checked: Option<u8>)
    requires IsAmount(tag, checked)
    ensures Decode(AmountInput(tag, x, checked)) == Ok(AmountOperation(tag, x, checked))
  {
    WordIsU64Bytes(x);
    if checked == None {
      PlainAmountDecodes(tag, Word(x), x);
      assert AmountInput(tag, x, checked) == [tag] + Word(x);
    } else {
      CheckedAmountDecodes(tag, Word(x), x, checked.value);
    }
  }

  lemma Amounts(env: Env, l: Ledger, accounts: seq<Meta>, tag: u8, x: u64, checked: Option<u8>)
    requires IsAmount(tag, checked)
    ensures Process(env, l, accounts, AmountInput(tag, x, checked)) == AmountHandler(env, l, accounts, tag, x, checked)
  {
    AmountDecodes(tag, x, checked);
    DecodedRuns(env, l, accounts, AmountInput(tag, x, checked), AmountOperation(tag, x, checked));
    AmountApplies(env, l, accounts, tag, x, checked);
  }

  lemma FeeOperation(x: u64, d: u8, fee: u64)
    ensures TransferFeeOperation([1] + (U64Bytes(x) + [d] + U64Bytes(fee))) == Ok(OpTransfer(x, CheckedWithFee(d, fee)))
  {
    var data := U64Bytes(x) + [d] + U64Bytes(fee);
    assert ([1] + data)[1..] == data;
    InstructionCodec.AmountDecimalsRoundTrip(x, d, U64Bytes(fee));
    InstructionCodec.U64FieldRoundTrip(fee, []);
    assert U64Bytes(fee) + [] == U64Bytes(fee);
  }

  lemma FeeDecodes(x: u64, d: u8, fee: u64)
    ensures Decode([26, 1] + Word(x) + [d] + Word(fee)) == Ok(OpTransfer(x, CheckedWithFee(d, fee)))
  {
    WordIsU64Bytes(x);
    WordIsU64Bytes(fee);
    FeeBytesDecode(Word(x), Word(fee), x, d, fee);
  }

  lemma FeeBytesDecode(word: Bytes, word': Bytes, x: u64, d: u8, fee: u64)
    requires word == U64Bytes(x) && word' == U64Bytes(fee)
    ensures Decode([26, 1] + word + [d] + word') == Ok(OpTransfer(x, CheckedWithFee(d, fee)))
  {
    var input := [26, 1] + word + [d] + word';
    assert input[1..] == [1] + (word + [d] + word');
    FeeOperation(x, d, fee);
    FeeTagDecodes(input);
  }

  lemma FeeTagDecodes(input: Bytes)
    requires input != [] && input[0] == 26
    ensures Decode(input) == TransferFeeOperation(input[1..])
  {
  }

  /** TransferCheckedWithFee, of the transfer-fee extension. */
  lemma StatedFee(env: Env, l: Ledger, accounts: seq<Meta>, x: u64, d: u8, fee: u64)
    ensures Process(env, l, accounts, [26, 1] + Word(x) + [d] + Word(fee)) == Transfer(env, l, accounts, x, CheckedWithFee(d, fee))
  {
    FeeDecodes(x, d, fee);
    DecodedRuns(env, l, accounts, [26, 1] + Word(x) + [d] + Word(fee), OpTransfer(x, CheckedWithFee(d, fee)));
  }

  lemma PermissionedDecodes(x: u64)
    ensures Decode([46, 1] + Word(x)) == Ok(OpBurn(x, true, None))
  {
    WordIsU64Bytes(x);
    U64RoundTrip(x);
    var input := [46, 1] + Word(x);
    assert input[1..] == [1] + U64Bytes(x) && ([1] + U64Bytes(x))[1..] == U64Bytes(x);
  }

  lemma PermissionedCheckedDecodes(x: u64, d: u8)
    ensures Decode([46, 2] + Word(x) + [d]) == Ok(OpBurn(x, true, Some(d)))
  {
    WordIsU64Bytes(x);
    U64RoundTrip(x);
    var input, data := [46, 2] + Word(x) + [d], U64Bytes(x) + [d];
    assert input[1..] == [2] + data && ([2] + data)[1..] == data && data[..8] == U64Bytes(x);
  }

  /** The two burns of the permissioned-burn extension. */
  lemma PermissionedBurns(env: Env, l: Ledger, accounts: seq<Meta>, x: u64, checked: Option<u8>)
    ensures Process(env, l, accounts, if checked == None then [46, 1] + Word(x) else [46, 2] + Word(x) + [checked.value])
         == Burn(env, l, accounts, x, true, checked)
  {
    if checked == None {
      PermissionedDecodes(x);
      DecodedRuns(env, l, accounts, [46, 1] + Word(x), OpBurn(x, true, None));
    } else {
      PermissionedCheckedDecodes(x, checked.value);
      DecodedRuns(env, l, accounts, [46, 2] + Word(x) + [checked.value], OpBurn(x, true, checked));
    }
  }

  lemma UnwrapAllDecodes()
    ensures Decode([45, 0]) == Ok(OpUnwrapLamports(None))
  {
    var input: Bytes := [45, 0];
    assert input[1..] == [0];
  }

  lemma UnwrapDecodes(x: u64)
    ensures Decode([45, 1] + Word(x)) == Ok(OpUnwrapLamports(Some(x)))
  {
    WordIsU64Bytes(x);
    U64RoundTrip(x);
    var input := [45, 1] + Word(x);
    assert input[1..] == [1] + U64Bytes(x) && ([1] + U64Bytes(x))[1..9] == U64Bytes(x);
  }

  /** Everything, or as much as asked for. */
  lemma UnwrapsAll(env: Env, l: Ledger, accounts: seq<Meta>)
    ensures Process(env, l, accounts, [45, 0]) == UnwrapLamports(env, l, accounts, None)
  {
    UnwrapAllDecodes();
    DecodedRuns(env, l, accounts, [45, 0], OpUnwrapLamports(None));
  }

  lemma Unwraps(env: Env, l: Ledger, accounts: seq<Meta>, x: u64)
    ensures Process(env, l, accounts, [45, 1] + Word(x)) == UnwrapLamports(env, l, accounts, Some(x))
  {
    UnwrapDecodes(x);
    UnwrapInputRuns(env, l, accounts, [45, 1] + Word(x), x);
  }

  lemma UnwrapInputRuns(env: Env, l: Ledger, accounts: seq<Meta>, input: Bytes, x: u64)
    requires input != [] && input[0] == 45 && Decode(input) == Ok(OpUnwrapLamports(Some(x)))
    ensures Process(env, l, accounts, input) == UnwrapLamports(env, l, accounts, Some(x))
  {
    DecodedRuns(env, l, accounts, input, OpUnwrapLamports(Some(x)));
    UnwrapApplies(env, l, accounts, Some(x));
  }

  lemma UnwrapApplies(env: Env, l: Ledger, accounts: seq<Meta>, requested: Option<u64>)
    ensures Apply(env, l, accounts, OpUnwrapLamports(requested)) == UnwrapLamports(env, l, accounts, requested)
  {
  }

  lemma NewMintTagDecodes(input: Bytes)
    requires input != [] && (input[0] == 0 || input[0] == 20)
    ensures DecodeWithPubkeyOption(input, 33).Ok? ==>
              var r := DecodeWithPubkeyOption(input, 33).value;
              Decode(input) == Ok(OpInitializeMint(r.data[0], Address(r.data[1..33]), r.option, input[0] == 0))
  {
  }

  lemma NewMintReads(tag: u8, d: u8, key: Address, freeze: Option<Address>)
    ensures var r := DecodeWithPubkeyOption([tag, d] + key.bytes + Opt(freeze), 33);
            r.Ok? && r.value.data[0] == d && r.value.data[1..33] == key.bytes && r.value.option == freeze
  {
    NewMintSlices(tag, d, key.bytes, Opt(freeze));
    OptParses(freeze);
  }

  lemma NewMintSlices(tag: u8, d: u8, key: Bytes32, rest: Bytes)
    ensures var input, data := [tag, d] + key + rest, [d] + key;
            |input| >= 34 && input[34..] == rest && input[1..34] == data && data[1..33] == key
  {
  }

  lemma NewMintDecodes(tag: u8, d: u8, key: Address, freeze: Option<Address>)
    requires tag == 0 || tag == 20
    ensures Decode([tag, d] + key.bytes + Opt(freeze)) == Ok(OpInitializeMint(d, key, freeze, tag == 0))
  {
    NewMintReads(tag, d, key, freeze);
    NewMintTagDecodes([tag, d] + key.bytes + Opt(freeze));
  }

  /** InitializeMint, which has the rent sysvar in its list, and InitializeMint2. */
  lemma NewMints(env: Env, l: Ledger, accounts: seq<Meta>, tag: u8, d: u8, key: Address, freeze: Option<Address>)
    requires tag == 0 || tag == 20
    ensures Process(env, l, accounts, [tag, d] + key.bytes + Opt(freeze)) == InitializeMint(env, l, accounts, d, key, freeze, tag == 0)
  {
    NewMintDecodes(tag, d, key, freeze);
    DecodedRuns(env, l, accounts, [tag, d] + key.bytes + Opt(freeze), OpInitializeMint(d, key, freeze, tag == 0));
  }

  /** InitializeAccount2, which has the rent sysvar in its list, and InitializeAccount3. */
  lemma NewAccounts(env: Env, l: Ledger, accounts: seq<Meta>, tag: u8, owner: Address)
    requires tag == 16 || tag == 18
    ensures Process(env, l, accounts, [tag] + owner.bytes) == InitializeAccount(env, l, accounts, Some(owner), tag == 16)
  {
    assert ([tag] + owner.bytes)[1..] == owner.bytes;
    DecodedRuns(env, l, accounts, [tag] + owner.bytes, OpInitializeAccount(Some(owner), tag == 16));
  }

  /** InitializeMultisig, which has the rent sysvar in its list, and InitializeMultisig2. */
  lemma NewMultisigs(env: Env, l: Ledger, accounts: seq<Meta>, tag: u8, m: u8)
    requires tag == 2 || tag == 19
    ensures Process(env, l, accounts, [tag, m]) == InitializeMultisig(env, l, accounts, m, tag == 2)
  {
    assert [tag, m][1..] == [m];
    DecodedRuns(env, l, accounts, [tag, m], OpInitializeMultisig(m, tag == 2));
  }

  /** The authority types in the order of their codes. */
  const AUTHORITY_TYPES: seq<AuthorityType> := [
    MintTokens, FreezeAccount, AccountOwner, AuthorityType.CloseAccount, TransferFeeConfig, WithheldWithdraw, CloseMint,
    InterestRate, PermanentDelegate, ConfidentialTransferMint, TransferHookProgramId, ConfidentialTransferFeeConfig,
    MetadataPointer, GroupPointer, GroupMemberPointer, ScaledUiAmount, Pause, PermissionedBurn]

  lemma AuthorityCodes(code: u8)
    ensures InstructionCodec.AuthorityTypeFrom(code) == if code < 18 then Ok(AUTHORITY_TYPES[code]) else Err(InvalidInstruction)
  {
  }

  lemma SetAuthorityDecodes(code: u8, key: Option<Address>)
    requires code < 18
    ensures Decode([6, code] + Opt(key)) == Ok(OpSetAuthority(AUTHORITY_TYPES[code], key))
  {
    var input := [6, code] + Opt(key);
    assert input[2..] == Opt(key) && input[1..2] == [code];
    AuthorityCodes(code);
    OptParses(key);
  }

  lemma Authorities(env: Env, l: Ledger, accounts: seq<Meta>, code: u8, key: Option<Address>)
    requires code < 18
    ensures Process(env, l, accounts, [6, code] + Opt(key)) == SetAuthority(env, l, accounts, AUTHORITY_TYPES[code], key)
  {
    SetAuthorityDecodes(code, key);
    DecodedRuns(env, l, accounts, [6, code] + Opt(key), OpSetAuthority(AUTHORITY_TYPES[code], key));
  }

  /** Byte 10 freezes and byte 11 thaws, and either succeeds just when the account is in the
      other state and its mint's freeze authority signs. */
  lemma FreezeAndThaw(env: Env, l: Ledger, accounts: seq<Meta>, freeze: bool)
    ensures var r := Process(env, l, accounts, [if freeze then 10 else 11]);
            && (r.Ok? <==>
                  && |accounts| >= 3 && IsAccount(l, accounts[0].key) && IsMint(l, accounts[1].key)
                  && AccountOf(l, accounts[0].key).base.state == (if freeze then Initialized else Frozen)
                  && AccountOf(l, accounts[0].key).base.isNative == None
                  && AccountOf(l, accounts[0].key).base.mint == accounts[1].key
                  && Signed(l, MintOf(l, accounts[1].key).base.freezeAuthority, accounts, 2))
            && (r.Ok? ==>
                  && Get(r.value, accounts[0].key).data.AccountData?
                  && Get(r.value, accounts[0].key).data.account.base.state == (if freeze then Frozen else Initialized))
  {
    OneByte(env, l, accounts, if freeze then 10 else 11);
    ToggleFreezeExactly(l, accounts, freeze);
  }

  // ---------------------------------------------------------------- packed forms

  /** Extension types, two bytes each, the least significant first. */
  function Pairs(types: seq<InstructionCodec.ExtensionType>): Bytes {
    if types == [] then [] else [types[0] % 0x100, types[0] / 0x100 % 0x100] + Pairs(types[1..])
  }

  /** One instruction of each kind, by its place in the program's own enumeration. */
  function KindAt(i: nat): InstructionCodec.TokenInstruction
    requires i < 47
  {
    match i
    case 0 => InstructionCodec.InitializeMint(0, SYSTEM_PROGRAM, None)
    case 1 => InstructionCodec.InitializeAccount
    case 2 => InstructionCodec.InitializeMultisig(0)
    case 3 => InstructionCodec.Transfer(0)
    case 4 => InstructionCodec.Approve(0)
    case 5 => InstructionCodec.Revoke
    case 6 => InstructionCodec.SetAuthority(MintTokens, None)
    case 7 => InstructionCodec.MintTo(0)
    case 8 => InstructionCodec.Burn(0)
    case 9 => InstructionCodec.CloseAccount
    case 10 => InstructionCodec.FreezeAccount
    case 11 => InstructionCodec.ThawAccount
    case 12 => InstructionCodec.TransferChecked(0, 0)
    case 13 => InstructionCodec.ApproveChecked(0, 0)
    case 14 => InstructionCodec.MintToChecked(0, 0)
    case 15 => InstructionCodec.BurnChecked(0, 0)
    case 16 => InstructionCodec.InitializeAccount2(SYSTEM_PROGRAM)
    case 17 => InstructionCodec.SyncNative
    case 18 => InstructionCodec.InitializeAccount3(SYSTEM_PROGRAM)
    case 19 => InstructionCodec.InitializeMultisig2(0)
    case 20 => InstructionCodec.InitializeMint2(0, SYSTEM_PROGRAM, None)
    case 21 => InstructionCodec.GetAccountDataSize([])
    case 22 => InstructionCodec.InitializeImmutableOwner
    case 23 => InstructionCodec.AmountToUiAmount(0)
    case 24 => InstructionCodec.UiAmountToAmount([])
    case 25 => InstructionCodec.InitializeMintCloseAuthority(None)
    case 26 => InstructionCodec.TransferFeeExtension
    case 27 => InstructionCodec.ConfidentialTransferExtension
    case 28 => InstructionCodec.DefaultAccountStateExtension
    case 29 => InstructionCodec.Reallocate([])
    case 30 => InstructionCodec.MemoTransferExtension
    case 31 => InstructionCodec.CreateNativeMint
    case 32 => InstructionCodec.InitializeNonTransferableMint
    case 33 => InstructionCodec.InterestBearingMintExtension
    case 34 => InstructionCodec.CpiGuardExtension
    case 35 => InstructionCodec.InitializePermanentDelegate(SYSTEM_PROGRAM)
    case 36 => InstructionCodec.TransferHookExtension
    case 37 => InstructionCodec.ConfidentialTransferFeeExtension
    case 38 => InstructionCodec.WithdrawExcessLamports
    case 39 => InstructionCodec.MetadataPointerExtension
    case 40 => InstructionCodec.GroupPointerExtension
    case 41 => InstructionCodec.GroupMemberPointerExtension
    case 42 => InstructionCodec.ConfidentialMintBurnExtension
    case 43 => InstructionCodec.ScaledUiAmountExtension
    case 44 => InstructionCodec.PausableExtension
    case 45 => InstructionCodec.UnwrapLamports(None)
    case 46 => InstructionCodec.PermissionedBurnExtension
  }

  /** The tag of a kind is its place in the enumeration. */
  lemma TagsInOrder(i: nat)
    requires i < 47
    ensures InstructionCodec.Tag(KindAt(i)) == i
  {
  }

  /** The bytes that follow the tag. */
  function Body(ins: InstructionCodec.TokenInstruction): Bytes {
    match ins
    case InitializeMint(decimals, key, freeze) => [decimals] + key.bytes + Opt(freeze)
    case InitializeMint2(decimals, key, freeze) => [decimals] + key.bytes + Opt(freeze)
    case InitializeMultisig(m) => [m]
    case InitializeMultisig2(m) => [m]
    case Transfer(x) => Word(x)
    case Approve(x) => Word(x)
    case MintTo(x) => Word(x)
    case Burn(x) => Word(x)
    case AmountToUiAmount(x) => Word(x)
    case SetAuthority(kind, key) => [CodeOf(kind)] + Opt(key)
    case TransferChecked(x, decimals) => Word(x) + [decimals]
    case ApproveChecked(x, decimals) => Word(x) + [decimals]
    case MintToChecked(x, decimals) => Word(x) + [decimals]
    case BurnChecked(x, decimals) => Word(x) + [decimals]
    case InitializeAccount2(key) => key.bytes
    case InitializeAccount3(key) => key.bytes
    case InitializePermanentDelegate(key) => key.bytes
    case GetAccountDataSize(types) => Pairs(types)
    case Reallocate(types) => Pairs(types)
    case UiAmountToAmount(text) => text
    case InitializeMintCloseAuthority(key) => Opt(key)
    case UnwrapLamports(x) => if x == None then [0] else [1] + Word(x.value)
    case Batch(data) => data
    case _ => []
  }

  /** The place of an authority type among all of them. */
  function CodeOf(kind: AuthorityType): (code: u8)
    ensures code < 18 && AUTHORITY_TYPES[code] == kind
  {
    match kind
    case MintTokens => 0
    case FreezeAccount => 1
    case AccountOwner => 2
    case CloseAccount => 3
    case TransferFeeConfig => 4
    case WithheldWithdraw => 5
    case CloseMint => 6
    case InterestRate => 7
    case PermanentDelegate => 8
    case ConfidentialTransferMint => 9
    case TransferHookProgramId => 10
    case ConfidentialTransferFeeConfig => 11
    case MetadataPointer => 12
    case GroupPointer => 13
    case GroupMemberPointer => 14
    case ScaledUiAmount => 15
    case Pause => 16
    case PermissionedBurn => 17
  }

  lemma OptIsPacked(key: Option<Address>)
    ensures Opt(key) == InstructionCodec.PackPubkeyOption(key)
  {
  }

  lemma {:induction false} PairsArePacked(types: seq<InstructionCodec.ExtensionType>)
    ensures Pairs(types) == InstructionCodec.PackExtensionTypes(types)
    decreases |types|
  {
    if types != [] {
      assert LeBytes(types[0], 2) == [types[0] % 0x100] + LeBytes(types[0] / 0x100, 1);
      PairsArePacked(types[1..]);
    }
  }

  lemma CodesArePacked(kind: AuthorityType)
    ensures InstructionCodec.AuthorityTypeByte(kind) == CodeOf(kind)
  {
    AuthorityCodes(CodeOf(kind));
    InstructionCodec.AuthorityTypeBytesBiject(kind, CodeOf(kind));
  }

  lemma AmountBody(ins: InstructionCodec.TokenInstruction)
    requires var p := InstructionCodec.Split(ins); p.Amount? || p.Checked? || p.AmountOption?
    ensures Body(ins) == InstructionCodec.PackPayload(InstructionCodec.Split(ins))
  {
    match InstructionCodec.Split(ins)
    case Amount(x) => WordIsU64Bytes(x);
    case Checked(pair) => WordIsU64Bytes(pair.amount);
    case AmountOption(x) => if x != None { WordIsU64Bytes(x.value); }
  }

  lemma KeyBody(ins: InstructionCodec.TokenInstruction)
    requires var p := InstructionCodec.Split(ins); p.Key? || p.KeyOption? || p.NewMint? || p.NewAuthority?
    ensures Body(ins) == InstructionCodec.PackPayload(InstructionCodec.Split(ins))
  {
    match InstructionCodec.Split(ins)
    case Key(_) =>
    case KeyOption(key) => OptIsPacked(key);
    case NewMint(_, _, freeze) => OptIsPacked(freeze);
    case NewAuthority(kind, key) =>
      OptIsPacked(key);
      CodesArePacked(kind);
  }

  lemma LooseBody(ins: InstructionCodec.TokenInstruction)
    requires var p := InstructionCodec.Split(ins); p.Nothing? || p.Byte? || p.Types? || p.UiText? || p.Raw?
    ensures Body(ins) == InstructionCodec.PackPayload(InstructionCodec.Split(ins))
  {
    if InstructionCodec.Split(ins).Types? {
      PairsArePacked(InstructionCodec.Split(ins).types);
    }
  }

  /** The printer writes these bytes, so it is these the parser reads back. */
  lemma PacksToForm(ins: InstructionCodec.TokenInstruction)
    ensures InstructionCodec.Pack(ins) == [InstructionCodec.Tag(ins)] + Body(ins)
  {
    var p := InstructionCodec.Split(ins);
    if p.Amount? || p.Checked? || p.AmountOption? {
      AmountBody(ins);
    } else if p.Key? || p.KeyOption? || p.NewMint? || p.NewAuthority? {
      KeyBody(ins);
    } else {
      LooseBody(ins);
    }
  }
}
