/** The instruction codec: `TokenInstruction::pack` and `unpack_with_rest`
    (`interface/src/instruction.rs`), and that they undo each other. */
module InstructionCodec {
  import opened Base
  import opened ByteStrings
  import opened State

  /** The 29 two-byte extension type codes. */
  type ExtensionType = n: nat | n <= 28

  datatype TokenInstruction =
    | InitializeMint(decimals: u8, mintAuthority: Address, freezeAuthority: Option<Address>)
    | InitializeAccount
    | InitializeMultisig(m: u8)
    | Transfer(amount: u64)
    | Approve(amount: u64)
    | Revoke
    | SetAuthority(authorityType: AuthorityType, newAuthority: Option<Address>)
    | MintTo(amount: u64)
    | Burn(amount: u64)
    | CloseAccount
    | FreezeAccount
    | ThawAccount
    | TransferChecked(amount: u64, decimals: u8)
    | ApproveChecked(amount: u64, decimals: u8)
    | MintToChecked(amount: u64, decimals: u8)
    | BurnChecked(amount: u64, decimals: u8)
    | InitializeAccount2(owner: Address)
    | SyncNative
    | InitializeAccount3(owner: Address)
    | InitializeMultisig2(m: u8)
    | InitializeMint2(decimals: u8, mintAuthority: Address, freezeAuthority: Option<Address>)
    | GetAccountDataSize(extensionTypes: seq<ExtensionType>)
    | InitializeImmutableOwner
    | AmountToUiAmount(amount: u64)
    | UiAmountToAmount(uiAmount: Text)
    | InitializeMintCloseAuthority(closeAuthority: Option<Address>)
    | TransferFeeExtension
    | ConfidentialTransferExtension
    | DefaultAccountStateExtension
    | Reallocate(extensionTypes: seq<ExtensionType>)
    | MemoTransferExtension
    | CreateNativeMint
    | InitializeNonTransferableMint
    | InterestBearingMintExtension
    | CpiGuardExtension
    | InitializePermanentDelegate(delegate: Address)
    | TransferHookExtension
    | ConfidentialTransferFeeExtension
    | WithdrawExcessLamports
    | MetadataPointerExtension
    | GroupPointerExtension
    | GroupMemberPointerExtension
    | ConfidentialMintBurnExtension
    | ScaledUiAmountExtension
    | PausableExtension
    | UnwrapLamports(requested: Option<u64>)
    | PermissionedBurnExtension
    | Batch(data: Bytes)

  // ---------------------------------------------------------------- fields

  datatype Parsed<+T> = Parsed(value: T, rest: Bytes)

  function UnpackByte(input: Bytes): Result<Parsed<u8>> {
    if input == [] then Err(InvalidInstruction) else Ok(Parsed(input[0], input[1..]))
  }

  function UnpackPubkey(input: Bytes): Result<Parsed<Address>> {
    if |input| < 32 then Err(InvalidInstruction) else Ok(Parsed(Address(input[..32]), input[32..]))
  }

  function PackPubkeyOption(value: Option<Address>): Bytes {
    match value
    case Some(key) => [1] + key.bytes
    case None => [0]
  }

  function UnpackPubkeyOption(input: Bytes): Result<Parsed<Option<Address>>> {
    if input != [] && input[0] == 0 then Ok(Parsed(None, input[1..]))
    else if input != [] && input[0] == 1 then
      var key :- UnpackPubkey(input[1..]);
      Ok(Parsed(Some(key.value), key.rest))
    else Err(InvalidInstruction)
  }

  function UnpackU64(input: Bytes): Result<Parsed<u64>> {
    if |input| < 8 then Err(InvalidInstruction) else Ok(Parsed(U64Of(input[..8]), input[8..]))
  }

  function PackU64Option(value: Option<u64>): Bytes {
    match value
    case Some(amount) => [1] + U64Bytes(amount)
    case None => [0]
  }

  function UnpackU64Option(input: Bytes): Result<Parsed<Option<u64>>> {
    if input != [] && input[0] == 0 then Ok(Parsed(None, input[1..]))
    else if input != [] && input[0] == 1 then
      var amount :- UnpackU64(input[1..]);
      Ok(Parsed(Some(amount.value), amount.rest))
    else Err(InvalidInstruction)
  }

  datatype AmountDecimals = AmountDecimals(amount: u64, decimals: u8)

  function UnpackAmountDecimals(input: Bytes): Result<Parsed<AmountDecimals>> {
    var amount :- UnpackU64(input);
    var decimals :- UnpackByte(amount.rest);
    Ok(Parsed(AmountDecimals(amount.value, decimals.value), decimals.rest))
  }

  function PackExtensionTypes(types: seq<ExtensionType>): Bytes {
    if types == [] then [] else LeBytes(types[0], 2) + PackExtensionTypes(types[1..])
  }

  /** All of the rest, two bytes at a time. */
  function UnpackExtensionTypes(input: Bytes): Result<seq<ExtensionType>>
    decreases |input|
  {
    if input == [] then Ok([])
    else if |input| < 2 || LeValue(input[..2]) > 28 then Err(InvalidAccountData)
    else
      var types :- UnpackExtensionTypes(input[2..]);
      Ok([LeValue(input[..2])] + types)
  }

  function AuthorityTypeByte(kind: AuthorityType): u8 {
    match kind
    case MintTokens => 0
    case FreezeAccount => 1
    case AccountOwner => 2
    case CloseAccount => 3
    case TransferFeeConfig => 4
    case WithheldWithdraw => 5
    case CloseMint => 6
    case InterestRate => 7
    case PermanentDelegate => 8
    case ConfidentialTransferMint => 9
    case TransferHookProgramId => 10
    case ConfidentialTransferFeeConfig => 11
    case MetadataPointer => 12
    case GroupPointer => 13
    case GroupMemberPointer => 14
    case ScaledUiAmount => 15
    case Pause => 16
    case PermissionedBurn => 17
  }

  function AuthorityTypeFrom(index: u8): Result<AuthorityType> {
    match index
    case 0 => Ok(AuthorityType.MintTokens)
    case 1 => Ok(AuthorityType.FreezeAccount)
    case 2 => Ok(AuthorityType.AccountOwner)
    case 3 => Ok(AuthorityType.CloseAccount)
    case 4 => Ok(AuthorityType.TransferFeeConfig)
    case 5 => Ok(AuthorityType.WithheldWithdraw)
    case 6 => Ok(AuthorityType.CloseMint)
    case 7 => Ok(AuthorityType.InterestRate)
    case 8 => Ok(AuthorityType.PermanentDelegate)
    case 9 => Ok(AuthorityType.ConfidentialTransferMint)
    case 10 => Ok(AuthorityType.TransferHookProgramId)
    case 11 => Ok(AuthorityType.ConfidentialTransferFeeConfig)
    case 12 => Ok(AuthorityType.MetadataPointer)
    case 13 => Ok(AuthorityType.GroupPointer)
    case 14 => Ok(AuthorityType.GroupMemberPointer)
    case 15 => Ok(AuthorityType.ScaledUiAmount)
    case 16 => Ok(AuthorityType.Pause)
    case 17 => Ok(AuthorityType.PermissionedBurn)
    case _ => Err(InvalidInstruction)
  }

  lemma AuthorityTypeBytesBiject(kind: AuthorityType, index: u8)
    ensures AuthorityTypeFrom(AuthorityTypeByte(kind)) == Ok(kind)
    ensures AuthorityTypeFrom(index).Ok? <==> index <= 17
    ensures AuthorityTypeFrom(index).Ok? ==> AuthorityTypeByte(AuthorityTypeFrom(index).value) == index
  {
  }

  // ---------------------------------------------------------------- instructions

  function Tag(ins: TokenInstruction): u8 {
    match ins
    case InitializeMint(_, _, _) => 0
    case InitializeAccount => 1
    case InitializeMultisig(_) => 2
    case Transfer(_) => 3
    case Approve(_) => 4
    case Revoke => 5
    case SetAuthority(_, _) => 6
    case MintTo(_) => 7
    case Burn(_) => 8
    case CloseAccount => 9
    case FreezeAccount => 10
    case ThawAccount => 11
    case TransferChecked(_, _) => 12
    case ApproveChecked(_, _) => 13
    case MintToChecked(_, _) => 14
    case BurnChecked(_, _) => 15
    case InitializeAccount2(_) => 16
    case SyncNative => 17
    case InitializeAccount3(_) => 18
    case InitializeMultisig2(_) => 19
    case InitializeMint2(_, _, _) => 20
    case GetAccountDataSize(_) => 21
    case InitializeImmutableOwner => 22
    case AmountToUiAmount(_) => 23
    case UiAmountToAmount(_) => 24
    case InitializeMintCloseAuthority(_) => 25
    case TransferFeeExtension => 26
    case ConfidentialTransferExtension => 27
    case DefaultAccountStateExtension => 28
    case Reallocate(_) => 29
    case MemoTransferExtension => 30
    case CreateNativeMint => 31
    case InitializeNonTransferableMint => 32
    case InterestBearingMintExtension => 33
    case CpiGuardExtension => 34
    case InitializePermanentDelegate(_) => 35
    case TransferHookExtension => 36
    case ConfidentialTransferFeeExtension => 37
    case WithdrawExcessLamports => 38
    case MetadataPointerExtension => 39
    case GroupPointerExtension => 40
    case GroupMemberPointerExtension => 41
    case ConfidentialMintBurnExtension => 42
    case ScaledUiAmountExtension => 43
    case PausableExtension => 44
    case UnwrapLamports(_) => 45
    case PermissionedBurnExtension => 46
    case Batch(_) => 255
  }

  /** What follows the tag. The instructions share these twelve layouts. */
  datatype Payload =
    | Nothing
    | Byte(b: u8)
    | Amount(amount: u64)
    | Checked(pair: AmountDecimals)
    | Key(key: Address)
    | KeyOption(keyOption: Option<Address>)
    | NewMint(decimals: u8, mintKey: Address, freeze: Option<Address>)
    | NewAuthority(kind: AuthorityType, authority: Option<Address>)
    | Types(types: seq<ExtensionType>)
    | UiText(text: Text)
    | AmountOption(amountOption: Option<u64>)
    | Raw(data: Bytes)

  datatype Layout =
    | NothingLayout | ByteLayout | AmountLayout | CheckedLayout | KeyLayout | KeyOptionLayout | NewMintLayout
    | NewAuthorityLayout | TypesLayout | UiTextLayout | AmountOptionLayout | RawLayout

  function Split(ins: TokenInstruction): Payload {
    match ins
    case InitializeMint(decimals, key, freeze) => NewMint(decimals, key, freeze)
    case InitializeMint2(decimals, key, freeze) => NewMint(decimals, key, freeze)
    case InitializeMultisig(m) => Byte(m)
    case InitializeMultisig2(m) => Byte(m)
    case Transfer(amount) => Amount(amount)
    case Approve(amount) => Amount(amount)
    case MintTo(amount) => Amount(amount)
    case Burn(amount) => Amount(amount)
    case AmountToUiAmount(amount) => Amount(amount)
    case SetAuthority(kind, key) => NewAuthority(kind, key)
    case TransferChecked(amount, decimals) => Checked(AmountDecimals(amount, decimals))
    case ApproveChecked(amount, decimals) => Checked(AmountDecimals(amount, decimals))
    case MintToChecked(amount, decimals) => Checked(AmountDecimals(amount, decimals))
    case BurnChecked(amount, decimals) => Checked(AmountDecimals(amount, decimals))
    case InitializeAccount2(owner) => Key(owner)
    case InitializeAccount3(owner) => Key(owner)
    case InitializePermanentDelegate(delegate) => Key(delegate)
    case GetAccountDataSize(types) => Types(types)
    case Reallocate(types) => Types(types)
    case UiAmountToAmount(text) => UiText(text)
    case InitializeMintCloseAuthority(key) => KeyOption(key)
    case UnwrapLamports(amount) => AmountOption(amount)
    case Batch(data) => Raw(data)
    case _ => Nothing
  }

  function PackPayload(p: Payload): Bytes {
    match p
    case Nothing => []
    case Byte(b) => [b]
    case Amount(x) => U64Bytes(x)
    case Checked(pair) => U64Bytes(pair.amount) + [pair.decimals]
    case Key(key) => key.bytes
    case KeyOption(key) => PackPubkeyOption(key)
    case NewMint(decimals, key, freeze) => [decimals] + key.bytes + PackPubkeyOption(freeze)
    case NewAuthority(kind, key) => [AuthorityTypeByte(kind)] + PackPubkeyOption(key)
    case Types(types) => PackExtensionTypes(types)
    case UiText(text) => text
    case AmountOption(x) => PackU64Option(x)
    case Raw(data) => data
  }

  function Pack(ins: TokenInstruction): Bytes {
    [Tag(ins)] + PackPayload(Split(ins))
  }

  /** The layout each tag announces; no tag outside 0 to 46 and 255 announces any. */
  function LayoutOf(tag: u8): Option<Layout> {
    if tag == 0 || tag == 20 then Some(NewMintLayout)
    else if tag == 2 || tag == 19 then Some(ByteLayout)
    else if tag == 3 || tag == 4 || tag == 7 || tag == 8 || tag == 23 then Some(AmountLayout)
    else if tag == 6 then Some(NewAuthorityLayout)
    else if 12 <= tag <= 15 then Some(CheckedLayout)
    else if tag == 16 || tag == 18 || tag == 35 then Some(KeyLayout)
    else if tag == 21 || tag == 29 then Some(TypesLayout)
    else if tag == 24 then Some(UiTextLayout)
    else if tag == 25 then Some(KeyOptionLayout)
    else if tag == 45 then Some(AmountOptionLayout)
    else if tag == 255 then Some(RawLayout)
    else if tag <= 46 then Some(NothingLayout)
    else None
  }

  /** The instructions that are nothing but their tag. */
  function Bare(tag: u8): Option<TokenInstruction> {
    match tag
    case 1 => Some(InitializeAccount)
    case 5 => Some(Revoke)
    case 9 => Some(TokenInstruction.CloseAccount)
    case 10 => Some(TokenInstruction.FreezeAccount)
    case 11 => Some(ThawAccount)
    case 17 => Some(SyncNative)
    case 22 => Some(InitializeImmutableOwner)
    case 26 => Some(TransferFeeExtension)
    case 27 => Some(ConfidentialTransferExtension)
    case 28 => Some(DefaultAccountStateExtension)
    case 30 => Some(MemoTransferExtension)
    case 31 => Some(CreateNativeMint)
    case 32 => Some(InitializeNonTransferableMint)
    case 33 => Some(InterestBearingMintExtension)
    case 34 => Some(CpiGuardExtension)
    case 36 => Some(TransferHookExtension)
    case 37 => Some(ConfidentialTransferFeeExtension)
    case 38 => Some(WithdrawExcessLamports)
    case 39 => Some(MetadataPointerExtension)
    case 40 => Some(GroupPointerExtension)
    case 41 => Some(GroupMemberPointerExtension)
    case 42 => Some(ConfidentialMintBurnExtension)
    case 43 => Some(ScaledUiAmountExtension)
    case 44 => Some(PausableExtension)
    case 46 => Some(PermissionedBurnExtension)
    case _ => None
  }

  function OfAmount(tag: u8, x: u64): Option<TokenInstruction> {
    match tag
    case 3 => Some(Transfer(x))
    case 4 => Some(Approve(x))
    case 7 => Some(MintTo(x))
    case 8 => Some(Burn(x))
    case 23 => Some(AmountToUiAmount(x))
    case _ => None
  }

  function OfChecked(tag: u8, x: u64, decimals: u8): Option<TokenInstruction> {
    match tag
    case 12 => Some(TransferChecked(x, decimals))
    case 13 => Some(ApproveChecked(x, decimals))
    case 14 => Some(MintToChecked(x, decimals))
    case 15 => Some(BurnChecked(x, decimals))
    case _ => None
  }

  function OfKey(tag: u8, key: Address): Option<TokenInstruction> {
    match tag
    case 16 => Some(InitializeAccount2(key))
    case 18 => Some(InitializeAccount3(key))
    case 35 => Some(InitializePermanentDelegate(key))
    case _ => None
  }

  /** The instruction with this tag and payload, if they belong together. */
  function Assemble(tag: u8, p: Payload): Option<TokenInstruction> {
    match p
    case Nothing => Bare(tag)
    case Byte(m) => if tag == 2 then Some(InitializeMultisig(m)) else if tag == 19 then Some(InitializeMultisig2(m)) else None
    case Amount(x) => OfAmount(tag, x)
    case Checked(pair) => OfChecked(tag, pair.amount, pair.decimals)
    case Key(key) => OfKey(tag, key)
    case KeyOption(key) => if tag == 25 then Some(InitializeMintCloseAuthority(key)) else None
    case NewMint(decimals, key, freeze) =>
      if tag == 0 then Some(InitializeMint(decimals, key, freeze))
      else if tag == 20 then Some(InitializeMint2(decimals, key, freeze)) else None
    case NewAuthority(kind, key) => if tag == 6 then Some(SetAuthority(kind, key)) else None
    case Types(types) =>
      if tag == 21 then Some(GetAccountDataSize(types)) else if tag == 29 then Some(Reallocate(types)) else None
    case UiText(text) => if tag == 24 then Some(UiAmountToAmount(text)) else None
    case AmountOption(x) => if tag == 45 then Some(UnwrapLamports(x)) else None
    case Raw(data) => if tag == 255 then Some(Batch(data)) else None
  }

  function UnpackNewMint(rest: Bytes): Result<Parsed<Payload>> {
    var decimals :- UnpackByte(rest);
    var key :- UnpackPubkey(decimals.rest);
    var freeze :- UnpackPubkeyOption(key.rest);
    Ok(Parsed(NewMint(decimals.value, key.value, freeze.value), freeze.rest))
  }

  function UnpackNewAuthority(rest: Bytes): Result<Parsed<Payload>> {
    var index :- UnpackByte(rest);
    var kind :- AuthorityTypeFrom(index.value);
    var key :- UnpackPubkeyOption(index.rest);
    Ok(Parsed(NewAuthority(kind, key.value), key.rest))
  }

  function UnpackPayload(layout: Layout, rest: Bytes): Result<Parsed<Payload>> {
    match layout
    case NothingLayout => Ok(Parsed(Nothing, rest))
    case ByteLayout => (var b :- UnpackByte(rest); Ok(Parsed(Byte(b.value), b.rest)))
    case AmountLayout => (var x :- UnpackU64(rest); Ok(Parsed(Amount(x.value), x.rest)))
    case CheckedLayout => (var pair :- UnpackAmountDecimals(rest); Ok(Parsed(Checked(pair.value), pair.rest)))
    case KeyLayout => (var key :- UnpackPubkey(rest); Ok(Parsed(Key(key.value), key.rest)))
    case KeyOptionLayout => (var key :- UnpackPubkeyOption(rest); Ok(Parsed(KeyOption(key.value), key.rest)))
    case NewMintLayout => UnpackNewMint(rest)
    case NewAuthorityLayout => UnpackNewAuthority(rest)
    case TypesLayout => (var types :- UnpackExtensionTypes(rest); Ok(Parsed(Types(types), [])))
    case UiTextLayout => if ValidUtf8(rest) then Ok(Parsed(UiText(rest), [])) else Err(InvalidInstruction)
    case AmountOptionLayout => (var x :- UnpackU64Option(rest); Ok(Parsed(AmountOption(x.value), x.rest)))
    case RawLayout => Ok(Parsed(Raw(rest), []))
  }

  /** A tag and a payload of its layout always belong together, so the `None` of
      `Assemble` is the source's `unreachable!()`. */
  function UnpackWithRest(input: Bytes): Result<Parsed<TokenInstruction>> {
    if input == [] || LayoutOf(input[0]).None? then Err(InvalidInstruction)
    else
      var p :- UnpackPayload(LayoutOf(input[0]).value, input[1..]);
      if Assemble(input[0], p.value).Some? then Ok(Parsed(Assemble(input[0], p.value).value, p.rest)) else Err(Panic)
  }

  /** Instructions whose data runs to the end of the input. */
  predicate Greedy(ins: TokenInstruction) {
    ins.GetAccountDataSize? || ins.Reallocate? || ins.UiAmountToAmount? || ins.Batch?
  }

  // ---------------------------------------------------------------- the fields round-trip

  lemma PubkeyRoundTrip(key: Address, tail: Bytes)
    ensures UnpackPubkey(key.bytes + tail) == Ok(Parsed(key, tail))
  {
    assert (key.bytes + tail)[..32] == key.bytes;
  }

  lemma PubkeyOptionRoundTrip(key: Option<Address>, tail: Bytes)
    ensures UnpackPubkeyOption(PackPubkeyOption(key) + tail) == Ok(Parsed(key, tail))
  {
    match key
    case None => assert ([0] + tail)[1..] == tail;
    case Some(k) =>
      PubkeyRoundTrip(k, tail);
      assert ([1] + k.bytes + tail)[1..] == k.bytes + tail;
  }

  lemma U64FieldRoundTrip(x: u64, tail: Bytes)
    ensures UnpackU64(U64Bytes(x) + tail) == Ok(Parsed(x, tail))
  {
    U64RoundTrip(x);
    assert (U64Bytes(x) + tail)[..8] == U64Bytes(x);
  }

  lemma U64OptionRoundTrip(x: Option<u64>, tail: Bytes)
    ensures UnpackU64Option(PackU64Option(x) + tail) == Ok(Parsed(x, tail))
  {
    match x
    case None => assert ([0] + tail)[1..] == tail;
    case Some(v) =>
      U64FieldRoundTrip(v, tail);
      assert ([1] + U64Bytes(v) + tail)[1..] == U64Bytes(v) + tail;
  }

  lemma AmountDecimalsRoundTrip(x: u64, d: u8, tail: Bytes)
    ensures UnpackAmountDecimals(U64Bytes(x) + [d] + tail) == Ok(Parsed(AmountDecimals(x, d), tail))
  {
    U64FieldRoundTrip(x, [d] + tail);
    assert U64Bytes(x) + [d] + tail == U64Bytes(x) + ([d] + tail);
  }

  lemma {:induction false} ExtensionTypesRoundTrip(types: seq<ExtensionType>)
    ensures UnpackExtensionTypes(PackExtensionTypes(types)) == Ok(types)
    decreases |types|
  {
    if types != [] {
      assert Pow256(2) == 0x1_0000;
      LeValueOfBytes(types[0], 2);
      ExtensionTypesRoundTrip(types[1..]);
      var packed := PackExtensionTypes(types);
      assert packed[..2] == LeBytes(types[0], 2) && packed[2..] == PackExtensionTypes(types[1..]);
      assert LeValue(packed[..2]) == types[0];
      assert [types[0]] + types[1..] == types;
    }
  }

  lemma PubkeyParsed(input: Bytes)
    requires UnpackPubkey(input).Ok?
    ensures input == UnpackPubkey(input).value.value.bytes + UnpackPubkey(input).value.rest
  {
  }

  lemma PubkeyOptionParsed(input: Bytes)
    requires UnpackPubkeyOption(input).Ok?
    ensures input == PackPubkeyOption(UnpackPubkeyOption(input).value.value) + UnpackPubkeyOption(input).value.rest
  {
    if input[0] == 1 {
      PubkeyParsed(input[1..]);
    }
  }

  lemma U64Parsed(input: Bytes)
    requires UnpackU64(input).Ok?
    ensures input == U64Bytes(UnpackU64(input).value.value) + UnpackU64(input).value.rest
  {
    U64BytesOf(input[..8]);
  }

  lemma U64OptionParsed(input: Bytes)
    requires UnpackU64Option(input).Ok?
    ensures input == PackU64Option(UnpackU64Option(input).value.value) + UnpackU64Option(input).value.rest
  {
    if input[0] == 1 {
      U64Parsed(input[1..]);
    }
  }

  lemma AmountDecimalsParsed(input: Bytes)
    requires UnpackAmountDecimals(input).Ok?
    ensures var p := UnpackAmountDecimals(input).value;
            input == U64Bytes(p.value.amount) + [p.value.decimals] + p.rest
  {
    U64Parsed(input);
  }

  lemma {:induction false} ExtensionTypesParsed(input: Bytes)
    requires UnpackExtensionTypes(input).Ok?
    ensures input == PackExtensionTypes(UnpackExtensionTypes(input).value)
    decreases |input|
  {
    if input != [] {
      LeBytesOfValue(input[..2]);
      ExtensionTypesParsed(input[2..]);
      assert input == input[..2] + input[2..];
    }
  }

  // ---------------------------------------------------------------- the instructions round-trip

  predicate LaidOut(p: Payload, layout: Layout) {
    match layout
    case NothingLayout => p.Nothing?
    case ByteLayout => p.Byte?
    case AmountLayout => p.Amount?
    case CheckedLayout => p.Checked?
    case KeyLayout => p.Key?
    case KeyOptionLayout => p.KeyOption?
    case NewMintLayout => p.NewMint?
    case NewAuthorityLayout => p.NewAuthority?
    case TypesLayout => p.Types?
    case UiTextLayout => p.UiText?
    case AmountOptionLayout => p.AmountOption?
    case RawLayout => p.Raw?
  }

  predicate ToTheEnd(layout: Layout) {
    layout.TypesLayout? || layout.UiTextLayout? || layout.RawLayout?
  }

  lemma BareIsLaidOut(ins: TokenInstruction)
    requires Split(ins).Nothing?
    ensures LayoutOf(Tag(ins)) == Some(NothingLayout)
  {
  }

  lemma FilledIsLaidOut(ins: TokenInstruction)
    requires !Split(ins).Nothing?
    ensures LayoutOf(Tag(ins)).Some? && LaidOut(Split(ins), LayoutOf(Tag(ins)).value)
  {
  }

  lemma SplitIsLaidOut(ins: TokenInstruction)
    ensures LayoutOf(Tag(ins)).Some? && LaidOut(Split(ins), LayoutOf(Tag(ins)).value)
  {
    if Split(ins).Nothing? {
      BareIsLaidOut(ins);
    } else {
      FilledIsLaidOut(ins);
    }
  }

  lemma BareRejoins(ins: TokenInstruction)
    requires Split(ins).Nothing?
    ensures Bare(Tag(ins)) == Some(ins)
  {
  }

  lemma SplitRejoins(ins: TokenInstruction)
    ensures Assemble(Tag(ins), Split(ins)) == Some(ins)
  {
    if Split(ins).Nothing? {
      BareRejoins(ins);
    } else {
      FilledRejoins(ins);
    }
  }

  lemma FilledRejoins(ins: TokenInstruction)
    requires !Split(ins).Nothing?
    ensures Assemble(Tag(ins), Split(ins)) == Some(ins)
  {
  }

  lemma GreedyRunsToTheEnd(ins: TokenInstruction, layout: Layout)
    requires LayoutOf(Tag(ins)) == Some(layout)
    ensures Greedy(ins) <==> ToTheEnd(layout)
  {
  }

  /** The tables for taking instructions apart and putting them together agree. */
  lemma SplitAssembles(ins: TokenInstruction)
    ensures LayoutOf(Tag(ins)).Some? && LaidOut(Split(ins), LayoutOf(Tag(ins)).value)
    ensures Assemble(Tag(ins), Split(ins)) == Some(ins)
    ensures Greedy(ins) <==> ToTheEnd(LayoutOf(Tag(ins)).value)
  {
    SplitIsLaidOut(ins);
    SplitRejoins(ins);
    GreedyRunsToTheEnd(ins, LayoutOf(Tag(ins)).value);
  }

  lemma BareTags(tag: u8)
    requires LayoutOf(tag) == Some(NothingLayout)
    ensures Bare(tag).Some?
  {
  }

  lemma BareSplitsLow(tag: u8)
    requires Bare(tag).Some? && tag < 30
    ensures Tag(Bare(tag).value) == tag && Split(Bare(tag).value) == Nothing
  {
  }

  lemma BareSplitsMiddle(tag: u8)
    requires Bare(tag).Some? && 30 <= tag < 38
    ensures Tag(Bare(tag).value) == tag && Split(Bare(tag).value) == Nothing
  {
  }

  lemma BareSplitsHigh(tag: u8)
    requires Bare(tag).Some? && 38 <= tag < 43
    ensures Tag(Bare(tag).value) == tag && Split(Bare(tag).value) == Nothing
  {
  }

  lemma BareSplits(tag: u8)
    requires Bare(tag).Some?
    ensures Tag(Bare(tag).value) == tag && Split(Bare(tag).value) == Nothing
  {
    if tag < 30 { BareSplitsLow(tag); }
    else if tag < 38 { BareSplitsMiddle(tag); }
    else if tag < 43 { BareSplitsHigh(tag); }
  }

  lemma AmountSplits(tag: u8, x: u64, decimals: u8)
    ensures LayoutOf(tag) == Some(AmountLayout) ==>
              OfAmount(tag, x).Some? && Tag(OfAmount(tag, x).value) == tag && Split(OfAmount(tag, x).value) == Amount(x)
    ensures LayoutOf(tag) == Some(CheckedLayout) ==>
              OfChecked(tag, x, decimals).Some? && Tag(OfChecked(tag, x, decimals).value) == tag
              && Split(OfChecked(tag, x, decimals).value) == Checked(AmountDecimals(x, decimals))
  {
  }

  lemma AssembleSplits(tag: u8, p: Payload)
    requires LayoutOf(tag).Some? && LaidOut(p, LayoutOf(tag).value)
    ensures Assemble(tag, p).Some?
    ensures Tag(Assemble(tag, p).value) == tag && Split(Assemble(tag, p).value) == p
  {
    match p
    case Nothing =>
      BareTags(tag);
      BareSplits(tag);
    case Amount(x) => AmountSplits(tag, x, 0);
    case Checked(pair) => AmountSplits(tag, pair.amount, pair.decimals);
    case _ => OtherSplits(tag, p);
  }

  lemma OtherSplits(tag: u8, p: Payload)
    requires LayoutOf(tag).Some? && LaidOut(p, LayoutOf(tag).value) && !p.Nothing? && !p.Amount? && !p.Checked?
    ensures Assemble(tag, p).Some?
    ensures Tag(Assemble(tag, p).value) == tag && Split(Assemble(tag, p).value) == p
  {
  }

  lemma NewMintRoundTrip(decimals: u8, key: Address, freeze: Option<Address>, tail: Bytes)
    ensures UnpackNewMint([decimals] + key.bytes + PackPubkeyOption(freeze) + tail) == Ok(Parsed(NewMint(decimals, key, freeze), tail))
  {
    var afterKey := PackPubkeyOption(freeze) + tail;
    var afterByte := key.bytes + afterKey;
    Reassociate([decimals] + key.bytes, PackPubkeyOption(freeze), tail);
    Reassociate([decimals], key.bytes, afterKey);
    assert UnpackByte([decimals] + afterByte) == Ok(Parsed(decimals, afterByte)) by {
      assert ([decimals] + afterByte)[1..] == afterByte;
    }
    PubkeyRoundTrip(key, PackPubkeyOption(freeze) + tail);
    PubkeyOptionRoundTrip(freeze, tail);
  }

  lemma NewAuthorityRoundTrip(kind: AuthorityType, key: Option<Address>, tail: Bytes)
    ensures UnpackNewAuthority([AuthorityTypeByte(kind)] + PackPubkeyOption(key) + tail) == Ok(Parsed(NewAuthority(kind, key), tail))
  {
    AuthorityTypeBytesBiject(kind, 0);
    PubkeyOptionRoundTrip(key, tail);
    var index, afterByte := AuthorityTypeByte(kind), PackPubkeyOption(key) + tail;
    Reassociate([index], PackPubkeyOption(key), tail);
    assert UnpackByte([index] + afterByte) == Ok(Parsed(index, afterByte)) by {
      assert ([index] + afterByte)[1..] == afterByte;
    }
  }

  lemma PayloadRoundTrip(p: Payload, layout: Layout, tail: Bytes)
    requires LaidOut(p, layout) && (ToTheEnd(layout) ==> tail == [])
    ensures UnpackPayload(layout, PackPayload(p) + tail) == Ok(Parsed(p, tail))
  {
    match p
    case Nothing => assert [] + tail == tail;
    case Byte(b) => assert ([b] + tail)[1..] == tail;
    case Amount(x) => U64FieldRoundTrip(x, tail);
    case Checked(pair) => AmountDecimalsRoundTrip(pair.amount, pair.decimals, tail);
    case Key(key) => PubkeyRoundTrip(key, tail);
    case KeyOption(key) => PubkeyOptionRoundTrip(key, tail);
    case NewMint(decimals, key, freeze) => NewMintRoundTrip(decimals, key, freeze, tail);
    case NewAuthority(kind, key) => NewAuthorityRoundTrip(kind, key, tail);
    case Types(types) =>
      ExtensionTypesRoundTrip(types);
      assert PackExtensionTypes(types) + [] == PackExtensionTypes(types);
    case UiText(text) => assert text + [] == text;
    case AmountOption(x) => U64OptionRoundTrip(x, tail);
    case Raw(data) => assert data + [] == data;
  }

  lemma NewMintParsed(rest: Bytes)
    requires UnpackNewMint(rest).Ok?
    ensures var p := UnpackNewMint(rest).value;
            p.value.NewMint? && rest == PackPayload(p.value) + p.rest
  {
    var afterByte := rest[1..];
    var key, afterKey := Address(afterByte[..32]), afterByte[32..];
    PubkeyOptionParsed(afterKey);
    var freeze := UnpackPubkeyOption(afterKey).value;
    assert UnpackNewMint(rest) == Ok(Parsed(NewMint(rest[0], key, freeze.value), freeze.rest));
    var packed := PackPubkeyOption(freeze.value);
    assert afterByte == key.bytes + (packed + freeze.rest);
    assert rest == [rest[0]] + afterByte;
    assert [rest[0]] + (key.bytes + (packed + freeze.rest)) == ([rest[0]] + key.bytes + packed) + freeze.rest;
  }

  lemma NewAuthorityParsed(rest: Bytes)
    requires UnpackNewAuthority(rest).Ok?
    ensures var p := UnpackNewAuthority(rest).value;
            p.value.NewAuthority? && rest == PackPayload(p.value) + p.rest
  {
    AuthorityTypeBytesBiject(AccountOwner, rest[0]);
    var afterByte := rest[1..];
    PubkeyOptionParsed(afterByte);
    var key := UnpackPubkeyOption(afterByte).value;
    assert rest == [rest[0]] + afterByte;
    assert [rest[0]] + (PackPubkeyOption(key.value) + key.rest) == ([rest[0]] + PackPubkeyOption(key.value)) + key.rest;
  }

  lemma PayloadParsed(layout: Layout, rest: Bytes)
    requires UnpackPayload(layout, rest).Ok?
    ensures var p := UnpackPayload(layout, rest).value;
            LaidOut(p.value, layout) && rest == PackPayload(p.value) + p.rest && (ToTheEnd(layout) ==> p.rest == [])
  {
    match layout
    case AmountLayout => U64Parsed(rest);
    case CheckedLayout => AmountDecimalsParsed(rest);
    case KeyLayout => PubkeyParsed(rest);
    case KeyOptionLayout => PubkeyOptionParsed(rest);
    case NewMintLayout => NewMintParsed(rest);
    case NewAuthorityLayout => NewAuthorityParsed(rest);
    case TypesLayout => ExtensionTypesParsed(rest);
    case AmountOptionLayout => U64OptionParsed(rest);
    case _ =>
  }

  /** Unpacking what was packed gives the instruction back and leaves the bytes after it. */
  lemma UnpackAfterPack(ins: TokenInstruction, tail: Bytes)
    requires Greedy(ins) ==> tail == []
    ensures UnpackWithRest(Pack(ins) + tail) == Ok(Parsed(ins, tail))
  {
    SplitAssembles(ins);
    var input := Pack(ins) + tail;
    assert input[0] == Tag(ins) && input[1..] == PackPayload(Split(ins)) + tail;
    PayloadRoundTrip(Split(ins), LayoutOf(Tag(ins)).value, tail);
    UnpackByLayout(input, LayoutOf(Tag(ins)).value, Parsed(Split(ins), tail), ins);
  }

  lemma UnpackByLayout(input: Bytes, layout: Layout, p: Parsed<Payload>, ins: TokenInstruction)
    requires input != [] && LayoutOf(input[0]) == Some(layout) && UnpackPayload(layout, input[1..]) == Ok(p)
    requires Assemble(input[0], p.value) == Some(ins)
    ensures UnpackWithRest(input) == Ok(Parsed(ins, p.rest))
  {
  }

  /** What unpacks is exactly the packed instruction followed by the rest. */
  lemma PackAfterUnpack(input: Bytes)
    requires UnpackWithRest(input).Ok?
    ensures var p := UnpackWithRest(input).value;
            input == Pack(p.value) + p.rest && (Greedy(p.value) ==> p.rest == [])
  {
    PayloadParsed(LayoutOf(input[0]).value, input[1..]);
    var payload := UnpackPayload(LayoutOf(input[0]).value, input[1..]).value.value;
    AssembleSplits(input[0], payload);
    SplitAssembles(Assemble(input[0], payload).value);
    assert input == [input[0]] + input[1..];
  }

  /** Unpacking never reaches the source's `unreachable!()`. */
  lemma UnpackNeverPanics(input: Bytes)
    ensures UnpackWithRest(input) != Err(Panic)
  {
    if input != [] && LayoutOf(input[0]).Some? && UnpackPayload(LayoutOf(input[0]).value, input[1..]).Ok? {
      PayloadParsed(LayoutOf(input[0]).value, input[1..]);
      AssembleSplits(input[0], UnpackPayload(LayoutOf(input[0]).value, input[1..]).value.value);
    } else if input != [] && LayoutOf(input[0]).Some? {
      PayloadErrors(LayoutOf(input[0]).value, input[1..]);
    }
  }

  lemma PayloadErrors(layout: Layout, rest: Bytes)
    ensures UnpackPayload(layout, rest) != Err(Panic)
  {
    TypesErrors(rest);
  }

  lemma TypesErrors(rest: Bytes)
    ensures UnpackExtensionTypes(rest) != Err(Panic)
  {
  }

  // ---------------------------------------------------------------- the buffer-pushing form

  lemma {:induction false} PackExtensionTypesSnoc(types: seq<ExtensionType>, last: ExtensionType)
    ensures PackExtensionTypes(types + [last]) == PackExtensionTypes(types) + LeBytes(last, 2)
    decreases |types|
  {
    if types == [] {
      assert [last][1..] == [];
    } else {
      assert (types + [last])[1..] == types[1..] + [last];
      PackExtensionTypesSnoc(types[1..], last);
    }
  }

  method PushExtensionTypes(types: seq<ExtensionType>, buffer: Bytes) returns (buf: Bytes)
    ensures buf == buffer + PackExtensionTypes(types)
  {
    buf := buffer;
    for i := 0 to |types|
      invariant buf == buffer + PackExtensionTypes(types[..i])
    {
      buf := buf + LeBytes(types[i], 2);
      PackExtensionTypesSnoc(types[..i], types[i]);
      assert types[..i] + [types[i]] == types[..i + 1];
    }
    assert types[..|types|] == types;
  }

  lemma Reassociate(a: Bytes, b: Bytes, c: Bytes)
    ensures (a + b) + c == a + (b + c)
  {
  }

  method PushPubkeyOption(value: Option<Address>, buffer: Bytes) returns (buf: Bytes)
    ensures buf == buffer + PackPubkeyOption(value)
  {
    if value.Some? {
      buf := buffer + [1];
      buf := buf + value.value.bytes;
      Reassociate(buffer, [1], value.value.bytes);
    } else {
      buf := buffer + [0];
    }
  }

  method PushAmountDecimals(pair: AmountDecimals, buffer: Bytes) returns (buf: Bytes)
    ensures buf == buffer + PackPayload(Checked(pair))
  {
    buf := buffer + U64Bytes(pair.amount);
    buf := buf + [pair.decimals];
    Reassociate(buffer, U64Bytes(pair.amount), [pair.decimals]);
  }

  method PushNewMint(decimals: u8, key: Address, freeze: Option<Address>, buffer: Bytes) returns (buf: Bytes)
    ensures buf == buffer + PackPayload(NewMint(decimals, key, freeze))
  {
    buf := buffer + [decimals];
    buf := buf + key.bytes;
    Reassociate(buffer, [decimals], key.bytes);
    buf := PushPubkeyOption(freeze, buf);
    Reassociate(buffer, [decimals] + key.bytes, PackPubkeyOption(freeze));
  }

  method PushNewAuthority(kind: AuthorityType, key: Option<Address>, buffer: Bytes) returns (buf: Bytes)
    ensures buf == buffer + PackPayload(NewAuthority(kind, key))
  {
    var index := AuthorityTypeByte(kind);
    buf := buffer + [index];
    buf := PushPubkeyOption(key, buf);
    Reassociate(buffer, [index], PackPubkeyOption(key));
  }

  method PushU64Option(value: Option<u64>, buffer: Bytes) returns (buf: Bytes)
    ensures buf == buffer + PackU64Option(value)
  {
    if value.Some? {
      buf := buffer + [1];
      buf := buf + U64Bytes(value.value);
      Reassociate(buffer, [1], U64Bytes(value.value));
    } else {
      buf := buffer + [0];
    }
  }

  /** The payload of an instruction, pushed field by field. */
  method PushPayload(p: Payload, buffer: Bytes) returns (buf: Bytes)
    ensures buf == buffer + PackPayload(p)
  {
    match p {
      case Nothing => buf := buffer;
      case Byte(b) => buf := buffer + [b];
      case Amount(x) => buf := buffer + U64Bytes(x);
      case Checked(pair) => buf := PushAmountDecimals(pair, buffer);
      case Key(key) => buf := buffer + key.bytes;
      case KeyOption(key) => buf := PushPubkeyOption(key, buffer);
      case NewMint(decimals, key, freeze) => buf := PushNewMint(decimals, key, freeze, buffer);
      case NewAuthority(kind, key) => buf := PushNewAuthority(kind, key, buffer);
      case Types(types) => buf := PushExtensionTypes(types, buffer);
      case UiText(text) => buf := buffer + text;
      case AmountOption(x) => buf := PushU64Option(x, buffer);
      case Raw(data) => buf := buffer + data;
    }
  }

  /** `TokenInstruction::pack`. */
  method PackInstruction(ins: TokenInstruction) returns (buf: Bytes)
    ensures buf == Pack(ins)
    ensures UnpackWithRest(buf) == Ok(Parsed(ins, []))
  {
    buf := [Tag(ins)];
    buf := PushPayload(Split(ins), buf);
    UnpackAfterPack(ins, []);
    assert buf + [] == buf;
  }

  /** The loop over two-byte chunks that reads extension types. */
  method ReadExtensionTypes(input: Bytes) returns (r: Result<seq<ExtensionType>>)
    ensures r == UnpackExtensionTypes(input)
  {
    var types: seq<ExtensionType> := [];
    var i := 0;
    assert input[0..] == input && forall t: seq<ExtensionType> :: [] + t == t;
    while i < |input|
      invariant 0 <= i <= |input|
      invariant var rest := UnpackExtensionTypes(input[i..]);
                UnpackExtensionTypes(input) == if rest.Ok? then Ok(types + rest.value) else rest
    {
      var chunk := input[i..if i + 2 <= |input| then i + 2 else |input|];
      assert |chunk| == 2 ==> input[i..][..2] == chunk && input[i..][2..] == input[i + 2..];
      assert UnpackExtensionTypes(input[i..]) == Err(InvalidAccountData) || |chunk| == 2;
      if |chunk| < 2 || LeValue(chunk) > 28 { return Err(InvalidAccountData); }
      var code: ExtensionType := LeValue(chunk);
      ghost var rest := UnpackExtensionTypes(input[i + 2..]);
      assert rest.Ok? ==> types + ([code] + rest.value) == (types + [code]) + rest.value;
      types := types + [code];
      i := i + 2;
    }
    assert input[i..] == [] && types + [] == types;
    return Ok(types);
  }
}
