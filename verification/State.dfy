/** The token program's stored records (`interface/src/state.rs`), the
    extension data the handlers consult, and the slots of the ledger. */
module State {
  import opened Base

  const MAX_SIGNERS := 11
  const MINT_LEN := 82
  const ACCOUNT_LEN := 165
  const MULTISIG_LEN := 355

  datatype AccountState = Uninitialized | Initialized | Frozen

  datatype Mint = Mint(
    mintAuthority: Option<Address>,
    supply: u64,
    decimals: u8,
    isInitialized: bool,
    freezeAuthority: Option<Address>)

  datatype Account = Account(
    mint: Address,
    owner: Address,
    amount: u64,
    delegate: Option<Address>,
    state: AccountState,
    isNative: Option<u64>,
    delegatedAmount: u64,
    closeAuthority: Option<Address>)
  {
    predicate IsFrozen() {
      state.Frozen?
    }

    predicate IsNative() {
      isNative.Some?
    }

    predicate OwnedBySystemProgramOrIncinerator() {
      owner == SYSTEM_PROGRAM || owner == INCINERATOR
    }
  }

  type SignerTable = s: seq<Address> | |s| == MAX_SIGNERS witness seq(MAX_SIGNERS, _ => SYSTEM_PROGRAM)

  datatype Multisig = Multisig(m: u8, n: u8, isInitialized: bool, signers: SignerTable)

  datatype AuthorityType =
    | MintTokens
    | FreezeAccount
    | AccountOwner
    | CloseAccount
    | TransferFeeConfig
    | WithheldWithdraw
    | CloseMint
    | InterestRate
    | PermanentDelegate
    | ConfidentialTransferMint
    | TransferHookProgramId
    | ConfidentialTransferFeeConfig
    | MetadataPointer
    | GroupPointer
    | GroupMemberPointer
    | ScaledUiAmount
    | Pause
    | PermissionedBurn

  /** A mint's extensions. Every extension with an authority is present exactly
      when its authority type is a key of `authorities`. */
  datatype MintExt = MintExt(
    authorities: map<AuthorityType, Option<Address>>,
    nonTransferable: bool,
    paused: bool,
    defaultState: Option<AccountState>,
    confidentialMintBurn: bool)
  {
    predicate HasTransferFee() {
      TransferFeeConfig in authorities
    }

    predicate HasTransferHook() {
      TransferHookProgramId in authorities
    }

    predicate IsPausable() {
      Pause in authorities
    }

    predicate IsPaused() {
      IsPausable() && paused
    }

    /** The authority of an extension that may be missing or have none. */
    function Authority(kind: AuthorityType): Option<Address> {
      if kind in authorities then authorities[kind] else None
    }
  }

  const PLAIN_MINT_EXT := MintExt(map[], false, false, None, false)

  /** A token account's extensions. */
  datatype AccountExt = AccountExt(
    withheld: Option<u64>,
    immutableOwner: bool,
    nonTransferable: bool,
    lockCpi: bool,
    transferHook: bool,
    pausable: bool)
  {
    /** A mark left at initialisation by an extension of the mint that has a say in transfers. */
    predicate HasMarker() {
      transferHook || withheld.Some? || pausable
    }
  }

  datatype TokenMint = TokenMint(base: Mint, ext: MintExt)
  datatype TokenAccount = TokenAccount(base: Account, ext: AccountExt)

  /** Extensions written before the base record is initialised. */
  datatype Tlv = NoTlv | MintTlv(ext: MintExt) | ImmutableOwnerTlv

  datatype Data =
    | Fresh(tlv: Tlv)
    | MintData(mint: TokenMint)
    | AccountData(account: TokenAccount)
    | MultisigData(multisig: Multisig)

  /** The program that owns a slot. */
  datatype Program = Token2022 | LegacyToken | Other

  datatype Slot = Slot(program: Program, lamports: u64, len: nat, data: Data)

  /** A key nobody has funded yet; also what a deleted account leaves behind. */
  const EMPTY_SLOT := Slot(Other, 0, 0, Fresh(NoTlv))

  /** All accounts by key. Lamports live in the slot, so two account-list entries
      with one key always see the same balance and the same data. */
  type Ledger = map<Address, Slot>

  function Get(l: Ledger, key: Address): Slot {
    if key in l then l[key] else EMPTY_SLOT
  }

  function PutAccount(l: Ledger, key: Address, account: TokenAccount): Ledger {
    l[key := Get(l, key).(data := AccountData(account))]
  }

  function PutMint(l: Ledger, key: Address, mint: TokenMint): Ledger {
    l[key := Get(l, key).(data := MintData(mint))]
  }

  function PutLamports(l: Ledger, key: Address, lamports: u64): Ledger {
    l[key := Get(l, key).(lamports := lamports)]
  }

  function CheckProgram(slot: Slot): Result<()> {
    Need(slot.program == Token2022, IncorrectProgramId)
  }

  function UnpackAccount(slot: Slot): Result<TokenAccount> {
    if slot.len == MULTISIG_LEN || slot.len < ACCOUNT_LEN then Err(InvalidAccountData)
    else match slot.data
      case AccountData(a) => if a.base.state.Uninitialized? then Err(UninitializedAccount) else Ok(a)
      case Fresh(_) => Err(UninitializedAccount)
      case _ => Err(InvalidAccountData)
  }

  function UnpackMint(slot: Slot): Result<TokenMint> {
    if slot.len == MULTISIG_LEN || slot.len < MINT_LEN then Err(InvalidAccountData)
    else match slot.data
      case MintData(m) => if m.base.isInitialized then Ok(m) else Err(UninitializedAccount)
      case Fresh(_) => Err(UninitializedAccount)
      case _ => Err(InvalidAccountData)
  }

  /** The two handlers' environment: rent by data length, the exact length of a
      mint and the least length of an account with given mint extensions, whether
      the call came through a cross-program invocation, and the transfer fee of
      the current epoch for a mint and an amount. */
  datatype Env = Env(
    rent: nat -> u64,
    mintLen: MintExt -> nat,
    accountLen: MintExt -> nat,
    inCpi: bool,
    epochFee: (Address, u64) -> Option<u64>)
}
