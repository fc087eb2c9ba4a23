/** Shared vocabulary: machine integers, options, the program's error values,
    addresses, and the account list that accompanies every instruction. */
module Base {
  const U64_MAX := 0xFFFF_FFFF_FFFF_FFFF

  type u8 = n: nat | n < 0x100
  type u64 = n: nat | n <= U64_MAX

  datatype Option<+T> = None | Some(value: T)

  /** `ProgramError` and `TokenError` values the modelled code returns. `Panic`
      stands for an aborted instruction (an out-of-range slice or index);
      `CpiFailed` for a failed call into the system program; `NotModelled` for
      an instruction this model leaves out. */
  datatype Error =
    | NotEnoughAccountKeys
    | IncorrectProgramId
    | InvalidAccountData
    | InvalidArgument
    | InvalidInstructionData
    | MissingRequiredSignature
    | UninitializedAccount
    | NotRentExempt
    | InsufficientFunds
    | InvalidMint
    | MintMismatch
    | OwnerMismatch
    | FixedSupply
    | AlreadyInUse
    | InvalidNumberOfProvidedSigners
    | InvalidNumberOfRequiredSigners
    | NativeNotSupported
    | NonNativeHasBalance
    | InvalidInstruction
    | InvalidState
    | Overflow
    | AuthorityTypeNotSupported
    | MintCannotFreeze
    | AccountFrozen
    | MintDecimalsMismatch
    | NonNativeNotSupported
    | MintRequiredForTransfer
    | FeeMismatch
    | MintHasSupply
    | NonTransferable
    | NonTransferableNeedsImmutableOwnership
    | ImmutableOwner
    | AccountHasWithheldTransferFees
    | CpiGuardTransferBlocked
    | CpiGuardBurnBlocked
    | CpiGuardCloseAccountBlocked
    | CpiGuardApproveBlocked
    | CpiGuardSetAuthorityBlocked
    | CpiGuardOwnerChangeBlocked
    | MintPaused
    | IllegalMintBurnConversion
    | Panic
    | CpiFailed
    | NotModelled

  datatype Result<+T> = Ok(value: T) | Err(error: Error) {
    predicate IsFailure() {
      Err?
    }

    function PropagateFailure<U>(): Result<U>
      requires Err?
    {
      Err(error)
    }

    function Extract(): T
      requires Ok?
    {
      value
    }

    /** The same outcome, with any error replaced by this one. */
    function MapErr(e: Error): Result<T> {
      if Ok? then this else Err(e)
    }
  }

  /** The guard idiom of the source: `if !condition { return Err(error) }`. */
  function Need(condition: bool, error: Error): Result<()> {
    if condition then Ok(()) else Err(error)
  }

  type Bytes32 = b: seq<u8> | |b| == 32 witness seq(32, _ => 0)

  datatype Address = Address(bytes: Bytes32)

  // Well-known ids. No property depends on which bytes they are, so they are left
  // unspecified and everything holds for the deployed values. The system program's
  // id is also `Address::default()`.
  const SYSTEM_PROGRAM: Address
  const INCINERATOR: Address
  const RENT_SYSVAR: Address
  const NATIVE_MINT: Address
  const NATIVE_DECIMALS: u8 := 9

  /** One entry of an instruction's account list. Entries that share a key share
      the account; whether the entry signed is a property of the entry. */
  datatype Meta = Meta(key: Address, isSigner: bool)

  /** `next_account_info`: the i-th account, if the list is that long. */
  function At(accounts: seq<Meta>, i: nat): Result<Meta> {
    if i < |accounts| then Ok(accounts[i]) else Err(NotEnoughAccountKeys)
  }
}
