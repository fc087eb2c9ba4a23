/** What each instruction handler of `program/src/processor.rs` does to the
    ledger, as a function: the new ledger, or the error it stops with. The class
    `Bank` holds the handlers in the source's own form, writing fields as they go,
    and proves each of them equal to its function here. */
module Processor {
  import opened Base
  import opened State
  import opened Authority

  datatype TransferKind = Unchecked | Checked(decimals: u8) | CheckedWithFee(decimals: u8, fee: u64)

  /** `Rent::get()`, or the rent sysvar found in the account list at `i`. */
  function RentAccount(accounts: seq<Meta>, i: nat, fromAccount: bool): Result<()> {
    if !fromAccount then Ok(())
    else
      var rent :- At(accounts, i);
      Need(rent.key == RENT_SYSVAR, InvalidArgument)
  }

  // ---------------------------------------------------------------- initialisation

  function UninitializedMint(slot: Slot): Result<MintExt> {
    if slot.len == MULTISIG_LEN || slot.len < MINT_LEN then Err(InvalidAccountData)
    else match slot.data
      case Fresh(NoTlv) => Ok(PLAIN_MINT_EXT)
      case Fresh(MintTlv(ext)) => Ok(ext)
      case MintData(_) => Err(AlreadyInUse)
      case _ => Err(InvalidAccountData)
  }

  function InitializeMint(env: Env, l: Ledger, accounts: seq<Meta>, decimals: u8, mintAuthority: Address,
                          freezeAuthority: Option<Address>, rentAccount: bool): Result<Ledger>
  {
    var info :- At(accounts, 0);
    var slot := Get(l, info.key);
    var _ :- CheckProgram(slot);
    var _ :- RentAccount(accounts, 1, rentAccount);
    var _ :- Need(slot.lamports >= env.rent(slot.len), NotRentExempt);
    var ext :- UninitializedMint(slot);
    var _ :- Need(env.mintLen(ext) == slot.len, InvalidAccountData);
    var _ :- Need(!(ext.defaultState == Some(Frozen) && freezeAuthority.None?), MintCannotFreeze);
    Ok(PutMint(l, info.key, TokenMint(Mint(Some(mintAuthority), 0, decimals, true, freezeAuthority), ext)))
  }

  function UninitializedAccountTlv(slot: Slot): Result<bool> {
    if slot.len == MULTISIG_LEN || slot.len < ACCOUNT_LEN then Err(InvalidAccountData)
    else match slot.data
      case Fresh(NoTlv) => Ok(false)
      case Fresh(ImmutableOwnerTlv) => Ok(true)
      case AccountData(_) => Err(AlreadyInUse)
      case _ => Err(InvalidAccountData)
  }

  /** The extensions an account of this mint gets on initialisation. */
  function RequiredAccountExt(ext: MintExt, immutableOwner: bool): AccountExt {
    AccountExt(if ext.HasTransferFee() then Some(0) else None,
               immutableOwner || ext.nonTransferable, ext.nonTransferable,
               false, ext.HasTransferHook(), ext.IsPausable())
  }

  /** The record a new account starts with; a native one starts with the lamports
      above its rent reserve as its amount. */
  function NewAccount(mintKey: Address, owner: Address, ext: MintExt, reserve: u64, lamports: u64): Account
    requires reserve <= lamports
  {
    var native := mintKey == NATIVE_MINT;
    Account(mintKey, owner, if native then lamports - reserve else 0, None,
            if ext.defaultState.Some? then ext.defaultState.value else Initialized,
            if native then Some(reserve) else None, 0, None)
  }

  function InitializeAccount(env: Env, l: Ledger, accounts: seq<Meta>, givenOwner: Option<Address>,
                             rentAccount: bool): Result<Ledger>
  {
    var info :- At(accounts, 0);
    var mintInfo :- At(accounts, 1);
    var slot := Get(l, info.key);
    var _ :- CheckProgram(slot);
    var _ :- CheckProgram(Get(l, mintInfo.key));
    var owner :- if givenOwner.Some? then Ok(givenOwner.value)
                 else (var o :- At(accounts, 2); Ok(o.key));
    var _ :- RentAccount(accounts, if givenOwner.Some? then 2 else 3, rentAccount);
    var immutableOwner :- UninitializedAccountTlv(slot);
    var _ :- Need(slot.lamports >= env.rent(slot.len), NotRentExempt);
    var mint :- UnpackMint(Get(l, mintInfo.key)).MapErr(InvalidMint);
    var _ :- Need(env.accountLen(mint.ext) <= slot.len, InvalidAccountData);
    var base := NewAccount(mintInfo.key, owner, mint.ext, env.rent(slot.len), slot.lamports);
    Ok(PutAccount(l, info.key, TokenAccount(base, RequiredAccountExt(mint.ext, immutableOwner))))
  }

  predicate IsValidSignerIndex(n: nat) {
    1 <= n <= MAX_SIGNERS
  }

  function SignerKeys(infos: seq<Meta>): SignerTable
    requires |infos| <= MAX_SIGNERS
  {
    seq(MAX_SIGNERS, i requires 0 <= i => if i < |infos| then infos[i].key else SYSTEM_PROGRAM)
  }

  function InitializeMultisig(env: Env, l: Ledger, accounts: seq<Meta>, m: u8, rentAccount: bool): Result<Ledger> {
    var info :- At(accounts, 0);
    var slot := Get(l, info.key);
    var _ :- CheckProgram(slot);
    var _ :- RentAccount(accounts, 1, rentAccount);
    var _ :- Need(slot.len == MULTISIG_LEN, InvalidArgument);
    var _ :- Need(!ViewMultisig(slot).isInitialized, AlreadyInUse);
    var _ :- Need(slot.lamports >= env.rent(slot.len), NotRentExempt);
    var signers := accounts[if rentAccount then 2 else 1..];
    var n: u8 := |signers| % 0x100;
    var _ :- Need(IsValidSignerIndex(n), InvalidNumberOfProvidedSigners);
    var _ :- Need(IsValidSignerIndex(m), InvalidNumberOfRequiredSigners);
    var _ :- Need(|signers| <= MAX_SIGNERS, Panic);
    Ok(l[info.key := slot.(data := MultisigData(Multisig(m, n, true, SignerKeys(signers))))])
  }

  /** The system program's part: the payer, a signing account outside the token
      programs, covers what the native mint lacks; the mint's slot must be unused. */
  function CreateNativeMint(env: Env, l: Ledger, accounts: seq<Meta>): Result<Ledger> {
    var _ :- Need(|accounts| >= 3, NotEnoughAccountKeys);
    var payer, info := accounts[0], accounts[1];
    var _ :- Need(info.key == NATIVE_MINT, InvalidMint);
    var have := Get(l, info.key).lamports;
    var least := env.rent(MINT_LEN);
    var diff := if have < least then least - have else 0;
    var _ :- Need(payer.isSigner && payer.key != NATIVE_MINT && Get(l, payer.key).program == Other, CpiFailed);
    var _ :- Need(Get(l, payer.key).lamports >= diff, CpiFailed);
    var _ :- Need(Get(l, info.key).program == Other && Get(l, info.key).len == 0, CpiFailed);
    var paid := PutLamports(l, payer.key, Get(l, payer.key).lamports - diff);
    Ok(paid[NATIVE_MINT := Slot(Token2022, have + diff, MINT_LEN,
                                MintData(TokenMint(Mint(None, 0, NATIVE_DECIMALS, true, None), PLAIN_MINT_EXT)))])
  }

  // ---------------------------------------------------------------- balances

  /** The authority arms shared by Transfer and Burn: the mint's permanent delegate
      first, then the account's delegate within its allowance, then the owner. The
      result is the account with the allowance drawn down by `amount`. */
  function Spend(l: Ledger, base: Account, permanent: Option<Address>, authority: Meta, signers: seq<Meta>,
                 amount: u64, consume: bool): Result<Account>
  {
    if permanent == Some(authority.key) then
      var _ :- ValidateOwner(l, authority.key, authority, signers);
      Ok(base)
    else if base.delegate == Some(authority.key) then
      var _ :- ValidateOwner(l, authority.key, authority, signers);
      var _ :- Need(base.delegatedAmount >= amount, InsufficientFunds);
      Ok(if consume then DrawDown(base, amount) else base)
    else
      var _ :- ValidateOwner(l, base.owner, authority, signers);
      Ok(base)
  }

  function DrawDown(base: Account, amount: u64): Account
    requires amount <= base.delegatedAmount
  {
    base.(delegatedAmount := base.delegatedAmount - amount,
          delegate := if base.delegatedAmount == amount then None else base.delegate)
  }

  /** The mint's say in a transfer: the fee and the permanent delegate. Without a
      mint in the account list, accounts whose mint must have a say are refused. */
  datatype Terms = Terms(fee: u64, permanentDelegate: Option<Address>)

  function TransferTerms(env: Env, l: Ledger, source: TokenAccount, mintKey: Address, amount: u64,
                         kind: TransferKind): Result<Terms>
  {
    if kind.Unchecked? then
      var _ :- Need(!source.ext.transferHook && source.ext.withheld.None? && !source.ext.pausable, MintRequiredForTransfer);
      Ok(Terms(0, None))
    else
      var _ :- CheckProgram(Get(l, mintKey));
      var _ :- Need(source.base.mint == mintKey, MintMismatch);
      var mint :- UnpackMint(Get(l, mintKey));
      var _ :- Need(kind.decimals == mint.base.decimals, MintDecimalsMismatch);
      var _ :- Need(mint.ext.HasTransferFee() ==> env.epochFee(mintKey, amount).Some?, Overflow);
      var fee := if mint.ext.HasTransferFee() then env.epochFee(mintKey, amount).value else 0;
      var _ :- Need(!(mint.ext.IsPausable() && mint.ext.paused), MintPaused);
      Ok(Terms(fee, mint.ext.Authority(PermanentDelegate)))
  }

  /** The destination after a credit of `amount`, `fee` of it withheld. */
  function Credit(dst: TokenAccount, amount: u64, fee: u64): Result<TokenAccount> {
    var _ :- Need(fee <= amount, Overflow);
    var _ :- Need(dst.base.amount + (amount - fee) <= U64_MAX, Overflow);
    var base := dst.base.(amount := dst.base.amount + (amount - fee));
    if fee == 0 then Ok(TokenAccount(base, dst.ext))
    else
      var _ :- Need(dst.ext.withheld.Some?, InvalidState);
      var _ :- Need(dst.ext.withheld.value + fee <= U64_MAX, Overflow);
      Ok(TokenAccount(base, dst.ext.(withheld := Some(dst.ext.withheld.value + fee))))
  }

  /** Moves lamports between two slots of the ledger, in the source's order: the
      second balance is read after the first has been written. */
  function MoveLamports(l: Ledger, source: Address, destination: Address, amount: u64): Result<Ledger> {
    var _ :- Need(Get(l, source).lamports >= amount, Overflow);
    var debited := PutLamports(l, source, Get(l, source).lamports - amount);
    var _ :- Need(Get(debited, destination).lamports + amount <= U64_MAX, Overflow);
    Ok(PutLamports(debited, destination, Get(debited, destination).lamports + amount))
  }

  /** Where an instruction's destination stands in the account list. */
  function TransferDestination(accounts: seq<Meta>, kind: TransferKind): Address
    requires |accounts| >= 4 || (kind.Unchecked? && |accounts| >= 3)
  {
    accounts[if kind.Unchecked? then 1 else 2].key
  }

  /** Every check a transfer makes on its source, ending with the source's record
      after the authority's allowance was drawn down. */
  function AuthorizeTransfer(env: Env, l: Ledger, accounts: seq<Meta>, amount: u64, kind: TransferKind,
                             src: TokenAccount, fee: u64, permanentDelegate: Option<Address>): Result<Account>
    requires |accounts| >= 4 || (kind.Unchecked? && |accounts| >= 3)
  {
    var d := if kind.Unchecked? then 1 else 2;
    var authority, signers := accounts[d + 1], accounts[d + 2..];
    var _ :- Need(kind.CheckedWithFee? ==> fee == kind.fee, FeeMismatch);
    var _ :- Need(!(src.ext.lockCpi && env.inCpi && authority.key == src.base.owner), CpiGuardTransferBlocked);
    Spend(l, src.base, permanentDelegate, authority, signers, amount, accounts[0].key != accounts[d].key)
  }

  /** The source of a transfer, unfrozen, transferable and sufficiently funded. */
  function TransferSource(slot: Slot, amount: u64): Result<TokenAccount> {
    var src :- UnpackAccount(slot);
    var _ :- Need(!src.base.IsFrozen(), AccountFrozen);
    var _ :- Need(src.base.amount >= amount, InsufficientFunds);
    var _ :- Need(!src.ext.nonTransferable, NonTransferable);
    Ok(src)
  }

  /** The destination's record after the transfer. */
  function TransferCredit(slot: Slot, mint: Address, amount: u64, fee: u64): Result<TokenAccount> {
    var dst :- UnpackAccount(slot);
    var _ :- Need(!dst.base.IsFrozen(), AccountFrozen);
    var _ :- Need(mint == dst.base.mint, MintMismatch);
    Credit(dst, amount, fee)
  }

  /** Writes both records, and moves the lamports behind native tokens. */
  function Settle(l: Ledger, source: Address, destination: Address, debited: TokenAccount, credited: TokenAccount,
                  amount: u64): Result<Ledger>
  {
    var moved := PutAccount(PutAccount(l, source, debited), destination, credited);
    if debited.base.IsNative() then MoveLamports(moved, source, destination, amount) else Ok(moved)
  }

  function Transfer(env: Env, l: Ledger, accounts: seq<Meta>, amount: u64, kind: TransferKind): Result<Ledger> {
    var _ :- Need(|accounts| >= if kind.Unchecked? then 3 else 4, NotEnoughAccountKeys);
    var source, destination := accounts[0].key, TransferDestination(accounts, kind);
    var _ :- CheckProgram(Get(l, source));
    var _ :- CheckProgram(Get(l, destination));
    var src :- TransferSource(Get(l, source), amount);
    var terms :- TransferTerms(env, l, src, accounts[1].key, amount, kind);
    var spent :- AuthorizeTransfer(env, l, accounts, amount, kind, src, terms.fee, terms.permanentDelegate);
    if source == destination then Ok(l)
    else
      var credited :- TransferCredit(Get(l, destination), src.base.mint, amount, terms.fee);
      Settle(l, source, destination, TokenAccount(spent.(amount := src.base.amount - amount), src.ext), credited, amount)
  }

  function MintTo(l: Ledger, accounts: seq<Meta>, amount: u64, decimals: Option<u8>): Result<Ledger> {
    var _ :- Need(|accounts| >= 3, NotEnoughAccountKeys);
    var mintKey, destination, authority := accounts[0].key, accounts[1].key, accounts[2];
    var _ :- CheckProgram(Get(l, mintKey));
    var _ :- CheckProgram(Get(l, destination));
    var dst :- UnpackAccount(Get(l, destination));
    var _ :- Need(!dst.base.IsFrozen(), AccountFrozen);
    var _ :- Need(!dst.base.IsNative(), NativeNotSupported);
    var _ :- Need(mintKey == dst.base.mint, MintMismatch);
    var mint :- UnpackMint(Get(l, mintKey));
    var _ :- Need(mint.ext.nonTransferable ==> dst.ext.immutableOwner && dst.ext.nonTransferable,
            NonTransferableNeedsImmutableOwnership);
    var _ :- Need(!(mint.ext.IsPausable() && mint.ext.paused), MintPaused);
    var _ :- Need(!mint.ext.confidentialMintBurn, IllegalMintBurnConversion);
    var _ :- Need(decimals.Some? ==> decimals.value == mint.base.decimals, MintDecimalsMismatch);
    var _ :- Need(mint.base.mintAuthority.Some?, FixedSupply);
    var _ :- ValidateOwner(l, mint.base.mintAuthority.value, authority, accounts[3..]);
    var _ :- Need(dst.base.amount + amount <= U64_MAX, Overflow);
    var _ :- Need(mint.base.supply + amount <= U64_MAX, Overflow);
    var credited := PutAccount(l, destination, TokenAccount(dst.base.(amount := dst.base.amount + amount), dst.ext));
    Ok(PutMint(credited, mintKey, TokenMint(mint.base.(supply := mint.base.supply + amount), mint.ext)))
  }

  /** The extra approval of the permissioned-burn extension. */
  function BurnPermission(ext: MintExt, approver: Option<Meta>): Result<()> {
    if approver.None? then Need(ext.Authority(PermissionedBurn).None?, InvalidInstruction)
    else
      var _ :- Need(ext.Authority(PermissionedBurn).Some?, InvalidInstruction);
      var _ :- Need(approver.value.isSigner, MissingRequiredSignature);
      Need(Some(approver.value.key) == ext.Authority(PermissionedBurn), InvalidAccountData)
  }

  /** The burn itself: anybody may burn what the system program or the incinerator owns. */
  function BurnFrom(l: Ledger, source: Address, src: TokenAccount, mintKey: Address, mint: TokenMint,
                    authority: Meta, signers: seq<Meta>, amount: u64): Result<Ledger>
    requires amount <= src.base.amount
  {
    var spent :- if src.base.OwnedBySystemProgramOrIncinerator() then Ok(src.base)
                 else Spend(l, src.base, mint.ext.Authority(PermanentDelegate), authority, signers, amount, true);
    var _ :- Need(mint.base.supply >= amount, Overflow);
    var debited := PutAccount(l, source, TokenAccount(spent.(amount := src.base.amount - amount), src.ext));
    Ok(PutMint(debited, mintKey, TokenMint(mint.base.(supply := mint.base.supply - amount), mint.ext)))
  }

  function Burn(env: Env, l: Ledger, accounts: seq<Meta>, amount: u64, permissioned: bool,
                decimals: Option<u8>): Result<Ledger>
  {
    var _ :- Need(|accounts| >= 2, NotEnoughAccountKeys);
    var source, mintKey := accounts[0].key, accounts[1].key;
    var _ :- CheckProgram(Get(l, source));
    var _ :- CheckProgram(Get(l, mintKey));
    var a := if permissioned then 3 else 2;
    var _ :- Need(|accounts| > a, NotEnoughAccountKeys);
    var authority, signers := accounts[a], accounts[a + 1..];
    var mint :- UnpackMint(Get(l, mintKey));
    var _ :- BurnPermission(mint.ext, if permissioned then Some(accounts[2]) else None);
    var src :- UnpackAccount(Get(l, source));
    var _ :- Need(!src.base.IsFrozen(), AccountFrozen);
    var _ :- Need(!src.base.IsNative(), NativeNotSupported);
    var _ :- Need(src.base.amount >= amount, InsufficientFunds);
    var _ :- Need(mintKey == src.base.mint, MintMismatch);
    var _ :- Need(decimals.Some? ==> decimals.value == mint.base.decimals, MintDecimalsMismatch);
    var _ :- Need(!(mint.ext.IsPausable() && mint.ext.paused), MintPaused);
    var _ :- Need(!mint.ext.confidentialMintBurn, IllegalMintBurnConversion);
    var _ :- Need(!(src.ext.lockCpi && env.inCpi && authority.key == src.base.owner), CpiGuardBurnBlocked);
    BurnFrom(l, source, src, mintKey, mint, authority, signers, amount)
  }

  // ---------------------------------------------------------------- delegation and authorities

  function Approve(env: Env, l: Ledger, accounts: seq<Meta>, amount: u64, decimals: Option<u8>): Result<Ledger> {
    var info :- At(accounts, 0);
    var source := info.key;
    var _ :- CheckProgram(Get(l, source));
    var d := if decimals.Some? then 2 else 1;
    var _ :- Need(|accounts| >= d + 2, NotEnoughAccountKeys);
    var delegate, owner, signers := accounts[d].key, accounts[d + 1], accounts[d + 2..];
    var src :- UnpackAccount(Get(l, source));
    var _ :- Need(!src.base.IsFrozen(), AccountFrozen);
    var _ :- if decimals.None? then Ok(())
       else (
         var _ :- CheckProgram(Get(l, accounts[1].key));
         var _ :- Need(src.base.mint == accounts[1].key, MintMismatch);
         var mint :- UnpackMint(Get(l, accounts[1].key));
         Need(decimals.value == mint.base.decimals, MintDecimalsMismatch));
    var _ :- ValidateOwner(l, src.base.owner, owner, signers);
    var _ :- Need(!(src.ext.lockCpi && env.inCpi), CpiGuardApproveBlocked);
    Ok(PutAccount(l, source, TokenAccount(src.base.(delegate := Some(delegate), delegatedAmount := amount), src.ext)))
  }

  function Revoke(l: Ledger, accounts: seq<Meta>): Result<Ledger> {
    var _ :- Need(|accounts| >= 2, NotEnoughAccountKeys);
    var source, authority := accounts[0].key, accounts[1];
    var _ :- CheckProgram(Get(l, source));
    var src :- UnpackAccount(Get(l, source));
    var _ :- Need(!src.base.IsFrozen(), AccountFrozen);
    var expected := if src.base.delegate == Some(authority.key) then authority.key else src.base.owner;
    var _ :- ValidateOwner(l, expected, authority, accounts[2..]);
    Ok(PutAccount(l, source, TokenAccount(src.base.(delegate := None, delegatedAmount := 0), src.ext)))
  }

  function SetAccountAuthority(env: Env, l: Ledger, a: TokenAccount, kind: AuthorityType,
                               newAuthority: Option<Address>, authority: Meta, signers: seq<Meta>): Result<Account>
  {
    var _ :- Need(!a.base.IsFrozen(), AccountFrozen);
    match kind
    case AccountOwner =>
      var _ :- ValidateOwner(l, a.base.owner, authority, signers);
      var _ :- Need(!a.ext.immutableOwner, Error.ImmutableOwner);
      var _ :- Need(!(a.ext.lockCpi && env.inCpi), CpiGuardSetAuthorityBlocked);
      var _ :- Need(!a.ext.lockCpi, CpiGuardOwnerChangeBlocked);
      var _ :- Need(newAuthority.Some?, InvalidInstruction);
      Ok(a.base.(owner := newAuthority.value, delegate := None, delegatedAmount := 0,
                 closeAuthority := if a.base.IsNative() then None else a.base.closeAuthority))
    case CloseAccount =>
      var current := if a.base.closeAuthority.Some? then a.base.closeAuthority.value else a.base.owner;
      var _ :- ValidateOwner(l, current, authority, signers);
      var _ :- Need(!(a.ext.lockCpi && env.inCpi && newAuthority.Some?), CpiGuardSetAuthorityBlocked);
      Ok(a.base.(closeAuthority := newAuthority))
    case _ => Err(AuthorityTypeNotSupported)
  }

  function SetMintAuthority(l: Ledger, m: TokenMint, kind: AuthorityType,
                            newAuthority: Option<Address>, authority: Meta, signers: seq<Meta>): Result<TokenMint>
  {
    match kind
    case MintTokens =>
      var _ :- Need(m.base.mintAuthority.Some?, FixedSupply);
      var _ :- ValidateOwner(l, m.base.mintAuthority.value, authority, signers);
      Ok(m.(base := m.base.(mintAuthority := newAuthority)))
    case FreezeAccount =>
      var _ :- Need(m.base.freezeAuthority.Some?, MintCannotFreeze);
      var _ :- ValidateOwner(l, m.base.freezeAuthority.value, authority, signers);
      Ok(m.(base := m.base.(freezeAuthority := newAuthority)))
    case AccountOwner => Err(AuthorityTypeNotSupported)
    case CloseAccount => Err(AuthorityTypeNotSupported)
    case _ =>
      var _ :- Need(kind in m.ext.authorities, InvalidAccountData);
      var _ :- Need(m.ext.Authority(kind).Some?, AuthorityTypeNotSupported);
      var _ :- ValidateOwner(l, m.ext.Authority(kind).value, authority, signers);
      var _ :- Need(newAuthority != Some(SYSTEM_PROGRAM), InvalidArgument);
      Ok(m.(ext := m.ext.(authorities := m.ext.authorities[kind := newAuthority])))
  }

  function SetAuthority(env: Env, l: Ledger, accounts: seq<Meta>, kind: AuthorityType,
                        newAuthority: Option<Address>): Result<Ledger>
  {
    var _ :- Need(|accounts| >= 2, NotEnoughAccountKeys);
    var key, authority, signers := accounts[0].key, accounts[1], accounts[2..];
    var _ :- CheckProgram(Get(l, key));
    match UnpackAccount(Get(l, key))
    case Ok(a) =>
      var base :- SetAccountAuthority(env, l, a, kind, newAuthority, authority, signers);
      Ok(PutAccount(l, key, TokenAccount(base, a.ext)))
    case Err(_) =>
      var m :- UnpackMint(Get(l, key)).MapErr(InvalidAccountData);
      var mint :- SetMintAuthority(l, m, kind, newAuthority, authority, signers);
      Ok(PutMint(l, key, mint))
  }

  function ToggleFreeze(l: Ledger, accounts: seq<Meta>, freeze: bool): Result<Ledger> {
    var _ :- Need(|accounts| >= 3, NotEnoughAccountKeys);
    var source, mintKey, authority := accounts[0].key, accounts[1].key, accounts[2];
    var _ :- CheckProgram(Get(l, source));
    var _ :- CheckProgram(Get(l, mintKey));
    var src :- UnpackAccount(Get(l, source));
    var _ :- Need(freeze == !src.base.IsFrozen(), InvalidState);
    var _ :- Need(!src.base.IsNative(), NativeNotSupported);
    var _ :- Need(mintKey == src.base.mint, MintMismatch);
    var mint :- UnpackMint(Get(l, mintKey));
    var _ :- Need(mint.base.freezeAuthority.Some?, MintCannotFreeze);
    var _ :- ValidateOwner(l, mint.base.freezeAuthority.value, authority, accounts[3..]);
    Ok(PutAccount(l, source, TokenAccount(src.base.(state := if freeze then Frozen else Initialized), src.ext)))
  }

  // ---------------------------------------------------------------- lamports

  /** The right to close a slot: nothing left in it, and its closer's signature. */
  function MayCloseAccount(env: Env, l: Ledger, a: TokenAccount, destination: Address,
                           authority: Meta, signers: seq<Meta>): Result<()>
  {
    var _ :- Need(a.base.IsNative() || a.base.amount == 0, NonNativeHasBalance);
    var closer := if a.base.closeAuthority.Some? then a.base.closeAuthority.value else a.base.owner;
    var _ :- if a.base.OwnedBySystemProgramOrIncinerator() then Need(destination == INCINERATOR, InvalidAccountData)
       else (
         var _ :- Need(!(a.ext.lockCpi && env.inCpi && destination != a.base.owner), CpiGuardCloseAccountBlocked);
         ValidateOwner(l, closer, authority, signers));
    Need(a.ext.withheld.None? || a.ext.withheld.value == 0, AccountHasWithheldTransferFees)
  }

  function MayCloseMint(l: Ledger, m: TokenMint, authority: Meta, signers: seq<Meta>): Result<()> {
    var _ :- Need(CloseMint in m.ext.authorities, InvalidAccountData);
    var _ :- Need(m.ext.Authority(CloseMint).Some?, AuthorityTypeNotSupported);
    var _ :- ValidateOwner(l, m.ext.Authority(CloseMint).value, authority, signers);
    Need(m.base.supply == 0, MintHasSupply)
  }

  function MayClose(env: Env, l: Ledger, source: Address, destination: Address, authority: Meta,
                    signers: seq<Meta>): Result<()>
  {
    match UnpackAccount(Get(l, source))
    case Ok(a) => MayCloseAccount(env, l, a, destination, authority, signers)
    case Err(_) =>
      var m :- UnpackMint(Get(l, source)).MapErr(UninitializedAccount);
      MayCloseMint(l, m, authority, signers)
  }

  function CloseSlot(env: Env, l: Ledger, accounts: seq<Meta>): Result<Ledger> {
    var _ :- Need(|accounts| >= 3, NotEnoughAccountKeys);
    var source, destination := accounts[0].key, accounts[1].key;
    var _ :- CheckProgram(Get(l, source));
    var _ :- Need(source != destination, InvalidAccountData);
    var _ :- MayClose(env, l, source, destination, accounts[2], accounts[3..]);
    var _ :- Need(Get(l, destination).lamports + Get(l, source).lamports <= U64_MAX, Overflow);
    Ok(PutLamports(l, destination, Get(l, destination).lamports + Get(l, source).lamports)[source := EMPTY_SLOT])
  }

  function SyncNative(env: Env, l: Ledger, accounts: seq<Meta>): Result<Ledger> {
    var info :- At(accounts, 0);
    var slot := Get(l, info.key);
    var _ :- CheckProgram(slot);
    var _ :- Need(|accounts| >= 2 ==> accounts[1].key == RENT_SYSVAR, InvalidArgument);
    var reserve := env.rent(slot.len);
    var a :- UnpackAccount(slot);
    var _ :- Need(a.base.IsNative(), NonNativeNotSupported);
    var _ :- Need(slot.lamports >= reserve, Overflow);
    Ok(PutAccount(l, info.key, TokenAccount(a.base.(isNative := Some(reserve), amount := slot.lamports - reserve), a.ext)))
  }

  function MayWithdrawExcess(env: Env, l: Ledger, source: Address, authority: Meta, signers: seq<Meta>): Result<()> {
    match UnpackAccount(Get(l, source))
    case Ok(a) =>
      var _ :- Need(!a.base.IsNative(), NativeNotSupported);
      var _ :- ValidateOwner(l, a.base.owner, authority, signers);
      Need(!(a.ext.lockCpi && env.inCpi), CpiGuardTransferBlocked)
    case Err(_) =>
      match UnpackMint(Get(l, source))
      case Ok(m) =>
        if m.base.mintAuthority.Some? then ValidateOwner(l, m.base.mintAuthority.value, authority, signers)
        else
          var _ :- Need(source == authority.key, AuthorityTypeNotSupported);
          Need(authority.isSigner, MissingRequiredSignature)
      case Err(_) =>
        var _ :- Need(Get(l, source).len == MULTISIG_LEN, InvalidState);
        ValidateOwner(l, source, authority, signers)
  }

  function WithdrawExcessLamports(env: Env, l: Ledger, accounts: seq<Meta>): Result<Ledger> {
    var _ :- Need(|accounts| >= 3, NotEnoughAccountKeys);
    var source, destination := accounts[0].key, accounts[1].key;
    var _ :- CheckProgram(Get(l, source));
    var _ :- MayWithdrawExcess(env, l, source, accounts[2], accounts[3..]);
    var reserve := env.rent(Get(l, source).len);
    var _ :- Need(Get(l, source).lamports >= reserve, NotRentExempt);
    MoveLamports(l, source, destination, Get(l, source).lamports - reserve)
  }

  function UnwrapLamports(env: Env, l: Ledger, accounts: seq<Meta>, requested: Option<u64>): Result<Ledger> {
    var _ :- Need(|accounts| >= 3, NotEnoughAccountKeys);
    var source, destination, authority, signers := accounts[0].key, accounts[1].key, accounts[2], accounts[3..];
    var _ :- CheckProgram(Get(l, source));
    var a :- UnpackAccount(Get(l, source));
    var amount := if requested.Some? then requested.value else a.base.amount;
    var _ :- Need(a.base.amount >= amount, InsufficientFunds);
    var _ :- Need(a.base.IsNative(), NonNativeNotSupported);
    var spent :- Spend(l, a.base, None, authority, signers, amount, true);
    var _ :- Need(!(a.ext.lockCpi && env.inCpi), CpiGuardTransferBlocked);
    var unwrapped := PutAccount(l, source, TokenAccount(spent.(amount := a.base.amount - amount), a.ext));
    if amount == 0 || source == destination then Ok(unwrapped)
    else MoveLamports(unwrapped, source, destination, amount)
  }

  // ---------------------------------------------------------------- one instruction

  /** A decoded instruction of those modelled here. */
  datatype Operation =
    | OpInitializeMint(decimals: u8, mintAuthority: Address, freezeAuthority: Option<Address>, rentAccount: bool)
    | OpInitializeAccount(owner: Option<Address>, rentAccount: bool)
    | OpInitializeMultisig(m: u8, rentAccount: bool)
    | OpTransfer(amount: u64, kind: TransferKind)
    | OpApprove(amount: u64, checked: Option<u8>)
    | OpRevoke
    | OpSetAuthority(authorityType: AuthorityType, newAuthority: Option<Address>)
    | OpMintTo(amount: u64, checked: Option<u8>)
    | OpBurn(amount: u64, permissioned: bool, checked: Option<u8>)
    | OpCloseAccount
    | OpToggleFreeze(freeze: bool)
    | OpSyncNative
    | OpWithdrawExcessLamports
    | OpUnwrapLamports(requested: Option<u64>)
    | OpCreateNativeMint

  function Apply(env: Env, l: Ledger, accounts: seq<Meta>, op: Operation): Result<Ledger> {
    match op
    case OpInitializeMint(decimals, auth, freeze, rent) => InitializeMint(env, l, accounts, decimals, auth, freeze, rent)
    case OpInitializeAccount(owner, rent) => InitializeAccount(env, l, accounts, owner, rent)
    case OpInitializeMultisig(m, rent) => InitializeMultisig(env, l, accounts, m, rent)
    case OpTransfer(amount, kind) => Transfer(env, l, accounts, amount, kind)
    case OpApprove(amount, checked) => Approve(env, l, accounts, amount, checked)
    case OpRevoke => Revoke(l, accounts)
    case OpSetAuthority(kind, auth) => SetAuthority(env, l, accounts, kind, auth)
    case OpMintTo(amount, checked) => MintTo(l, accounts, amount, checked)
    case OpBurn(amount, permissioned, checked) => Burn(env, l, accounts, amount, permissioned, checked)
    case OpCloseAccount => CloseSlot(env, l, accounts)
    case OpToggleFreeze(freeze) => ToggleFreeze(l, accounts, freeze)
    case OpSyncNative => SyncNative(env, l, accounts)
    case OpWithdrawExcessLamports => WithdrawExcessLamports(env, l, accounts)
    case OpUnwrapLamports(requested) => UnwrapLamports(env, l, accounts, requested)
    case OpCreateNativeMint => CreateNativeMint(env, l, accounts)
  }
}
