/** The handlers of `program/src/processor.rs` in the source's own form: they read and
    write the accounts in place, one field after another, and may stop with an error
    half-way through. Each is proved equal to its function in `Processor`. */
module TokenBank {
  import opened Base
  import opened State
  import opened Authority
  import opened Multisig
  import opened Processor

  /** What a handler returned and left behind is what its function says. After an
      error nothing is promised about the ledger: the runtime restores it. */
  predicate Ends(r: Result<()>, now: Ledger, expected: Result<Ledger>) {
    if r.Ok? then expected == Ok(now) else expected == Err(r.error)
  }

  lemma PutTwice(l: Ledger, key: Address, first: TokenAccount, second: TokenAccount)
    ensures PutAccount(PutAccount(l, key, first), key, second) == PutAccount(l, key, second)
  {
  }

  lemma PutSame(l: Ledger, key: Address, account: TokenAccount)
    requires Get(l, key).data == AccountData(account)
    ensures PutAccount(l, key, account) == l
  {
  }

  class Bank {
    var ledger: Ledger

    constructor ()
      ensures ledger == map[]
    {
      ledger := map[];
    }

    // ---------------------------------------------------------------- field writes

    /** Assigns a new base record to an account; its extensions stay. */
    method WriteBase(key: Address, account: TokenAccount, base: Account)
      modifies this
      ensures ledger == PutAccount(old(ledger), key, TokenAccount(base, account.ext))
    {
      ledger := PutAccount(ledger, key, TokenAccount(base, account.ext));
    }

    method WriteSupply(key: Address, mint: TokenMint, supply: u64)
      modifies this
      ensures ledger == PutMint(old(ledger), key, TokenMint(mint.base.(supply := supply), mint.ext))
    {
      ledger := PutMint(ledger, key, TokenMint(mint.base.(supply := supply), mint.ext));
    }

    /** The two checked lamport updates every lamport-moving handler ends with. */
    method Pay(source: Address, destination: Address, amount: u64) returns (r: Result<()>)
      modifies this
      ensures Ends(r, ledger, MoveLamports(old(ledger), source, destination, amount))
    {
      if Get(ledger, source).lamports < amount { return Err(Overflow); }
      ledger := PutLamports(ledger, source, Get(ledger, source).lamports - amount);
      if Get(ledger, destination).lamports + amount > U64_MAX { return Err(Overflow); }
      ledger := PutLamports(ledger, destination, Get(ledger, destination).lamports + amount);
      return Ok(());
    }

    // ---------------------------------------------------------------- initialisation

    /** `_process_initialize_mint`; the supply is not written, a fresh slot's is zero. */
    method ProcessInitializeMint(env: Env, accounts: seq<Meta>, decimals: u8, mintAuthority: Address,
                                 freezeAuthority: Option<Address>, rentAccount: bool) returns (r: Result<()>)
      modifies this
      ensures Ends(r, ledger, InitializeMint(env, old(ledger), accounts, decimals, mintAuthority, freezeAuthority, rentAccount))
    {
      var info :- At(accounts, 0);
      var slot := Get(ledger, info.key);
      var _ :- CheckProgram(slot);
      var _ :- RentAccount(accounts, 1, rentAccount);
      if slot.lamports < env.rent(slot.len) { return Err(NotRentExempt); }
      var ext :- UninitializedMint(slot);
      if env.mintLen(ext) != slot.len { return Err(InvalidAccountData); }
      if ext.defaultState == Some(Frozen) && freezeAuthority.None? { return Err(MintCannotFreeze); }
      var base := Mint(None, 0, 0, false, None);
      base := base.(mintAuthority := Some(mintAuthority));
      base := base.(decimals := decimals);
      base := base.(isInitialized := true);
      base := base.(freezeAuthority := freezeAuthority);
      ledger := PutMint(ledger, info.key, TokenMint(base, ext));
      return Ok(());
    }

    /** `_process_initialize_account`. */
    method ProcessInitializeAccount(env: Env, accounts: seq<Meta>, givenOwner: Option<Address>,
                                    rentAccount: bool) returns (r: Result<()>)
      modifies this
      ensures Ends(r, ledger, InitializeAccount(env, old(ledger), accounts, givenOwner, rentAccount))
    {
      var info :- At(accounts, 0);
      var mintInfo :- At(accounts, 1);
      var slot := Get(ledger, info.key);
      var _ :- CheckProgram(slot);
      var _ :- CheckProgram(Get(ledger, mintInfo.key));
      var owner: Address;
      var next := 2;
      if givenOwner.Some? {
        owner := givenOwner.value;
      } else {
        var ownerInfo :- At(accounts, 2);
        owner := ownerInfo.key;
        next := 3;
      }
      var _ :- RentAccount(accounts, next, rentAccount);
      var immutableOwner :- UninitializedAccountTlv(slot);
      var rent := env.rent(slot.len);
      if slot.lamports < rent { return Err(NotRentExempt); }
      var mint :- UnpackMint(Get(ledger, mintInfo.key)).MapErr(InvalidMint);
      if env.accountLen(mint.ext) > slot.len { return Err(InvalidAccountData); }
      var ext := RequiredAccountExt(mint.ext, immutableOwner);
      var state := if mint.ext.defaultState.Some? then mint.ext.defaultState.value else Initialized;
      var base := Account(mintInfo.key, owner, 0, None, state, None, 0, None);
      if mintInfo.key == NATIVE_MINT {
        base := base.(isNative := Some(rent));
        base := base.(amount := slot.lamports - rent);
      }
      ledger := PutAccount(ledger, info.key, TokenAccount(base, ext));
      return Ok(());
    }

    /** `_process_initialize_multisig`: a list of more signers than fit aborts, but only
        after the truncated count passed as a signer index. */
    method ProcessInitializeMultisig(env: Env, accounts: seq<Meta>, m: u8, rentAccount: bool) returns (r: Result<()>)
      modifies this
      ensures Ends(r, ledger, InitializeMultisig(env, old(ledger), accounts, m, rentAccount))
    {
      var info :- At(accounts, 0);
      var slot := Get(ledger, info.key);
      var _ :- CheckProgram(slot);
      var _ :- RentAccount(accounts, 1, rentAccount);
      if slot.len != MULTISIG_LEN { return Err(InvalidArgument); }
      var multisig := ViewMultisig(slot);
      if multisig.isInitialized { return Err(AlreadyInUse); }
      if slot.lamports < env.rent(slot.len) { return Err(NotRentExempt); }
      var signers := accounts[if rentAccount then 2 else 1..];
      var n: u8 := |signers| % 0x100;
      multisig := Multisig(m, n, false, seq(MAX_SIGNERS, _ => SYSTEM_PROGRAM));
      ledger := ledger[info.key := slot.(data := MultisigData(multisig))];
      if !IsValidSignerIndex(n) { return Err(InvalidNumberOfProvidedSigners); }
      if !IsValidSignerIndex(m) { return Err(InvalidNumberOfRequiredSigners); }
      for i := 0 to |signers|
        invariant i <= MAX_SIGNERS
        invariant multisig == Multisig(m, n, false, SignerKeys(signers[..i]))
        invariant ledger == old(ledger)[info.key := slot.(data := MultisigData(multisig))]
      {
        if i >= MAX_SIGNERS { return Err(Panic); }
        multisig := multisig.(signers := multisig.signers[i := signers[i].key]);
        ledger := ledger[info.key := slot.(data := MultisigData(multisig))];
        assert multisig.signers == SignerKeys(signers[..i + 1]);
      }
      assert signers[..|signers|] == signers;
      ledger := ledger[info.key := slot.(data := MultisigData(multisig.(isInitialized := true)))];
      assert ledger == old(ledger)[info.key := slot.(data := MultisigData(Multisig(m, n, true, SignerKeys(signers))))];
      return Ok(());
    }

    /** `process_create_native_mint`, with the system program's three calls. */
    method ProcessCreateNativeMint(env: Env, accounts: seq<Meta>) returns (r: Result<()>)
      modifies this
      ensures Ends(r, ledger, CreateNativeMint(env, old(ledger), accounts))
    {
      if |accounts| < 3 { return Err(NotEnoughAccountKeys); }
      var payer, info := accounts[0], accounts[1];
      if info.key != NATIVE_MINT { return Err(InvalidMint); }
      var least, have := env.rent(MINT_LEN), Get(ledger, info.key).lamports;
      var diff: u64 := if have < least then least - have else 0;
      if !payer.isSigner || payer.key == NATIVE_MINT || Get(ledger, payer.key).program != Other { return Err(CpiFailed); }
      if Get(ledger, payer.key).lamports < diff { return Err(CpiFailed); }
      if Get(ledger, info.key).program != Other || Get(ledger, info.key).len != 0 { return Err(CpiFailed); }
      ledger := PutLamports(ledger, payer.key, Get(ledger, payer.key).lamports - diff);
      ledger := PutLamports(ledger, info.key, have + diff);
      ledger := ledger[info.key := Get(ledger, info.key).(program := Token2022, len := MINT_LEN)];
      var mint := Mint(None, 0, NATIVE_DECIMALS, true, None);
      ledger := PutMint(ledger, info.key, TokenMint(mint, PLAIN_MINT_EXT));
      assert ledger == PutLamports(old(ledger), payer.key, Get(old(ledger), payer.key).lamports - diff)[
                         info.key := Slot(Token2022, have + diff, MINT_LEN, MintData(TokenMint(mint, PLAIN_MINT_EXT)))];
      return Ok(());
    }

    // ---------------------------------------------------------------- balances

    /** The authority arms of Transfer, Burn and UnwrapLamports; a delegate's allowance is
        written back at once, before the balance is touched. */
    method SpendFrom(key: Address, account: TokenAccount, permanent: Option<Address>, authority: Meta,
                     signers: seq<Meta>, amount: u64, consume: bool) returns (r: Result<Account>)
      requires Get(ledger, key).data == AccountData(account)
      modifies this
      ensures r == Spend(old(ledger), account.base, permanent, authority, signers, amount, consume)
      ensures r.Ok? ==> ledger == PutAccount(old(ledger), key, TokenAccount(r.value, account.ext))
    {
      PutSame(ledger, key, account);
      var base := account.base;
      if permanent == Some(authority.key) {
        var v := Validate(ledger, authority.key, authority, signers);
        if v.Err? { return Err(v.error); }
      } else if base.delegate == Some(authority.key) {
        var v := Validate(ledger, authority.key, authority, signers);
        if v.Err? { return Err(v.error); }
        if base.delegatedAmount < amount { return Err(InsufficientFunds); }
        if consume {
          base := base.(delegatedAmount := base.delegatedAmount - amount);
          if base.delegatedAmount == 0 {
            base := base.(delegate := None);
          }
          WriteBase(key, account, base);
        }
      } else {
        var v := Validate(ledger, base.owner, authority, signers);
        if v.Err? { return Err(v.error); }
      }
      return Ok(base);
    }

    /** The mint's part of `process_transfer`: without a mint no fee, no permanent delegate, and no
        account whose mint wanted a say; with one, it is the account's, it is not paused, and fee
        and permanent delegate are its own. */
    method ConsultMint(env: Env, source: TokenAccount, mintKey: Address, amount: u64, kind: TransferKind)
      returns (r: Result<Terms>)
      ensures r == TransferTerms(env, ledger, source, mintKey, amount, kind)
      ensures r.Ok? && kind.Unchecked? ==> r.value == Terms(0, None) && !source.ext.HasMarker()
      ensures r.Ok? && !kind.Unchecked? ==>
                && source.base.mint == mintKey && UnpackMint(Get(ledger, mintKey)).Ok?
                && var mint := UnpackMint(Get(ledger, mintKey)).value;
                   && !mint.ext.IsPaused() && r.value.permanentDelegate == mint.ext.Authority(PermanentDelegate)
                   && (r.value.fee > 0 ==> mint.ext.HasTransferFee() && env.epochFee(mintKey, amount) == Some(r.value.fee))
    {
      if kind.Unchecked? {
        if source.ext.transferHook { return Err(MintRequiredForTransfer); }
        if source.ext.withheld.Some? { return Err(MintRequiredForTransfer); }
        if source.ext.pausable { return Err(MintRequiredForTransfer); }
        return Ok(Terms(0, None));
      }
      var _ :- CheckProgram(Get(ledger, mintKey));
      if source.base.mint != mintKey { return Err(MintMismatch); }
      var mint :- UnpackMint(Get(ledger, mintKey));
      if kind.decimals != mint.base.decimals { return Err(MintDecimalsMismatch); }
      var fee: u64 := 0;
      if mint.ext.HasTransferFee() {
        var calculated := env.epochFee(mintKey, amount);
        if calculated.None? { return Err(Overflow); }
        fee := calculated.value;
      }
      if mint.ext.IsPausable() && mint.ext.paused { return Err(MintPaused); }
      return Ok(Terms(fee, mint.ext.Authority(PermanentDelegate)));
    }

    /** The second half of `process_transfer`: the source's balance is written before the
        fee is subtracted and before the destination's balance is checked to fit. */
    method MoveTokens(source: Address, src: TokenAccount, spent: Account, destination: Address, amount: u64, fee: u64,
                      ghost start: Ledger) returns (r: Result<()>)
      requires source != destination && amount <= src.base.amount
      requires spent.isNative == src.base.isNative
      requires ledger == PutAccount(start, source, TokenAccount(spent, src.ext))
      modifies this
      ensures var credited := TransferCredit(Get(start, destination), src.base.mint, amount, fee);
              Ends(r, ledger, if credited.Err? then Err(credited.error)
                              else Settle(start, source, destination,
                                          TokenAccount(spent.(amount := src.base.amount - amount), src.ext),
                                          credited.value, amount))
    {
      ghost var debited := TokenAccount(spent.(amount := src.base.amount - amount), src.ext);
      PutTwice(start, source, TokenAccount(spent, src.ext), debited);
      var dst :- UnpackAccount(Get(ledger, destination));
      if dst.base.IsFrozen() { return Err(AccountFrozen); }
      if src.base.mint != dst.base.mint { return Err(MintMismatch); }
      WriteBase(source, src, spent.(amount := src.base.amount - amount));
      if amount < fee { return Err(Overflow); }
      var creditedAmount := amount - fee;
      if dst.base.amount + creditedAmount > U64_MAX { return Err(Overflow); }
      var credited := dst.(base := dst.base.(amount := dst.base.amount + creditedAmount));
      ledger := PutAccount(ledger, destination, credited);
      if fee > 0 {
        if dst.ext.withheld.None? { return Err(InvalidState); }
        if dst.ext.withheld.value + fee > U64_MAX { return Err(Overflow); }
        credited := credited.(ext := credited.ext.(withheld := Some(dst.ext.withheld.value + fee)));
        ledger := PutAccount(ledger, destination, credited);
      }
      assert ledger == PutAccount(PutAccount(start, source, debited), destination, credited);
      if src.base.IsNative() {
        r := Pay(source, destination, amount);
        return;
      }
      return Ok(());
    }

    /** The checks `process_transfer` makes on the source account alone. */
    method ReadSource(source: Address, amount: u64) returns (r: Result<TokenAccount>)
      ensures r == TransferSource(Get(ledger, source), amount)
      ensures r.Ok? ==> Get(ledger, source).data == AccountData(r.value) && r.value.base.amount >= amount
    {
      var src :- UnpackAccount(Get(ledger, source));
      if src.base.IsFrozen() { return Err(AccountFrozen); }
      if src.base.amount < amount { return Err(InsufficientFunds); }
      if src.ext.nonTransferable { return Err(NonTransferable); }
      return Ok(src);
    }

    method AuthorizeSource(env: Env, accounts: seq<Meta>, amount: u64, kind: TransferKind, src: TokenAccount, terms: Terms)
      returns (r: Result<Account>)
      requires |accounts| >= 4 || (kind.Unchecked? && |accounts| >= 3)
      requires Get(ledger, accounts[0].key).data == AccountData(src)
      modifies this
      ensures r == AuthorizeTransfer(env, old(ledger), accounts, amount, kind, src, terms.fee, terms.permanentDelegate)
      ensures r.Ok? ==> r.value.isNative == src.base.isNative
      ensures r.Ok? ==> ledger == PutAccount(old(ledger), accounts[0].key, TokenAccount(r.value, src.ext))
      ensures r.Ok? && accounts[0].key == TransferDestination(accounts, kind) ==> r.value == src.base
    {
      var d := if kind.Unchecked? then 1 else 2;
      var authority, signers := accounts[d + 1], accounts[d + 2..];
      if kind.CheckedWithFee? && terms.fee != kind.fee { return Err(FeeMismatch); }
      if authority.key == src.base.owner && src.ext.lockCpi && env.inCpi { return Err(CpiGuardTransferBlocked); }
      var selfTransfer := accounts[0].key == accounts[d].key;
      r := SpendFrom(accounts[0].key, src, terms.permanentDelegate, authority, signers, amount, !selfTransfer);
    }

    /** `process_transfer`. */
    method ProcessTransfer(env: Env, accounts: seq<Meta>, amount: u64, kind: TransferKind) returns (r: Result<()>)
      modifies this
      ensures Ends(r, ledger, Transfer(env, old(ledger), accounts, amount, kind))
    {
      if |accounts| < (if kind.Unchecked? then 3 else 4) { return Err(NotEnoughAccountKeys); }
      var source, destination := accounts[0].key, TransferDestination(accounts, kind);
      var _ :- CheckProgram(Get(ledger, source));
      var _ :- CheckProgram(Get(ledger, destination));
      var found := ReadSource(source, amount);
      var src :- found;
      var consulted := ConsultMint(env, src, accounts[1].key, amount, kind);
      var terms :- consulted;
      ghost var start := ledger;
      var authorized := AuthorizeSource(env, accounts, amount, kind, src, terms);
      var spent :- authorized;
      if source == destination {
        PutSame(start, source, src);
        return Ok(());
      }
      r := MoveTokens(source, src, spent, destination, amount, terms.fee, start);
    }

    /** `process_mint_to`: the destination is credited before the supply is checked. */
    method ProcessMintTo(accounts: seq<Meta>, amount: u64, decimals: Option<u8>) returns (r: Result<()>)
      modifies this
      ensures Ends(r, ledger, MintTo(old(ledger), accounts, amount, decimals))
    {
      if |accounts| < 3 { return Err(NotEnoughAccountKeys); }
      var mintKey, destination, authority := accounts[0].key, accounts[1].key, accounts[2];
      var _ :- CheckProgram(Get(ledger, mintKey));
      var _ :- CheckProgram(Get(ledger, destination));
      var dst :- UnpackAccount(Get(ledger, destination));
      if dst.base.IsFrozen() { return Err(AccountFrozen); }
      if dst.base.IsNative() { return Err(NativeNotSupported); }
      if mintKey != dst.base.mint { return Err(MintMismatch); }
      var mint :- UnpackMint(Get(ledger, mintKey));
      if mint.ext.nonTransferable && (!dst.ext.immutableOwner || !dst.ext.nonTransferable) {
        return Err(NonTransferableNeedsImmutableOwnership);
      }
      if mint.ext.IsPausable() && mint.ext.paused { return Err(MintPaused); }
      if mint.ext.confidentialMintBurn { return Err(IllegalMintBurnConversion); }
      if decimals.Some? && decimals.value != mint.base.decimals { return Err(MintDecimalsMismatch); }
      if mint.base.mintAuthority.None? { return Err(FixedSupply); }
      var v := Validate(ledger, mint.base.mintAuthority.value, authority, accounts[3..]);
      if v.Err? { return Err(v.error); }
      if dst.base.amount + amount > U64_MAX { return Err(Overflow); }
      WriteBase(destination, dst, dst.base.(amount := dst.base.amount + amount));
      if mint.base.supply + amount > U64_MAX { return Err(Overflow); }
      WriteSupply(mintKey, mint, mint.base.supply + amount);
      return Ok(());
    }

    /** The end of `process_burn`: allowance and balance are written before the supply is
        checked. */
    method BurnTokens(source: Address, src: TokenAccount, mintKey: Address, mint: TokenMint,
                      authority: Meta, signers: seq<Meta>, amount: u64) returns (r: Result<()>)
      requires amount <= src.base.amount && Get(ledger, source).data == AccountData(src)
      modifies this
      ensures Ends(r, ledger, BurnFrom(old(ledger), source, src, mintKey, mint, authority, signers, amount))
    {
      var spent := src.base;
      if src.base.OwnedBySystemProgramOrIncinerator() {
        PutSame(ledger, source, src);
      } else {
        var authorized := SpendFrom(source, src, mint.ext.Authority(PermanentDelegate), authority, signers, amount, true);
        spent :- authorized;
      }
      ghost var debited := TokenAccount(spent.(amount := src.base.amount - amount), src.ext);
      PutTwice(old(ledger), source, TokenAccount(spent, src.ext), debited);
      WriteBase(source, src, spent.(amount := src.base.amount - amount));
      assert ledger == PutAccount(old(ledger), source, debited);
      if mint.base.supply < amount { return Err(Overflow); }
      WriteSupply(mintKey, mint, mint.base.supply - amount);
      return Ok(());
    }

    /** `process_burn`. */
    method ProcessBurn(env: Env, accounts: seq<Meta>, amount: u64, permissioned: bool, decimals: Option<u8>)
      returns (r: Result<()>)
      modifies this
      ensures Ends(r, ledger, Burn(env, old(ledger), accounts, amount, permissioned, decimals))
    {
      if |accounts| < 2 { return Err(NotEnoughAccountKeys); }
      var source, mintKey := accounts[0].key, accounts[1].key;
      var _ :- CheckProgram(Get(ledger, source));
      var _ :- CheckProgram(Get(ledger, mintKey));
      var a := if permissioned then 3 else 2;
      if |accounts| <= a { return Err(NotEnoughAccountKeys); }
      var authority, signers := accounts[a], accounts[a + 1..];
      var mint :- UnpackMint(Get(ledger, mintKey));
      var _ :- BurnPermission(mint.ext, if permissioned then Some(accounts[2]) else None);
      var src :- UnpackAccount(Get(ledger, source));
      if src.base.IsFrozen() { return Err(AccountFrozen); }
      if src.base.IsNative() { return Err(NativeNotSupported); }
      if src.base.amount < amount { return Err(InsufficientFunds); }
      if mintKey != src.base.mint { return Err(MintMismatch); }
      if decimals.Some? && decimals.value != mint.base.decimals { return Err(MintDecimalsMismatch); }
      if mint.ext.IsPausable() && mint.ext.paused { return Err(MintPaused); }
      if mint.ext.confidentialMintBurn { return Err(IllegalMintBurnConversion); }
      if authority.key == src.base.owner && src.ext.lockCpi && env.inCpi { return Err(CpiGuardBurnBlocked); }
      r := BurnTokens(source, src, mintKey, mint, authority, signers, amount);
    }

    // ---------------------------------------------------------------- delegation and authorities

    /** `process_approve`. */
    method ProcessApprove(env: Env, accounts: seq<Meta>, amount: u64, decimals: Option<u8>) returns (r: Result<()>)
      modifies this
      ensures Ends(r, ledger, Approve(env, old(ledger), accounts, amount, decimals))
    {
      var info :- At(accounts, 0);
      var _ :- CheckProgram(Get(ledger, info.key));
      var d := if decimals.Some? then 2 else 1;
      if |accounts| < d + 2 { return Err(NotEnoughAccountKeys); }
      var delegate, owner, signers := accounts[d].key, accounts[d + 1], accounts[d + 2..];
      var src :- UnpackAccount(Get(ledger, info.key));
      if src.base.IsFrozen() { return Err(AccountFrozen); }
      if decimals.Some? {
        var mintKey := accounts[1].key;
        var _ :- CheckProgram(Get(ledger, mintKey));
        if src.base.mint != mintKey { return Err(MintMismatch); }
        var mint :- UnpackMint(Get(ledger, mintKey));
        if decimals.value != mint.base.decimals { return Err(MintDecimalsMismatch); }
      }
      var v := Validate(ledger, src.base.owner, owner, signers);
      if v.Err? { return Err(v.error); }
      if src.ext.lockCpi && env.inCpi { return Err(CpiGuardApproveBlocked); }
      var base := src.base.(delegate := Some(delegate));
      base := base.(delegatedAmount := amount);
      WriteBase(info.key, src, base);
      return Ok(());
    }

    /** `process_revoke`: by the owner, or by the delegate itself. */
    method ProcessRevoke(accounts: seq<Meta>) returns (r: Result<()>)
      modifies this
      ensures Ends(r, ledger, Revoke(old(ledger), accounts))
    {
      if |accounts| < 2 { return Err(NotEnoughAccountKeys); }
      var source, authority := accounts[0].key, accounts[1];
      var _ :- CheckProgram(Get(ledger, source));
      var src :- UnpackAccount(Get(ledger, source));
      if src.base.IsFrozen() { return Err(AccountFrozen); }
      var expected := src.base.owner;
      if src.base.delegate == Some(authority.key) {
        expected := authority.key;
      }
      var v := Validate(ledger, expected, authority, accounts[2..]);
      if v.Err? { return Err(v.error); }
      var base := src.base.(delegate := None);
      base := base.(delegatedAmount := 0);
      WriteBase(source, src, base);
      return Ok(());
    }

    /** The account arms of `process_set_authority`. */
    method SetAuthorityOfAccount(env: Env, key: Address, a: TokenAccount, kind: AuthorityType,
                                 newAuthority: Option<Address>, authority: Meta, signers: seq<Meta>) returns (r: Result<()>)
      modifies this
      ensures var base := SetAccountAuthority(env, old(ledger), a, kind, newAuthority, authority, signers);
              Ends(r, ledger, if base.Ok? then Ok(PutAccount(old(ledger), key, TokenAccount(base.value, a.ext))) else Err(base.error))
    {
      if a.base.IsFrozen() { return Err(AccountFrozen); }
      var base := a.base;
      if kind.AccountOwner? {
        var v := Validate(ledger, a.base.owner, authority, signers);
        if v.Err? { return Err(v.error); }
        if a.ext.immutableOwner { return Err(Error.ImmutableOwner); }
        if a.ext.lockCpi && env.inCpi {
          return Err(CpiGuardSetAuthorityBlocked);
        } else if a.ext.lockCpi {
          return Err(CpiGuardOwnerChangeBlocked);
        }
        if newAuthority.None? { return Err(InvalidInstruction); }
        base := base.(owner := newAuthority.value);
        base := base.(delegate := None);
        base := base.(delegatedAmount := 0);
        if base.IsNative() {
          base := base.(closeAuthority := None);
        }
      } else if kind.CloseAccount? {
        var current := if a.base.closeAuthority.Some? then a.base.closeAuthority.value else a.base.owner;
        var v := Validate(ledger, current, authority, signers);
        if v.Err? { return Err(v.error); }
        if a.ext.lockCpi && env.inCpi && newAuthority.Some? { return Err(CpiGuardSetAuthorityBlocked); }
        base := base.(closeAuthority := newAuthority);
      } else {
        return Err(AuthorityTypeNotSupported);
      }
      WriteBase(key, a, base);
      return Ok(());
    }

    /** The mint arms of `process_set_authority`; the extensions' arms are all alike. */
    method SetAuthorityOfMint(key: Address, m: TokenMint, kind: AuthorityType, newAuthority: Option<Address>,
                              authority: Meta, signers: seq<Meta>) returns (r: Result<()>)
      modifies this
      ensures var mint := SetMintAuthority(old(ledger), m, kind, newAuthority, authority, signers);
              Ends(r, ledger, if mint.Ok? then Ok(PutMint(old(ledger), key, mint.value)) else Err(mint.error))
    {
      var mint := m;
      if kind.MintTokens? {
        if m.base.mintAuthority.None? { return Err(FixedSupply); }
        var v := Validate(ledger, m.base.mintAuthority.value, authority, signers);
        if v.Err? { return Err(v.error); }
        mint := mint.(base := mint.base.(mintAuthority := newAuthority));
      } else if kind.FreezeAccount? {
        if m.base.freezeAuthority.None? { return Err(MintCannotFreeze); }
        var v := Validate(ledger, m.base.freezeAuthority.value, authority, signers);
        if v.Err? { return Err(v.error); }
        mint := mint.(base := mint.base.(freezeAuthority := newAuthority));
      } else if kind.AccountOwner? || kind.CloseAccount? {
        return Err(AuthorityTypeNotSupported);
      } else {
        if kind !in m.ext.authorities { return Err(InvalidAccountData); }
        if m.ext.authorities[kind].None? { return Err(AuthorityTypeNotSupported); }
        var v := Validate(ledger, m.ext.authorities[kind].value, authority, signers);
        if v.Err? { return Err(v.error); }
        if newAuthority == Some(SYSTEM_PROGRAM) { return Err(InvalidArgument); }
        mint := mint.(ext := mint.ext.(authorities := mint.ext.authorities[kind := newAuthority]));
      }
      ledger := PutMint(ledger, key, mint);
      return Ok(());
    }

    /** `process_set_authority`. */
    method ProcessSetAuthority(env: Env, accounts: seq<Meta>, kind: AuthorityType, newAuthority: Option<Address>)
      returns (r: Result<()>)
      modifies this
      ensures Ends(r, ledger, SetAuthority(env, old(ledger), accounts, kind, newAuthority))
    {
      if |accounts| < 2 { return Err(NotEnoughAccountKeys); }
      var key, authority, signers := accounts[0].key, accounts[1], accounts[2..];
      var _ :- CheckProgram(Get(ledger, key));
      var account, mint := UnpackAccount(Get(ledger, key)), UnpackMint(Get(ledger, key));
      if account.Ok? {
        r := SetAuthorityOfAccount(env, key, account.value, kind, newAuthority, authority, signers);
      } else if mint.Ok? {
        r := SetAuthorityOfMint(key, mint.value, kind, newAuthority, authority, signers);
      } else {
        return Err(InvalidAccountData);
      }
    }

    /** `process_toggle_freeze_account`. */
    method ProcessToggleFreeze(accounts: seq<Meta>, freeze: bool) returns (r: Result<()>)
      modifies this
      ensures Ends(r, ledger, ToggleFreeze(old(ledger), accounts, freeze))
    {
      if |accounts| < 3 { return Err(NotEnoughAccountKeys); }
      var source, mintKey, authority := accounts[0].key, accounts[1].key, accounts[2];
      var _ :- CheckProgram(Get(ledger, source));
      var _ :- CheckProgram(Get(ledger, mintKey));
      var src :- UnpackAccount(Get(ledger, source));
      if (freeze && src.base.IsFrozen()) || (!freeze && !src.base.IsFrozen()) { return Err(InvalidState); }
      if src.base.IsNative() { return Err(NativeNotSupported); }
      if mintKey != src.base.mint { return Err(MintMismatch); }
      var mint :- UnpackMint(Get(ledger, mintKey));
      if mint.base.freezeAuthority.None? { return Err(MintCannotFreeze); }
      var v := Validate(ledger, mint.base.freezeAuthority.value, authority, accounts[3..]);
      if v.Err? { return Err(v.error); }
      WriteBase(source, src, src.base.(state := if freeze then Frozen else Initialized));
      return Ok(());
    }

    // ---------------------------------------------------------------- lamports

    /** The account arm of `process_close_account`. */
    method CheckClosableAccount(env: Env, a: TokenAccount, destination: Address, authority: Meta, signers: seq<Meta>)
      returns (r: Result<()>)
      ensures r == MayCloseAccount(env, ledger, a, destination, authority, signers)
    {
      if !a.base.IsNative() && a.base.amount != 0 { return Err(NonNativeHasBalance); }
      var closer := if a.base.closeAuthority.Some? then a.base.closeAuthority.value else a.base.owner;
      if !a.base.OwnedBySystemProgramOrIncinerator() {
        if a.ext.lockCpi && env.inCpi && destination != a.base.owner { return Err(CpiGuardCloseAccountBlocked); }
        var v := Validate(ledger, closer, authority, signers);
        if v.Err? { return v; }
      } else if destination != INCINERATOR {
        return Err(InvalidAccountData);
      }
      if a.ext.withheld.Some? && a.ext.withheld.value != 0 { return Err(AccountHasWithheldTransferFees); }
      return Ok(());
    }

    /** The mint arm of `process_close_account`. */
    method CheckClosableMint(m: TokenMint, authority: Meta, signers: seq<Meta>) returns (r: Result<()>)
      ensures r == MayCloseMint(ledger, m, authority, signers)
    {
      if CloseMint !in m.ext.authorities { return Err(InvalidAccountData); }
      var closer := m.ext.authorities[CloseMint];
      if closer.None? { return Err(AuthorityTypeNotSupported); }
      var v := Validate(ledger, closer.value, authority, signers);
      if v.Err? { return v; }
      if m.base.supply != 0 { return Err(MintHasSupply); }
      return Ok(());
    }

    /** `process_close_account`: the lamports go first, then the slot is deleted. */
    method ProcessCloseAccount(env: Env, accounts: seq<Meta>) returns (r: Result<()>)
      modifies this
      ensures Ends(r, ledger, CloseSlot(env, old(ledger), accounts))
    {
      if |accounts| < 3 { return Err(NotEnoughAccountKeys); }
      var source, destination := accounts[0].key, accounts[1].key;
      var _ :- CheckProgram(Get(ledger, source));
      if source == destination { return Err(InvalidAccountData); }
      var account, mint := UnpackAccount(Get(ledger, source)), UnpackMint(Get(ledger, source));
      var checked: Result<()>;
      if account.Ok? {
        checked := CheckClosableAccount(env, account.value, destination, accounts[2], accounts[3..]);
      } else if mint.Ok? {
        checked := CheckClosableMint(mint.value, accounts[2], accounts[3..]);
      } else {
        checked := Err(UninitializedAccount);
      }
      if checked.Err? { return checked; }
      var total := Get(ledger, destination).lamports + Get(ledger, source).lamports;
      if total > U64_MAX { return Err(Overflow); }
      ledger := PutLamports(ledger, destination, total);
      ledger := PutLamports(ledger, source, 0);
      ledger := ledger[source := EMPTY_SLOT];
      assert ledger == PutLamports(old(ledger), destination, total)[source := EMPTY_SLOT];
      return Ok(());
    }

    /** `process_sync_native`. */
    method ProcessSyncNative(env: Env, accounts: seq<Meta>) returns (r: Result<()>)
      modifies this
      ensures Ends(r, ledger, SyncNative(env, old(ledger), accounts))
    {
      var info :- At(accounts, 0);
      var slot := Get(ledger, info.key);
      var _ :- CheckProgram(slot);
      if |accounts| >= 2 && accounts[1].key != RENT_SYSVAR { return Err(InvalidArgument); }
      var reserve := env.rent(slot.len);
      var a :- UnpackAccount(slot);
      if !a.base.IsNative() { return Err(NonNativeNotSupported); }
      if slot.lamports < reserve { return Err(Overflow); }
      var base := a.base.(isNative := Some(reserve));
      base := base.(amount := slot.lamports - reserve);
      WriteBase(info.key, a, base);
      return Ok(());
    }

    method CheckWithdrawable(env: Env, source: Address, authority: Meta, signers: seq<Meta>) returns (r: Result<()>)
      ensures r == MayWithdrawExcess(env, ledger, source, authority, signers)
    {
      var account, mint := UnpackAccount(Get(ledger, source)), UnpackMint(Get(ledger, source));
      if account.Ok? {
        if account.value.base.IsNative() { return Err(NativeNotSupported); }
        var v := Validate(ledger, account.value.base.owner, authority, signers);
        if v.Err? { return v; }
        if account.value.ext.lockCpi && env.inCpi { return Err(CpiGuardTransferBlocked); }
        return Ok(());
      } else if mint.Ok? {
        if mint.value.base.mintAuthority.Some? {
          r := Validate(ledger, mint.value.base.mintAuthority.value, authority, signers);
          return;
        } else if source == authority.key {
          if !authority.isSigner { return Err(MissingRequiredSignature); }
          return Ok(());
        } else {
          return Err(AuthorityTypeNotSupported);
        }
      } else if Get(ledger, source).len == MULTISIG_LEN {
        r := Validate(ledger, source, authority, signers);
      } else {
        return Err(InvalidState);
      }
    }

    /** `process_withdraw_excess_lamports`. */
    method ProcessWithdrawExcessLamports(env: Env, accounts: seq<Meta>) returns (r: Result<()>)
      modifies this
      ensures Ends(r, ledger, WithdrawExcessLamports(env, old(ledger), accounts))
    {
      if |accounts| < 3 { return Err(NotEnoughAccountKeys); }
      var source, destination := accounts[0].key, accounts[1].key;
      var _ :- CheckProgram(Get(ledger, source));
      var checked := CheckWithdrawable(env, source, accounts[2], accounts[3..]);
      if checked.Err? { return checked; }
      var reserve := env.rent(Get(ledger, source).len);
      if Get(ledger, source).lamports < reserve { return Err(NotRentExempt); }
      r := Pay(source, destination, Get(ledger, source).lamports - reserve);
    }

    /** `process_unwrap_lamports`: the allowance is written before the CPI guard is asked. */
    method ProcessUnwrapLamports(env: Env, accounts: seq<Meta>, requested: Option<u64>) returns (r: Result<()>)
      modifies this
      ensures Ends(r, ledger, UnwrapLamports(env, old(ledger), accounts, requested))
    {
      if |accounts| < 3 { return Err(NotEnoughAccountKeys); }
      var source, destination, authority, signers := accounts[0].key, accounts[1].key, accounts[2], accounts[3..];
      var _ :- CheckProgram(Get(ledger, source));
      var a :- UnpackAccount(Get(ledger, source));
      var amount, remaining := a.base.amount, 0;
      if requested.Some? {
        amount := requested.value;
        if a.base.amount < amount { return Err(InsufficientFunds); }
        remaining := a.base.amount - amount;
      }
      if !a.base.IsNative() { return Err(NonNativeNotSupported); }
      var authorized := SpendFrom(source, a, None, authority, signers, amount, true);
      var spent :- authorized;
      if a.ext.lockCpi && env.inCpi { return Err(CpiGuardTransferBlocked); }
      PutTwice(old(ledger), source, TokenAccount(spent, a.ext), TokenAccount(spent.(amount := remaining), a.ext));
      if amount != 0 {
        WriteBase(source, a, spent.(amount := remaining));
        if source != destination {
          r := Pay(source, destination, amount);
          return;
        }
      }
      return Ok(());
    }
  }
}
