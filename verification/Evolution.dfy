/** What a successful instruction may do to one record: the exact list of ways an
    account or a mint can change, appear and disappear. The properties of whole runs
    are read off this list. */
module Evolution {
  import opened Base
  import opened State
  import opened Authority
  import opened Processor
  import opened Sums
  import opened Invariant
  import opened Effects

  /** The keys whose record the instruction may rewrite. */
  predicate Touches(accounts: seq<Meta>, op: Operation, key: Address) {
    match op
    case OpTransfer(_, kind) => Names(accounts, 0, key) || Names(accounts, if kind.Unchecked? then 1 else 2, key)
    case OpMintTo(_, _) => Names(accounts, 0, key) || Names(accounts, 1, key)
    case OpBurn(_, _, _) => Names(accounts, 0, key) || Names(accounts, 1, key)
    case OpWithdrawExcessLamports => false
    case OpCreateNativeMint => key == NATIVE_MINT
    case _ => Names(accounts, 0, key)
  }

  /** The same slot but for its lamports. */
  predicate SameRecord(before: Slot, after: Slot) {
    before.(lamports := after.lamports) == after
  }

  lemma TransferFrame(env: Env, l: Ledger, accounts: seq<Meta>, amount: u64, kind: TransferKind, key: Address)
    requires Transfer(env, l, accounts, amount, kind).Ok?
    requires !Touches(accounts, OpTransfer(amount, kind), key)
    ensures Get(Transfer(env, l, accounts, amount, kind).value, key) == Get(l, key)
  {
    if accounts[0].key != TransferDestination(accounts, kind) {
      var spent, credited, fee := TransferParts(env, l, accounts, amount, kind);
      SettleWrites(l, accounts[0].key, TransferDestination(accounts, kind),
                   TokenAccount(spent.(amount := spent.amount - amount), Get(l, accounts[0].key).data.account.ext), credited, amount);
    }
  }

  lemma IssueFrame(env: Env, l: Ledger, accounts: seq<Meta>, amount: u64, permissioned: bool, decimals: Option<u8>, key: Address)
    requires !Names(accounts, 0, key) && !Names(accounts, 1, key)
    ensures MintTo(l, accounts, amount, decimals).Ok? ==>
              Get(MintTo(l, accounts, amount, decimals).value, key) == Get(l, key)
    ensures Burn(env, l, accounts, amount, permissioned, decimals).Ok? ==>
              Get(Burn(env, l, accounts, amount, permissioned, decimals).value, key) == Get(l, key)
  {
  }

  lemma PayoutFrame(env: Env, l: Ledger, accounts: seq<Meta>, requested: Option<u64>, key: Address)
    ensures UnwrapLamports(env, l, accounts, requested).Ok? && !Names(accounts, 0, key) ==>
              SameRecord(Get(l, key), Get(UnwrapLamports(env, l, accounts, requested).value, key))
    ensures CloseSlot(env, l, accounts).Ok? && !Names(accounts, 0, key) ==>
              SameRecord(Get(l, key), Get(CloseSlot(env, l, accounts).value, key))
    ensures WithdrawExcessLamports(env, l, accounts).Ok? ==>
              SameRecord(Get(l, key), Get(WithdrawExcessLamports(env, l, accounts).value, key))
  {
  }

  /** Records an instruction does not name as its own to write stay as they are. */
  lemma UntouchedRecords(env: Env, l: Ledger, accounts: seq<Meta>, op: Operation, key: Address)
    requires Apply(env, l, accounts, op).Ok? && !Touches(accounts, op, key)
    ensures SameRecord(Get(l, key), Get(Apply(env, l, accounts, op).value, key))
  {
    match op
    case OpTransfer(amount, kind) => TransferFrame(env, l, accounts, amount, kind, key);
    case OpMintTo(amount, checked) => IssueFrame(env, l, accounts, amount, false, checked, key);
    case OpBurn(amount, permissioned, checked) => IssueFrame(env, l, accounts, amount, permissioned, checked, key);
    case OpCloseAccount => PayoutFrame(env, l, accounts, None, key);
    case OpWithdrawExcessLamports => PayoutFrame(env, l, accounts, None, key);
    case OpUnwrapLamports(requested) => PayoutFrame(env, l, accounts, requested, key);
    case _ =>
  }

  // ---------------------------------------------------------------- accounts

  /** A debit of `amount` on the authority of the mint's permanent delegate, of the
      account's delegate within its allowance, or of its owner, in that order. */
  predicate Drawn(l: Ledger, before: Account, after: Account, permanent: Option<Address>, authority: Meta,
                  signers: seq<Meta>, amount: u64)
  {
    && amount <= before.amount
    && if permanent == Some(authority.key) then
         && ValidateOwner(l, authority.key, authority, signers).Ok?
         && after == before.(amount := before.amount - amount)
       else if before.delegate == Some(authority.key) then
         && ValidateOwner(l, authority.key, authority, signers).Ok?
         && amount <= before.delegatedAmount
         && after == DrawDown(before, amount).(amount := before.amount - amount)
       else
         && ValidateOwner(l, before.owner, authority, signers).Ok?
         && after == before.(amount := before.amount - amount)
  }

  /** The permanent delegate that may act, when the mint is looked at. */
  function PermanentDelegateOf(l: Ledger, mint: Address): Option<Address> {
    var slot := Get(l, mint);
    if slot.data.MintData? then slot.data.mint.ext.Authority(PermanentDelegate) else None
  }

  predicate Debited(env: Env, l: Ledger, accounts: seq<Meta>, op: Operation, a: TokenAccount, a': TokenAccount) {
    a'.ext == a.ext &&
    match op
    case OpTransfer(amount, kind) =>
      var i := if kind.Unchecked? then 2 else 3;
      && |accounts| > i && !a.ext.nonTransferable && !a.base.IsFrozen()
      && Drawn(l, a.base, a'.base, if kind.Unchecked? then None else PermanentDelegateOf(l, a.base.mint),
               accounts[i], accounts[i + 1..], amount)
    case OpBurn(amount, permissioned, _) =>
      var i := if permissioned then 3 else 2;
      && |accounts| > i && !a.base.IsNative() && !a.base.IsFrozen()
      && if a.base.OwnedBySystemProgramOrIncinerator()
         then amount <= a.base.amount && a'.base == a.base.(amount := a.base.amount - amount)
         else Drawn(l, a.base, a'.base, PermanentDelegateOf(l, a.base.mint), accounts[i], accounts[i + 1..], amount)
    case OpUnwrapLamports(requested) =>
      && |accounts| > 2 && a.base.IsNative()
      && Drawn(l, a.base, a'.base, None, accounts[2], accounts[3..], if requested.Some? then requested.value else a.base.amount)
    case _ => false
  }

  function Withheld(a: TokenAccount): nat {
    if a.ext.withheld.Some? then a.ext.withheld.value else 0
  }

  /** Tokens come in: by a transfer, less the fee withheld from it, or by minting. */
  predicate Credited(l: Ledger, op: Operation, a: TokenAccount, a': TokenAccount) {
    && !a.base.IsFrozen()
    && a'.base == a.base.(amount := a'.base.amount) && a'.base.amount >= a.base.amount
    && a'.ext == a.ext.(withheld := a'.ext.withheld) && (a'.ext.withheld.Some? <==> a.ext.withheld.Some?)
    && if op.OpTransfer? then
         && Withheld(a') >= Withheld(a)
         && a'.base.amount + Withheld(a') == a.base.amount + Withheld(a) + op.amount
       else
         && op.OpMintTo? && !a.base.IsNative()
         && a'.ext == a.ext && a'.base.amount == a.base.amount + op.amount
         && Get(l, a.base.mint).data.MintData? && Get(l, a.base.mint).data.mint.base.mintAuthority.Some?
  }

  /** The freeze authority of the account's mint put its state to `state`. */
  predicate StateSet(l: Ledger, accounts: seq<Meta>, a: TokenAccount, a': TokenAccount, state: AccountState) {
    && !a.base.IsNative()
    && a' == a.(base := a.base.(state := state))
    && |accounts| >= 3
    && Get(l, a.base.mint).data.MintData?
    && Get(l, a.base.mint).data.mint.base.freezeAuthority.Some?
    && ValidateOwner(l, Get(l, a.base.mint).data.mint.base.freezeAuthority.value, accounts[2], accounts[3..]).Ok?
  }

  /** The owner, or for a revocation also the delegate, or for the close authority
      its holder, changes who may act for the account. */
  predicate Rewired(l: Ledger, accounts: seq<Meta>, op: Operation, a: TokenAccount, a': TokenAccount) {
    && !a.base.IsFrozen() && a'.ext == a.ext && |accounts| >= 2
    && match op
       case OpApprove(amount, checked) =>
         var d := if checked.Some? then 2 else 1;
         && |accounts| > d + 1
         && a'.base == a.base.(delegate := Some(accounts[d].key), delegatedAmount := amount)
         && ValidateOwner(l, a.base.owner, accounts[d + 1], accounts[d + 2..]).Ok?
       case OpRevoke =>
         && a'.base == a.base.(delegate := None, delegatedAmount := 0)
         && (ValidateOwner(l, a.base.owner, accounts[1], accounts[2..]).Ok?
             || (a.base.delegate == Some(accounts[1].key) && ValidateOwner(l, accounts[1].key, accounts[1], accounts[2..]).Ok?))
       case OpSetAuthority(kind, newAuthority) =>
         || (kind == AccountOwner && !a.ext.immutableOwner && newAuthority.Some?
             && ValidateOwner(l, a.base.owner, accounts[1], accounts[2..]).Ok?
             && a'.base == a.base.(owner := newAuthority.value, delegate := None, delegatedAmount := 0,
                                   closeAuthority := if a.base.IsNative() then None else a.base.closeAuthority))
         || (kind == AuthorityType.CloseAccount && ValidateOwner(l, Closer(a.base), accounts[1], accounts[2..]).Ok?
             && a'.base == a.base.(closeAuthority := newAuthority))
       case _ => false
  }

  predicate Synced(env: Env, slot: Slot, a: TokenAccount, a': TokenAccount) {
    && a.base.IsNative() && slot.lamports >= env.rent(slot.len)
    && a' == a.(base := a.base.(isNative := Some(env.rent(slot.len)), amount := slot.lamports - env.rent(slot.len)))
  }

  /** Every way in which an account that stays an account can change. */
  predicate Evolves(env: Env, l: Ledger, accounts: seq<Meta>, op: Operation, key: Address, a: TokenAccount, a': TokenAccount) {
    || a' == a
    || (Names(accounts, 0, key) && Debited(env, l, accounts, op, a, a'))
    || (!Names(accounts, 0, key) && Credited(l, op, a, a'))
    || (Names(accounts, 0, key) && Rewired(l, accounts, op, a, a'))
    || (Names(accounts, 0, key) && op == OpToggleFreeze(true) && !a.base.IsFrozen() && StateSet(l, accounts, a, a', Frozen))
    || (Names(accounts, 0, key) && op == OpToggleFreeze(false) && a.base.IsFrozen() && StateSet(l, accounts, a, a', Initialized))
    || (Names(accounts, 0, key) && op.OpSyncNative? && Synced(env, Get(l, key), a, a'))
  }

  lemma SpendDraws(l: Ledger, base: Account, permanent: Option<Address>, authority: Meta, signers: seq<Meta>, amount: u64)
    requires amount <= base.amount
    requires Spend(l, base, permanent, authority, signers, amount, true).Ok?
    ensures Drawn(l, base, Spend(l, base, permanent, authority, signers, amount, true).value.(amount := base.amount - amount),
                  permanent, authority, signers, amount)
  {
  }

  /** The source's record after a transfer is an authorised debit. */
  lemma TransferDraws(env: Env, l: Ledger, accounts: seq<Meta>, amount: u64, kind: TransferKind)
    requires Transfer(env, l, accounts, amount, kind).Ok?
    requires accounts[0].key != TransferDestination(accounts, kind)
    ensures Get(l, accounts[0].key).data.AccountData?
    ensures Get(Transfer(env, l, accounts, amount, kind).value, accounts[0].key).data.AccountData?
    ensures var a, a' := Get(l, accounts[0].key).data.account, Get(Transfer(env, l, accounts, amount, kind).value, accounts[0].key).data.account;
            Debited(env, l, accounts, OpTransfer(amount, kind), a, a')
  {
    var source, destination := accounts[0].key, TransferDestination(accounts, kind);
    var src := TransferSource(Get(l, source), amount).value;
    var terms := TransferTerms(env, l, src, accounts[1].key, amount, kind).value;
    var spent := AuthorizeTransfer(env, l, accounts, amount, kind, src, terms.fee, terms.permanentDelegate).value;
    var d := if kind.Unchecked? then 1 else 2;
    SpendDraws(l, src.base, terms.permanentDelegate, accounts[d + 1], accounts[d + 2..], amount);
    SettleWrites(l, source, destination, TokenAccount(spent.(amount := src.base.amount - amount), src.ext),
                 TransferCredit(Get(l, destination), src.base.mint, amount, terms.fee).value, amount);
  }

  lemma TransferCredits(env: Env, l: Ledger, accounts: seq<Meta>, amount: u64, kind: TransferKind)
    requires Transfer(env, l, accounts, amount, kind).Ok?
    requires accounts[0].key != TransferDestination(accounts, kind)
    ensures var destination := TransferDestination(accounts, kind);
            var l' := Transfer(env, l, accounts, amount, kind).value;
            && Get(l, destination).data.AccountData? && Get(l', destination).data.AccountData?
            && Credited(l, OpTransfer(amount, kind), Get(l, destination).data.account, Get(l', destination).data.account)
  {
    var source, destination := accounts[0].key, TransferDestination(accounts, kind);
    var spent, credited, fee := TransferParts(env, l, accounts, amount, kind);
    var src := Get(l, source).data.account;
    SettleWrites(l, source, destination, TokenAccount(spent.(amount := spent.amount - amount), src.ext), credited, amount);
    CreditFacts(Get(l, destination), src.base.mint, amount, fee);
  }

  lemma TransferEvolves(env: Env, l: Ledger, accounts: seq<Meta>, amount: u64, kind: TransferKind, key: Address)
    requires Transfer(env, l, accounts, amount, kind).Ok?
    requires Get(l, key).data.AccountData?
    ensures var l' := Transfer(env, l, accounts, amount, kind).value;
            && Get(l', key).data.AccountData?
            && Evolves(env, l, accounts, OpTransfer(amount, kind), key, Get(l, key).data.account, Get(l', key).data.account)
  {
    if accounts[0].key != TransferDestination(accounts, kind) {
      if key == accounts[0].key {
        TransferDraws(env, l, accounts, amount, kind);
      } else if key == TransferDestination(accounts, kind) {
        TransferCredits(env, l, accounts, amount, kind);
      } else {
        TransferFrame(env, l, accounts, amount, kind, key);
      }
    }
  }

  lemma MintToEvolves(env: Env, l: Ledger, accounts: seq<Meta>, amount: u64, decimals: Option<u8>, key: Address)
    requires MintTo(l, accounts, amount, decimals).Ok?
    requires Get(l, key).data.AccountData?
    ensures var l' := MintTo(l, accounts, amount, decimals).value;
            && Get(l', key).data.AccountData?
            && Evolves(env, l, accounts, OpMintTo(amount, decimals), key, Get(l, key).data.account, Get(l', key).data.account)
  {
  }

  lemma BurnEvolves(env: Env, l: Ledger, accounts: seq<Meta>, amount: u64, permissioned: bool, decimals: Option<u8>, key: Address)
    requires Burn(env, l, accounts, amount, permissioned, decimals).Ok?
    requires Get(l, key).data.AccountData?
    ensures var l' := Burn(env, l, accounts, amount, permissioned, decimals).value;
            && Get(l', key).data.AccountData?
            && Evolves(env, l, accounts, OpBurn(amount, permissioned, decimals), key, Get(l, key).data.account, Get(l', key).data.account)
  {
  }

  lemma UnwrapDraws(env: Env, l: Ledger, accounts: seq<Meta>, requested: Option<u64>)
    requires UnwrapLamports(env, l, accounts, requested).Ok?
    ensures var l' := UnwrapLamports(env, l, accounts, requested).value;
            && Get(l, accounts[0].key).data.AccountData? && Get(l', accounts[0].key).data.AccountData?
            && Debited(env, l, accounts, OpUnwrapLamports(requested), Get(l, accounts[0].key).data.account, Get(l', accounts[0].key).data.account)
  {
    var a := UnpackAccount(Get(l, accounts[0].key)).value;
    SpendDraws(l, a.base, None, accounts[2], accounts[3..], if requested.Some? then requested.value else a.base.amount);
  }

  lemma UnwrapEvolves(env: Env, l: Ledger, accounts: seq<Meta>, requested: Option<u64>, key: Address)
    requires UnwrapLamports(env, l, accounts, requested).Ok?
    requires Get(l, key).data.AccountData?
    ensures var l' := UnwrapLamports(env, l, accounts, requested).value;
            && Get(l', key).data.AccountData?
            && Evolves(env, l, accounts, OpUnwrapLamports(requested), key, Get(l, key).data.account, Get(l', key).data.account)
  {
    if key == accounts[0].key {
      UnwrapDraws(env, l, accounts, requested);
    } else {
      PayoutFrame(env, l, accounts, requested, key);
    }
  }

  lemma SetAuthorityEvolves(env: Env, l: Ledger, accounts: seq<Meta>, kind: AuthorityType, newAuthority: Option<Address>, key: Address)
    requires SetAuthority(env, l, accounts, kind, newAuthority).Ok?
    requires Get(l, key).data.AccountData?
    ensures var l' := SetAuthority(env, l, accounts, kind, newAuthority).value;
            && Get(l', key).data.AccountData?
            && Evolves(env, l, accounts, OpSetAuthority(kind, newAuthority), key, Get(l, key).data.account, Get(l', key).data.account)
  {
  }

  lemma ToggleFreezeEvolves(env: Env, l: Ledger, accounts: seq<Meta>, freeze: bool, key: Address)
    requires ToggleFreeze(l, accounts, freeze).Ok?
    requires Get(l, key).data.AccountData?
    ensures var l' := ToggleFreeze(l, accounts, freeze).value;
            && Get(l', key).data.AccountData?
            && Evolves(env, l, accounts, OpToggleFreeze(freeze), key, Get(l, key).data.account, Get(l', key).data.account)
  {
  }

  /** An instruction other than those above leaves an account as it is, rewires it, or syncs it. */
  lemma OthersEvolve(env: Env, l: Ledger, accounts: seq<Meta>, op: Operation, key: Address)
    requires op.OpApprove? || op.OpRevoke? || op.OpSyncNative? || op.OpInitializeMint? || op.OpInitializeAccount?
          || op.OpInitializeMultisig? || op.OpCreateNativeMint? || op.OpCloseAccount? || op.OpWithdrawExcessLamports?
    requires SlotsOk(env, l) && Apply(env, l, accounts, op).Ok?
    requires Get(l, key).data.AccountData? && Get(Apply(env, l, accounts, op).value, key).data.AccountData?
    ensures Evolves(env, l, accounts, op, key, Get(l, key).data.account, Get(Apply(env, l, accounts, op).value, key).data.account)
  {
    if !Touches(accounts, op, key) {
      UntouchedRecords(env, l, accounts, op, key);
    }
    assert SlotOk(env, key, Get(l, key));
  }

  /** Every change of an account that stays an account is on the list. */
  lemma AccountsEvolve(env: Env, l: Ledger, accounts: seq<Meta>, op: Operation, key: Address)
    requires SlotsOk(env, l) && Apply(env, l, accounts, op).Ok?
    requires Get(l, key).data.AccountData? && Get(Apply(env, l, accounts, op).value, key).data.AccountData?
    ensures Evolves(env, l, accounts, op, key, Get(l, key).data.account, Get(Apply(env, l, accounts, op).value, key).data.account)
  {
    match op
    case OpTransfer(amount, kind) => TransferEvolves(env, l, accounts, amount, kind, key);
    case OpMintTo(amount, checked) => MintToEvolves(env, l, accounts, amount, checked, key);
    case OpBurn(amount, permissioned, checked) => BurnEvolves(env, l, accounts, amount, permissioned, checked, key);
    case OpUnwrapLamports(requested) => UnwrapEvolves(env, l, accounts, requested, key);
    case OpSetAuthority(kind, auth) => SetAuthorityEvolves(env, l, accounts, kind, auth, key);
    case OpToggleFreeze(freeze) => ToggleFreezeEvolves(env, l, accounts, freeze, key);
    case _ => OthersEvolve(env, l, accounts, op, key);
  }

  /** An account goes away only when closed: with no tokens in it unless it is native, no fees
      withheld, and its closer's signature, or for the incinerator's benefit if it belongs to the
      system program or the incinerator. All its lamports go to the destination named. */
  lemma AccountsDisappear(env: Env, l: Ledger, accounts: seq<Meta>, op: Operation, key: Address)
    requires SlotsOk(env, l) && Apply(env, l, accounts, op).Ok?
    requires Get(l, key).data.AccountData? && !Get(Apply(env, l, accounts, op).value, key).data.AccountData?
    ensures op.OpCloseAccount? && Names(accounts, 0, key)
    ensures MayBeClosed(env, l, Get(l, key).data.account, accounts)
    ensures ClosedTo(l, Apply(env, l, accounts, op).value, key, accounts[1].key)
  {
    assert SlotOk(env, key, Get(l, key));
    if !Touches(accounts, op, key) {
      UntouchedRecords(env, l, accounts, op, key);
    } else if op.OpTransfer? {
      TransferEvolves(env, l, accounts, op.amount, op.kind, key);
    } else if op.OpUnwrapLamports? {
      UnwrapDraws(env, l, accounts, op.requested);
    } else if op.OpMintTo? {
      MintToEvolves(env, l, accounts, op.amount, op.checked, key);
    } else if op.OpBurn? {
      BurnEvolves(env, l, accounts, op.amount, op.permissioned, op.checked, key);
    } else if op.OpCloseAccount? {
      CloseAccountExactly(env, l, accounts);
    }
  }

  /** A transfer, and an unwrapping, write accounts where there were accounts. */
  lemma MovesMakeNoAccounts(env: Env, l: Ledger, accounts: seq<Meta>, op: Operation, key: Address)
    requires op.OpTransfer? || op.OpUnwrapLamports?
    requires Apply(env, l, accounts, op).Ok? && Get(Apply(env, l, accounts, op).value, key).data.AccountData?
    ensures Get(l, key).data.AccountData?
  {
    if !Touches(accounts, op, key) {
      UntouchedRecords(env, l, accounts, op, key);
    } else if op.OpUnwrapLamports? {
      UnwrapDraws(env, l, accounts, op.requested);
    } else if accounts[0].key != TransferDestination(accounts, op.kind) {
      TransferDraws(env, l, accounts, op.amount, op.kind);
      TransferCredits(env, l, accounts, op.amount, op.kind);
    }
  }

  lemma IssuesMakeNoAccounts(env: Env, l: Ledger, accounts: seq<Meta>, op: Operation, key: Address)
    requires op.OpMintTo? || op.OpBurn?
    requires Apply(env, l, accounts, op).Ok? && Get(Apply(env, l, accounts, op).value, key).data.AccountData?
    ensures Get(l, key).data.AccountData?
  {
    if !Touches(accounts, op, key) {
      UntouchedRecords(env, l, accounts, op, key);
    }
  }

  lemma OthersMakeNoAccounts(env: Env, l: Ledger, accounts: seq<Meta>, op: Operation, key: Address)
    requires !op.OpTransfer? && !op.OpUnwrapLamports? && !op.OpMintTo? && !op.OpBurn? && !op.OpInitializeAccount?
    requires Apply(env, l, accounts, op).Ok? && Get(Apply(env, l, accounts, op).value, key).data.AccountData?
    ensures Get(l, key).data.AccountData?
  {
    if !Touches(accounts, op, key) {
      UntouchedRecords(env, l, accounts, op, key);
    }
  }

  lemma InitializedAccount(env: Env, l: Ledger, accounts: seq<Meta>, owner: Option<Address>, rentAccount: bool, key: Address)
    requires InitializeAccount(env, l, accounts, owner, rentAccount).Ok? && !Get(l, key).data.AccountData?
    requires Get(InitializeAccount(env, l, accounts, owner, rentAccount).value, key).data.AccountData?
    ensures Names(accounts, 0, key) && Get(l, key).data.Fresh? && |accounts| >= (if owner == None then 3 else 2)
    ensures var slot := Get(InitializeAccount(env, l, accounts, owner, rentAccount).value, key);
            && IsMint(l, accounts[1].key) && SameRecord(Get(l, key).(data := slot.data), slot)
            && IsNewAccount(env, Get(l, key), slot.data.account, accounts[1].key, MintOf(l, accounts[1].key),
                            if owner == None then accounts[2].key else owner.value)
  {
    InitializeAccountExactly(env, l, accounts, owner, rentAccount);
  }

  /** An account comes into being only by initialisation of a fresh slot, which makes it the
      one `IsNewAccount` describes: of the mint and the owner named, and nothing in it unless native. */
  lemma AccountsAppear(env: Env, l: Ledger, accounts: seq<Meta>, op: Operation, key: Address)
    requires SlotsOk(env, l) && Apply(env, l, accounts, op).Ok?
    requires !Get(l, key).data.AccountData? && Get(Apply(env, l, accounts, op).value, key).data.AccountData?
    ensures op.OpInitializeAccount? && Names(accounts, 0, key) && Get(l, key).data.Fresh?
    ensures |accounts| >= (if op.owner == None then 3 else 2) && IsMint(l, accounts[1].key)
    ensures var a := Get(Apply(env, l, accounts, op).value, key).data.account;
            && IsNewAccount(env, Get(l, key), a, accounts[1].key, MintOf(l, accounts[1].key),
                            if op.owner == None then accounts[2].key else op.owner.value)
            && a.base.delegate.None? && a.base.delegatedAmount == 0 && a.base.closeAuthority.None?
            && (a.base.mint != NATIVE_MINT ==> HeldIn(Get(Apply(env, l, accounts, op).value, key), a.base.mint) == 0)
  {
    match op
    case OpTransfer(_, _) => MovesMakeNoAccounts(env, l, accounts, op, key);
    case OpUnwrapLamports(_) => MovesMakeNoAccounts(env, l, accounts, op, key);
    case OpMintTo(_, _) => IssuesMakeNoAccounts(env, l, accounts, op, key);
    case OpBurn(_, _, _) => IssuesMakeNoAccounts(env, l, accounts, op, key);
    case OpInitializeAccount(owner, rent) => InitializedAccount(env, l, accounts, owner, rent, key);
    case _ => OthersMakeNoAccounts(env, l, accounts, op, key);
  }

  // ---------------------------------------------------------------- mints

  predicate AuthorityMoved(l: Ledger, accounts: seq<Meta>, kind: AuthorityType, newAuthority: Option<Address>,
                           m: TokenMint, m': TokenMint)
  {
    if kind.MintTokens? then
      Signed(l, m.base.mintAuthority, accounts, 1) && m' == m.(base := m.base.(mintAuthority := newAuthority))
    else if kind.FreezeAccount? then
      Signed(l, m.base.freezeAuthority, accounts, 1) && m' == m.(base := m.base.(freezeAuthority := newAuthority))
    else
      Signed(l, m.ext.Authority(kind), accounts, 1) && m' == m.(ext := m.ext.(authorities := m.ext.authorities[kind := newAuthority]))
  }

  /** Every way in which a mint that stays a mint can change. */
  predicate MintEvolves(l: Ledger, accounts: seq<Meta>, op: Operation, key: Address, m: TokenMint, m': TokenMint) {
    || m' == m
    || (op.OpMintTo? && Names(accounts, 0, key) && Signed(l, m.base.mintAuthority, accounts, 2)
        && m.base.supply + op.amount <= U64_MAX && m' == m.(base := m.base.(supply := m.base.supply + op.amount)))
    || (op.OpBurn? && Names(accounts, 1, key)
        && op.amount <= m.base.supply && m' == m.(base := m.base.(supply := m.base.supply - op.amount)))
    || (op.OpSetAuthority? && Names(accounts, 0, key) && AuthorityMoved(l, accounts, op.authorityType, op.newAuthority, m, m'))
  }

  lemma IssueMintEvolves(env: Env, l: Ledger, accounts: seq<Meta>, op: Operation, key: Address)
    requires op.OpMintTo? || op.OpBurn?
    requires SlotsOk(env, l) && Apply(env, l, accounts, op).Ok? && Get(l, key).data.MintData?
    ensures Get(Apply(env, l, accounts, op).value, key).data.MintData?
    ensures MintEvolves(l, accounts, op, key, Get(l, key).data.mint, Get(Apply(env, l, accounts, op).value, key).data.mint)
  {
    assert SlotOk(env, key, Get(l, key));
    if op.OpMintTo? {
      MintToIssues(env, l, accounts, op.amount, op.checked);
    } else {
      BurnIssues(env, l, accounts, op.amount, op.permissioned, op.checked);
    }
  }

  lemma SetAuthorityMintEvolves(env: Env, l: Ledger, accounts: seq<Meta>, kind: AuthorityType, newAuthority: Option<Address>, key: Address)
    requires SetAuthority(env, l, accounts, kind, newAuthority).Ok? && Get(l, key).data.MintData?
    ensures var l' := SetAuthority(env, l, accounts, kind, newAuthority).value;
            && Get(l', key).data.MintData?
            && MintEvolves(l, accounts, OpSetAuthority(kind, newAuthority), key, Get(l, key).data.mint, Get(l', key).data.mint)
  {
  }

  /** Every change of a mint that stays a mint is on the list. */
  lemma MintsEvolve(env: Env, l: Ledger, accounts: seq<Meta>, op: Operation, key: Address)
    requires SlotsOk(env, l) && Apply(env, l, accounts, op).Ok?
    requires Get(l, key).data.MintData? && Get(Apply(env, l, accounts, op).value, key).data.MintData?
    ensures MintEvolves(l, accounts, op, key, Get(l, key).data.mint, Get(Apply(env, l, accounts, op).value, key).data.mint)
  {
    assert SlotOk(env, key, Get(l, key));
    if !Touches(accounts, op, key) {
      UntouchedRecords(env, l, accounts, op, key);
    } else if op.OpMintTo? || op.OpBurn? {
      IssueMintEvolves(env, l, accounts, op, key);
    } else if op.OpSetAuthority? {
      SetAuthorityMintEvolves(env, l, accounts, op.authorityType, op.newAuthority, key);
    } else if op.OpTransfer? {
      if accounts[0].key != TransferDestination(accounts, op.kind) {
        TransferDraws(env, l, accounts, op.amount, op.kind);
        TransferCredits(env, l, accounts, op.amount, op.kind);
      }
    } else if op.OpUnwrapLamports? {
      UnwrapDraws(env, l, accounts, op.requested);
    }
  }

  /** A mint goes away only when closed by its close authority, with no supply. */
  lemma MintsDisappear(env: Env, l: Ledger, accounts: seq<Meta>, op: Operation, key: Address)
    requires SlotsOk(env, l) && Apply(env, l, accounts, op).Ok?
    requires Get(l, key).data.MintData? && !Get(Apply(env, l, accounts, op).value, key).data.MintData?
    ensures op.OpCloseAccount? && Names(accounts, 0, key)
    ensures Get(l, key).data.mint.base.supply == 0
    ensures Signed(l, Get(l, key).data.mint.ext.Authority(CloseMint), accounts, 2)
  {
    assert SlotOk(env, key, Get(l, key));
    if !Touches(accounts, op, key) {
      UntouchedRecords(env, l, accounts, op, key);
    } else if op.OpMintTo? || op.OpBurn? {
      IssueMintEvolves(env, l, accounts, op, key);
    } else if op.OpTransfer? {
      if accounts[0].key != TransferDestination(accounts, op.kind) {
        TransferDraws(env, l, accounts, op.amount, op.kind);
        TransferCredits(env, l, accounts, op.amount, op.kind);
      }
    } else if op.OpUnwrapLamports? {
      UnwrapDraws(env, l, accounts, op.requested);
    }
  }
}
