/** The ledger invariant and its preservation by every instruction. */
module Invariant {
  import opened Base
  import opened State
  import opened Processor
  import opened Sums

  /** A native account's amount is backed by its own lamports above the rent
      reserve it records, which is the rent of its length; it is never frozen. */
  predicate NativeOk(env: Env, slot: Slot, a: TokenAccount)
    requires a.base.IsNative()
  {
    && a.base.isNative.value == env.rent(slot.len)
    && slot.lamports >= a.base.amount + a.base.isNative.value
    && !a.base.IsFrozen()
    && a.ext.withheld.None?
  }

  predicate AccountOk(env: Env, slot: Slot, a: TokenAccount) {
    && slot.program == Token2022
    && slot.len >= ACCOUNT_LEN && slot.len != MULTISIG_LEN
    && !a.base.state.Uninitialized?
    && (a.base.IsNative() <==> a.base.mint == NATIVE_MINT)
    && (a.base.IsNative() ==> NativeOk(env, slot, a))
    && (a.base.delegate.None? ==> a.base.delegatedAmount == 0)
  }

  predicate MintOk(key: Address, slot: Slot, m: TokenMint) {
    && slot.program == Token2022
    && slot.len >= MINT_LEN && slot.len != MULTISIG_LEN
    && m.base.isInitialized
    && m.ext.defaultState != Some(Uninitialized)
    && (key == NATIVE_MINT ==>
          m.ext == PLAIN_MINT_EXT && m.base.mintAuthority.None? && m.base.freezeAuthority.None? && m.base.supply == 0)
  }

  predicate SlotOk(env: Env, key: Address, slot: Slot) {
    match slot.data
    case AccountData(a) => AccountOk(env, slot, a) && key != NATIVE_MINT
    case MintData(m) => MintOk(key, slot, m)
    case MultisigData(ms) => key == NATIVE_MINT ==> slot.program != Token2022
    case Fresh(tlv) =>
      && (key == NATIVE_MINT ==> slot.program != Token2022)
      && (tlv.MintTlv? ==> tlv.ext.defaultState != Some(Uninitialized))
  }

  predicate IsNonTransferableMint(slot: Slot) {
    slot.data.MintData? && slot.data.mint.ext.nonTransferable
  }

  predicate HasTokens(slot: Slot, mint: Address) {
    slot.data.AccountData? && slot.data.account.base.mint == mint && slot.data.account.base.amount > 0
  }

  /** Tokens in this account can neither be sent nor change hands with it. */
  predicate Locked(slot: Slot) {
    slot.data.AccountData? && slot.data.account.ext.immutableOwner && slot.data.account.ext.nonTransferable
  }

  ghost predicate SlotsOk(env: Env, l: Ledger) {
    forall key :: SlotOk(env, key, Get(l, key))
  }

  /** Tokens of every mint but the native one are conserved: what accounts hold and
      withhold is what the mint's supply says, and nothing where there is no mint. */
  ghost predicate Conserved(l: Ledger) {
    forall mint :: mint != NATIVE_MINT ==> Held(l, mint) == SupplyIn(Get(l, mint))
  }

  ghost predicate NonTransferableLocked(l: Ledger) {
    forall mint, key :: IsNonTransferableMint(Get(l, mint)) && HasTokens(Get(l, key), mint) ==> Locked(Get(l, key))
  }

  ghost predicate TokensOk(env: Env, l: Ledger) {
    SlotsOk(env, l) && Conserved(l) && NonTransferableLocked(l)
  }

  ghost predicate Inv(env: Env, l: Ledger) {
    TokensOk(env, l) && TotalLamports(l) <= U64_MAX
  }

  /** The two contents count the same for every mint but the native one. */
  ghost predicate Quiet(before: Slot, after: Slot) {
    && (forall mint :: mint != NATIVE_MINT ==> HeldIn(before, mint) == HeldIn(after, mint))
    && SupplyIn(before) == SupplyIn(after)
    && (forall mint :: mint != NATIVE_MINT && HasTokens(after, mint) ==>
          HasTokens(before, mint) && (Locked(before) ==> Locked(after)))
    && (IsNonTransferableMint(after) && SupplyIn(after) > 0 ==> IsNonTransferableMint(before))
  }

  /** Locking survives a write that neither gives tokens to an unlocked account nor
      makes a mint with tokens outstanding non-transferable. */
  lemma LockedAfter(env: Env, l: Ledger, l': Ledger)
    requires TokensOk(env, l) && SlotsOk(env, l') && Conserved(l')
    requires forall mint :: IsNonTransferableMint(Get(l', mint)) && SupplyIn(Get(l', mint)) > 0 ==> IsNonTransferableMint(Get(l, mint))
    requires forall mint, key ::
               mint != NATIVE_MINT && HasTokens(Get(l', key), mint) && IsNonTransferableMint(Get(l, mint)) && !Locked(Get(l', key)) ==>
                 HasTokens(Get(l, key), mint) && !Locked(Get(l, key))
    ensures NonTransferableLocked(l')
  {
    forall mint, key | IsNonTransferableMint(Get(l', mint)) && HasTokens(Get(l', key), mint)
      ensures Locked(Get(l', key))
    {
      assert SlotOk(env, mint, Get(l', mint));
      HeldCovers(l', mint, key, key);
    }
  }

  lemma QuietUpdate(env: Env, l: Ledger, key: Address, slot: Slot)
    requires TokensOk(env, l) && SlotOk(env, key, slot) && Quiet(Get(l, key), slot)
    ensures TokensOk(env, l[key := slot])
  {
    var l' := l[key := slot];
    forall k ensures SlotOk(env, k, Get(l', k)) { assert SlotOk(env, k, Get(l, k)); }
    forall mint | mint != NATIVE_MINT ensures Held(l', mint) == SupplyIn(Get(l', mint)) {
      HeldUpdate(l, key, slot, mint);
    }
    LockedAfter(env, l, l');
  }

  // ---------------------------------------------------------------- one slot written

  lemma InitializeMintKeeps(env: Env, l: Ledger, accounts: seq<Meta>, decimals: u8, mintAuthority: Address,
                            freezeAuthority: Option<Address>, rentAccount: bool)
    requires TokensOk(env, l)
    requires InitializeMint(env, l, accounts, decimals, mintAuthority, freezeAuthority, rentAccount).Ok?
    ensures TokensOk(env, InitializeMint(env, l, accounts, decimals, mintAuthority, freezeAuthority, rentAccount).value)
  {
    var key := accounts[0].key;
    var l' := InitializeMint(env, l, accounts, decimals, mintAuthority, freezeAuthority, rentAccount).value;
    assert SlotOk(env, key, Get(l, key));
    QuietUpdate(env, l, key, l'[key]);
  }

  lemma InitializeAccountKeeps(env: Env, l: Ledger, accounts: seq<Meta>, owner: Option<Address>, rentAccount: bool)
    requires TokensOk(env, l)
    requires InitializeAccount(env, l, accounts, owner, rentAccount).Ok?
    ensures TokensOk(env, InitializeAccount(env, l, accounts, owner, rentAccount).value)
  {
    var key := accounts[0].key;
    var l' := InitializeAccount(env, l, accounts, owner, rentAccount).value;
    assert SlotOk(env, key, Get(l, key));
    assert SlotOk(env, accounts[1].key, Get(l, accounts[1].key));
    QuietUpdate(env, l, key, l'[key]);
  }

  lemma InitializeMultisigKeeps(env: Env, l: Ledger, accounts: seq<Meta>, m: u8, rentAccount: bool)
    requires TokensOk(env, l)
    requires InitializeMultisig(env, l, accounts, m, rentAccount).Ok?
    ensures TokensOk(env, InitializeMultisig(env, l, accounts, m, rentAccount).value)
  {
    var key := accounts[0].key;
    var l' := InitializeMultisig(env, l, accounts, m, rentAccount).value;
    assert SlotOk(env, key, Get(l, key));
    QuietUpdate(env, l, key, l'[key]);
  }

  lemma ApproveKeeps(env: Env, l: Ledger, accounts: seq<Meta>, amount: u64, decimals: Option<u8>)
    requires TokensOk(env, l)
    requires Approve(env, l, accounts, amount, decimals).Ok?
    ensures TokensOk(env, Approve(env, l, accounts, amount, decimals).value)
  {
    var key := accounts[0].key;
    assert SlotOk(env, key, Get(l, key));
    QuietUpdate(env, l, key, Approve(env, l, accounts, amount, decimals).value[key]);
  }

  lemma RevokeKeeps(env: Env, l: Ledger, accounts: seq<Meta>)
    requires TokensOk(env, l)
    requires Revoke(l, accounts).Ok?
    ensures TokensOk(env, Revoke(l, accounts).value)
  {
    var key := accounts[0].key;
    assert SlotOk(env, key, Get(l, key));
    QuietUpdate(env, l, key, Revoke(l, accounts).value[key]);
  }

  lemma SetAccountAuthorityQuiet(env: Env, l: Ledger, key: Address, a: TokenAccount, kind: AuthorityType,
                                 newAuthority: Option<Address>, authority: Meta, signers: seq<Meta>)
    requires SlotOk(env, key, Get(l, key)) && Get(l, key).data == AccountData(a)
    requires SetAccountAuthority(env, l, a, kind, newAuthority, authority, signers).Ok?
    ensures var slot := Get(l, key).(data := AccountData(TokenAccount(
                          SetAccountAuthority(env, l, a, kind, newAuthority, authority, signers).value, a.ext)));
            SlotOk(env, key, slot) && Quiet(Get(l, key), slot)
  {
  }

  lemma SetMintAuthorityQuiet(env: Env, l: Ledger, key: Address, m: TokenMint, kind: AuthorityType,
                              newAuthority: Option<Address>, authority: Meta, signers: seq<Meta>)
    requires SlotOk(env, key, Get(l, key)) && Get(l, key).data == MintData(m)
    requires SetMintAuthority(l, m, kind, newAuthority, authority, signers).Ok?
    ensures var slot := Get(l, key).(data := MintData(SetMintAuthority(l, m, kind, newAuthority, authority, signers).value));
            SlotOk(env, key, slot) && Quiet(Get(l, key), slot)
  {
  }

  lemma SetAuthorityKeeps(env: Env, l: Ledger, accounts: seq<Meta>, kind: AuthorityType, newAuthority: Option<Address>)
    requires TokensOk(env, l)
    requires SetAuthority(env, l, accounts, kind, newAuthority).Ok?
    ensures TokensOk(env, SetAuthority(env, l, accounts, kind, newAuthority).value)
  {
    var key := accounts[0].key;
    assert SlotOk(env, key, Get(l, key));
    if UnpackAccount(Get(l, key)).Ok? {
      SetAccountAuthorityQuiet(env, l, key, Get(l, key).data.account, kind, newAuthority, accounts[1], accounts[2..]);
    } else {
      SetMintAuthorityQuiet(env, l, key, Get(l, key).data.mint, kind, newAuthority, accounts[1], accounts[2..]);
    }
    QuietUpdate(env, l, key, SetAuthority(env, l, accounts, kind, newAuthority).value[key]);
  }

  lemma ToggleFreezeKeeps(env: Env, l: Ledger, accounts: seq<Meta>, freeze: bool)
    requires TokensOk(env, l)
    requires ToggleFreeze(l, accounts, freeze).Ok?
    ensures TokensOk(env, ToggleFreeze(l, accounts, freeze).value)
  {
    var key := accounts[0].key;
    assert SlotOk(env, key, Get(l, key));
    QuietUpdate(env, l, key, ToggleFreeze(l, accounts, freeze).value[key]);
  }

  lemma SyncNativeKeeps(env: Env, l: Ledger, accounts: seq<Meta>)
    requires TokensOk(env, l)
    requires SyncNative(env, l, accounts).Ok?
    ensures TokensOk(env, SyncNative(env, l, accounts).value)
  {
    var key := accounts[0].key;
    assert SlotOk(env, key, Get(l, key));
    QuietUpdate(env, l, key, SyncNative(env, l, accounts).value[key]);
  }

  // ---------------------------------------------------------------- lamports moved

  lemma DepositKeeps(env: Env, l: Ledger, key: Address, lamports: u64)
    requires TokensOk(env, l) && Get(l, key).lamports <= lamports
    ensures TokensOk(env, PutLamports(l, key, lamports))
  {
    assert SlotOk(env, key, Get(l, key));
    QuietUpdate(env, l, key, Get(l, key).(lamports := lamports));
  }

  /** Lamports may leave a slot as long as a native account keeps its backing. */
  lemma MoveLamportsKeeps(env: Env, l: Ledger, source: Address, destination: Address, amount: u64)
    requires TokensOk(env, l) && MoveLamports(l, source, destination, amount).Ok?
    requires SlotOk(env, source, Get(l, source).(lamports := Get(l, source).lamports - amount))
    ensures TokensOk(env, MoveLamports(l, source, destination, amount).value)
  {
    QuietUpdate(env, l, source, Get(l, source).(lamports := Get(l, source).lamports - amount));
    var debited := PutLamports(l, source, Get(l, source).lamports - amount);
    DepositKeeps(env, debited, destination, Get(debited, destination).lamports + amount);
  }

  lemma WithdrawExcessLamportsKeeps(env: Env, l: Ledger, accounts: seq<Meta>)
    requires TokensOk(env, l)
    requires WithdrawExcessLamports(env, l, accounts).Ok?
    ensures TokensOk(env, WithdrawExcessLamports(env, l, accounts).value)
  {
    var source := accounts[0].key;
    assert SlotOk(env, source, Get(l, source));
    MoveLamportsKeeps(env, l, source, accounts[1].key, Get(l, source).lamports - env.rent(Get(l, source).len));
  }

  lemma UnwrapLamportsKeeps(env: Env, l: Ledger, accounts: seq<Meta>, requested: Option<u64>)
    requires TokensOk(env, l)
    requires UnwrapLamports(env, l, accounts, requested).Ok?
    ensures TokensOk(env, UnwrapLamports(env, l, accounts, requested).value)
  {
    var source, destination := accounts[0].key, accounts[1].key;
    var l' := UnwrapLamports(env, l, accounts, requested).value;
    assert SlotOk(env, source, Get(l, source));
    var a := Get(l, source).data.account;
    var amount := if requested.Some? then requested.value else a.base.amount;
    var spent := Spend(l, a.base, None, accounts[2], accounts[3..], amount, true).value;
    var slot := Get(l, source).(data := AccountData(TokenAccount(spent.(amount := a.base.amount - amount), a.ext)));
    QuietUpdate(env, l, source, slot);
    if amount != 0 && source != destination {
      MoveLamportsKeeps(env, l[source := slot], source, destination, amount);
    }
  }

  /** Nothing of any mint but the native one is left in a slot that may be closed. */
  lemma ClosableIsEmpty(env: Env, l: Ledger, source: Address, destination: Address, authority: Meta, signers: seq<Meta>)
    requires SlotOk(env, source, Get(l, source))
    requires MayClose(env, l, source, destination, authority, signers).Ok?
    ensures source != NATIVE_MINT && Quiet(Get(l, source), EMPTY_SLOT)
  {
  }

  lemma CloseSlotKeeps(env: Env, l: Ledger, accounts: seq<Meta>)
    requires TokensOk(env, l)
    requires CloseSlot(env, l, accounts).Ok?
    ensures TokensOk(env, CloseSlot(env, l, accounts).value)
  {
    var source, destination := accounts[0].key, accounts[1].key;
    assert SlotOk(env, source, Get(l, source));
    ClosableIsEmpty(env, l, source, destination, accounts[2], accounts[3..]);
    var lamports := Get(l, destination).lamports + Get(l, source).lamports;
    DepositKeeps(env, l, destination, lamports);
    QuietUpdate(env, PutLamports(l, destination, lamports), source, EMPTY_SLOT);
  }

  lemma CreateNativeMintKeeps(env: Env, l: Ledger, accounts: seq<Meta>)
    requires TokensOk(env, l)
    requires CreateNativeMint(env, l, accounts).Ok?
    ensures TokensOk(env, CreateNativeMint(env, l, accounts).value)
  {
    var payer := accounts[0].key;
    var l' := CreateNativeMint(env, l, accounts).value;
    var paid := Get(l', payer);
    assert SlotOk(env, payer, Get(l, payer));
    assert SlotOk(env, NATIVE_MINT, Get(l, NATIVE_MINT));
    QuietUpdate(env, l, payer, paid);
    QuietUpdate(env, l[payer := paid], NATIVE_MINT, l'[NATIVE_MINT]);
    assert l' == l[payer := paid][NATIVE_MINT := l'[NATIVE_MINT]];
  }

  // ---------------------------------------------------------------- tokens moved

  /** `l'` moves `amount` tokens of `mint` from one slot of `l` to another. */
  ghost predicate Moved(env: Env, l: Ledger, l': Ledger, source: Address, destination: Address, mint: Address, amount: u64) {
    && source != destination
    && l' == l[source := Get(l', source)][destination := Get(l', destination)]
    && Get(l, source).data.AccountData? && Get(l', source).data.AccountData?
    && Get(l, destination).data.AccountData? && Get(l', destination).data.AccountData?
    && SlotOk(env, source, Get(l', source)) && SlotOk(env, destination, Get(l', destination))
    && var (s, s', d, d') := (Get(l, source).data.account, Get(l', source).data.account,
                              Get(l, destination).data.account, Get(l', destination).data.account);
       && mint == s.base.mint == s'.base.mint == d.base.mint == d'.base.mint
       && !s.ext.nonTransferable
       && s.base.amount == s'.base.amount + amount
       && s'.ext == s.ext
       && d'.ext.(withheld := d.ext.withheld) == d.ext
       && HeldIn(Get(l', destination), mint) == HeldIn(Get(l, destination), mint) + amount
       && d'.base.amount <= d.base.amount + amount
  }

  /** The two slots a settlement writes. */
  lemma SettleWrites(l: Ledger, source: Address, destination: Address, debited: TokenAccount, credited: TokenAccount, amount: u64)
    requires source != destination && Settle(l, source, destination, debited, credited, amount).Ok?
    ensures var l' := Settle(l, source, destination, debited, credited, amount).value;
            var lamports := if debited.base.IsNative() then amount else 0;
            && l' == l[source := Get(l', source)][destination := Get(l', destination)]
            && lamports <= Get(l, source).lamports
            && Get(l', source) == Get(l, source).(data := AccountData(debited), lamports := Get(l, source).lamports - lamports)
            && Get(l', destination).(lamports := 0) == Get(l, destination).(data := AccountData(credited), lamports := 0)
            && Get(l', destination).lamports == Get(l, destination).lamports + lamports
  {
  }

  lemma CreditFacts(slot: Slot, mint: Address, amount: u64, fee: u64)
    requires TransferCredit(slot, mint, amount, fee).Ok?
    ensures slot.data.AccountData?
    ensures var d, d' := slot.data.account, TransferCredit(slot, mint, amount, fee).value;
            && fee <= amount
            && d.base.mint == mint
            && d' == TokenAccount(d.base.(amount := d.base.amount + (amount - fee)), d.ext.(withheld := d'.ext.withheld))
            && (fee == 0 ==> d'.ext.withheld == d.ext.withheld)
            && (fee > 0 ==> d.ext.withheld.Some? && d'.ext.withheld == Some(d.ext.withheld.value + fee))
  {
  }

  lemma SettleMoves(env: Env, l: Ledger, source: Address, destination: Address, spent: Account, credited: TokenAccount,
                    amount: u64, fee: u64)
    requires SlotsOk(env, l) && source != destination
    requires TransferSource(Get(l, source), amount).Ok?
    requires var src := Get(l, source).data.account;
             && (spent == src.base || (src.base.delegate.Some? && amount <= src.base.delegatedAmount && spent == DrawDown(src.base, amount)))
             && TransferCredit(Get(l, destination), src.base.mint, amount, fee) == Ok(credited)
             && (src.base.IsNative() ==> fee == 0)
    requires Settle(l, source, destination,
                    TokenAccount(spent.(amount := spent.amount - amount), Get(l, source).data.account.ext), credited, amount).Ok?
    ensures Moved(env, l, Settle(l, source, destination,
                    TokenAccount(spent.(amount := spent.amount - amount), Get(l, source).data.account.ext), credited, amount).value,
                  source, destination, spent.mint, amount)
  {
    SettleWrites(l, source, destination,
                 TokenAccount(spent.(amount := spent.amount - amount), Get(l, source).data.account.ext), credited, amount);
    CreditFacts(Get(l, destination), spent.mint, amount, fee);
    assert SlotOk(env, source, Get(l, source));
    assert SlotOk(env, destination, Get(l, destination));
  }

  /** A transfer that passes its checks settles an authorised debit and its credit. */
  lemma TransferParts(env: Env, l: Ledger, accounts: seq<Meta>, amount: u64, kind: TransferKind)
    returns (spent: Account, credited: TokenAccount, fee: u64)
    requires Transfer(env, l, accounts, amount, kind).Ok?
    requires accounts[0].key != TransferDestination(accounts, kind)
    ensures TransferSource(Get(l, accounts[0].key), amount).Ok?
    ensures var src := Get(l, accounts[0].key).data.account;
            && (spent == src.base || (src.base.delegate.Some? && amount <= src.base.delegatedAmount && spent == DrawDown(src.base, amount)))
            && TransferCredit(Get(l, TransferDestination(accounts, kind)), src.base.mint, amount, fee) == Ok(credited)
            && (fee > 0 ==> UnpackMint(Get(l, src.base.mint)).Ok? && UnpackMint(Get(l, src.base.mint)).value.ext.HasTransferFee())
            && Transfer(env, l, accounts, amount, kind) ==
               Settle(l, accounts[0].key, TransferDestination(accounts, kind),
                      TokenAccount(spent.(amount := spent.amount - amount), src.ext), credited, amount)
  {
    var src := TransferSource(Get(l, accounts[0].key), amount).value;
    var terms := TransferTerms(env, l, src, accounts[1].key, amount, kind).value;
    spent := AuthorizeTransfer(env, l, accounts, amount, kind, src, terms.fee, terms.permanentDelegate).value;
    fee := terms.fee;
    credited := TransferCredit(Get(l, TransferDestination(accounts, kind)), src.base.mint, amount, fee).value;
  }

  lemma TransferMoves(env: Env, l: Ledger, accounts: seq<Meta>, amount: u64, kind: TransferKind)
    requires SlotsOk(env, l)
    requires Transfer(env, l, accounts, amount, kind).Ok?
    requires accounts[0].key != TransferDestination(accounts, kind)
    ensures Get(l, accounts[0].key).data.AccountData?
    ensures Moved(env, l, Transfer(env, l, accounts, amount, kind).value, accounts[0].key, TransferDestination(accounts, kind),
                  Get(l, accounts[0].key).data.account.base.mint, amount)
  {
    var source, destination := accounts[0].key, TransferDestination(accounts, kind);
    var spent, credited, fee := TransferParts(env, l, accounts, amount, kind);
    assert SlotOk(env, source, Get(l, source));
    assert SlotOk(env, NATIVE_MINT, Get(l, NATIVE_MINT));
    SettleMoves(env, l, source, destination, spent, credited, amount, fee);
  }

  lemma MovedKeeps(env: Env, l: Ledger, l': Ledger, source: Address, destination: Address, mint: Address, amount: u64)
    requires TokensOk(env, l) && Moved(env, l, l', source, destination, mint, amount)
    ensures TokensOk(env, l')
  {
    forall key ensures SlotOk(env, key, Get(l', key)) { assert SlotOk(env, key, Get(l, key)); }
    forall m | m != NATIVE_MINT ensures Held(l', m) == SupplyIn(Get(l', m)) {
      HeldUpdate(l, source, Get(l', source), m);
      HeldUpdate(l[source := Get(l', source)], destination, Get(l', destination), m);
    }
    LockedAfter(env, l, l');
  }

  lemma TransferKeeps(env: Env, l: Ledger, accounts: seq<Meta>, amount: u64, kind: TransferKind)
    requires TokensOk(env, l)
    requires Transfer(env, l, accounts, amount, kind).Ok?
    ensures TokensOk(env, Transfer(env, l, accounts, amount, kind).value)
  {
    if accounts[0].key != TransferDestination(accounts, kind) {
      TransferMoves(env, l, accounts, amount, kind);
      MovedKeeps(env, l, Transfer(env, l, accounts, amount, kind).value, accounts[0].key, TransferDestination(accounts, kind),
                 Get(l, accounts[0].key).data.account.base.mint, amount);
    }
  }

  /** `l'` changes the balance of one account and its mint's supply by `delta`. */
  ghost predicate Issued(env: Env, l: Ledger, l': Ledger, account: Address, mint: Address, delta: int) {
    && account != mint && mint != NATIVE_MINT
    && l' == l[account := Get(l', account)][mint := Get(l', mint)]
    && Get(l, account).data.AccountData? && Get(l', account).data.AccountData?
    && Get(l, mint).data.MintData? && Get(l', mint).data.MintData?
    && SlotOk(env, account, Get(l', account)) && SlotOk(env, mint, Get(l', mint))
    && Get(l', mint).data.mint.ext == Get(l, mint).data.mint.ext
    && Get(l', mint).data.mint.base.supply == Get(l, mint).data.mint.base.supply + delta
    && var a, a' := Get(l, account).data.account, Get(l', account).data.account;
       && mint == a.base.mint == a'.base.mint
       && a'.ext == a.ext
       && a'.base.amount == a.base.amount + delta
       && (delta > 0 && Get(l, mint).data.mint.ext.nonTransferable ==> Locked(Get(l, account)))
  }

  lemma IssuedKeeps(env: Env, l: Ledger, l': Ledger, account: Address, mint: Address, delta: int)
    requires TokensOk(env, l) && Issued(env, l, l', account, mint, delta)
    ensures TokensOk(env, l')
  {
    forall key ensures SlotOk(env, key, Get(l', key)) { assert SlotOk(env, key, Get(l, key)); }
    forall m | m != NATIVE_MINT ensures Held(l', m) == SupplyIn(Get(l', m)) {
      HeldUpdate(l, account, Get(l', account), m);
      HeldUpdate(l[account := Get(l', account)], mint, Get(l', mint), m);
    }
    LockedAfter(env, l, l');
  }

  lemma MintToIssues(env: Env, l: Ledger, accounts: seq<Meta>, amount: u64, decimals: Option<u8>)
    requires SlotsOk(env, l)
    requires MintTo(l, accounts, amount, decimals).Ok?
    ensures Issued(env, l, MintTo(l, accounts, amount, decimals).value, accounts[1].key, accounts[0].key, amount)
  {
    assert SlotOk(env, accounts[0].key, Get(l, accounts[0].key));
    assert SlotOk(env, accounts[1].key, Get(l, accounts[1].key));
  }

  lemma BurnIssues(env: Env, l: Ledger, accounts: seq<Meta>, amount: u64, permissioned: bool, decimals: Option<u8>)
    requires SlotsOk(env, l)
    requires Burn(env, l, accounts, amount, permissioned, decimals).Ok?
    ensures Issued(env, l, Burn(env, l, accounts, amount, permissioned, decimals).value, accounts[0].key, accounts[1].key, -(amount as int))
  {
    assert SlotOk(env, accounts[0].key, Get(l, accounts[0].key));
    assert SlotOk(env, accounts[1].key, Get(l, accounts[1].key));
  }

  // ---------------------------------------------------------------- every instruction

  lemma ApplyKeepsTokens(env: Env, l: Ledger, accounts: seq<Meta>, op: Operation)
    requires TokensOk(env, l)
    requires Apply(env, l, accounts, op).Ok?
    ensures TokensOk(env, Apply(env, l, accounts, op).value)
  {
    match op
    case OpInitializeMint(decimals, auth, freeze, rent) => InitializeMintKeeps(env, l, accounts, decimals, auth, freeze, rent);
    case OpInitializeAccount(owner, rent) => InitializeAccountKeeps(env, l, accounts, owner, rent);
    case OpInitializeMultisig(m, rent) => InitializeMultisigKeeps(env, l, accounts, m, rent);
    case OpTransfer(amount, kind) => TransferKeeps(env, l, accounts, amount, kind);
    case OpApprove(amount, checked) => ApproveKeeps(env, l, accounts, amount, checked);
    case OpRevoke => RevokeKeeps(env, l, accounts);
    case OpSetAuthority(kind, auth) => SetAuthorityKeeps(env, l, accounts, kind, auth);
    case OpMintTo(amount, checked) =>
      MintToIssues(env, l, accounts, amount, checked);
      IssuedKeeps(env, l, MintTo(l, accounts, amount, checked).value, accounts[1].key, accounts[0].key, amount);
    case OpBurn(amount, permissioned, checked) =>
      BurnIssues(env, l, accounts, amount, permissioned, checked);
      IssuedKeeps(env, l, Burn(env, l, accounts, amount, permissioned, checked).value, accounts[0].key, accounts[1].key, -(amount as int));
    case OpCloseAccount => CloseSlotKeeps(env, l, accounts);
    case OpToggleFreeze(freeze) => ToggleFreezeKeeps(env, l, accounts, freeze);
    case OpSyncNative => SyncNativeKeeps(env, l, accounts);
    case OpWithdrawExcessLamports => WithdrawExcessLamportsKeeps(env, l, accounts);
    case OpUnwrapLamports(requested) => UnwrapLamportsKeeps(env, l, accounts, requested);
    case OpCreateNativeMint => CreateNativeMintKeeps(env, l, accounts);
  }
}
