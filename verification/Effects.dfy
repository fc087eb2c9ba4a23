/** When each instruction succeeds, and what it then leaves: conditions on the ledger and the
    account list, in no particular order, and the slots that change. */
module Effects {
  import opened Base
  import opened State
  import opened Authority
  import opened Processor

  // ---------------------------------------------------------------- what stands at a key

  predicate IsAccount(l: Ledger, key: Address) {
    var slot := Get(l, key);
    && slot.program == Token2022 && slot.len >= 165 && slot.len != 355
    && slot.data.AccountData? && !slot.data.account.base.state.Uninitialized?
  }

  function AccountOf(l: Ledger, key: Address): TokenAccount
    requires IsAccount(l, key)
  {
    Get(l, key).data.account
  }

  predicate IsMint(l: Ledger, key: Address) {
    var slot := Get(l, key);
    && slot.program == Token2022 && slot.len >= 82 && slot.len != 355
    && slot.data.MintData? && slot.data.mint.base.isInitialized
  }

  function MintOf(l: Ledger, key: Address): TokenMint
    requires IsMint(l, key)
  {
    Get(l, key).data.mint
  }

  predicate IsOurs(l: Ledger, key: Address) {
    Get(l, key).program == Token2022
  }

  /** The rent is looked up in the account list, and is the rent there. */
  predicate RentIsAt(accounts: seq<Meta>, i: nat, fromAccount: bool) {
    fromAccount ==> i < |accounts| && accounts[i].key == RENT_SYSVAR
  }

  predicate Guarded(env: Env, a: TokenAccount) {
    a.ext.lockCpi && env.inCpi
  }

  /** The slot at `key` is now `slot`, and no other slot changed. */
  predicate OnlyChange(l: Ledger, l': Ledger, key: Address, slot: Slot) {
    l' == l[key := slot]
  }

  predicate OnlyChanges(l: Ledger, l': Ledger, first: Address, slot: Slot, second: Address, slot': Slot) {
    l' == l[first := slot][second := slot']
  }

  // ---------------------------------------------------------------- initialisation

  predicate FreshForMint(slot: Slot) {
    slot.program == Token2022 && slot.len >= 82 && slot.len != 355 && slot.data.Fresh? && !slot.data.tlv.ImmutableOwnerTlv?
  }

  function ChosenExtensions(slot: Slot): MintExt
    requires FreshForMint(slot)
  {
    if slot.data.tlv.MintTlv? then slot.data.tlv.ext else PLAIN_MINT_EXT
  }

  lemma InitializeMintExactly(env: Env, l: Ledger, accounts: seq<Meta>, decimals: u8, mintAuthority: Address,
                              freezeAuthority: Option<Address>, rentAccount: bool)
    ensures InitializeMint(env, l, accounts, decimals, mintAuthority, freezeAuthority, rentAccount).Ok? <==>
            && |accounts| > 0 && RentIsAt(accounts, 1, rentAccount)
            && var slot := Get(l, accounts[0].key);
               && FreshForMint(slot) && slot.lamports >= env.rent(slot.len) && slot.len == env.mintLen(ChosenExtensions(slot))
               && (freezeAuthority.None? ==> ChosenExtensions(slot).defaultState != Some(Frozen))
    ensures InitializeMint(env, l, accounts, decimals, mintAuthority, freezeAuthority, rentAccount).Ok? ==>
              var slot := Get(l, accounts[0].key);
              OnlyChange(l, InitializeMint(env, l, accounts, decimals, mintAuthority, freezeAuthority, rentAccount).value,
                         accounts[0].key,
                         slot.(data := MintData(TokenMint(Mint(Some(mintAuthority), 0, decimals, true, freezeAuthority),
                                                          ChosenExtensions(slot)))))
  {
  }

  predicate FreshForAccount(slot: Slot) {
    slot.program == Token2022 && slot.len >= 165 && slot.len != 355 && slot.data.Fresh? && !slot.data.tlv.MintTlv?
  }

  /** A new account of a mint: its owner, the mint's default state, the marks of the mint's
      extensions, and nothing in it, unless it is native and holds the lamports above its reserve. */
  predicate IsNewAccount(env: Env, slot: Slot, a: TokenAccount, mint: Address, m: TokenMint, owner: Address) {
    && a.base.mint == mint && a.base.owner == owner
    && a.base.state == (if m.ext.defaultState == None then Initialized else m.ext.defaultState.value)
    && a.base.delegate == None && a.base.delegatedAmount == 0 && a.base.closeAuthority == None
    && (mint == NATIVE_MINT ==> a.base.isNative == Some(env.rent(slot.len)) && a.base.amount + env.rent(slot.len) == slot.lamports)
    && (mint != NATIVE_MINT ==> a.base.isNative == None && a.base.amount == 0)
    && a.ext.withheld == (if TransferFeeConfig in m.ext.authorities then Some(0) else None)
    && a.ext.transferHook == (TransferHookProgramId in m.ext.authorities)
    && a.ext.pausable == (Pause in m.ext.authorities)
    && a.ext.nonTransferable == m.ext.nonTransferable
    && a.ext.immutableOwner == (m.ext.nonTransferable || (slot.data.Fresh? && slot.data.tlv == ImmutableOwnerTlv))
    && !a.ext.lockCpi
  }

  /** The owner is the given one, or else the third account listed. */
  lemma InitializeAccountExactly(env: Env, l: Ledger, accounts: seq<Meta>, given: Option<Address>, rentAccount: bool)
    ensures InitializeAccount(env, l, accounts, given, rentAccount).Ok? <==>
            && |accounts| >= (if given == None then 3 else 2)
            && RentIsAt(accounts, if given == None then 3 else 2, rentAccount)
            && var slot := Get(l, accounts[0].key);
               && FreshForAccount(slot) && slot.lamports >= env.rent(slot.len)
               && IsMint(l, accounts[1].key) && env.accountLen(MintOf(l, accounts[1].key).ext) <= slot.len
    ensures InitializeAccount(env, l, accounts, given, rentAccount).Ok? ==>
              var l', key, slot := InitializeAccount(env, l, accounts, given, rentAccount).value, accounts[0].key, Get(l, accounts[0].key);
              && Get(l', key).data.AccountData? && OnlyChange(l, l', key, slot.(data := Get(l', key).data))
              && IsNewAccount(env, slot, Get(l', key).data.account, accounts[1].key, MintOf(l, accounts[1].key),
                              if given == None then accounts[2].key else given.value)
  {
  }

  /** Signers are all accounts listed after the record, and after the rent sysvar if it is asked for. */
  lemma InitializeMultisigExactly(env: Env, l: Ledger, accounts: seq<Meta>, m: u8, rentAccount: bool)
    ensures InitializeMultisig(env, l, accounts, m, rentAccount).Ok? <==>
            && |accounts| > 0 && RentIsAt(accounts, 1, rentAccount)
            && var slot, first := Get(l, accounts[0].key), if rentAccount then 2 else 1;
               && slot.program == Token2022 && slot.len == 355 && slot.lamports >= env.rent(355)
               && !(slot.data.MultisigData? && slot.data.multisig.isInitialized)
               && 1 <= |accounts| - first <= 11 && 1 <= m <= 11
    ensures InitializeMultisig(env, l, accounts, m, rentAccount).Ok? ==>
              var l', key := InitializeMultisig(env, l, accounts, m, rentAccount).value, accounts[0].key;
              var first := if rentAccount then 2 else 1;
              && Get(l', key).data.MultisigData? && OnlyChange(l, l', key, Get(l, key).(data := Get(l', key).data))
              && var ms := Get(l', key).data.multisig;
                 && ms.m == m && ms.n == |accounts| - first && ms.isInitialized
                 && (forall i | 0 <= i < ms.n :: i < |ms.signers| && first + i < |accounts| && ms.signers[i] == accounts[first + i].key)
                 && (forall i | ms.n <= i < |ms.signers| :: ms.signers[i] == SYSTEM_PROGRAM)
  {
  }

  lemma CreateNativeMintExactly(env: Env, l: Ledger, accounts: seq<Meta>)
    ensures CreateNativeMint(env, l, accounts).Ok? <==>
            && |accounts| >= 3 && accounts[1].key == NATIVE_MINT && accounts[0].isSigner && accounts[0].key != NATIVE_MINT
            && Get(l, accounts[0].key).program == Other && Get(l, NATIVE_MINT).program == Other && Get(l, NATIVE_MINT).len == 0
            && Get(l, accounts[0].key).lamports + Get(l, NATIVE_MINT).lamports >= env.rent(82)
    ensures CreateNativeMint(env, l, accounts).Ok? ==>
              var l' := CreateNativeMint(env, l, accounts).value;
              var payer, have := Get(l, accounts[0].key), Get(l, NATIVE_MINT).lamports;
              var now := Get(l', NATIVE_MINT).lamports;
              && now == (if have < env.rent(82) then env.rent(82) else have)
              && now - have <= payer.lamports
              && OnlyChanges(l, l', accounts[0].key, payer.(lamports := payer.lamports - (now - have)), NATIVE_MINT,
                             Slot(Token2022, now, 82, MintData(TokenMint(Mint(None, 0, 9, true, None), PLAIN_MINT_EXT))))
  {
  }

  // ---------------------------------------------------------------- taking tokens out

  /** The authority at `i` may take `amount`: the permanent delegate comes first, then the
      account's own delegate, who needs the allowance, and anybody else must be the owner. */
  predicate MayTake(l: Ledger, a: Account, permanent: Option<Address>, accounts: seq<Meta>, i: nat, amount: u64) {
    && i < |accounts|
    && if permanent == Some(accounts[i].key) then Signed(l, permanent, accounts, i)
       else if a.delegate == Some(accounts[i].key) then Signed(l, a.delegate, accounts, i) && amount <= a.delegatedAmount
       else Signed(l, Some(a.owner), accounts, i)
  }

  /** It is the account's own delegate that takes. */
  predicate ByOwnDelegate(a: Account, permanent: Option<Address>, authority: Address) {
    permanent != Some(authority) && a.delegate == Some(authority)
  }

  /** The allowance after `amount` was taken, and whose it still is. */
  function Less(a: Account, permanent: Option<Address>, authority: Address, amount: u64): Account
    requires amount <= a.amount
    requires ByOwnDelegate(a, permanent, authority) ==> amount <= a.delegatedAmount
  {
    if ByOwnDelegate(a, permanent, authority)
    then a.(amount := a.amount - amount, delegatedAmount := a.delegatedAmount - amount,
            delegate := if a.delegatedAmount == amount then None else a.delegate)
    else a.(amount := a.amount - amount)
  }

  lemma SpendExactly(l: Ledger, a: Account, permanent: Option<Address>, accounts: seq<Meta>, i: nat, amount: u64, consume: bool)
    requires i < |accounts| && amount <= a.amount
    ensures Spend(l, a, permanent, accounts[i], accounts[i + 1..], amount, consume).Ok? <==> MayTake(l, a, permanent, accounts, i, amount)
    ensures MayTake(l, a, permanent, accounts, i, amount) ==>
              Spend(l, a, permanent, accounts[i], accounts[i + 1..], amount, consume).value.(amount := a.amount - amount)
              == if consume then Less(a, permanent, accounts[i].key, amount) else a.(amount := a.amount - amount)
  {
  }

  // ---------------------------------------------------------------- transfer

  /** What the mint says: its decimals, no pause, a fee that can be calculated and is the one
      stated, if one is. Without the mint, no mark of an extension on the source. */
  predicate MintAgrees(env: Env, l: Ledger, src: TokenAccount, mintKey: Address, amount: u64, kind: TransferKind) {
    if kind.Unchecked? then !src.ext.transferHook && src.ext.withheld == None && !src.ext.pausable
    else
      && src.base.mint == mintKey && IsMint(l, mintKey)
      && var m := MintOf(l, mintKey);
         && m.base.decimals == kind.decimals
         && !(Pause in m.ext.authorities && m.ext.paused)
         && (TransferFeeConfig in m.ext.authorities ==> env.epochFee(mintKey, amount) != None)
         && (kind.CheckedWithFee? ==> kind.fee == FeeOf(env, m, mintKey, amount))
  }

  /** The fee a mint charges for an amount: the epoch's, if it charges any. */
  function FeeOf(env: Env, m: TokenMint, mintKey: Address, amount: u64): u64 {
    if TransferFeeConfig in m.ext.authorities && env.epochFee(mintKey, amount) != None then env.epochFee(mintKey, amount).value else 0
  }

  function FeeTaken(env: Env, l: Ledger, mintKey: Address, amount: u64, kind: TransferKind): u64 {
    if kind.Unchecked? || !IsMint(l, mintKey) then 0 else FeeOf(env, MintOf(l, mintKey), mintKey, amount)
  }

  function PermanentlyDelegated(l: Ledger, mintKey: Address, kind: TransferKind): Option<Address> {
    if kind.Unchecked? || !IsMint(l, mintKey) then None else MintOf(l, mintKey).ext.Authority(PermanentDelegate)
  }

  predicate CanSend(src: TokenAccount, amount: u64) {
    src.base.state != Frozen && amount <= src.base.amount && !src.ext.nonTransferable
  }

  predicate CanReceive(dst: TokenAccount, mint: Address, amount: u64, fee: u64) {
    && dst.base.state != Frozen && dst.base.mint == mint && fee <= amount
    && dst.base.amount + amount - fee <= U64_MAX
    && (fee > 0 ==> dst.ext.withheld != None && dst.ext.withheld.value + fee <= U64_MAX)
  }

  function Received(dst: TokenAccount, amount: u64, fee: u64): TokenAccount
    requires CanReceive(dst, dst.base.mint, amount, fee)
  {
    TokenAccount(dst.base.(amount := dst.base.amount + amount - fee),
                 if fee > 0 then dst.ext.(withheld := Some(dst.ext.withheld.value + fee)) else dst.ext)
  }

  function DestinationIndex(kind: TransferKind): nat {
    if kind.Unchecked? then 1 else 2
  }

  lemma TermsExactly(env: Env, l: Ledger, src: TokenAccount, mintKey: Address, amount: u64, kind: TransferKind)
    ensures MintAgrees(env, l, src, mintKey, amount, kind) <==>
            && TransferTerms(env, l, src, mintKey, amount, kind).Ok?
            && (kind.CheckedWithFee? ==> kind.fee == TransferTerms(env, l, src, mintKey, amount, kind).value.fee)
    ensures TransferTerms(env, l, src, mintKey, amount, kind).Ok? ==>
              TransferTerms(env, l, src, mintKey, amount, kind).value
              == Terms(FeeTaken(env, l, mintKey, amount, kind), PermanentlyDelegated(l, mintKey, kind))
  {
  }

  lemma CreditExactly(l: Ledger, destination: Address, mint: Address, amount: u64, fee: u64)
    requires IsOurs(l, destination)
    ensures TransferCredit(Get(l, destination), mint, amount, fee).Ok? <==>
            IsAccount(l, destination) && CanReceive(AccountOf(l, destination), mint, amount, fee)
    ensures TransferCredit(Get(l, destination), mint, amount, fee).Ok? ==>
              TransferCredit(Get(l, destination), mint, amount, fee).value == Received(AccountOf(l, destination), amount, fee)
  {
  }

  /** The lamports that go along with native tokens. */
  function Along(a: Account, amount: u64): u64 {
    if a.isNative == None then 0 else amount
  }

  lemma SettleExactly(l: Ledger, source: Address, destination: Address, debited: TokenAccount, credited: TokenAccount, amount: u64)
    requires source != destination
    ensures var x := Along(debited.base, amount);
            Settle(l, source, destination, debited, credited, amount).Ok? <==>
            x <= Get(l, source).lamports && Get(l, destination).lamports + x <= U64_MAX
    ensures Settle(l, source, destination, debited, credited, amount).Ok? ==>
              var x := Along(debited.base, amount);
              OnlyChanges(l, Settle(l, source, destination, debited, credited, amount).value,
                          source, Get(l, source).(data := AccountData(debited), lamports := Get(l, source).lamports - x),
                          destination, Get(l, destination).(data := AccountData(credited), lamports := Get(l, destination).lamports + x))
  {
    if Settle(l, source, destination, debited, credited, amount).Ok? {
      var x := Along(debited.base, amount);
      assert Settle(l, source, destination, debited, credited, amount).value
          == l[source := Get(l, source).(data := AccountData(debited), lamports := Get(l, source).lamports - x)]
              [destination := Get(l, destination).(data := AccountData(credited), lamports := Get(l, destination).lamports + x)];
    }
  }

  /** A transfer may go ahead as far as its source, its mint and its authority are concerned. */
  predicate MaySend(env: Env, l: Ledger, accounts: seq<Meta>, amount: u64, kind: TransferKind) {
    var d := DestinationIndex(kind);
    && |accounts| >= d + 2
    && IsAccount(l, accounts[0].key) && IsOurs(l, accounts[d].key)
    && var src := AccountOf(l, accounts[0].key);
       && CanSend(src, amount) && MintAgrees(env, l, src, accounts[1].key, amount, kind)
       && !(Guarded(env, src) && accounts[d + 1].key == src.base.owner)
       && MayTake(l, src.base, PermanentlyDelegated(l, accounts[1].key, kind), accounts, d + 1, amount)
  }

  /** A transfer to another account may go ahead altogether. */
  predicate MayArrive(env: Env, l: Ledger, accounts: seq<Meta>, amount: u64, kind: TransferKind)
    requires MaySend(env, l, accounts, amount, kind)
  {
    var src, destination := AccountOf(l, accounts[0].key), accounts[DestinationIndex(kind)].key;
    && IsAccount(l, destination)
    && CanReceive(AccountOf(l, destination), src.base.mint, amount, FeeTaken(env, l, accounts[1].key, amount, kind))
    && Along(src.base, amount) <= Get(l, accounts[0].key).lamports
    && Get(l, destination).lamports + Along(src.base, amount) <= U64_MAX
  }

  lemma SourceExactly(slot: Slot, amount: u64)
    ensures TransferSource(slot, amount).Ok? <==>
            && slot.len >= 165 && slot.len != 355 && slot.data.AccountData? && !slot.data.account.base.state.Uninitialized?
            && CanSend(slot.data.account, amount)
    ensures TransferSource(slot, amount).Ok? ==> TransferSource(slot, amount).value == slot.data.account
  {
  }

  /** The checks on the way to the destination, all of them. */
  lemma AuthorizeExactly(env: Env, l: Ledger, accounts: seq<Meta>, amount: u64, kind: TransferKind)
    requires var d := DestinationIndex(kind); |accounts| >= d + 2
    requires IsAccount(l, accounts[0].key) && CanSend(AccountOf(l, accounts[0].key), amount)
    requires TransferTerms(env, l, AccountOf(l, accounts[0].key), accounts[1].key, amount, kind).Ok?
    ensures var d, src := DestinationIndex(kind), AccountOf(l, accounts[0].key);
            var fee, permanent := FeeTaken(env, l, accounts[1].key, amount, kind), PermanentlyDelegated(l, accounts[1].key, kind);
            var r := AuthorizeTransfer(env, l, accounts, amount, kind, src, fee, permanent);
            && (r.Ok? <==>
                  && (kind.CheckedWithFee? ==> kind.fee == fee) && !(Guarded(env, src) && accounts[d + 1].key == src.base.owner)
                  && MayTake(l, src.base, permanent, accounts, d + 1, amount))
            && (r.Ok? && accounts[0].key != accounts[d].key ==>
                  r.value.(amount := src.base.amount - amount) == Less(src.base, permanent, accounts[d + 1].key, amount))
  {
    var d, src := DestinationIndex(kind), AccountOf(l, accounts[0].key);
    SpendExactly(l, src.base, PermanentlyDelegated(l, accounts[1].key, kind), accounts, d + 1, amount,
                 accounts[0].key != accounts[d].key);
  }

  /** The transfer up to the point where it looks at its destination. */
  function Prepared(env: Env, l: Ledger, accounts: seq<Meta>, amount: u64, kind: TransferKind): Result<(TokenAccount, u64, Account)>
    requires |accounts| >= if kind.Unchecked? then 3 else 4
  {
    var _ :- CheckProgram(Get(l, accounts[0].key));
    var _ :- CheckProgram(Get(l, TransferDestination(accounts, kind)));
    var src :- TransferSource(Get(l, accounts[0].key), amount);
    var terms :- TransferTerms(env, l, src, accounts[1].key, amount, kind);
    var spent :- AuthorizeTransfer(env, l, accounts, amount, kind, src, terms.fee, terms.permanentDelegate);
    Ok((src, terms.fee, spent))
  }

  /** And from there on. */
  function Completed(l: Ledger, source: Address, destination: Address, amount: u64, src: TokenAccount, fee: u64, spent: Account): Result<Ledger> {
    if source == destination then Ok(l)
    else
      var credited :- TransferCredit(Get(l, destination), src.base.mint, amount, fee);
      var _ :- Need(amount <= src.base.amount, InsufficientFunds);
      Settle(l, source, destination, TokenAccount(spent.(amount := src.base.amount - amount), src.ext), credited, amount)
  }

  lemma PreparedAndCompleted(env: Env, l: Ledger, accounts: seq<Meta>, amount: u64, kind: TransferKind)
    requires |accounts| >= if kind.Unchecked? then 3 else 4
    ensures Prepared(env, l, accounts, amount, kind).Ok? ==>
              var (src, fee, spent) := Prepared(env, l, accounts, amount, kind).value;
              Get(l, accounts[0].key).data == AccountData(src) && amount <= src.base.amount
              && Transfer(env, l, accounts, amount, kind)
              == Completed(l, accounts[0].key, TransferDestination(accounts, kind), amount, src, fee, spent)
    ensures Prepared(env, l, accounts, amount, kind).Err? ==>
              Transfer(env, l, accounts, amount, kind) == Prepared(env, l, accounts, amount, kind).PropagateFailure<Ledger>()
  {
  }

  lemma PreparedExactly(env: Env, l: Ledger, accounts: seq<Meta>, amount: u64, kind: TransferKind)
    requires |accounts| >= DestinationIndex(kind) + 2
    ensures Prepared(env, l, accounts, amount, kind).Ok? <==> MaySend(env, l, accounts, amount, kind)
    ensures MaySend(env, l, accounts, amount, kind) ==>
              var (src, fee, spent) := Prepared(env, l, accounts, amount, kind).value;
              var d, permanent := DestinationIndex(kind), PermanentlyDelegated(l, accounts[1].key, kind);
              && src == AccountOf(l, accounts[0].key) && fee == FeeTaken(env, l, accounts[1].key, amount, kind)
              && (accounts[0].key != accounts[d].key ==>
                    spent.(amount := src.base.amount - amount) == Less(src.base, permanent, accounts[d + 1].key, amount))
  {
    SourceExactly(Get(l, accounts[0].key), amount);
    if TransferSource(Get(l, accounts[0].key), amount).Ok? && IsAccount(l, accounts[0].key) {
      TermsExactly(env, l, AccountOf(l, accounts[0].key), accounts[1].key, amount, kind);
      if TransferTerms(env, l, AccountOf(l, accounts[0].key), accounts[1].key, amount, kind).Ok? {
        AuthorizeExactly(env, l, accounts, amount, kind);
      }
    }
  }

  lemma TooFewAccounts(env: Env, l: Ledger, accounts: seq<Meta>, amount: u64, kind: TransferKind)
    requires |accounts| < DestinationIndex(kind) + 2
    ensures Transfer(env, l, accounts, amount, kind).Err?
  {
  }

  /** A transfer onto the same account changes nothing, and needs all that concerns its source. */
  lemma SelfTransferExactly(env: Env, l: Ledger, accounts: seq<Meta>, amount: u64, kind: TransferKind)
    requires |accounts| > DestinationIndex(kind) && accounts[0].key == accounts[DestinationIndex(kind)].key
    ensures Transfer(env, l, accounts, amount, kind).Ok? <==> MaySend(env, l, accounts, amount, kind)
    ensures Transfer(env, l, accounts, amount, kind).Ok? ==> Transfer(env, l, accounts, amount, kind).value == l
  {
    if |accounts| >= DestinationIndex(kind) + 2 {
      PreparedAndCompleted(env, l, accounts, amount, kind);
      PreparedExactly(env, l, accounts, amount, kind);
    } else {
      TooFewAccounts(env, l, accounts, amount, kind);
    }
  }

  /** The source after a transfer. */
  function Sent(l: Ledger, accounts: seq<Meta>, amount: u64, kind: TransferKind): TokenAccount
    requires |accounts| >= DestinationIndex(kind) + 2 && IsAccount(l, accounts[0].key)
    requires var src, authority := AccountOf(l, accounts[0].key).base, accounts[DestinationIndex(kind) + 1].key;
             amount <= src.amount && (ByOwnDelegate(src, PermanentlyDelegated(l, accounts[1].key, kind), authority) ==> amount <= src.delegatedAmount)
  {
    var src := AccountOf(l, accounts[0].key);
    TokenAccount(Less(src.base, PermanentlyDelegated(l, accounts[1].key, kind), accounts[DestinationIndex(kind) + 1].key, amount), src.ext)
  }

  /** A transfer to another account takes `amount` from the source on the right authority,
      and gives the destination all of it but the fee, which it is made to withhold. */
  lemma TransferExactly(env: Env, l: Ledger, accounts: seq<Meta>, amount: u64, kind: TransferKind)
    requires |accounts| > DestinationIndex(kind) ==> accounts[0].key != accounts[DestinationIndex(kind)].key
    ensures Transfer(env, l, accounts, amount, kind).Ok? <==>
            MaySend(env, l, accounts, amount, kind) && MayArrive(env, l, accounts, amount, kind)
    ensures Transfer(env, l, accounts, amount, kind).Ok? ==>
              var source, destination := accounts[0].key, accounts[DestinationIndex(kind)].key;
              var x := Along(AccountOf(l, source).base, amount);
              OnlyChanges(l, Transfer(env, l, accounts, amount, kind).value,
                source, Get(l, source).(data := AccountData(Sent(l, accounts, amount, kind)), lamports := Get(l, source).lamports - x),
                destination, Get(l, destination).(data := AccountData(Received(AccountOf(l, destination), amount, FeeTaken(env, l, accounts[1].key, amount, kind))),
                                                  lamports := Get(l, destination).lamports + x))
  {
    if |accounts| >= DestinationIndex(kind) + 2 {
      PreparedAndCompleted(env, l, accounts, amount, kind);
      PreparedExactly(env, l, accounts, amount, kind);
      if MaySend(env, l, accounts, amount, kind) {
        var source, destination := accounts[0].key, accounts[DestinationIndex(kind)].key;
        var (src, fee, spent) := Prepared(env, l, accounts, amount, kind).value;
        CompletedExactly(l, source, destination, amount, src, fee, spent);
      }
    } else {
      TooFewAccounts(env, l, accounts, amount, kind);
    }
  }

  lemma CompletedExactly(l: Ledger, source: Address, destination: Address, amount: u64, src: TokenAccount, fee: u64, spent: Account)
    requires source != destination && IsOurs(l, destination) && amount <= src.base.amount && spent.isNative == src.base.isNative
    ensures var x := Along(src.base, amount);
            Completed(l, source, destination, amount, src, fee, spent).Ok? <==>
            && IsAccount(l, destination) && CanReceive(AccountOf(l, destination), src.base.mint, amount, fee)
            && x <= Get(l, source).lamports && Get(l, destination).lamports + x <= U64_MAX
    ensures Completed(l, source, destination, amount, src, fee, spent).Ok? ==>
              var x, debited := Along(src.base, amount), TokenAccount(spent.(amount := src.base.amount - amount), src.ext);
              OnlyChanges(l, Completed(l, source, destination, amount, src, fee, spent).value,
                source, Get(l, source).(data := AccountData(debited), lamports := Get(l, source).lamports - x),
                destination, Get(l, destination).(data := AccountData(Received(AccountOf(l, destination), amount, fee)),
                                                  lamports := Get(l, destination).lamports + x))
  {
    CreditExactly(l, destination, src.base.mint, amount, fee);
    if TransferCredit(Get(l, destination), src.base.mint, amount, fee).Ok? {
      SettleExactly(l, source, destination, TokenAccount(spent.(amount := src.base.amount - amount), src.ext),
                    Received(AccountOf(l, destination), amount, fee), amount);
    }
  }

  // ---------------------------------------------------------------- minting and burning

  predicate DecimalsAgree(m: TokenMint, checked: Option<u8>) {
    checked != None ==> checked.value == m.base.decimals
  }

  /** The mint lets plain tokens be issued and burnt now. */
  predicate Issuable(m: TokenMint) {
    !(Pause in m.ext.authorities && m.ext.paused) && !m.ext.confidentialMintBurn
  }

  lemma MintToExactly(l: Ledger, accounts: seq<Meta>, amount: u64, checked: Option<u8>)
    ensures MintTo(l, accounts, amount, checked).Ok? <==>
            && |accounts| >= 3 && IsMint(l, accounts[0].key) && IsAccount(l, accounts[1].key)
            && var m, dst := MintOf(l, accounts[0].key), AccountOf(l, accounts[1].key);
               && dst.base.mint == accounts[0].key && dst.base.state != Frozen && dst.base.isNative == None
               && (m.ext.nonTransferable ==> dst.ext.immutableOwner && dst.ext.nonTransferable)
               && Issuable(m) && DecimalsAgree(m, checked) && Signed(l, m.base.mintAuthority, accounts, 2)
               && dst.base.amount + amount <= U64_MAX && m.base.supply + amount <= U64_MAX
    ensures MintTo(l, accounts, amount, checked).Ok? ==>
              var m, dst := MintOf(l, accounts[0].key), AccountOf(l, accounts[1].key);
              OnlyChanges(l, MintTo(l, accounts, amount, checked).value,
                accounts[1].key, Get(l, accounts[1].key).(data := AccountData(dst.(base := dst.base.(amount := dst.base.amount + amount)))),
                accounts[0].key, Get(l, accounts[0].key).(data := MintData(m.(base := m.base.(supply := m.base.supply + amount)))))
  {
  }

  /** A burn of a mint with a burn authority needs that authority's own signature, on the
      variant that names it; a mint without one needs the other variant. */
  predicate BurnApproved(m: TokenMint, accounts: seq<Meta>, permissioned: bool) {
    if permissioned then |accounts| > 2 && accounts[2].isSigner && m.ext.Authority(PermissionedBurn) == Some(accounts[2].key)
    else m.ext.Authority(PermissionedBurn) == None
  }

  predicate IsUnowned(a: Account) {
    a.owner == SYSTEM_PROGRAM || a.owner == INCINERATOR
  }

  lemma BurnFromExactly(l: Ledger, source: Address, src: TokenAccount, mintKey: Address, m: TokenMint, accounts: seq<Meta>, i: nat, amount: u64)
    requires i < |accounts| && amount <= src.base.amount
    ensures var permanent := m.ext.Authority(PermanentDelegate);
            BurnFrom(l, source, src, mintKey, m, accounts[i], accounts[i + 1..], amount).Ok? <==>
            amount <= m.base.supply && (IsUnowned(src.base) || MayTake(l, src.base, permanent, accounts, i, amount))
    ensures BurnFrom(l, source, src, mintKey, m, accounts[i], accounts[i + 1..], amount).Ok? ==>
              var permanent := m.ext.Authority(PermanentDelegate);
              var base := if IsUnowned(src.base) then src.base.(amount := src.base.amount - amount)
                          else Less(src.base, permanent, accounts[i].key, amount);
              BurnFrom(l, source, src, mintKey, m, accounts[i], accounts[i + 1..], amount).value
              == PutMint(PutAccount(l, source, src.(base := base)), mintKey, m.(base := m.base.(supply := m.base.supply - amount)))
  {
    SpendExactly(l, src.base, m.ext.Authority(PermanentDelegate), accounts, i, amount, true);
  }

  lemma BurnExactly(env: Env, l: Ledger, accounts: seq<Meta>, amount: u64, permissioned: bool, checked: Option<u8>)
    ensures Burn(env, l, accounts, amount, permissioned, checked).Ok? <==>
            var i := if permissioned then 3 else 2;
            && |accounts| > i && IsAccount(l, accounts[0].key) && IsMint(l, accounts[1].key)
            && var src, m := AccountOf(l, accounts[0].key), MintOf(l, accounts[1].key);
               && src.base.mint == accounts[1].key && src.base.state != Frozen && src.base.isNative == None
               && amount <= src.base.amount && amount <= m.base.supply
               && Issuable(m) && DecimalsAgree(m, checked) && BurnApproved(m, accounts, permissioned)
               && !(Guarded(env, src) && accounts[i].key == src.base.owner)
               && (IsUnowned(src.base) || MayTake(l, src.base, m.ext.Authority(PermanentDelegate), accounts, i, amount))
    ensures Burn(env, l, accounts, amount, permissioned, checked).Ok? ==>
              var i, src, m := if permissioned then 3 else 2, AccountOf(l, accounts[0].key), MintOf(l, accounts[1].key);
              var base := if IsUnowned(src.base) then src.base.(amount := src.base.amount - amount)
                          else Less(src.base, m.ext.Authority(PermanentDelegate), accounts[i].key, amount);
              OnlyChanges(l, Burn(env, l, accounts, amount, permissioned, checked).value,
                accounts[0].key, Get(l, accounts[0].key).(data := AccountData(src.(base := base))),
                accounts[1].key, Get(l, accounts[1].key).(data := MintData(m.(base := m.base.(supply := m.base.supply - amount)))))
  {
    var i := if permissioned then 3 else 2;
    if |accounts| > i && IsAccount(l, accounts[0].key) && IsMint(l, accounts[1].key) && amount <= AccountOf(l, accounts[0].key).base.amount {
      BurnFromExactly(l, accounts[0].key, AccountOf(l, accounts[0].key), accounts[1].key, MintOf(l, accounts[1].key), accounts, i, amount);
    }
  }

  // ---------------------------------------------------------------- delegates and authorities

  lemma ApproveExactly(env: Env, l: Ledger, accounts: seq<Meta>, amount: u64, checked: Option<u8>)
    ensures Approve(env, l, accounts, amount, checked).Ok? <==>
            var d := if checked == None then 1 else 2;
            && |accounts| > d + 1 && IsAccount(l, accounts[0].key)
            && var src := AccountOf(l, accounts[0].key);
               && src.base.state != Frozen && !Guarded(env, src) && Signed(l, Some(src.base.owner), accounts, d + 1)
               && (checked != None ==>
                     src.base.mint == accounts[1].key && IsMint(l, accounts[1].key) && DecimalsAgree(MintOf(l, accounts[1].key), checked))
    ensures Approve(env, l, accounts, amount, checked).Ok? ==>
              var d, src := if checked == None then 1 else 2, AccountOf(l, accounts[0].key);
              OnlyChange(l, Approve(env, l, accounts, amount, checked).value, accounts[0].key,
                Get(l, accounts[0].key).(data := AccountData(src.(base := src.base.(delegate := Some(accounts[d].key), delegatedAmount := amount)))))
  {
  }

  lemma RevokeExactly(l: Ledger, accounts: seq<Meta>)
    ensures Revoke(l, accounts).Ok? <==>
            && |accounts| >= 2 && IsAccount(l, accounts[0].key)
            && var src := AccountOf(l, accounts[0].key);
               && src.base.state != Frozen
               && (Signed(l, Some(src.base.owner), accounts, 1) || Signed(l, src.base.delegate, accounts, 1))
    ensures Revoke(l, accounts).Ok? ==>
              var src := AccountOf(l, accounts[0].key);
              OnlyChange(l, Revoke(l, accounts).value, accounts[0].key,
                Get(l, accounts[0].key).(data := AccountData(src.(base := src.base.(delegate := None, delegatedAmount := 0)))))
  {
  }

  /** Which right of an account is handed over, and what becomes of the account. */
  lemma SetAccountAuthorityExactly(env: Env, l: Ledger, accounts: seq<Meta>, kind: AuthorityType, to: Option<Address>)
    requires |accounts| > 0 && IsAccount(l, accounts[0].key)
    ensures var a := AccountOf(l, accounts[0].key);
            SetAuthority(env, l, accounts, kind, to).Ok? <==>
            && |accounts| >= 2 && a.base.state != Frozen
            && if kind == AccountOwner then
                 to != None && !a.ext.immutableOwner && !a.ext.lockCpi && Signed(l, Some(a.base.owner), accounts, 1)
               else
                 kind == AuthorityType.CloseAccount && !(Guarded(env, a) && to != None) && Signed(l, Some(Closer(a.base)), accounts, 1)
    ensures SetAuthority(env, l, accounts, kind, to).Ok? ==>
              var a := AccountOf(l, accounts[0].key);
              var base := if kind == AccountOwner then
                            a.base.(owner := to.value, delegate := None, delegatedAmount := 0,
                                    closeAuthority := if a.base.isNative == None then a.base.closeAuthority else None)
                          else a.base.(closeAuthority := to);
              OnlyChange(l, SetAuthority(env, l, accounts, kind, to).value, accounts[0].key,
                Get(l, accounts[0].key).(data := AccountData(a.(base := base))))
  {
  }

  /** Whose right of a mint it is: the mint and freeze authorities in its record, all others
      in its extensions. */
  function HolderOf(m: TokenMint, kind: AuthorityType): Option<Address> {
    if kind == MintTokens then m.base.mintAuthority
    else if kind == FreezeAccount then m.base.freezeAuthority
    else m.ext.Authority(kind)
  }

  function WithHolder(m: TokenMint, kind: AuthorityType, to: Option<Address>): TokenMint {
    if kind == MintTokens then m.(base := m.base.(mintAuthority := to))
    else if kind == FreezeAccount then m.(base := m.base.(freezeAuthority := to))
    else m.(ext := m.ext.(authorities := m.ext.authorities[kind := to]))
  }

  lemma MintRightExactly(l: Ledger, m: TokenMint, accounts: seq<Meta>, kind: AuthorityType, to: Option<Address>)
    requires |accounts| >= 2
    ensures SetMintAuthority(l, m, kind, to, accounts[1], accounts[2..]).Ok? <==>
            && Signed(l, HolderOf(m, kind), accounts, 1) && kind != AccountOwner && kind != AuthorityType.CloseAccount
            && (kind == MintTokens || kind == FreezeAccount || to != Some(SYSTEM_PROGRAM))
    ensures SetMintAuthority(l, m, kind, to, accounts[1], accounts[2..]).Ok? ==>
              SetMintAuthority(l, m, kind, to, accounts[1], accounts[2..]).value == WithHolder(m, kind, to)
  {
  }

  lemma SetMintAuthorityExactly(env: Env, l: Ledger, accounts: seq<Meta>, kind: AuthorityType, to: Option<Address>)
    requires |accounts| > 0 && IsMint(l, accounts[0].key)
    ensures var m := MintOf(l, accounts[0].key);
            SetAuthority(env, l, accounts, kind, to).Ok? <==>
            && Signed(l, HolderOf(m, kind), accounts, 1) && kind != AccountOwner && kind != AuthorityType.CloseAccount
            && (kind == MintTokens || kind == FreezeAccount || to != Some(SYSTEM_PROGRAM))
    ensures SetAuthority(env, l, accounts, kind, to).Ok? ==>
              OnlyChange(l, SetAuthority(env, l, accounts, kind, to).value, accounts[0].key,
                Get(l, accounts[0].key).(data := MintData(WithHolder(MintOf(l, accounts[0].key), kind, to))))
  {
    if |accounts| >= 2 {
      MintRightExactly(l, MintOf(l, accounts[0].key), accounts, kind, to);
    }
  }

  lemma SetAuthorityNeedsARecord(env: Env, l: Ledger, accounts: seq<Meta>, kind: AuthorityType, to: Option<Address>)
    requires |accounts| > 0 ==> !IsAccount(l, accounts[0].key) && !IsMint(l, accounts[0].key)
    ensures SetAuthority(env, l, accounts, kind, to).Err?
  {
  }

  /** Freezing takes an account from initialised to frozen and thawing back, on the word of
      its mint's freeze authority. */
  lemma ToggleFreezeExactly(l: Ledger, accounts: seq<Meta>, freeze: bool)
    ensures ToggleFreeze(l, accounts, freeze).Ok? <==>
            && |accounts| >= 3 && IsAccount(l, accounts[0].key) && IsMint(l, accounts[1].key)
            && var a := AccountOf(l, accounts[0].key);
               && a.base.state == (if freeze then Initialized else Frozen) && a.base.isNative == None
               && a.base.mint == accounts[1].key && Signed(l, MintOf(l, accounts[1].key).base.freezeAuthority, accounts, 2)
    ensures ToggleFreeze(l, accounts, freeze).Ok? ==>
              var a := AccountOf(l, accounts[0].key);
              OnlyChange(l, ToggleFreeze(l, accounts, freeze).value, accounts[0].key,
                Get(l, accounts[0].key).(data := AccountData(a.(base := a.base.(state := if freeze then Frozen else Initialized)))))
  {
  }

  // ---------------------------------------------------------------- lamports

  /** Lamports go from one slot to another, and nothing else changes; onto itself, nothing at all. */
  ghost predicate Paid(l: Ledger, l': Ledger, source: Address, destination: Address, x: u64) {
    && x <= Get(l, source).lamports
    && if source == destination then (forall key :: Get(l', key) == Get(l, key))
       else
         && Get(l, destination).lamports + x <= U64_MAX
         && OnlyChanges(l, l', source, Get(l, source).(lamports := Get(l, source).lamports - x),
                        destination, Get(l, destination).(lamports := Get(l, destination).lamports + x))
  }

  lemma MoveLamportsExactly(l: Ledger, source: Address, destination: Address, x: u64)
    ensures MoveLamports(l, source, destination, x).Ok? <==>
            x <= Get(l, source).lamports && (source != destination ==> Get(l, destination).lamports + x <= U64_MAX)
    ensures MoveLamports(l, source, destination, x).Ok? ==> Paid(l, MoveLamports(l, source, destination, x).value, source, destination, x)
  {
  }

  /** The lamports of a closed slot go to the destination, and the slot is empty. */
  predicate ClosedTo(l: Ledger, l': Ledger, source: Address, destination: Address) {
    && source != destination && Get(l, destination).lamports + Get(l, source).lamports <= U64_MAX
    && OnlyChanges(l, l', destination, Get(l, destination).(lamports := Get(l, destination).lamports + Get(l, source).lamports),
                   source, Slot(Other, 0, 0, Fresh(NoTlv)))
  }

  /** An account is closed empty, or native, and on its closer's signature; what belongs to
      the system program or the incinerator anybody may close, in favour of the incinerator. */
  predicate MayBeClosed(env: Env, l: Ledger, a: TokenAccount, accounts: seq<Meta>) {
    && |accounts| >= 3
    && (a.base.isNative == None ==> a.base.amount == 0)
    && (a.ext.withheld == None || a.ext.withheld == Some(0))
    && if IsUnowned(a.base) then accounts[1].key == INCINERATOR
       else Signed(l, Some(Closer(a.base)), accounts, 2) && (Guarded(env, a) ==> accounts[1].key == a.base.owner)
  }

  lemma CloseAccountExactly(env: Env, l: Ledger, accounts: seq<Meta>)
    requires |accounts| > 0 && IsAccount(l, accounts[0].key)
    ensures CloseSlot(env, l, accounts).Ok? <==>
            && MayBeClosed(env, l, AccountOf(l, accounts[0].key), accounts) && accounts[0].key != accounts[1].key
            && Get(l, accounts[1].key).lamports + Get(l, accounts[0].key).lamports <= U64_MAX
    ensures CloseSlot(env, l, accounts).Ok? ==> ClosedTo(l, CloseSlot(env, l, accounts).value, accounts[0].key, accounts[1].key)
  {
  }

  lemma CloseMintExactly(env: Env, l: Ledger, accounts: seq<Meta>)
    requires |accounts| > 0 && IsMint(l, accounts[0].key)
    ensures CloseSlot(env, l, accounts).Ok? <==>
            && |accounts| >= 3 && MintOf(l, accounts[0].key).base.supply == 0
            && Signed(l, MintOf(l, accounts[0].key).ext.Authority(CloseMint), accounts, 2) && accounts[0].key != accounts[1].key
            && Get(l, accounts[1].key).lamports + Get(l, accounts[0].key).lamports <= U64_MAX
    ensures CloseSlot(env, l, accounts).Ok? ==> ClosedTo(l, CloseSlot(env, l, accounts).value, accounts[0].key, accounts[1].key)
  {
  }

  lemma OnlyRecordsAreClosed(env: Env, l: Ledger, accounts: seq<Meta>)
    requires |accounts| > 0 ==> !IsAccount(l, accounts[0].key) && !IsMint(l, accounts[0].key)
    ensures CloseSlot(env, l, accounts).Err?
  {
  }

  lemma SyncNativeExactly(env: Env, l: Ledger, accounts: seq<Meta>)
    ensures SyncNative(env, l, accounts).Ok? <==>
            && |accounts| > 0 && (|accounts| >= 2 ==> accounts[1].key == RENT_SYSVAR) && IsAccount(l, accounts[0].key)
            && AccountOf(l, accounts[0].key).base.isNative != None
            && env.rent(Get(l, accounts[0].key).len) <= Get(l, accounts[0].key).lamports
    ensures SyncNative(env, l, accounts).Ok? ==>
              var slot, a := Get(l, accounts[0].key), AccountOf(l, accounts[0].key);
              OnlyChange(l, SyncNative(env, l, accounts).value, accounts[0].key,
                slot.(data := AccountData(a.(base := a.base.(isNative := Some(env.rent(slot.len)), amount := slot.lamports - env.rent(slot.len))))))
  {
  }

  /** Who may withdraw what lies above the rent: an account's owner, if it is not native, a
      mint's authority or, if it has none, the mint's own key, and a multisig's members. */
  predicate MayWithdraw(env: Env, l: Ledger, key: Address, accounts: seq<Meta>) {
    && |accounts| >= 3 && IsOurs(l, key)
    && if IsAccount(l, key) then
         AccountOf(l, key).base.isNative == None && !Guarded(env, AccountOf(l, key)) && Signed(l, Some(AccountOf(l, key).base.owner), accounts, 2)
       else if IsMint(l, key) then
         if MintOf(l, key).base.mintAuthority != None then Signed(l, MintOf(l, key).base.mintAuthority, accounts, 2)
         else accounts[2].key == key && accounts[2].isSigner
       else Get(l, key).len == 355 && Signed(l, Some(key), accounts, 2)
  }

  lemma WithdrawExactly(env: Env, l: Ledger, accounts: seq<Meta>)
    ensures WithdrawExcessLamports(env, l, accounts).Ok? <==>
            && |accounts| >= 3 && MayWithdraw(env, l, accounts[0].key, accounts)
            && var source, destination := Get(l, accounts[0].key), Get(l, accounts[1].key);
               && env.rent(source.len) <= source.lamports
               && (accounts[0].key != accounts[1].key ==> destination.lamports + (source.lamports - env.rent(source.len)) <= U64_MAX)
    ensures WithdrawExcessLamports(env, l, accounts).Ok? ==>
              var source := Get(l, accounts[0].key);
              Paid(l, WithdrawExcessLamports(env, l, accounts).value, accounts[0].key, accounts[1].key, source.lamports - env.rent(source.len))
  {
    if |accounts| >= 3 && env.rent(Get(l, accounts[0].key).len) <= Get(l, accounts[0].key).lamports {
      MoveLamportsExactly(l, accounts[0].key, accounts[1].key, Get(l, accounts[0].key).lamports - env.rent(Get(l, accounts[0].key).len));
    }
  }

  /** What is unwrapped: the amount asked for, or else all there is. */
  function Unwrapped(a: Account, requested: Option<u64>): u64 {
    if requested == None then a.amount else requested.value
  }

  predicate MayUnwrap(env: Env, l: Ledger, accounts: seq<Meta>, requested: Option<u64>) {
    && |accounts| >= 3 && IsAccount(l, accounts[0].key)
    && var a := AccountOf(l, accounts[0].key);
       && a.base.isNative != None && Unwrapped(a.base, requested) <= a.base.amount && !Guarded(env, a)
       && MayTake(l, a.base, None, accounts, 2, Unwrapped(a.base, requested))
  }

  /** Unwrapping takes from the amount what it pays out; onto itself it only takes. */
  lemma UnwrapExactly(env: Env, l: Ledger, accounts: seq<Meta>, requested: Option<u64>)
    ensures UnwrapLamports(env, l, accounts, requested).Ok? <==>
            && MayUnwrap(env, l, accounts, requested)
            && var x := Unwrapped(AccountOf(l, accounts[0].key).base, requested);
               accounts[0].key != accounts[1].key && x > 0 ==>
                 x <= Get(l, accounts[0].key).lamports && Get(l, accounts[1].key).lamports + x <= U64_MAX
    ensures UnwrapLamports(env, l, accounts, requested).Ok? ==>
              var l', source, destination := UnwrapLamports(env, l, accounts, requested).value, accounts[0].key, accounts[1].key;
              var a, slot, slot' := AccountOf(l, source), Get(l, source), Get(l, destination);
              var x := Unwrapped(a.base, requested);
              var data := AccountData(a.(base := Less(a.base, None, accounts[2].key, x)));
              if source == destination || x == 0 then OnlyChange(l, l', source, slot.(data := data))
              else OnlyChanges(l, l', source, slot.(data := data, lamports := slot.lamports - x),
                               destination, slot'.(lamports := slot'.lamports + x))
  {
    if |accounts| >= 3 && IsAccount(l, accounts[0].key) && Unwrapped(AccountOf(l, accounts[0].key).base, requested) <= AccountOf(l, accounts[0].key).base.amount {
      var a := AccountOf(l, accounts[0].key);
      SpendExactly(l, a.base, None, accounts, 2, Unwrapped(a.base, requested), true);
      if MayUnwrap(env, l, accounts, requested) {
        var x := Unwrapped(a.base, requested);
        var unwrapped := PutAccount(l, accounts[0].key, a.(base := Less(a.base, None, accounts[2].key, x)));
        MoveLamportsExactly(unwrapped, accounts[0].key, accounts[1].key, x);
      }
    }
  }
}
