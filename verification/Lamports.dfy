/** Lamports and the arithmetic guards: every instruction keeps the total of all
    lamports, whatever keys coincide, and on a ledger that satisfies the invariant
    no addition or subtraction of the source can fail. */
module Lamports {
  import opened Base
  import opened State
  import opened Processor
  import opened Sums
  import opened Invariant

  lemma MoveLamportsConserves(l: Ledger, source: Address, destination: Address, amount: u64)
    requires MoveLamports(l, source, destination, amount).Ok?
    ensures TotalLamports(MoveLamports(l, source, destination, amount).value) == TotalLamports(l)
  {
    var debited := PutLamports(l, source, Get(l, source).lamports - amount);
    LamportsUpdate(l, source, Get(debited, source));
    LamportsUpdate(debited, destination,
                   Get(debited, destination).(lamports := Get(debited, destination).lamports + amount));
  }

  /** Moving lamports onto the account they come from changes nothing. */
  lemma MoveLamportsToSelf(l: Ledger, source: Address, amount: u64)
    requires source in l && MoveLamports(l, source, source, amount).Ok?
    ensures MoveLamports(l, source, source, amount).value == l
  {
  }

  /** Rewriting a slot's data does not touch the total. */
  lemma DataConserves(l: Ledger, key: Address, data: Data)
    ensures TotalLamports(l[key := Get(l, key).(data := data)]) == TotalLamports(l)
  {
    LamportsUpdate(l, key, Get(l, key).(data := data));
  }

  lemma TransferConservesLamports(env: Env, l: Ledger, accounts: seq<Meta>, amount: u64, kind: TransferKind)
    requires Transfer(env, l, accounts, amount, kind).Ok?
    ensures TotalLamports(Transfer(env, l, accounts, amount, kind).value) == TotalLamports(l)
  {
    var source, destination := accounts[0].key, TransferDestination(accounts, kind);
    if source != destination {
      var spent, credited, fee := TransferParts(env, l, accounts, amount, kind);
      var debited := TokenAccount(spent.(amount := spent.amount - amount), Get(l, source).data.account.ext);
      DataConserves(l, source, AccountData(debited));
      DataConserves(PutAccount(l, source, debited), destination, AccountData(credited));
      if debited.base.IsNative() {
        MoveLamportsConserves(PutAccount(PutAccount(l, source, debited), destination, credited), source, destination, amount);
      }
    }
  }

  lemma MintToConservesLamports(l: Ledger, accounts: seq<Meta>, amount: u64, decimals: Option<u8>)
    requires MintTo(l, accounts, amount, decimals).Ok?
    ensures TotalLamports(MintTo(l, accounts, amount, decimals).value) == TotalLamports(l)
  {
    var l' := MintTo(l, accounts, amount, decimals).value;
    DataConserves(l, accounts[1].key, l'[accounts[1].key].data);
    DataConserves(l[accounts[1].key := Get(l, accounts[1].key).(data := l'[accounts[1].key].data)], accounts[0].key, l'[accounts[0].key].data);
  }

  lemma BurnConservesLamports(env: Env, l: Ledger, accounts: seq<Meta>, amount: u64, permissioned: bool, decimals: Option<u8>)
    requires Burn(env, l, accounts, amount, permissioned, decimals).Ok?
    ensures TotalLamports(Burn(env, l, accounts, amount, permissioned, decimals).value) == TotalLamports(l)
  {
    var l' := Burn(env, l, accounts, amount, permissioned, decimals).value;
    DataConserves(l, accounts[0].key, l'[accounts[0].key].data);
    DataConserves(l[accounts[0].key := Get(l, accounts[0].key).(data := l'[accounts[0].key].data)], accounts[1].key, l'[accounts[1].key].data);
  }

  lemma CloseSlotConservesLamports(env: Env, l: Ledger, accounts: seq<Meta>)
    requires CloseSlot(env, l, accounts).Ok?
    ensures TotalLamports(CloseSlot(env, l, accounts).value) == TotalLamports(l)
  {
    var source, destination := accounts[0].key, accounts[1].key;
    var lamports := Get(l, destination).lamports + Get(l, source).lamports;
    LamportsUpdate(l, destination, Get(l, destination).(lamports := lamports));
    LamportsUpdate(PutLamports(l, destination, lamports), source, EMPTY_SLOT);
  }

  lemma UnwrapConservesLamports(env: Env, l: Ledger, accounts: seq<Meta>, requested: Option<u64>)
    requires UnwrapLamports(env, l, accounts, requested).Ok?
    ensures TotalLamports(UnwrapLamports(env, l, accounts, requested).value) == TotalLamports(l)
  {
    var source, destination := accounts[0].key, accounts[1].key;
    var a := UnpackAccount(Get(l, source)).value;
    var amount := if requested.Some? then requested.value else a.base.amount;
    var spent := Spend(l, a.base, None, accounts[2], accounts[3..], amount, true).value;
    var unwrapped := PutAccount(l, source, TokenAccount(spent.(amount := a.base.amount - amount), a.ext));
    DataConserves(l, source, unwrapped[source].data);
    if amount != 0 && source != destination {
      MoveLamportsConserves(unwrapped, source, destination, amount);
    }
  }

  lemma CreateNativeMintConservesLamports(env: Env, l: Ledger, accounts: seq<Meta>)
    requires CreateNativeMint(env, l, accounts).Ok?
    ensures TotalLamports(CreateNativeMint(env, l, accounts).value) == TotalLamports(l)
  {
    var payer := accounts[0].key;
    var l' := CreateNativeMint(env, l, accounts).value;
    LamportsUpdate(l, payer, l'[payer]);
    LamportsUpdate(l[payer := l'[payer]], NATIVE_MINT, l'[NATIVE_MINT]);
  }

  lemma WithdrawExcessConservesLamports(env: Env, l: Ledger, accounts: seq<Meta>)
    requires WithdrawExcessLamports(env, l, accounts).Ok?
    ensures TotalLamports(WithdrawExcessLamports(env, l, accounts).value) == TotalLamports(l)
  {
    var slot := Get(l, accounts[0].key);
    MoveLamportsConserves(l, accounts[0].key, accounts[1].key, slot.lamports - env.rent(slot.len));
  }

  /** The instructions that rewrite the record of the first account they name, and nothing else. */
  lemma RecordWriteConservesLamports(env: Env, l: Ledger, accounts: seq<Meta>, op: Operation)
    requires op.OpInitializeMint? || op.OpInitializeAccount? || op.OpInitializeMultisig? || op.OpApprove? || op.OpRevoke?
          || op.OpSetAuthority? || op.OpToggleFreeze? || op.OpSyncNative?
    requires Apply(env, l, accounts, op).Ok?
    ensures TotalLamports(Apply(env, l, accounts, op).value) == TotalLamports(l)
  {
    DataConserves(l, accounts[0].key, Apply(env, l, accounts, op).value[accounts[0].key].data);
  }

  /** No instruction creates or destroys lamports. */
  lemma ApplyConservesLamports(env: Env, l: Ledger, accounts: seq<Meta>, op: Operation)
    requires Apply(env, l, accounts, op).Ok?
    ensures TotalLamports(Apply(env, l, accounts, op).value) == TotalLamports(l)
  {
    match op
    case OpTransfer(amount, kind) => TransferConservesLamports(env, l, accounts, amount, kind);
    case OpMintTo(amount, checked) => MintToConservesLamports(l, accounts, amount, checked);
    case OpBurn(amount, permissioned, checked) => BurnConservesLamports(env, l, accounts, amount, permissioned, checked);
    case OpCloseAccount => CloseSlotConservesLamports(env, l, accounts);
    case OpWithdrawExcessLamports => WithdrawExcessConservesLamports(env, l, accounts);
    case OpUnwrapLamports(requested) => UnwrapConservesLamports(env, l, accounts, requested);
    case OpCreateNativeMint => CreateNativeMintConservesLamports(env, l, accounts);
    case _ => RecordWriteConservesLamports(env, l, accounts, op);
  }

  // ---------------------------------------------------------------- guards that never fire

  lemma TransferSourceFacts(slot: Slot, amount: u64)
    requires TransferSource(slot, amount).Ok?
    ensures slot.data.AccountData? && slot.data.account.base.amount >= amount
    ensures TransferSource(slot, amount).value == slot.data.account
  {
  }

  lemma CreditNeverOverflows(l: Ledger, source: Address, destination: Address, mint: Address, amount: u64, fee: u64)
    requires source != destination && Held(l, mint) <= U64_MAX
    requires Get(l, source).data.AccountData? && Get(l, source).data.account.base.mint == mint
    requires Get(l, source).data.account.base.amount >= amount >= fee
    ensures TransferCredit(Get(l, destination), mint, amount, fee) != Err(Overflow)
  {
    HeldCovers(l, mint, source, destination);
  }

  /** For native accounts the amounts are bounded by the lamports behind them. */
  lemma NativeCreditNeverOverflows(env: Env, l: Ledger, source: Address, destination: Address, amount: u64)
    requires Inv(env, l) && source != destination
    requires Get(l, source).data.AccountData? && Get(l, source).data.account.base.mint == NATIVE_MINT
    requires Get(l, source).data.account.base.amount >= amount
    ensures TransferCredit(Get(l, destination), NATIVE_MINT, amount, 0) != Err(Overflow)
  {
    assert SlotOk(env, source, Get(l, source));
    assert SlotOk(env, destination, Get(l, destination));
    LamportsCover(l, source, destination);
  }

  lemma SettleNeverFails(env: Env, l: Ledger, source: Address, destination: Address, debited: TokenAccount,
                         credited: TokenAccount, amount: u64)
    requires Inv(env, l) && source != destination
    requires Get(l, source).data.AccountData? && debited.base.isNative == Get(l, source).data.account.base.isNative
    requires Get(l, source).data.account.base.amount >= amount
    ensures Settle(l, source, destination, debited, credited, amount).Ok?
  {
    assert SlotOk(env, source, Get(l, source));
    LamportsCover(l, source, destination);
  }

  /** The fee of the epoch, if the transfer looks at a mint at all, can be calculated and
      does not exceed the amount. */
  predicate FeeWithinAmount(env: Env, mint: Address, amount: u64, kind: TransferKind) {
    kind.Unchecked? || (env.epochFee(mint, amount).Some? && env.epochFee(mint, amount).value <= amount)
  }

  lemma TermsNeverOverflow(env: Env, l: Ledger, src: TokenAccount, mintKey: Address, amount: u64, kind: TransferKind)
    requires SlotOk(env, NATIVE_MINT, Get(l, NATIVE_MINT)) && FeeWithinAmount(env, mintKey, amount, kind)
    ensures TransferTerms(env, l, src, mintKey, amount, kind) != Err(Overflow)
    ensures TransferTerms(env, l, src, mintKey, amount, kind).Ok? ==>
              var fee := TransferTerms(env, l, src, mintKey, amount, kind).value.fee;
              fee <= amount && (src.base.mint == NATIVE_MINT ==> fee == 0)
  {
  }

  lemma AuthorizeNeverOverflows(env: Env, l: Ledger, accounts: seq<Meta>, amount: u64, kind: TransferKind,
                                src: TokenAccount, fee: u64, permanentDelegate: Option<Address>)
    requires |accounts| >= 4 || (kind.Unchecked? && |accounts| >= 3)
    ensures AuthorizeTransfer(env, l, accounts, amount, kind, src, fee, permanentDelegate) != Err(Overflow)
    ensures AuthorizeTransfer(env, l, accounts, amount, kind, src, fee, permanentDelegate).Ok? ==>
              AuthorizeTransfer(env, l, accounts, amount, kind, src, fee, permanentDelegate).value.isNative == src.base.isNative
  {
  }

  /** No stage of a transfer from `src` runs into an arithmetic guard. */
  ghost predicate StagesOk(env: Env, l: Ledger, accounts: seq<Meta>, amount: u64, kind: TransferKind, src: TokenAccount)
    requires |accounts| >= if kind.Unchecked? then 3 else 4
    requires amount <= src.base.amount
  {
    var terms := TransferTerms(env, l, src, accounts[1].key, amount, kind);
    && terms != Err(Overflow)
    && (terms.Ok? ==>
          var spent := AuthorizeTransfer(env, l, accounts, amount, kind, src, terms.value.fee, terms.value.permanentDelegate);
          && spent != Err(Overflow)
          && (accounts[0].key != TransferDestination(accounts, kind) ==>
                var credited := TransferCredit(Get(l, TransferDestination(accounts, kind)), src.base.mint, amount, terms.value.fee);
                && credited != Err(Overflow)
                && (spent.Ok? && credited.Ok? ==>
                      Settle(l, accounts[0].key, TransferDestination(accounts, kind),
                             TokenAccount(spent.value.(amount := src.base.amount - amount), src.ext), credited.value, amount).Ok?)))
  }

  lemma TransferStagesNeverOverflow(env: Env, l: Ledger, accounts: seq<Meta>, amount: u64, kind: TransferKind, src: TokenAccount)
    requires Inv(env, l)
    requires |accounts| >= if kind.Unchecked? then 3 else 4
    requires FeeWithinAmount(env, accounts[1].key, amount, kind)
    requires TransferSource(Get(l, accounts[0].key), amount) == Ok(src) && amount <= src.base.amount
    ensures StagesOk(env, l, accounts, amount, kind, src)
  {
    var source, destination := accounts[0].key, TransferDestination(accounts, kind);
    TransferSourceFacts(Get(l, source), amount);
    assert SlotOk(env, NATIVE_MINT, Get(l, NATIVE_MINT));
    TermsNeverOverflow(env, l, src, accounts[1].key, amount, kind);
    var terms := TransferTerms(env, l, src, accounts[1].key, amount, kind);
    if terms.Ok? {
      var fee := terms.value.fee;
      var spent := AuthorizeTransfer(env, l, accounts, amount, kind, src, fee, terms.value.permanentDelegate);
      AuthorizeNeverOverflows(env, l, accounts, amount, kind, src, fee, terms.value.permanentDelegate);
      if source != destination {
        TransferCreditNeverOverflows(env, l, source, destination, src.base.mint, amount, fee);
        var credited := TransferCredit(Get(l, destination), src.base.mint, amount, fee);
        if spent.Ok? && credited.Ok? {
          SettleNeverFails(env, l, source, destination, TokenAccount(spent.value.(amount := src.base.amount - amount), src.ext),
                           credited.value, amount);
        }
      }
    }
  }

  /** A transfer's error is the error of its first failing stage. */
  lemma TransferErrorIsAStages(env: Env, l: Ledger, accounts: seq<Meta>, amount: u64, kind: TransferKind, src: TokenAccount)
    requires |accounts| >= if kind.Unchecked? then 3 else 4
    requires TransferSource(Get(l, accounts[0].key), amount) == Ok(src) && amount <= src.base.amount
    requires StagesOk(env, l, accounts, amount, kind, src)
    ensures Transfer(env, l, accounts, amount, kind) != Err(Overflow)
  {
  }

  /** A transfer whose fee can be calculated and does not exceed the amount never
      trips an arithmetic guard, native or not. */
  lemma TransferNeverOverflows(env: Env, l: Ledger, accounts: seq<Meta>, amount: u64, kind: TransferKind)
    requires Inv(env, l)
    requires |accounts| >= 2 ==> FeeWithinAmount(env, accounts[1].key, amount, kind)
    ensures Transfer(env, l, accounts, amount, kind) != Err(Overflow)
  {
    if |accounts| >= if kind.Unchecked? then 3 else 4 {
      var slot := Get(l, accounts[0].key);
      if TransferSource(slot, amount).Ok? {
        TransferSourceFacts(slot, amount);
        TransferStagesNeverOverflow(env, l, accounts, amount, kind, slot.data.account);
        TransferErrorIsAStages(env, l, accounts, amount, kind, slot.data.account);
      }
    }
  }

  lemma TransferCreditNeverOverflows(env: Env, l: Ledger, source: Address, destination: Address, mint: Address, amount: u64, fee: u64)
    requires Inv(env, l) && source != destination
    requires Get(l, source).data.AccountData? && Get(l, source).data.account.base.mint == mint
    requires Get(l, source).data.account.base.amount >= amount >= fee
    requires mint == NATIVE_MINT ==> fee == 0
    ensures TransferCredit(Get(l, destination), mint, amount, fee) != Err(Overflow)
  {
    if mint == NATIVE_MINT {
      NativeCreditNeverOverflows(env, l, source, destination, amount);
    } else {
      assert Held(l, mint) == SupplyIn(Get(l, mint));
      CreditNeverOverflows(l, source, destination, mint, amount, fee);
    }
  }

  /** Burning never underflows the supply. */
  lemma BurnFromNeverOverflows(l: Ledger, source: Address, src: TokenAccount, mintKey: Address, mint: TokenMint,
                               authority: Meta, signers: seq<Meta>, amount: u64)
    requires amount <= src.base.amount && amount <= mint.base.supply
    ensures BurnFrom(l, source, src, mintKey, mint, authority, signers, amount) != Err(Overflow)
  {
  }

  /** The checks of a burn leave its error to the burn itself. */
  lemma BurnChecksNeverOverflow(env: Env, l: Ledger, accounts: seq<Meta>, amount: u64, permissioned: bool, decimals: Option<u8>)
    requires Burn(env, l, accounts, amount, permissioned, decimals) == Err(Overflow)
    ensures |accounts| > if permissioned then 3 else 2
    ensures var a := if permissioned then 3 else 2;
            && Get(l, accounts[0].key).data.AccountData? && Get(l, accounts[1].key).data.MintData?
            && var src, mint := Get(l, accounts[0].key).data.account, Get(l, accounts[1].key).data.mint;
               && src.base.mint == accounts[1].key && !src.base.IsNative() && amount <= src.base.amount
               && BurnFrom(l, accounts[0].key, src, accounts[1].key, mint, accounts[a], accounts[a + 1..], amount) == Err(Overflow)
  {
  }

  lemma BurnNeverOverflows(env: Env, l: Ledger, accounts: seq<Meta>, amount: u64, permissioned: bool, decimals: Option<u8>)
    requires Inv(env, l)
    ensures Burn(env, l, accounts, amount, permissioned, decimals) != Err(Overflow)
  {
    if Burn(env, l, accounts, amount, permissioned, decimals) == Err(Overflow) {
      BurnChecksNeverOverflow(env, l, accounts, amount, permissioned, decimals);
      var source, mint, a := accounts[0].key, accounts[1].key, if permissioned then 3 else 2;
      assert SlotOk(env, source, Get(l, source));
      assert mint != NATIVE_MINT ==> Held(l, mint) == SupplyIn(Get(l, mint));
      HeldCovers(l, mint, source, source);
      BurnFromNeverOverflows(l, source, Get(l, source).data.account, mint, Get(l, mint).data.mint, accounts[a], accounts[a + 1..], amount);
    }
  }

  /** Minting overflows exactly when the supply would: the account's own guard is
      implied by the supply's. */
  lemma MintToOverflowsWithSupply(env: Env, l: Ledger, accounts: seq<Meta>, amount: u64, decimals: Option<u8>)
    requires Inv(env, l)
    requires MintTo(l, accounts, amount, decimals).Ok? || MintTo(l, accounts, amount, decimals) == Err(Overflow)
    ensures |accounts| >= 3 && Get(l, accounts[0].key).data.MintData?
    ensures MintTo(l, accounts, amount, decimals).Ok? <==>
            Get(l, accounts[0].key).data.mint.base.supply + amount <= U64_MAX
  {
    var mint, destination := accounts[0].key, accounts[1].key;
    assert SlotOk(env, destination, Get(l, destination));
    assert mint != NATIVE_MINT ==> Held(l, mint) == SupplyIn(Get(l, mint));
    HeldCovers(l, mint, destination, destination);
  }

  lemma MoveLamportsNeverOverflows(l: Ledger, source: Address, destination: Address, amount: u64)
    requires TotalLamports(l) <= U64_MAX && amount <= Get(l, source).lamports
    ensures MoveLamports(l, source, destination, amount).Ok?
  {
    LamportsCover(l, source, destination);
  }

  /** Neither do the instructions that pay lamports out. */
  lemma CloseNeverOverflows(env: Env, l: Ledger, accounts: seq<Meta>)
    requires Inv(env, l)
    ensures CloseSlot(env, l, accounts) != Err(Overflow)
  {
    if |accounts| >= 3 {
      LamportsCover(l, accounts[0].key, accounts[1].key);
    }
  }

  lemma WithdrawExcessNeverOverflows(env: Env, l: Ledger, accounts: seq<Meta>)
    requires Inv(env, l)
    ensures WithdrawExcessLamports(env, l, accounts) != Err(Overflow)
  {
    if |accounts| >= 3 {
      var slot := Get(l, accounts[0].key);
      if slot.lamports >= env.rent(slot.len) {
        MoveLamportsNeverOverflows(l, accounts[0].key, accounts[1].key, slot.lamports - env.rent(slot.len));
      }
    }
  }

  lemma UnwrapNeverOverflows(env: Env, l: Ledger, accounts: seq<Meta>, requested: Option<u64>)
    requires Inv(env, l)
    ensures UnwrapLamports(env, l, accounts, requested) != Err(Overflow)
  {
    if |accounts| >= 3 {
      assert SlotOk(env, accounts[0].key, Get(l, accounts[0].key));
      LamportsCover(l, accounts[0].key, accounts[1].key);
    }
  }
}
