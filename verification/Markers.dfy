/** The marks a mint's extensions leave on its accounts when these are initialised, which
    are all a transfer without the mint can go by; what depends on them, and how an account can
    come to lack them. */
module Markers {
  import opened Base
  import opened State
  import opened Authority
  import opened Processor
  import opened Invariant
  import opened Evolution
  import opened Effects
  import opened Safety
  import opened Runs
  import opened Continuations

  /** The account carries the mark of each of the mint's extensions that leave one. */
  predicate Marked(mint: MintExt, a: AccountExt) {
    && (mint.HasTransferFee() ==> a.withheld.Some?)
    && (mint.HasTransferHook() ==> a.transferHook)
    && (mint.IsPausable() ==> a.pausable)
  }

  predicate MarkedAt(l: Ledger, mint: Address, key: Address)
    requires Get(l, mint).data.MintData?
  {
    Get(l, key).data.AccountData? && Get(l, key).data.account.base.mint == mint ==>
      Marked(Get(l, mint).data.mint.ext, Get(l, key).data.account.ext)
  }

  ghost predicate AllMarked(l: Ledger, mint: Address) {
    Get(l, mint).data.MintData? && forall key :: MarkedAt(l, mint, key)
  }

  predicate IsPausedMint(slot: Slot) {
    slot.data.MintData? && slot.data.mint.ext.IsPaused()
  }

  // ---------------------------------------------------------------- what a pause stops

  /** The pause reaches this transfer: the mint is looked at, or the account is marked. */
  predicate Reaches(a: AccountExt, kind: TransferKind) {
    !kind.Unchecked? || a.HasMarker()
  }

  lemma TermsOfPausedMint(env: Env, l: Ledger, src: TokenAccount, mintKey: Address, amount: u64, kind: TransferKind)
    requires IsPausedMint(Get(l, src.base.mint)) && Reaches(src.ext, kind)
    ensures TransferTerms(env, l, src, mintKey, amount, kind).Err?
  {
  }

  /** No transfer the pause reaches succeeds. */
  lemma PauseStopsWhatItReaches(env: Env, l: Ledger, accounts: seq<Meta>, amount: u64, kind: TransferKind)
    requires |accounts| > 0 && Get(l, accounts[0].key).data.AccountData?
    requires var src := Get(l, accounts[0].key).data.account; IsPausedMint(Get(l, src.base.mint)) && Reaches(src.ext, kind)
    ensures Transfer(env, l, accounts, amount, kind).Err?
  {
    TermsOfPausedMint(env, l, Get(l, accounts[0].key).data.account, if |accounts| > 1 then accounts[1].key else accounts[0].key,
                      amount, kind);
  }

  lemma IssuesStopWhilePaused(env: Env, l: Ledger, accounts: seq<Meta>, op: Operation)
    requires (op.OpMintTo? && |accounts| > 0 && IsPausedMint(Get(l, accounts[0].key)))
          || (op.OpBurn? && |accounts| > 1 && IsPausedMint(Get(l, accounts[1].key)))
    ensures Apply(env, l, accounts, op).Err?
  {
  }

  // ---------------------------------------------------------------- marks stay

  /** Which extensions a mint has does not change in its life. */
  lemma MintKeepsExtensions(env: Env, l: Ledger, e: Event, mint: Address)
    requires TokensOk(env, l) && Get(l, mint).data.MintData? && Get(Next(env, l, e), mint).data.MintData?
    ensures Get(Next(env, l, e), mint).data.mint.ext.authorities.Keys == Get(l, mint).data.mint.ext.authorities.Keys
  {
    if Succeeds(env, l, e) {
      SlotsOkAt(env, l, e);
      MintsEvolve(EnvOf(env, e), l, e.accounts, e.op, mint);
    } else {
      OutsideLeavesMints(env, l, e, mint);
    }
  }

  /** An account that stays one keeps its marks. */
  lemma AccountKeepsMarks(env: Env, l: Ledger, e: Event, key: Address)
    requires TokensOk(env, l) && Get(l, key).data.AccountData? && Get(Next(env, l, e), key).data.AccountData?
    ensures var a, a' := Get(l, key).data.account.ext, Get(Next(env, l, e), key).data.account.ext;
            && (a'.withheld.Some? <==> a.withheld.Some?) && a'.transferHook == a.transferHook && a'.pausable == a.pausable
  {
    if Succeeds(env, l, e) {
      SlotsOkAt(env, l, e);
      AccountsEvolve(EnvOf(env, e), l, e.accounts, e.op, key);
    } else {
      OutsideLeavesAccounts(env, l, e, key);
    }
  }

  /** An account that comes into being is marked as its mint demands. */
  lemma NewAccountIsMarked(env: Env, l: Ledger, e: Event, mint: Address, key: Address)
    requires TokensOk(env, l) && Get(l, mint).data.MintData? && Get(Next(env, l, e), mint).data.MintData?
    requires !Get(l, key).data.AccountData? && Get(Next(env, l, e), key).data.AccountData?
    requires Get(Next(env, l, e), key).data.account.base.mint == mint
    ensures Marked(Get(l, mint).data.mint.ext, Get(Next(env, l, e), key).data.account.ext)
  {
    if Succeeds(env, l, e) {
      SlotsOkAt(env, l, e);
      AccountsAppear(EnvOf(env, e), l, e.accounts, e.op, key);
      InitializedAccount(EnvOf(env, e), l, e.accounts, e.op.owner, e.op.rentAccount, key);
    } else {
      OutsideLeavesAccounts(env, l, e, key);
    }
  }

  lemma MarkedAtNext(env: Env, l: Ledger, e: Event, mint: Address, key: Address)
    requires TokensOk(env, l) && Get(l, mint).data.MintData? && Get(Next(env, l, e), mint).data.MintData?
    requires MarkedAt(l, mint, key)
    ensures MarkedAt(Next(env, l, e), mint, key)
  {
    MintKeepsExtensions(env, l, e, mint);
    if Get(Next(env, l, e), key).data.AccountData? && Get(Next(env, l, e), key).data.account.base.mint == mint {
      if Get(l, key).data.AccountData? {
        StateStep(env, l, e, key);
        AccountKeepsMarks(env, l, e, key);
      } else {
        NewAccountIsMarked(env, l, e, mint, key);
      }
    }
  }

  /** Once all accounts of a mint are marked, as they are when there are none yet, all of
      them stay so for the life of the mint. */
  lemma {:induction false} MarksStay(env: Env, l: Ledger, events: seq<Event>, mint: Address)
    requires Inv(env, l) && AllMarked(l, mint) && MintLives(env, l, events, mint)
    ensures AllMarked(Exec(env, l, events), mint)
    decreases |events|
  {
    if events != [] {
      forall key ensures MarkedAt(Next(env, l, events[0]), mint, key) { MarkedAtNext(env, l, events[0], mint, key); }
      NextKeeps(env, l, events[0]);
      MarksStay(env, Next(env, l, events[0]), events[1..], mint);
    }
  }

  // ---------------------------------------------------------------- a pause over a run

  /** While its mint is paused and its accounts are marked, neither side of a transfer is one
      of them. */
  lemma MarkedAccountsDoNotTransfer(env: Env, l: Ledger, accounts: seq<Meta>, amount: u64, kind: TransferKind, mint: Address, key: Address)
    requires SlotsOk(env, l) && IsPausedMint(Get(l, mint)) && AllMarked(l, mint)
    requires Transfer(env, l, accounts, amount, kind).Ok? && accounts[0].key != TransferDestination(accounts, kind)
    requires Get(l, key).data.AccountData? && Get(l, key).data.account.base.mint == mint
    ensures !Touches(accounts, OpTransfer(amount, kind), key)
  {
    TransferMoves(env, l, accounts, amount, kind);
    assert MarkedAt(l, mint, accounts[0].key);
    if Get(l, accounts[0].key).data.account.base.mint == mint {
      PauseStopsWhatItReaches(env, l, accounts, amount, kind);
    }
  }

  lemma PausedInstruction(env: Env, l: Ledger, accounts: seq<Meta>, op: Operation, mint: Address, key: Address)
    requires SlotsOk(env, l) && IsPausedMint(Get(l, mint)) && AllMarked(l, mint) && Apply(env, l, accounts, op).Ok?
    requires Get(l, key).data.AccountData? && Get(l, key).data.account.base.mint == mint
    requires Get(Apply(env, l, accounts, op).value, key).data.AccountData?
    ensures var a, a' := Get(l, key).data.account, Get(Apply(env, l, accounts, op).value, key).data.account;
            a'.base.amount == a.base.amount && a'.ext.withheld == a.ext.withheld
  {
    AccountsEvolve(env, l, accounts, op, key);
    assert SlotOk(env, key, Get(l, key));
    assert SlotOk(env, mint, Get(l, mint));
    if op.OpTransfer? && accounts[0].key != TransferDestination(accounts, op.kind) {
      MarkedAccountsDoNotTransfer(env, l, accounts, op.amount, op.kind, mint, key);
      UntouchedRecords(env, l, accounts, op, key);
    } else if op.OpMintTo? || op.OpBurn? {
      PausedIssue(env, l, accounts, op, mint, key);
    }
  }

  lemma PausedIssue(env: Env, l: Ledger, accounts: seq<Meta>, op: Operation, mint: Address, key: Address)
    requires SlotsOk(env, l) && IsPausedMint(Get(l, mint)) && Apply(env, l, accounts, op).Ok? && (op.OpMintTo? || op.OpBurn?)
    requires Get(l, key).data.AccountData? && Get(l, key).data.account.base.mint == mint
    ensures Get(Apply(env, l, accounts, op).value, key).data == Get(l, key).data
  {
    if op.OpMintTo? {
      MintToIssues(env, l, accounts, op.amount, op.checked);
      if accounts[0].key == mint {
        IssuesStopWhilePaused(env, l, accounts, op);
      }
    } else {
      BurnIssues(env, l, accounts, op.amount, op.permissioned, op.checked);
      if accounts[1].key == mint {
        IssuesStopWhilePaused(env, l, accounts, op);
      }
    }
  }

  ghost predicate PausedThroughout(env: Env, l: Ledger, events: seq<Event>, mint: Address)
    decreases |events|
  {
    IsPausedMint(Get(l, mint)) && (events == [] || PausedThroughout(env, Next(env, l, events[0]), events[1..], mint))
  }

  lemma PausedStep(env: Env, l: Ledger, e: Event, mint: Address, key: Address)
    requires TokensOk(env, l) && IsPausedMint(Get(l, mint)) && AllMarked(l, mint)
    requires Get(l, key).data.AccountData? && Get(l, key).data.account.base.mint == mint
    requires Get(Next(env, l, e), key).data.AccountData?
    ensures var a, a' := Get(l, key).data.account, Get(Next(env, l, e), key).data.account;
            a'.base.mint == mint && a'.base.amount == a.base.amount && a'.ext.withheld == a.ext.withheld
  {
    StateStep(env, l, e, key);
    if Succeeds(env, l, e) {
      SlotsOkAt(env, l, e);
      PausedInstruction(EnvOf(env, e), l, e.accounts, e.op, mint, key);
    } else {
      OutsideLeavesAccounts(env, l, e, key);
    }
  }

  /** While a mint whose accounts are all marked stays paused, no balance of it changes, and
      no fee is withheld. */
  lemma {:induction false} PausedBalancesStay(env: Env, l: Ledger, events: seq<Event>, mint: Address, key: Address)
    requires Inv(env, l) && AllMarked(l, mint) && PausedThroughout(env, l, events, mint)
    requires AccountLives(env, l, events, key) && Get(l, key).data.account.base.mint == mint
    ensures Get(Exec(env, l, events), key).data.AccountData?
    ensures var a, a' := Get(l, key).data.account, Get(Exec(env, l, events), key).data.account;
            a'.base.amount == a.base.amount && a'.ext.withheld == a.ext.withheld
    decreases |events|
  {
    if events != [] {
      var l' := Next(env, l, events[0]);
      PausedStep(env, l, events[0], mint, key);
      forall k ensures MarkedAt(l', mint, k) { MarkedAtNext(env, l, events[0], mint, k); }
      NextKeeps(env, l, events[0]);
      PausedBalancesStay(env, l', events[1..], mint, key);
    }
  }

  // ---------------------------------------------------------------- exactly what the marks decide

  /** Nobody's authority depends on the difference between the two ledgers. */
  ghost predicate SameAuthorities(l: Ledger, l': Ledger) {
    forall expected, authority, signers :: ValidateOwner(l', expected, authority, signers) == ValidateOwner(l, expected, authority, signers)
  }

  lemma RewritingKeepsAuthorities(l: Ledger, key: Address, data: Data)
    requires !Get(l, key).data.MultisigData? && !data.MultisigData?
    ensures SameAuthorities(l, l[key := Get(l, key).(data := data)])
  {
  }

  lemma SameAuthorization(env: Env, l: Ledger, l': Ledger, accounts: seq<Meta>, amount: u64, kind: TransferKind,
                          src: TokenAccount, fee: u64, permanentDelegate: Option<Address>)
    requires SameAuthorities(l, l')
    requires |accounts| >= 4 || (kind.Unchecked? && |accounts| >= 3)
    ensures AuthorizeTransfer(env, l', accounts, amount, kind, src, fee, permanentDelegate)
         == AuthorizeTransfer(env, l, accounts, amount, kind, src, fee, permanentDelegate)
  {
  }

  lemma SameSettlement(l: Ledger, l': Ledger, source: Address, destination: Address, debited: TokenAccount,
                       credited: TokenAccount, credited': TokenAccount, amount: u64)
    requires Get(l', source).lamports == Get(l, source).lamports && Get(l', destination).lamports == Get(l, destination).lamports
    ensures Settle(l', source, destination, debited, credited', amount).Ok? <==> Settle(l, source, destination, debited, credited, amount).Ok?
  {
  }

  function Pausing(l: Ledger, mint: Address): Ledger
    requires Get(l, mint).data.MintData?
  {
    PutMint(l, mint, Get(l, mint).data.mint.(ext := Get(l, mint).data.mint.ext.(paused := true)))
  }

  lemma PauseDoesNotReach(env: Env, l: Ledger, accounts: seq<Meta>, amount: u64, mint: Address)
    requires Transfer(env, l, accounts, amount, Unchecked).Ok? && Get(l, mint).data.MintData?
    ensures Transfer(env, Pausing(l, mint), accounts, amount, Unchecked).Ok?
  {
    var l', source, destination := Pausing(l, mint), accounts[0].key, accounts[1].key;
    PreparedAndCompleted(env, l, accounts, amount, Unchecked);
    var (src, fee, spent) := Prepared(env, l, accounts, amount, Unchecked).value;
    RewritingKeepsAuthorities(l, mint, Get(l', mint).data);
    SameAuthorization(env, l, l', accounts, amount, Unchecked, src, 0, None);
    assert Prepared(env, l', accounts, amount, Unchecked) == Prepared(env, l, accounts, amount, Unchecked);
    PreparedAndCompleted(env, l', accounts, amount, Unchecked);
    if source != destination {
      var credited := TransferCredit(Get(l, destination), src.base.mint, amount, fee).value;
      SameSettlement(l, l', source, destination, TokenAccount(spent.(amount := src.base.amount - amount), src.ext), credited, credited, amount);
    }
  }

  /** Pausing the mint of its source stops a transfer that would succeed if and only if the
      pause reaches it. */
  lemma PauseStopsExactlyWhatItReaches(env: Env, l: Ledger, accounts: seq<Meta>, amount: u64, kind: TransferKind)
    requires Transfer(env, l, accounts, amount, kind).Ok? && Get(l, accounts[0].key).data.AccountData?
    requires var mint := Get(l, Get(l, accounts[0].key).data.account.base.mint); mint.data.MintData? && mint.data.mint.ext.IsPausable()
    ensures var src := Get(l, accounts[0].key).data.account;
            Transfer(env, Pausing(l, src.base.mint), accounts, amount, kind).Err? <==> Reaches(src.ext, kind)
  {
    var src := Get(l, accounts[0].key).data.account;
    if Reaches(src.ext, kind) {
      PauseStopsWhatItReaches(env, Pausing(l, src.base.mint), accounts, amount, kind);
    } else {
      PauseDoesNotReach(env, l, accounts, amount, src.base.mint);
    }
  }

  // ---------------------------------------------------------------- where a fee goes

  /** The fee the transfer charges. */
  function FeeCharged(env: Env, l: Ledger, src: TokenAccount, accounts: seq<Meta>, amount: u64, kind: TransferKind): nat
    requires |accounts| >= 2
  {
    var terms := TransferTerms(env, l, src, accounts[1].key, amount, kind);
    if terms.Ok? then terms.value.fee else 0
  }

  function WithField(l: Ledger, key: Address, withheld: u64): Ledger
    requires Get(l, key).data.AccountData?
  {
    PutAccount(l, key, Get(l, key).data.account.(ext := Get(l, key).data.account.ext.(withheld := Some(withheld))))
  }

  lemma SameTerms(env: Env, l: Ledger, key: Address, account: TokenAccount, src: TokenAccount, mintKey: Address,
                  amount: u64, kind: TransferKind)
    requires TransferTerms(env, PutAccount(l, key, account), src, mintKey, amount, kind).Ok?
    requires !Get(l, key).data.MintData?
    ensures TransferTerms(env, l, src, mintKey, amount, kind) == TransferTerms(env, PutAccount(l, key, account), src, mintKey, amount, kind)
  {
  }

  lemma CreditWithoutField(dst: TokenAccount, amount: u64, fee: u64, withheld: u64)
    requires dst.ext.withheld.None? && Credit(dst.(ext := dst.ext.(withheld := Some(withheld))), amount, fee).Ok?
    ensures Credit(dst, amount, fee) == if fee > 0 then Err(InvalidState)
                                        else Ok(dst.(base := dst.base.(amount := dst.base.amount + amount)))
  {
  }

  lemma SamePreparation(env: Env, l: Ledger, destination: Address, withheld: u64, accounts: seq<Meta>, amount: u64, kind: TransferKind)
    requires |accounts| >= if kind.Unchecked? then 3 else 4
    requires destination == TransferDestination(accounts, kind) != accounts[0].key && Get(l, destination).data.AccountData?
    requires Prepared(env, WithField(l, destination, withheld), accounts, amount, kind).Ok?
    ensures Prepared(env, l, accounts, amount, kind) == Prepared(env, WithField(l, destination, withheld), accounts, amount, kind)
  {
    var l' := WithField(l, destination, withheld);
    var src := TransferSource(Get(l, accounts[0].key), amount).value;
    SameTerms(env, l, destination, Get(l', destination).data.account, src, accounts[1].key, amount, kind);
    var terms := TransferTerms(env, l, src, accounts[1].key, amount, kind).value;
    RewritingKeepsAuthorities(l, destination, Get(l', destination).data);
    SameAuthorization(env, l, l', accounts, amount, kind, src, terms.fee, terms.permanentDelegate);
  }

  /** A transfer that would succeed if its destination had the field for withheld fees fails
      without it if and only if it charges a fee, and then with `InvalidState`. */
  lemma FeeNeedsItsField(env: Env, l: Ledger, accounts: seq<Meta>, amount: u64, kind: TransferKind, withheld: u64)
    requires |accounts| >= if kind.Unchecked? then 3 else 4
    requires var destination := TransferDestination(accounts, kind);
             && destination != accounts[0].key && Get(l, destination).data.AccountData?
             && Get(l, destination).data.account.ext.withheld.None?
             && Transfer(env, WithField(l, destination, withheld), accounts, amount, kind).Ok?
    requires Get(l, accounts[0].key).data.AccountData?
    ensures var fee := FeeCharged(env, l, Get(l, accounts[0].key).data.account, accounts, amount, kind);
            && (Transfer(env, l, accounts, amount, kind) == Err(InvalidState) <==> fee > 0)
            && (Transfer(env, l, accounts, amount, kind).Ok? <==> fee == 0)
  {
    var source, destination := accounts[0].key, TransferDestination(accounts, kind);
    var l' := WithField(l, destination, withheld);
    PreparedAndCompleted(env, l', accounts, amount, kind);
    SamePreparation(env, l, destination, withheld, accounts, amount, kind);
    PreparedAndCompleted(env, l, accounts, amount, kind);
    var (src, fee, spent) := Prepared(env, l, accounts, amount, kind).value;
    var dst := Get(l, destination).data.account;
    CreditWithoutField(dst, amount, fee, withheld);
    if fee == 0 {
      var debited := TokenAccount(spent.(amount := src.base.amount - amount), src.ext);
      SameSettlement(l', l, source, destination, debited, TransferCredit(Get(l', destination), src.base.mint, amount, 0).value,
                     TransferCredit(Get(l, destination), src.base.mint, amount, 0).value, amount);
    }
  }

  lemma PreparationIsNotStuck(env: Env, l: Ledger, accounts: seq<Meta>, amount: u64, kind: TransferKind)
    requires |accounts| >= if kind.Unchecked? then 3 else 4
    ensures Prepared(env, l, accounts, amount, kind) != Err(InvalidState)
    ensures Prepared(env, l, accounts, amount, kind).Ok? ==>
              var (src, fee, _) := Prepared(env, l, accounts, amount, kind).value;
              fee > 0 ==> UnpackMint(Get(l, src.base.mint)).Ok? && UnpackMint(Get(l, src.base.mint)).value.ext.HasTransferFee()
  {
  }

  lemma CompletionIsNotStuck(l: Ledger, source: Address, destination: Address, amount: u64, src: TokenAccount, fee: u64, spent: Account)
    requires fee > 0 && Get(l, destination).data.AccountData? && Get(l, destination).data.account.base.mint == src.base.mint ==>
               Get(l, destination).data.account.ext.withheld.Some?
    ensures Completed(l, source, destination, amount, src, fee, spent) != Err(InvalidState)
  {
  }

  /** Where all accounts of the mint are marked, every fee finds its field. */
  lemma MarkedFeesFindTheirField(env: Env, l: Ledger, accounts: seq<Meta>, amount: u64, kind: TransferKind)
    requires |accounts| > 0 && Get(l, accounts[0].key).data.AccountData?
    requires var mint := Get(l, accounts[0].key).data.account.base.mint; Get(l, mint).data.MintData? ==> AllMarked(l, mint)
    ensures Transfer(env, l, accounts, amount, kind) != Err(InvalidState)
  {
    if |accounts| >= if kind.Unchecked? then 3 else 4 {
      PreparedAndCompleted(env, l, accounts, amount, kind);
      PreparationIsNotStuck(env, l, accounts, amount, kind);
      if Prepared(env, l, accounts, amount, kind).Ok? {
        var (src, fee, spent) := Prepared(env, l, accounts, amount, kind).value;
        var destination := TransferDestination(accounts, kind);
        assert fee > 0 ==> MarkedAt(l, src.base.mint, destination);
        CompletionIsNotStuck(l, accounts[0].key, destination, amount, src, fee, spent);
      }
    }
  }
}
