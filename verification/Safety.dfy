/** What no single instruction can do: take tokens without authority, move a frozen
    account, or let locked tokens out. */
module Safety {
  import opened Base
  import opened State
  import opened Authority
  import opened Processor
  import opened Invariant
  import opened Evolution

  /** Somebody entitled to take `amount` from the account signed: its owner, its
      delegate within the allowance, or the permanent delegate of its mint. */
  predicate Entitled(l: Ledger, a: Account, authority: Meta, signers: seq<Meta>, amount: nat) {
    || ValidateOwner(l, a.owner, authority, signers).Ok?
    || (a.delegate == Some(authority.key) && amount <= a.delegatedAmount && ValidateOwner(l, authority.key, authority, signers).Ok?)
    || (PermanentDelegateOf(l, a.mint) == Some(authority.key) && ValidateOwner(l, authority.key, authority, signers).Ok?)
  }

  /** Where the instruction's authority stands in the account list. */
  function AuthorityIndex(op: Operation): nat {
    match op
    case OpTransfer(_, kind) => if kind.Unchecked? then 2 else 3
    case OpBurn(_, permissioned, _) => if permissioned then 3 else 2
    case _ => 2
  }

  /** Every debit is authorised. Only three instructions lower a balance, only that of
      the first account they name, and each time an entitled party signed, except for
      a burn from an account owned by the system program or the incinerator. */
  lemma EveryDebitIsAuthorised(env: Env, l: Ledger, accounts: seq<Meta>, op: Operation, key: Address)
    requires SlotsOk(env, l) && Apply(env, l, accounts, op).Ok?
    requires Get(l, key).data.AccountData? && Get(Apply(env, l, accounts, op).value, key).data.AccountData?
    requires Get(Apply(env, l, accounts, op).value, key).data.account.base.amount < Get(l, key).data.account.base.amount
    ensures op.OpTransfer? || op.OpBurn? || op.OpUnwrapLamports?
    ensures Names(accounts, 0, key)
    ensures var a, a' := Get(l, key).data.account.base, Get(Apply(env, l, accounts, op).value, key).data.account.base;
            || (op.OpBurn? && a.OwnedBySystemProgramOrIncinerator())
            || (AuthorityIndex(op) < |accounts|
                && Entitled(l, a, accounts[AuthorityIndex(op)], accounts[AuthorityIndex(op) + 1..], a.amount - a'.amount))
  {
    AccountsEvolve(env, l, accounts, op, key);
    var a, a' := Get(l, key).data.account, Get(Apply(env, l, accounts, op).value, key).data.account;
    LoweredIsDebited(env, l, accounts, op, key, a, a');
    DebitedIsEntitled(env, l, accounts, op, a, a');
  }

  /** Of the ways an account can change, only a debit lowers its amount. */
  lemma LoweredIsDebited(env: Env, l: Ledger, accounts: seq<Meta>, op: Operation, key: Address, a: TokenAccount, a': TokenAccount)
    requires SlotOk(env, key, Get(l, key)) && Get(l, key).data == AccountData(a)
    requires Evolves(env, l, accounts, op, key, a, a') && a'.base.amount < a.base.amount
    ensures Names(accounts, 0, key) && Debited(env, l, accounts, op, a, a')
  {
  }

  lemma DebitedIsEntitled(env: Env, l: Ledger, accounts: seq<Meta>, op: Operation, a: TokenAccount, a': TokenAccount)
    requires Debited(env, l, accounts, op, a, a')
    ensures op.OpTransfer? || op.OpBurn? || op.OpUnwrapLamports?
    ensures a'.base.amount <= a.base.amount
    ensures || (op.OpBurn? && a.base.OwnedBySystemProgramOrIncinerator())
            || (AuthorityIndex(op) < |accounts|
                && Entitled(l, a.base, accounts[AuthorityIndex(op)], accounts[AuthorityIndex(op) + 1..],
                            a.base.amount - a'.base.amount))
  {
  }

  /** Every handover is authorised: the owner, the close authority and the delegate of an
      account change only on the signature of whoever held the right before, or because the
      delegate has used up the allowance; and a new owner finds no delegate. */
  lemma EveryHandoverIsAuthorised(env: Env, l: Ledger, accounts: seq<Meta>, op: Operation, key: Address)
    requires SlotsOk(env, l) && Apply(env, l, accounts, op).Ok?
    requires Get(l, key).data.AccountData? && Get(Apply(env, l, accounts, op).value, key).data.AccountData?
    ensures var a, a' := Get(l, key).data.account, Get(Apply(env, l, accounts, op).value, key).data.account;
            Handover(l, accounts, op, a, a'.base)
  {
    AccountsEvolve(env, l, accounts, op, key);
    var a, a' := Get(l, key).data.account, Get(Apply(env, l, accounts, op).value, key).data.account;
    EvolvedIsHandedOver(env, l, accounts, op, key, a, a');
  }

  predicate Handover(l: Ledger, accounts: seq<Meta>, op: Operation, a: TokenAccount, a': Account) {
    && (a'.owner != a.base.owner ==>
          && op == OpSetAuthority(AccountOwner, Some(a'.owner)) && !a.ext.immutableOwner
          && Signed(l, Some(a.base.owner), accounts, 1)
          && a'.delegate.None? && a'.delegatedAmount == 0)
    && (a'.closeAuthority != a.base.closeAuthority ==>
          || (op == OpSetAuthority(AuthorityType.CloseAccount, a'.closeAuthority) && Signed(l, Some(Closer(a.base)), accounts, 1))
          || (a.base.IsNative() && a'.closeAuthority.None? && Signed(l, Some(a.base.owner), accounts, 1)))
    && (a'.delegate.Some? && (a'.delegate != a.base.delegate || a'.delegatedAmount > a.base.delegatedAmount) ==>
          && op.OpApprove? && a'.delegatedAmount == op.amount
          && var d := if op.checked.Some? then 2 else 1;
             Names(accounts, d, a'.delegate.value) && Signed(l, Some(a.base.owner), accounts, d + 1))
    && (a.base.delegate.Some? && a'.delegate.None? ==>
          || (op.OpRevoke? && (Signed(l, Some(a.base.owner), accounts, 1) || Signed(l, a.base.delegate, accounts, 1)))
          || (op.OpSetAuthority? && op.authorityType == AccountOwner && Signed(l, Some(a.base.owner), accounts, 1))
          || UsedUp(l, accounts, op, a.base, a'))
  }

  /** The delegate's own debit took exactly the allowance that was left. */
  predicate UsedUp(l: Ledger, accounts: seq<Meta>, op: Operation, a: Account, a': Account) {
    && (op.OpTransfer? || op.OpBurn? || op.OpUnwrapLamports?)
    && a'.amount + a.delegatedAmount == a.amount
    && AuthorityIndex(op) < |accounts| && a.delegate == Some(accounts[AuthorityIndex(op)].key)
    && Signed(l, a.delegate, accounts, AuthorityIndex(op))
  }

  lemma EvolvedIsHandedOver(env: Env, l: Ledger, accounts: seq<Meta>, op: Operation, key: Address, a: TokenAccount, a': TokenAccount)
    requires Evolves(env, l, accounts, op, key, a, a')
    ensures Handover(l, accounts, op, a, a'.base)
  {
  }

  predicate FrozenAt(l: Ledger, key: Address) {
    Get(l, key).data.AccountData? && Get(l, key).data.account.base.IsFrozen()
  }

  /** The freeze authority of the account's mint thaws it. */
  predicate Thaws(l: Ledger, accounts: seq<Meta>, op: Operation, key: Address) {
    && op == OpToggleFreeze(false) && Names(accounts, 0, key)
    && Get(l, key).data.AccountData?
    && var mint := Get(l, Get(l, key).data.account.base.mint);
       mint.data.MintData? && Signed(l, mint.data.mint.base.freezeAuthority, accounts, 2)
  }

  /** The account is closed, empty. */
  predicate ClosesEmpty(l: Ledger, accounts: seq<Meta>, op: Operation, key: Address) {
    && op.OpCloseAccount? && Names(accounts, 0, key)
    && Get(l, key).data.AccountData?
    && Get(l, key).data.account.base.amount == 0 && Withheld(Get(l, key).data.account) == 0
  }

  /** Until it is thawed by its mint's freeze authority, or closed with a zero balance
      and no withheld fees, nothing about a frozen account's record changes. */
  lemma FrozenStaysPut(env: Env, l: Ledger, accounts: seq<Meta>, op: Operation, key: Address)
    requires SlotsOk(env, l) && FrozenAt(l, key) && Apply(env, l, accounts, op).Ok?
    ensures || Thaws(l, accounts, op, key)
            || ClosesEmpty(l, accounts, op, key)
            || Get(Apply(env, l, accounts, op).value, key).data == Get(l, key).data
  {
    assert SlotOk(env, key, Get(l, key));
    if Get(Apply(env, l, accounts, op).value, key).data.AccountData? {
      AccountsEvolve(env, l, accounts, op, key);
    } else {
      AccountsDisappear(env, l, accounts, op, key);
    }
  }

  /** An account that is not native, with tokens in it, cannot be closed at all. */
  lemma FundedAccountsStay(env: Env, l: Ledger, accounts: seq<Meta>, op: Operation, key: Address)
    requires SlotsOk(env, l) && Apply(env, l, accounts, op).Ok?
    requires Get(l, key).data.AccountData? && !Get(l, key).data.account.base.IsNative()
    requires Get(l, key).data.account.base.amount > 0
    ensures Get(Apply(env, l, accounts, op).value, key).data.AccountData?
  {
    if !Get(Apply(env, l, accounts, op).value, key).data.AccountData? {
      AccountsDisappear(env, l, accounts, op, key);
    }
  }

  /** Tokens of `mint` the instruction issues into the account at `key`, less those it
      burns from it. */
  function Issue(accounts: seq<Meta>, op: Operation, key: Address): int {
    if op.OpMintTo? && Names(accounts, 1, key) then op.amount
    else if op.OpBurn? && Names(accounts, 0, key) then 0 - op.amount as int
    else 0
  }

  /** No transfer moves tokens of a non-transferable mint. */
  lemma NoTransferOfLockedTokens(env: Env, l: Ledger, accounts: seq<Meta>, amount: u64, kind: TransferKind)
    requires TokensOk(env, l) && Transfer(env, l, accounts, amount, kind).Ok?
    requires accounts[0].key != TransferDestination(accounts, kind)
    requires Get(l, accounts[0].key).data.AccountData? ==> IsNonTransferableMint(Get(l, Get(l, accounts[0].key).data.account.base.mint))
    ensures amount == 0
  {
    TransferMoves(env, l, accounts, amount, kind);
    var slot := Get(l, accounts[0].key);
    assert HasTokens(slot, slot.data.account.base.mint) <==> slot.data.account.base.amount > 0;
  }

  /** The balance of an account of a non-transferable mint changes by minting and
      burning alone, and an account with an immutable owner keeps it. */
  lemma LockedTokensStay(env: Env, l: Ledger, accounts: seq<Meta>, op: Operation, key: Address)
    requires TokensOk(env, l) && Apply(env, l, accounts, op).Ok?
    requires Get(l, key).data.AccountData? && Get(Apply(env, l, accounts, op).value, key).data.AccountData?
    requires IsNonTransferableMint(Get(l, Get(l, key).data.account.base.mint))
    ensures var a, a' := Get(l, key).data.account, Get(Apply(env, l, accounts, op).value, key).data.account;
            && a'.base.mint == a.base.mint
            && a'.base.amount == a.base.amount + Issue(accounts, op, key)
            && (a.ext.immutableOwner ==> a'.base.owner == a.base.owner && a'.ext.immutableOwner)
  {
    var a := Get(l, key).data.account;
    AccountsEvolve(env, l, accounts, op, key);
    assert SlotOk(env, key, Get(l, key));
    assert SlotOk(env, a.base.mint, Get(l, a.base.mint));
    if op.OpTransfer? && accounts[0].key != TransferDestination(accounts, op.kind) {
      TransferLeavesLocked(env, l, accounts, op.amount, op.kind, key);
    } else {
      LockedElsewhere(env, l, accounts, op, key);
    }
  }

  lemma TransferLeavesLocked(env: Env, l: Ledger, accounts: seq<Meta>, amount: u64, kind: TransferKind, key: Address)
    requires TokensOk(env, l) && Transfer(env, l, accounts, amount, kind).Ok?
    requires accounts[0].key != TransferDestination(accounts, kind)
    requires Get(l, key).data.AccountData? && IsNonTransferableMint(Get(l, Get(l, key).data.account.base.mint))
    ensures Get(Transfer(env, l, accounts, amount, kind).value, key).data.AccountData?
    ensures Get(Transfer(env, l, accounts, amount, kind).value, key).data.account.base.amount == Get(l, key).data.account.base.amount
  {
    if key == accounts[0].key || key == TransferDestination(accounts, kind) {
      TransferMoves(env, l, accounts, amount, kind);
      NoTransferOfLockedTokens(env, l, accounts, amount, kind);
    } else {
      TransferFrame(env, l, accounts, amount, kind, key);
    }
  }

  lemma LockedElsewhere(env: Env, l: Ledger, accounts: seq<Meta>, op: Operation, key: Address)
    requires SlotsOk(env, l) && Apply(env, l, accounts, op).Ok?
    requires Get(l, key).data.AccountData? && Get(Apply(env, l, accounts, op).value, key).data.AccountData?
    requires !Get(l, key).data.account.base.IsNative()
    requires op.OpTransfer? ==> accounts[0].key == TransferDestination(accounts, op.kind)
    ensures Get(Apply(env, l, accounts, op).value, key).data.account.base.amount == Get(l, key).data.account.base.amount + Issue(accounts, op, key)
  {
    AccountsEvolve(env, l, accounts, op, key);
    if !Touches(accounts, op, key) {
      UntouchedRecords(env, l, accounts, op, key);
    } else if op.OpMintTo? {
      MintToIssues(env, l, accounts, op.amount, op.checked);
    } else if op.OpBurn? {
      BurnIssues(env, l, accounts, op.amount, op.permissioned, op.checked);
    }
  }

  // ---------------------------------------------------------------- SyncNative

  /** SyncNative makes the amount exactly the lamports above the reserve. */
  lemma SyncIsExact(env: Env, l: Ledger, accounts: seq<Meta>)
    requires SyncNative(env, l, accounts).Ok?
    ensures var slot := Get(SyncNative(env, l, accounts).value, accounts[0].key);
            && slot.data.AccountData? && slot.data.account.base.IsNative()
            && slot.lamports == slot.data.account.base.amount + slot.data.account.base.isNative.value
            && SameRecord(Get(l, accounts[0].key).(data := slot.data), slot)
  {
  }

  /** A second SyncNative changes nothing. */
  lemma SyncIsIdempotent(env: Env, l: Ledger, accounts: seq<Meta>)
    requires SyncNative(env, l, accounts).Ok?
    ensures SyncNative(env, SyncNative(env, l, accounts).value, accounts) == SyncNative(env, l, accounts)
  {
    var l' := SyncNative(env, l, accounts).value;
    assert l'[accounts[0].key := l'[accounts[0].key]] == l';
  }

  /** With rent unchanged, SyncNative succeeds on every native account, unless its list goes on
      with something other than the rent sysvar, and never takes from it. */
  lemma SyncNeverDebits(env: Env, l: Ledger, accounts: seq<Meta>, key: Address)
    requires SlotsOk(env, l) && Names(accounts, 0, key)
    requires Get(l, key).data.AccountData? && Get(l, key).data.account.base.IsNative()
    ensures SyncNative(env, l, accounts).Ok? <==> (|accounts| >= 2 ==> accounts[1].key == RENT_SYSVAR)
    ensures SyncNative(env, l, accounts).Ok? ==>
              && Get(SyncNative(env, l, accounts).value, key).data.AccountData?
              && Get(SyncNative(env, l, accounts).value, key).data.account.base.amount >= Get(l, key).data.account.base.amount
  {
    assert SlotOk(env, key, Get(l, key));
  }
}
