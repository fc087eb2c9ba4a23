/** Delegate allowances: what a delegate has taken since the latest approval, over
    any run, measured on the balances themselves. */
module Delegation {
  import opened Base
  import opened State
  import opened Authority
  import opened Processor
  import opened Invariant
  import opened Evolution
  import opened Safety
  import opened Runs
  import opened Continuations

  /** The watch kept on one account: whether its latest approval still stands, what it
      granted, and what has been debited by the delegate since. */
  datatype Watch = Watch(standing: bool, granted: nat, spent: nat)

  /** The instruction acts on the account in the name of its delegate: the delegate is
      the authority, and neither the permanent delegate nor an unguarded burn. */
  predicate ByDelegate(l: Ledger, accounts: seq<Meta>, op: Operation, key: Address) {
    && (op.OpTransfer? || op.OpBurn? || op.OpUnwrapLamports?)
    && Names(accounts, 0, key) && AuthorityIndex(op) < |accounts|
    && Get(l, key).data.AccountData?
    && var a := Get(l, key).data.account.base;
       && a.delegate == Some(accounts[AuthorityIndex(op)].key)
       && (op.OpBurn? ==> !a.OwnedBySystemProgramOrIncinerator())
       && (op.OpBurn? || (op.OpTransfer? && !op.kind.Unchecked?) ==> PermanentDelegateOf(l, a.mint) != a.delegate)
  }

  /** The instruction ends the approval: a revocation, a new owner, or the end of the
      account (or the start of a new one at the same key). */
  predicate EndsApproval(accounts: seq<Meta>, op: Operation, key: Address) {
    && Names(accounts, 0, key)
    && (op.OpRevoke? || (op.OpSetAuthority? && op.authorityType == AccountOwner) || op.OpCloseAccount? || op.OpInitializeAccount?)
  }

  function BalanceAt(l: Ledger, key: Address): nat {
    if Get(l, key).data.AccountData? then Get(l, key).data.account.base.amount else 0
  }

  /** The watch after an event that leads from `l` to `l'`. */
  function Observe(env: Env, l: Ledger, e: Event, l': Ledger, key: Address, w: Watch): Watch {
    if !Succeeds(env, l, e) then w
    else if e.op.OpApprove? && Names(e.accounts, 0, key) then Watch(true, e.op.amount, 0)
    else if EndsApproval(e.accounts, e.op, key) then w.(standing := false)
    else if ByDelegate(l, e.accounts, e.op, key) && BalanceAt(l', key) <= BalanceAt(l, key) then
      w.(spent := w.spent + (BalanceAt(l, key) - BalanceAt(l', key)))
    else w
  }

  /** The watch agrees with the account: while the approval stands, spent and left add
      up to what was granted; otherwise nothing is left and nobody is delegate. */
  predicate Agrees(slot: Slot, w: Watch) {
    && w.spent <= w.granted
    && (w.standing ==> slot.data.AccountData? && w.spent + slot.data.account.base.delegatedAmount == w.granted)
    && (!w.standing && slot.data.AccountData? ==>
          slot.data.account.base.delegate.None? && slot.data.account.base.delegatedAmount == 0)
  }

  /** An account that stays one, under an instruction that is neither an approval nor
      the end of one: the allowance moves with the delegate's debits alone. */
  lemma AllowanceFollowsDebits(env: Env, l: Ledger, accounts: seq<Meta>, op: Operation, key: Address)
    requires SlotsOk(env, l) && Apply(env, l, accounts, op).Ok?
    requires Get(l, key).data.AccountData? && Get(Apply(env, l, accounts, op).value, key).data.AccountData?
    requires !(op.OpApprove? && Names(accounts, 0, key)) && !EndsApproval(accounts, op, key)
    ensures var l' := Apply(env, l, accounts, op).value;
            var a, a' := Get(l, key).data.account.base, Get(l', key).data.account.base;
            && (ByDelegate(l, accounts, op, key) ==>
                  a'.amount <= a.amount && a'.delegatedAmount == a.delegatedAmount - (a.amount - a'.amount))
            && (!ByDelegate(l, accounts, op, key) ==> a'.delegatedAmount == a.delegatedAmount)
            && (a.delegate.None? ==> a'.delegate.None?)
  {
    AccountsEvolve(env, l, accounts, op, key);
    assert SlotOk(env, key, Get(l, key));
  }

  /** An approval sets the allowance; ending one clears it. */
  lemma ApprovalEffects(env: Env, l: Ledger, accounts: seq<Meta>, op: Operation, key: Address)
    requires SlotsOk(env, l) && Apply(env, l, accounts, op).Ok? && Names(accounts, 0, key)
    ensures op.OpApprove? ==>
              var slot := Get(Apply(env, l, accounts, op).value, key);
              slot.data.AccountData? && slot.data.account.base.delegatedAmount == op.amount
    ensures EndsApproval(accounts, op, key) && Get(Apply(env, l, accounts, op).value, key).data.AccountData? ==>
              var a' := Get(Apply(env, l, accounts, op).value, key).data.account.base;
              a'.delegate.None? && a'.delegatedAmount == 0
  {
  }

  lemma InstructionAgrees(env: Env, l: Ledger, accounts: seq<Meta>, op: Operation, key: Address, w: Watch)
    requires SlotsOk(env, l) && Apply(env, l, accounts, op).Ok? && Agrees(Get(l, key), w)
    requires !(op.OpApprove? && Names(accounts, 0, key)) && !EndsApproval(accounts, op, key)
    ensures var l' := Apply(env, l, accounts, op).value;
            Agrees(Get(l', key),
                   if ByDelegate(l, accounts, op, key) && BalanceAt(l', key) <= BalanceAt(l, key)
                   then w.(spent := w.spent + (BalanceAt(l, key) - BalanceAt(l', key))) else w)
  {
    var l' := Apply(env, l, accounts, op).value;
    if Get(l, key).data.AccountData? {
      if Get(l', key).data.AccountData? {
        AllowanceFollowsDebits(env, l, accounts, op, key);
      } else {
        AccountsDisappear(env, l, accounts, op, key);
      }
    } else if Get(l', key).data.AccountData? {
      AccountsAppear(env, l, accounts, op, key);
    }
  }

  lemma ObserveAgrees(env: Env, l: Ledger, e: Event, key: Address, w: Watch)
    requires TokensOk(env, l) && Agrees(Get(l, key), w)
    ensures Agrees(Get(Next(env, l, e), key), Observe(env, l, e, Next(env, l, e), key, w))
  {
    if Succeeds(env, l, e) {
      SlotsOkAt(env, l, e);
      if Names(e.accounts, 0, key) && (e.op.OpApprove? || EndsApproval(e.accounts, e.op, key)) {
        ApprovalEffects(EnvOf(env, e), l, e.accounts, e.op, key);
      } else {
        InstructionAgrees(EnvOf(env, e), l, e.accounts, e.op, key, w);
      }
    } else {
      OutsideAgrees(env, l, e, key, w);
    }
  }

  lemma OutsideAgrees(env: Env, l: Ledger, e: Event, key: Address, w: Watch)
    requires TokensOk(env, l) && Agrees(Get(l, key), w) && !Succeeds(env, l, e)
    ensures Agrees(Get(Next(env, l, e), key), w)
  {
    if Get(l, key).data.AccountData? || Get(Next(env, l, e), key).data.AccountData? {
      OutsideLeavesAccounts(env, l, e, key);
    }
  }

  /** The watch on an account kept through a run. */
  ghost function WatchOver(env: Env, l: Ledger, events: seq<Event>, key: Address, w: Watch): Watch
    decreases |events|
  {
    if events == [] then w
    else WatchOver(env, Next(env, l, events[0]), events[1..], key, Observe(env, l, events[0], Next(env, l, events[0]), key, w))
  }

  lemma {:induction false} WatchAgrees(env: Env, l: Ledger, events: seq<Event>, key: Address, w: Watch)
    requires Inv(env, l) && Agrees(Get(l, key), w)
    ensures Agrees(Get(Exec(env, l, events), key), WatchOver(env, l, events, key, w))
    decreases |events|
  {
    if events != [] {
      ObserveAgrees(env, l, events[0], key, w);
      NextKeeps(env, l, events[0]);
      WatchAgrees(env, Next(env, l, events[0]), events[1..], key,
                  Observe(env, l, events[0], Next(env, l, events[0]), key, w));
    }
  }

  /** After any run, the delegate's debits since the latest approval have not exceeded
      what it granted; while it stands, they and the remaining allowance add up to the
      grant; when it has ended, there is no delegate and no allowance. */
  lemma DelegatesStayWithinGrant(env: Env, events: seq<Event>, key: Address)
    ensures var w := WatchOver(env, map[], events, key, Watch(false, 0, 0));
            var slot := Get(After(env, events), key);
            && w.spent <= w.granted
            && (w.standing ==> slot.data.AccountData? && w.spent + slot.data.account.base.delegatedAmount == w.granted)
            && (!w.standing && slot.data.AccountData? ==>
                  slot.data.account.base.delegate.None? && slot.data.account.base.delegatedAmount == 0)
            && (slot.data.AccountData? && slot.data.account.base.delegate.None? ==> slot.data.account.base.delegatedAmount == 0)
  {
    InvAtStart(env);
    WatchAgrees(env, map[], events, key, Watch(false, 0, 0));
    RunsKeepInvariant(env, events);
    assert SlotOk(env, key, Get(After(env, events), key));
  }
}
