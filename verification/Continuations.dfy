/** Properties of whole continuations of a run: from any ledger that satisfies the
    invariant, whatever instructions and outside events follow. */
module Continuations {
  import opened Base
  import opened State
  import opened Authority
  import opened Processor
  import opened Invariant
  import opened Evolution
  import opened Safety
  import opened Runs

  /** The event is an instruction that succeeds. */
  predicate Succeeds(env: Env, l: Ledger, e: Event) {
    e.Instruction? && Outcome(env, l, e).Ok?
  }

  /** Outside events leave an account's base record and its withheld fees alone. */
  lemma OutsideLeavesAccounts(env: Env, l: Ledger, e: Event, key: Address)
    requires SlotsOk(env, l) && !Succeeds(env, l, e)
    requires Get(l, key).data.AccountData? || Get(Next(env, l, e), key).data.AccountData?
    ensures Get(l, key).data.AccountData? && Get(Next(env, l, e), key).data.AccountData?
    ensures var a, a' := Get(l, key).data.account, Get(Next(env, l, e), key).data.account;
            a'.base == a.base && a'.ext == a.ext.(lockCpi := a'.ext.lockCpi)
  {
    assert SlotOk(env, key, Get(l, key));
  }

  /** Outside events leave a mint's base record alone, and whether it is transferable. */
  lemma OutsideLeavesMints(env: Env, l: Ledger, e: Event, key: Address)
    requires SlotsOk(env, l) && !Succeeds(env, l, e)
    requires Get(l, key).data.MintData?
    ensures Get(Next(env, l, e), key).data.MintData?
    ensures var m, m' := Get(l, key).data.mint, Get(Next(env, l, e), key).data.mint;
            && m'.base == m.base && m'.ext.authorities == m.ext.authorities && m'.ext.nonTransferable == m.ext.nonTransferable
  {
    assert SlotOk(env, key, Get(l, key));
  }

  /** The invariant of an instruction's own environment. */
  lemma SlotsOkAt(env: Env, l: Ledger, e: Event)
    requires TokensOk(env, l) && e.Instruction?
    ensures TokensOk(EnvOf(env, e), l)
  {
    SameRent(env, EnvOf(env, e), l);
  }

  // ---------------------------------------------------------------- freezing

  /** An instruction that can end a freeze: ThawAccount or CloseAccount on the account. */
  predicate MayRelease(e: Event, key: Address) {
    e.Instruction? && Names(e.accounts, 0, key) && (e.op == OpToggleFreeze(false) || e.op.OpCloseAccount?)
  }

  ghost predicate NeverReleased(env: Env, l: Ledger, events: seq<Event>, key: Address)
    decreases |events|
  {
    events == [] ||
    (!(MayRelease(events[0], key) && Succeeds(env, l, events[0])) && NeverReleased(env, Next(env, l, events[0]), events[1..], key))
  }

  lemma FrozenStep(env: Env, l: Ledger, e: Event, key: Address)
    requires TokensOk(env, l) && FrozenAt(l, key)
    requires !(MayRelease(e, key) && Succeeds(env, l, e))
    ensures FrozenAt(Next(env, l, e), key)
    ensures var a, a' := Get(l, key).data.account, Get(Next(env, l, e), key).data.account;
            a'.base == a.base && a'.ext.withheld == a.ext.withheld
  {
    if Succeeds(env, l, e) {
      SlotsOkAt(env, l, e);
      FrozenStaysPut(EnvOf(env, e), l, e.accounts, e.op, key);
    } else {
      OutsideLeavesAccounts(env, l, e, key);
    }
  }

  /** Freeze safety: on any continuation without a successful ThawAccount or
      CloseAccount of it, a frozen account stays frozen with the same amount, withheld
      fees, owner, delegate, allowance and close authority. */
  lemma {:induction false} FrozenUntilReleased(env: Env, l: Ledger, events: seq<Event>, key: Address)
    requires Inv(env, l) && FrozenAt(l, key) && NeverReleased(env, l, events, key)
    ensures FrozenAt(Exec(env, l, events), key)
    ensures var a, a' := Get(l, key).data.account, Get(Exec(env, l, events), key).data.account;
            a'.base == a.base && a'.ext.withheld == a.ext.withheld
    decreases |events|
  {
    if events != [] {
      FrozenStep(env, l, events[0], key);
      NextKeeps(env, l, events[0]);
      FrozenUntilReleased(env, Next(env, l, events[0]), events[1..], key);
    }
  }

  // ---------------------------------------------------------------- lives

  /** `mint` is a mint now and after every event: one life of it. */
  ghost predicate MintLives(env: Env, l: Ledger, events: seq<Event>, mint: Address)
    decreases |events|
  {
    Get(l, mint).data.MintData? && (events == [] || MintLives(env, Next(env, l, events[0]), events[1..], mint))
  }

  ghost predicate AccountLives(env: Env, l: Ledger, events: seq<Event>, key: Address)
    decreases |events|
  {
    Get(l, key).data.AccountData? && (events == [] || AccountLives(env, Next(env, l, events[0]), events[1..], key))
  }

  // ---------------------------------------------------------------- renounced authorities

  lemma RenouncedMintStep(env: Env, l: Ledger, e: Event, mint: Address)
    requires TokensOk(env, l) && Get(l, mint).data.MintData? && Get(Next(env, l, e), mint).data.MintData?
    ensures var m, m' := Get(l, mint).data.mint, Get(Next(env, l, e), mint).data.mint;
            && (m.base.mintAuthority.None? ==> m'.base.mintAuthority.None? && m'.base.supply <= m.base.supply)
            && (m.base.freezeAuthority.None? ==> m'.base.freezeAuthority.None?)
            && m'.ext.nonTransferable == m.ext.nonTransferable
  {
    if Succeeds(env, l, e) {
      SlotsOkAt(env, l, e);
      MintsEvolve(EnvOf(env, e), l, e.accounts, e.op, mint);
    } else {
      OutsideLeavesMints(env, l, e, mint);
    }
  }

  /** Once the mint authority is gone it stays gone, and the supply never rises again
      for as long as the mint lives. */
  lemma {:induction false} RenouncedSupplyNeverRises(env: Env, l: Ledger, events: seq<Event>, mint: Address)
    requires Inv(env, l) && MintLives(env, l, events, mint)
    requires Get(l, mint).data.mint.base.mintAuthority.None?
    ensures Get(Exec(env, l, events), mint).data.MintData?
    ensures var m' := Get(Exec(env, l, events), mint).data.mint.base;
            m'.mintAuthority.None? && m'.supply <= Get(l, mint).data.mint.base.supply
    decreases |events|
  {
    if events != [] {
      RenouncedMintStep(env, l, events[0], mint);
      NextKeeps(env, l, events[0]);
      RenouncedSupplyNeverRises(env, Next(env, l, events[0]), events[1..], mint);
    }
  }

  /** An account's mint never changes, and without a freeze authority neither does
      its state. */
  lemma StateStep(env: Env, l: Ledger, e: Event, key: Address)
    requires TokensOk(env, l) && Get(l, key).data.AccountData? && Get(Next(env, l, e), key).data.AccountData?
    ensures var a, a' := Get(l, key).data.account.base, Get(Next(env, l, e), key).data.account.base;
            && a'.mint == a.mint
            && (Get(l, a.mint).data.MintData? && Get(l, a.mint).data.mint.base.freezeAuthority.None? ==> a'.state == a.state)
  {
    if Succeeds(env, l, e) {
      SlotsOkAt(env, l, e);
      AccountsEvolve(EnvOf(env, e), l, e.accounts, e.op, key);
    } else {
      OutsideLeavesAccounts(env, l, e, key);
    }
  }

  /** Once the freeze authority is gone, no account of the mint is ever frozen or
      thawed again while both live. */
  lemma {:induction false} RenouncedFreezeNeverToggles(env: Env, l: Ledger, events: seq<Event>, mint: Address, key: Address)
    requires Inv(env, l) && MintLives(env, l, events, mint) && AccountLives(env, l, events, key)
    requires Get(l, mint).data.mint.base.freezeAuthority.None? && Get(l, key).data.account.base.mint == mint
    ensures Get(Exec(env, l, events), key).data.AccountData? && Get(Exec(env, l, events), mint).data.MintData?
    ensures Get(Exec(env, l, events), mint).data.mint.base.freezeAuthority.None?
    ensures Get(Exec(env, l, events), key).data.account.base.state == Get(l, key).data.account.base.state
    decreases |events|
  {
    if events != [] {
      RenouncedMintStep(env, l, events[0], mint);
      StateStep(env, l, events[0], key);
      NextKeeps(env, l, events[0]);
      RenouncedFreezeNeverToggles(env, Next(env, l, events[0]), events[1..], mint, key);
    }
  }

  // ---------------------------------------------------------------- non-transferable tokens

  /** Tokens issued into the account less those burnt from it, over a continuation. */
  ghost function NetIssue(env: Env, l: Ledger, events: seq<Event>, key: Address): int
    decreases |events|
  {
    if events == [] then 0
    else (if Succeeds(env, l, events[0]) then Issue(events[0].accounts, events[0].op, key) else 0)
         + NetIssue(env, Next(env, l, events[0]), events[1..], key)
  }

  lemma LockedStep(env: Env, l: Ledger, e: Event, key: Address)
    requires TokensOk(env, l) && Get(l, key).data.AccountData? && Get(Next(env, l, e), key).data.AccountData?
    requires IsNonTransferableMint(Get(l, Get(l, key).data.account.base.mint))
    ensures var a, a' := Get(l, key).data.account, Get(Next(env, l, e), key).data.account;
            && a'.base.mint == a.base.mint
            && a'.base.amount == a.base.amount + (if Succeeds(env, l, e) then Issue(e.accounts, e.op, key) else 0)
            && (a.ext.immutableOwner ==> a'.base.owner == a.base.owner && a'.ext.immutableOwner)
  {
    if Succeeds(env, l, e) {
      SlotsOkAt(env, l, e);
      LockedTokensStay(EnvOf(env, e), l, e.accounts, e.op, key);
    } else {
      OutsideLeavesAccounts(env, l, e, key);
    }
  }

  /** Non-transferable tokens stay put: while the mint and the account live, the balance
      is the initial one plus what was issued less what was burnt, and an account that
      holds such tokens keeps its owner. */
  lemma {:induction false} NonTransferableStaysPut(env: Env, l: Ledger, events: seq<Event>, mint: Address, key: Address)
    requires Inv(env, l) && MintLives(env, l, events, mint) && AccountLives(env, l, events, key)
    requires Get(l, key).data.account.base.mint == mint && IsNonTransferableMint(Get(l, mint))
    ensures Get(Exec(env, l, events), key).data.AccountData?
    ensures var a, a' := Get(l, key).data.account, Get(Exec(env, l, events), key).data.account;
            && a'.base.amount == a.base.amount + NetIssue(env, l, events, key)
            && (a.base.amount > 0 || a.ext.immutableOwner ==> a'.base.owner == a.base.owner)
    decreases |events|
  {
    assert HasTokens(Get(l, key), mint) ==> Locked(Get(l, key));
    if events != [] {
      LockedStep(env, l, events[0], key);
      RenouncedMintStep(env, l, events[0], mint);
      NextKeeps(env, l, events[0]);
      NonTransferableStaysPut(env, Next(env, l, events[0]), events[1..], mint, key);
    }
  }
}
