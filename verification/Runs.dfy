/** Runs of the ledger: instructions in any order, interleaved with whatever the
    rest of the chain may do, from a ledger on which no account exists. */
module Runs {
  import opened Base
  import opened State
  import opened Processor
  import opened Sums
  import opened Invariant
  import opened Lamports

  /** One event. An instruction that fails leaves the ledger as it was. Everything
      but `Instruction` is the environment: another program rewrites a slot it owns,
      the system program hands an unused slot to the token program (`tlv` stands for
      the extension initialisers run on it before its base record is written),
      lamports arrive from outside, and the extension processors flip their switches. */
  datatype Event =
    | Instruction(accounts: seq<Meta>, op: Operation, inCpi: bool, epochFee: (Address, u64) -> Option<u64>)
    | Foreign(key: Address, slot: Slot)
    | Allocate(key: Address, len: nat, tlv: Tlv)
    | Deposit(key: Address, lamports: u64)
    | SetPaused(key: Address, paused: bool)
    | SetCpiGuard(key: Address, lock: bool)
    | SetDefaultState(key: Address, state: AccountState)

  function EnvOf(env: Env, e: Event): Env
    requires e.Instruction?
  {
    env.(inCpi := e.inCpi, epochFee := e.epochFee)
  }

  /** The effect of an instruction of a run, if it succeeds. */
  function Outcome(env: Env, l: Ledger, e: Event): Result<Ledger>
    requires e.Instruction?
  {
    Apply(EnvOf(env, e), l, e.accounts, e.op)
  }

  predicate MayReplace(before: Slot, after: Slot) {
    && before.program != Token2022 && after.program != Token2022
    && (after.data == Fresh(NoTlv) || after.data.MultisigData?)
  }

  predicate MayAllocate(key: Address, slot: Slot, tlv: Tlv) {
    && key != NATIVE_MINT && slot.program == Other && slot.len == 0
    && (tlv.MintTlv? ==> tlv.ext.defaultState != Some(Uninitialized))
  }

  ghost function Next(env: Env, l: Ledger, e: Event): Ledger {
    match e
    case Instruction(_, _, _, _) => if Outcome(env, l, e).Ok? then Outcome(env, l, e).value else l
    case Foreign(key, slot) =>
      if MayReplace(Get(l, key), slot) && TotalLamports(l[key := slot]) <= U64_MAX then l[key := slot] else l
    case Allocate(key, len, tlv) =>
      if MayAllocate(key, Get(l, key), tlv)
      then l[key := Get(l, key).(program := Token2022, len := len, data := Fresh(tlv))] else l
    case Deposit(key, lamports) =>
      if TotalLamports(l) + lamports <= U64_MAX && Get(l, key).lamports + lamports <= U64_MAX
      then PutLamports(l, key, Get(l, key).lamports + lamports) else l
    case SetPaused(key, paused) =>
      var slot := Get(l, key);
      if slot.data.MintData? && slot.data.mint.ext.IsPausable()
      then PutMint(l, key, slot.data.mint.(ext := slot.data.mint.ext.(paused := paused))) else l
    case SetCpiGuard(key, lock) =>
      var slot := Get(l, key);
      if slot.data.AccountData?
      then PutAccount(l, key, slot.data.account.(ext := slot.data.account.ext.(lockCpi := lock))) else l
    case SetDefaultState(key, state) =>
      var slot := Get(l, key);
      if slot.data.MintData? && slot.data.mint.ext.defaultState.Some? && !state.Uninitialized?
      then PutMint(l, key, slot.data.mint.(ext := slot.data.mint.ext.(defaultState := Some(state)))) else l
  }

  ghost function Exec(env: Env, l: Ledger, events: seq<Event>): Ledger
    decreases |events|
  {
    if events == [] then l else Exec(env, Next(env, l, events[0]), events[1..])
  }

  /** The invariant reads nothing of the environment but the rent. */
  lemma SameRent(env: Env, env': Env, l: Ledger)
    requires env.rent == env'.rent && TokensOk(env, l)
    ensures TokensOk(env', l)
  {
    forall key ensures SlotOk(env', key, Get(l, key)) { assert SlotOk(env, key, Get(l, key)); }
  }

  lemma InstructionKeeps(env: Env, l: Ledger, e: Event)
    requires Inv(env, l) && e.Instruction? && Outcome(env, l, e).Ok?
    ensures Inv(env, Outcome(env, l, e).value)
  {
    SameRent(env, EnvOf(env, e), l);
    ApplyKeepsTokens(EnvOf(env, e), l, e.accounts, e.op);
    ApplyConservesLamports(EnvOf(env, e), l, e.accounts, e.op);
    SameRent(EnvOf(env, e), env, Outcome(env, l, e).value);
  }

  lemma EnvironmentKeeps(env: Env, l: Ledger, e: Event)
    requires Inv(env, l) && !e.Instruction?
    ensures Inv(env, Next(env, l, e))
  {
    var l' := Next(env, l, e);
    if l' != l {
      var key := e.key;
      assert SlotOk(env, key, Get(l, key));
      QuietUpdate(env, l, key, l'[key]);
      LamportsUpdate(l, key, l'[key]);
    }
  }

  lemma NextKeeps(env: Env, l: Ledger, e: Event)
    requires Inv(env, l)
    ensures Inv(env, Next(env, l, e))
  {
    if e.Instruction? {
      if Outcome(env, l, e).Ok? {
        InstructionKeeps(env, l, e);
      }
    } else {
      EnvironmentKeeps(env, l, e);
    }
  }

  lemma NothingHeld(l: Ledger, f: Slot -> nat)
    requires l == map[]
    ensures Sum(l, f) == 0
  {
  }

  lemma InvAtStart(env: Env)
    ensures Inv(env, map[])
  {
    var l: Ledger := map[];
    NothingHeld(l, LamportsOf());
    forall mint ensures Held(l, mint) == 0 { NothingHeld(l, HeldOf(mint)); }
  }

  lemma {:induction false} ExecKeeps(env: Env, l: Ledger, events: seq<Event>)
    requires Inv(env, l)
    ensures Inv(env, Exec(env, l, events))
    decreases |events|
  {
    if events != [] {
      NextKeeps(env, l, events[0]);
      ExecKeeps(env, Next(env, l, events[0]), events[1..]);
    }
  }

  /** The ledger after a run that starts with no accounts. */
  ghost function After(env: Env, events: seq<Event>): Ledger {
    Exec(env, map[], events)
  }

  lemma RunsKeepInvariant(env: Env, events: seq<Event>)
    ensures Inv(env, After(env, events))
  {
    InvAtStart(env);
    ExecKeeps(env, map[], events);
  }

  /** Supply conservation: after any run, the balances and withheld fees of a mint's
      accounts add up to its supply; once a mint is closed nothing of it is left, so
      one created later at its key starts with none outstanding. */
  lemma SupplyIsConserved(env: Env, events: seq<Event>, mint: Address)
    requires mint != NATIVE_MINT
    ensures var l := After(env, events);
            Held(l, mint) == if Get(l, mint).data.MintData? then Get(l, mint).data.mint.base.supply else 0
  {
    RunsKeepInvariant(env, events);
  }

  /** Native accounts are exactly those of the native mint, and after any run their
      amount and their reserve are covered by their lamports. */
  lemma NativeAccountsAreBacked(env: Env, events: seq<Event>, key: Address)
    requires Get(After(env, events), key).data.AccountData?
    ensures var slot := Get(After(env, events), key);
            var a := slot.data.account.base;
            && (a.IsNative() <==> a.mint == NATIVE_MINT)
            && (a.IsNative() ==>
                  a.isNative.value == env.rent(slot.len) && slot.lamports >= a.amount + a.isNative.value && !a.IsFrozen())
  {
    RunsKeepInvariant(env, events);
    assert SlotOk(env, key, Get(After(env, events), key));
  }
}
