/** Where lamports and fees go: every instruction's payment, what it does to native
    accounts, and what a transfer withholds. */
module Payments {
  import opened Base
  import opened State
  import opened Authority
  import opened Processor
  import opened Invariant
  import opened Effects
  import opened Evolution

  /** One sum of lamports, from one slot to another. */
  datatype Payment = Payment(from: Address, to: Address, lamports: nat)

  const NOTHING := Payment(SYSTEM_PROGRAM, SYSTEM_PROGRAM, 0)

  predicate HoldsNative(l: Ledger, key: Address) {
    Get(l, key).data.AccountData? && Get(l, key).data.account.base.isNative != None
  }

  /** What a successful instruction pays: native tokens' lamports, all of a closed slot's,
      what lies above the rent, what is unwrapped, or what the native mint lacks. */
  function PaymentOf(env: Env, l: Ledger, accounts: seq<Meta>, op: Operation): Payment {
    if |accounts| < 2 then NOTHING
    else
      var first, second := accounts[0].key, accounts[1].key;
      match op
      case OpTransfer(amount, kind) =>
        var d := DestinationIndex(kind);
        if d < |accounts| && HoldsNative(l, first) then Payment(first, accounts[d].key, amount) else NOTHING
      case OpCloseAccount => Payment(first, second, Get(l, first).lamports)
      case OpWithdrawExcessLamports =>
        var kept := env.rent(Get(l, first).len);
        if kept <= Get(l, first).lamports then Payment(first, second, Get(l, first).lamports - kept) else NOTHING
      case OpUnwrapLamports(requested) =>
        if HoldsNative(l, first) then Payment(first, second, Unwrapped(Get(l, first).data.account.base, requested)) else NOTHING
      case OpCreateNativeMint =>
        var have, least := Get(l, second).lamports, env.rent(82);
        if have < least then Payment(first, second, least - have) else NOTHING
      case _ => NOTHING
  }

  /** What the payment means for the balance of one key. */
  function Change(p: Payment, key: Address): int {
    if p.from == p.to then 0 else if key == p.from then -(p.lamports as int) else if key == p.to then p.lamports else 0
  }

  /** Lamports move by the instruction's one payment, and in no other way. */
  lemma LamportsFlow(env: Env, l: Ledger, accounts: seq<Meta>, op: Operation, key: Address)
    requires Apply(env, l, accounts, op).Ok?
    ensures Get(Apply(env, l, accounts, op).value, key).lamports == Get(l, key).lamports + Change(PaymentOf(env, l, accounts, op), key)
  {
    match op
    case OpTransfer(amount, kind) => TransferFlow(env, l, accounts, amount, kind, key);
    case OpCloseAccount => CloseFlow(env, l, accounts, key);
    case OpWithdrawExcessLamports => WithdrawExactly(env, l, accounts);
    case OpUnwrapLamports(requested) => UnwrapExactly(env, l, accounts, requested);
    case OpCreateNativeMint => CreateNativeMintExactly(env, l, accounts);
    case _ => NoFlow(env, l, accounts, op, key);
  }

  lemma TransferFlow(env: Env, l: Ledger, accounts: seq<Meta>, amount: u64, kind: TransferKind, key: Address)
    requires Transfer(env, l, accounts, amount, kind).Ok?
    ensures Get(Transfer(env, l, accounts, amount, kind).value, key).lamports
         == Get(l, key).lamports + Change(PaymentOf(env, l, accounts, OpTransfer(amount, kind)), key)
  {
    if |accounts| > DestinationIndex(kind) && accounts[0].key == accounts[DestinationIndex(kind)].key {
      SelfTransferExactly(env, l, accounts, amount, kind);
    } else {
      TransferExactly(env, l, accounts, amount, kind);
    }
  }

  lemma CloseFlow(env: Env, l: Ledger, accounts: seq<Meta>, key: Address)
    requires CloseSlot(env, l, accounts).Ok?
    ensures Get(CloseSlot(env, l, accounts).value, key).lamports == Get(l, key).lamports + Change(PaymentOf(env, l, accounts, OpCloseAccount), key)
  {
    if IsAccount(l, accounts[0].key) {
      CloseAccountExactly(env, l, accounts);
    } else if IsMint(l, accounts[0].key) {
      CloseMintExactly(env, l, accounts);
    } else {
      OnlyRecordsAreClosed(env, l, accounts);
    }
  }

  lemma NoFlow(env: Env, l: Ledger, accounts: seq<Meta>, op: Operation, key: Address)
    requires !op.OpTransfer? && !op.OpCloseAccount? && !op.OpWithdrawExcessLamports? && !op.OpUnwrapLamports? && !op.OpCreateNativeMint?
    requires Apply(env, l, accounts, op).Ok?
    ensures Get(Apply(env, l, accounts, op).value, key).lamports == Get(l, key).lamports
  {
  }

  // ---------------------------------------------------------------- native accounts

  /** The lamports of a native account that are not counted in its amount. */
  function Uncounted(slot: Slot): int
    requires slot.data.AccountData?
  {
    slot.lamports - slot.data.account.base.amount
  }

  /** Lamports that come into the slot at `key` without being counted: paid in from a slot that
      is closed, withdrawn from or unwrapped, or unwrapped by the account onto itself. */
  function CameUncounted(env: Env, l: Ledger, accounts: seq<Meta>, op: Operation, key: Address): nat {
    var p := PaymentOf(env, l, accounts, op);
    if op.OpTransfer? || p.to != key then 0
    else if p.from == p.to && !op.OpUnwrapLamports? then 0
    else p.lamports
  }

  /** The uncounted lamports of a native account change only when it is synced, and are then
      its reserve, or by what comes in uncounted. */
  lemma NativeAmountsFollowLamports(env: Env, l: Ledger, accounts: seq<Meta>, op: Operation, key: Address)
    requires SlotsOk(env, l) && Apply(env, l, accounts, op).Ok?
    requires HoldsNative(l, key) && Get(Apply(env, l, accounts, op).value, key).data.AccountData?
    ensures var slot, slot' := Get(l, key), Get(Apply(env, l, accounts, op).value, key);
            if op.OpSyncNative? && Names(accounts, 0, key) then Uncounted(slot') == env.rent(slot.len)
            else Uncounted(slot') == Uncounted(slot) + CameUncounted(env, l, accounts, op, key)
  {
    assert SlotOk(env, key, Get(l, key));
    match op
    case OpTransfer(amount, kind) => NativeTransfer(env, l, accounts, amount, kind, key);
    case OpUnwrapLamports(requested) => NativeUnwrap(env, l, accounts, requested, key);
    case OpSyncNative => SyncNativeExactly(env, l, accounts);
    case _ =>
      LamportsFlow(env, l, accounts, op, key);
      NativeElsewhere(env, l, accounts, op, key);
  }

  lemma NativeTransfer(env: Env, l: Ledger, accounts: seq<Meta>, amount: u64, kind: TransferKind, key: Address)
    requires SlotsOk(env, l) && Transfer(env, l, accounts, amount, kind).Ok? && HoldsNative(l, key)
    ensures Get(Transfer(env, l, accounts, amount, kind).value, key).data.AccountData?
    ensures Uncounted(Get(Transfer(env, l, accounts, amount, kind).value, key)) == Uncounted(Get(l, key))
  {
    if |accounts| > DestinationIndex(kind) && accounts[0].key == accounts[DestinationIndex(kind)].key {
      SelfTransferExactly(env, l, accounts, amount, kind);
    } else {
      TransferExactly(env, l, accounts, amount, kind);
      assert SlotOk(env, accounts[0].key, Get(l, accounts[0].key));
      assert SlotOk(env, accounts[DestinationIndex(kind)].key, Get(l, accounts[DestinationIndex(kind)].key));
      assert SlotOk(env, NATIVE_MINT, Get(l, NATIVE_MINT));
    }
  }

  lemma NativeUnwrap(env: Env, l: Ledger, accounts: seq<Meta>, requested: Option<u64>, key: Address)
    requires UnwrapLamports(env, l, accounts, requested).Ok? && HoldsNative(l, key)
    ensures Get(UnwrapLamports(env, l, accounts, requested).value, key).data.AccountData?
    ensures Uncounted(Get(UnwrapLamports(env, l, accounts, requested).value, key))
         == Uncounted(Get(l, key)) + CameUncounted(env, l, accounts, OpUnwrapLamports(requested), key)
  {
    UnwrapExactly(env, l, accounts, requested);
  }

  /** The other instructions leave a native account's amount alone, and pay nothing out of it. */
  lemma NativeElsewhere(env: Env, l: Ledger, accounts: seq<Meta>, op: Operation, key: Address)
    requires !op.OpTransfer? && !op.OpUnwrapLamports? && !op.OpSyncNative?
    requires SlotsOk(env, l) && Apply(env, l, accounts, op).Ok?
    requires HoldsNative(l, key) && Get(Apply(env, l, accounts, op).value, key).data.AccountData?
    ensures Get(Apply(env, l, accounts, op).value, key).data.account.base.amount == Get(l, key).data.account.base.amount
    ensures Change(PaymentOf(env, l, accounts, op), key) == CameUncounted(env, l, accounts, op, key)
  {
    assert SlotOk(env, key, Get(l, key));
    AccountsEvolve(env, l, accounts, op, key);
    if op.OpWithdrawExcessLamports? {
      WithdrawExactly(env, l, accounts);
    } else if op.OpCloseAccount? {
      ClosingLeavesNothing(env, l, accounts);
    } else if op.OpCreateNativeMint? {
      CreateNativeMintExactly(env, l, accounts);
    }
  }

  lemma ClosingLeavesNothing(env: Env, l: Ledger, accounts: seq<Meta>)
    requires CloseSlot(env, l, accounts).Ok?
    ensures |accounts| >= 3 && accounts[0].key != accounts[1].key
    ensures Get(CloseSlot(env, l, accounts).value, accounts[0].key) == EMPTY_SLOT
  {
  }

  // ---------------------------------------------------------------- fees

  /** A transfer to another account raises the destination's withheld fee by exactly the fee,
      and its amount by the rest; the fee is the epoch's of a mint that charges one, and is
      the one stated if one is stated; a mint that is named is the account's own and has the
      decimals stated; and nobody sends under the owner's key from a guarded account through
      another program. */
  lemma TransfersChargeTheFee(env: Env, l: Ledger, accounts: seq<Meta>, amount: u64, kind: TransferKind)
    requires Transfer(env, l, accounts, amount, kind).Ok?
    requires |accounts| > DestinationIndex(kind) ==> accounts[0].key != accounts[DestinationIndex(kind)].key
    ensures |accounts| >= DestinationIndex(kind) + 2
    ensures var source, destination := accounts[0].key, accounts[DestinationIndex(kind)].key;
            var l' := Transfer(env, l, accounts, amount, kind).value;
            && IsAccount(l, source) && IsAccount(l, destination) && Get(l', destination).data.AccountData?
            && var src, dst, dst' := AccountOf(l, source), AccountOf(l, destination), Get(l', destination).data.account;
               var fee := if kind.Unchecked? then 0 else FeeTaken(env, l, accounts[1].key, amount, kind);
               && fee <= amount && dst'.base.amount == dst.base.amount + amount - fee && Withheld(dst') == Withheld(dst) + fee
               && (kind.CheckedWithFee? ==> fee == kind.fee)
               && (!kind.Unchecked? ==>
                     && src.base.mint == accounts[1].key && IsMint(l, src.base.mint)
                     && MintOf(l, src.base.mint).base.decimals == kind.decimals
                     && fee == FeeOf(env, MintOf(l, src.base.mint), src.base.mint, amount))
               && !(src.ext.lockCpi && env.inCpi && accounts[DestinationIndex(kind) + 1].key == src.base.owner)
  {
    TransferExactly(env, l, accounts, amount, kind);
  }
}
