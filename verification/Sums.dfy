/** Totals over a ledger: the tokens held of one mint, and all lamports. */
module Sums {
  import opened Base
  import opened State

  ghost function Sum(l: Ledger, f: Slot -> nat): nat
    decreases |l|
  {
    if l == map[] then 0
    else
      var key :| key in l;
      f(l[key]) + Sum(l - {key}, f)
  }

  /** The sum does not depend on the order in which keys are picked. */
  lemma {:induction false} SumExtract(l: Ledger, f: Slot -> nat, key: Address)
    requires key in l
    ensures Sum(l, f) == f(l[key]) + Sum(l - {key}, f)
    decreases |l|
  {
    var picked :| picked in l && Sum(l, f) == f(l[picked]) + Sum(l - {picked}, f);
    if picked != key {
      SumExtract(l - {picked}, f, key);
      SumExtract(l - {key}, f, picked);
      assert l - {picked} - {key} == l - {key} - {picked};
    }
  }

  /** Writing one slot changes a total by that slot's difference alone. */
  lemma SumUpdate(l: Ledger, f: Slot -> nat, key: Address, slot: Slot)
    requires f(EMPTY_SLOT) == 0
    ensures Sum(l[key := slot], f) == Sum(l, f) - f(Get(l, key)) + f(slot)
  {
    SumExtract(l[key := slot], f, key);
    assert l[key := slot] - {key} == l - {key};
    if key in l {
      SumExtract(l, f, key);
    } else {
      assert l - {key} == l;
    }
  }

  /** One slot, or two different ones, hold no more than all do. */
  lemma SumCovers(l: Ledger, f: Slot -> nat, a: Address, b: Address)
    requires f(EMPTY_SLOT) == 0
    ensures f(Get(l, a)) <= Sum(l, f)
    ensures a != b ==> f(Get(l, a)) + f(Get(l, b)) <= Sum(l, f)
  {
    SumUpdate(l, f, a, EMPTY_SLOT);
    SumUpdate(l[a := EMPTY_SLOT], f, b, EMPTY_SLOT);
  }

  /** Tokens of `mint` in a slot: the balance and the fees withheld beside it. */
  function HeldIn(slot: Slot, mint: Address): nat {
    match slot.data
    case AccountData(a) =>
      if a.base.mint != mint then 0
      else a.base.amount + if a.ext.withheld.Some? then a.ext.withheld.value else 0
    case _ => 0
  }

  function HeldOf(mint: Address): Slot -> nat {
    (slot: Slot) => HeldIn(slot, mint)
  }

  /** All tokens of `mint` in live accounts. */
  ghost function Held(l: Ledger, mint: Address): nat {
    Sum(l, HeldOf(mint))
  }

  /** The supply a slot records; no mint, no supply. */
  function SupplyIn(slot: Slot): nat {
    if slot.data.MintData? then slot.data.mint.base.supply else 0
  }

  function LamportsOf(): Slot -> nat {
    (slot: Slot) => slot.lamports
  }

  ghost function TotalLamports(l: Ledger): nat {
    Sum(l, LamportsOf())
  }

  lemma HeldUpdate(l: Ledger, key: Address, slot: Slot, mint: Address)
    ensures Held(l[key := slot], mint) == Held(l, mint) - HeldIn(Get(l, key), mint) + HeldIn(slot, mint)
  {
    SumUpdate(l, HeldOf(mint), key, slot);
  }

  lemma LamportsUpdate(l: Ledger, key: Address, slot: Slot)
    ensures TotalLamports(l[key := slot]) == TotalLamports(l) - Get(l, key).lamports + slot.lamports
  {
    SumUpdate(l, LamportsOf(), key, slot);
  }

  lemma HeldCovers(l: Ledger, mint: Address, a: Address, b: Address)
    ensures HeldIn(Get(l, a), mint) <= Held(l, mint)
    ensures a != b ==> HeldIn(Get(l, a), mint) + HeldIn(Get(l, b), mint) <= Held(l, mint)
  {
    SumCovers(l, HeldOf(mint), a, b);
  }

  lemma LamportsCover(l: Ledger, a: Address, b: Address)
    ensures Get(l, a).lamports <= TotalLamports(l)
    ensures a != b ==> Get(l, a).lamports + Get(l, b).lamports <= TotalLamports(l)
  {
    SumCovers(l, LamportsOf(), a, b);
  }
}
