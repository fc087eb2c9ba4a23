/** A run in which a mint is closed and created again at its key with other extensions:
    its old accounts lack the marks the new ones would have. */
module Recreation {
  import opened Base
  import opened State
  import opened Authority
  import opened Processor
  import opened Runs
  import opened Markers

  datatype Keys = Keys(mint: Address, a: Address, b: Address, owner: Address) {
    predicate Valid() {
      mint != a && mint != b && mint != owner && a != b && a != owner && b != owner
      && mint != NATIVE_MINT && a != NATIVE_MINT && b != NATIVE_MINT
    }
  }

  /** Rent plays no part in it, and every transfer fee is 1. */
  function FreeOfRent(): Env {
    Env(_ => 0, _ => 200, _ => ACCOUNT_LEN, false, (_, _) => Some(1))
  }

  function Do(accounts: seq<Meta>, op: Operation): Event {
    Instruction(accounts, op, false, (_, _) => Some(1))
  }

  /** What the ledger holds at the four keys. */
  predicate Holds(k: Keys, l: Ledger, mint: Slot, a: Slot, b: Slot) {
    Get(l, k.mint) == mint && Get(l, k.a) == a && Get(l, k.b) == b && Get(l, k.owner) == EMPTY_SLOT
  }

  function FirstExt(k: Keys): MintExt {
    MintExt(map[CloseMint := Some(k.owner)], false, false, None, false)
  }

  function SecondExt(k: Keys): MintExt {
    MintExt(map[CloseMint := Some(k.owner), Pause := Some(k.owner), TransferFeeConfig := Some(k.owner)], false, false, None, false)
  }

  function Allocated(tlv: Tlv, len: nat): Slot {
    Slot(Token2022, 0, len, Fresh(tlv))
  }

  function MintSlot(k: Keys, ext: MintExt, supply: u64): Slot {
    Slot(Token2022, 0, 200, MintData(TokenMint(Mint(Some(k.owner), supply, 0, true, None), ext)))
  }

  const UNMARKED := AccountExt(None, false, false, false, false, false)

  function AccountSlot(k: Keys, amount: u64): Slot {
    Slot(Token2022, 0, ACCOUNT_LEN, AccountData(TokenAccount(Account(k.mint, k.owner, amount, None, Initialized, None, 0, None), UNMARKED)))
  }

  lemma {:induction false} RunOneMore(env: Env, l: Ledger, events: seq<Event>, e: Event)
    ensures Exec(env, l, events + [e]) == Next(env, Exec(env, l, events), e)
    decreases |events|
  {
    if events == [] {
      assert [] + [e] == [e] && [e][1..] == [];
    } else {
      assert (events + [e])[1..] == events[1..] + [e];
      RunOneMore(env, Next(env, l, events[0]), events[1..], e);
    }
  }

  lemma MintAllocated(k: Keys, l: Ledger, a: Slot, b: Slot, tlv: Tlv)
    requires k.Valid() && Holds(k, l, EMPTY_SLOT, a, b) && (tlv.MintTlv? ==> tlv.ext.defaultState.None?)
    ensures Holds(k, Next(FreeOfRent(), l, Allocate(k.mint, 200, tlv)), Allocated(tlv, 200), a, b)
  {
  }

  lemma AccountsAllocated(k: Keys, l: Ledger, mint: Slot)
    requires k.Valid() && Holds(k, l, mint, EMPTY_SLOT, EMPTY_SLOT)
    ensures var l' := Next(FreeOfRent(), l, Allocate(k.a, ACCOUNT_LEN, NoTlv));
            && Holds(k, l', mint, Allocated(NoTlv, ACCOUNT_LEN), EMPTY_SLOT)
            && Holds(k, Next(FreeOfRent(), l', Allocate(k.b, ACCOUNT_LEN, NoTlv)), mint, Allocated(NoTlv, ACCOUNT_LEN), Allocated(NoTlv, ACCOUNT_LEN))
  {
  }

  function InitMint(k: Keys): Event {
    Do([Meta(k.mint, false)], OpInitializeMint(0, k.owner, None, false))
  }

  lemma MintInitialized(k: Keys, l: Ledger, a: Slot, b: Slot, ext: MintExt)
    requires k.Valid() && Holds(k, l, Allocated(MintTlv(ext), 200), a, b) && ext.defaultState.None?
    ensures Holds(k, Next(FreeOfRent(), l, InitMint(k)), MintSlot(k, ext, 0), a, b)
  {
  }

  function InitAccount(k: Keys, key: Address): Event {
    Do([Meta(key, false), Meta(k.mint, false)], OpInitializeAccount(Some(k.owner), false))
  }

  lemma AccountInitialized(k: Keys, l: Ledger, key: Address)
    requires k.Valid() && Get(l, k.mint) == MintSlot(k, FirstExt(k), 0) && Get(l, key) == Allocated(NoTlv, ACCOUNT_LEN)
    ensures Next(FreeOfRent(), l, InitAccount(k, key)) == l[key := AccountSlot(k, 0)]
  {
    assert !FirstExt(k).HasTransferFee() && !FirstExt(k).HasTransferHook() && !FirstExt(k).IsPausable();
  }

  function CloseTheMint(k: Keys): Event {
    Do([Meta(k.mint, false), Meta(k.owner, false), Meta(k.owner, true)], OpCloseAccount)
  }

  lemma MintClosed(k: Keys, l: Ledger, a: Slot, b: Slot)
    requires k.Valid() && Holds(k, l, MintSlot(k, FirstExt(k), 0), a, b)
    ensures Holds(k, Next(FreeOfRent(), l, CloseTheMint(k)), EMPTY_SLOT, a, b)
  {
    var accounts := CloseTheMint(k).accounts;
    assert MayCloseMint(l, Get(l, k.mint).data.mint, accounts[2], accounts[3..]).Ok?;
  }

  function MintTen(k: Keys): Event {
    Do([Meta(k.mint, false), Meta(k.a, false), Meta(k.owner, true)], OpMintTo(10, None))
  }

  lemma TenMinted(k: Keys, l: Ledger, b: Slot)
    requires k.Valid() && Holds(k, l, MintSlot(k, SecondExt(k), 0), AccountSlot(k, 0), b)
    ensures Holds(k, Next(FreeOfRent(), l, MintTen(k)), MintSlot(k, SecondExt(k), 10), AccountSlot(k, 10), b)
  {
  }

  lemma MintPaused(k: Keys, l: Ledger, a: Slot, b: Slot)
    requires k.Valid() && Holds(k, l, MintSlot(k, SecondExt(k), 10), a, b)
    ensures Holds(k, Next(FreeOfRent(), l, SetPaused(k.mint, true)), MintSlot(k, SecondExt(k).(paused := true), 10), a, b)
  {
  }

  /** Ten tokens from the first account to the second, with and without the mint. */
  function CheckedList(k: Keys): seq<Meta> {
    [Meta(k.a, false), Meta(k.mint, false), Meta(k.b, false), Meta(k.owner, true)]
  }

  function UncheckedList(k: Keys): seq<Meta> {
    [Meta(k.a, false), Meta(k.b, false), Meta(k.owner, true)]
  }

  lemma FeeHasNowhereToGo(k: Keys, l: Ledger)
    requires k.Valid() && Holds(k, l, MintSlot(k, SecondExt(k), 10), AccountSlot(k, 10), AccountSlot(k, 0))
    ensures Transfer(FreeOfRent(), l, CheckedList(k), 10, TransferKind.Checked(0)) == Err(InvalidState)
  {
    var env, accounts, kind := FreeOfRent(), CheckedList(k), TransferKind.Checked(0);
    assert TransferDestination(accounts, kind) == k.b;
    var src := Get(l, k.a).data.account;
    assert TransferSource(Get(l, k.a), 10) == Ok(src);
    assert TransferTerms(env, l, src, k.mint, 10, kind) == Ok(Terms(1, None));
    assert AuthorizeTransfer(env, l, accounts, 10, kind, src, 1, None) == Ok(src.base);
  }

  lemma PauseIsNotAsked(k: Keys, l: Ledger, mint: Slot)
    requires k.Valid() && Holds(k, l, mint, AccountSlot(k, 10), AccountSlot(k, 0))
    ensures Transfer(FreeOfRent(), l, UncheckedList(k), 10, Unchecked).Ok?
    ensures var l' := Transfer(FreeOfRent(), l, UncheckedList(k), 10, Unchecked).value;
            Get(l', k.a) == AccountSlot(k, 0) && Get(l', k.b) == AccountSlot(k, 10)
  {
    var env, accounts := FreeOfRent(), UncheckedList(k);
    assert TransferDestination(accounts, Unchecked) == k.b;
    var src := Get(l, k.a).data.account;
    assert TransferSource(Get(l, k.a), 10) == Ok(src);
    assert TransferTerms(env, l, src, k.b, 10, Unchecked) == Ok(Terms(0, None));
    assert AuthorizeTransfer(env, l, accounts, 10, Unchecked, src, 0, None) == Ok(src.base);
  }

  /** The mint's first life: two accounts, nothing minted, closed. */
  lemma FirstLife(k: Keys) returns (events: seq<Event>)
    requires k.Valid()
    ensures Holds(k, After(FreeOfRent(), events), EMPTY_SLOT, AccountSlot(k, 0), AccountSlot(k, 0))
  {
    var env, l: Ledger := FreeOfRent(), map[];
    events := [];
    MintAllocated(k, l, EMPTY_SLOT, EMPTY_SLOT, MintTlv(FirstExt(k)));
    events, l := OneMore(events, l, Allocate(k.mint, 200, MintTlv(FirstExt(k))));
    AccountsAllocated(k, l, Get(l, k.mint));
    events, l := OneMore(events, l, Allocate(k.a, ACCOUNT_LEN, NoTlv));
    events, l := OneMore(events, l, Allocate(k.b, ACCOUNT_LEN, NoTlv));
    MintInitialized(k, l, Get(l, k.a), Get(l, k.b), FirstExt(k));
    events, l := OneMore(events, l, InitMint(k));
    AccountInitialized(k, l, k.a);
    events, l := OneMore(events, l, InitAccount(k, k.a));
    AccountInitialized(k, l, k.b);
    events, l := OneMore(events, l, InitAccount(k, k.b));
    MintClosed(k, l, Get(l, k.a), Get(l, k.b));
    events, l := OneMore(events, l, CloseTheMint(k));
  }

  lemma OneMore(events: seq<Event>, l: Ledger, e: Event) returns (longer: seq<Event>, l': Ledger)
    requires l == After(FreeOfRent(), events)
    ensures longer == events + [e] && l' == After(FreeOfRent(), longer) == Next(FreeOfRent(), l, e)
  {
    longer, l' := events + [e], Next(FreeOfRent(), l, e);
    RunOneMore(FreeOfRent(), map[], events, e);
  }

  lemma SecondLife(k: Keys, before: seq<Event>) returns (events: seq<Event>)
    requires k.Valid() && Holds(k, After(FreeOfRent(), before), EMPTY_SLOT, AccountSlot(k, 0), AccountSlot(k, 0))
    ensures Holds(k, After(FreeOfRent(), events), MintSlot(k, SecondExt(k), 10), AccountSlot(k, 10), AccountSlot(k, 0))
  {
    var l := After(FreeOfRent(), before);
    events := before;
    var a := AccountSlot(k, 0);
    MintAllocated(k, l, a, a, MintTlv(SecondExt(k)));
    events, l := OneMore(events, l, Allocate(k.mint, 200, MintTlv(SecondExt(k))));
    MintInitialized(k, l, a, a, SecondExt(k));
    events, l := OneMore(events, l, InitMint(k));
    TenMinted(k, l, a);
    events, l := OneMore(events, l, MintTen(k));
  }

  /** The run: after it the mint charges fees and can be paused, but neither account is
      marked. A transfer that charges a fee stops with `InvalidState`; and once the mint is
      paused, one that does not name the mint goes through all the same. */
  lemma MarksCanBeMissing(k: Keys) returns (events: seq<Event>)
    requires k.Valid()
    ensures var env, l := FreeOfRent(), After(FreeOfRent(), events);
            && Get(l, k.mint).data.MintData? && !AllMarked(l, k.mint)
            && Transfer(env, l, CheckedList(k), 10, TransferKind.Checked(0)) == Err(InvalidState)
    ensures var env, l := FreeOfRent(), After(FreeOfRent(), events + [SetPaused(k.mint, true)]);
            && IsPausedMint(Get(l, k.mint))
            && Transfer(env, l, UncheckedList(k), 10, Unchecked).Ok?
            && Get(Transfer(env, l, UncheckedList(k), 10, Unchecked).value, k.b) == AccountSlot(k, 10)
            && Get(l, k.b) == AccountSlot(k, 0)
  {
    events := FirstLife(k);
    events := SecondLife(k, events);
    var l := After(FreeOfRent(), events);
    FeeHasNowhereToGo(k, l);
    assert !MarkedAt(l, k.mint, k.a);
    MintPaused(k, l, Get(l, k.a), Get(l, k.b));
    var longer, l' := OneMore(events, l, SetPaused(k.mint, true));
    PauseIsNotAsked(k, l', Get(l', k.mint));
  }
}
