/** Who may act for an account: `Processor::validate_owner` and the client-side
    helper that selects a multisig's members (`program/src/onchain.rs`). */
module Authority {
  import opened Base
  import opened State

  /** Position `p` of the multisig holds a key that occurs in `signers`. */
  predicate Matched(ms: Multisig, signers: seq<Meta>, p: nat)
    requires p < |ms.signers|
  {
    exists i | 0 <= i < |signers| :: signers[i].key == ms.signers[p]
  }

  /** The first entry of `signers` with this key did sign, if there is one. */
  predicate FirstListedSigned(signers: seq<Meta>, key: Address) {
    forall i | 0 <= i < |signers| && signers[i].key == key ::
      signers[i].isSigner || exists j | 0 <= j < i :: signers[j].key == key
  }

  function CountMatched(ms: Multisig, signers: seq<Meta>, n: nat): (c: nat)
    requires n <= |ms.signers|
    ensures c <= n
  {
    if n == 0 then 0
    else CountMatched(ms, signers, n - 1) + if Matched(ms, signers, n - 1) then 1 else 0
  }

  /** A key in the multisig's first `n` positions is listed without having signed. */
  predicate SomeMemberUnsigned(ms: Multisig, signers: seq<Meta>)
    requires ms.n as nat <= |ms.signers|
  {
    exists p: nat | p < ms.n :: !FirstListedSigned(signers, ms.signers[p])
  }

  function MultisigResult(ms: Multisig, signers: seq<Meta>): Result<()> {
    if !ms.isInitialized then Err(UninitializedAccount)
    else if ms.n > MAX_SIGNERS then
      // The signer table is sliced once for each listed account.
      if signers != [] then Err(Panic) else Need(ms.m == 0, MissingRequiredSignature)
    else if SomeMemberUnsigned(ms, signers) || CountMatched(ms, signers, ms.n) < ms.m then
      Err(MissingRequiredSignature)
    else Ok(())
  }

  /** The multisig a slot of multisig length is read as; other contents of that
      length read as a record that was never initialised. */
  function ViewMultisig(slot: Slot): Multisig {
    match slot.data
    case MultisigData(ms) => ms
    case _ => Multisig(0, 0, false, seq(MAX_SIGNERS, _ => SYSTEM_PROGRAM))
  }

  predicate IsMultisigSlot(slot: Slot) {
    slot.program != Other && slot.len == MULTISIG_LEN
  }

  /** What `validate_owner` decides, without its loops. */
  function ValidateOwner(l: Ledger, expected: Address, authority: Meta, signers: seq<Meta>): Result<()> {
    if expected != authority.key then Err(OwnerMismatch)
    else if IsMultisigSlot(Get(l, authority.key)) then MultisigResult(ViewMultisig(Get(l, authority.key)), signers)
    else Need(authority.isSigner, MissingRequiredSignature)
  }

  // ---------------------------------------------------------------- positions in the account list

  /** The i-th account listed has this key. */
  predicate Names(accounts: seq<Meta>, i: nat, key: Address) {
    i < |accounts| && accounts[i].key == key
  }

  /** The authority, if there is one, is the i-th account listed, and those after it are its signers. */
  predicate Signed(l: Ledger, authority: Option<Address>, accounts: seq<Meta>, i: nat) {
    authority.Some? && i < |accounts| && ValidateOwner(l, authority.value, accounts[i], accounts[i + 1..]).Ok?
  }

  /** Who may close the account: its close authority, or its owner if there is none. */
  function Closer(a: Account): Address {
    if a.closeAuthority.Some? then a.closeAuthority.value else a.owner
  }
}
