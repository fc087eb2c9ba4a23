/** The fixed byte layout of mints, accounts and multisigs (`interface/src/state.rs`),
    written in place over whatever the buffer held before, and the plain-old-data view
    of the same bytes (`interface/src/pod.rs`). */
module StateLayout {
  import opened Base
  import opened ByteStrings
  import opened State

  const NONE_TAG: Bytes := [0, 0, 0, 0]
  const SOME_TAG: Bytes := [1, 0, 0, 0]

  // ---------------------------------------------------------------- fields

  /** `pack_coption_*`: without a value only the tag is written, and the body's old
      bytes stay. */
  function OptionBytes(o: Option<Bytes>, was: Bytes): (b: Bytes)
    requires |was| >= 4 && (o.Some? ==> |o.value| == |was| - 4)
    ensures |b| == |was|
  {
    match o
    case Some(body) => SOME_TAG + body
    case None => NONE_TAG + was[4..]
  }

  /** `unpack_coption_*`. */
  function ReadOption(b: Bytes): Result<Option<Bytes>>
    requires |b| >= 4
  {
    if b[..4] == NONE_TAG then Ok(None)
    else if b[..4] == SOME_TAG then Ok(Some(b[4..]))
    else Err(InvalidAccountData)
  }

  function KeyBody(o: Option<Address>): (b: Option<Bytes>)
    ensures b.Some? ==> |b.value| == 32
  {
    if o.Some? then Some(o.value.bytes) else None
  }

  function AmountBody(o: Option<u64>): (b: Option<Bytes>)
    ensures b.Some? ==> |b.value| == 8
  {
    if o.Some? then Some(U64Bytes(o.value)) else None
  }

  function ReadKeyOption(b: Bytes): Result<Option<Address>>
    requires |b| == 36
  {
    var o :- ReadOption(b);
    Ok(if o.Some? then Some(Address(o.value)) else None)
  }

  function ReadAmountOption(b: Bytes): Result<Option<u64>>
    requires |b| == 12
  {
    var o :- ReadOption(b);
    Ok(if o.Some? then Some(U64Of(o.value)) else None)
  }

  function FlagByte(flag: bool): u8 {
    if flag then 1 else 0
  }

  function ReadFlag(b: u8): Result<bool> {
    if b == 0 then Ok(false) else if b == 1 then Ok(true) else Err(InvalidAccountData)
  }

  function StateByte(s: AccountState): u8 {
    match s case Uninitialized => 0 case Initialized => 1 case Frozen => 2
  }

  function ReadState(b: u8): Result<AccountState> {
    if b == 0 then Ok(Uninitialized) else if b == 1 then Ok(Initialized) else if b == 2 then Ok(Frozen)
    else Err(InvalidAccountData)
  }

  lemma KeyOptionAfterWrite(o: Option<Address>, was: Bytes)
    requires |was| == 36
    ensures ReadKeyOption(OptionBytes(KeyBody(o), was)) == Ok(o)
  {
    var b := OptionBytes(KeyBody(o), was);
    assert b[..4] == if o.Some? then SOME_TAG else NONE_TAG;
    assert o.Some? ==> b[4..] == o.value.bytes;
  }

  lemma AmountOptionAfterWrite(o: Option<u64>, was: Bytes)
    requires |was| == 12
    ensures ReadAmountOption(OptionBytes(AmountBody(o), was)) == Ok(o)
  {
    var b := OptionBytes(AmountBody(o), was);
    assert b[..4] == if o.Some? then SOME_TAG else NONE_TAG;
    if o.Some? {
      assert b[4..] == U64Bytes(o.value);
      U64RoundTrip(o.value);
    }
  }

  lemma KeyOptionRewrite(b: Bytes)
    requires |b| == 36 && ReadKeyOption(b).Ok?
    ensures OptionBytes(KeyBody(ReadKeyOption(b).value), b) == b
  {
    assert b == b[..4] + b[4..];
  }

  lemma AmountOptionRewrite(b: Bytes)
    requires |b| == 12 && ReadAmountOption(b).Ok?
    ensures OptionBytes(AmountBody(ReadAmountOption(b).value), b) == b
  {
    assert b == b[..4] + b[4..];
    U64BytesOf(b[4..]);
  }

  // ---------------------------------------------------------------- records

  function AuthorityAndSupply(m: Mint, was: Bytes): (b: Bytes)
    requires |was| == 36
    ensures |b| == 44
  {
    OptionBytes(KeyBody(m.mintAuthority), was) + U64Bytes(m.supply)
  }

  /** A mint's fields up to its freeze authority. */
  function MintHead(m: Mint, was: Bytes): (b: Bytes)
    requires |was| == 36
    ensures |b| == 46
  {
    AuthorityAndSupply(m, was) + [m.decimals, FlagByte(m.isInitialized)]
  }

  function MintBytes(m: Mint, was: Bytes): (b: Bytes)
    requires |was| == MINT_LEN
    ensures |b| == MINT_LEN
  {
    MintHead(m, was[..36]) + OptionBytes(KeyBody(m.freezeAuthority), was[46..82])
  }

  /** `Mint::unpack_from_slice`. */
  function ReadMint(b: Bytes): Result<Mint>
    requires |b| == MINT_LEN
  {
    var mintAuthority :- ReadKeyOption(b[..36]);
    var isInitialized :- ReadFlag(b[45]);
    var freezeAuthority :- ReadKeyOption(b[46..82]);
    Ok(Mint(mintAuthority, U64Of(b[36..44]), b[44], isInitialized, freezeAuthority))
  }

  function AccountHead(a: Account): (b: Bytes)
    ensures |b| == 72
  {
    a.mint.bytes + a.owner.bytes + U64Bytes(a.amount)
  }

  function DelegateAndState(a: Account, was: Bytes): (b: Bytes)
    requires |was| == 36
    ensures |b| == 37
  {
    OptionBytes(KeyBody(a.delegate), was) + [StateByte(a.state)]
  }

  function NativeAndDelegated(a: Account, was: Bytes): (b: Bytes)
    requires |was| == 12
    ensures |b| == 20
  {
    OptionBytes(AmountBody(a.isNative), was) + U64Bytes(a.delegatedAmount)
  }

  function AccountBytes(a: Account, was: Bytes): (b: Bytes)
    requires |was| == ACCOUNT_LEN
    ensures |b| == ACCOUNT_LEN
  {
    AccountHead(a) + DelegateAndState(a, was[72..108]) + NativeAndDelegated(a, was[109..121])
    + OptionBytes(KeyBody(a.closeAuthority), was[129..165])
  }

  /** `Account::unpack_from_slice`. */
  function ReadAccount(b: Bytes): Result<Account>
    requires |b| == ACCOUNT_LEN
  {
    var delegate :- ReadKeyOption(b[72..108]);
    var state :- ReadState(b[108]);
    var isNative :- ReadAmountOption(b[109..121]);
    var closeAuthority :- ReadKeyOption(b[129..165]);
    Ok(Account(Address(b[..32]), Address(b[32..64]), U64Of(b[64..72]), delegate, state, isNative, U64Of(b[121..129]),
               closeAuthority))
  }

  function KeysBytes(keys: seq<Address>): (b: Bytes)
    ensures |b| == 32 * |keys|
  {
    if keys == [] then [] else KeysBytes(keys[..|keys| - 1]) + keys[|keys| - 1].bytes
  }

  function ReadKeys(b: Bytes, n: nat): (keys: seq<Address>)
    requires |b| == 32 * n
    ensures |keys| == n
  {
    if n == 0 then [] else ReadKeys(b[..32 * (n - 1)], n - 1) + [Address(b[32 * (n - 1)..])]
  }

  function MultisigBytes(ms: Multisig): (b: Bytes)
    ensures |b| == MULTISIG_LEN
  {
    [ms.m, ms.n, FlagByte(ms.isInitialized)] + KeysBytes(ms.signers)
  }

  function ReadMultisig(b: Bytes): Result<Multisig>
    requires |b| == MULTISIG_LEN
  {
    var isInitialized :- ReadFlag(b[2]);
    Ok(Multisig(b[0], b[1], isInitialized, ReadKeys(b[3..], MAX_SIGNERS)))
  }

  /** `Pack::unpack`: the exact length, a readable record, and an initialised one. */
  function UnpackMintBytes(b: Bytes): Result<Mint> {
    var _ :- Need(|b| == MINT_LEN, InvalidAccountData);
    var m :- ReadMint(b);
    if m.isInitialized then Ok(m) else Err(UninitializedAccount)
  }

  function UnpackAccountBytes(b: Bytes): Result<Account> {
    var _ :- Need(|b| == ACCOUNT_LEN, InvalidAccountData);
    var a :- ReadAccount(b);
    if a.state.Uninitialized? then Err(UninitializedAccount) else Ok(a)
  }

  function UnpackMultisigBytes(b: Bytes): Result<Multisig> {
    var _ :- Need(|b| == MULTISIG_LEN, InvalidAccountData);
    var ms :- ReadMultisig(b);
    if ms.isInitialized then Ok(ms) else Err(UninitializedAccount)
  }

  // ---------------------------------------------------------------- written in place

  /** The buffer holds `done`, written so far, and then what it held before. */
  ghost predicate Written(now: Bytes, done: Bytes, was: Bytes) {
    |done| <= |was| && now == done + was[|done|..]
  }

  /** `copy_from_slice` into part of the buffer. */
  method CopyInto(dst: array<u8>, at: nat, src: Bytes)
    requires at + |src| <= dst.Length
    modifies dst
    ensures dst[..] == old(dst[..at]) + src + old(dst[at + |src|..])
  {
    for i := 0 to |src|
      invariant dst[..] == old(dst[..at]) + src[..i] + old(dst[at + i..])
    {
      dst[at + i] := src[i];
    }
    assert src[..|src|] == src;
  }

  lemma WrittenMore(before: Bytes, now: Bytes, done: Bytes, src: Bytes, was: Bytes)
    requires Written(before, done, was) && |done| + |src| <= |was|
    requires now == before[..|done|] + src + before[|done| + |src|..]
    ensures Written(now, done + src, was)
  {
    assert before[..|done|] == done;
    assert before[|done| + |src|..] == was[|done| + |src|..];
  }

  /** The next field of the buffer. */
  method PutField(dst: array<u8>, at: nat, src: Bytes, ghost done: Bytes, ghost was: Bytes)
    requires |was| == dst.Length && at == |done| && at + |src| <= dst.Length && Written(dst[..], done, was)
    modifies dst
    ensures Written(dst[..], done + src, was)
  {
    ghost var before := dst[..];
    CopyInto(dst, at, src);
    assert before[..at] == old(dst[..at]) && before[at + |src|..] == old(dst[at + |src|..]);
    WrittenMore(before, dst[..], done, src, was);
  }

  lemma TagAndBody(now: Bytes, o: Option<Bytes>, size: nat, done: Bytes, was: Bytes)
    requires |done| + 4 + size <= |was| && (o.Some? ==> |o.value| == size)
    requires Written(now, if o.Some? then done + SOME_TAG + o.value else done + NONE_TAG, was)
    ensures Written(now, done + OptionBytes(o, was[|done|..|done| + 4 + size]), was)
  {
    var stale := was[|done|..|done| + 4 + size];
    if o.Some? {
      assert done + SOME_TAG + o.value == done + (SOME_TAG + o.value);
    } else {
      assert was[|done| + 4..] == stale[4..] + was[|done| + 4 + size..];
      assert (done + NONE_TAG) + (stale[4..] + was[|done| + 4 + size..]) == (done + (NONE_TAG + stale[4..])) + was[|done| + 4 + size..];
    }
  }

  /** `pack_coption_*` on the next field. */
  method PutOption(dst: array<u8>, at: nat, o: Option<Bytes>, size: nat, ghost done: Bytes, ghost was: Bytes)
    requires o.Some? ==> |o.value| == size
    requires |was| == dst.Length && at == |done| && at + 4 + size <= dst.Length && Written(dst[..], done, was)
    modifies dst
    ensures Written(dst[..], done + OptionBytes(o, was[at..at + 4 + size]), was)
  {
    match o {
      case Some(body) =>
        PutField(dst, at, SOME_TAG, done, was);
        PutField(dst, at + 4, body, done + SOME_TAG, was);
      case None =>
        PutField(dst, at, NONE_TAG, done, was);
    }
    TagAndBody(dst[..], o, size, done, was);
  }

  lemma Reassociate(now: Bytes, done: Bytes, first: Bytes, second: Bytes, was: Bytes)
    requires Written(now, done + first + second, was)
    ensures Written(now, done + (first + second), was)
  {
    assert done + first + second == done + (first + second);
  }

  /** An optional field and the plain one after it. */
  method PutOptionAndField(dst: array<u8>, at: nat, o: Option<Bytes>, size: nat, src: Bytes, ghost done: Bytes, ghost was: Bytes)
    requires o.Some? ==> |o.value| == size
    requires |was| == dst.Length && at == |done| && at + 4 + size + |src| <= dst.Length && Written(dst[..], done, was)
    modifies dst
    ensures Written(dst[..], done + (OptionBytes(o, was[at..at + 4 + size]) + src), was)
  {
    ghost var option := OptionBytes(o, was[at..at + 4 + size]);
    PutOption(dst, at, o, size, done, was);
    PutField(dst, at + 4 + size, src, done + option, was);
    Reassociate(dst[..], done, option, src, was);
  }

  lemma NothingWritten(was: Bytes)
    ensures Written(was, [], was)
  {
  }

  lemma AllWritten(now: Bytes, done: Bytes, was: Bytes)
    requires Written(now, done, was) && |done| == |was|
    ensures now == done
  {
  }

  lemma FirstWritten(now: Bytes, first: Bytes, was: Bytes)
    requires Written(now, [] + first, was)
    ensures Written(now, first, was)
  {
    assert [] + first == first;
  }

  method PackAuthorityAndSupply(m: Mint, dst: array<u8>, ghost was: Bytes)
    requires dst.Length == MINT_LEN && dst[..] == was
    modifies dst
    ensures Written(dst[..], AuthorityAndSupply(m, was[..36]), was)
  {
    assert was[0..36] == was[..36];
    NothingWritten(was);
    PutOptionAndField(dst, 0, KeyBody(m.mintAuthority), 32, U64Bytes(m.supply), [], was);
    FirstWritten(dst[..], AuthorityAndSupply(m, was[..36]), was);
  }

  method PackMintHead(m: Mint, dst: array<u8>, ghost was: Bytes)
    requires dst.Length == MINT_LEN && dst[..] == was
    modifies dst
    ensures Written(dst[..], MintHead(m, was[..36]), was)
  {
    PackAuthorityAndSupply(m, dst, was);
    PackDecimalsAndFlag(m, dst, AuthorityAndSupply(m, was[..36]), was);
  }

  method PackDecimalsAndFlag(m: Mint, dst: array<u8>, ghost done: Bytes, ghost was: Bytes)
    requires dst.Length == MINT_LEN == |was| && |done| == 44 && Written(dst[..], done, was)
    modifies dst
    ensures Written(dst[..], done + [m.decimals, FlagByte(m.isInitialized)], was)
  {
    PutField(dst, 44, [m.decimals], done, was);
    PutField(dst, 45, [FlagByte(m.isInitialized)], done + [m.decimals], was);
    Reassociate(dst[..], done, [m.decimals], [FlagByte(m.isInitialized)], was);
    assert [m.decimals] + [FlagByte(m.isInitialized)] == [m.decimals, FlagByte(m.isInitialized)];
  }

  /** `Mint::pack`. */
  method PackMint(m: Mint, dst: array<u8>) returns (r: Result<()>)
    modifies dst
    ensures r == Need(dst.Length == MINT_LEN, InvalidAccountData)
    ensures dst[..] == if dst.Length == MINT_LEN then MintBytes(m, old(dst[..])) else old(dst[..])
  {
    if dst.Length != MINT_LEN { return Err(InvalidAccountData); }
    ghost var was := dst[..];
    PackMintHead(m, dst, was);
    PutOption(dst, 46, KeyBody(m.freezeAuthority), 32, MintHead(m, was[..36]), was);
    AllWritten(dst[..], MintBytes(m, was), was);
    return Ok(());
  }

  method PackAccountHead(a: Account, dst: array<u8>, ghost was: Bytes)
    requires dst.Length == ACCOUNT_LEN && dst[..] == was
    modifies dst
    ensures Written(dst[..], AccountHead(a), was)
  {
    NothingWritten(was);
    PutField(dst, 0, a.mint.bytes, [], was);
    FirstWritten(dst[..], a.mint.bytes, was);
    PutField(dst, 32, a.owner.bytes, a.mint.bytes, was);
    PutField(dst, 64, U64Bytes(a.amount), a.mint.bytes + a.owner.bytes, was);
  }

  method PackDelegateAndState(a: Account, dst: array<u8>, ghost done: Bytes, ghost was: Bytes)
    requires dst.Length == ACCOUNT_LEN == |was| && |done| == 72 && Written(dst[..], done, was)
    modifies dst
    ensures Written(dst[..], done + DelegateAndState(a, was[72..108]), was)
  {
    PutOptionAndField(dst, 72, KeyBody(a.delegate), 32, [StateByte(a.state)], done, was);
  }

  method PackNativeAndDelegated(a: Account, dst: array<u8>, ghost done: Bytes, ghost was: Bytes)
    requires dst.Length == ACCOUNT_LEN == |was| && |done| == 109 && Written(dst[..], done, was)
    modifies dst
    ensures Written(dst[..], done + NativeAndDelegated(a, was[109..121]), was)
  {
    PutOptionAndField(dst, 109, AmountBody(a.isNative), 8, U64Bytes(a.delegatedAmount), done, was);
  }

  method PackAccountTail(a: Account, dst: array<u8>, ghost was: Bytes)
    requires dst.Length == ACCOUNT_LEN == |was| && Written(dst[..], AccountHead(a), was)
    modifies dst
    ensures Written(dst[..], AccountHead(a) + DelegateAndState(a, was[72..108]) + NativeAndDelegated(a, was[109..121]), was)
  {
    PackDelegateAndState(a, dst, AccountHead(a), was);
    PackNativeAndDelegated(a, dst, AccountHead(a) + DelegateAndState(a, was[72..108]), was);
  }

  method PackCloser(a: Account, dst: array<u8>, ghost done: Bytes, ghost was: Bytes)
    requires dst.Length == ACCOUNT_LEN == |was| && |done| == 129 && Written(dst[..], done, was)
    modifies dst
    ensures dst[..] == done + OptionBytes(KeyBody(a.closeAuthority), was[129..165])
  {
    PutOption(dst, 129, KeyBody(a.closeAuthority), 32, done, was);
    AllWritten(dst[..], done + OptionBytes(KeyBody(a.closeAuthority), was[129..165]), was);
  }

  /** `Account::pack`. */
  method PackAccount(a: Account, dst: array<u8>) returns (r: Result<()>)
    modifies dst
    ensures r == Need(dst.Length == ACCOUNT_LEN, InvalidAccountData)
    ensures dst[..] == if dst.Length == ACCOUNT_LEN then AccountBytes(a, old(dst[..])) else old(dst[..])
  {
    if dst.Length != ACCOUNT_LEN { return Err(InvalidAccountData); }
    ghost var was := dst[..];
    PackAccountHead(a, dst, was);
    PackAccountTail(a, dst, was);
    PackCloser(a, dst, AccountHead(a) + DelegateAndState(a, was[72..108]) + NativeAndDelegated(a, was[109..121]), was);
    return Ok(());
  }

  /** The loop of `Multisig::pack`: one key after another. */
  method PackKeys(keys: seq<Address>, dst: array<u8>, ghost head: Bytes)
    requires |head| == 3 && dst.Length == 3 + 32 * |keys| && dst[..3] == head
    modifies dst
    ensures dst[..] == head + KeysBytes(keys)
  {
    ghost var was := dst[..];
    assert head + KeysBytes(keys[..0]) == head;
    for i := 0 to |keys|
      invariant Written(dst[..], head + KeysBytes(keys[..i]), was)
    {
      PutField(dst, 3 + 32 * i, keys[i].bytes, head + KeysBytes(keys[..i]), was);
      Reassociate(dst[..], head, KeysBytes(keys[..i]), keys[i].bytes, was);
      assert keys[..i + 1][..i] == keys[..i];
    }
    assert keys[..|keys|] == keys;
    AllWritten(dst[..], head + KeysBytes(keys), was);
  }

  /** `Multisig::pack`. */
  method PackMultisig(ms: Multisig, dst: array<u8>) returns (r: Result<()>)
    modifies dst
    ensures r == Need(dst.Length == MULTISIG_LEN, InvalidAccountData)
    ensures dst[..] == if dst.Length == MULTISIG_LEN then MultisigBytes(ms) else old(dst[..])
  {
    if dst.Length != MULTISIG_LEN { return Err(InvalidAccountData); }
    dst[0] := ms.m;
    dst[1] := ms.n;
    dst[2] := FlagByte(ms.isInitialized);
    PackKeys(ms.signers, dst, [ms.m, ms.n, FlagByte(ms.isInitialized)]);
    return Ok(());
  }

  /** `Multisig::unpack_from_slice`: the signer table is filled chunk by chunk. */
  method UnpackMultisig(src: array<u8>) returns (r: Result<Multisig>)
    requires src.Length == MULTISIG_LEN
    ensures r == ReadMultisig(src[..])
  {
    assert src[..][2] == src[2];
    var flag :- ReadFlag(src[2]);
    var signers := new Address[MAX_SIGNERS](_ => SYSTEM_PROGRAM);
    ghost var flat := src[..][3..];
    for i := 0 to MAX_SIGNERS
      invariant signers[..i] == ReadKeys(flat[..32 * i], i)
    {
      var chunk := src[3 + 32 * i..3 + 32 * i + 32];
      signers[i] := Address(chunk);
      assert flat[..32 * (i + 1)][..32 * i] == flat[..32 * i];
      assert flat[..32 * (i + 1)][32 * i..] == chunk;
    }
    assert flat[..32 * MAX_SIGNERS] == flat;
    assert signers[..] == signers[..MAX_SIGNERS];
    return Ok(Multisig(src[0], src[1], flag, signers[..]));
  }

  // ---------------------------------------------------------------- round trips

  lemma MintFields(m: Mint, was: Bytes)
    requires |was| == MINT_LEN
    ensures var b := MintBytes(m, was);
            && b[..36] == OptionBytes(KeyBody(m.mintAuthority), was[..36]) && b[36..44] == U64Bytes(m.supply)
            && b[44] == m.decimals && b[45] == FlagByte(m.isInitialized)
            && b[46..82] == OptionBytes(KeyBody(m.freezeAuthority), was[46..82])
  {
    var b, head := MintBytes(m, was), MintHead(m, was[..36]);
    assert b[..46] == head;
    assert b[..36] == head[..36] && b[36..44] == head[36..44];
  }

  /** Reading what was packed, over any old bytes, gives the record. */
  lemma MintAfterPack(m: Mint, was: Bytes)
    requires |was| == MINT_LEN
    ensures ReadMint(MintBytes(m, was)) == Ok(m)
  {
    MintFields(m, was);
    KeyOptionAfterWrite(m.mintAuthority, was[..36]);
    KeyOptionAfterWrite(m.freezeAuthority, was[46..82]);
    U64RoundTrip(m.supply);
  }

  /** Packing a record over the bytes it was read from changes none of them. */
  lemma MintRepack(b: Bytes)
    requires |b| == MINT_LEN && ReadMint(b).Ok?
    ensures MintBytes(ReadMint(b).value, b) == b
  {
    KeyOptionRewrite(b[..36]);
    KeyOptionRewrite(b[46..82]);
    U64BytesOf(b[36..44]);
    assert b == ((b[..36] + b[36..44]) + [b[44], b[45]]) + b[46..82];
  }

  lemma AccountHeadFields(a: Account)
    ensures var b := AccountHead(a);
            b[..32] == a.mint.bytes && b[32..64] == a.owner.bytes && b[64..72] == U64Bytes(a.amount)
  {
  }

  lemma AccountFields(a: Account, was: Bytes)
    requires |was| == ACCOUNT_LEN
    ensures var b := AccountBytes(a, was);
            && b[..32] == a.mint.bytes && b[32..64] == a.owner.bytes && b[64..72] == U64Bytes(a.amount)
            && b[72..108] == OptionBytes(KeyBody(a.delegate), was[72..108]) && b[108] == StateByte(a.state)
            && b[109..121] == OptionBytes(AmountBody(a.isNative), was[109..121])
            && b[121..129] == U64Bytes(a.delegatedAmount)
            && b[129..165] == OptionBytes(KeyBody(a.closeAuthority), was[129..165])
  {
    var b := AccountBytes(a, was);
    var head, first, second := b[..72], b[72..109], b[109..129];
    AccountHeadFields(a);
    assert head == AccountHead(a);
    assert first == DelegateAndState(a, was[72..108]);
    assert second == NativeAndDelegated(a, was[109..121]);
    assert b[..32] == head[..32] && b[32..64] == head[32..64] && b[64..72] == head[64..72];
    assert b[72..108] == first[..36] && b[109..121] == second[..12] && b[121..129] == second[12..20];
  }

  lemma AccountAfterPack(a: Account, was: Bytes)
    requires |was| == ACCOUNT_LEN
    ensures ReadAccount(AccountBytes(a, was)) == Ok(a)
  {
    AccountFields(a, was);
    KeyOptionAfterWrite(a.delegate, was[72..108]);
    AmountOptionAfterWrite(a.isNative, was[109..121]);
    KeyOptionAfterWrite(a.closeAuthority, was[129..165]);
    U64RoundTrip(a.amount);
    U64RoundTrip(a.delegatedAmount);
  }

  lemma AccountSlices(b: Bytes)
    requires |b| == ACCOUNT_LEN
    ensures b == (b[..32] + b[32..64] + b[64..72]) + (b[72..108] + [b[108]]) + (b[109..121] + b[121..129]) + b[129..165]
  {
    assert b[..72] == b[..32] + b[32..64] + b[64..72];
    assert b == b[..72] + (b[72..108] + [b[108]]) + (b[109..121] + b[121..129]) + b[129..165];
  }

  lemma AccountRepack(b: Bytes)
    requires |b| == ACCOUNT_LEN && ReadAccount(b).Ok?
    ensures AccountBytes(ReadAccount(b).value, b) == b
  {
    AccountSlices(b);
    KeyOptionRewrite(b[72..108]);
    AmountOptionRewrite(b[109..121]);
    KeyOptionRewrite(b[129..165]);
    U64BytesOf(b[64..72]);
    U64BytesOf(b[121..129]);
  }

  lemma {:induction false} KeysAfterWrite(keys: seq<Address>)
    ensures ReadKeys(KeysBytes(keys), |keys|) == keys
    decreases |keys|
  {
    if keys != [] {
      var n := |keys| - 1;
      KeysAfterWrite(keys[..n]);
      assert KeysBytes(keys)[..32 * n] == KeysBytes(keys[..n]);
      assert KeysBytes(keys)[32 * n..] == keys[n].bytes;
    }
  }

  lemma {:induction false} KeysRewrite(b: Bytes, n: nat)
    requires |b| == 32 * n
    ensures KeysBytes(ReadKeys(b, n)) == b
    decreases n
  {
    if n > 0 {
      KeysRewrite(b[..32 * (n - 1)], n - 1);
      assert ReadKeys(b, n)[..n - 1] == ReadKeys(b[..32 * (n - 1)], n - 1);
      assert b == b[..32 * (n - 1)] + b[32 * (n - 1)..];
    }
  }

  lemma MultisigAfterPack(ms: Multisig)
    ensures ReadMultisig(MultisigBytes(ms)) == Ok(ms)
  {
    assert MultisigBytes(ms)[3..] == KeysBytes(ms.signers);
    KeysAfterWrite(ms.signers);
  }

  lemma MultisigRepack(b: Bytes)
    requires |b| == MULTISIG_LEN && ReadMultisig(b).Ok?
    ensures MultisigBytes(ReadMultisig(b).value) == b
  {
    KeysRewrite(b[3..], MAX_SIGNERS);
    assert b == [b[0], b[1], b[2]] + b[3..];
  }

  /** `Pack::unpack` of a packed record: the record if it is initialised, and otherwise
      just that error, whatever the buffer held before. */
  lemma UnpackAfterPack(m: Mint, a: Account, ms: Multisig, mintWas: Bytes, accountWas: Bytes)
    requires |mintWas| == MINT_LEN && |accountWas| == ACCOUNT_LEN
    ensures UnpackMintBytes(MintBytes(m, mintWas)) == if m.isInitialized then Ok(m) else Err(UninitializedAccount)
    ensures UnpackAccountBytes(AccountBytes(a, accountWas)) ==
            if a.state.Uninitialized? then Err(UninitializedAccount) else Ok(a)
    ensures UnpackMultisigBytes(MultisigBytes(ms)) == if ms.isInitialized then Ok(ms) else Err(UninitializedAccount)
  {
    MintAfterPack(m, mintWas);
    AccountAfterPack(a, accountWas);
    MultisigAfterPack(ms);
  }

  // ---------------------------------------------------------------- the plain-old-data view

  /** `PodCOption`: any four tag bytes, and a value that is there either way. */
  datatype PodOption<T> = PodOption(tag: Bytes, value: T) {
    predicate IsSome() {
      tag == SOME_TAG
    }

    predicate IsNone() {
      tag == NONE_TAG
    }

    function UnwrapOr(default: T): T {
      if tag == NONE_TAG then default else value
    }

    function OkOr(error: Error): Result<T> {
      if tag == SOME_TAG then Ok(value) else Err(error)
    }

    /** The option this is when its tag is one of the two that mean something. */
    function ToOption(): Option<T> {
      if IsSome() then Some(value) else None
    }
  }

  datatype PodMint = PodMint(
    mintAuthority: PodOption<Address>,
    supply: u64,
    decimals: u8,
    isInitialized: u8,
    freezeAuthority: PodOption<Address>)
  {
    predicate IsInitialized() {
      isInitialized != 0
    }
  }

  datatype PodAccount = PodAccount(
    mint: Address,
    owner: Address,
    amount: u64,
    delegate: PodOption<Address>,
    state: u8,
    isNative: PodOption<u64>,
    delegatedAmount: u64,
    closeAuthority: PodOption<Address>)
  {
    predicate IsFrozen() {
      state == StateByte(Frozen)
    }

    predicate IsNative() {
      isNative.IsSome()
    }

    predicate IsInitialized() {
      state == StateByte(Initialized) || state == StateByte(Frozen)
    }
  }

  datatype PodMultisig = PodMultisig(m: u8, n: u8, isInitialized: u8, signers: SignerTable)

  function PodKey(b: Bytes): PodOption<Address>
    requires |b| == 36
  {
    PodOption(b[..4], Address(b[4..]))
  }

  function PodAmount(b: Bytes): PodOption<u64>
    requires |b| == 12
  {
    PodOption(b[..4], U64Of(b[4..]))
  }

  function ViewMint(b: Bytes): PodMint
    requires |b| == MINT_LEN
  {
    PodMint(PodKey(b[..36]), U64Of(b[36..44]), b[44], b[45], PodKey(b[46..82]))
  }

  function ViewAccount(b: Bytes): PodAccount
    requires |b| == ACCOUNT_LEN
  {
    PodAccount(Address(b[..32]), Address(b[32..64]), U64Of(b[64..72]), PodKey(b[72..108]), b[108], PodAmount(b[109..121]),
               U64Of(b[121..129]), PodKey(b[129..165]))
  }

  function ViewMultisigBytes(b: Bytes): PodMultisig
    requires |b| == MULTISIG_LEN
  {
    PodMultisig(b[0], b[1], b[2], ReadKeys(b[3..], MAX_SIGNERS))
  }

  predicate Tagged<T>(o: PodOption<T>) {
    o.IsSome() || o.IsNone()
  }

  /** The reference reader accepts exactly the bytes whose view has only meaningful tags
      and flags, and reads from them what the view shows. */
  lemma MintViewAgrees(b: Bytes)
    requires |b| == MINT_LEN
    ensures var v := ViewMint(b);
            ReadMint(b) == if Tagged(v.mintAuthority) && Tagged(v.freezeAuthority) && v.isInitialized <= 1
                           then Ok(Mint(v.mintAuthority.ToOption(), v.supply, v.decimals, v.IsInitialized(), v.freezeAuthority.ToOption()))
                           else Err(InvalidAccountData)
  {
  }

  lemma AccountViewAgrees(b: Bytes)
    requires |b| == ACCOUNT_LEN
    ensures var v := ViewAccount(b);
            ReadAccount(b) == if Tagged(v.delegate) && Tagged(v.isNative) && Tagged(v.closeAuthority) && v.state <= 2
                              then Ok(Account(v.mint, v.owner, v.amount, v.delegate.ToOption(),
                                              if v.IsFrozen() then Frozen else if v.IsInitialized() then Initialized else Uninitialized,
                                              v.isNative.ToOption(), v.delegatedAmount, v.closeAuthority.ToOption()))
                              else Err(InvalidAccountData)
  {
  }

  lemma MultisigViewAgrees(b: Bytes)
    requires |b| == MULTISIG_LEN
    ensures var v := ViewMultisigBytes(b);
            ReadMultisig(b) == if v.isInitialized <= 1 then Ok(Multisig(v.m, v.n, v.isInitialized != 0, v.signers))
                               else Err(InvalidAccountData)
  {
  }

  /** On options the reference reader accepts, the view's accessors are those of the option;
      on any other tag they part: `unwrap_or` hands out the value `ok_or` refuses. */
  lemma AccessorsAgree<T>(o: PodOption<T>, default: T, error: Error)
    ensures Tagged(o) ==>
              && o.UnwrapOr(default) == (if o.ToOption().Some? then o.ToOption().value else default)
              && o.OkOr(error) == (if o.ToOption().Some? then Ok(o.ToOption().value) else Err(error))
    ensures !Tagged(o) ==> o.UnwrapOr(default) == o.value && o.OkOr(error) == Err(error)
  {
  }

  // ---------------------------------------------------------------- account data at a glance

  const ACCOUNT_INITIALIZED_INDEX := 108
  const ACCOUNT_TYPE_ACCOUNT: u8 := 2

  /** `is_initialized_account`. */
  predicate IsInitializedAccount(data: Bytes) {
    (if |data| > ACCOUNT_INITIALIZED_INDEX then data[ACCOUNT_INITIALIZED_INDEX] else StateByte(Uninitialized))
    != StateByte(Uninitialized)
  }

  predicate ValidAccountData(data: Bytes) {
    || (|data| == ACCOUNT_LEN && IsInitializedAccount(data))
    || (|data| > ACCOUNT_LEN && |data| != MULTISIG_LEN && data[ACCOUNT_LEN] == ACCOUNT_TYPE_ACCOUNT && IsInitializedAccount(data))
  }

  /** The glance is right about plain accounts the reader can read: they are valid account
      data if and only if they unpack. */
  lemma ValidAccountDataUnpacks(b: Bytes)
    requires |b| == ACCOUNT_LEN && ReadAccount(b).Ok?
    ensures ValidAccountData(b) <==> UnpackAccountBytes(b).Ok?
  {
  }

  /** A packed account is valid account data if and only if it is initialised; a packed
      multisig never is. */
  lemma PackedDataIsTold(a: Account, was: Bytes, ms: Multisig)
    requires |was| == ACCOUNT_LEN
    ensures ValidAccountData(AccountBytes(a, was)) <==> !a.state.Uninitialized?
    ensures !ValidAccountData(MultisigBytes(ms))
  {
    AccountFields(a, was);
  }

  // ---------------------------------------------------------------- known bytes

  function Rep(n: nat, v: u8): (b: Bytes)
    ensures |b| == n && forall i | 0 <= i < n :: b[i] == v
  {
    seq(n, _ => v)
  }

  function RepKey(v: u8): Address {
    Address(Rep(32, v))
  }

  lemma SmallWord(x: u8)
    ensures U64Bytes(x) == [x, 0, 0, 0, 0, 0, 0, 0]
  {
    assert LeBytes(x, 8) == [x] + LeBytes(0, 7);
    ZeroBytes(7);
  }

  lemma {:induction false} ZeroBytes(n: nat)
    ensures LeBytes(0, n) == Rep(n, 0)
  {
    if n > 0 {
      ZeroBytes(n - 1);
    }
  }

  /** A mint with every field set, byte by byte. */
  lemma KnownMint(was: Bytes)
    requires |was| == MINT_LEN
    ensures MintBytes(Mint(Some(RepKey(1)), 42, 7, true, Some(RepKey(2))), was)
         == [1, 0, 0, 0] + Rep(32, 1) + [42, 0, 0, 0, 0, 0, 0, 0, 7, 1] + [1, 0, 0, 0] + Rep(32, 2)
  {
    SmallWord(42);
  }

  /** Without authorities their tags are zero and the bytes behind them stay. */
  lemma KnownEmptyMint(was: Bytes)
    requires |was| == MINT_LEN
    ensures MintBytes(Mint(None, 42, 7, false, None), was)
         == [0, 0, 0, 0] + was[4..36] + [42, 0, 0, 0, 0, 0, 0, 0, 7, 0] + [0, 0, 0, 0] + was[50..82]
  {
    SmallWord(42);
    assert was[..36][4..] == was[4..36] && was[46..82][4..] == was[50..82];
  }

  lemma KnownHead(a: Account, amount: u8)
    requires a.amount == amount
    ensures AccountHead(a) == a.mint.bytes + a.owner.bytes + [amount, 0, 0, 0, 0, 0, 0, 0]
  {
    SmallWord(amount);
  }

  lemma KnownRights(a: Account, was: Bytes, reserve: u8, delegated: u8)
    requires |was| == ACCOUNT_LEN && a.delegate.Some? && a.isNative == Some(reserve) && a.delegatedAmount == delegated
    ensures DelegateAndState(a, was[72..108]) == [1, 0, 0, 0] + a.delegate.value.bytes + [StateByte(a.state)]
    ensures NativeAndDelegated(a, was[109..121]) == [1, 0, 0, 0, reserve, 0, 0, 0, 0, 0, 0, 0] + [delegated, 0, 0, 0, 0, 0, 0, 0]
  {
    SmallWord(reserve);
    SmallWord(delegated);
  }

  /** An account with every field set, byte by byte. */
  lemma KnownAccount(was: Bytes)
    requires |was| == ACCOUNT_LEN
    ensures AccountBytes(Account(RepKey(1), RepKey(2), 3, Some(RepKey(4)), Frozen, Some(5), 6, Some(RepKey(7))), was)
         == (Rep(32, 1) + Rep(32, 2) + [3, 0, 0, 0, 0, 0, 0, 0]) + ([1, 0, 0, 0] + Rep(32, 4) + [2])
            + ([1, 0, 0, 0, 5, 0, 0, 0, 0, 0, 0, 0] + [6, 0, 0, 0, 0, 0, 0, 0]) + ([1, 0, 0, 0] + Rep(32, 7))
  {
    var a := Account(RepKey(1), RepKey(2), 3, Some(RepKey(4)), Frozen, Some(5), 6, Some(RepKey(7)));
    KnownHead(a, 3);
    KnownRights(a, was, 5, 6);
  }

  lemma KnownStates(a: Account, was: Bytes)
    requires |was| == ACCOUNT_LEN
    ensures AccountBytes(a, was)[108] == (match a.state case Uninitialized => 0 case Initialized => 1 case Frozen => 2)
  {
    AccountFields(a, was);
  }

  /** A multisig: its counts, its flag, and then its keys, each at its place. */
  lemma KnownMultisig(ms: Multisig, i: nat)
    requires i < 11
    ensures MultisigBytes(ms)[..3] == [ms.m, ms.n, if ms.isInitialized then 1 else 0]
    ensures MultisigBytes(ms)[3 + 32 * i..35 + 32 * i] == ms.signers[i].bytes
  {
    KeyAt(ms.signers, i);
    assert MultisigBytes(ms)[3 + 32 * i..35 + 32 * i] == KeysBytes(ms.signers)[32 * i..32 * i + 32];
  }

  lemma {:induction false} KeyAt(keys: seq<Address>, i: nat)
    requires i < |keys|
    ensures KeysBytes(keys)[32 * i..32 * i + 32] == keys[i].bytes
    decreases |keys|
  {
    var n := |keys| - 1;
    if i < n {
      KeyAt(keys[..n], i);
      assert KeysBytes(keys)[32 * i..32 * i + 32] == KeysBytes(keys[..n])[32 * i..32 * i + 32];
    }
  }

  /** Data longer than a plain account is an account's if it is not a multisig's by length, is
      marked as an account's behind the record, and is initialised. */
  lemma KnownAccountData(data: Bytes)
    ensures ValidAccountData(data) <==>
            |data| >= 165 && data[108] != 0 && (|data| > 165 ==> |data| != 355 && data[165] == 2)
  {
  }
}
