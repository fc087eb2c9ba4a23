/** The signature count of `validate_owner` in the source's own form, and what it
    amounts to; the client-side selection of a multisig's members. */
module Multisig {
  import opened Base
  import opened State
  import opened Authority

  function CountTrue(flags: seq<bool>): (c: nat)
    ensures c <= |flags|
  {
    if flags == [] then 0 else CountTrue(flags[..|flags| - 1]) + if flags[|flags| - 1] then 1 else 0
  }

  /** Raising one flag raises the count by one. */
  lemma {:induction false} CountTrueRaise(flags: seq<bool>, p: nat)
    requires p < |flags| && !flags[p]
    ensures CountTrue(flags[p := true]) == CountTrue(flags) + 1
    decreases |flags|
  {
    var last := |flags| - 1;
    if p == last {
      assert flags[p := true][..last] == flags[..last];
    } else {
      assert flags[p := true][..last] == flags[..last][p := true];
      CountTrueRaise(flags[..last], p);
    }
  }

  lemma {:induction false} CountTrueIsCountMatched(ms: Multisig, signers: seq<Meta>, flags: seq<bool>, n: nat)
    requires n == |flags| <= MAX_SIGNERS
    requires forall p: nat | p < n :: flags[p] == Matched(ms, signers, p)
    ensures CountTrue(flags) == CountMatched(ms, signers, n)
    decreases n
  {
    if n > 0 {
      CountTrueIsCountMatched(ms, signers, flags[..n - 1], n - 1);
    }
  }

  lemma NoneRaised(flags: seq<bool>)
    requires forall p | 0 <= p < |flags| :: !flags[p]
    ensures CountTrue(flags) == 0
  {
  }

  /** After the listed signers `seen`, the table is right about position `p` and no
      unsigned entry has come first for its key. */
  predicate Agreed(ms: Multisig, seen: seq<Meta>, matched: bool, p: nat)
    requires p < MAX_SIGNERS
  {
    matched == Matched(ms, seen, p) && FirstListedSigned(seen, ms.signers[p])
  }

  lemma UnsignedMember(ms: Multisig, signers: seq<Meta>, i: nat, position: nat)
    requires i < |signers| && position < ms.n <= MAX_SIGNERS
    requires signers[i].key == ms.signers[position] && !signers[i].isSigner && !Matched(ms, signers[..i], position)
    ensures SomeMemberUnsigned(ms, signers)
  {
    assert forall j | 0 <= j < i :: signers[..i][j] == signers[j];
    assert !FirstListedSigned(signers, ms.signers[position]);
  }

  lemma CountingDecides(ms: Multisig, signers: seq<Meta>, flags: seq<bool>)
    requires ms.isInitialized && |flags| == ms.n <= MAX_SIGNERS
    requires forall p: nat | p < ms.n :: Agreed(ms, signers, flags[p], p)
    ensures MultisigResult(ms, signers) == if CountTrue(flags) < ms.m then Err(MissingRequiredSignature) else Ok(())
  {
    forall p: nat | p < ms.n ensures FirstListedSigned(signers, ms.signers[p]) && flags[p] == Matched(ms, signers, p) {
      assert Agreed(ms, signers, flags[p], p);
    }
    CountTrueIsCountMatched(ms, signers, flags, ms.n);
  }

  /** The inner loop: one listed signer against every position of the multisig. */
  method MatchSigner(ms: Multisig, signers: seq<Meta>, i: nat, matched: array<bool>, count: nat) returns (r: Result<nat>)
    requires ms.n <= MAX_SIGNERS == matched.Length && i < |signers|
    requires forall p: nat | p < ms.n :: Agreed(ms, signers[..i], matched[p], p)
    requires count == CountTrue(matched[..ms.n])
    modifies matched
    ensures r.Err? ==> r == Err(MissingRequiredSignature) && SomeMemberUnsigned(ms, signers)
    ensures r.Ok? ==> r.value == CountTrue(matched[..ms.n])
    ensures r.Ok? ==> forall p: nat | p < ms.n :: Agreed(ms, signers[..i + 1], matched[p], p)
  {
    var numSigners := count;
    for position: nat := 0 to ms.n
      invariant forall p: nat | p < position :: Agreed(ms, signers[..i + 1], matched[p], p)
      invariant forall p: nat | position <= p < ms.n :: Agreed(ms, signers[..i], matched[p], p)
      invariant numSigners == CountTrue(matched[..ms.n])
    {
      ExtendByOne(ms, signers, i, position);
      if ms.signers[position] == signers[i].key && !matched[position] {
        if !signers[i].isSigner {
          UnsignedMember(ms, signers, i, position);
          return Err(MissingRequiredSignature);
        }
        CountTrueRaise(matched[..ms.n], position);
        ghost var before := matched[..ms.n];
        matched[position] := true;
        assert matched[..ms.n] == before[position := true];
        numSigners := numSigners + 1;
      }
    }
    return Ok(numSigners);
  }

  /** The nested loop over the listed signers and the multisig's positions, with its
      `matched` table and running count, decides what `MultisigResult` says. */
  method CountSigners(ms: Multisig, signers: seq<Meta>) returns (r: Result<()>)
    ensures r == MultisigResult(ms, signers)
  {
    if !ms.isInitialized { return Err(UninitializedAccount); }
    var numSigners: nat := 0;
    var matched := new bool[MAX_SIGNERS](_ => false);
    ghost var n := if ms.n <= MAX_SIGNERS then ms.n else 0;
    NoneRaised(matched[..n]);
    for i := 0 to |signers|
      invariant n == ms.n || i == 0
      invariant forall p: nat | p < n :: Agreed(ms, signers[..i], matched[p], p)
      invariant numSigners == CountTrue(matched[..n])
    {
      if ms.n > MAX_SIGNERS { return Err(Panic); }
      var step := MatchSigner(ms, signers, i, matched, numSigners);
      if step.Err? { return Err(step.error); }
      numSigners := step.value;
    }
    assert signers[..|signers|] == signers;
    if n == ms.n {
      CountingDecides(ms, signers, matched[..n]);
    }
    if numSigners < ms.m { return Err(MissingRequiredSignature); }
    return Ok(());
  }

  /** What one more listed signer means for one position. */
  lemma ExtendByOne(ms: Multisig, signers: seq<Meta>, i: nat, position: nat)
    requires i < |signers| && position < MAX_SIGNERS
    ensures Matched(ms, signers[..i + 1], position) <==>
            Matched(ms, signers[..i], position) || signers[i].key == ms.signers[position]
    ensures FirstListedSigned(signers[..i + 1], ms.signers[position]) <==>
            FirstListedSigned(signers[..i], ms.signers[position])
            && (signers[i].key == ms.signers[position] && !Matched(ms, signers[..i], position) ==> signers[i].isSigner)
  {
    var shorter, longer := signers[..i], signers[..i + 1];
    assert longer == shorter + [signers[i]];
    assert forall j | 0 <= j < i :: longer[j] == shorter[j];
    if Matched(ms, longer, position) {
      var j :| 0 <= j < |longer| && longer[j].key == ms.signers[position];
      assert j < i ==> shorter[j].key == ms.signers[position];
    }
    if Matched(ms, shorter, position) {
      var j :| 0 <= j < |shorter| && shorter[j].key == ms.signers[position];
      assert longer[j].key == ms.signers[position];
    }
    assert longer[i] == signers[i];
  }

  /** `Processor::validate_owner`: a multisig's members are counted, any other
      authority must have signed. */
  method Validate(l: Ledger, expected: Address, authority: Meta, signers: seq<Meta>) returns (r: Result<()>)
    ensures r == ValidateOwner(l, expected, authority, signers)
  {
    if expected != authority.key { return Err(OwnerMismatch); }
    var slot := Get(l, authority.key);
    if IsMultisigSlot(slot) {
      r := CountSigners(ViewMultisig(slot), signers);
      return;
    } else if !authority.isSigner {
      return Err(MissingRequiredSignature);
    }
    return Ok(());
  }

  // ---------------------------------------------------------------- what the count means

  function MatchedPositions(ms: Multisig, signers: seq<Meta>, n: nat): set<nat>
    requires n <= MAX_SIGNERS
  {
    set p: nat | p < n && Matched(ms, signers, p)
  }

  /** The count is the number of matched positions. */
  lemma {:induction false} CountIsCardinality(ms: Multisig, signers: seq<Meta>, n: nat)
    requires n <= MAX_SIGNERS
    ensures CountMatched(ms, signers, n) == |MatchedPositions(ms, signers, n)|
    decreases n
  {
    if n > 0 {
      CountIsCardinality(ms, signers, n - 1);
      NextPosition(ms, signers, n);
    }
  }

  lemma OneMore(fewer: set<nat>, more: set<nat>, p: nat, added: bool)
    requires p !in fewer
    requires forall q: nat :: q in more <==> q in fewer || (added && q == p)
    ensures |more| == |fewer| + if added then 1 else 0
  {
    assert more == if added then fewer + {p} else fewer;
  }

  lemma NextPosition(ms: Multisig, signers: seq<Meta>, n: nat)
    requires 0 < n <= MAX_SIGNERS
    ensures |MatchedPositions(ms, signers, n)| ==
            |MatchedPositions(ms, signers, n - 1)| + if Matched(ms, signers, n - 1) then 1 else 0
  {
    OneMore(MatchedPositions(ms, signers, n - 1), MatchedPositions(ms, signers, n), n - 1, Matched(ms, signers, n - 1));
  }

  /** Whose signature is accepted: the authority must be the one expected; if it is a
      multisig's record, enough positions must be listed and every listed member's first entry
      must have signed; anybody else must have signed. */
  lemma AcceptsExactly(l: Ledger, expected: Address, authority: Meta, signers: seq<Meta>)
    ensures ValidateOwner(l, expected, authority, signers).Ok? <==>
            && authority.key == expected
            && var slot := Get(l, expected);
               if slot.program != Other && slot.len == 355 then
                 && slot.data.MultisigData? && slot.data.multisig.isInitialized
                 && var ms := slot.data.multisig;
                    if ms.n > 11 then signers == [] && ms.m == 0
                    else
                      && |MatchedPositions(ms, signers, ms.n)| >= ms.m
                      && forall p: nat | p < ms.n :: FirstListedSigned(signers, ms.signers[p])
               else authority.isSigner
  {
    var slot := Get(l, expected);
    if slot.data.MultisigData? && slot.data.multisig.n <= 11 {
      CountIsCardinality(slot.data.multisig, signers, slot.data.multisig.n);
    }
  }

  predicate AllSigned(signers: seq<Meta>) {
    forall i | 0 <= i < |signers| :: signers[i].isSigner
  }

  predicate Lists(signers: seq<Meta>, key: Address) {
    exists i | 0 <= i < |signers| :: signers[i].key == key
  }

  lemma {:induction false} MoreListedMoreMatched(ms: Multisig, a: seq<Meta>, b: seq<Meta>, n: nat)
    requires n <= MAX_SIGNERS
    requires forall p: nat | p < n :: Matched(ms, a, p) ==> Matched(ms, b, p)
    ensures CountMatched(ms, a, n) <= CountMatched(ms, b, n)
    decreases n
  {
    if n > 0 {
      MoreListedMoreMatched(ms, a, b, n - 1);
    }
  }

  /** A list in which everybody signed may be reordered, repeated or extended by other
      signing accounts: what it authorised it still authorises, unless the multisig's count
      of positions is out of range, where naming anybody at all aborts. */
  lemma SigningListsExtend(ms: Multisig, a: seq<Meta>, b: seq<Meta>)
    requires AllSigned(b)
    requires forall key :: Lists(a, key) ==> Lists(b, key)
    requires MultisigResult(ms, a).Ok?
    ensures MultisigResult(ms, b).Ok? <==> ms.n <= MAX_SIGNERS || b == []
  {
    if ms.n <= MAX_SIGNERS {
      forall p: nat | p < ms.n && Matched(ms, a, p) ensures Matched(ms, b, p) {
        assert Lists(a, ms.signers[p]);
      }
      MoreListedMoreMatched(ms, a, b, ms.n);
    }
  }

  /** Two lists of signing accounts with the same keys decide alike. */
  lemma SigningListsReorder(ms: Multisig, a: seq<Meta>, b: seq<Meta>)
    requires AllSigned(a) && AllSigned(b)
    requires forall key :: Lists(a, key) <==> Lists(b, key)
    ensures MultisigResult(ms, a) == MultisigResult(ms, b)
  {
    if ms.isInitialized && ms.n <= MAX_SIGNERS {
      forall p: nat | p < ms.n ensures Matched(ms, a, p) == Matched(ms, b, p) {
        assert Lists(a, ms.signers[p]) == Lists(b, ms.signers[p]);
      }
      MoreListedMoreMatched(ms, a, b, ms.n);
      MoreListedMoreMatched(ms, b, a, ms.n);
    } else {
      assert a != [] ==> Lists(a, a[0].key);
      assert b != [] ==> Lists(b, b[0].key);
    }
  }

  predicate IsMember(ms: Multisig, key: Address) {
    exists p: nat | p < ms.n && p < MAX_SIGNERS :: ms.signers[p] == key
  }

  function Members(ms: Multisig, accounts: seq<Meta>): seq<Meta> {
    if accounts == [] then []
    else
      var rest := Members(ms, accounts[..|accounts| - 1]);
      if IsMember(ms, accounts[|accounts| - 1].key) then rest + [accounts[|accounts| - 1]] else rest
  }

  /** `extract_multisig_accounts`: the members among the accounts, in order; none at
      all for an authority that is not a multisig. */
  method ExtractMultisigAccounts(l: Ledger, authority: Address, accounts: seq<Meta>) returns (r: Result<seq<Meta>>)
    ensures !IsMultisigSlot(Get(l, authority)) ==> r == Ok([])
    ensures IsMultisigSlot(Get(l, authority)) ==>
              var ms := ViewMultisig(Get(l, authority));
              r == if ms.n > MAX_SIGNERS && accounts != [] then Err(Panic) else Ok(Members(ms, accounts))
  {
    if !IsMultisigSlot(Get(l, authority)) { return Ok([]); }
    var ms := ViewMultisig(Get(l, authority));
    var members: seq<Meta> := [];
    for i := 0 to |accounts|
      invariant members == Members(ms, accounts[..i])
      invariant ms.n > MAX_SIGNERS ==> i == 0
    {
      if ms.n > MAX_SIGNERS { return Err(Panic); }
      assert accounts[..i + 1][..i] == accounts[..i];
      if IsMember(ms, accounts[i].key) {
        members := members + [accounts[i]];
      }
    }
    assert accounts[..|accounts|] == accounts;
    return Ok(members);
  }

  /** The members are just those accounts that occur among the first `n` positions, as often
      and in the order in which they are listed. */
  lemma {:induction false} MembersExactly(ms: Multisig, a: seq<Meta>, b: seq<Meta>, x: Meta)
    ensures multiset(Members(ms, a))[x] == if exists p: nat | p < ms.n && p < 11 :: ms.signers[p] == x.key then multiset(a)[x] else 0
    ensures Members(ms, a + b) == Members(ms, a) + Members(ms, b)
  {
    MembersCount(ms, a, x);
    MembersConcat(ms, a, b);
  }

  lemma {:induction false} MembersCount(ms: Multisig, a: seq<Meta>, x: Meta)
    ensures multiset(Members(ms, a))[x] == if IsMember(ms, x.key) then multiset(a)[x] else 0
    decreases |a|
  {
    if a != [] {
      var init := a[..|a| - 1];
      MembersCount(ms, init, x);
      assert a == init + [a[|a| - 1]];
    }
  }

  lemma {:induction false} MembersConcat(ms: Multisig, a: seq<Meta>, b: seq<Meta>)
    ensures Members(ms, a + b) == Members(ms, a) + Members(ms, b)
    decreases |b|
  {
    if b == [] {
      assert a + b == a;
    } else {
      assert (a + b)[..|a + b| - 1] == a + b[..|b| - 1];
      MembersConcat(ms, a, b[..|b| - 1]);
    }
  }

  lemma {:induction false} MembersList(ms: Multisig, accounts: seq<Meta>, key: Address)
    requires IsMember(ms, key)
    ensures Lists(Members(ms, accounts), key) <==> Lists(accounts, key)
    ensures FirstListedSigned(Members(ms, accounts), key) <==> FirstListedSigned(accounts, key)
    decreases |accounts|
  {
    if accounts != [] {
      var init, last := accounts[..|accounts| - 1], accounts[|accounts| - 1];
      MembersList(ms, init, key);
      assert accounts == init + [last];
      ListsSnoc(init, last, key);
      ListsSnoc(Members(ms, init), last, key);
    }
  }

  lemma ListsSnoc(init: seq<Meta>, last: Meta, key: Address)
    ensures Lists(init + [last], key) <==> Lists(init, key) || last.key == key
    ensures FirstListedSigned(init + [last], key) <==>
            FirstListedSigned(init, key) && (last.key == key && !Lists(init, key) ==> last.isSigner)
  {
    var all := init + [last];
    assert forall j | 0 <= j < |init| :: all[j] == init[j];
    assert all[|init|] == last;
    if Lists(init, key) {
      var j :| 0 <= j < |init| && init[j].key == key;
      assert all[j].key == key;
    }
  }

  lemma {:induction false} MembersMatch(ms: Multisig, accounts: seq<Meta>, n: nat)
    requires n <= ms.n && n <= MAX_SIGNERS
    ensures CountMatched(ms, Members(ms, accounts), n) == CountMatched(ms, accounts, n)
    decreases n
  {
    if n > 0 {
      MembersMatch(ms, accounts, n - 1);
      MembersList(ms, accounts, ms.signers[n - 1]);
      assert Matched(ms, accounts, n - 1) == Lists(accounts, ms.signers[n - 1]);
      assert Matched(ms, Members(ms, accounts), n - 1) == Lists(Members(ms, accounts), ms.signers[n - 1]);
    }
  }

  /** The multisig claims more positions than it has, and accounts are listed, none a member. */
  predicate AbortsWithoutMembers(ms: Multisig, accounts: seq<Meta>) {
    ms.isInitialized && ms.n > MAX_SIGNERS && accounts != [] && Members(ms, accounts) == []
  }

  /** Leaving out everybody but the members never changes the decision, except in the one
      case where there is nobody left whose listing could abort. */
  lemma SelectingMembersKeepsResult(ms: Multisig, accounts: seq<Meta>)
    ensures MultisigResult(ms, Members(ms, accounts)) == MultisigResult(ms, accounts) <==> !AbortsWithoutMembers(ms, accounts)
  {
    if ms.isInitialized && ms.n <= MAX_SIGNERS {
      MembersMatch(ms, accounts, ms.n);
      forall p: nat | p < ms.n
        ensures FirstListedSigned(Members(ms, accounts), ms.signers[p]) == FirstListedSigned(accounts, ms.signers[p])
      {
        MembersList(ms, accounts, ms.signers[p]);
      }
    }
  }

  // ---------------------------------------------------------------- transferring through another program

  function MarkSigners(infos: seq<Meta>): (r: seq<Meta>)
    ensures |r| == |infos| && forall i | 0 <= i < |r| :: r[i] == Meta(infos[i].key, true)
  {
    seq(|infos|, i requires 0 <= i < |infos| => Meta(infos[i].key, true))
  }

  /** The account list the helper builds for `transfer_checked`: the authority signs
      unless it is a multisig, whose members among the extra accounts then do. */
  method TransferAccounts(l: Ledger, source: Address, mint: Address, destination: Address, authority: Address,
                          additional: seq<Meta>) returns (r: Result<seq<Meta>>)
    ensures !IsMultisigSlot(Get(l, authority)) ==>
              r == Ok([Meta(source, false), Meta(mint, false), Meta(destination, false), Meta(authority, true)])
    ensures IsMultisigSlot(Get(l, authority)) ==>
              var ms := ViewMultisig(Get(l, authority));
              r == if ms.n > MAX_SIGNERS then Err(Panic)
                   else Ok([Meta(source, false), Meta(mint, false), Meta(destination, false), Meta(authority, false)]
                           + MarkSigners(Members(ms, additional)))
  {
    var accounts := [Meta(source, false), Meta(mint, false), Meta(destination, false), Meta(authority, true)];
    if IsMultisigSlot(Get(l, authority)) {
      accounts := accounts[3 := Meta(authority, false)];
      var ms := ViewMultisig(Get(l, authority));
      if ms.n > MAX_SIGNERS { return Err(Panic); }
      for i := 0 to |additional|
        invariant accounts == [Meta(source, false), Meta(mint, false), Meta(destination, false), Meta(authority, false)]
                              + MarkSigners(Members(ms, additional[..i]))
      {
        assert additional[..i + 1][..i] == additional[..i];
        if IsMember(ms, additional[i].key) {
          accounts := accounts + [Meta(additional[i].key, true)];
          assert MarkSigners(Members(ms, additional[..i]) + [additional[i]])
              == MarkSigners(Members(ms, additional[..i])) + [Meta(additional[i].key, true)];
        }
      }
      assert additional[..|additional|] == additional;
    }
    return Ok(accounts);
  }

  lemma {:induction false} MembersSigned(ms: Multisig, accounts: seq<Meta>)
    requires AllSigned(accounts)
    ensures MarkSigners(Members(ms, accounts)) == Members(ms, accounts)
    decreases |accounts|
  {
    if accounts != [] {
      MembersSigned(ms, accounts[..|accounts| - 1]);
    }
  }

  /** When the extra accounts all signed, the list the helper builds for a multisig
      authority gets exactly the decision the full list would get; with a count of positions out
      of range the helper itself aborts. */
  lemma HelperKeepsDecision(l: Ledger, expected: Address, authority: Meta, additional: seq<Meta>)
    requires AllSigned(additional) && IsMultisigSlot(Get(l, authority.key))
    ensures var ms := ViewMultisig(Get(l, authority.key));
            ValidateOwner(l, expected, Meta(authority.key, false), MarkSigners(Members(ms, additional)))
            == ValidateOwner(l, expected, authority, additional)
            <==> expected != authority.key || !AbortsWithoutMembers(ms, additional)
  {
    var ms := ViewMultisig(Get(l, authority.key));
    MembersSigned(ms, additional);
    SelectingMembersKeepsResult(ms, additional);
  }
}
