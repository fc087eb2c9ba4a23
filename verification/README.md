# Token-2022: a verified model

A Dafny model of the token program: the ledger its instructions act on, the bytes that
carry the instructions, the bytes that hold the accounts, and the decimal text of amounts.
`dafny verify dfyconfig.toml` checks everything.

## What is modelled

- **The ledger.** `State.Ledger` maps each key to a slot: owning program, lamports, data
  length, contents. Two entries of an account list with one key are one slot, so a source
  that is also the destination, or an authority that is also an account, is the real thing.
  Extensions are plain fields of a mint (`MintExt`) and of an account (`AccountExt`).
- **The handlers.** `TokenBank.Bank` holds a ledger and one method per handler of
  `program/src/processor.rs`, in the source's order: it writes fields as it goes and may stop
  with an error after it has written. `Entrypoint` has the dispatch, the batch loop and the
  transaction that puts the ledger back after an error. Each method is proved equal to a
  function in `Processor` (or `BatchProcessing`), and everything below is proved about those
  functions. `Effects` says of each of them, without them, exactly when it succeeds and which slots then
  change how; `WireFormat` leads from an instruction's bytes to its handler. `Multisig.Validate` is `validate_owner` with its two loops and `matched` table.
- **Runs.** `Runs.Exec` runs any list of events from any ledger: instructions in any order
  with any accounts, interleaved with what the rest of the chain may do (lamports arriving,
  other programs rewriting their slots, unused slots handed over with any mint extensions,
  the extension processors flipping pause, CPI guard and default state). `Invariant` to `Recreation` hold
  what is proved about runs. `Transactions` adds
  whole transactions given as bytes, batches among them, and shows that each is such a run.
- **The codec.** `InstructionCodec` is the reference parser and printer, `PodInstruction` the
  decoder that runs on-chain, `BatchText` the item list a batch is written out as.
- **The layouts.** `StateLayout` packs mints, accounts and multisigs in place into byte
  arrays and gives the plain-old-data view of the same bytes.
- **Decimal text.** `UiAmount`.

## Where the original does not do what one would expect

- `try_ui_amount_into_amount` hands the digits to `u64::parse`, which allows a leading plus
  sign. In front of a fraction the sign takes up a decimal place: `.+5` with three decimals
  gives 50 (`UiAmount.PlusExample`). `UiAmount.ExactUnlessPlus` says exactly for which texts
  and decimals parsing is exact.
- Trimming a text that has no point takes the zeros of its integer away (the program only trims texts
  with one); `UiAmount.TrimKeepsAmount` is the exact condition.
- A transfer that does not name its mint goes by marks the mint's extensions left on the source when it was
  initialised, and a fee needs a field left on the destination. A mint that is closed and created again at
  its key with a pause and a fee finds its old accounts without them. `Recreation.MarksCanBeMissing` is
  a run after which tokens of a paused mint move, and after which the branch said never to happen in
  `program/src/processor.rs:557-561` is taken; `Markers` has the exact conditions, and shows that
  a mint whose accounts are all marked keeps them so.
- A multisig record whose count of positions is out of range aborts only once an account is listed; see
  `Multisig.SelectingMembersKeepsResult` for the one case where leaving out non-members then matters.
- The on-chain decoder leaves alone any bytes after an instruction without data or with an optional
  last field, so it accepts inputs the reference parser leaves a rest of (the extension processors get the
  bytes after their tags)
  (`PodInstruction.LenientExample`; `PodInstruction.PodDecodesWhatUnpacks` is the exact relation).
- Written out as items, a batch states each item's length, and reading the items back does
  not check it; `BatchText.ItemsRoundTrip` says exactly which item lists survive.

## Model

| member | source | states |
|---|---|---|
| Runs.SupplyIsConserved | program/src/processor.rs:335-1397 | after any run, for every mint but the native one, the amounts and withheld fees of all its accounts add up to its supply, or to zero where there is no mint, also across closing and recreating it |
| Runs.NativeAccountsAreBacked | program/src/processor.rs:227-252 | after any run an account is native if and only if its mint is the native mint; its reserve is the rent of its length, amount and reserve are covered by its lamports, and it is never frozen |
| Runs.RunsKeepInvariant | program/src/processor.rs:100-1869 | the whole ledger invariant (well-formed slots, conservation, non-transferable tokens only in locked accounts, lamports within u64) holds after every run from the empty ledger |
| Runs.NextKeeps | program/src/processor.rs:100-1869 | every event, instruction or not, keeps the invariant |
| Invariant.ApplyKeepsTokens | program/src/processor.rs:100-1869 | every successful instruction keeps slot well-formedness, conservation per mint and the locking of non-transferable tokens |
| Invariant.TransferMoves | program/src/processor.rs:540-563 | a transfer takes `amount` from the source and adds exactly `amount` to the destination's amount and withheld fee together |
| Invariant.MintToIssues | program/src/processor.rs:1107-1115 | minting raises the account and the supply by the same amount |
| Invariant.BurnIssues | program/src/processor.rs:1285-1292 | burning lowers the account and the supply by the same amount |
| Lamports.ApplyConservesLamports | program/src/processor.rs:335-1869 | no instruction changes the total of all lamports, whichever of its accounts coincide |
| Lamports.MoveLamportsConserves | program/src/processor.rs:1757-1765 | the two checked balance updates keep the total, source equal to destination included |
| Lamports.MoveLamportsToSelf | program/src/processor.rs:1757-1765 | from a slot to itself they leave the ledger as it was |
| Lamports.TransferNeverOverflows | program/src/processor.rs:540-575 | in every reachable state, once the fee can be calculated and is at most the amount, no arithmetic guard of a transfer fires, native or not |
| Lamports.BurnNeverOverflows | program/src/processor.rs:1285-1292 | in every reachable state a burn never runs below zero, in the account, the allowance or the supply |
| Lamports.MintToOverflowsWithSupply | program/src/processor.rs:1107-1115 | minting that gets as far as the arithmetic succeeds if and only if the supply does not overflow: the account's own check is implied |
| Lamports.CloseNeverOverflows | program/src/processor.rs:1386-1389 | in every reachable state closing never overflows the destination |
| Lamports.WithdrawExcessNeverOverflows | program/src/processor.rs:1752-1765 | nor does withdrawing excess lamports |
| Lamports.UnwrapNeverOverflows | program/src/processor.rs:1851-1865 | nor does unwrapping, whose source always has the lamports its amount says |
| Evolution.AccountsEvolve | program/src/processor.rs:335-1869 | every change an instruction makes to an account that stays one is on an exact list: an authorised debit, a credit, a rewiring of its rights by their holder, a freeze or thaw, a sync |
| Evolution.AccountsDisappear | program/src/processor.rs:1298-1397 | an account goes away only by CloseAccount on it: without tokens unless native, without withheld fees, on the signature of its close authority or else its owner and under the CPI guard in favour of the owner, or, if it belongs to the system program or the incinerator, in favour of the incinerator; all its lamports go to the destination and the slot is empty |
| Evolution.AccountsAppear | program/src/processor.rs:169-258 | an account comes into being only by initialisation of a fresh slot: of the mint listed second, owned by the owner given or else listed third, in the mint's default state, with the marks of the mint's extensions, no delegate or close authority, and no tokens unless native, when amount and reserve are its lamports |
| Evolution.MintsEvolve | program/src/processor.rs:786-1025 | every change of a mint that stays one is a mint, a burn, or an authority moved on its holder's signature |
| Evolution.MintsDisappear | program/src/processor.rs:1360-1377 | a mint goes away only when closed on its close authority's signature with zero supply |
| Evolution.UntouchedRecords | program/src/processor.rs:100-1869 | records of keys an instruction does not name as its own to write stay as they are, but for lamports |
| Effects.InitializeMintExactly | program/src/processor.rs:100-146 | InitializeMint succeeds if and only if the listed slot is fresh, funded and of the mint's length and a default of frozen comes with a freeze authority; it writes these authorities and decimals, supply zero, and nothing else |
| Effects.InitializeAccountExactly | program/src/processor.rs:169-258 | InitializeAccount succeeds if and only if slot, mint, owner entry and rent are as required; it makes the one new account of this mint and owner, and nothing else |
| Effects.InitializeMultisigExactly | program/src/processor.rs:277-321 | InitializeMultisig succeeds if and only if the slot is a fresh multisig, funded, with 1 to 11 signers and `m` in that range; the record holds `m`, their number and their keys in order |
| Effects.CreateNativeMintExactly | program/src/processor.rs:1598-1640 | when the native mint can be created, and that it is then funded up to its rent by the payer, without authorities |
| Effects.TransferExactly | program/src/processor.rs:335-575 | a transfer to another account succeeds if and only if source, mint, authority and destination allow it; then the source has the amount less, the allowance drawn down if it was the delegate's, the destination the amount less the fee more and the fee withheld, native lamports moved along, and no other slot changed |
| Effects.SelfTransferExactly | program/src/processor.rs:449-516 | a transfer onto the same account succeeds if and only if all that concerns its source allows it, and changes nothing |
| Effects.MintToExactly | program/src/processor.rs:1028-1118 | when minting succeeds, the mint authority's signature included, and the two records it leaves |
| Effects.BurnExactly | program/src/processor.rs:1121-1295 | when a burn succeeds: the authority's right to take, and a burn authority's own signature exactly where the mint names one; and the two records it leaves |
| Effects.ApproveExactly | program/src/processor.rs:608-670 | when an approval succeeds, and that it names just this delegate and amount |
| Effects.RevokeExactly | program/src/processor.rs:673-706 | a revocation succeeds if and only if the account is not frozen and owner or delegate signs; it clears delegate and allowance |
| Effects.SetAccountAuthorityExactly | program/src/processor.rs:723-784 | when the owner or the close authority of an account is handed over, by whom, and what else is cleared |
| Effects.SetMintAuthorityExactly | program/src/processor.rs:786-1018 | an authority of a mint moves if and only if its holder signs and the kind is a mint's; nothing else of the mint changes |
| Effects.ToggleFreezeExactly | program/src/processor.rs:1400-1450 | freezing and thawing succeed if and only if the account is in the other state, not native, of this mint, and the freeze authority signs; only the state changes |
| Effects.CloseAccountExactly | program/src/processor.rs:1298-1397 | closing an account succeeds if and only if it is empty or native, its closer signs or it is unowned, and the lamports fit; they all go to the destination |
| Effects.CloseMintExactly | program/src/processor.rs:1360-1397 | closing a mint succeeds if and only if its supply is zero, its close authority signs and the lamports fit |
| Effects.SyncNativeExactly | program/src/processor.rs:1454-1488 | when SyncNative succeeds, and that it sets reserve and amount from the lamports and nothing else |
| Effects.WithdrawExactly | program/src/processor.rs:1680-1768 | withdrawing succeeds if and only if the account's owner, the mint's authority or key, or the multisig's members sign and the rent is there; exactly what lies above the rent moves |
| Effects.UnwrapExactly | program/src/processor.rs:1772-1869 | unwrapping succeeds if and only if owner or delegate may take this much of a native account; the source has as much less in amount and lamports, and the destination as many lamports more |
| Payments.LamportsFlow | program/src/processor.rs:335-1869 | every successful instruction moves one sum of lamports, from one slot to another, given for each; no other balance changes |
| Payments.NativeAmountsFollowLamports | program/src/processor.rs:565-575 | the lamports of a native account that its amount does not count change only when it is synced, to its reserve, or by what is paid in without being counted |
| Payments.TransfersChargeTheFee | program/src/processor.rs:379-447 | a transfer withholds exactly the epoch's fee of a mint that charges one, which is the fee stated if one is, and credits the rest; the decimals stated are the mint's; no guarded owner sends through another program |
| Safety.EveryDebitIsAuthorised | program/src/processor.rs:462-507 | whenever a balance falls, the instruction is a transfer, burn or unwrap of that account and its owner, its delegate within the allowance or the mint's permanent delegate passed `validate_owner`, unless it is a burn from an account of the system program or the incinerator |
| Safety.EveryHandoverIsAuthorised | program/src/processor.rs:673-784 | owner, close authority and delegate change only on the signature of whoever held the right: a delegate is named by the owner, and goes by a revocation signed by owner or delegate, an owner change, or its own debit of exactly what was left; a new owner finds no delegate; an immutable owner stays |
| Safety.FrozenStaysPut | program/src/processor.rs:363-365 | an instruction leaves a frozen account's whole record alone, unless the mint's freeze authority thaws it or it is closed empty |
| Safety.FundedAccountsStay | program/src/processor.rs:1315-1317 | an account with tokens that is not native cannot be closed |
| Safety.NoTransferOfLockedTokens | program/src/processor.rs:370-375 | no transfer between two accounts moves tokens of a non-transferable mint |
| Safety.LockedTokensStay | program/src/processor.rs:1062-1075 | the balance of an account of a non-transferable mint changes by minting and burning alone, and an immutable owner stays |
| Safety.SyncIsExact | program/src/processor.rs:1476-1483 | after SyncNative lamports equal amount plus reserve |
| Safety.SyncIsIdempotent | program/src/processor.rs:1454-1488 | a second SyncNative changes nothing |
| Safety.SyncNeverDebits | program/src/processor.rs:1454-1488 | with rent unchanged SyncNative on a native account succeeds if and only if its list does not go on with something other than the rent sysvar, and never lowers the amount |
| Continuations.FrozenUntilReleased | program/src/processor.rs:1417-1442 | on any continuation without a successful thaw or close of it, a frozen account keeps amount, withheld fees, owner, delegate, allowance and close authority |
| Continuations.RenouncedSupplyNeverRises | program/src/processor.rs:793-808 | once a mint has no mint authority it never gets one again and its supply never rises, for the life of the mint |
| Continuations.RenouncedFreezeNeverToggles | program/src/processor.rs:809-824 | once it has no freeze authority, no account of it ever changes between initialised and frozen |
| Continuations.NonTransferableStaysPut | program/src/processor.rs:739-741 | over any continuation the balance of an account of a non-transferable mint is the old one plus tokens minted less tokens burnt, and an account holding such tokens keeps its owner |
| Markers.PauseStopsExactlyWhatItReaches | program/src/processor.rs:401-441 | pausing its mint stops a transfer that would succeed if and only if the mint is named or the source carries a mark (pausable, withheld fee or hook) |
| Markers.MarksStay | program/src/processor.rs:218-226 | once every account of a mint carries the marks of its extensions, as when there is none yet, all do for the life of the mint |
| Markers.PausedBalancesStay | program/src/processor.rs:401-441 | while such a mint stays paused, over any continuation, no balance and no withheld fee of its accounts changes |
| Markers.FeeNeedsItsField | program/src/processor.rs:551-563 | a transfer that would succeed if its destination had the field for withheld fees stops with `InvalidState` without it if and only if it charges a fee |
| Markers.MarkedFeesFindTheirField | program/src/processor.rs:551-563 | where all accounts of the mint carry their marks, no transfer stops with `InvalidState` |
| Recreation.MarksCanBeMissing | program/src/processor.rs:405-441 | a run that closes a mint and creates it again with other extensions: a fee then finds no field, and a transfer without the mint moves tokens of the paused mint |
| Delegation.DelegatesStayWithinGrant | program/src/processor.rs:484-496 | over any run, debits by the delegate since the latest approval never exceed what it granted; while it stands they and the remaining allowance add up to the grant; after it has ended nobody is delegate and the allowance is zero |
| Delegation.AllowanceFollowsDebits | program/src/processor.rs:1823-1832 | between approvals the allowance falls by exactly what the delegate takes and changes with nothing else |
| Delegation.ApprovalEffects | program/src/processor.rs:666-703 | an approval sets the allowance, ending one clears delegate and allowance |
| Multisig.CountSigners | program/src/processor.rs:2268-2291 | the nested loop with its `matched` table accepts if and only if the multisig is initialised, every listed member's first entry signed, and at least `m` of the first `n` positions hold a listed key; with `n` out of range it aborts at the first listed account |
| Multisig.MatchSigner | program/src/processor.rs:2277-2285 | one listed signer against every position: the table and the count stay right, or a member's first entry did not sign |
| Multisig.Validate | program/src/processor.rs:2253-2295 | `validate_owner` decides what its loop-free definition says |
| Multisig.AcceptsExactly | program/src/processor.rs:2253-2295 | whose signature is accepted: the expected key, which either signed itself or is a multisig record with at least `m` of its positions listed and every listed member's first entry signed |
| Multisig.CountIsCardinality | program/src/processor.rs:2275-2290 | the count is the number of matched positions |
| Multisig.SigningListsExtend | program/src/processor.rs:2275-2291 | an accepted list may be extended by signing accounts and repeated and is still accepted, if and only if `n` is in range or nobody is listed |
| Multisig.SigningListsReorder | program/src/processor.rs:2275-2291 | two all-signing lists with the same keys decide alike, in any order |
| Multisig.ExtractMultisigAccounts | program/src/onchain.rs:28-48 | the loop returns exactly the members among the accounts, in order; nothing for an authority that is no multisig |
| Multisig.MembersExactly | program/src/onchain.rs:39-45 | the members selected are just the accounts that occur among the first `n` positions, as often and in the order in which they are listed |
| Multisig.SelectingMembersKeepsResult | program/src/onchain.rs:39-45 | leaving out everybody but the members keeps what `validate_owner` decides, if and only if it is not the case that `n` is out of range and nobody is left whose listing aborts |
| Multisig.TransferAccounts | program/src/onchain.rs:87-117 | the helper's account list: the authority signs unless it is a multisig, whose members among the extra accounts then do |
| Multisig.HelperKeepsDecision | program/src/onchain.rs:97-117 | when the extra accounts all signed, the list the helper builds gets the decision the full list would get, with the same one exception, in which the helper itself aborts |
| TokenBank.Bank.ProcessInitializeMint | program/src/processor.rs:100-146 | the new mint, or the first failing check's error, in the source's order |
| TokenBank.Bank.ProcessInitializeAccount | program/src/processor.rs:169-258 | the new account with its mint's required extensions; a native one starts with the lamports above its reserve |
| TokenBank.Bank.ProcessInitializeMultisig | program/src/processor.rs:277-321 | the new multisig, its signer table filled one by one; more signers than fit abort |
| TokenBank.Bank.ProcessCreateNativeMint | program/src/processor.rs:1598-1640 | the native mint, funded by the payer |
| TokenBank.Bank.SpendFrom | program/src/processor.rs:462-507 | the authority arms in their order, with the allowance written back at once |
| TokenBank.Bank.ConsultMint | program/src/processor.rs:377-441 | without a mint there is no fee, no permanent delegate, and no mark of an extension on the source; with one, it is the source's own, initialised and not paused, the permanent delegate is its own, and a fee is the epoch's fee of a mint that charges one |
| TokenBank.Bank.MoveTokens | program/src/processor.rs:519-575 | balances, withheld fee and lamports after the in-place updates, in spite of the writes that precede a failing check |
| TokenBank.Bank.ProcessTransfer | program/src/processor.rs:335-605 | the transfer handler's outcome and whole new ledger |
| TokenBank.Bank.ProcessMintTo | program/src/processor.rs:1028-1118 | the outcome and whole new ledger, though the account is credited before the supply is checked |
| TokenBank.Bank.BurnTokens | program/src/processor.rs:1234-1292 | the burn after its checks, allowance and balance written before the supply is |
| TokenBank.Bank.ProcessBurn | program/src/processor.rs:1121-1295 | the outcome and whole new ledger, permissioned or not |
| TokenBank.Bank.ProcessApprove | program/src/processor.rs:608-670 | the outcome and whole new ledger |
| TokenBank.Bank.ProcessRevoke | program/src/processor.rs:673-706 | the outcome and whole new ledger, by owner or delegate |
| TokenBank.Bank.ProcessSetAuthority | program/src/processor.rs:709-1025 | the outcome and whole new ledger for every authority type of accounts and mints |
| TokenBank.Bank.ProcessToggleFreeze | program/src/processor.rs:1400-1450 | the outcome and whole new ledger |
| TokenBank.Bank.ProcessCloseAccount | program/src/processor.rs:1298-1397 | the outcome and whole new ledger for accounts and mints |
| TokenBank.Bank.ProcessSyncNative | program/src/processor.rs:1454-1488 | the outcome and whole new ledger |
| TokenBank.Bank.ProcessWithdrawExcessLamports | program/src/processor.rs:1680-1768 | the outcome and whole new ledger for accounts, mints and multisigs |
| TokenBank.Bank.ProcessUnwrapLamports | program/src/processor.rs:1772-1869 | the outcome and whole new ledger, to another account or to itself |
| Entrypoint.RunInner | program/src/processor.rs:1922-2251 | decoding and dispatch together do what the decoded operation's function says |
| Entrypoint.RunBatch | program/src/processor.rs:1879-1910 | the batch loop, advancing accounts and data, is the recursive reading of them, and ends because each turn takes two bytes at least |
| Entrypoint.Execute | program/src/processor.rs:1913-1920 | a transaction leaves the ledger its input leads to, or on any error exactly the old one; it keeps the ledger invariant |
| BatchProcessing.BatchIsSequential | program/src/processor.rs:1885-1907 | a batch framing a non-empty list of instructions runs exactly those, in order, each with its own accounts and data; it succeeds if and only if all do and ends in their composed ledger |
| BatchProcessing.AcceptedBatchIsFrames | program/src/processor.rs:1885-1907 | conversely, the bytes of any batch that succeeds are the framing of such a list |
| BatchProcessing.BatchesDoNotNest | program/src/processor.rs:2241 | a batch with a batch among its instructions fails as a whole |
| BatchProcessing.EmptyBatchIsRefused | program/src/processor.rs:1885-1889 | a batch without any instruction is refused |
| WireFormat.OneByte | program/src/processor.rs:1927-2251 | the inputs 1, 5, 9, 10, 11, 17, 31 and 38 run InitializeAccount, Revoke, CloseAccount, freeze, thaw, SyncNative, CreateNativeMint and WithdrawExcessLamports |
| WireFormat.FreezeAndThaw | program/src/processor.rs:1400-1450 | from the byte to the effect: 10 succeeds just for an initialised account with its freeze authority's signature and leaves it frozen, 11 just for a frozen one and leaves it initialised |
| WireFormat.Amounts | program/src/processor.rs:1927-2251 | tags 3, 4, 7, 8 with eight little-endian bytes, and 12 to 15 with decimals after them, run Transfer, Approve, MintTo and Burn with that amount and those decimals |
| WireFormat.StatedFee | program/src/processor.rs:1927-2251 | TransferCheckedWithFee runs the transfer with its amount, decimals and fee |
| WireFormat.PermissionedBurns | program/src/processor.rs:2229-2236 | the two permissioned burns run Burn with the extra authority |
| WireFormat.UnwrapsAll | program/src/processor.rs:2237-2241 | UnwrapLamports without an amount unwraps everything |
| WireFormat.Unwraps | program/src/processor.rs:2237-2241 | and with one that amount |
| WireFormat.NewMints | program/src/processor.rs:1930-1955 | tags 0 and 20 initialise a mint with these decimals and keys, with and without the rent sysvar in the list |
| WireFormat.NewAccounts | program/src/processor.rs:1927-2251 | tags 16 and 18 initialise an account with this owner, with and without the rent sysvar in the list |
| WireFormat.NewMultisigs | program/src/processor.rs:1927-2251 | tags 2 and 19 initialise a multisig with this `m`, with and without the rent sysvar in the list |
| WireFormat.Authorities | interface/src/instruction.rs:1281-1327 | tag 6 with a code runs SetAuthority for the authority type of that place in the list, with the key or none |
| WireFormat.TagsInOrder | program/src/pod_instruction.rs:60-119 | the tag of each kind of instruction is its place in the enumeration |
| WireFormat.PacksToForm | interface/src/instruction.rs:801-988 | the bytes every instruction is packed to, field by field |
| Transactions.TransactionIsRun | program/src/processor.rs:1913-1920 | a transaction is the run of its instructions if it succeeds, and the empty run if not, however much had been written |
| Transactions.HistoryIsRun | program/src/processor.rs:1913-1920 | every history of transactions and outside events is a run of single instructions and those events |
| Transactions.HistoriesKeepInvariant | program/src/processor.rs:1913-1920 | so the ledger invariant holds after every history of transactions given as bytes |
| InstructionCodec.UnpackAfterPack | interface/src/instruction.rs:801-1156 | unpacking a packed instruction with any tail gives the instruction and the tail, for the four kinds that run to the end with an empty tail |
| InstructionCodec.PackAfterUnpack | interface/src/instruction.rs:990-1156 | whatever unpacks is byte for byte the packed instruction followed by the rest |
| InstructionCodec.UnpackNeverPanics | interface/src/instruction.rs:990-1156 | unpacking never aborts, whatever the input |
| InstructionCodec.AuthorityTypeBytesBiject | interface/src/instruction.rs:1281-1327 | authority types and the bytes 0 to 17 correspond one to one |
| InstructionCodec.PackInstruction | interface/src/instruction.rs:801-988 | the buffer, pushed field by field, is the packed instruction and unpacks to it |
| InstructionCodec.PushPubkeyOption | interface/src/instruction.rs:1179-1187 | appends the option's bytes and nothing else |
| InstructionCodec.PushExtensionTypes | interface/src/instruction.rs:893-898 | the loop appends two bytes for each type |
| InstructionCodec.ReadExtensionTypes | interface/src/instruction.rs:1095-1101 | the loop over two-byte chunks reads what the recursive definition does, errors included |
| PodInstruction.PodDecodesWhatUnpacks | program/src/pod_instruction.rs:123-186 | the on-chain decoder yields an instruction if and only if the reference parser does, it is no batch, and nothing is left over or the tail is one the decoder leaves alone |
| PodInstruction.PodRefinesUnpack | program/src/processor.rs:1927-2240 | a whole input the reference parser accepts decodes on-chain to the same tag and fields |
| PodInstruction.PayloadsAgree | interface/src/instruction.rs:2150-2156 | the same payload by payload, with equal field values |
| PodInstruction.LenientExample | program/src/processor.rs:1927-2240 | an input the processor runs though the reference parser leaves a rest of it |
| BatchText.Serialize | interface/src/serialization.rs:165-214 | the loop writes out exactly the frames of the input as items, or fails at the first bad one |
| BatchText.Deserialize | interface/src/serialization.rs:217-243 | the loop writes the items' bytes one after another, refusing batches |
| BatchText.BytesRoundTrip | interface/src/serialization.rs:165-241 | whatever bytes are written out as items are read back exactly |
| BatchText.ItemsRoundTrip | interface/src/serialization.rs:165-241 | items survive the other way round if and only if there are any, each states its own length correctly and none is a batch |
| BatchText.ItemsAreTheInstructions | interface/src/serialization.rs:165-214 | the items a batch's bytes are written out as are the instructions the batch runs, with the number of accounts each gets |
| UiAmount.AmountToUiAmountString | program/src/lib.rs:48-59 | the text is a numeral of exactly the amount with a plain integer part (no superfluous zero) and exactly `decimals` places, and parses back to the amount |
| UiAmount.FullTextIsUnique | program/src/lib.rs:48-59 | there is only one such text |
| UiAmount.TrimUiAmountString | program/src/lib.rs:69-75 | a prefix of the text that does not end in a point; a numeral keeps exactly its amounts if and only if it has a point or does not end in zero |
| UiAmount.TrimKeepsAmount | program/src/lib.rs:69-75 | that condition as a lemma, for every numeral and every positive number of decimals |
| UiAmount.AmountToUiAmountStringTrimmed | program/src/lib.rs:63-66 | the text is a numeral of exactly the amount with a plain integer part, without a zero at the end of the fraction or a point at the end, and parses back to the amount |
| UiAmount.TryUiAmountIntoAmount | program/src/lib.rs:79-101 | the in-place building of the digits, padding loop included, parses what its definition says |
| UiAmount.ParsesExactly | program/src/lib.rs:79-101 | for every text without a plus sign parsing returns `a` if and only if the text is a decimal numeral with an integer part or a non-zero fraction whose value times ten to the `decimals` is exactly `a` |
| UiAmount.ExactUnlessPlus | program/src/lib.rs:79-101 | for all texts and decimals: parsing is exact if and only if the text has no plus sign, or one that makes it fail |
| UiAmount.PlusParses | program/src/lib.rs:96-101 | which texts with a plus sign parse, and to what |
| UiAmount.PlusExample | program/src/lib.rs:79-101 | `.+5` with three decimals parses to 50 |
| UiAmount.TextParsesBack | program/src/lib.rs:48-101 | for every amount and number of decimals the text parses back to the amount |
| UiAmount.TrimmedTextParsesBack | program/src/lib.rs:63-101 | so does the trimmed text |
| UiAmount.TextsDiffer | program/src/lib.rs:63-75 | different amounts have different trimmed texts |
| StateLayout.PackMint | interface/src/state.rs:72-94 | the buffer after packing in place: every field's bytes, and the old bytes under an absent option; untouched at a wrong length |
| StateLayout.PackAccount | interface/src/state.rs:164-195 | the same for accounts |
| StateLayout.PackMultisig | interface/src/state.rs:256-268 | the same for multisigs, whose keys a loop writes |
| StateLayout.UnpackMultisig | interface/src/state.rs:237-255 | the chunk loop fills the signer table with the keys of the buffer |
| StateLayout.PutOption | interface/src/state.rs:274-305 | packing an option writes its tag, and its body only if there is a value |
| StateLayout.MintAfterPack | interface/src/state.rs:51-94 | unpacking a mint packed into any buffer gives the mint |
| StateLayout.AccountAfterPack | interface/src/state.rs:148-195 | the same for accounts |
| StateLayout.MultisigAfterPack | interface/src/state.rs:237-268 | the same for multisigs |
| StateLayout.UnpackAfterPack | interface/src/state.rs:43-268 | checked unpacking of a packed mint, account or multisig gives the record if and only if it is initialised, whatever the buffer held |
| StateLayout.MintRepack | interface/src/state.rs:51-94 | packing a mint over the buffer it was read from changes no byte, stale ones included |
| StateLayout.AccountRepack | interface/src/state.rs:148-195 | the same for accounts |
| StateLayout.MultisigRepack | interface/src/state.rs:237-268 | the same for multisigs |
| StateLayout.KnownMint | interface/src/state.rs:72-94 | the 82 bytes of a mint with every field set |
| StateLayout.KnownEmptyMint | interface/src/state.rs:72-94 | and of one without authorities, with the old bytes that stay |
| StateLayout.KnownAccount | interface/src/state.rs:164-195 | the 165 bytes of an account with every field set |
| StateLayout.KnownStates | interface/src/state.rs:200-217 | the state byte of every account |
| StateLayout.KnownMultisig | interface/src/state.rs:256-268 | the place of every field and key of a multisig |
| StateLayout.MintViewAgrees | interface/src/pod.rs:19-36 | a mint's bytes unpack if and only if their view has meaningful tags and a flag of 0 or 1, and then to the fields the view shows |
| StateLayout.AccountViewAgrees | interface/src/pod.rs:58-105 | the same for accounts, with the view's frozen, native and initialised tests |
| StateLayout.MultisigViewAgrees | interface/src/pod.rs:123-140 | the same for multisigs |
| StateLayout.AccessorsAgree | interface/src/pod.rs:199-227 | on meaningful tags `unwrap_or` and `ok_or` are those of the option; on others they part |
| StateLayout.ValidAccountDataUnpacks | interface/src/state.rs:317-326 | readable plain account bytes are valid account data if and only if they unpack |
| StateLayout.KnownAccountData | interface/src/state.rs:317-326 | which data is valid account data, by its length and two bytes |
| StateLayout.PackedDataIsTold | interface/src/state.rs:317-326 | a packed account is valid account data if and only if it is initialised, a packed multisig never is |

## Left out

- TokenBank.Bank.ProcessInitializeMint: does not check which extensions a mint may combine, nor the range of
  the default-state byte; and the length a mint must have comes from the environment (`Env.mintLen`).
- TokenBank.Bank.ProcessInitializeAccount: the least length an account needs comes from the environment
  (`Env.accountLen`), and writing its extensions never runs out of space.
- TokenBank.Bank.ProcessCreateNativeMint: the system program's three calls are taken to be one transfer from a
  signing payer outside the token programs, into an unused slot; how the native mint's address is
  derived is not modelled, nothing else can hand its slot to the program.
- TokenBank.Bank.ProcessTransfer: leaves out the memo check, the refusal of a destination closed to
  non-confidential credits, and the transfer hook's call, which is taken to do nothing to the ledger.
- TokenBank.Bank.MoveTokens: leaves out the memo check and the refusal of non-confidential credits, as above.
- TokenBank.Bank.ProcessCloseAccount: leaves out the closing conditions of the confidential extensions.
- TokenBank.Bank.ProcessSetAuthority: the sixteen arms for extension authorities are one here; they differ in
  the extension they read.
- Entrypoint.RunInner: the extension processors' instructions end in an error of their own, except
  TransferCheckedWithFee and the two permissioned burns; inputs whose first byte is no tag, which the
  original tries as metadata and group instructions, are refused. `BatchProcessing.BatchIsSequential` and
  `BatchProcessing.AcceptedBatchIsFrames` hold for whatever a single instruction does, these included.
- InstructionCodec.ReadExtensionTypes: extension types are their two-byte codes up to 28, without names.
- Runs.NextKeeps: rent is one fixed function of the length during a run; the epoch's fee for a mint and an
  amount is an input of each instruction, any u64.
- The extension processors (fees, harvest, memo, pausing, CPI guard, default state, metadata, groups,
  reallocation): pausing, guarding and default states occur as outside events of a run, and extensions
  are chosen when a slot is handed to the program. Harvesting withheld fees is not a step, nor are
  the initialisers that run before a mint or an account is initialised.
- Which error a buffer of another kind gives: reading a mint where an account is stored is always an
  invalid-account-data error here, where the original may report an uninitialised one.
- Two entries of one key borrowed at the same time: the original aborts. Here the second read finds a
  record of the wrong kind, and that error is returned.
- Handlers write into a map-valued field of one `Bank` rather than into shared account objects: sharing by
  key is kept, references into data are not.
- `TokenInstruction::pack` and `unpack_with_rest` match on some fifty arms; here arms of one layout share a
  table entry, and the tables are proved to fit together.
- The ids of the system program, the incinerator, the rent sysvar and the native mint are unspecified
  constants; keys are compared and nothing more.
- Confidential transfers, confidential mint and burn, and zero-knowledge proofs: cryptography. A mint with
  confidential mint and burn is only seen to refuse plain minting and burning.
- Instruction builders, `program/src/offchain.rs`, error texts, the C header, serde visitors other than
  `batch_fromstr`, command line and clients: not modelled.
- `f64` conversions and scaled or interest-bearing amounts: floating point.
