# DeepBrainChain pallets: a verified model

This project models four FRAME pallets of the DeepBrainChain runtime that keep
money and status in several storage maps which must agree, and proves that
they do, step by step and over whole runs.

- **Assets** with the time-lock extension (`Assets*.dfy`): a fungible-token
  ledger with mint, burn, transfer, approvals, touch and refund, staged
  destruction, and transfers that are parked in per-receiver lock maps with a
  cached total. One asset id is the whole model, since no call touches two.
- **Compute-pool scheduler** (`Scheduler*.dfy`): pool selection by score,
  reward arithmetic, the task state machine with escrow, proofs, verification,
  timeouts in a block hook, disputes, slashing and reputation.
- **Agent attestation** (`Attestation*.dfy`): a challenge-window protocol with
  deposits, also driven by the scheduler when a task completes, and an
  inverted index from models to providers.
- **Committee** (`Committee*.dfy`): members in four sorted lists according to
  the health of their stake, found by binary search.

`Currency.dfy` is the native currency as these pallets see it: free, reserved
and frozen balances per account, and the four reserve operations.

## How it is built

- `*Spec.dfy`: the storage as a datatype and every entry point as a function
  from storage (and currency, and what the runtime answers) to the storage
  after it and the result, with the source's checks in the source's order.
- `*Pallet.dfy`: a class with one field per storage item whose methods update
  the fields in place, with the source's loops, and are proved equal to those
  functions on the whole storage. A call that fails late puts storage back;
  the block hook and the completion handler keep partial writes, as in the
  source. `Valid()` is the pallet's invariant on its fields, and `Dispatch`
  (with `NextBlock` for the scheduler) ensures it after any call.
- The other files: invariants, conservation laws, effects and histories of
  the functions.
- `Chain.dfy` and `ChainRuns.dfy`: scheduler, attestation pallet and currency
  as one chain, with calls in any order, one hook per block, and other pallets
  working on the same currency in between. `ChainCommittee.dfy` adds the
  committee, which draws on the same reserves. `ChainNodes.dfy`,
  `ChainStakes.dfy` and `ChainEscrows.dfy` follow GPU nodes, pool stakes and
  escrows over those runs.
- `*Scenarios.dfy` and `ChainRatings.dfy`: runs from empty storage to the
  states in which the code falls short.

The block number, the iteration order of a storage map, the consumer
references an account can still take, the balance another pallet freezes and
the success of a native reserve in the assets pallet are parameters, so every
theorem holds for all of them.

## Where the code falls short

Each item names the exact condition and, where it takes a particular state to
see it, a run from empty storage that reaches one.

- A dispute does not look at whether the escrow was claimed. After a claim it
  refunds the user a second time out of whatever else is in reserve
  (`SchedulerBooks.DisputeBalancedIff`, `SchedulerBooks.DisputeCoveredIff`; run
  `ChainScenarios.DisputeUnbacks`).
- Deregistering a pool leaves the escrows of its completed but unclaimed tasks
  in reserve for good: an unclaimed escrow can be settled exactly while the
  pool is registered (`ChainEscrows.SettleableIff`; run
  `ChainScenarios.DeregistrationStrands`).
- A lock cannot be released while supply plus lock exceeds 128 bits, although
  nothing is minted (`AssetsLocks.UnlockIff`; run
  `AssetsScenarios.BlockedUnlock`).
- The debug assertion that a debit leaves nothing or the minimum fails for a
  best-effort burn exactly when another pallet has frozen a holder that is
  below the minimum (`AssetsSteps.BurnAssertionIff`; run
  `AssetsScenarios.EmptyBurn`). If no deposit keeps that holder, it is removed
  with its balance and the supply stays (`AssetsSteps.BurnWipes`; run
  `AssetsScenarios.WipingBurn`). The runtime
  configures no freezer (`type Freezer = ()`, runtime/src/lib.rs:1287), so this
  needs another one.
- The counter of approvals loses count when it is full
  (`AssetsRuns.ApprovalCountIff`; run `AssetsScenarios.LostCount`).
- A destruction takes the locks of holders along and no others. If the storage
  library's final clearing leaves a lock, an asset created again under the id
  starts with less supply than is locked exactly when the receiver had no
  account when the destruction began (`AssetsLeftovers.ReuseIff`,
  `AssetsLeftovers.CleanIff`; run `AssetsScenarios.ForeignLock`).
- A spend by a delegate gives the destination more than it names, and so more
  than was approved when it names all of it, exactly when the owner is another
  account that would be left with dust (`AssetsAllowances.OverspendIff`; run
  `AssetsScenarios.Overspend`).
- The success rate of a flawless pool falls below 100 from 42949673 successes
  on (`SchedulerStatistics.FlawlessRateIff`; run
  `ChainRatings.FlawlessBelowHundred`).
- `change_total_stake` does not move a member to the list that fits the new
  stake (`CommitteeProofs.ChangeTotalIff`). Every caller follows it at once
  with `change_used_stake` for the same member, which does
  (`CommitteeProofs.PairFits`), so it shows only when that second call fails,
  and online-committee drops its result (run `CommitteeScenarios.HalfPair`).
- The provider query filters on active nodes, but no code path makes a node
  inactive (`AttestationProofs.ProvidersAreListers`).

## Model

| member | source | states |
|---|---|---|
| `AssetsRuns.RunConserves` | pallets/assets/src/functions.rs:351-1096 | Over any run within one lifetime of an asset id: what is in accounts and locks plus what was lost from them equals what was there plus minted minus burnt; the supply is never less than accounts and locks together; the difference grows by exactly what refunds, lock removals, forced destruction and the wiping burn lose, and by nothing else. |
| `AssetsRuns.RunKeeps` | pallets/assets/src/functions.rs:67-1096 | In every reachable state the three counters equal the numbers of entries they count, the supply covers accounts and locks, the lock cache is the sum of the locks, no lock map is empty and no lock id reaches 1000. |
| `AssetsRuns.RunMinimal` | pallets/assets/src/functions.rs:527-696 | In every run, every holder that exists without a deposit has at least the minimum balance, whatever the freezer, unless root has set by `force_asset_status` a minimum above what such a holder had. |
| `AssetsRuns.RunDestroying` | pallets/assets/src/lib.rs:802-874 | Once destroying, an asset stays destroying until the last stage over any run, and no call adds a holder, an approval or a locked receiver. |
| `AssetsRuns.LiveKeeps` | pallets/assets/src/functions.rs:318-1096 | Any successful call on an existing asset keeps the agreement of all storage maps and moves supply minus accounts minus locks by exactly the tokens it loses. |
| `AssetsRuns.SupplyMoves` | pallets/assets/src/functions.rs:414-517 | The supply moves by what a mint creates and a burn reports, and no other call touches it. |
| `AssetsRuns.ErrorsChangeNothing` | pallets/assets/src/lib.rs:714-1902 | A call that returns an error leaves the storage as it was. |
| `AssetsRuns.ApprovalCountIff` | pallets/assets/src/functions.rs:1005-1044 | The counter of approvals stays exact under a new approval if and only if it is not full: at the maximum the saturating increment loses count. |
| `AssetsAllowances.AllowanceSpent` | pallets/assets/src/functions.rs:1053-1096 | A spend uses up exactly the amount named, and the approval disappears exactly when nothing is left. Owner and destination exchange one sum: nothing if they are the same account or the amount is zero, otherwise the amount and less than the minimum balance on top. No other balance, lock or supply changes. |
| `AssetsAllowances.OverspendIff` | pallets/assets/src/functions.rs:1053-1096 | The destination of a successful spend ends up with more than the amount on top of what it had if and only if it is not the owner, the amount is positive and the owner would keep something, but less than the minimum. |
| `AssetsScenarios.Overspend` | pallets/assets/src/functions.rs:1053-1096 | A run from unused storage after which a delegate with an allowance of 4 leaves the owner with 0 of 5 and a new holder with 5. |
| `AssetsScenarios.LostCount` | pallets/assets/src/functions.rs:1005-1044 | A run of 4294967295 approvals after which one more is accepted and the counter no longer equals the number of approvals. |
| `AssetsRuns.DestroyingStays` | pallets/assets/src/lib.rs:1408-1441 | No single call takes an asset out of destruction, `force_asset_status` and `thaw_asset` included, or adds an entry meanwhile. |
| `AssetsLocks.LockThenUnlock` | pallets/assets/src/functions.rs:725-824 | Transfer-and-lock followed by the release of that lock leaves the whole storage (record, holders, approvals, locks, cache) as one plain transfer with the same flags does, for distinct accounts where all three succeed. |
| `AssetsLocks.UnlockIff` | pallets/assets/src/lib.rs:1778-1845 | A due lock is released if and only if the receiver can be credited and supply plus lock fits in 128 bits; the second half is a check the code makes although nothing is minted. |
| `AssetsLocks.FullSupplyBlocksUnlock` | pallets/assets/src/lib.rs:1793-1793 | With the supply at its maximum no lock can be released, however long it has been due. |
| `AssetsScenarios.BlockedUnlock` | pallets/assets/src/lib.rs:1778-1845 | A run from unused storage that ends with a lock due at once which no release at any block gets through while the supply stays as it is; after a burn of one unit of somebody else it is released. |
| `AssetsLocks.DebitCreditCommute` | pallets/assets/src/functions.rs:632-687 | Debiting the source and crediting the destination commute, counters and removal of the source included. |
| `AssetsLocks.LockRoundTrip` | pallets/assets/src/functions.rs:775-803 | Dropping the lock that was just added restores lock map and cache exactly. |
| `AssetsInvariant.Pigeonhole` | pallets/assets/src/functions.rs:826-841 | With all ids below 1000, a free id exists if and only if fewer than 1000 locks are stored. |
| `AssetsInvariant.AddLockRefusal` | pallets/assets/src/functions.rs:775-803 | A lock is refused if and only if the receiver has 1000 locks; the bounded insertion after the search never fails. |
| `AssetsInvariant.AddLockFacts` | pallets/assets/src/functions.rs:775-803 | Adding a lock keeps bounds and cache exact and raises the locked total by exactly the lock. |
| `AssetsInvariant.DropLockFacts` | pallets/assets/src/lib.rs:1826-1836 | Dropping a lock keeps them exact, and the last lock takes map and cache entry with it. |
| `AssetsInvariant.CreditFacts` | pallets/assets/src/functions.rs:442-482 | A credit adds exactly its amount to one holder and counts a holder it creates, sufficient or not. |
| `AssetsInvariant.DebitFacts` | pallets/assets/src/functions.rs:551-567 | A debit takes exactly its amount from one holder and counts out a holder it removes. |
| `AssetsDebits.ReducibleIsLargest` | pallets/assets/src/functions.rs:162-246 | `reducible_balance` is exactly the largest amount `can_decrease` accepts: every amount up to it passes and every larger one fails, for all flags and freezers. |
| `AssetsDebits.DebitNeverSurprises` | pallets/assets/src/functions.rs:263-282 | `prep_debit` fails for the reasons of `reducible_balance` or because it is short, and never in the check that follows, whose failure the code calls impossible. |
| `AssetsDebits.DebitBounds` | pallets/assets/src/functions.rs:263-282 | A debit never exceeds the balance; if it takes anything it leaves nothing or at least the minimum; without best effort it is the amount, or the amount plus the dust that would be left. |
| `AssetsDebits.EmptyDebit` | pallets/assets/src/functions.rs:218-282 | For a holder below the minimum a debit takes everything, or nothing when the account is frozen or must stay alive. |
| `AssetsSteps.BurnAssertionIff` | pallets/assets/src/functions.rs:527-567 | For a successful burn of a positive amount, the debug assertion (a remainder below the minimum is nothing) holds if and only if the target is not both frozen by another pallet and below the minimum with a balance. |
| `AssetsSteps.TransferAssertion` | pallets/assets/src/functions.rs:632-687 | For a transfer the same assertion always holds. |
| `AssetsSteps.BurnOfFrozen` | pallets/assets/src/functions.rs:491-567 | Where the assertion fails the burn reports 0; the target keeps its balance if a deposit keeps it and is removed with its balance otherwise. |
| `AssetsSteps.BurnWipes` | pallets/assets/src/functions.rs:551-567 | In the second case the whole balance leaves the accounts while the supply stays. |
| `AssetsScenarios.WipingBurn` | pallets/assets/src/functions.rs:491-567 | A run from unused storage, with the minimum raised by root, after which such a burn reports 0, leaves no holder and a supply of 2. |
| `AssetsScenarios.EmptyBurn` | pallets/assets/src/functions.rs:527-567 | A run from unused storage after which, with another pallet freezing part of a balance, a burn of 1 succeeds, changes nothing and leaves a holder below the minimum. |
| `AssetsSteps.BurnKeeps` | pallets/assets/src/functions.rs:491-517 | Outside that case a burn keeps supply minus accounts minus locks. |
| `AssetsSteps.PreparedFacts` | pallets/assets/src/functions.rs:263-312 | Without best effort the prepared debit is the credit plus the dust to burn, leaves no dust behind, and the credit fits and reaches the minimum for a new holder. |
| `AssetsSteps.ClosedKeeps` | pallets/assets/src/functions.rs:351-407 | Closing an account after its deposit was taken always removes it: the branch that puts it back is dead. |
| `AssetsLeftovers.RunLocks` | pallets/assets/src/functions.rs:904-939 | Over any run while an asset is being destroyed, the locks of an account go exactly when its account goes and otherwise stay as they are, unless root removes one of them. |
| `AssetsLeftovers.DestructionLeaves` | pallets/assets/src/functions.rs:904-939 | When the holders are gone, the locks left are exactly those of receivers that had no account when the destruction began. |
| `AssetsLeftovers.CleanIff` | pallets/assets/src/functions.rs:904-999 | A complete destruction leaves nothing of the asset, whatever the final clearing of locks leaves, if and only if every receiver of a lock held an account when it began. |
| `AssetsLeftovers.ReuseIff` | pallets/assets/src/lib.rs:714-755 | After any way through a destruction, an asset created again under the id has its supply covering its locks if and only if the final clearing leaves no lock of a receiver that had no account when the destruction began. |
| `AssetsEffects.TransferMoves` | pallets/assets/src/functions.rs:604-696 | A transfer takes its debit from the source and gives its credit to the destination, nobody else is touched, both lie within the minimum balance of the amount, and the difference, which is nothing unless dust burning is asked for, leaves the supply. |
| `AssetsEffects.ParkMoves` | pallets/assets/src/functions.rs:725-824 | Transfer-and-lock records exactly one new lock under an unused id with sender, credit and due time, and debits the sender by the credit, or with dust burning by the credit and the dust. |
| `AssetsEffects.UnlockMoves` | pallets/assets/src/lib.rs:1778-1845 | A release is never early, credits exactly the lock, and removes exactly that lock. |
| `AssetsEffects.MintMoves` | pallets/assets/src/functions.rs:414-434 | A mint credits exactly the beneficiary, and the supply by the same amount without saturating. |
| `AssetsEffects.BurnMoves` | pallets/assets/src/functions.rs:491-517 | A burn takes what it reports from the target and from the supply, and at most the amount and dust. |
| `AssetsDestruction.DestructionProgress` | pallets/assets/src/functions.rs:904-939 | After k calls of `destroy_accounts` exactly max(1, limit) * k holders are gone, or all of them. |
| `AssetsRuns.RunDrains` | pallets/assets/src/functions.rs:904-975 | While an asset is being destroyed, every call of `destroy_accounts` and `destroy_approvals` in a run removes its portion for good, however they are interleaved with other calls. |
| `AssetsRuns.DestructionEnds` | pallets/assets/src/functions.rs:884-999 | After any run in which max(1, limit) times the number of each draining call reaches the number of holders and of approvals, whatever else it holds, the last stage succeeds and leaves no record, holder or approval. |
| `AssetsScenarios.ForeignLock` | pallets/assets/src/functions.rs:904-999 | A run from unused storage through a complete destruction that leaves a lock, after which the asset created anew has 4 more locked than its supply. |
| `AssetsDestruction.DestroyAccountsKeeps` | pallets/assets/src/functions.rs:904-939 | One call removes max(1, limit) holders or all, with their locks, and loses exactly what they held and had locked. |
| `AssetsDestruction.DestroyApprovalsKeeps` | pallets/assets/src/functions.rs:945-975 | One call removes max(1, limit) approvals or all, keeps the counter exact and touches nothing else. |
| `AssetsDestruction.FinishIff` | pallets/assets/src/functions.rs:980-999 | The last stage succeeds if and only if no holder and no approval is left. |
| `AssetsDestruction.FinishKeeps` | pallets/assets/src/functions.rs:980-999 | After the last stage no holder and no approval of the asset remains. |
| `AssetsMinimum.ExecMinimal` | pallets/assets/src/functions.rs:126-576 | A call keeps every holder without a deposit at the minimum or above if and only if it is not a `force_asset_status` that sets a minimum above one of them. |
| `AssetsAuthority.Outsider` | pallets/assets/src/lib.rs:802-1755 | For an account that holds no role and is named for none, leaving out every call it makes by right of a role (mint, burn, force-transfer, freeze, thaw, block, destroy, hand over, set team or minimum, cancel, touch for another) from any run, over any number of lives of the id, gives the same storage. |
| `AssetsAuthority.Dismissed` | pallets/assets/src/lib.rs:1174-1242 | After a successful `set_team`, `transfer_ownership` or `force_asset_status` every account that is not named and holds no remaining role is such an outsider. |
| `AssetsAuthority.RolesHistory` | pallets/assets/src/lib.rs:1174-1242 | When owner, issuer, admin or freezer has changed over a run, the first change was made by a successful `transfer_ownership` or `set_team` of the owner the run began with, or a `force_asset_status` of root. |
| `AssetsAuthority.OwnershipRoundTrip` | pallets/assets/src/lib.rs:1174-1202 | After a transfer of ownership the former owner is refused every owner call, and the new owner can hand the asset back, which restores storage. |
| `AssetsAuthority.StoppedCalls` | pallets/assets/src/lib.rs:1121-1135 | While an asset is frozen or being destroyed, no mint, burn, transfer, spend, lock, release, touch, approval, cancellation or change of owner or team changes anything. |
| `AssetsAuthority.FreezeThaw` | pallets/assets/src/lib.rs:1121-1161 | The freezer can freeze a live asset and the admin can thaw it, which restores storage exactly. |
| `AssetsAuthority.FrozenRun` | pallets/assets/src/lib.rs:1121-1161 | Over any run from a freeze without a thaw, forced status or start of destruction, the supply, all approvals and the balance and locks of every account stay, unless that account closes itself or root removes a lock of it. |
| `AssetsMinimum.SetMinBalanceMinimal` | pallets/assets/src/lib.rs:1640-1671 | A changed minimum balance never leaves such a holder below it. |
| `AssetsPallet.Pallet.NewAccount` | pallets/assets/src/functions.rs:67-96 | In-place form, tied to the specification function for result and whole storage: creates the reason for a new holder and counts it, in place. |
| `AssetsPallet.Pallet.DeadAccount` | pallets/assets/src/functions.rs:98-117 | In-place form, tied to the specification function for result and whole storage: counts a holder out and says whether it goes away. |
| `AssetsPallet.Pallet.Credit` | pallets/assets/src/functions.rs:460-476 | In-place form, tied to the specification function for result and whole storage: adds to or creates a holder. |
| `AssetsPallet.Pallet.Debit` | pallets/assets/src/functions.rs:551-567 | In-place form, tied to the specification function for result and whole storage: takes from a holder and removes it below the minimum. |
| `AssetsPallet.Pallet.Mint` | pallets/assets/src/functions.rs:414-482 | In-place form, tied to the specification function for result and whole storage: mints as specified, with all error cases. |
| `AssetsPallet.Pallet.Burn` | pallets/assets/src/functions.rs:491-576 | In-place form, tied to the specification function for result and whole storage: burns as specified, with all error cases. |
| `AssetsPallet.Pallet.Transfer` | pallets/assets/src/functions.rs:604-696 | In-place form, tied to the specification function for result and whole storage: transfers as specified, with all error cases. |
| `AssetsPallet.Pallet.GetNewLockId` | pallets/assets/src/functions.rs:826-841 | In-place form, tied to the specification function for result and whole storage: the search loop returns the smallest free id below 1000. |
| `AssetsPallet.Pallet.AddLock` | pallets/assets/src/functions.rs:775-803 | In-place form, tied to the specification function for result and whole storage: records a lock and the cache. |
| `AssetsPallet.Pallet.DropLock` | pallets/assets/src/lib.rs:1826-1836 | In-place form, tied to the specification function for result and whole storage: removes a lock and updates or removes the cache entry. |
| `AssetsPallet.Pallet.TransferLocked` | pallets/assets/src/functions.rs:725-824 | In-place form, tied to the specification function for result and whole storage: parks as specified, with all error cases. |
| `AssetsPallet.Pallet.TransferAndLock` | pallets/assets/src/lib.rs:1758-1774 | In-place form, tied to the specification function for result and whole storage: checks the duration before parking. |
| `AssetsPallet.Pallet.Unlock` | pallets/assets/src/lib.rs:1778-1845 | In-place form, tied to the specification function for result and whole storage: releases as specified, with all error cases. |
| `AssetsPallet.Pallet.ForceRemoveLock` | pallets/assets/src/lib.rs:1849-1882 | In-place form, tied to the specification function for result and whole storage: drops a lock without crediting anybody. |
| `AssetsPallet.Pallet.Touch` | pallets/assets/src/functions.rs:318-347 | In-place form, tied to the specification function for result and whole storage: creates a holder against a deposit. |
| `AssetsPallet.Pallet.Refund` | pallets/assets/src/functions.rs:351-376 | In-place form, tied to the specification function for result and whole storage: closes the own account. |
| `AssetsPallet.Pallet.RefundOther` | pallets/assets/src/functions.rs:379-407 | In-place form, tied to the specification function for result and whole storage: closes an account somebody else paid for. |
| `AssetsPallet.Pallet.Approve` | pallets/assets/src/functions.rs:1005-1044 | In-place form, tied to the specification function for result and whole storage: adds to or creates an approval and counts it. |
| `AssetsPallet.Pallet.CancelApproval` | pallets/assets/src/lib.rs:1490-1554 | In-place form, tied to the specification function for result and whole storage: removes an approval, by its owner or by force. |
| `AssetsPallet.Pallet.TransferApproved` | pallets/assets/src/functions.rs:1053-1096 | In-place form, tied to the specification function for result and whole storage: spends from an approval. |
| `AssetsPallet.Pallet.Create` | pallets/assets/src/lib.rs:714-755 | In-place form, tied to the specification function for result and whole storage: creates the record. |
| `AssetsPallet.Pallet.ForceCreate` | pallets/assets/src/functions.rs:851-880 | In-place form, tied to the specification function for result and whole storage: creates the record without a deposit. |
| `AssetsPallet.Pallet.DestroyAccounts` | pallets/assets/src/functions.rs:904-939 | In-place form, tied to the specification function for result and whole storage: the draining loop with its break does what the batch function says. |
| `AssetsPallet.Pallet.DestroyApprovals` | pallets/assets/src/functions.rs:945-975 | In-place form, tied to the specification function for result and whole storage: the draining loop with its break does what the batch function says. |
| `AssetsPallet.Pallet.FinishDestroy` | pallets/assets/src/functions.rs:980-999 | In-place form, tied to the specification function for result and whole storage: removes the record. |
| `AssetsPallet.Pallet.SetAccountStatus` | pallets/assets/src/lib.rs:1048-1109 | In-place form, tied to the specification function for result and whole storage: freezes, thaws or blocks a holder. |
| `AssetsPallet.Pallet.SetMinBalance` | pallets/assets/src/lib.rs:1640-1671 | In-place form, tied to the specification function for result and whole storage: changes the minimum balance. |
| `AssetsPallet.Pallet.Dispatch` | pallets/assets/src/lib.rs:714-1902 | Any call on the stored fields does what the specification says and keeps `Valid()` (counters, supply, lock cache) wherever the approval counter is not full and no id is reused over locks. |
| `ChainRuns.RunSound` | pallets/compute-pool-scheduler/src/lib.rs:335-388 | In every state reachable by any interleaving of calls, blocks and other pallets: each task list names exactly the unfinished tasks of its pool once each and is counted by the active count, escrows, rewards, statuses, proof times, owners and reputations agree, and no unfinished task or waiting proof is past its deadline. |
| `ChainRuns.FinishedByDeadline` | pallets/compute-pool-scheduler/src/lib.rs:335-388 | At any moment of any run a task past its submission time plus TaskTimeout is finished, and no proof has waited longer than VerificationTimeout. |
| `ChainCommittee.JointReserve` | pallets/committee/src/lib.rs:95-443 | Over any interleaving of scheduler, attestation and committee calls, blocks and other pallets that honour what is owed, without disputes over claimed escrows and without record-only stake increases beyond the reserve at hand: the sum of what the three pallets owe each account is in its reserve, and what exceeds it moves only by other pallets and by the exact amount of each record-only stake change, such as every slash of a committee member. |
| `ChainCommittee.CommitteeStep` | pallets/committee/src/lib.rs:360-388 | A committee call leaves scheduler and attestation storage alone and moves each account's joint surplus by nothing, or for a record-only change of stake by exactly its amount. |
| `ChainRuns.ReserveIsOwed` | pallets/compute-pool-scheduler/src/lib.rs:395-809 | From genesis, in every run without a dispute over a claimed escrow and without other pallets, each account's reserve has grown by exactly the deposits its pools still hold, its unclaimed escrows, its pool stakes and its pending attestation deposits. |
| `ChainRuns.RunBooks` | pallets/compute-pool-scheduler/src/lib.rs:689-944 | With other pallets honouring what is owed, every obligation stays backed by reserve over any such run, and every pool deposit is max(0, PoolDeposit - FailureSlash * failures) while the failure counter is below its maximum, and at most that from then on. |
| `ChainRuns.RunTask` | pallets/compute-pool-scheduler/src/lib.rs:579-913 | Over any run a task is never removed, keeps user, pool, dimensions, reward and submission time, and its record changes at most three times. |
| `ChainRuns.PaidAtMostOnce` | pallets/compute-pool-scheduler/src/lib.rs:689-723 | Over any run the reward of a task is paid at most once, and never after its escrow is spent. |
| `ChainRuns.DisputeSpends` | pallets/compute-pool-scheduler/src/lib.rs:727-776 | A successful dispute, in either direction, leaves no claimable escrow. |
| `ChainEscrows.SettleableIff` | pallets/compute-pool-scheduler/src/lib.rs:488-776 | In every reachable state, an unclaimed escrow can be paid out or paid back by some continuation if and only if the pool of its task is registered. |
| `ChainEscrows.SettlingRun` | pallets/compute-pool-scheduler/src/lib.rs:628-776 | While that pool is registered, at most two calls settle it: a dispute, a rejected proof, or a proof and its rejection. |
| `ChainRuns.StrandedForever` | pallets/compute-pool-scheduler/src/lib.rs:488-504 | An escrow of a completed, unclaimed task whose pool was deregistered stays as it is over any run. |
| `ChainRuns.DeregisterStrands` | pallets/compute-pool-scheduler/src/lib.rs:488-504 | Deregistering a pool brings the unclaimed escrows of its completed tasks into that state. |
| `ChainScenarios.DeregistrationStrands` | pallets/compute-pool-scheduler/src/lib.rs:488-504 | A run from genesis after which an escrow is stranded, and stays so over any continuation. |
| `ChainRuns.StrandedRefused` | pallets/compute-pool-scheduler/src/lib.rs:689-776 | Neither claim nor dispute of such a task can succeed. |
| `ChainRuns.FinalForever` | pallets/agent-attestation/src/lib.rs:393-526 | Over any run an attestation that has left Pending never changes again, its deposit and window never change, and no id is used twice. |
| `ChainRuns.AttestationHistory` | pallets/agent-attestation/src/lib.rs:393-473 | A challenger on record at the end of a run was recorded by one event while the attestation was pending and its window open; a confirmed one was confirmed by one event after the window, unchallenged. |
| `ChainRuns.VerdictHistory` | pallets/agent-attestation/src/lib.rs:430-526 | From genesis: Slashed or Defended presupposes a challenge made in time, Confirmed excludes one. |
| `Chain.NextSound` | pallets/compute-pool-scheduler/src/lib.rs:335-809 | Every single event keeps soundness, the timeout bound included. |
| `Chain.NextBooks` | pallets/compute-pool-scheduler/src/lib.rs:335-809 | Every single event but a dispute over a claimed escrow moves reserve and obligations of every account together, the block hook and attestation calls included; other pallets may do anything that leaves what is owed in reserve. |
| `Chain.TimelyKept` | pallets/compute-pool-scheduler/src/lib.rs:628-661 | Within a block nothing becomes overdue. |
| `SchedulerHook.OnInitializeKeeps` | pallets/compute-pool-scheduler/src/lib.rs:335-388 | The hook keeps the invariant, every result it throws away is a success, it finishes exactly the overdue tasks with the right verdict and touches no other, and leaves nothing past its deadline. |
| `SchedulerHook.ScanFacts` | pallets/compute-pool-scheduler/src/lib.rs:343-366 | The scan over the task lists visits every unfinished task exactly once, and the two batches are disjoint. |
| `SchedulerCalls.ExecKeeps` | pallets/compute-pool-scheduler/src/lib.rs:395-809 | Every dispatchable keeps the structural invariant. |
| `SchedulerCalls.ExecEvolves` | pallets/compute-pool-scheduler/src/lib.rs:395-809 | Every dispatchable moves tasks only along the state machine, creates escrows once, never revives one, and never reuses a pool or task id. |
| `SchedulerCalls.ErrorsChangeNothing` | pallets/compute-pool-scheduler/src/lib.rs:395-809 | A dispatchable that returns an error leaves storage, currency and attestations as they were. |
| `SchedulerSteps.ApproveKeeps` | pallets/compute-pool-scheduler/src/lib.rs:814-872 | Approving a submitted proof never errs, keeps the invariant, finishes exactly that task as completed and drops its proof time. |
| `SchedulerSteps.FailKeeps` | pallets/compute-pool-scheduler/src/lib.rs:890-913 | Failing an unfinished task never errs, keeps the invariant and finishes exactly that task as failed. |
| `SchedulerSteps.RejectIsFail` | pallets/compute-pool-scheduler/src/lib.rs:814-913 | A rejected proof and a missed deadline do the same thing. |
| `SchedulerSteps.VerifyShape` | pallets/compute-pool-scheduler/src/lib.rs:668-685 | A verification that succeeds is by somebody other than the pool owner, over a submitted proof, and approves or fails the task according to the verdict given. |
| `SchedulerBooks.SubmitTerms` | pallets/compute-pool-scheduler/src/lib.rs:508-621 | A successful submission goes to an eligible pool, the preferred one if given; its escrow is new, names that pool's owner and price for the work, and exactly reward plus deposit went from free to reserved for the user and nothing for anybody else. |
| `SchedulerSteps.DisputeIff` | pallets/compute-pool-scheduler/src/lib.rs:727-776 | A dispute over a known task succeeds if and only if it is the first, by the user, over a finished task, with the pool still there if it has to be slashed; the branch for a finished task without a verdict is never taken. |
| `SchedulerSteps.DisputeApprovalShape` | pallets/compute-pool-scheduler/src/lib.rs:738-752 | Disputing an approval refunds the user, lowers the reputation and slashes, and marks the task failed and disputed. |
| `SchedulerBooks.ExecBooks` | pallets/compute-pool-scheduler/src/lib.rs:395-809 | Every dispatchable but a dispute over a claimed escrow keeps every account's reserve minus obligations, all obligations backed and all deposits in closed form. |
| `SchedulerBooks.ClaimTerms` | pallets/compute-pool-scheduler/src/lib.rs:689-723 | Whatever the reserves: a claim is by the owner recorded in the escrow, for a task verified true and undisputed, pays exactly the reward fixed at submission out of the user's reserve to that owner, frees the deposit as far as the reserve goes and touches nobody else. |
| `SchedulerBooks.ClaimPays` | pallets/compute-pool-scheduler/src/lib.rs:689-723 | With all obligations backed, the user's reserve falls by exactly reward and deposit and what is not paid to the owner is free again for the user. |
| `SchedulerBooks.ClaimIff` | pallets/compute-pool-scheduler/src/lib.rs:689-723 | A claim succeeds if and only if the escrow is there and unclaimed, the task is completed, its pool exists, the caller is the recorded owner and can receive the money; the reserve never falls short. |
| `SchedulerBooks.DisputeBalancedIff` | pallets/compute-pool-scheduler/src/lib.rs:915-922 | A successful dispute keeps the books if and only if the escrow was not claimed or there is nothing to refund a second time. |
| `SchedulerBooks.DisputeSurplus` | pallets/compute-pool-scheduler/src/lib.rs:915-922 | After a claim, a dispute takes from the user's remaining reserve whatever it holds up to the escrow total, and from nobody else. |
| `SchedulerBooks.DisputeCoveredIff` | pallets/compute-pool-scheduler/src/lib.rs:915-922 | With everything backed, a dispute over a claimed escrow leaves everything backed if and only if the second refund fits into what the user has in reserve beyond what is owed. |
| `ChainScenarios.DisputeUnbacks` | pallets/compute-pool-scheduler/src/lib.rs:727-752 | A run from genesis of seven calls (register, submit, prove, verify, claim, stake, dispute) after which the user's pool stake is no longer in reserve. |
| `SchedulerLedger.FailureKeepsDeposits` | pallets/compute-pool-scheduler/src/lib.rs:924-944 | One reputation loss and one slash together keep the closed form of the deposit. |
| `SchedulerLedger.SlashBalanced` | pallets/compute-pool-scheduler/src/lib.rs:924-944 | With the deposit backed, a slash takes its full amount from reserve and record alike. |
| `SchedulerSweep.HookBooks` | pallets/compute-pool-scheduler/src/lib.rs:335-388 | The block hook keeps every account's reserve minus obligations, and all obligations backed. |
| `SchedulerSweep.HookMirrored` | pallets/compute-pool-scheduler/src/lib.rs:335-388 | The block hook keeps pool records and reputations equal. |
| `SchedulerStatistics.ExecMirrored` | pallets/compute-pool-scheduler/src/lib.rs:1066-1097 | Every dispatchable keeps each live pool's reputation and counters equal to its owner's, reputation within 0..100 and total = completed + failed below saturation. |
| `SchedulerStatistics.OutcomeMoves` | pallets/compute-pool-scheduler/src/lib.rs:1066-1097 | A success raises the reputation by one up to 100, a failure lowers it by two down to 0, and exactly one outcome counter moves. |
| `SchedulerStatistics.SuccessRateExact` | pallets/compute-pool-scheduler/src/lib.rs:1075-1078 | The success rate is floor(100 * completed / total) while completed is at most 42949672. |
| `SchedulerStatistics.FlawlessRateIff` | pallets/compute-pool-scheduler/src/lib.rs:1075-1078 | A pool whose every task succeeded is rated 100 if and only if there were at most 42949672, counters at their maximum included. |
| `ChainRatings.FlawlessBelowHundred` | pallets/compute-pool-scheduler/src/lib.rs:1066-1097 | A run from genesis of 42949673 rounds of submission, proof and approval after which the pool, with every task completed, is rated below 100. |
| `ChainStakes.RunTotals` | pallets/compute-pool-scheduler/src/lib.rs:780-809 | Over any run of the chain without a dispute over a claimed escrow, with other pallets honouring what is owed and no total leaving 128 bits, the total of every pool is the sum of its stakes. |
| `ChainStakes.NextTotals` | pallets/compute-pool-scheduler/src/lib.rs:335-809 | A single event keeps the totals exact if and only if it is not a successful stake that takes a total beyond 128 bits. |
| `SchedulerStakes.StakeTotalsIff` | pallets/compute-pool-scheduler/src/lib.rs:780-792 | Staking keeps the total of a pool equal to the sum of its stakes if and only if the total does not overflow. |
| `SchedulerStakes.UnstakeTotals` | pallets/compute-pool-scheduler/src/lib.rs:796-809 | Unstaking keeps it equal. |
| `SchedulerArithmetic.SelectionIsArgmax` | pallets/compute-pool-scheduler/src/lib.rs:969-1018 | Selection answers none exactly when no scanned pool is eligible, and otherwise an eligible one that no eligible scanned pool outscores. |
| `SchedulerArithmetic.BestIsFirst` | pallets/compute-pool-scheduler/src/lib.rs:1002-1009 | Among equal scores the first scanned pool wins. |
| `SchedulerArithmetic.PricesBracket` | pallets/compute-pool-scheduler/src/lib.rs:990-1000 | The price bounds used for scoring are attained by candidates and bracket all of them. |
| `SchedulerArithmetic.ScoreBounds` | pallets/compute-pool-scheduler/src/lib.rs:1020-1059 | No score saturates: the four weighted parts add up, to at most 10000. |
| `SchedulerArithmetic.ScoreMonotone` | pallets/compute-pool-scheduler/src/lib.rs:1020-1059 | A pool at least as good in all four criteria never scores lower. |
| `SchedulerArithmetic.PriceScoreMonotone` | pallets/compute-pool-scheduler/src/lib.rs:1029-1035 | The price score lies in 0..100 and never rises with the price. |
| `SchedulerArithmetic.RewardErrsIff` | pallets/compute-pool-scheduler/src/lib.rs:946-967 | Pricing fails if and only if price times factor, or with NVLink that times the efficiency, leaves 128 bits; the complexity product never does. |
| `SchedulerArithmetic.RewardBounds` | pallets/compute-pool-scheduler/src/lib.rs:946-967 | For admissible terms the reward is at least price times factor and at most one and a half times that. |
| `SchedulerArithmetic.RewardMonotone` | pallets/compute-pool-scheduler/src/lib.rs:946-967 | More work or a higher price never lowers the reward. |
| `SchedulerPallet.Pallet.RegisterPool` | pallets/compute-pool-scheduler/src/lib.rs:395-447 | In-place form, tied to the specification function for result, storage, currency and attestations: registers a pool, undoing everything when ids run out. |
| `SchedulerPallet.Pallet.UpdatePoolConfig` | pallets/compute-pool-scheduler/src/lib.rs:451-484 | In-place form, tied to the specification function for result, storage, currency and attestations: changes the terms of a pool. |
| `SchedulerPallet.Pallet.DeregisterPool` | pallets/compute-pool-scheduler/src/lib.rs:488-504 | In-place form, tied to the specification function for result, storage, currency and attestations: removes an idle pool and frees its deposit. |
| `SchedulerPallet.Pallet.GatherCandidates` | pallets/compute-pool-scheduler/src/lib.rs:976-987 | In-place form, tied to the specification function for result, storage, currency and attestations: the filtering loop collects exactly the eligible pools in order. |
| `SchedulerPallet.Pallet.PriceRange` | pallets/compute-pool-scheduler/src/lib.rs:990-1000 | In-place form, tied to the specification function for result, storage, currency and attestations: the min/max loop. |
| `SchedulerPallet.Pallet.PickBest` | pallets/compute-pool-scheduler/src/lib.rs:1002-1009 | In-place form, tied to the specification function for result, storage, currency and attestations: the best-so-far loop. |
| `SchedulerPallet.Pallet.SelectBestPool` | pallets/compute-pool-scheduler/src/lib.rs:969-1018 | In-place form, tied to the specification function for result, storage, currency and attestations: the three loops and the score write. |
| `SchedulerPallet.Pallet.SubmitTask` | pallets/compute-pool-scheduler/src/lib.rs:508-621 | In-place form, tied to the specification function for result, storage, currency and attestations: submits, undoing everything on a late error. |
| `SchedulerPallet.Pallet.Place` | pallets/compute-pool-scheduler/src/lib.rs:520-621 | In-place form, tied to the specification function for result, storage, currency and attestations: writes the pending task, chooses the pool and assigns. |
| `SchedulerPallet.Pallet.Choose` | pallets/compute-pool-scheduler/src/lib.rs:539-561 | In-place form, tied to the specification function for result, storage, currency and attestations: the preferred pool or the best one. |
| `SchedulerPallet.Pallet.Assign` | pallets/compute-pool-scheduler/src/lib.rs:562-577 | In-place form, tied to the specification function for result, storage, currency and attestations: prices, reserves and records. |
| `SchedulerPallet.Pallet.Record` | pallets/compute-pool-scheduler/src/lib.rs:579-621 | In-place form, tied to the specification function for result, storage, currency and attestations: takes the task through Assigned to Computing and writes index, count, escrow and next id. |
| `SchedulerPallet.Pallet.SubmitProof` | pallets/compute-pool-scheduler/src/lib.rs:628-661 | In-place form, tied to the specification function for result, storage, currency and attestations: stores a proof and its time. |
| `SchedulerPallet.Pallet.VerifyProof` | pallets/compute-pool-scheduler/src/lib.rs:668-685 | In-place form, tied to the specification function for result, storage, currency and attestations: verifies, undoing everything on a late error. |
| `SchedulerPallet.Pallet.ClaimReward` | pallets/compute-pool-scheduler/src/lib.rs:689-723 | In-place form, tied to the specification function for result, storage, currency and attestations: pays a reward, undoing everything on a late error. |
| `SchedulerPallet.Pallet.DisputeVerification` | pallets/compute-pool-scheduler/src/lib.rs:727-776 | In-place form, tied to the specification function for result, storage, currency and attestations: turns a verdict over, undoing everything on a late error. |
| `SchedulerPallet.Pallet.StakeToPool` | pallets/compute-pool-scheduler/src/lib.rs:780-792 | In-place form, tied to the specification function for result, storage, currency and attestations: adds to a stake. |
| `SchedulerPallet.Pallet.UnstakeFromPool` | pallets/compute-pool-scheduler/src/lib.rs:796-809 | In-place form, tied to the specification function for result, storage, currency and attestations: takes from a stake. |
| `SchedulerPallet.Pallet.FinalizeVerification` | pallets/compute-pool-scheduler/src/lib.rs:814-872 | In-place form, tied to the specification function for result, storage, currency and attestations: writes a verdict through the transient status, and keeps partial writes on an error. |
| `SchedulerPallet.Pallet.MarkTaskFailed` | pallets/compute-pool-scheduler/src/lib.rs:890-913 | In-place form, tied to the specification function for result, storage, currency and attestations: fails a task. |
| `SchedulerPallet.Pallet.ReleaseEscrow` | pallets/compute-pool-scheduler/src/lib.rs:915-922 | In-place form, tied to the specification function for result, storage, currency and attestations: pays an escrow back without looking at `claimed`. |
| `SchedulerPallet.Pallet.SlashPool` | pallets/compute-pool-scheduler/src/lib.rs:924-944 | In-place form, tied to the specification function for result, storage, currency and attestations: slashes a pool. |
| `SchedulerPallet.Pallet.DecrementActivity` | pallets/compute-pool-scheduler/src/lib.rs:1061-1064 | In-place form, tied to the specification function for result, storage, currency and attestations: takes a task off the index. |
| `SchedulerPallet.Pallet.UpdateReputation` | pallets/compute-pool-scheduler/src/lib.rs:1066-1097 | In-place form, tied to the specification function for result, storage, currency and attestations: updates pool and miner in place. |
| `SchedulerPallet.Pallet.ScanOverdue` | pallets/compute-pool-scheduler/src/lib.rs:343-366 | In-place form, tied to the specification function for result, storage, currency and attestations: the nested scan sorts out exactly the overdue proofs and tasks in order. |
| `SchedulerPallet.Pallet.OnInitialize` | pallets/compute-pool-scheduler/src/lib.rs:335-388 | In-place form, tied to the specification function for result, storage, currency and attestations: the two loops of the hook. |
| `SchedulerPallet.Pallet.Dispatch` | pallets/compute-pool-scheduler/src/lib.rs:395-809 | Any call on the stored fields does what the specification says, keeps `Valid` (indexes, escrows, ratings, attestations, deadlines), and keeps reserve and obligations of every account in step unless it disputes a claimed escrow. |
| `SchedulerPallet.Pallet.NextBlock` | pallets/compute-pool-scheduler/src/lib.rs:335-388 | The hook of the next block, on the stored fields, turns `Valid` at one block into `Valid` at the next and keeps all obligations backed. |
| `AttestationProofs.ExecKeeps` | pallets/agent-attestation/src/lib.rs:261-572 | Every call keeps the invariant, moves attestations only as the protocol allows, and keeps every account's reserve minus pending deposits. |
| `AttestationProofs.SubmitKeeps` | pallets/agent-attestation/src/lib.rs:321-388 | A submission keeps all that and succeeds only for a pair that had none stored. |
| `AttestationProofs.OnTaskCompletedKeeps` | pallets/agent-attestation/src/lib.rs:597-657 | The completion handler, failing midway or not, keeps all that, only adds to the table, and takes exactly one id while ids last. |
| `AttestationProofs.ResolveKeeps` | pallets/agent-attestation/src/lib.rs:478-526 | A resolution takes the whole deposit out of reserve and gives back exactly what it does not slash. |
| `AttestationProofs.ConfirmKeeps` | pallets/agent-attestation/src/lib.rs:430-473 | A confirmation happens only after the window to an unchallenged attestation, and with the deposits backed moves exactly the deposit from reserved to free for the attester. |
| `AttestationProofs.ChallengeKeeps` | pallets/agent-attestation/src/lib.rs:393-425 | A challenge is recorded only while pending, first and within the window. |
| `AttestationProofs.UpdateCapabilityKeeps` | pallets/agent-attestation/src/lib.rs:530-572 | The model index stays the exact inverse of the capability table under updates with overlapping or repeated models. |
| `AttestationProofs.ProvidersAreListers` | pallets/agent-attestation/src/lib.rs:576-583 | The query returns exactly the accounts that list the model; no path ever deactivates a node. |
| `AttestationPallet.Pallet.SubmitAttestation` | pallets/agent-attestation/src/lib.rs:321-388 | In-place form, tied to the specification function for result, storage and currency: stores an attestation, undoing everything on a late error. |
| `AttestationPallet.Pallet.ChallengeAttestation` | pallets/agent-attestation/src/lib.rs:393-425 | In-place form, tied to the specification function for result, storage and currency: records a challenger. |
| `AttestationPallet.Pallet.ConfirmAttestation` | pallets/agent-attestation/src/lib.rs:430-473 | In-place form, tied to the specification function for result, storage and currency: confirms and frees the deposit. |
| `AttestationPallet.Pallet.ResolveChallenge` | pallets/agent-attestation/src/lib.rs:478-526 | In-place form, tied to the specification function for result, storage and currency: slashes or defends. |
| `AttestationPallet.Pallet.UpdateCapability` | pallets/agent-attestation/src/lib.rs:530-572 | In-place form, tied to the specification function for result, storage and currency: the loops that remove old and insert new index entries. |
| `AttestationPallet.Pallet.OnTaskCompleted` | pallets/agent-attestation/src/lib.rs:597-657 | In-place form, tied to the specification function for result, storage and currency: keeps the id it took when it fails later. |
| `AttestationPallet.Pallet.Dispatch` | pallets/agent-attestation/src/lib.rs:261-572 | Any call on the stored fields does what the specification says, keeps `Valid()`, moves attestations only as the protocol allows and keeps every account's reserve minus pending deposits. |
| `ChainNodes.RunNodes` | pallets/agent-attestation/src/lib.rs:261-316 | Over any run of the chain a registered node stays registered with the same identifier, power, registration block and active flag, and n accepted heartbeats put the last one at least n intervals later, until the block number saturates. |
| `ChainNodes.NextNodes` | pallets/agent-attestation/src/lib.rs:261-316 | Only a registration by its own account adds a node, with the data it names and dated now; only an accepted heartbeat of its account, a full interval after the last, moves one; no other event touches the nodes. |
| `CommitteeProofs.RunLists` | pallets/committee/src/lib.rs:95-293 | In every reachable state the four lists are strictly sorted and pairwise disjoint, so each membership test by binary search is right. |
| `CommitteeProofs.RunFits` | pallets/committee/src/lib.rs:334-443 | With fixed parameters, over any run in which each change of total stake is followed at once by a successful change of the same member's stake in use, as every caller does, a member in `normal` meets baseline and free percentage at the end and one in `fulfilling_list` does not. |
| `CommitteeProofs.PairFits` | pallets/committee/src/traits.rs:26-42 | Such a pair keeps the fit of list and stake, although its first half alone may not. |
| `CommitteeScenarios.HalfPair` | pallets/committee/src/traits.rs:26-42 | A run from empty storage after which a slash goes through, the change of the stake in use after it fails, and a member is left in `normal` below the baseline. |
| `CommitteeProofs.RunBacked` | pallets/committee/src/lib.rs:360-388 | Over any run whose record-only stake increases stay within the reserve at hand, every recorded stake is in reserve, and each account's reserve minus recorded stake moves by exactly its record-only changes. |
| `CommitteeProofs.ExecLists` | pallets/committee/src/lib.rs:95-293 | Every entry point keeps lists sorted and disjoint and moves at most the account it is about. |
| `CommitteeProofs.ExecFits` | pallets/committee/src/lib.rs:116-293 | Each call but the two exceptions keeps the fit of list and stake. |
| `CommitteeProofs.ChangeTotalIff` | pallets/committee/src/traits.rs:35-42 | A change of total stake from outside keeps the fit if and only if the new stake suits the list the member is in, because the lists are not looked at. |
| `CommitteeProofs.ExecBacked` | pallets/committee/src/lib.rs:360-388 | Every call moves stake and reserve together, and a record-only change shifts the difference by exactly its amount. |
| `CommitteeProofs.ReclassifiedFacts` | pallets/committee/src/lib.rs:420-443 | Reclassification leaves a working member in the list that fits the stake and touches nobody else. |
| `CommitteeProofs.HasExact` | pallets/committee/src/types.rs:36-53 | On a sorted list binary search is membership. |
| `CommitteeProofs.SearchExact` | pallets/support/src/primitives.rs:31-40 | On a sorted list binary search returns an index that holds the element, or the slot that keeps the list sorted. |
| `CommitteeProofs.AddFacts` | pallets/support/src/primitives.rs:27-34 | Inserting at the slot found keeps a sorted list sorted and adds exactly the element, once. |
| `CommitteeProofs.RmFacts` | pallets/support/src/primitives.rs:36-43 | Removing at the index found keeps a sorted list sorted and takes out exactly the element. |
| `CommitteePallet.BinarySearch` | pallets/committee/src/types.rs:36-47 | The search loop returns the index or the slot, and so decides membership in a sorted list. |
| `CommitteePallet.Insert` | pallets/support/src/primitives.rs:27-34 | In-place form of `add_item`: on a sorted list the result is sorted and has exactly one more member. |
| `CommitteePallet.Remove` | pallets/support/src/primitives.rs:36-43 | In-place form of `rm_item`: on a sorted list the result is sorted and lacks exactly that member. |
| `CommitteePallet.Pallet.AddCommittee` | pallets/committee/src/lib.rs:95-111 | In-place form, tied to the specification function for result, storage and currency: adds a member. |
| `CommitteePallet.Pallet.SetBoxPubkey` | pallets/committee/src/lib.rs:116-155 | In-place form, tied to the specification function for result, storage and currency: stakes the baseline and moves to `normal`. |
| `CommitteePallet.Pallet.AddStake` | pallets/committee/src/lib.rs:160-182 | In-place form, tied to the specification function for result, storage and currency: adds stake. |
| `CommitteePallet.Pallet.ReduceStake` | pallets/committee/src/lib.rs:186-202 | In-place form, tied to the specification function for result, storage and currency: reduces stake. |
| `CommitteePallet.Pallet.Chill` | pallets/committee/src/lib.rs:229-248 | In-place form, tied to the specification function for result, storage and currency: moves to the chill list. |
| `CommitteePallet.Pallet.UndoChill` | pallets/committee/src/lib.rs:253-271 | In-place form, tied to the specification function for result, storage and currency: moves back and reclassifies. |
| `CommitteePallet.Pallet.ExitCommittee` | pallets/committee/src/lib.rs:276-293 | In-place form, tied to the specification function for result, storage and currency: leaves and frees the stake. |
| `CommitteePallet.Pallet.ChangeReserved` | pallets/committee/src/lib.rs:360-388 | In-place form, tied to the specification function for result, storage and currency: moves recorded stake and reserve. |
| `CommitteePallet.Pallet.ChangeUsedStake` | pallets/committee/src/lib.rs:390-417 | In-place form, tied to the specification function for result, storage and currency: changes the stake in use and reclassifies. |
| `CommitteePallet.Pallet.ChangeTotalStake` | pallets/committee/src/traits.rs:35-42 | In-place form, tied to the specification function for result, storage and currency: changes the total stake only. |
| `CommitteePallet.Pallet.Reclassify` | pallets/committee/src/lib.rs:420-443 | In-place form, tied to the specification function for result, storage and currency: moves between the working lists. |
| `CommitteePallet.Pallet.Dispatch` | pallets/committee/src/lib.rs:80-443 | Any call on the stored fields does what the specification says, keeps `Valid()` (lists sorted and disjoint) and moves no member but the one it names. |

## Left out

- Runtime wiring, node, client, RPC, weights, benchmarks, migrations, events, origins and encodings: no property of the ledgers depends on them.
- Metadata of an asset and the genesis builder of the assets pallet: easy members only.
- Native deposits of the assets pallet (asset, account, approval and metadata deposits): whether a reserve goes through is a parameter and the recorded amounts are kept, but the reserve itself is not moved; forced calls change the records without it.
- The imbalance traits and the raw balance functions of the assets pallet: they split balance and supply on purpose.
- What the final clearing of lock storage removes: it belongs to the storage library, so the survivors are a parameter and conservation is stated for one lifetime of an id.
- `schedule_compute` and `is_task_completed` of the scheduler: nothing in the repository calls them.
- The X402 settlement, task-mode and zk-compute pallets: not part of this model.
- Rewards of the committee (`claim_reward`, `add_reward`): a separate pair of counters that no list or stake depends on.
- GPU model names and the metadata strings of pools: stored and never read.
- AssetsPallet.Pallet.TransferOwnership: the repatriation of the reserved deposit is only modelled as succeeding or failing.
- AssetsPallet.Pallet.DestroyAccounts: consumer and provider references of the accounts in the system pallet are not modelled.
