# EigenLayer indexer mappings, modelled in Dafny

This project models the event handlers of an EigenLayer subgraph. Each handler takes one
on-chain event from one of six contracts: DelegationManager, RewardsCoordinator,
AllocationManager, EigenPodManager, StrategyManager and AVSDirectory. It updates the
indexer's entities (Operator, AVS, OperatorSet, Strategy, Staker, EigenPod), and it appends
immutable records keyed `"<txHash>-<logIndex>"`.

The subgraph store is one class, `EntityStore.Store`. It holds one `map` per entity kind,
the relationship-row maps (delegations, memberships, registrations) and a `records` map.
`X.load(id)` is a map lookup and `save()` is a map update. Each source file becomes one
module of handler methods. Each handler:

- requires and preserves `Store.Valid()`, which says that every key is built from its value's
  own fields and that rows and pods name stored entities;
- may change only the store fields it names in `modifies`;
- states the whole new value of each of those fields in terms of the old ones.

A handler that returns early because a required entity is missing is proved to leave the
store `unchanged`. Get-or-create helpers are pure functions, defined once, even where the
source repeats them per file. The Operator that `handleOperatorRegistered` creates inline
(`NewRegisteredOperator`) is kept apart from the AVS directory's `getOrCreateOperator`
(`GetOrCreateOperator`), because their defaults differ.

Beside the handlers, pure functions state the behaviour over runs of events, and lemmas
prove it:

- AVS registration counters clamped at zero (`AvsDirectory.CountAfter*`);
- relative against absolute pod share updates (`EigenPodManager.TotalsThenDeltas`,
  `DeltasThenTotals`);
- strategy deposit totals and a `firstDepositAt` that is never moved
  (`StrategyManager.AfterDepositsTotals`);
- the encoded `strategiesAndMultipliers` string and the summed `operatorRewards` amount
  (`Encoding`);
- injectivity of the composite ids (`Ids`).

The model follows the code as written in these places, which are easy to misread:

- Removing an operator from an OperatorSet closes no membership row, although the source's
  TODOs at src/allocation-manager.ts:360 and 426 plan to: `memberships` is not in that
  handler's `modifies`, and `Valid()` states that every row stays open.
- `Operator.delegatorCount`, `Operator.operatorSetCount`, `OperatorSet.memberCount` and
  `OperatorSet.strategyCount` are decremented without a clamp. They are `int`, and
  `DelegationManager.UndelegationsDriveCountNegative` shows a count going below 0.
- Replaying an event counts it again: `RewardsCoordinator.SubmitTimes` proves that `n`
  submissions add exactly `n`, whatever their record ids.
- `handleOperatorSetCreated` overwrites an already stored OperatorSet with a fresh one, and
  the AVS's `operatorSetCount` still goes up.

## Model

| member | source | states |
|---|---|---|
| Ids.NatToString | src/delegation-manager.ts:176 | `BigInt.toString()` of a non-negative integer is a non-empty string of decimal digits with no delimiter |
| Ids.ParseNatToString | src/delegation-manager.ts:176 | the decimal rendering reads back to the same integer |
| Ids.NatToStringInjective | src/delegation-manager.ts:176 | different integers have different renderings |
| Ids.EventIdInjective | src/delegation-manager.ts:175-177 | the record id `txHash-logIndex` determines both the transaction hash and the log index, so records of different events never share a key |
| Ids.OperatorSetIdInjective | src/rewards-coordinator.ts:267-270 | the OperatorSet id `avs-index` determines both the AVS and the index |
| Ids.RowIdDeterminesTimestamp | src/delegation-manager.ts:163-164 | a row id `a-b-timestamp` determines its timestamp and its `a-b` prefix |
| Entities.GetOrCreateStaker | src/delegation-manager.ts:694-712 | returns the stored Staker unchanged; otherwise one with no delegation, all three counters 0 and first activity at the event time |
| Entities.GetOrCreateStrategy | src/strategy-manager.ts:261-281 | returns the stored Strategy unchanged; otherwise one assumed whitelisted, with totalDeposits, totalShares and operatorCount 0, and no whitelist time or first deposit |
| Entities.GetOrCreateAvs | src/rewards-coordinator.ts:624-643 | returns the stored AVS unchanged; otherwise one with no metadata and all four counters 0 |
| Entities.GetOrCreateOperator | src/avs-directory.ts:155-182 | returns the stored Operator unchanged; otherwise a placeholder with the zero address as approver, all four counters 0 and registration block 0 |
| Entities.NewRegisteredOperator | src/delegation-manager.ts:40-61 | the Operator created at registration has the event's approver, all four counters 0, and the registration's time, block and transaction |
| Encoding.StrategyItems | src/rewards-coordinator.ts:68-74 | one `{"strategy":…,"multiplier":…}` item per input entry, in input order |
| Encoding.RewardItems | src/rewards-coordinator.ts:234-241 | one `{"operator":…,"amount":…}` item per operator reward, in input order |
| Encoding.EncodeStrategiesAndMultipliers | src/rewards-coordinator.ts:68-75 | the push loop produces exactly `"[" + items.join(",") + "]"` of the per-entry items |
| Encoding.EncodeOperatorRewards | src/rewards-coordinator.ts:233-244 | the loop produces the joined reward items and a `totalAmount` equal to the sum of all reward amounts |
| Encoding.SumAmountsAppend | src/rewards-coordinator.ts:240 | the reward total of two lists appended is the sum of their totals |
| Encoding.SumAmountsBoundsEach | src/rewards-coordinator.ts:244 | no single operator reward exceeds the recorded submission amount |
| Encoding.EncodesEmptyIffEmpty | src/rewards-coordinator.ts:75 | a strategies or rewards list is encoded as `[]` exactly when it is empty |
| Encoding.StrategiesJsonAppend | src/rewards-coordinator.ts:68-75 | appending an entry puts its object last, after a comma when the list was not empty |
| Encoding.StrategiesJsonObjectCount | src/rewards-coordinator.ts:68-75 | with strategy addresses free of `{`, the encoding holds exactly one object per entry |
| EntityStore.FirstOwnedIndex | src/eigen-pod-manager.ts:92-96 | the position of the first pod, in deployment order, whose owner is the staker, and no earlier pod is owned by it |
| EntityStore.FirstPod | src/eigen-pod-manager.ts:92-96 | `eigenPods[0]` or null: a returned pod is owned by the staker; null means no pod in the order is |
| EntityStore.OwnedPodIsFound | src/eigen-pod-manager.ts:92-96 | in a valid store, a staker that owns any pod gets a pod from the query |
| EntityStore.KnownSetHasKnownAvs | src/allocation-manager.ts:267-303 | an OperatorSet stored under `avs-index` has that AVS and index, and its AVS is stored |
| DelegationManager.Delegate | src/delegation-manager.ts:150-155 | the staker is delegated to the operator at the event time, with one more delegation change and nothing else changed |
| DelegationManager.Undelegate | src/delegation-manager.ts:221-226 | the staker's operator and delegation time are cleared, with one more delegation change and nothing else changed |
| DelegationManager.ChangeDelegators | src/delegation-manager.ts:158 | an operator's delegatorCount moves by exactly the given delta and nothing else changes |
| DelegationManager.StakerAfterRun | src/delegation-manager.ts:150-155 | over any run of delegations and undelegations the staker counts every change, and its delegation is the last step's: that operator and time, or none |
| DelegationManager.OperatorAfterRun | src/delegation-manager.ts:229 | over any run an operator's delegatorCount is its start plus delegations minus undelegations, and nothing else about it changes |
| DelegationManager.UndelegationsDriveCountNegative | src/delegation-manager.ts:302 | from 0 delegators, a run with more undelegations than delegations leaves a negative delegatorCount: there is no clamp |
| DelegationManager.HandleOperatorRegistered | src/delegation-manager.ts:34-85 | a missing Operator is created with zero counters; an existing one keeps every field but `registrationEvent`; both are linked to the new record |
| DelegationManager.HandleOperatorMetadataURIUpdated | src/delegation-manager.ts:87-125 | unknown operator: store unchanged; otherwise the URI is set and a record with the same URI is appended |
| DelegationManager.HandleStakerDelegated | src/delegation-manager.ts:131-194 | unknown operator: store unchanged; otherwise the staker points at the operator, staker delegationChangeCount and operator delegatorCount each +1, and a DELEGATED row and record are added |
| DelegationManager.UndelegateWith | src/delegation-manager.ts:196-265 | unknown staker or operator: store unchanged; otherwise the delegation is cleared, delegationChangeCount +1, delegatorCount -1 unclamped, and a row and record of the given kind are added |
| DelegationManager.HandleStakerUndelegated | src/delegation-manager.ts:196-265 | as UndelegateWith, tagged UNDELEGATED |
| DelegationManager.HandleStakerForceUndelegated | src/delegation-manager.ts:267-338 | as UndelegateWith, tagged FORCE_UNDELEGATED |
| DelegationManager.ChangeOperatorShares | src/delegation-manager.ts:344-468 | unknown operator: store unchanged, even though staker and strategy were get-or-created; otherwise the strategy's totalShares moves by the shares and a share record is added |
| DelegationManager.HandleOperatorSharesIncreased | src/delegation-manager.ts:344-405 | strategy totalShares + shares after the operator guard; INCREASED record |
| DelegationManager.HandleOperatorSharesDecreased | src/delegation-manager.ts:407-468 | strategy totalShares - shares after the operator guard; DECREASED record |
| DelegationManager.HandleOperatorSharesSlashed | src/delegation-manager.ts:470-536 | unknown operator: store unchanged; otherwise operator slashingEventCount +1, strategy totalShares - totalSlashedShares, and a DECREASED record naming the SLASHED marker as staker |
| DelegationManager.DelegatedTo | src/delegation-manager.ts:558-579 | the record's `delegatedTo` is set exactly when the address is not zero and names a stored Operator |
| DelegationManager.HandleSlashingWithdrawalQueued | src/delegation-manager.ts:542-597 | never skipped: staker get-or-created with withdrawalCount +1; QUEUED record with `delegatedTo` from DelegatedTo |
| DelegationManager.HandleSlashingWithdrawalCompleted | src/delegation-manager.ts:599-628 | only a COMPLETED record with the root, the UNKNOWN staker, no operator and empty lists |
| DelegationManager.HandleDelegationApproverUpdated | src/delegation-manager.ts:634-657 | unknown operator: store unchanged; otherwise only the approver is set |
| DelegationManager.HandleDepositScalingFactorUpdated | src/delegation-manager.ts:660-688 | only get-or-creates the strategy and the staker |
| RewardsCoordinator.SubmitTimes | src/rewards-coordinator.ts:42-45 | `n` submissions for an AVS raise its rewardsSubmissionCount by exactly `n` and leave every other AVS as it was |
| RewardsCoordinator.HandleAvsRewardsSubmissionCreated | src/rewards-coordinator.ts:33-87 | AVS get-or-created with rewardsSubmissionCount +1; AVS_REWARDS record with the encoded strategies and the submitted amount |
| RewardsCoordinator.RecordSubmissionForAll | src/rewards-coordinator.ts:89-182 | only a record with `avs` null; no AVS is created or counted |
| RewardsCoordinator.HandleRewardsSubmissionForAllCreated | src/rewards-coordinator.ts:89-133 | only a REWARDS_FOR_ALL record with `avs` null |
| RewardsCoordinator.HandleRewardsSubmissionForAllEarnersCreated | src/rewards-coordinator.ts:135-182 | only a REWARDS_FOR_ALL_EARNERS record with `avs` null |
| RewardsCoordinator.HandleOperatorDirectedAvsRewardsSubmissionCreated | src/rewards-coordinator.ts:184-255 | AVS rewardsSubmissionCount +1; the record's amount is the sum of the operator rewards and it carries both encodings and the description |
| RewardsCoordinator.HandleOperatorDirectedOperatorSetRewardsSubmissionCreated | src/rewards-coordinator.ts:258-340 | as the AVS-directed submission, and the record also holds the OperatorSet id `avs-index` |
| GraphBigInt.NewBigIntAsWritten | src/rewards-coordinator.ts:384-389 | `new BigInt(n)` allocates `n` zero bytes, so its value is 0 for every `n` |
| GraphBigInt.FromI32Value | src/rewards-coordinator.ts:44 | `BigInt.fromI32(n)` has the value `n` |
| GraphBigInt.AsWrittenRecordsZeroFor1000 | src/rewards-coordinator.ts:486-491 | a rate of 1000 bips is recorded as 0 as written, and as 1000 by `BigInt.fromI32` |
| RewardsCoordinator.HandleOperatorAvsSplitBipsSet | src/rewards-coordinator.ts:346-396 | never skipped; no Operator is created; the AVS is get-or-created; AVS_SPECIFIC record naming the operator address and the AVS, with the event's old and new rates (corrected construction, see Findings) |
| RewardsCoordinator.HandleOperatorPISplitBipsSet | src/rewards-coordinator.ts:398-441 | only a PI_SPECIFIC record with no target, with the event's old and new rates (corrected construction) |
| RewardsCoordinator.SetTargets | src/rewards-coordinator.ts:481-494 | `targetAVS` and `targetOperatorSet` are null exactly when the OperatorSet is not stored, and otherwise are its AVS and its id |
| RewardsCoordinator.HandleOperatorSetSplitBipsSet | src/rewards-coordinator.ts:443-499 | only an OPERATOR_SET_SPECIFIC record whose targets come from SetTargets, with the event's old and new rates (corrected construction) |
| RewardsCoordinator.HandleDistributionRootSubmitted | src/rewards-coordinator.ts:505-532 | a SUBMITTED record with the root and its two times |
| RewardsCoordinator.HandleDistributionRootDisabled | src/rewards-coordinator.ts:534-559 | a DISABLED record whose root and both times are null |
| RewardsCoordinator.HandleRewardsClaimed | src/rewards-coordinator.ts:561-586 | a claim record with the event's fields |
| RewardsCoordinator.HandleActivationDelaySet | src/rewards-coordinator.ts:593-603 | the store is unchanged |
| RewardsCoordinator.HandleDefaultOperatorSplitBipsSet | src/rewards-coordinator.ts:606-618 | the store is unchanged |
| AvsDirectory.StatusOf | src/avs-directory.ts:44-66 | the status is REGISTERED exactly when the on-chain status is 1, and UNREGISTERED otherwise |
| AvsDirectory.CountAfterBounds | src/avs-directory.ts:44-66 | after any run of status updates a counter lies between start + registrations - unregistrations and start + registrations, and it is never negative |
| AvsDirectory.CountAfterUnclamped | src/avs-directory.ts:55-66 | when no unregistration meets a zero counter, the counter is exactly start + registrations - unregistrations |
| AvsDirectory.ApplyStatus | src/avs-directory.ts:44-66 | a counter grows exactly when the status is 1 (by one); otherwise it drops by one, or stays at 0 |
| AvsDirectory.CountAfterAppend | src/avs-directory.ts:44-66 | a counter after two runs of updates is the counter after their concatenation |
| AvsDirectory.CountAfterRepeat | src/avs-directory.ts:44-66 | `k` registrations add `k`; `k` unregistrations subtract `k` but stop at 0 |
| AvsDirectory.RegisterThenUnregisterRun | src/avs-directory.ts:55-66 | `k` registrations then `k` unregistrations restore any counter; unregistrations alone keep a zero counter at 0 |
| AvsDirectory.HandleOperatorAvsRegistrationStatusUpdated | src/avs-directory.ts:24-110 | never skipped: Operator and AVS get-or-created, both counters +1 on status 1 and otherwise -1 only above 0; a record and an `operator-avs-timestamp` row with the same status |
| AvsDirectory.HandleAvsMetadataURIUpdated | src/avs-directory.ts:116-149 | AVS get-or-created with the event's URI; a metadata record with the same URI |
| AllocationManager.NewOperatorSet | src/allocation-manager.ts:270-285 | a new OperatorSet has the event's AVS and index, no recipient, all four counters 0, and a link to its creation record |
| AllocationManager.ChangeMembers | src/allocation-manager.ts:347 | an OperatorSet's memberCount moves by exactly the given delta and nothing else changes |
| AllocationManager.ChangeSets | src/allocation-manager.ts:343 | an operator's operatorSetCount moves by exactly the given delta and nothing else changes |
| AllocationManager.MembershipRunCounts | src/allocation-manager.ts:417-423 | over any run of additions and removals, operatorSetCount and memberCount are both start + additions - removals, and nothing else about either changes |
| AllocationManager.StrategyRunCounts | src/allocation-manager.ts:472-521 | over any run of strategy additions and removals, strategyCount is start + additions - removals and nothing else changes |
| AllocationManager.HandleOperatorSlashed | src/allocation-manager.ts:38-121 | any of Operator, OperatorSet, AVS missing: store unchanged; otherwise each of the three slashingEventCounts +1 and a slashing record is added |
| AllocationManager.HandleAllocationUpdated | src/allocation-manager.ts:127-191 | Operator or OperatorSet missing: store unchanged; otherwise allocationCount +1, strategy get-or-created, and a record with magnitude and effectBlock as given |
| AllocationManager.HandleAllocationDelaySet | src/allocation-manager.ts:194-206 | the store is unchanged |
| AllocationManager.HandleEncumberedMagnitudeUpdated | src/allocation-manager.ts:209-231 | only get-or-creates the strategy |
| AllocationManager.HandleMaxMagnitudeUpdated | src/allocation-manager.ts:234-254 | only get-or-creates the strategy |
| AllocationManager.HandleOperatorSetCreated | src/allocation-manager.ts:260-313 | AVS get-or-created with operatorSetCount +1; a fresh OperatorSet under `avs-index`, replacing any stored one; a creation record |
| AllocationManager.HandleOperatorAddedToOperatorSet | src/allocation-manager.ts:315-384 | Operator or OperatorSet missing: store unchanged; otherwise operatorSetCount and memberCount +1, an open `operator-set-timestamp` membership row, and a record |
| AllocationManager.HandleOperatorRemovedFromOperatorSet | src/allocation-manager.ts:386-447 | Operator or OperatorSet missing: store unchanged; otherwise both counters -1 unclamped and a record; no membership row changes |
| AllocationManager.ChangeSetStrategies | src/allocation-manager.ts:453-545 | strategyCount moves by ±1 only when the OperatorSet is stored; the strategy is get-or-created and the record is added either way |
| AllocationManager.HandleStrategyAddedToOperatorSet | src/allocation-manager.ts:453-498 | strategyCount +1 when the set is stored; ADDED record either way |
| AllocationManager.HandleStrategyRemovedFromOperatorSet | src/allocation-manager.ts:500-545 | strategyCount -1 when the set is stored; REMOVED record either way |
| AllocationManager.HandleAvsMetadataURIUpdated | src/allocation-manager.ts:551-579 | the same update as the AVS directory's metadata handler |
| AllocationManager.HandleRedistributionAddressSet | src/allocation-manager.ts:585-603 | sets the recipient only when the OperatorSet is stored; otherwise store unchanged |
| AllocationManager.HandleAvsRegistrarSet | src/allocation-manager.ts:606-616 | only get-or-creates the AVS |
| EigenPodManager.NewPod | src/eigen-pod-manager.ts:37-48 | a deployed pod is owned by the staker, with totalShares, depositCount and withdrawalCount 0 |
| EigenPodManager.FirstOwnedIndexAfterDeploy | src/eigen-pod-manager.ts:92-96 | a newly deployed pod goes last in the lookup order, so only owners that had no pod can find it |
| EigenPodManager.FirstDeploymentDecidesPod | src/eigen-pod-manager.ts:37-48 | a first deployment never changes the pod of a staker that already has one, credits the new pod to an owner that had none, and gives no pod to anyone else |
| EigenPodManager.RunningTotals | src/eigen-pod-manager.ts:164-176 | each recorded total is the previous total plus that event's delta, the first one the start plus the first delta |
| EigenPodManager.DeltasFromTotals | src/eigen-pod-manager.ts:222-226 | each recorded delta is that event's total minus the previous total, the first one minus the start |
| EigenPodManager.TotalsThenDeltas | src/eigen-pod-manager.ts:164-176 | a run of PodSharesUpdated deltas, reported instead as absolute totals, yields the same deltas back in NewTotalShares records |
| EigenPodManager.DeltasThenTotals | src/eigen-pod-manager.ts:222-246 | a run of NewTotalShares totals, reported instead as deltas, yields the same totals back |
| EigenPodManager.LastRunningTotal | src/eigen-pod-manager.ts:164-176 | after a run of deltas a pod holds its start plus their sum |
| EigenPodManager.HandlePodDeployed | src/eigen-pod-manager.ts:27-74 | owner get-or-created; a fresh pod written under its address; a first deployment goes last in deployment order; a deployment record |
| EigenPodManager.HandleBeaconChainETHDeposited | src/eigen-pod-manager.ts:80-130 | depositCount +1 only when the staker has a pod; the record names that pod or null |
| EigenPodManager.HandlePodSharesUpdated | src/eigen-pod-manager.ts:136-203 | pod totalShares + sharesDelta; the record's newTotalShares is that new total, or null with no pod |
| EigenPodManager.HandleNewTotalShares | src/eigen-pod-manager.ts:205-284 | the recorded delta is new total minus old total (0 with no pod), taken before totalShares is overwritten with the new total |
| EigenPodManager.HandleBeaconChainETHWithdrawalCompleted | src/eigen-pod-manager.ts:290-345 | staker withdrawalCount always +1; pod withdrawalCount +1 only when a pod exists; a withdrawal record |
| EigenPodManager.HandleBeaconChainSlashingFactorDecreased | src/eigen-pod-manager.ts:351-389 | only the staker get-or-create and a slashing record |
| EigenPodManager.HandleBurnableETHSharesIncreased | src/eigen-pod-manager.ts:395-409 | the store is unchanged |
| StrategyManager.Deposited | src/strategy-manager.ts:41-48 | one deposit: totalDeposits +1, totalShares + shares, firstDepositAt kept when set and otherwise the deposit time, nothing else changed |
| StrategyManager.AfterDepositsTotals | src/strategy-manager.ts:41-48 | over any run of deposits, totalDeposits counts them, totalShares adds them up, and firstDepositAt is the first deposit's time and is never moved once set |
| StrategyManager.Whitelisted | src/strategy-manager.ts:89-91 | whitelisted, with whitelistedAt the event time; no other field changes |
| StrategyManager.Delisted | src/strategy-manager.ts:133-134 | not whitelisted, with whitelistedAt null; no other field changes |
| StrategyManager.WhitelistCommutesWithDeposits | src/strategy-manager.ts:41-48 | whitelisting or delisting before any run of deposits gives the same strategy as doing it after |
| StrategyManager.HandleDeposit | src/strategy-manager.ts:23-69 | staker and strategy get-or-created; totalDeposits +1, totalShares + shares, firstDepositAt set only when unset; a deposit record |
| StrategyManager.HandleStrategyAddedToDepositWhitelist | src/strategy-manager.ts:75-110 | strategy get-or-created and whitelisted at the event time; ADDED record |
| StrategyManager.HandleStrategyRemovedFromDepositWhitelist | src/strategy-manager.ts:112-154 | a missing strategy is created rather than skipped; it is delisted; REMOVED record |
| StrategyManager.TouchStrategy | src/strategy-manager.ts:174-179 | only the strategy get-or-create; a stored strategy is left as it was |
| StrategyManager.HandleBurnOrRedistributableSharesIncreased | src/strategy-manager.ts:161-186 | only the strategy get-or-create |
| StrategyManager.HandleBurnOrRedistributableSharesDecreased | src/strategy-manager.ts:189-213 | only the strategy get-or-create |
| StrategyManager.HandleBurnableSharesDecreased | src/strategy-manager.ts:215-235 | only the strategy get-or-create |

## Findings

| source | as written | input that shows it | evidently intended | confidence | as-written member | corrected member |
|---|---|---|---|---|---|---|
| src/rewards-coordinator.ts:384-389 (also 429-434, 486-491) | `new BigInt(event.params.…SplitBips)` calls the graph-ts BigInt byte-array constructor, which allocates that many zero bytes, so both commission rates are recorded as 0 | an OperatorAVSSplitBipsSet event with newOperatorAVSSplitBips = 1000 records newCommissionBips = 0 | `BigInt.fromI32(…SplitBips)`, recording the rate itself, as the rest of the file builds its BigInts | not executed; rests on graph-ts `BigInt` being a `Uint8Array` subclass | GraphBigInt.NewBigIntAsWritten, GraphBigInt.AsWrittenRecordsZeroFor1000 | GraphBigInt.FromI32Value |

The three split-bips handlers build their rates with `GraphBigInt.FromI32Value`, so their
records hold the event's rates.

## Left out

- Logging (`log.info`, `log.warning`, `log.critical`) has no effect on state and is not modelled.
- `lastActivityAt` and `updatedAt` are timestamp-only bookkeeping and are not represented. So
  handlers that only touch them (for example `handleAllocationDelaySet`) change nothing that
  is modelled, and the burn/redistribution handlers only get-or-create.
- Addresses, hashes and `Bytes` are their hex strings, and an entity's id is its address, so
  the schema's separate `address` fields are implied by the key. `toHexString` itself
  (lower-case hex rendering) is not modelled.
- BigInt and event integer widths are Dafny `int`/`nat`. Amounts, shares, indexes and timestamps
  are `nat`. The pod share values that can be negative are `int`: `sharesDelta` and
  `newTotalShares`. Overflow cannot occur in the source's BigInt arithmetic, so none is
  modelled. A BigInt is modelled as a byte sequence only where the construction matters
  (`GraphBigInt`, see Findings).
- The graph-ts runtime, the generated event and schema classes, and store internals are
  replaced by the maps of `EntityStore.Store`.
- `staker.eigenPods.load()` is a derived query whose order the code does not control. It is
  modelled as the first pod whose owner is the staker, in the order pods were first deployed
  (`EntityStore.FirstPod`).
- Reorgs, replay by the indexing node, transport ordering and concurrency are external to
  the handlers. Events are applied one at a time.
- Event parameters that a handler only logs are left out of its signature (for example
  `delay`, `registrar`, and the `shares` of the burn notices). `HandleAllocationDelaySet`
  keeps `operator`, which the source uses to load the operator whose timestamps it updates.
- Records are stored by id in one `records` map, with one `RecordData` variant per record
  entity type.
- EigenPodManager.HandlePodDeployed: redeploying a pod address with a different owner keeps
  the pod's old position in the deployment order. The lemmas about which pod an owner is
  credited with cover only first deployments.
- GraphBigInt.FromI32Value: covers only non-negative values, since the split rates are `uint16`
  on chain. It states the value and not the exact bytes graph-ts lays out.
