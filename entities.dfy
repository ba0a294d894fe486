/**
 * The indexer's schema: the mutable entities (Operator, AVS, OperatorSet, Strategy, Staker,
 * EigenPod), the relationship rows, and the immutable event records, together with the
 * get-or-create helpers that every handler uses to load an entity or zero-initialise it.
 *
 * Every entity is keyed by a string id; an address is represented by its hex rendering, which
 * is also the id of the entity it names, so the schema's separate `address` fields are implied
 * by the key. Timestamp-only bookkeeping (`lastActivityAt`, `updatedAt`) is not represented.
 */
module Entities {
  import opened Wrappers
  import opened Ids

  /** The block/transaction position every event carries. */
  datatype EventMeta = EventMeta(
    txHash: string,
    logIndex: nat,
    blockNumber: nat,
    blockTimestamp: nat,
    contractAddress: string)

  /** `event.transaction.hash.toHexString() + "-" + event.logIndex.toString()`. */
  function RecordId(ev: EventMeta): string {
    EventId(ev.txHash, ev.logIndex)
  }

  // ---------------------------------------------------------------------------------------
  // Tags stored as strings by the source
  // ---------------------------------------------------------------------------------------

  datatype DelegationType = Delegated | Undelegated | ForceUndelegated {
    function Name(): string {
      match this
      case Delegated => "DELEGATED"
      case Undelegated => "UNDELEGATED"
      case ForceUndelegated => "FORCE_UNDELEGATED"
    }
  }

  datatype ShareEventType = Increased | Decreased {
    function Name(): string {
      match this
      case Increased => "INCREASED"
      case Decreased => "DECREASED"
    }
  }

  datatype WithdrawalType = Queued | Completed {
    function Name(): string {
      match this
      case Queued => "QUEUED"
      case Completed => "COMPLETED"
    }
  }

  datatype SubmissionType =
    | AvsRewards
    | RewardsForAll
    | RewardsForAllEarners
    | OperatorDirectedAvs
    | OperatorDirectedOperatorSet
  {
    function Name(): string {
      match this
      case AvsRewards => "AVS_REWARDS"
      case RewardsForAll => "REWARDS_FOR_ALL"
      case RewardsForAllEarners => "REWARDS_FOR_ALL_EARNERS"
      case OperatorDirectedAvs => "OPERATOR_DIRECTED_AVS"
      case OperatorDirectedOperatorSet => "OPERATOR_DIRECTED_OPERATOR_SET"
    }
  }

  datatype CommissionType = AvsSpecific | PiSpecific | OperatorSetSpecific {
    function Name(): string {
      match this
      case AvsSpecific => "AVS_SPECIFIC"
      case PiSpecific => "PI_SPECIFIC"
      case OperatorSetSpecific => "OPERATOR_SET_SPECIFIC"
    }
  }

  datatype RootEventType = Submitted | Disabled {
    function Name(): string {
      match this
      case Submitted => "SUBMITTED"
      case Disabled => "DISABLED"
    }
  }

  /** The ADDED / REMOVED tag of strategy-to-set and whitelist records. */
  datatype ListChange = Added | Removed {
    function Name(): string {
      match this
      case Added => "ADDED"
      case Removed => "REMOVED"
    }
  }

  datatype PodSharesUpdateType = SharesUpdated | NewTotalShares {
    function Name(): string {
      match this
      case SharesUpdated => "SHARES_UPDATED"
      case NewTotalShares => "NEW_TOTAL_SHARES"
    }
  }

  datatype RegistrationStatus = Registered | Unregistered {
    function Name(): string {
      match this
      case Registered => "REGISTERED"
      case Unregistered => "UNREGISTERED"
    }
  }

  // ---------------------------------------------------------------------------------------
  // Mutable entities
  // ---------------------------------------------------------------------------------------

  /**
   * Counters that the source only increments, or decrements behind a `> 0` guard, are `nat`;
   * counters it decrements without a guard are `int`.
   */
  datatype Operator = Operator(
    delegationApprover: string,
    metadataURI: Option<string>,
    delegatorCount: int,
    avsRegistrationCount: nat,
    operatorSetCount: int,
    slashingEventCount: nat,
    registeredAt: nat,
    registeredAtBlock: nat,
    registeredAtTransaction: string,
    registrationEvent: Option<string>)

  datatype Avs = Avs(
    metadataURI: Option<string>,
    operatorSetCount: nat,
    totalOperatorRegistrations: nat,
    rewardsSubmissionCount: nat,
    slashingEventCount: nat,
    createdAt: nat)

  datatype OperatorSet = OperatorSet(
    avs: string,
    operatorSetIndex: nat,
    redistributionRecipient: Option<string>,
    memberCount: int,
    strategyCount: int,
    allocationCount: nat,
    slashingEventCount: nat,
    createdAt: nat,
    creationEvent: string)

  datatype Strategy = Strategy(
    totalDeposits: nat,
    totalShares: int,
    operatorCount: nat,
    isWhitelisted: bool,
    whitelistedAt: Option<nat>,
    firstDepositAt: Option<nat>)

  datatype Staker = Staker(
    delegatedOperator: Option<string>,
    delegatedAt: Option<nat>,
    totalStrategies: nat,
    delegationChangeCount: nat,
    withdrawalCount: nat,
    firstActivityAt: nat)

  datatype EigenPod = EigenPod(
    owner: string,
    totalShares: int,
    depositCount: nat,
    withdrawalCount: nat,
    deployedAt: nat,
    deploymentEvent: string)

  // ---------------------------------------------------------------------------------------
  // Relationship rows (keyed by RowId)
  // ---------------------------------------------------------------------------------------

  datatype StakerDelegation = StakerDelegation(
    staker: string,
    operator: string,
    delegationType: DelegationType,
    txHash: string,
    blockNumber: nat,
    blockTimestamp: nat,
    logIndex: nat)

  datatype OperatorSetMembership = OperatorSetMembership(
    operator: string,
    operatorSet: string,
    joinedAt: nat,
    joinedAtBlock: nat,
    leftAt: Option<nat>,
    leftAtBlock: Option<nat>,
    joinEvent: string)

  datatype OperatorAvsRegistration = OperatorAvsRegistration(
    operator: string,
    avs: string,
    status: RegistrationStatus,
    event: string,
    txHash: string,
    blockNumber: nat,
    blockTimestamp: nat)

  // ---------------------------------------------------------------------------------------
  // Immutable event records (keyed by RecordId)
  // ---------------------------------------------------------------------------------------

  /** One constructor per record entity type, carrying the fields the handler sets. */
  datatype RecordData =
    | OperatorRegisteredRecord(operator: string, delegationApprover: string)
    | OperatorMetadataUpdateRecord(operator: string, metadataURI: string)
    | StakerDelegationEventRecord(staker: string, operator: string, delegationType: DelegationType)
    | OperatorShareEventRecord(operator: string, staker: string, strategy: string, shares: int,
                               shareEventType: ShareEventType)
    | WithdrawalEventRecord(withdrawalRoot: string, staker: string, delegatedTo: Option<string>,
                            withdrawer: string, nonce: int, startBlock: int,
                            strategies: seq<string>, sharesToWithdraw: seq<int>,
                            withdrawalType: WithdrawalType)
    | RewardsSubmissionRecord(submissionAvs: Option<string>, submitter: string,
                              submissionNonce: int, rewardsSubmissionHash: string,
                              submissionType: SubmissionType, strategiesAndMultipliers: string,
                              token: string, amount: int, startTimestamp: int, duration: int,
                              operatorRewards: Option<string>, description: Option<string>,
                              operatorSetId: Option<string>)
    | OperatorCommissionEventRecord(operator: string, caller: string,
                                    commissionType: CommissionType, activatedAt: int,
                                    oldCommissionBips: int, newCommissionBips: int,
                                    targetAVS: Option<string>, targetOperatorSet: Option<string>)
    | DistributionRootEventRecord(rootIndex: int, root: Option<string>,
                                  rewardsCalculationEndTimestamp: Option<int>,
                                  rootActivatedAt: Option<int>, rootEventType: RootEventType)
    | RewardsClaimedRecord(claimRoot: string, earner: string, claimer: string,
                           recipient: string, token: string, claimedAmount: int)
    | OperatorSlashedRecord(operator: string, operatorSet: string, strategies: seq<string>,
                            wadSlashed: seq<int>, slashDescription: string)
    | AllocationEventRecord(operator: string, operatorSet: string, strategy: string,
                            magnitude: int, effectBlock: int)
    | OperatorSetCreatedRecord(operatorSet: string, avs: string, operatorSetIndex: nat)
    | OperatorAddedToOperatorSetRecord(operator: string, operatorSet: string)
    | OperatorRemovedFromOperatorSetRecord(operator: string, operatorSet: string)
    | AvsMetadataUpdateRecord(avs: string, metadataURI: string)
    | StrategyOperatorSetEventRecord(operatorSet: string, strategy: string,
                                     strategyChange: ListChange)
    | PodDeployedRecord(deployedPod: string, owner: string)
    | BeaconChainDepositRecord(pod: Option<string>, podOwner: string, amount: int)
    | PodSharesUpdateRecord(pod: Option<string>, podOwner: string, sharesDelta: int,
                            newTotalShares: Option<int>, updateType: PodSharesUpdateType)
    | BeaconChainWithdrawalRecord(pod: Option<string>, podOwner: string, shares: int,
                                  nonce: int, delegatedAddress: string, withdrawer: string,
                                  withdrawalRoot: string)
    | BeaconChainSlashingEventRecord(staker: string, prevBeaconChainSlashingFactor: int,
                                     newBeaconChainSlashingFactor: int)
    | DepositRecord(staker: string, strategy: string, shares: int)
    | StrategyWhitelistEventRecord(strategy: string, whitelistChange: ListChange)
    | OperatorAvsRegistrationStatusRecord(operator: string, avs: string,
                                          status: RegistrationStatus)

  /** An appended record: the event position it came from and its payload. */
  datatype Record = Record(meta: EventMeta, data: RecordData)

  // ---------------------------------------------------------------------------------------
  // Get-or-create helpers (one definition each; the source repeats them per file)
  // ---------------------------------------------------------------------------------------

  /** getOrCreateStaker: the stored Staker, or one with no delegation and zero counters. */
  function GetOrCreateStaker(stakers: map<string, Staker>, id: string, timestamp: nat): (s: Staker)
    ensures id in stakers ==> s == stakers[id]
    ensures id !in stakers ==>
      && s.delegatedOperator == None && s.delegatedAt == None
      && s.totalStrategies == 0 && s.delegationChangeCount == 0 && s.withdrawalCount == 0
      && s.firstActivityAt == timestamp
  {
    if id in stakers then stakers[id] else Staker(None, None, 0, 0, 0, timestamp)
  }

  /**
   * getOrCreateStrategy: the stored Strategy, or one with zero counters that is assumed
   * whitelisted, with no whitelist time and no first deposit.
   */
  function GetOrCreateStrategy(strategies: map<string, Strategy>, id: string): (s: Strategy)
    ensures id in strategies ==> s == strategies[id]
    ensures id !in strategies ==>
      && s.totalDeposits == 0 && s.totalShares == 0 && s.operatorCount == 0
      && s.isWhitelisted && s.whitelistedAt == None && s.firstDepositAt == None
  {
    if id in strategies then strategies[id] else Strategy(0, 0, 0, true, None, None)
  }

  /** getOrCreateAVS: the stored AVS, or one with zero counters and no metadata. */
  function GetOrCreateAvs(avss: map<string, Avs>, id: string, timestamp: nat): (a: Avs)
    ensures id in avss ==> a == avss[id]
    ensures id !in avss ==>
      && a.metadataURI == None
      && a.operatorSetCount == 0 && a.totalOperatorRegistrations == 0
      && a.rewardsSubmissionCount == 0 && a.slashingEventCount == 0
      && a.createdAt == timestamp
  {
    if id in avss then avss[id] else Avs(None, 0, 0, 0, 0, timestamp)
  }

  /**
   * getOrCreateOperator (AVS directory): the stored Operator, or a placeholder with the zero
   * address as approver, zero counters, block 0, an empty transaction and no registration.
   */
  function GetOrCreateOperator(operators: map<string, Operator>, id: string, timestamp: nat): (o: Operator)
    ensures id in operators ==> o == operators[id]
    ensures id !in operators ==>
      && o.delegationApprover == ZeroAddress && o.metadataURI == None
      && o.delegatorCount == 0 && o.avsRegistrationCount == 0
      && o.operatorSetCount == 0 && o.slashingEventCount == 0
      && o.registeredAt == timestamp && o.registeredAtBlock == 0
      && o.registeredAtTransaction == [] && o.registrationEvent == None
  {
    if id in operators then operators[id]
    else Operator(ZeroAddress, None, 0, 0, 0, 0, timestamp, 0, [], None)
  }

  /**
   * The Operator that `handleOperatorRegistered` creates inline when none is stored: the
   * event's approver, zero counters, and the registration's time, block and transaction.
   */
  function NewRegisteredOperator(approver: string, ev: EventMeta): (o: Operator)
    ensures o.delegationApprover == approver && o.metadataURI == None
    ensures o.delegatorCount == 0 && o.avsRegistrationCount == 0
    ensures o.operatorSetCount == 0 && o.slashingEventCount == 0
    ensures o.registeredAt == ev.blockTimestamp && o.registeredAtBlock == ev.blockNumber
    ensures o.registeredAtTransaction == ev.txHash
  {
    Operator(approver, None, 0, 0, 0, 0, ev.blockTimestamp, ev.blockNumber, ev.txHash, None)
  }
}
