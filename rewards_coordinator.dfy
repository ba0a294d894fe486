/**
 * The RewardsCoordinator mappings: the five rewards-submission handlers, the three
 * commission (split-bips) handlers, distribution roots, claims, and two configuration
 * events that change nothing.
 */
module RewardsCoordinator {
  import opened Wrappers
  import opened Ids
  import opened Entities
  import opened EntityStore
  import opened Encoding
  import opened GraphBigInt

  /** The AVS after one more rewards submission, get-or-created first. */
  function CountSubmission(avss: map<string, Avs>, avs: string, timestamp: nat): Avs {
    var a := GetOrCreateAvs(avss, avs, timestamp);
    a.(rewardsSubmissionCount := a.rewardsSubmissionCount + 1)
  }

  /**
   * Submitting rewards `n` times for an AVS leaves its `rewardsSubmissionCount` exactly `n`
   * above where it started (zero for a new AVS).
   */
  function SubmitTimes(avss: map<string, Avs>, avs: string, timestamp: nat, n: nat): (r: map<string, Avs>)
    ensures avs in r
    ensures r[avs].rewardsSubmissionCount == GetOrCreateAvs(avss, avs, timestamp).rewardsSubmissionCount + n
    ensures forall id :: id in avss && id != avs ==> id in r && r[id] == avss[id]
    ensures r.Keys == avss.Keys + {avs}
  {
    if n == 0 then avss[avs := GetOrCreateAvs(avss, avs, timestamp)]
    else
      var prev := SubmitTimes(avss, avs, timestamp, n - 1);
      prev[avs := CountSubmission(prev, avs, timestamp)]
  }

  // ---------------------------------------------------------------------------------------
  // Rewards submissions
  // ---------------------------------------------------------------------------------------

  /**
   * handleAVSRewardsSubmissionCreated: the AVS is get-or-created and its submission count
   * goes up by one; the record names the AVS as both `avs` and `submitter` and carries the
   * encoded strategies and the submitted amount.
   */
  method HandleAvsRewardsSubmissionCreated(
    store: Store, ev: EventMeta, avs: string, submissionNonce: nat, rewardsSubmissionHash: string,
    strategiesAndMultipliers: seq<StrategyAndMultiplier>, token: string, amount: nat,
    startTimestamp: nat, duration: nat)
    requires store.Valid()
    modifies store`avss, store`records
    ensures store.Valid()
    ensures store.avss == old(store.avss)[avs := CountSubmission(old(store.avss), avs, ev.blockTimestamp)]
    ensures store.records == old(store.records)[RecordId(ev) :=
      Record(ev, RewardsSubmissionRecord(Some(avs), avs, submissionNonce, rewardsSubmissionHash, AvsRewards,
                                         StrategiesJson(strategiesAndMultipliers), token, amount,
                                         startTimestamp, duration, None, None, None))]
  {
    var a := GetOrCreateAvs(store.avss, avs, ev.blockTimestamp);
    a := a.(rewardsSubmissionCount := a.rewardsSubmissionCount + 1);
    var strategiesJson := EncodeStrategiesAndMultipliers(strategiesAndMultipliers);
    store.avss := store.avss[avs := a];
    store.records := store.records[RecordId(ev) :=
      Record(ev, RewardsSubmissionRecord(Some(avs), avs, submissionNonce, rewardsSubmissionHash, AvsRewards,
                                         strategiesJson, token, amount, startTimestamp, duration,
                                         None, None, None))];
  }

  /**
   * The shared body of the two "for all" handlers: only a record with no AVS, tagged with
   * `kind`, is appended; no AVS is created or counted.
   */
  method RecordSubmissionForAll(
    store: Store, ev: EventMeta, submitter: string, submissionNonce: nat, rewardsSubmissionHash: string,
    kind: SubmissionType, strategiesAndMultipliers: seq<StrategyAndMultiplier>, token: string, amount: nat,
    startTimestamp: nat, duration: nat)
    requires store.Valid()
    modifies store`records
    ensures store.Valid()
    ensures store.records == old(store.records)[RecordId(ev) :=
      Record(ev, RewardsSubmissionRecord(None, submitter, submissionNonce, rewardsSubmissionHash, kind,
                                         StrategiesJson(strategiesAndMultipliers), token, amount,
                                         startTimestamp, duration, None, None, None))]
  {
    var strategiesJson := EncodeStrategiesAndMultipliers(strategiesAndMultipliers);
    store.records := store.records[RecordId(ev) :=
      Record(ev, RewardsSubmissionRecord(None, submitter, submissionNonce, rewardsSubmissionHash, kind,
                                         strategiesJson, token, amount, startTimestamp, duration,
                                         None, None, None))];
  }

  /** handleRewardsSubmissionForAllCreated: a REWARDS_FOR_ALL record with `avs` null. */
  method HandleRewardsSubmissionForAllCreated(
    store: Store, ev: EventMeta, submitter: string, submissionNonce: nat, rewardsSubmissionHash: string,
    strategiesAndMultipliers: seq<StrategyAndMultiplier>, token: string, amount: nat,
    startTimestamp: nat, duration: nat)
    requires store.Valid()
    modifies store`records
    ensures store.Valid()
    ensures store.records == old(store.records)[RecordId(ev) :=
      Record(ev, RewardsSubmissionRecord(None, submitter, submissionNonce, rewardsSubmissionHash, RewardsForAll,
                                         StrategiesJson(strategiesAndMultipliers), token, amount,
                                         startTimestamp, duration, None, None, None))]
  {
    RecordSubmissionForAll(store, ev, submitter, submissionNonce, rewardsSubmissionHash, RewardsForAll,
                           strategiesAndMultipliers, token, amount, startTimestamp, duration);
  }

  /** handleRewardsSubmissionForAllEarnersCreated: a REWARDS_FOR_ALL_EARNERS record, `avs` null. */
  method HandleRewardsSubmissionForAllEarnersCreated(
    store: Store, ev: EventMeta, tokenHopper: string, submissionNonce: nat, rewardsSubmissionHash: string,
    strategiesAndMultipliers: seq<StrategyAndMultiplier>, token: string, amount: nat,
    startTimestamp: nat, duration: nat)
    requires store.Valid()
    modifies store`records
    ensures store.Valid()
    ensures store.records == old(store.records)[RecordId(ev) :=
      Record(ev, RewardsSubmissionRecord(None, tokenHopper, submissionNonce, rewardsSubmissionHash,
                                         RewardsForAllEarners, StrategiesJson(strategiesAndMultipliers),
                                         token, amount, startTimestamp, duration, None, None, None))]
  {
    RecordSubmissionForAll(store, ev, tokenHopper, submissionNonce, rewardsSubmissionHash, RewardsForAllEarners,
                           strategiesAndMultipliers, token, amount, startTimestamp, duration);
  }

  /**
   * handleOperatorDirectedAVSRewardsSubmissionCreated: the AVS is get-or-created and counted;
   * the record's `amount` is the sum of the operator rewards, and it carries both encodings
   * and the description.
   */
  method HandleOperatorDirectedAvsRewardsSubmissionCreated(
    store: Store, ev: EventMeta, caller: string, avs: string, submissionNonce: nat,
    operatorDirectedRewardsSubmissionHash: string, strategiesAndMultipliers: seq<StrategyAndMultiplier>,
    token: string, operatorRewards: seq<OperatorReward>, startTimestamp: nat, duration: nat,
    description: string)
    requires store.Valid()
    modifies store`avss, store`records
    ensures store.Valid()
    ensures store.avss == old(store.avss)[avs := CountSubmission(old(store.avss), avs, ev.blockTimestamp)]
    ensures store.records == old(store.records)[RecordId(ev) :=
      Record(ev, RewardsSubmissionRecord(Some(avs), caller, submissionNonce, operatorDirectedRewardsSubmissionHash,
                                         OperatorDirectedAvs, StrategiesJson(strategiesAndMultipliers), token,
                                         SumAmounts(operatorRewards), startTimestamp, duration,
                                         Some(OperatorRewardsJson(operatorRewards)), Some(description), None))]
  {
    var a := GetOrCreateAvs(store.avss, avs, ev.blockTimestamp);
    a := a.(rewardsSubmissionCount := a.rewardsSubmissionCount + 1);
    var strategiesJson := EncodeStrategiesAndMultipliers(strategiesAndMultipliers);
    var rewardsJson, totalAmount := EncodeOperatorRewards(operatorRewards);
    store.avss := store.avss[avs := a];
    store.records := store.records[RecordId(ev) :=
      Record(ev, RewardsSubmissionRecord(Some(avs), caller, submissionNonce, operatorDirectedRewardsSubmissionHash,
                                         OperatorDirectedAvs, strategiesJson, token, totalAmount,
                                         startTimestamp, duration, Some(rewardsJson), Some(description), None))];
  }

  /**
   * handleOperatorDirectedOperatorSetRewardsSubmissionCreated: as the AVS-directed handler,
   * for the set's AVS, and the record also stores the `avs-index` OperatorSet id, whether or
   * not that OperatorSet is stored.
   */
  method HandleOperatorDirectedOperatorSetRewardsSubmissionCreated(
    store: Store, ev: EventMeta, caller: string, avs: string, operatorSetIndex: nat, submissionNonce: nat,
    operatorDirectedRewardsSubmissionHash: string, strategiesAndMultipliers: seq<StrategyAndMultiplier>,
    token: string, operatorRewards: seq<OperatorReward>, startTimestamp: nat, duration: nat,
    description: string)
    requires store.Valid()
    modifies store`avss, store`records
    ensures store.Valid()
    ensures store.avss == old(store.avss)[avs := CountSubmission(old(store.avss), avs, ev.blockTimestamp)]
    ensures store.records == old(store.records)[RecordId(ev) :=
      Record(ev, RewardsSubmissionRecord(Some(avs), caller, submissionNonce, operatorDirectedRewardsSubmissionHash,
                                         OperatorDirectedOperatorSet, StrategiesJson(strategiesAndMultipliers),
                                         token, SumAmounts(operatorRewards), startTimestamp, duration,
                                         Some(OperatorRewardsJson(operatorRewards)), Some(description),
                                         Some(OperatorSetId(avs, operatorSetIndex))))]
  {
    var operatorSetId := OperatorSetId(avs, operatorSetIndex);
    var a := GetOrCreateAvs(store.avss, avs, ev.blockTimestamp);
    a := a.(rewardsSubmissionCount := a.rewardsSubmissionCount + 1);
    var strategiesJson := EncodeStrategiesAndMultipliers(strategiesAndMultipliers);
    var rewardsJson, totalAmount := EncodeOperatorRewards(operatorRewards);
    store.avss := store.avss[avs := a];
    store.records := store.records[RecordId(ev) :=
      Record(ev, RewardsSubmissionRecord(Some(avs), caller, submissionNonce, operatorDirectedRewardsSubmissionHash,
                                         OperatorDirectedOperatorSet, strategiesJson, token, totalAmount,
                                         startTimestamp, duration, Some(rewardsJson), Some(description),
                                         Some(operatorSetId)))];
  }

  // ---------------------------------------------------------------------------------------
  // Commission changes (never skipped, never create an Operator)
  // ---------------------------------------------------------------------------------------

  /**
   * handleOperatorAVSSplitBipsSet: the AVS is get-or-created; the record names the operator
   * by its address whether or not it is stored, and targets the AVS.
   */
  method HandleOperatorAvsSplitBipsSet(
    store: Store, ev: EventMeta, caller: string, operator: string, avs: string, activatedAt: nat,
    oldOperatorAvsSplitBips: nat, newOperatorAvsSplitBips: nat)
    requires store.Valid()
    modifies store`avss, store`records
    ensures store.Valid()
    ensures store.avss == old(store.avss)[avs := GetOrCreateAvs(old(store.avss), avs, ev.blockTimestamp)]
    ensures store.records == old(store.records)[RecordId(ev) :=
      Record(ev, OperatorCommissionEventRecord(operator, caller, AvsSpecific, activatedAt,
                                               oldOperatorAvsSplitBips, newOperatorAvsSplitBips, Some(avs), None))]
  {
    var a := GetOrCreateAvs(store.avss, avs, ev.blockTimestamp);
    store.avss := store.avss[avs := a];
    store.records := store.records[RecordId(ev) :=
      Record(ev, OperatorCommissionEventRecord(operator, caller, AvsSpecific, activatedAt,
                                               FromI32Value(oldOperatorAvsSplitBips), FromI32Value(newOperatorAvsSplitBips),
                                               Some(avs), None))];
  }

  /** handleOperatorPISplitBipsSet: only a PI_SPECIFIC record with no target. */
  method HandleOperatorPISplitBipsSet(
    store: Store, ev: EventMeta, caller: string, operator: string, activatedAt: nat,
    oldOperatorPISplitBips: nat, newOperatorPISplitBips: nat)
    requires store.Valid()
    modifies store`records
    ensures store.Valid()
    ensures store.records == old(store.records)[RecordId(ev) :=
      Record(ev, OperatorCommissionEventRecord(operator, caller, PiSpecific, activatedAt,
                                               oldOperatorPISplitBips, newOperatorPISplitBips, None, None))]
  {
    store.records := store.records[RecordId(ev) :=
      Record(ev, OperatorCommissionEventRecord(operator, caller, PiSpecific, activatedAt,
                                               FromI32Value(oldOperatorPISplitBips), FromI32Value(newOperatorPISplitBips),
                                               None, None))];
  }

  /** The two targets of an operator-set commission record: both null exactly when the set is unknown. */
  function SetTargets(operatorSets: map<string, OperatorSet>, operatorSetId: string): (r: (Option<string>, Option<string>))
    ensures r.0.None? <==> operatorSetId !in operatorSets
    ensures r.1.None? <==> operatorSetId !in operatorSets
    ensures operatorSetId in operatorSets ==>
      r.0 == Some(operatorSets[operatorSetId].avs) && r.1 == Some(operatorSetId)
  {
    if operatorSetId in operatorSets then (Some(operatorSets[operatorSetId].avs), Some(operatorSetId))
    else (None, None)
  }

  /**
   * handleOperatorSetSplitBipsSet: only an OPERATOR_SET_SPECIFIC record, whose targets are the
   * stored set's AVS and id, or both null when the set is not stored.
   */
  method HandleOperatorSetSplitBipsSet(
    store: Store, ev: EventMeta, caller: string, operator: string, avs: string, operatorSetIndex: nat,
    activatedAt: nat, oldOperatorSetSplitBips: nat, newOperatorSetSplitBips: nat)
    requires store.Valid()
    modifies store`records
    ensures store.Valid()
    ensures store.records == old(store.records)[RecordId(ev) :=
      var targets := SetTargets(store.operatorSets, OperatorSetId(avs, operatorSetIndex));
      Record(ev, OperatorCommissionEventRecord(operator, caller, OperatorSetSpecific, activatedAt,
                                               oldOperatorSetSplitBips, newOperatorSetSplitBips,
                                               targets.0, targets.1))]
  {
    var operatorSetId := OperatorSetId(avs, operatorSetIndex);
    var targetAvs: Option<string> := None;
    var targetOperatorSet: Option<string> := None;
    if operatorSetId in store.operatorSets {
      targetAvs := Some(store.operatorSets[operatorSetId].avs);
      targetOperatorSet := Some(operatorSetId);
    }
    store.records := store.records[RecordId(ev) :=
      Record(ev, OperatorCommissionEventRecord(operator, caller, OperatorSetSpecific, activatedAt,
                                               FromI32Value(oldOperatorSetSplitBips), FromI32Value(newOperatorSetSplitBips),
                                               targetAvs, targetOperatorSet))];
  }

  // ---------------------------------------------------------------------------------------
  // Distribution roots and claims
  // ---------------------------------------------------------------------------------------

  /** handleDistributionRootSubmitted: a SUBMITTED record with the root and its times. */
  method HandleDistributionRootSubmitted(
    store: Store, ev: EventMeta, rootIndex: nat, root: string, rewardsCalculationEndTimestamp: nat,
    activatedAt: nat)
    requires store.Valid()
    modifies store`records
    ensures store.Valid()
    ensures store.records == old(store.records)[RecordId(ev) :=
      Record(ev, DistributionRootEventRecord(rootIndex, Some(root), Some(rewardsCalculationEndTimestamp),
                                             Some(activatedAt), Submitted))]
  {
    store.records := store.records[RecordId(ev) :=
      Record(ev, DistributionRootEventRecord(rootIndex, Some(root), Some(rewardsCalculationEndTimestamp),
                                             Some(activatedAt), Submitted))];
  }

  /** handleDistributionRootDisabled: a DISABLED record whose root and times are all null. */
  method HandleDistributionRootDisabled(store: Store, ev: EventMeta, rootIndex: nat)
    requires store.Valid()
    modifies store`records
    ensures store.Valid()
    ensures store.records == old(store.records)[RecordId(ev) :=
      Record(ev, DistributionRootEventRecord(rootIndex, None, None, None, Disabled))]
  {
    store.records := store.records[RecordId(ev) :=
      Record(ev, DistributionRootEventRecord(rootIndex, None, None, None, Disabled))];
  }

  /** handleRewardsClaimed: a claim record with the event's fields. */
  method HandleRewardsClaimed(
    store: Store, ev: EventMeta, root: string, earner: string, claimer: string, recipient: string,
    token: string, claimedAmount: nat)
    requires store.Valid()
    modifies store`records
    ensures store.Valid()
    ensures store.records == old(store.records)[RecordId(ev) :=
      Record(ev, RewardsClaimedRecord(root, earner, claimer, recipient, token, claimedAmount))]
  {
    store.records := store.records[RecordId(ev) :=
      Record(ev, RewardsClaimedRecord(root, earner, claimer, recipient, token, claimedAmount))];
  }

  // ---------------------------------------------------------------------------------------
  // Configuration events
  // ---------------------------------------------------------------------------------------

  /** handleActivationDelaySet: logs only; the store is unchanged. */
  method HandleActivationDelaySet(store: Store, ev: EventMeta)
    requires store.Valid()
    ensures store.Valid() && unchanged(store)
  {
  }

  /** handleDefaultOperatorSplitBipsSet: logs only; the store is unchanged. */
  method HandleDefaultOperatorSplitBipsSet(store: Store, ev: EventMeta)
    requires store.Valid()
    ensures store.Valid() && unchanged(store)
  {
  }
}
