/**
 * The DelegationManager mappings: operator registration and metadata, staker delegation,
 * operator share changes, slashing-aware withdrawals and approver updates.
 *
 * Each handler is a method on the store. A handler that returns early because a required
 * entity is missing leaves the store unchanged: get-or-created entities are only saved on
 * the success path.
 */
module DelegationManager {
  import opened Wrappers
  import opened Ids
  import opened Entities
  import opened EntityStore

  /** The `staker` field of a share record written for a slashing, which names no staker. */
  const SlashedMarker: string := "SLASHED"

  /** The `staker` field of a completed-withdrawal record, which carries only the root. */
  const UnknownStaker: string := "UNKNOWN"

  // ---------------------------------------------------------------------------------------
  // Entity transitions
  // ---------------------------------------------------------------------------------------

  /** The staker after a StakerDelegated event. */
  function Delegate(s: Staker, operator: string, timestamp: nat): (r: Staker)
    ensures r.delegatedOperator == Some(operator) && r.delegatedAt == Some(timestamp)
    ensures r.delegationChangeCount == s.delegationChangeCount + 1
    ensures r.(delegatedOperator := s.delegatedOperator, delegatedAt := s.delegatedAt,
               delegationChangeCount := s.delegationChangeCount) == s
  {
    s.(delegatedOperator := Some(operator), delegatedAt := Some(timestamp),
       delegationChangeCount := s.delegationChangeCount + 1)
  }

  /** The staker after a StakerUndelegated or StakerForceUndelegated event. */
  function Undelegate(s: Staker): (r: Staker)
    ensures r.delegatedOperator == None && r.delegatedAt == None
    ensures r.delegationChangeCount == s.delegationChangeCount + 1
    ensures r.(delegatedOperator := s.delegatedOperator, delegatedAt := s.delegatedAt,
               delegationChangeCount := s.delegationChangeCount) == s
  {
    s.(delegatedOperator := None, delegatedAt := None,
       delegationChangeCount := s.delegationChangeCount + 1)
  }

  /** The operator after gaining (+1) or losing (-1) a delegator; the count is never clamped. */
  function ChangeDelegators(o: Operator, delta: int): (r: Operator)
    ensures r.delegatorCount - o.delegatorCount == delta
    ensures r.(delegatorCount := o.delegatorCount) == o
  {
    o.(delegatorCount := o.delegatorCount + delta)
  }

  // ---------------------------------------------------------------------------------------
  // Runs of delegation events
  // ---------------------------------------------------------------------------------------

  /** One delegation event: delegated to an operator at a time, or undelegated (forced or not). */
  datatype DelegationStep = DelegateTo(operator: string, timestamp: nat) | Undelegation

  /** The staker after one step. */
  function StakerStep(s: Staker, step: DelegationStep): Staker {
    match step
    case DelegateTo(operator, timestamp) => Delegate(s, operator, timestamp)
    case Undelegation => Undelegate(s)
  }

  /** The staker after a run of its own delegation events, in order. */
  function StakerAfter(s: Staker, steps: seq<DelegationStep>): Staker
    decreases steps
  {
    if steps == [] then s else StakerAfter(StakerStep(s, steps[0]), steps[1..])
  }

  /** The change in an operator's delegator count for one of its events. */
  function StepDelta(step: DelegationStep): int {
    if step.DelegateTo? then 1 else -1
  }

  /** The operator after a run of delegation events that name it, in order. */
  function OperatorAfter(o: Operator, steps: seq<DelegationStep>): Operator
    decreases steps
  {
    if steps == [] then o else OperatorAfter(ChangeDelegators(o, StepDelta(steps[0])), steps[1..])
  }

  function Delegations(steps: seq<DelegationStep>): nat {
    if steps == [] then 0 else (if steps[0].DelegateTo? then 1 else 0) + Delegations(steps[1..])
  }

  function Undelegations(steps: seq<DelegationStep>): nat {
    if steps == [] then 0 else (if steps[0].DelegateTo? then 0 else 1) + Undelegations(steps[1..])
  }

  /**
   * Over any run, every event counts as one delegation change, and the last event alone
   * decides the staker's delegation: the operator and time of a last delegation, or none
   * after a last undelegation.
   */
  lemma {:induction false} StakerAfterRun(s: Staker, steps: seq<DelegationStep>)
    ensures StakerAfter(s, steps).delegationChangeCount == s.delegationChangeCount + |steps|
    ensures steps != [] && steps[|steps| - 1].DelegateTo? ==>
      && StakerAfter(s, steps).delegatedOperator == Some(steps[|steps| - 1].operator)
      && StakerAfter(s, steps).delegatedAt == Some(steps[|steps| - 1].timestamp)
    ensures steps != [] && steps[|steps| - 1].Undelegation? ==>
      StakerAfter(s, steps).delegatedOperator == None && StakerAfter(s, steps).delegatedAt == None
    ensures steps == [] ==> StakerAfter(s, steps) == s
    decreases steps
  {
    if steps != [] {
      StakerAfterRun(StakerStep(s, steps[0]), steps[1..]);
    }
  }

  /**
   * Nothing clamps the delegator count: after any run it is exactly its start plus the
   * delegations minus the undelegations, and the operator's other fields are untouched.
   */
  lemma {:induction false} OperatorAfterRun(o: Operator, steps: seq<DelegationStep>)
    ensures OperatorAfter(o, steps).delegatorCount == o.delegatorCount + Delegations(steps) - Undelegations(steps)
    ensures OperatorAfter(o, steps).(delegatorCount := o.delegatorCount) == o
    decreases steps
  {
    if steps != [] {
      OperatorAfterRun(ChangeDelegators(o, StepDelta(steps[0])), steps[1..]);
    }
  }

  /**
   * Undelegation events for stakers the operator never gained drive its count below zero:
   * from zero, any run with more undelegations than delegations ends negative.
   */
  lemma UndelegationsDriveCountNegative(o: Operator, steps: seq<DelegationStep>)
    requires o.delegatorCount == 0
    requires Undelegations(steps) > Delegations(steps)
    ensures OperatorAfter(o, steps).delegatorCount < 0
  {
    OperatorAfterRun(o, steps);
  }

  // ---------------------------------------------------------------------------------------
  // Operator lifecycle
  // ---------------------------------------------------------------------------------------

  /**
   * handleOperatorRegistered: create the Operator if it is missing (zero counters, the
   * event's approver and registration time), in either case link it to the new record.
   * An Operator that already exists keeps all its other fields.
   */
  method HandleOperatorRegistered(store: Store, ev: EventMeta, operator: string, delegationApprover: string)
    requires store.Valid()
    modifies store`operators, store`records
    ensures store.Valid()
    ensures operator in old(store.operators) ==>
      store.operators == old(store.operators)[operator :=
        old(store.operators)[operator].(registrationEvent := Some(RecordId(ev)))]
    ensures operator !in old(store.operators) ==>
      store.operators == old(store.operators)[operator :=
        NewRegisteredOperator(delegationApprover, ev).(registrationEvent := Some(RecordId(ev)))]
    ensures store.records == old(store.records)[RecordId(ev) :=
      Record(ev, OperatorRegisteredRecord(operator, delegationApprover))]
  {
    var o: Operator;
    if operator in store.operators {
      o := store.operators[operator];
    } else {
      o := NewRegisteredOperator(delegationApprover, ev);
    }
    o := o.(registrationEvent := Some(RecordId(ev)));
    store.operators := store.operators[operator := o];
    store.records := store.records[RecordId(ev) := Record(ev, OperatorRegisteredRecord(operator, delegationApprover))];
  }

  /** handleOperatorMetadataURIUpdated: skipped for an unknown operator; otherwise set the URI. */
  method HandleOperatorMetadataURIUpdated(store: Store, ev: EventMeta, operator: string, metadataURI: string)
    requires store.Valid()
    modifies store`operators, store`records
    ensures store.Valid()
    ensures operator !in old(store.operators) ==> unchanged(store)
    ensures operator in old(store.operators) ==>
      && store.operators == old(store.operators)[operator :=
           old(store.operators)[operator].(metadataURI := Some(metadataURI))]
      && store.records == old(store.records)[RecordId(ev) :=
           Record(ev, OperatorMetadataUpdateRecord(operator, metadataURI))]
  {
    if operator !in store.operators {
      return;
    }
    var o := store.operators[operator];
    store.operators := store.operators[operator := o.(metadataURI := Some(metadataURI))];
    store.records := store.records[RecordId(ev) := Record(ev, OperatorMetadataUpdateRecord(operator, metadataURI))];
  }

  // ---------------------------------------------------------------------------------------
  // Delegation
  // ---------------------------------------------------------------------------------------

  /**
   * handleStakerDelegated: skipped for an unknown operator (the get-or-created staker is not
   * saved). Otherwise the staker points at the operator, both change counters go up by one,
   * and a DELEGATED row and record are appended.
   */
  method HandleStakerDelegated(store: Store, ev: EventMeta, staker: string, operator: string)
    requires store.Valid()
    modifies store`stakers, store`operators, store`delegations, store`records
    ensures store.Valid()
    ensures operator !in old(store.operators) ==> unchanged(store)
    ensures operator in old(store.operators) ==>
      && store.stakers == old(store.stakers)[staker :=
           Delegate(GetOrCreateStaker(old(store.stakers), staker, ev.blockTimestamp), operator, ev.blockTimestamp)]
      && store.operators == old(store.operators)[operator :=
           ChangeDelegators(old(store.operators)[operator], 1)]
      && store.delegations == old(store.delegations)[RowId(staker, operator, ev.blockTimestamp) :=
           StakerDelegation(staker, operator, Delegated, ev.txHash, ev.blockNumber, ev.blockTimestamp, ev.logIndex)]
      && store.records == old(store.records)[RecordId(ev) :=
           Record(ev, StakerDelegationEventRecord(staker, operator, Delegated))]
  {
    var s := GetOrCreateStaker(store.stakers, staker, ev.blockTimestamp);
    if operator !in store.operators {
      return;
    }
    var o := store.operators[operator];
    store.stakers := store.stakers[staker := Delegate(s, operator, ev.blockTimestamp)];
    store.operators := store.operators[operator := ChangeDelegators(o, 1)];
    store.delegations := store.delegations[RowId(staker, operator, ev.blockTimestamp) :=
      StakerDelegation(staker, operator, Delegated, ev.txHash, ev.blockNumber, ev.blockTimestamp, ev.logIndex)];
    store.records := store.records[RecordId(ev) := Record(ev, StakerDelegationEventRecord(staker, operator, Delegated))];
  }

  /**
   * The shared body of the two undelegation handlers: skipped when the staker or the operator
   * is unknown; otherwise the delegation is cleared, the staker's change count goes up by one,
   * the operator's delegator count goes down by one, and a row and record of `kind` are added.
   */
  method UndelegateWith(store: Store, ev: EventMeta, staker: string, operator: string, kind: DelegationType)
    requires store.Valid()
    requires kind != Delegated
    modifies store`stakers, store`operators, store`delegations, store`records
    ensures store.Valid()
    ensures (staker !in old(store.stakers) || operator !in old(store.operators)) ==> unchanged(store)
    ensures staker in old(store.stakers) && operator in old(store.operators) ==>
      && store.stakers == old(store.stakers)[staker := Undelegate(old(store.stakers)[staker])]
      && store.operators == old(store.operators)[operator :=
           ChangeDelegators(old(store.operators)[operator], -1)]
      && store.delegations == old(store.delegations)[RowId(staker, operator, ev.blockTimestamp) :=
           StakerDelegation(staker, operator, kind, ev.txHash, ev.blockNumber, ev.blockTimestamp, ev.logIndex)]
      && store.records == old(store.records)[RecordId(ev) :=
           Record(ev, StakerDelegationEventRecord(staker, operator, kind))]
  {
    if staker !in store.stakers {
      return;
    }
    if operator !in store.operators {
      return;
    }
    var s := store.stakers[staker];
    var o := store.operators[operator];
    store.stakers := store.stakers[staker := Undelegate(s)];
    store.operators := store.operators[operator := ChangeDelegators(o, -1)];
    store.delegations := store.delegations[RowId(staker, operator, ev.blockTimestamp) :=
      StakerDelegation(staker, operator, kind, ev.txHash, ev.blockNumber, ev.blockTimestamp, ev.logIndex)];
    store.records := store.records[RecordId(ev) := Record(ev, StakerDelegationEventRecord(staker, operator, kind))];
  }

  /** handleStakerUndelegated: UndelegateWith, tagged UNDELEGATED. */
  method HandleStakerUndelegated(store: Store, ev: EventMeta, staker: string, operator: string)
    requires store.Valid()
    modifies store`stakers, store`operators, store`delegations, store`records
    ensures store.Valid()
    ensures (staker !in old(store.stakers) || operator !in old(store.operators)) ==> unchanged(store)
    ensures staker in old(store.stakers) && operator in old(store.operators) ==>
      && store.stakers == old(store.stakers)[staker := Undelegate(old(store.stakers)[staker])]
      && store.operators == old(store.operators)[operator :=
           ChangeDelegators(old(store.operators)[operator], -1)]
      && store.delegations == old(store.delegations)[RowId(staker, operator, ev.blockTimestamp) :=
           StakerDelegation(staker, operator, Undelegated, ev.txHash, ev.blockNumber, ev.blockTimestamp, ev.logIndex)]
      && store.records == old(store.records)[RecordId(ev) :=
           Record(ev, StakerDelegationEventRecord(staker, operator, Undelegated))]
  {
    UndelegateWith(store, ev, staker, operator, Undelegated);
  }

  /** handleStakerForceUndelegated: UndelegateWith, tagged FORCE_UNDELEGATED. */
  method HandleStakerForceUndelegated(store: Store, ev: EventMeta, staker: string, operator: string)
    requires store.Valid()
    modifies store`stakers, store`operators, store`delegations, store`records
    ensures store.Valid()
    ensures (staker !in old(store.stakers) || operator !in old(store.operators)) ==> unchanged(store)
    ensures staker in old(store.stakers) && operator in old(store.operators) ==>
      && store.stakers == old(store.stakers)[staker := Undelegate(old(store.stakers)[staker])]
      && store.operators == old(store.operators)[operator :=
           ChangeDelegators(old(store.operators)[operator], -1)]
      && store.delegations == old(store.delegations)[RowId(staker, operator, ev.blockTimestamp) :=
           StakerDelegation(staker, operator, ForceUndelegated, ev.txHash, ev.blockNumber, ev.blockTimestamp, ev.logIndex)]
      && store.records == old(store.records)[RecordId(ev) :=
           Record(ev, StakerDelegationEventRecord(staker, operator, ForceUndelegated))]
  {
    UndelegateWith(store, ev, staker, operator, ForceUndelegated);
  }

  // ---------------------------------------------------------------------------------------
  // Operator shares
  // ---------------------------------------------------------------------------------------

  /**
   * The shared body of handleOperatorSharesIncreased/Decreased: skipped for an unknown
   * operator; otherwise the staker and the strategy are get-or-created, `delta` is added to
   * the strategy's `totalShares`, and a share record of `kind` is appended.
   */
  method ChangeOperatorShares(store: Store, ev: EventMeta, operator: string, staker: string, strategy: string,
                              shares: nat, kind: ShareEventType)
    requires store.Valid()
    modifies store`stakers, store`strategies, store`records
    ensures store.Valid()
    ensures operator !in store.operators ==> unchanged(store)
    ensures operator in store.operators ==>
      && store.stakers == old(store.stakers)[staker := GetOrCreateStaker(old(store.stakers), staker, ev.blockTimestamp)]
      && store.strategies == old(store.strategies)[strategy :=
           var st := GetOrCreateStrategy(old(store.strategies), strategy);
           st.(totalShares := if kind == Increased then st.totalShares + shares else st.totalShares - shares)]
      && store.records == old(store.records)[RecordId(ev) :=
           Record(ev, OperatorShareEventRecord(operator, staker, strategy, shares, kind))]
  {
    var s := GetOrCreateStaker(store.stakers, staker, ev.blockTimestamp);
    var st := GetOrCreateStrategy(store.strategies, strategy);
    if operator !in store.operators {
      return;
    }
    if kind == Increased {
      st := st.(totalShares := st.totalShares + shares);
    } else {
      st := st.(totalShares := st.totalShares - shares);
    }
    store.stakers := store.stakers[staker := s];
    store.strategies := store.strategies[strategy := st];
    store.records := store.records[RecordId(ev) := Record(ev, OperatorShareEventRecord(operator, staker, strategy, shares, kind))];
  }

  /** handleOperatorSharesIncreased: the strategy's `totalShares` grows by `shares`. */
  method HandleOperatorSharesIncreased(store: Store, ev: EventMeta, operator: string, staker: string,
                                       strategy: string, shares: nat)
    requires store.Valid()
    modifies store`stakers, store`strategies, store`records
    ensures store.Valid()
    ensures operator !in store.operators ==> unchanged(store)
    ensures operator in store.operators ==>
      && store.stakers == old(store.stakers)[staker := GetOrCreateStaker(old(store.stakers), staker, ev.blockTimestamp)]
      && store.strategies == old(store.strategies)[strategy :=
           var st := GetOrCreateStrategy(old(store.strategies), strategy);
           st.(totalShares := st.totalShares + shares)]
      && store.records == old(store.records)[RecordId(ev) :=
           Record(ev, OperatorShareEventRecord(operator, staker, strategy, shares, Increased))]
  {
    ChangeOperatorShares(store, ev, operator, staker, strategy, shares, Increased);
  }

  /** handleOperatorSharesDecreased: the strategy's `totalShares` shrinks by `shares`. */
  method HandleOperatorSharesDecreased(store: Store, ev: EventMeta, operator: string, staker: string,
                                       strategy: string, shares: nat)
    requires store.Valid()
    modifies store`stakers, store`strategies, store`records
    ensures store.Valid()
    ensures operator !in store.operators ==> unchanged(store)
    ensures operator in store.operators ==>
      && store.stakers == old(store.stakers)[staker := GetOrCreateStaker(old(store.stakers), staker, ev.blockTimestamp)]
      && store.strategies == old(store.strategies)[strategy :=
           var st := GetOrCreateStrategy(old(store.strategies), strategy);
           st.(totalShares := st.totalShares - shares)]
      && store.records == old(store.records)[RecordId(ev) :=
           Record(ev, OperatorShareEventRecord(operator, staker, strategy, shares, Decreased))]
  {
    ChangeOperatorShares(store, ev, operator, staker, strategy, shares, Decreased);
  }

  /**
   * handleOperatorSharesSlashed: skipped for an unknown operator; otherwise the operator's
   * `slashingEventCount` goes up by one, the strategy loses `totalSlashedShares`, and a
   * DECREASED share record with the SLASHED marker as staker is appended.
   */
  method HandleOperatorSharesSlashed(store: Store, ev: EventMeta, operator: string, strategy: string,
                                     totalSlashedShares: nat)
    requires store.Valid()
    modifies store`operators, store`strategies, store`records
    ensures store.Valid()
    ensures operator !in old(store.operators) ==> unchanged(store)
    ensures operator in old(store.operators) ==>
      && store.operators == old(store.operators)[operator :=
           old(store.operators)[operator].(slashingEventCount := old(store.operators)[operator].slashingEventCount + 1)]
      && store.strategies == old(store.strategies)[strategy :=
           var st := GetOrCreateStrategy(old(store.strategies), strategy);
           st.(totalShares := st.totalShares - totalSlashedShares)]
      && store.records == old(store.records)[RecordId(ev) :=
           Record(ev, OperatorShareEventRecord(operator, SlashedMarker, strategy, totalSlashedShares, Decreased))]
  {
    var st := GetOrCreateStrategy(store.strategies, strategy);
    if operator !in store.operators {
      return;
    }
    var o := store.operators[operator];
    store.operators := store.operators[operator := o.(slashingEventCount := o.slashingEventCount + 1)];
    store.strategies := store.strategies[strategy := st.(totalShares := st.totalShares - totalSlashedShares)];
    store.records := store.records[RecordId(ev) :=
      Record(ev, OperatorShareEventRecord(operator, SlashedMarker, strategy, totalSlashedShares, Decreased))];
  }

  // ---------------------------------------------------------------------------------------
  // Withdrawals
  // ---------------------------------------------------------------------------------------

  /** The record's `delegatedTo`: the operator id when it is not the zero address and is stored. */
  function DelegatedTo(operators: map<string, Operator>, delegatedTo: string): (r: Option<string>)
    ensures r.Some? <==> delegatedTo != ZeroAddress && delegatedTo in operators
    ensures r.Some? ==> r.value == delegatedTo
  {
    if delegatedTo != ZeroAddress && delegatedTo in operators then Some(delegatedTo) else None
  }

  /**
   * handleSlashingWithdrawalQueued: never skipped. The staker is get-or-created and its
   * `withdrawalCount` goes up by one; the record names the delegated operator only when it
   * is a stored Operator other than the zero address.
   */
  method HandleSlashingWithdrawalQueued(store: Store, ev: EventMeta, withdrawalRoot: string, staker: string,
                                        delegatedTo: string, withdrawer: string, nonce: nat, startBlock: nat,
                                        strategies: seq<string>, sharesToWithdraw: seq<nat>)
    requires store.Valid()
    modifies store`stakers, store`records
    ensures store.Valid()
    ensures store.stakers == old(store.stakers)[staker :=
      var s := GetOrCreateStaker(old(store.stakers), staker, ev.blockTimestamp);
      s.(withdrawalCount := s.withdrawalCount + 1)]
    ensures store.records == old(store.records)[RecordId(ev) :=
      Record(ev, WithdrawalEventRecord(withdrawalRoot, staker, DelegatedTo(store.operators, delegatedTo),
                                       withdrawer, nonce, startBlock, strategies, sharesToWithdraw, Queued))]
  {
    var s := GetOrCreateStaker(store.stakers, staker, ev.blockTimestamp);
    s := s.(withdrawalCount := s.withdrawalCount + 1);
    var delegated: Option<string> := None;
    if delegatedTo != ZeroAddress {
      if delegatedTo in store.operators {
        delegated := Some(delegatedTo);
      }
    }
    store.stakers := store.stakers[staker := s];
    store.records := store.records[RecordId(ev) :=
      Record(ev, WithdrawalEventRecord(withdrawalRoot, staker, delegated, withdrawer, nonce, startBlock,
                                       strategies, sharesToWithdraw, Queued))];
  }

  /**
   * handleSlashingWithdrawalCompleted: only a COMPLETED record carrying the root, with the
   * UNKNOWN staker, no operator, the zero address as withdrawer and empty lists.
   */
  method HandleSlashingWithdrawalCompleted(store: Store, ev: EventMeta, withdrawalRoot: string)
    requires store.Valid()
    modifies store`records
    ensures store.Valid()
    ensures store.records == old(store.records)[RecordId(ev) :=
      Record(ev, WithdrawalEventRecord(withdrawalRoot, UnknownStaker, None, ZeroAddress, 0, 0, [], [], Completed))]
  {
    store.records := store.records[RecordId(ev) :=
      Record(ev, WithdrawalEventRecord(withdrawalRoot, UnknownStaker, None, ZeroAddress, 0, 0, [], [], Completed))];
  }

  // ---------------------------------------------------------------------------------------
  // Administrative events
  // ---------------------------------------------------------------------------------------

  /** handleDelegationApproverUpdated: skipped for an unknown operator; otherwise set the approver. */
  method HandleDelegationApproverUpdated(store: Store, ev: EventMeta, operator: string, newDelegationApprover: string)
    requires store.Valid()
    modifies store`operators
    ensures store.Valid()
    ensures operator !in old(store.operators) ==> unchanged(store)
    ensures operator in old(store.operators) ==>
      store.operators == old(store.operators)[operator :=
        old(store.operators)[operator].(delegationApprover := newDelegationApprover)]
  {
    if operator !in store.operators {
      return;
    }
    var o := store.operators[operator];
    store.operators := store.operators[operator := o.(delegationApprover := newDelegationApprover)];
  }

  /** handleDepositScalingFactorUpdated: only get-or-creates the strategy and the staker. */
  method HandleDepositScalingFactorUpdated(store: Store, ev: EventMeta, strategy: string, staker: string)
    requires store.Valid()
    modifies store`strategies, store`stakers
    ensures store.Valid()
    ensures store.strategies == old(store.strategies)[strategy := GetOrCreateStrategy(old(store.strategies), strategy)]
    ensures store.stakers == old(store.stakers)[staker := GetOrCreateStaker(old(store.stakers), staker, ev.blockTimestamp)]
  {
    store.strategies := store.strategies[strategy := GetOrCreateStrategy(store.strategies, strategy)];
    store.stakers := store.stakers[staker := GetOrCreateStaker(store.stakers, staker, ev.blockTimestamp)];
  }
}
