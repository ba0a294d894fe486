/**
 * The AllocationManager mappings: slashing, allocations, OperatorSet creation and
 * membership, strategies in sets, AVS metadata and set configuration.
 */
module AllocationManager {
  import opened Wrappers
  import opened Ids
  import opened Entities
  import opened EntityStore
  import AvsDirectory

  /** A freshly created OperatorSet: no recipient, zero counters, linked to its creation record. */
  function NewOperatorSet(avs: string, operatorSetIndex: nat, ev: EventMeta): (s: OperatorSet)
    ensures s.avs == avs && s.operatorSetIndex == operatorSetIndex && s.redistributionRecipient == None
    ensures s.memberCount == 0 && s.strategyCount == 0 && s.allocationCount == 0 && s.slashingEventCount == 0
    ensures s.createdAt == ev.blockTimestamp && s.creationEvent == RecordId(ev)
  {
    OperatorSet(avs, operatorSetIndex, None, 0, 0, 0, 0, ev.blockTimestamp, RecordId(ev))
  }

  /** The set after a member joins (+1) or leaves (-1); the count is never clamped. */
  function ChangeMembers(s: OperatorSet, delta: int): (r: OperatorSet)
    ensures r.memberCount - s.memberCount == delta
    ensures r.(memberCount := s.memberCount) == s
  {
    s.(memberCount := s.memberCount + delta)
  }

  /** The operator after joining (+1) or leaving (-1) a set; the count is never clamped. */
  function ChangeSets(o: Operator, delta: int): (r: Operator)
    ensures r.operatorSetCount - o.operatorSetCount == delta
    ensures r.(operatorSetCount := o.operatorSetCount) == o
  {
    o.(operatorSetCount := o.operatorSetCount + delta)
  }

  // ---------------------------------------------------------------------------------------
  // Runs of membership and strategy changes
  // ---------------------------------------------------------------------------------------

  function ChangeDelta(change: ListChange): int {
    if change == Added then 1 else -1
  }

  /** The operator after a run of joins and leaves, in order. */
  function OperatorAfterChanges(o: Operator, changes: seq<ListChange>): Operator
    decreases changes
  {
    if changes == [] then o else OperatorAfterChanges(ChangeSets(o, ChangeDelta(changes[0])), changes[1..])
  }

  /** The set after a run of joins and leaves, in order. */
  function SetAfterChanges(s: OperatorSet, changes: seq<ListChange>): OperatorSet
    decreases changes
  {
    if changes == [] then s else SetAfterChanges(ChangeMembers(s, ChangeDelta(changes[0])), changes[1..])
  }

  /** The set after a run of strategy additions and removals, in order. */
  function SetAfterStrategyChanges(s: OperatorSet, changes: seq<ListChange>): OperatorSet
    decreases changes
  {
    if changes == [] then s
    else SetAfterStrategyChanges(s.(strategyCount := s.strategyCount + ChangeDelta(changes[0])), changes[1..])
  }

  function Adds(changes: seq<ListChange>): nat {
    if changes == [] then 0 else (if changes[0] == Added then 1 else 0) + Adds(changes[1..])
  }

  function Removes(changes: seq<ListChange>): nat {
    if changes == [] then 0 else (if changes[0] == Added then 0 else 1) + Removes(changes[1..])
  }

  /**
   * An operator's `operatorSetCount` and a set's `memberCount` move in lockstep: over any run
   * of joins and leaves of that operator to that set, both are exactly their start plus the
   * joins minus the leaves (nothing clamps them), and no other field changes.
   */
  lemma {:induction false} MembershipRunCounts(o: Operator, s: OperatorSet, changes: seq<ListChange>)
    ensures OperatorAfterChanges(o, changes).operatorSetCount == o.operatorSetCount + Adds(changes) - Removes(changes)
    ensures SetAfterChanges(s, changes).memberCount == s.memberCount + Adds(changes) - Removes(changes)
    ensures OperatorAfterChanges(o, changes).(operatorSetCount := o.operatorSetCount) == o
    ensures SetAfterChanges(s, changes).(memberCount := s.memberCount) == s
    decreases changes
  {
    if changes != [] {
      MembershipRunCounts(ChangeSets(o, ChangeDelta(changes[0])), ChangeMembers(s, ChangeDelta(changes[0])),
                          changes[1..]);
    }
  }

  /**
   * Over any run of strategy additions and removals for a stored set, `strategyCount` is its
   * start plus the additions minus the removals, and no other field changes.
   */
  lemma {:induction false} StrategyRunCounts(s: OperatorSet, changes: seq<ListChange>)
    ensures SetAfterStrategyChanges(s, changes).strategyCount == s.strategyCount + Adds(changes) - Removes(changes)
    ensures SetAfterStrategyChanges(s, changes).(strategyCount := s.strategyCount) == s
    decreases changes
  {
    if changes != [] {
      StrategyRunCounts(s.(strategyCount := s.strategyCount + ChangeDelta(changes[0])), changes[1..]);
    }
  }

  // ---------------------------------------------------------------------------------------
  // Slashing and allocations
  // ---------------------------------------------------------------------------------------

  /**
   * handleOperatorSlashed: skipped unless the Operator, the `avs-index` OperatorSet and the
   * AVS are all stored; otherwise each of the three `slashingEventCount`s goes up by one and
   * a slashing record is appended.
   */
  method HandleOperatorSlashed(store: Store, ev: EventMeta, operator: string, avs: string, operatorSetIndex: nat,
                               strategies: seq<string>, wadSlashed: seq<nat>, description: string)
    requires store.Valid()
    modifies store`operators, store`operatorSets, store`avss, store`records
    ensures store.Valid()
    ensures var setId := OperatorSetId(avs, operatorSetIndex);
      (operator !in old(store.operators) || setId !in old(store.operatorSets) || avs !in old(store.avss))
      ==> unchanged(store)
    ensures var setId := OperatorSetId(avs, operatorSetIndex);
      (operator in old(store.operators) && setId in old(store.operatorSets) && avs in old(store.avss)) ==>
      && store.operators == old(store.operators)[operator :=
           old(store.operators)[operator].(slashingEventCount := old(store.operators)[operator].slashingEventCount + 1)]
      && store.operatorSets == old(store.operatorSets)[setId :=
           old(store.operatorSets)[setId].(slashingEventCount := old(store.operatorSets)[setId].slashingEventCount + 1)]
      && store.avss == old(store.avss)[avs :=
           old(store.avss)[avs].(slashingEventCount := old(store.avss)[avs].slashingEventCount + 1)]
      && store.records == old(store.records)[RecordId(ev) :=
           Record(ev, OperatorSlashedRecord(operator, setId, strategies, wadSlashed, description))]
  {
    if operator !in store.operators {
      return;
    }
    var setId := OperatorSetId(avs, operatorSetIndex);
    if setId !in store.operatorSets {
      return;
    }
    if avs !in store.avss {
      return;
    }
    var o := store.operators[operator];
    var s := store.operatorSets[setId];
    var a := store.avss[avs];
    store.operators := store.operators[operator := o.(slashingEventCount := o.slashingEventCount + 1)];
    store.operatorSets := store.operatorSets[setId := s.(slashingEventCount := s.slashingEventCount + 1)];
    store.avss := store.avss[avs := a.(slashingEventCount := a.slashingEventCount + 1)];
    store.records := store.records[RecordId(ev) :=
      Record(ev, OperatorSlashedRecord(operator, setId, strategies, wadSlashed, description))];
  }

  /**
   * handleAllocationUpdated: skipped unless the Operator and the OperatorSet are stored;
   * otherwise the set's `allocationCount` goes up by one, the strategy is get-or-created, and
   * the record keeps `magnitude` and `effectBlock` as given.
   */
  method HandleAllocationUpdated(store: Store, ev: EventMeta, operator: string, avs: string, operatorSetIndex: nat,
                                 strategy: string, magnitude: nat, effectBlock: nat)
    requires store.Valid()
    modifies store`operatorSets, store`strategies, store`records
    ensures store.Valid()
    ensures var setId := OperatorSetId(avs, operatorSetIndex);
      (operator !in old(store.operators) || setId !in old(store.operatorSets)) ==> unchanged(store)
    ensures var setId := OperatorSetId(avs, operatorSetIndex);
      (operator in old(store.operators) && setId in old(store.operatorSets)) ==>
      && store.operatorSets == old(store.operatorSets)[setId :=
           old(store.operatorSets)[setId].(allocationCount := old(store.operatorSets)[setId].allocationCount + 1)]
      && store.strategies == old(store.strategies)[strategy := GetOrCreateStrategy(old(store.strategies), strategy)]
      && store.records == old(store.records)[RecordId(ev) :=
           Record(ev, AllocationEventRecord(operator, setId, strategy, magnitude, effectBlock))]
  {
    if operator !in store.operators {
      return;
    }
    var setId := OperatorSetId(avs, operatorSetIndex);
    if setId !in store.operatorSets {
      return;
    }
    var st := GetOrCreateStrategy(store.strategies, strategy);
    var s := store.operatorSets[setId];
    store.operatorSets := store.operatorSets[setId := s.(allocationCount := s.allocationCount + 1)];
    store.strategies := store.strategies[strategy := st];
    store.records := store.records[RecordId(ev) :=
      Record(ev, AllocationEventRecord(operator, setId, strategy, magnitude, effectBlock))];
  }

  /** handleAllocationDelaySet: touches only the operator's timestamps; the store is unchanged. */
  method HandleAllocationDelaySet(store: Store, ev: EventMeta, operator: string)
    requires store.Valid()
    ensures store.Valid() && unchanged(store)
  {
  }

  /** handleEncumberedMagnitudeUpdated: only get-or-creates the strategy. */
  method HandleEncumberedMagnitudeUpdated(store: Store, ev: EventMeta, operator: string, strategy: string)
    requires store.Valid()
    modifies store`strategies
    ensures store.Valid()
    ensures store.strategies == old(store.strategies)[strategy := GetOrCreateStrategy(old(store.strategies), strategy)]
  {
    store.strategies := store.strategies[strategy := GetOrCreateStrategy(store.strategies, strategy)];
  }

  /** handleMaxMagnitudeUpdated: only get-or-creates the strategy. */
  method HandleMaxMagnitudeUpdated(store: Store, ev: EventMeta, operator: string, strategy: string)
    requires store.Valid()
    modifies store`strategies
    ensures store.Valid()
    ensures store.strategies == old(store.strategies)[strategy := GetOrCreateStrategy(old(store.strategies), strategy)]
  {
    store.strategies := store.strategies[strategy := GetOrCreateStrategy(store.strategies, strategy)];
  }

  // ---------------------------------------------------------------------------------------
  // OperatorSet lifecycle
  // ---------------------------------------------------------------------------------------

  /**
   * handleOperatorSetCreated: the AVS is get-or-created and its `operatorSetCount` goes up by
   * one; a new OperatorSet is written under `avs-index`, replacing any stored one.
   */
  method HandleOperatorSetCreated(store: Store, ev: EventMeta, avs: string, operatorSetIndex: nat)
    requires store.Valid()
    modifies store`avss, store`operatorSets, store`records
    ensures store.Valid()
    ensures store.avss == old(store.avss)[avs :=
      var a := GetOrCreateAvs(old(store.avss), avs, ev.blockTimestamp);
      a.(operatorSetCount := a.operatorSetCount + 1)]
    ensures store.operatorSets == old(store.operatorSets)[OperatorSetId(avs, operatorSetIndex) :=
      NewOperatorSet(avs, operatorSetIndex, ev)]
    ensures store.records == old(store.records)[RecordId(ev) :=
      Record(ev, OperatorSetCreatedRecord(OperatorSetId(avs, operatorSetIndex), avs, operatorSetIndex))]
  {
    var a := GetOrCreateAvs(store.avss, avs, ev.blockTimestamp);
    var setId := OperatorSetId(avs, operatorSetIndex);
    var s := NewOperatorSet(avs, operatorSetIndex, ev);
    a := a.(operatorSetCount := a.operatorSetCount + 1);
    store.avss := store.avss[avs := a];
    store.operatorSets := store.operatorSets[setId := s];
    store.records := store.records[RecordId(ev) := Record(ev, OperatorSetCreatedRecord(setId, avs, operatorSetIndex))];
  }

  /**
   * handleOperatorAddedToOperatorSet: skipped unless the Operator and the OperatorSet are
   * stored; otherwise both counters go up by one and an open `operator-set-timestamp`
   * membership row, linked to the join record, is written.
   */
  method HandleOperatorAddedToOperatorSet(store: Store, ev: EventMeta, operator: string, avs: string,
                                          operatorSetIndex: nat)
    requires store.Valid()
    modifies store`operators, store`operatorSets, store`memberships, store`records
    ensures store.Valid()
    ensures var setId := OperatorSetId(avs, operatorSetIndex);
      (operator !in old(store.operators) || setId !in old(store.operatorSets)) ==> unchanged(store)
    ensures var setId := OperatorSetId(avs, operatorSetIndex);
      (operator in old(store.operators) && setId in old(store.operatorSets)) ==>
      && store.operators == old(store.operators)[operator := ChangeSets(old(store.operators)[operator], 1)]
      && store.operatorSets == old(store.operatorSets)[setId := ChangeMembers(old(store.operatorSets)[setId], 1)]
      && store.memberships == old(store.memberships)[RowId(operator, setId, ev.blockTimestamp) :=
           OperatorSetMembership(operator, setId, ev.blockTimestamp, ev.blockNumber, None, None, RecordId(ev))]
      && store.records == old(store.records)[RecordId(ev) :=
           Record(ev, OperatorAddedToOperatorSetRecord(operator, setId))]
  {
    if operator !in store.operators {
      return;
    }
    var setId := OperatorSetId(avs, operatorSetIndex);
    if setId !in store.operatorSets {
      return;
    }
    var o := store.operators[operator];
    var s := store.operatorSets[setId];
    store.operators := store.operators[operator := ChangeSets(o, 1)];
    store.operatorSets := store.operatorSets[setId := ChangeMembers(s, 1)];
    store.memberships := store.memberships[RowId(operator, setId, ev.blockTimestamp) :=
      OperatorSetMembership(operator, setId, ev.blockTimestamp, ev.blockNumber, None, None, RecordId(ev))];
    store.records := store.records[RecordId(ev) := Record(ev, OperatorAddedToOperatorSetRecord(operator, setId))];
  }

  /**
   * handleOperatorRemovedFromOperatorSet: skipped unless the Operator and the OperatorSet are
   * stored; otherwise both counters go down by one, unclamped. No membership row is closed:
   * `memberships` is outside what this handler may change.
   */
  method HandleOperatorRemovedFromOperatorSet(store: Store, ev: EventMeta, operator: string, avs: string,
                                              operatorSetIndex: nat)
    requires store.Valid()
    modifies store`operators, store`operatorSets, store`records
    ensures store.Valid()
    ensures var setId := OperatorSetId(avs, operatorSetIndex);
      (operator !in old(store.operators) || setId !in old(store.operatorSets)) ==> unchanged(store)
    ensures var setId := OperatorSetId(avs, operatorSetIndex);
      (operator in old(store.operators) && setId in old(store.operatorSets)) ==>
      && store.operators == old(store.operators)[operator := ChangeSets(old(store.operators)[operator], -1)]
      && store.operatorSets == old(store.operatorSets)[setId := ChangeMembers(old(store.operatorSets)[setId], -1)]
      && store.records == old(store.records)[RecordId(ev) :=
           Record(ev, OperatorRemovedFromOperatorSetRecord(operator, setId))]
  {
    if operator !in store.operators {
      return;
    }
    var setId := OperatorSetId(avs, operatorSetIndex);
    if setId !in store.operatorSets {
      return;
    }
    var o := store.operators[operator];
    var s := store.operatorSets[setId];
    store.operators := store.operators[operator := ChangeSets(o, -1)];
    store.operatorSets := store.operatorSets[setId := ChangeMembers(s, -1)];
    store.records := store.records[RecordId(ev) := Record(ev, OperatorRemovedFromOperatorSetRecord(operator, setId))];
  }

  // ---------------------------------------------------------------------------------------
  // Strategies in operator sets
  // ---------------------------------------------------------------------------------------

  /**
   * The shared body of handleStrategyAdded/RemovedFromOperatorSet: the strategy is
   * get-or-created, the set's `strategyCount` moves by `delta` only when the set is stored,
   * and the record is appended either way.
   */
  method ChangeSetStrategies(store: Store, ev: EventMeta, avs: string, operatorSetIndex: nat, strategy: string,
                             change: ListChange)
    requires store.Valid()
    modifies store`operatorSets, store`strategies, store`records
    ensures store.Valid()
    ensures var setId := OperatorSetId(avs, operatorSetIndex);
      store.operatorSets ==
        if setId in old(store.operatorSets) then
          old(store.operatorSets)[setId := old(store.operatorSets)[setId].(strategyCount :=
            old(store.operatorSets)[setId].strategyCount + (if change == Added then 1 else -1))]
        else old(store.operatorSets)
    ensures store.strategies == old(store.strategies)[strategy := GetOrCreateStrategy(old(store.strategies), strategy)]
    ensures store.records == old(store.records)[RecordId(ev) :=
      Record(ev, StrategyOperatorSetEventRecord(OperatorSetId(avs, operatorSetIndex), strategy, change))]
  {
    var setId := OperatorSetId(avs, operatorSetIndex);
    var st := GetOrCreateStrategy(store.strategies, strategy);
    if setId in store.operatorSets {
      var s := store.operatorSets[setId];
      if change == Added {
        s := s.(strategyCount := s.strategyCount + 1);
      } else {
        s := s.(strategyCount := s.strategyCount - 1);
      }
      store.operatorSets := store.operatorSets[setId := s];
    }
    store.strategies := store.strategies[strategy := st];
    store.records := store.records[RecordId(ev) := Record(ev, StrategyOperatorSetEventRecord(setId, strategy, change))];
  }

  /** handleStrategyAddedToOperatorSet: `strategyCount` +1 when the set is stored; ADDED record. */
  method HandleStrategyAddedToOperatorSet(store: Store, ev: EventMeta, avs: string, operatorSetIndex: nat,
                                          strategy: string)
    requires store.Valid()
    modifies store`operatorSets, store`strategies, store`records
    ensures store.Valid()
    ensures var setId := OperatorSetId(avs, operatorSetIndex);
      store.operatorSets ==
        if setId in old(store.operatorSets) then
          old(store.operatorSets)[setId := old(store.operatorSets)[setId].(strategyCount :=
            old(store.operatorSets)[setId].strategyCount + 1)]
        else old(store.operatorSets)
    ensures store.strategies == old(store.strategies)[strategy := GetOrCreateStrategy(old(store.strategies), strategy)]
    ensures store.records == old(store.records)[RecordId(ev) :=
      Record(ev, StrategyOperatorSetEventRecord(OperatorSetId(avs, operatorSetIndex), strategy, Added))]
  {
    ChangeSetStrategies(store, ev, avs, operatorSetIndex, strategy, Added);
  }

  /** handleStrategyRemovedFromOperatorSet: `strategyCount` -1 when the set is stored; REMOVED record. */
  method HandleStrategyRemovedFromOperatorSet(store: Store, ev: EventMeta, avs: string, operatorSetIndex: nat,
                                              strategy: string)
    requires store.Valid()
    modifies store`operatorSets, store`strategies, store`records
    ensures store.Valid()
    ensures var setId := OperatorSetId(avs, operatorSetIndex);
      store.operatorSets ==
        if setId in old(store.operatorSets) then
          old(store.operatorSets)[setId := old(store.operatorSets)[setId].(strategyCount :=
            old(store.operatorSets)[setId].strategyCount - 1)]
        else old(store.operatorSets)
    ensures store.strategies == old(store.strategies)[strategy := GetOrCreateStrategy(old(store.strategies), strategy)]
    ensures store.records == old(store.records)[RecordId(ev) :=
      Record(ev, StrategyOperatorSetEventRecord(OperatorSetId(avs, operatorSetIndex), strategy, Removed))]
  {
    ChangeSetStrategies(store, ev, avs, operatorSetIndex, strategy, Removed);
  }

  // ---------------------------------------------------------------------------------------
  // AVS metadata and configuration
  // ---------------------------------------------------------------------------------------

  /** handleAVSMetadataURIUpdated: the same update as the AVSDirectory's handler. */
  method HandleAvsMetadataURIUpdated(store: Store, ev: EventMeta, avs: string, metadataURI: string)
    requires store.Valid()
    modifies store`avss, store`records
    ensures store.Valid()
    ensures store.avss == old(store.avss)[avs :=
      GetOrCreateAvs(old(store.avss), avs, ev.blockTimestamp).(metadataURI := Some(metadataURI))]
    ensures store.records == old(store.records)[RecordId(ev) :=
      Record(ev, AvsMetadataUpdateRecord(avs, metadataURI))]
  {
    AvsDirectory.HandleAvsMetadataURIUpdated(store, ev, avs, metadataURI);
  }

  /** handleRedistributionAddressSet: sets the recipient of a stored OperatorSet; else no change. */
  method HandleRedistributionAddressSet(store: Store, ev: EventMeta, avs: string, operatorSetIndex: nat,
                                        redistributionRecipient: string)
    requires store.Valid()
    modifies store`operatorSets
    ensures store.Valid()
    ensures var setId := OperatorSetId(avs, operatorSetIndex);
      setId !in old(store.operatorSets) ==> unchanged(store)
    ensures var setId := OperatorSetId(avs, operatorSetIndex);
      setId in old(store.operatorSets) ==>
      store.operatorSets == old(store.operatorSets)[setId :=
        old(store.operatorSets)[setId].(redistributionRecipient := Some(redistributionRecipient))]
  {
    var setId := OperatorSetId(avs, operatorSetIndex);
    if setId in store.operatorSets {
      var s := store.operatorSets[setId];
      store.operatorSets := store.operatorSets[setId := s.(redistributionRecipient := Some(redistributionRecipient))];
    }
  }

  /** handleAVSRegistrarSet: only get-or-creates the AVS. */
  method HandleAvsRegistrarSet(store: Store, ev: EventMeta, avs: string)
    requires store.Valid()
    modifies store`avss
    ensures store.Valid()
    ensures store.avss == old(store.avss)[avs := GetOrCreateAvs(old(store.avss), avs, ev.blockTimestamp)]
  {
    store.avss := store.avss[avs := GetOrCreateAvs(store.avss, avs, ev.blockTimestamp)];
  }
}
