/**
 * The EigenPodManager mappings: pod deployment, beacon-chain deposits and withdrawals, the
 * two kinds of pod share update (a relative delta and an absolute new total), and
 * beacon-chain slashing records.
 *
 * Every handler that needs "the staker's pod" uses the first pod, in deployment order, whose
 * owner is the staker (FirstPod); with no such pod the pod updates are skipped and the
 * record's `pod` is null.
 */
module EigenPodManager {
  import opened Wrappers
  import opened Ids
  import opened Entities
  import opened EntityStore

  /** A freshly deployed pod: owned by `owner`, zero shares and counters, linked to its record. */
  function NewPod(owner: string, ev: EventMeta): (p: EigenPod)
    ensures p.owner == owner && p.totalShares == 0 && p.depositCount == 0 && p.withdrawalCount == 0
    ensures p.deployedAt == ev.blockTimestamp && p.deploymentEvent == RecordId(ev)
  {
    EigenPod(owner, 0, 0, 0, ev.blockTimestamp, RecordId(ev))
  }

  // ---------------------------------------------------------------------------------------
  // Which pod the owner's events use
  // ---------------------------------------------------------------------------------------

  /** Deploying a pod not yet in the order only matters to owners that had no pod before. */
  lemma {:induction false} FirstOwnedIndexAfterDeploy(order: seq<string>, pods: map<string, EigenPod>, owner: string,
                                                      pod: string, p: EigenPod)
    requires pod !in order
    ensures FirstOwnedIndex(order + [pod], pods[pod := p], owner) ==
      if FirstOwnedIndex(order, pods, owner) < |order| then FirstOwnedIndex(order, pods, owner)
      else if p.owner == owner then |order|
      else |order| + 1
    decreases order
  {
    if order == [] {
      assert order + [pod] == [pod];
    } else {
      assert (order + [pod])[1..] == order[1..] + [pod];
      assert order[0] != pod;
      FirstOwnedIndexAfterDeploy(order[1..], pods, owner, pod, p);
    }
  }

  /**
   * A first deployment never changes which pod an owner that already has one is credited
   * with; an owner with no pod is credited with the new pod from now on, and every other
   * owner keeps having none.
   */
  lemma FirstDeploymentDecidesPod(pods: map<string, EigenPod>, order: seq<string>, stakers: map<string, Staker>,
                                  owner: string, pod: string, ev: EventMeta, staker: string)
    requires PodsIndexed(pods, order, stakers)
    requires pod !in pods
    ensures FirstPod(order, pods, staker).Some? ==>
      FirstPod(order + [pod], pods[pod := NewPod(owner, ev)], staker) == FirstPod(order, pods, staker)
    ensures FirstPod(order, pods, staker).None? && staker == owner ==>
      FirstPod(order + [pod], pods[pod := NewPod(owner, ev)], staker) == Some(pod)
    ensures FirstPod(order, pods, staker).None? && staker != owner ==>
      FirstPod(order + [pod], pods[pod := NewPod(owner, ev)], staker) == None
  {
    assert pod !in order;
    FirstOwnedIndexAfterDeploy(order, pods, staker, pod, NewPod(owner, ev));
  }

  // ---------------------------------------------------------------------------------------
  // Share accounting: relative deltas against absolute totals
  // ---------------------------------------------------------------------------------------

  function Sum(deltas: seq<int>): int {
    if deltas == [] then 0 else deltas[0] + Sum(deltas[1..])
  }

  /** The `newTotalShares` a run of PodSharesUpdated events records, one per event. */
  function RunningTotals(total: int, deltas: seq<int>): (r: seq<int>)
    ensures |r| == |deltas|
    ensures deltas != [] ==> r[0] == total + deltas[0]
    ensures forall i :: 0 < i < |deltas| ==> r[i] == r[i - 1] + deltas[i]
    decreases deltas
  {
    if deltas == [] then [] else [total + deltas[0]] + RunningTotals(total + deltas[0], deltas[1..])
  }

  /** The `sharesDelta` a run of NewTotalShares events records, one per event. */
  function DeltasFromTotals(total: int, totals: seq<int>): (r: seq<int>)
    ensures |r| == |totals|
    ensures totals != [] ==> r[0] == totals[0] - total
    ensures forall i :: 0 < i < |totals| ==> r[i] == totals[i] - totals[i - 1]
    decreases totals
  {
    if totals == [] then [] else [totals[0] - total] + DeltasFromTotals(totals[0], totals[1..])
  }

  /** Reporting a run of deltas as absolute totals records the same deltas back. */
  lemma {:induction false} TotalsThenDeltas(total: int, deltas: seq<int>)
    ensures DeltasFromTotals(total, RunningTotals(total, deltas)) == deltas
    decreases deltas
  {
    if deltas != [] {
      TotalsThenDeltas(total + deltas[0], deltas[1..]);
    }
  }

  /** Reporting a run of absolute totals as deltas records the same totals back. */
  lemma {:induction false} DeltasThenTotals(total: int, totals: seq<int>)
    ensures RunningTotals(total, DeltasFromTotals(total, totals)) == totals
    decreases totals
  {
    if totals != [] {
      DeltasThenTotals(totals[0], totals[1..]);
    }
  }

  /** After a run of deltas the pod holds its start plus their sum. */
  lemma {:induction false} LastRunningTotal(total: int, deltas: seq<int>)
    requires deltas != []
    ensures RunningTotals(total, deltas)[|deltas| - 1] == total + Sum(deltas)
    decreases deltas
  {
    if |deltas| > 1 {
      LastRunningTotal(total + deltas[0], deltas[1..]);
    }
  }

  // ---------------------------------------------------------------------------------------
  // Handlers
  // ---------------------------------------------------------------------------------------

  /**
   * handlePodDeployed: the owner is get-or-created and a new pod with zero shares and
   * counters is written under the pod address, replacing any stored one. A pod deployed for
   * the first time goes to the end of the deployment order.
   */
  method HandlePodDeployed(store: Store, ev: EventMeta, pod: string, owner: string)
    requires store.Valid()
    modifies store`stakers, store`pods, store`podOrder, store`records
    ensures store.Valid()
    ensures store.stakers == old(store.stakers)[owner := GetOrCreateStaker(old(store.stakers), owner, ev.blockTimestamp)]
    ensures store.pods == old(store.pods)[pod := NewPod(owner, ev)]
    ensures store.podOrder == if pod in old(store.pods) then old(store.podOrder) else old(store.podOrder) + [pod]
    ensures store.records == old(store.records)[RecordId(ev) := Record(ev, PodDeployedRecord(pod, owner))]
  {
    var s := GetOrCreateStaker(store.stakers, owner, ev.blockTimestamp);
    if pod !in store.pods {
      store.podOrder := store.podOrder + [pod];
    }
    store.stakers := store.stakers[owner := s];
    store.pods := store.pods[pod := NewPod(owner, ev)];
    store.records := store.records[RecordId(ev) := Record(ev, PodDeployedRecord(pod, owner))];
  }

  /**
   * handleBeaconChainETHDeposited: the owner is get-or-created; its pod, if it has one, counts
   * one more deposit; the record names that pod or null.
   */
  method HandleBeaconChainETHDeposited(store: Store, ev: EventMeta, podOwner: string, amount: nat)
    requires store.Valid()
    modifies store`stakers, store`pods, store`records
    ensures store.Valid()
    ensures store.stakers == old(store.stakers)[podOwner := GetOrCreateStaker(old(store.stakers), podOwner, ev.blockTimestamp)]
    ensures var pod := FirstPod(old(store.podOrder), old(store.pods), podOwner);
      store.pods == if pod.Some? then
        old(store.pods)[pod.value := old(store.pods)[pod.value].(depositCount := old(store.pods)[pod.value].depositCount + 1)]
      else old(store.pods)
    ensures store.records == old(store.records)[RecordId(ev) :=
      Record(ev, BeaconChainDepositRecord(FirstPod(old(store.podOrder), old(store.pods), podOwner), podOwner, amount))]
  {
    var s := GetOrCreateStaker(store.stakers, podOwner, ev.blockTimestamp);
    var pod := FirstPod(store.podOrder, store.pods, podOwner);
    if pod.Some? {
      var p := store.pods[pod.value];
      store.pods := store.pods[pod.value := p.(depositCount := p.depositCount + 1)];
    }
    store.stakers := store.stakers[podOwner := s];
    store.records := store.records[RecordId(ev) := Record(ev, BeaconChainDepositRecord(pod, podOwner, amount))];
  }

  /**
   * handlePodSharesUpdated: the owner is get-or-created; its pod, if any, adds `sharesDelta`
   * to `totalShares`, and the record's `newTotalShares` is that new total, or null with no pod.
   */
  method HandlePodSharesUpdated(store: Store, ev: EventMeta, podOwner: string, sharesDelta: int)
    requires store.Valid()
    modifies store`stakers, store`pods, store`records
    ensures store.Valid()
    ensures store.stakers == old(store.stakers)[podOwner := GetOrCreateStaker(old(store.stakers), podOwner, ev.blockTimestamp)]
    ensures var pod := FirstPod(old(store.podOrder), old(store.pods), podOwner);
      store.pods == if pod.Some? then
        old(store.pods)[pod.value := old(store.pods)[pod.value].(totalShares := old(store.pods)[pod.value].totalShares + sharesDelta)]
      else old(store.pods)
    ensures var pod := FirstPod(old(store.podOrder), old(store.pods), podOwner);
      store.records == old(store.records)[RecordId(ev) :=
        Record(ev, PodSharesUpdateRecord(pod, podOwner, sharesDelta,
                                         if pod.Some? then Some(store.pods[pod.value].totalShares) else None,
                                         SharesUpdated))]
  {
    var s := GetOrCreateStaker(store.stakers, podOwner, ev.blockTimestamp);
    var pod := FirstPod(store.podOrder, store.pods, podOwner);
    var newTotal: Option<int> := None;
    if pod.Some? {
      var p := store.pods[pod.value];
      p := p.(totalShares := p.totalShares + sharesDelta);
      newTotal := Some(p.totalShares);
      store.pods := store.pods[pod.value := p];
    }
    store.stakers := store.stakers[podOwner := s];
    store.records := store.records[RecordId(ev) :=
      Record(ev, PodSharesUpdateRecord(pod, podOwner, sharesDelta, newTotal, SharesUpdated))];
  }

  /**
   * handleNewTotalShares: the owner is get-or-created; the recorded `sharesDelta` is the new
   * total minus the pod's old total (0 with no pod), computed before the pod's `totalShares`
   * is overwritten with the new total; the record always carries the new total.
   */
  method HandleNewTotalShares(store: Store, ev: EventMeta, podOwner: string, newTotalShares: int)
    requires store.Valid()
    modifies store`stakers, store`pods, store`records
    ensures store.Valid()
    ensures store.stakers == old(store.stakers)[podOwner := GetOrCreateStaker(old(store.stakers), podOwner, ev.blockTimestamp)]
    ensures var pod := FirstPod(old(store.podOrder), old(store.pods), podOwner);
      store.pods == if pod.Some? then
        old(store.pods)[pod.value := old(store.pods)[pod.value].(totalShares := newTotalShares)]
      else old(store.pods)
    ensures var pod := FirstPod(old(store.podOrder), old(store.pods), podOwner);
      store.records == old(store.records)[RecordId(ev) :=
        Record(ev, PodSharesUpdateRecord(pod, podOwner,
                                         if pod.Some? then newTotalShares - old(store.pods)[pod.value].totalShares else 0,
                                         Some(newTotalShares), NewTotalShares))]
  {
    var s := GetOrCreateStaker(store.stakers, podOwner, ev.blockTimestamp);
    var pod := FirstPod(store.podOrder, store.pods, podOwner);
    var sharesDelta := 0;
    if pod.Some? {
      sharesDelta := newTotalShares - store.pods[pod.value].totalShares;
    }
    if pod.Some? {
      var p := store.pods[pod.value];
      store.pods := store.pods[pod.value := p.(totalShares := newTotalShares)];
    }
    store.stakers := store.stakers[podOwner := s];
    store.records := store.records[RecordId(ev) :=
      Record(ev, PodSharesUpdateRecord(pod, podOwner, sharesDelta, Some(newTotalShares), NewTotalShares))];
  }

  /**
   * handleBeaconChainETHWithdrawalCompleted: the owner's `withdrawalCount` always goes up by
   * one; its pod's `withdrawalCount` goes up by one only when it has a pod.
   */
  method HandleBeaconChainETHWithdrawalCompleted(
    store: Store, ev: EventMeta, podOwner: string, shares: nat, nonce: nat, delegatedAddress: string,
    withdrawer: string, withdrawalRoot: string)
    requires store.Valid()
    modifies store`stakers, store`pods, store`records
    ensures store.Valid()
    ensures store.stakers == old(store.stakers)[podOwner :=
      var s := GetOrCreateStaker(old(store.stakers), podOwner, ev.blockTimestamp);
      s.(withdrawalCount := s.withdrawalCount + 1)]
    ensures var pod := FirstPod(old(store.podOrder), old(store.pods), podOwner);
      store.pods == if pod.Some? then
        old(store.pods)[pod.value := old(store.pods)[pod.value].(withdrawalCount := old(store.pods)[pod.value].withdrawalCount + 1)]
      else old(store.pods)
    ensures store.records == old(store.records)[RecordId(ev) :=
      Record(ev, BeaconChainWithdrawalRecord(FirstPod(old(store.podOrder), old(store.pods), podOwner), podOwner,
                                             shares, nonce, delegatedAddress, withdrawer, withdrawalRoot))]
  {
    var s := GetOrCreateStaker(store.stakers, podOwner, ev.blockTimestamp);
    var pod := FirstPod(store.podOrder, store.pods, podOwner);
    if pod.Some? {
      var p := store.pods[pod.value];
      store.pods := store.pods[pod.value := p.(withdrawalCount := p.withdrawalCount + 1)];
    }
    s := s.(withdrawalCount := s.withdrawalCount + 1);
    store.stakers := store.stakers[podOwner := s];
    store.records := store.records[RecordId(ev) :=
      Record(ev, BeaconChainWithdrawalRecord(pod, podOwner, shares, nonce, delegatedAddress, withdrawer, withdrawalRoot))];
  }

  /** handleBeaconChainSlashingFactorDecreased: only get-or-creates the staker and adds a record. */
  method HandleBeaconChainSlashingFactorDecreased(store: Store, ev: EventMeta, staker: string,
                                                  prevBeaconChainSlashingFactor: nat,
                                                  newBeaconChainSlashingFactor: nat)
    requires store.Valid()
    modifies store`stakers, store`records
    ensures store.Valid()
    ensures store.stakers == old(store.stakers)[staker := GetOrCreateStaker(old(store.stakers), staker, ev.blockTimestamp)]
    ensures store.records == old(store.records)[RecordId(ev) :=
      Record(ev, BeaconChainSlashingEventRecord(staker, prevBeaconChainSlashingFactor, newBeaconChainSlashingFactor))]
  {
    store.stakers := store.stakers[staker := GetOrCreateStaker(store.stakers, staker, ev.blockTimestamp)];
    store.records := store.records[RecordId(ev) :=
      Record(ev, BeaconChainSlashingEventRecord(staker, prevBeaconChainSlashingFactor, newBeaconChainSlashingFactor))];
  }

  /** handleBurnableETHSharesIncreased: logs only; the store is unchanged. */
  method HandleBurnableETHSharesIncreased(store: Store, ev: EventMeta)
    requires store.Valid()
    ensures store.Valid() && unchanged(store)
  {
  }
}
