/**
 * The subgraph store: one map per entity kind, keyed by entity id, as `X.load(id)` and
 * `x.save()` see it. `load` is a map lookup and `save` a map update, and nothing is ever
 * deleted. The mappings run one event at a time against this store.
 *
 * `podOrder` lists pod ids in the order they were first deployed. It gives the derived query
 * `staker.eigenPods.load()` a fixed order, so that "the first pod" is well defined.
 */
module EntityStore {
  import opened Wrappers
  import opened Ids
  import opened Entities

  // ---------------------------------------------------------------------------------------
  // Store invariants, stated on the maps so that they can be reused in lemmas
  // ---------------------------------------------------------------------------------------

  /**
   * A staker's delegation fields are set and cleared together, and a set
   * `delegatedOperator` names a stored Operator.
   */
  ghost predicate StakersConsistent(stakers: map<string, Staker>, operators: map<string, Operator>) {
    forall id :: id in stakers ==>
      && (stakers[id].delegatedOperator.Some? <==> stakers[id].delegatedAt.Some?)
      && (stakers[id].delegatedOperator.Some? ==> stakers[id].delegatedOperator.value in operators)
  }

  /** Every stored pod is listed in the deployment order and its owner is a stored Staker. */
  ghost predicate PodsIndexed(pods: map<string, EigenPod>, podOrder: seq<string>, stakers: map<string, Staker>) {
    && (forall p :: p in pods ==> p in podOrder && pods[p].owner in stakers)
    && (forall i :: 0 <= i < |podOrder| ==> podOrder[i] in pods)
  }

  /** An OperatorSet is stored under `avs-index` of its own fields, and its AVS is stored. */
  ghost predicate OperatorSetsKeyed(operatorSets: map<string, OperatorSet>, avss: map<string, Avs>) {
    forall id :: id in operatorSets ==>
      && id == OperatorSetId(operatorSets[id].avs, operatorSets[id].operatorSetIndex)
      && operatorSets[id].avs in avss
  }

  /**
   * Every membership row is stored under `operator-set-joinedAt`, names a stored Operator
   * and OperatorSet, and is open: no handler ever sets `leftAt` or `leftAtBlock`.
   */
  ghost predicate MembershipsOpen(
    memberships: map<string, OperatorSetMembership>,
    operators: map<string, Operator>,
    operatorSets: map<string, OperatorSet>)
  {
    forall id :: id in memberships ==>
      && id == RowId(memberships[id].operator, memberships[id].operatorSet, memberships[id].joinedAt)
      && memberships[id].leftAt == None && memberships[id].leftAtBlock == None
      && memberships[id].operator in operators
      && memberships[id].operatorSet in operatorSets
  }

  /** Every delegation row is stored under `staker-operator-timestamp` and names stored entities. */
  ghost predicate DelegationRowsKeyed(
    delegations: map<string, StakerDelegation>,
    stakers: map<string, Staker>,
    operators: map<string, Operator>)
  {
    forall id :: id in delegations ==>
      && id == RowId(delegations[id].staker, delegations[id].operator, delegations[id].blockTimestamp)
      && delegations[id].staker in stakers
      && delegations[id].operator in operators
  }

  /** Every registration row is stored under `operator-avs-timestamp` and names stored entities. */
  ghost predicate RegistrationRowsKeyed(
    registrations: map<string, OperatorAvsRegistration>,
    operators: map<string, Operator>,
    avss: map<string, Avs>)
  {
    forall id :: id in registrations ==>
      && id == RowId(registrations[id].operator, registrations[id].avs, registrations[id].blockTimestamp)
      && registrations[id].operator in operators
      && registrations[id].avs in avss
  }

  /** Every record is stored under `txHash-logIndex` of the event that appended it. */
  ghost predicate RecordsKeyed(records: map<string, Record>) {
    forall id :: id in records ==> id == RecordId(records[id].meta)
  }

  // ---------------------------------------------------------------------------------------
  // The derived query staker.eigenPods.load()
  // ---------------------------------------------------------------------------------------

  predicate OwnedBy(pods: map<string, EigenPod>, pod: string, owner: string) {
    pod in pods && pods[pod].owner == owner
  }

  /** The position in `order` of the first pod that `owner` owns, or `|order|` if none. */
  function FirstOwnedIndex(order: seq<string>, pods: map<string, EigenPod>, owner: string): (k: nat)
    ensures k <= |order|
    ensures k < |order| ==> OwnedBy(pods, order[k], owner)
    ensures forall j :: 0 <= j < k ==> !OwnedBy(pods, order[j], owner)
  {
    if order == [] then 0
    else if OwnedBy(pods, order[0], owner) then 0
    else 1 + FirstOwnedIndex(order[1..], pods, owner)
  }

  /** `eigenPods[0]` when `eigenPods.length > 0`, else null: the first owned pod in deployment order. */
  function FirstPod(order: seq<string>, pods: map<string, EigenPod>, owner: string): (r: Option<string>)
    ensures r.Some? ==> OwnedBy(pods, r.value, owner)
    ensures r.None? ==> forall i :: 0 <= i < |order| ==> !OwnedBy(pods, order[i], owner)
  {
    var k := FirstOwnedIndex(order, pods, owner);
    if k < |order| then Some(order[k]) else None
  }

  /** With every pod indexed, a staker that owns any pod has one found by the query. */
  lemma OwnedPodIsFound(pods: map<string, EigenPod>, order: seq<string>, stakers: map<string, Staker>,
                        pod: string, owner: string)
    requires PodsIndexed(pods, order, stakers)
    requires OwnedBy(pods, pod, owner)
    ensures FirstPod(order, pods, owner).Some?
  {
    var i :| 0 <= i < |order| && order[i] == pod;
  }

  /** An OperatorSet stored under `avs-index` belongs to that AVS, which is stored. */
  lemma KnownSetHasKnownAvs(operatorSets: map<string, OperatorSet>, avss: map<string, Avs>,
                            avs: string, operatorSetIndex: nat)
    requires OperatorSetsKeyed(operatorSets, avss)
    requires OperatorSetId(avs, operatorSetIndex) in operatorSets
    ensures operatorSets[OperatorSetId(avs, operatorSetIndex)].avs == avs
    ensures operatorSets[OperatorSetId(avs, operatorSetIndex)].operatorSetIndex == operatorSetIndex
    ensures avs in avss
  {
    var id := OperatorSetId(avs, operatorSetIndex);
    OperatorSetIdInjective(avs, operatorSetIndex, operatorSets[id].avs, operatorSets[id].operatorSetIndex);
  }

  // ---------------------------------------------------------------------------------------
  // The store
  // ---------------------------------------------------------------------------------------

  class Store {
    var operators: map<string, Operator>
    var avss: map<string, Avs>
    var operatorSets: map<string, OperatorSet>
    var strategies: map<string, Strategy>
    var stakers: map<string, Staker>
    var pods: map<string, EigenPod>
    var podOrder: seq<string>
    var delegations: map<string, StakerDelegation>
    var memberships: map<string, OperatorSetMembership>
    var registrations: map<string, OperatorAvsRegistration>
    var records: map<string, Record>

    ghost predicate Valid()
      reads this
    {
      && StakersConsistent(stakers, operators)
      && PodsIndexed(pods, podOrder, stakers)
      && OperatorSetsKeyed(operatorSets, avss)
      && MembershipsOpen(memberships, operators, operatorSets)
      && DelegationRowsKeyed(delegations, stakers, operators)
      && RegistrationRowsKeyed(registrations, operators, avss)
      && RecordsKeyed(records)
    }

    /** An empty store, before the first block is indexed. */
    constructor ()
      ensures Valid()
      ensures operators == map[] && avss == map[] && operatorSets == map[]
      ensures strategies == map[] && stakers == map[] && pods == map[] && podOrder == []
      ensures delegations == map[] && memberships == map[] && registrations == map[]
      ensures records == map[]
    {
      operators, avss, operatorSets := map[], map[], map[];
      strategies, stakers, pods, podOrder := map[], map[], map[], [];
      delegations, memberships, registrations := map[], map[], map[];
      records := map[];
    }
  }
}
