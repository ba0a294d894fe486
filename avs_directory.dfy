/**
 * The legacy AVSDirectory mappings: operator-to-AVS registration status updates, with
 * counters that go up on REGISTERED and down, never below zero, otherwise; and AVS metadata
 * updates.
 */
module AvsDirectory {
  import opened Wrappers
  import opened Ids
  import opened Entities
  import opened EntityStore

  // ---------------------------------------------------------------------------------------
  // Registration counters
  // ---------------------------------------------------------------------------------------

  /** The status string: REGISTERED for the on-chain status 1, UNREGISTERED for any other. */
  function StatusOf(status: nat): (r: RegistrationStatus)
    ensures r == Registered <==> status == 1
    ensures r.Name() == (if status == 1 then "REGISTERED" else "UNREGISTERED")
  {
    if status == 1 then Registered else Unregistered
  }

  /** One counter after a status update: +1 when registering, else -1 only when above zero. */
  function ApplyStatus(count: nat, status: nat): (r: nat)
    ensures status == 1 <==> r > count
    ensures status != 1 ==> r == (if count == 0 then 0 else count - 1)
    ensures r <= count + 1 && r + 1 >= count
  {
    if status == 1 then count + 1
    else if count > 0 then count - 1
    else count
  }

  /** A counter after a run of status updates, in order. */
  function CountAfter(count: nat, statuses: seq<nat>): nat
    decreases statuses
  {
    if statuses == [] then count else CountAfter(ApplyStatus(count, statuses[0]), statuses[1..])
  }

  /** The REGISTERED updates in a run. */
  function Registrations(statuses: seq<nat>): nat {
    if statuses == [] then 0 else (if statuses[0] == 1 then 1 else 0) + Registrations(statuses[1..])
  }

  /** The UNREGISTERED updates in a run. */
  function Unregistrations(statuses: seq<nat>): nat {
    if statuses == [] then 0 else (if statuses[0] == 1 then 0 else 1) + Unregistrations(statuses[1..])
  }

  /**
   * The clamp only ever absorbs decrements: after any run of updates, a counter is at most
   * its start plus the registrations and at least its start plus registrations minus
   * unregistrations.
   */
  lemma {:induction false} CountAfterBounds(count: nat, statuses: seq<nat>)
    ensures CountAfter(count, statuses) <= count + Registrations(statuses)
    ensures CountAfter(count, statuses) >= count + Registrations(statuses) - Unregistrations(statuses)
    decreases statuses
  {
    if statuses != [] {
      CountAfterBounds(ApplyStatus(count, statuses[0]), statuses[1..]);
    }
  }

  /**
   * When no unregistration ever finds the counter at zero, nothing is clamped and the counter
   * is exactly its start plus registrations minus unregistrations.
   */
  lemma {:induction false} CountAfterUnclamped(count: nat, statuses: seq<nat>)
    requires forall k :: 0 <= k < |statuses| && statuses[k] != 1 ==> CountAfter(count, statuses[..k]) > 0
    ensures CountAfter(count, statuses) == count + Registrations(statuses) - Unregistrations(statuses)
    decreases statuses
  {
    if statuses != [] {
      assert statuses[..0] == [];
      var next := ApplyStatus(count, statuses[0]);
      forall k | 0 <= k < |statuses[1..]| && statuses[1..][k] != 1
        ensures CountAfter(next, statuses[1..][..k]) > 0
      {
        assert statuses[..k + 1][1..] == statuses[1..][..k];
        assert statuses[k + 1] != 1;
      }
      CountAfterUnclamped(next, statuses[1..]);
    }
  }

  /** `k` status updates with the same status. */
  function Repeat(status: nat, k: nat): (r: seq<nat>)
    ensures |r| == k && forall i :: 0 <= i < k ==> r[i] == status
  {
    if k == 0 then [] else [status] + Repeat(status, k - 1)
  }

  /** Running two runs one after the other is running their concatenation. */
  lemma {:induction false} CountAfterAppend(count: nat, a: seq<nat>, b: seq<nat>)
    ensures CountAfter(count, a + b) == CountAfter(CountAfter(count, a), b)
    decreases a
  {
    if a == [] {
      assert a + b == b;
    } else {
      assert (a + b)[1..] == a[1..] + b;
      CountAfterAppend(ApplyStatus(count, a[0]), a[1..], b);
    }
  }

  /** `k` registrations add `k`; `k` unregistrations subtract `k`, stopping at zero. */
  lemma {:induction false} CountAfterRepeat(count: nat, status: nat, k: nat)
    ensures status == 1 ==> CountAfter(count, Repeat(status, k)) == count + k
    ensures status != 1 ==> CountAfter(count, Repeat(status, k)) == (if count >= k then count - k else 0)
    decreases k
  {
    if k > 0 {
      assert Repeat(status, k)[1..] == Repeat(status, k - 1);
      CountAfterRepeat(ApplyStatus(count, status), status, k - 1);
    }
  }

  /**
   * `k` registrations followed by `k` unregistrations restore any counter, while
   * unregistrations alone never take a zero counter below zero.
   */
  lemma RegisterThenUnregisterRun(count: nat, status: nat, k: nat)
    requires status != 1
    ensures CountAfter(count, Repeat(1, k) + Repeat(status, k)) == count
    ensures CountAfter(0, Repeat(status, k)) == 0
  {
    CountAfterAppend(count, Repeat(1, k), Repeat(status, k));
    CountAfterRepeat(count, 1, k);
    CountAfterRepeat(count + k, status, k);
    CountAfterRepeat(0, status, k);
  }

  // ---------------------------------------------------------------------------------------
  // Handlers
  // ---------------------------------------------------------------------------------------

  /**
   * handleOperatorAVSRegistrationStatusUpdated: never skipped. The Operator (with the
   * directory's placeholder defaults) and the AVS are get-or-created, both counters follow
   * ApplyStatus, and a status record and an `operator-avs-timestamp` registration row with
   * the same status are appended.
   */
  method HandleOperatorAvsRegistrationStatusUpdated(store: Store, ev: EventMeta, operator: string, avs: string,
                                                    status: nat)
    requires store.Valid()
    modifies store`operators, store`avss, store`records, store`registrations
    ensures store.Valid()
    ensures store.operators == old(store.operators)[operator :=
      var o := GetOrCreateOperator(old(store.operators), operator, ev.blockTimestamp);
      o.(avsRegistrationCount := ApplyStatus(o.avsRegistrationCount, status))]
    ensures store.avss == old(store.avss)[avs :=
      var a := GetOrCreateAvs(old(store.avss), avs, ev.blockTimestamp);
      a.(totalOperatorRegistrations := ApplyStatus(a.totalOperatorRegistrations, status))]
    ensures store.records == old(store.records)[RecordId(ev) :=
      Record(ev, OperatorAvsRegistrationStatusRecord(operator, avs, StatusOf(status)))]
    ensures store.registrations == old(store.registrations)[RowId(operator, avs, ev.blockTimestamp) :=
      OperatorAvsRegistration(operator, avs, StatusOf(status), RecordId(ev), ev.txHash, ev.blockNumber,
                              ev.blockTimestamp)]
  {
    var o := GetOrCreateOperator(store.operators, operator, ev.blockTimestamp);
    var a := GetOrCreateAvs(store.avss, avs, ev.blockTimestamp);
    var statusTag := Unregistered;
    if status == 1 {
      statusTag := Registered;
      o := o.(avsRegistrationCount := o.avsRegistrationCount + 1);
      a := a.(totalOperatorRegistrations := a.totalOperatorRegistrations + 1);
    } else {
      if o.avsRegistrationCount > 0 {
        o := o.(avsRegistrationCount := o.avsRegistrationCount - 1);
      }
      if a.totalOperatorRegistrations > 0 {
        a := a.(totalOperatorRegistrations := a.totalOperatorRegistrations - 1);
      }
    }
    store.operators := store.operators[operator := o];
    store.avss := store.avss[avs := a];
    store.records := store.records[RecordId(ev) := Record(ev, OperatorAvsRegistrationStatusRecord(operator, avs, statusTag))];
    store.registrations := store.registrations[RowId(operator, avs, ev.blockTimestamp) :=
      OperatorAvsRegistration(operator, avs, statusTag, RecordId(ev), ev.txHash, ev.blockNumber, ev.blockTimestamp)];
  }

  /**
   * handleAVSMetadataURIUpdated: the AVS is get-or-created and takes the event's URI, and a
   * metadata record carrying the same URI is appended.
   */
  method HandleAvsMetadataURIUpdated(store: Store, ev: EventMeta, avs: string, metadataURI: string)
    requires store.Valid()
    modifies store`avss, store`records
    ensures store.Valid()
    ensures store.avss == old(store.avss)[avs :=
      GetOrCreateAvs(old(store.avss), avs, ev.blockTimestamp).(metadataURI := Some(metadataURI))]
    ensures store.records == old(store.records)[RecordId(ev) :=
      Record(ev, AvsMetadataUpdateRecord(avs, metadataURI))]
  {
    var a := GetOrCreateAvs(store.avss, avs, ev.blockTimestamp);
    store.avss := store.avss[avs := a.(metadataURI := Some(metadataURI))];
    store.records := store.records[RecordId(ev) := Record(ev, AvsMetadataUpdateRecord(avs, metadataURI))];
  }
}
