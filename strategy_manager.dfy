/**
 * The StrategyManager mappings: deposits into strategies, the deposit whitelist, and the
 * burn/redistribution share notices, which only make sure the strategy exists.
 */
module StrategyManager {
  import opened Wrappers
  import opened Ids
  import opened Entities
  import opened EntityStore

  // ---------------------------------------------------------------------------------------
  // Strategy updates
  // ---------------------------------------------------------------------------------------

  /** One deposit: the shares it adds and the block time it happened at. */
  datatype DepositAt = DepositAt(shares: nat, timestamp: nat)

  /** A strategy after one deposit; the first deposit time is set only when it is still unset. */
  function Deposited(st: Strategy, shares: nat, timestamp: nat): (r: Strategy)
    ensures r.totalDeposits == st.totalDeposits + 1 && r.totalShares == st.totalShares + shares
    ensures r.firstDepositAt.Some?
    ensures st.firstDepositAt.Some? ==> r.firstDepositAt == st.firstDepositAt
    ensures st.firstDepositAt.None? ==> r.firstDepositAt == Some(timestamp)
    ensures r.(totalDeposits := st.totalDeposits, totalShares := st.totalShares,
               firstDepositAt := st.firstDepositAt) == st
  {
    st.(totalDeposits := st.totalDeposits + 1,
        totalShares := st.totalShares + shares,
        firstDepositAt := if st.firstDepositAt.None? then Some(timestamp) else st.firstDepositAt)
  }

  /** A strategy after a run of deposits, in order. */
  function AfterDeposits(st: Strategy, deposits: seq<DepositAt>): Strategy
    decreases deposits
  {
    if deposits == [] then st
    else AfterDeposits(Deposited(st, deposits[0].shares, deposits[0].timestamp), deposits[1..])
  }

  function SumShares(deposits: seq<DepositAt>): nat {
    if deposits == [] then 0 else deposits[0].shares + SumShares(deposits[1..])
  }

  /**
   * Over any run of deposits a strategy counts every deposit and adds up every share, its
   * first deposit time is the first deposit's and is never moved once set, and nothing about
   * its whitelist or operators changes.
   */
  lemma {:induction false} AfterDepositsTotals(st: Strategy, deposits: seq<DepositAt>)
    ensures AfterDeposits(st, deposits).totalDeposits == st.totalDeposits + |deposits|
    ensures AfterDeposits(st, deposits).totalShares == st.totalShares + SumShares(deposits)
    ensures AfterDeposits(st, deposits).firstDepositAt ==
      if st.firstDepositAt.Some? then st.firstDepositAt
      else if deposits == [] then None
      else Some(deposits[0].timestamp)
    ensures AfterDeposits(st, deposits).isWhitelisted == st.isWhitelisted
    ensures AfterDeposits(st, deposits).whitelistedAt == st.whitelistedAt
    ensures AfterDeposits(st, deposits).operatorCount == st.operatorCount
    decreases deposits
  {
    if deposits != [] {
      AfterDepositsTotals(Deposited(st, deposits[0].shares, deposits[0].timestamp), deposits[1..]);
    }
  }

  /** A whitelisted strategy: whitelisted, with the time it was (last) added. */
  function Whitelisted(st: Strategy, timestamp: nat): (r: Strategy)
    ensures r.isWhitelisted && r.whitelistedAt == Some(timestamp)
    ensures r.(isWhitelisted := st.isWhitelisted, whitelistedAt := st.whitelistedAt) == st
  {
    st.(isWhitelisted := true, whitelistedAt := Some(timestamp))
  }

  /** A strategy removed from the whitelist: not whitelisted, and the whitelist time cleared. */
  function Delisted(st: Strategy): (r: Strategy)
    ensures !r.isWhitelisted && r.whitelistedAt == None
    ensures r.(isWhitelisted := st.isWhitelisted, whitelistedAt := st.whitelistedAt) == st
  {
    st.(isWhitelisted := false, whitelistedAt := None)
  }

  /**
   * A deposit never touches the whitelist and the whitelist never touches deposits, so
   * whitelisting or delisting before a whole run of deposits is the same as doing it after.
   */
  lemma {:induction false} WhitelistCommutesWithDeposits(st: Strategy, deposits: seq<DepositAt>, t: nat)
    ensures AfterDeposits(Whitelisted(st, t), deposits) == Whitelisted(AfterDeposits(st, deposits), t)
    ensures AfterDeposits(Delisted(st), deposits) == Delisted(AfterDeposits(st, deposits))
    decreases deposits
  {
    if deposits != [] {
      var d := deposits[0];
      assert Deposited(Whitelisted(st, t), d.shares, d.timestamp) == Whitelisted(Deposited(st, d.shares, d.timestamp), t);
      assert Deposited(Delisted(st), d.shares, d.timestamp) == Delisted(Deposited(st, d.shares, d.timestamp));
      WhitelistCommutesWithDeposits(Deposited(st, d.shares, d.timestamp), deposits[1..], t);
    }
  }

  // ---------------------------------------------------------------------------------------
  // Handlers
  // ---------------------------------------------------------------------------------------

  /**
   * handleDeposit: the staker and the strategy are get-or-created, the strategy takes the
   * deposit (Deposited), and a deposit record is appended.
   */
  method HandleDeposit(store: Store, ev: EventMeta, staker: string, strategy: string, shares: nat)
    requires store.Valid()
    modifies store`stakers, store`strategies, store`records
    ensures store.Valid()
    ensures store.stakers == old(store.stakers)[staker := GetOrCreateStaker(old(store.stakers), staker, ev.blockTimestamp)]
    ensures store.strategies == old(store.strategies)[strategy :=
      Deposited(GetOrCreateStrategy(old(store.strategies), strategy), shares, ev.blockTimestamp)]
    ensures store.records == old(store.records)[RecordId(ev) := Record(ev, DepositRecord(staker, strategy, shares))]
  {
    var s := GetOrCreateStaker(store.stakers, staker, ev.blockTimestamp);
    var st := GetOrCreateStrategy(store.strategies, strategy);
    st := st.(totalDeposits := st.totalDeposits + 1, totalShares := st.totalShares + shares);
    if st.firstDepositAt.None? {
      st := st.(firstDepositAt := Some(ev.blockTimestamp));
    }
    store.stakers := store.stakers[staker := s];
    store.strategies := store.strategies[strategy := st];
    store.records := store.records[RecordId(ev) := Record(ev, DepositRecord(staker, strategy, shares))];
  }

  /** handleStrategyAddedToDepositWhitelist: get-or-create, whitelist, and an ADDED record. */
  method HandleStrategyAddedToDepositWhitelist(store: Store, ev: EventMeta, strategy: string)
    requires store.Valid()
    modifies store`strategies, store`records
    ensures store.Valid()
    ensures store.strategies == old(store.strategies)[strategy :=
      Whitelisted(GetOrCreateStrategy(old(store.strategies), strategy), ev.blockTimestamp)]
    ensures store.records == old(store.records)[RecordId(ev) := Record(ev, StrategyWhitelistEventRecord(strategy, Added))]
  {
    var st := GetOrCreateStrategy(store.strategies, strategy);
    store.strategies := store.strategies[strategy := st.(isWhitelisted := true, whitelistedAt := Some(ev.blockTimestamp))];
    store.records := store.records[RecordId(ev) := Record(ev, StrategyWhitelistEventRecord(strategy, Added))];
  }

  /**
   * handleStrategyRemovedFromDepositWhitelist: a strategy never seen before is created anyway;
   * it is delisted and a REMOVED record is appended.
   */
  method HandleStrategyRemovedFromDepositWhitelist(store: Store, ev: EventMeta, strategy: string)
    requires store.Valid()
    modifies store`strategies, store`records
    ensures store.Valid()
    ensures store.strategies == old(store.strategies)[strategy :=
      Delisted(GetOrCreateStrategy(old(store.strategies), strategy))]
    ensures store.records == old(store.records)[RecordId(ev) := Record(ev, StrategyWhitelistEventRecord(strategy, Removed))]
  {
    var st: Strategy;
    if strategy in store.strategies {
      st := store.strategies[strategy];
    } else {
      st := GetOrCreateStrategy(store.strategies, strategy);
    }
    store.strategies := store.strategies[strategy := st.(isWhitelisted := false, whitelistedAt := None)];
    store.records := store.records[RecordId(ev) := Record(ev, StrategyWhitelistEventRecord(strategy, Removed))];
  }

  /**
   * The three burn/redistribution notices only make sure the strategy exists: each
   * get-or-creates it and saves it, and records nothing.
   */
  method TouchStrategy(store: Store, strategy: string)
    requires store.Valid()
    modifies store`strategies
    ensures store.Valid()
    ensures store.strategies == old(store.strategies)[strategy := GetOrCreateStrategy(old(store.strategies), strategy)]
    ensures strategy in old(store.strategies) ==> store.strategies == old(store.strategies)
  {
    store.strategies := store.strategies[strategy := GetOrCreateStrategy(store.strategies, strategy)];
  }

  /** handleBurnOrRedistributableSharesIncreased: the strategy is get-or-created, nothing else. */
  method HandleBurnOrRedistributableSharesIncreased(store: Store, ev: EventMeta, strategy: string)
    requires store.Valid()
    modifies store`strategies
    ensures store.Valid()
    ensures store.strategies == old(store.strategies)[strategy := GetOrCreateStrategy(old(store.strategies), strategy)]
  {
    TouchStrategy(store, strategy);
  }

  /** handleBurnOrRedistributableSharesDecreased: the strategy is get-or-created, nothing else. */
  method HandleBurnOrRedistributableSharesDecreased(store: Store, ev: EventMeta, strategy: string)
    requires store.Valid()
    modifies store`strategies
    ensures store.Valid()
    ensures store.strategies == old(store.strategies)[strategy := GetOrCreateStrategy(old(store.strategies), strategy)]
  {
    TouchStrategy(store, strategy);
  }

  /** handleBurnableSharesDecreased: the strategy is get-or-created, nothing else. */
  method HandleBurnableSharesDecreased(store: Store, ev: EventMeta, strategy: string)
    requires store.Valid()
    modifies store`strategies
    ensures store.Valid()
    ensures store.strategies == old(store.strategies)[strategy := GetOrCreateStrategy(old(store.strategies), strategy)]
  {
    TouchStrategy(store, strategy);
  }
}
