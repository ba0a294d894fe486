/**
 * The JSON-shaped strings that rewards submissions store: `strategiesAndMultipliers` and
 * `operatorRewards` are each `"[" + items.join(",") + "]"` with one object per input entry,
 * and an operator-directed submission's `amount` is the sum of its operator rewards.
 */
module Encoding {
  import opened Ids

  datatype StrategyAndMultiplier = StrategyAndMultiplier(strategy: string, multiplier: nat)

  datatype OperatorReward = OperatorReward(operator: string, amount: nat)

  /** `parts.join(sep)`: the parts in order, with `sep` between neighbours. */
  function Join(sep: string, parts: seq<string>): string {
    if parts == [] then []
    else if |parts| == 1 then parts[0]
    else parts[0] + sep + Join(sep, parts[1..])
  }

  /** Joining one more part appends the separator and that part. */
  lemma {:induction false} JoinSnoc(sep: string, parts: seq<string>, x: string)
    requires parts != []
    ensures Join(sep, parts + [x]) == Join(sep, parts) + sep + x
  {
    if |parts| > 1 {
      assert (parts + [x])[1..] == parts[1..] + [x];
      JoinSnoc(sep, parts[1..], x);
    }
  }

  /** `[` + the parts joined by "," + `]`. */
  function ObjectsJson(parts: seq<string>): string {
    "[" + Join(",", parts) + "]"
  }

  /** `{"strategy":"<strategy>","multiplier":"<multiplier>"}` */
  function StrategyItem(sm: StrategyAndMultiplier): string {
    "{\"strategy\":\"" + sm.strategy + "\",\"multiplier\":\"" + NatToString(sm.multiplier) + "\"}"
  }

  /** `{"operator":"<operator>","amount":"<amount>"}` */
  function RewardItem(r: OperatorReward): string {
    "{\"operator\":\"" + r.operator + "\",\"amount\":\"" + NatToString(r.amount) + "\"}"
  }

  /** One item per input entry, in input order. */
  function StrategyItems(items: seq<StrategyAndMultiplier>): (r: seq<string>)
    ensures |r| == |items|
    ensures forall i :: 0 <= i < |items| ==> r[i] == StrategyItem(items[i])
  {
    if items == [] then [] else [StrategyItem(items[0])] + StrategyItems(items[1..])
  }

  /** One item per input entry, in input order. */
  function RewardItems(rewards: seq<OperatorReward>): (r: seq<string>)
    ensures |r| == |rewards|
    ensures forall i :: 0 <= i < |rewards| ==> r[i] == RewardItem(rewards[i])
  {
    if rewards == [] then [] else [RewardItem(rewards[0])] + RewardItems(rewards[1..])
  }

  function StrategiesJson(items: seq<StrategyAndMultiplier>): string {
    ObjectsJson(StrategyItems(items))
  }

  function OperatorRewardsJson(rewards: seq<OperatorReward>): string {
    ObjectsJson(RewardItems(rewards))
  }

  /** The sum of `operatorRewards[i].amount`. */
  function SumAmounts(rewards: seq<OperatorReward>): nat {
    if rewards == [] then 0 else rewards[0].amount + SumAmounts(rewards[1..])
  }

  lemma {:induction false} SumAmountsAppend(a: seq<OperatorReward>, b: seq<OperatorReward>)
    ensures SumAmounts(a + b) == SumAmounts(a) + SumAmounts(b)
  {
    if a == [] {
      assert a + b == b;
    } else {
      assert (a + b)[1..] == a[1..] + b;
      SumAmountsAppend(a[1..], b);
    }
  }

  /** No single reward exceeds the recorded total. */
  lemma {:induction false} SumAmountsBoundsEach(rewards: seq<OperatorReward>, i: nat)
    requires i < |rewards|
    ensures rewards[i].amount <= SumAmounts(rewards)
  {
    if i > 0 {
      SumAmountsBoundsEach(rewards[1..], i - 1);
    }
  }

  /**
   * The loop of the rewards handlers: one `{"strategy":…,"multiplier":…}` string per entry,
   * pushed in order, then joined.
   */
  method EncodeStrategiesAndMultipliers(items: seq<StrategyAndMultiplier>) returns (json: string)
    ensures json == StrategiesJson(items)
  {
    var strategiesResult: seq<string> := [];
    for i := 0 to |items|
      invariant |strategiesResult| == i
      invariant forall k :: 0 <= k < i ==> strategiesResult[k] == StrategyItem(items[k])
    {
      strategiesResult := strategiesResult + [StrategyItem(items[i])];
    }
    assert strategiesResult == StrategyItems(items);
    json := "[" + Join(",", strategiesResult) + "]";
  }

  /**
   * The loop of the operator-directed handlers: one `{"operator":…,"amount":…}` string per
   * reward, and the running total of the amounts.
   */
  method EncodeOperatorRewards(rewards: seq<OperatorReward>) returns (json: string, totalAmount: nat)
    ensures json == OperatorRewardsJson(rewards)
    ensures totalAmount == SumAmounts(rewards)
  {
    var rewardsResult: seq<string> := [];
    totalAmount := 0;
    for i := 0 to |rewards|
      invariant |rewardsResult| == i
      invariant forall k :: 0 <= k < i ==> rewardsResult[k] == RewardItem(rewards[k])
      invariant totalAmount == SumAmounts(rewards[..i])
    {
      rewardsResult := rewardsResult + [RewardItem(rewards[i])];
      assert rewards[..i + 1] == rewards[..i] + [rewards[i]];
      SumAmountsAppend(rewards[..i], [rewards[i]]);
      totalAmount := totalAmount + rewards[i].amount;
    }
    assert rewards[..|rewards|] == rewards;
    assert rewardsResult == RewardItems(rewards);
    json := "[" + Join(",", rewardsResult) + "]";
  }

  /** A list is encoded as "[]" exactly when it is empty: every item encodes to a non-empty object. */
  lemma EncodesEmptyIffEmpty(items: seq<StrategyAndMultiplier>, rewards: seq<OperatorReward>)
    ensures StrategiesJson(items) == "[]" <==> items == []
    ensures OperatorRewardsJson(rewards) == "[]" <==> rewards == []
  {
    if items != [] {
      var parts := StrategyItems(items);
      assert |Join(",", parts)| >= |parts[0]| > 0;
      assert |StrategiesJson(items)| > 2;
    }
    if rewards != [] {
      var parts := RewardItems(rewards);
      assert |Join(",", parts)| >= |parts[0]| > 0;
      assert |OperatorRewardsJson(rewards)| > 2;
    }
  }

  /** Appending an entry appends its object last, after a comma when the list was non-empty. */
  lemma StrategiesJsonAppend(items: seq<StrategyAndMultiplier>, x: StrategyAndMultiplier)
    ensures items == [] ==> StrategiesJson(items + [x]) == "[" + StrategyItem(x) + "]"
    ensures items != [] ==>
      StrategiesJson(items + [x]) == "[" + Join(",", StrategyItems(items)) + "," + StrategyItem(x) + "]"
  {
    var parts := StrategyItems(items);
    var item := StrategyItem(x);
    assert StrategyItems(items + [x]) == parts + [item];
    if items == [] {
      assert parts + [item] == [item];
    } else {
      JoinSnoc(",", parts, item);
      calc {
        StrategiesJson(items + [x]);
        "[" + Join(",", parts + [item]) + "]";
        "[" + (Join(",", parts) + "," + item) + "]";
      }
    }
  }

  // ---------------------------------------------------------------------------------------
  // One object per entry: counting the opening braces
  // ---------------------------------------------------------------------------------------

  function CountChar(c: char, s: string): nat {
    if s == [] then 0 else (if s[0] == c then 1 else 0) + CountChar(c, s[1..])
  }

  lemma {:induction false} CountCharAppend(c: char, s: string, t: string)
    ensures CountChar(c, s + t) == CountChar(c, s) + CountChar(c, t)
  {
    if s == [] {
      assert s + t == t;
    } else {
      assert (s + t)[1..] == s[1..] + t;
      CountCharAppend(c, s[1..], t);
    }
  }

  lemma {:induction false} CountCharAbsent(c: char, s: string)
    requires c !in s
    ensures CountChar(c, s) == 0
  {
    if s != [] {
      CountCharAbsent(c, s[1..]);
    }
  }

  /** Joining parts that each hold one `c`, with a separator holding none, gives one per part. */
  lemma {:induction false} JoinCountsParts(c: char, sep: string, parts: seq<string>)
    requires c !in sep
    requires forall i :: 0 <= i < |parts| ==> CountChar(c, parts[i]) == 1
    ensures CountChar(c, Join(sep, parts)) == |parts|
  {
    if |parts| > 1 {
      JoinCountsParts(c, sep, parts[1..]);
      CountCharAbsent(c, sep);
      CountCharAppend(c, parts[0] + sep, Join(sep, parts[1..]));
      CountCharAppend(c, parts[0], sep);
    }
  }

  const StrategyHead: string := "{\"strategy\":\""
  const StrategyMid: string := "\",\"multiplier\":\""
  const ItemTail: string := "\"}"

  lemma CountCharAppend5(c: char, s1: string, s2: string, s3: string, s4: string, s5: string)
    ensures CountChar(c, s1 + s2 + s3 + s4 + s5) ==
      CountChar(c, s1) + CountChar(c, s2) + CountChar(c, s3) + CountChar(c, s4) + CountChar(c, s5)
  {
    CountCharAppend(c, s1, s2);
    CountCharAppend(c, s1 + s2, s3);
    CountCharAppend(c, s1 + s2 + s3, s4);
    CountCharAppend(c, s1 + s2 + s3 + s4, s5);
  }

  lemma StrategyHeadHasOneBrace()
    ensures CountChar('{', StrategyHead) == 1
  {
    assert StrategyHead[1..] == "\"strategy\":\"";
    CountCharAbsent('{', StrategyHead[1..]);
  }

  lemma StrategyMidHasNoBrace()
    ensures CountChar('{', StrategyMid) == 0
  {
    CountCharAbsent('{', StrategyMid);
  }

  lemma ItemTailHasNoBrace()
    ensures CountChar('{', ItemTail) == 0
  {
    CountCharAbsent('{', ItemTail);
  }

  lemma StrategyItemHasOneBrace(sm: StrategyAndMultiplier)
    requires '{' !in sm.strategy
    ensures CountChar('{', StrategyItem(sm)) == 1
  {
    var digits := NatToString(sm.multiplier);
    var item := StrategyHead + sm.strategy + StrategyMid + digits + ItemTail;
    assert StrategyItem(sm) == item;
    assert CountChar('{', item) == 1 by {
      CountCharAppend5('{', StrategyHead, sm.strategy, StrategyMid, digits, ItemTail);
      StrategyHeadHasOneBrace();
      StrategyMidHasNoBrace();
      ItemTailHasNoBrace();
      assert CountChar('{', sm.strategy) == 0 by {
        CountCharAbsent('{', sm.strategy);
      }
      assert CountChar('{', digits) == 0 by {
        assert forall i :: 0 <= i < |digits| ==> IsDigit(digits[i]);
        CountCharAbsent('{', digits);
      }
    }
  }

  /**
   * The encoding has exactly one object per entry: with strategy addresses free of `{`, the
   * number of `{` in `strategiesAndMultipliers` is the number of entries.
   */
  lemma StrategiesJsonObjectCount(items: seq<StrategyAndMultiplier>)
    requires forall i :: 0 <= i < |items| ==> '{' !in items[i].strategy
    ensures CountChar('{', StrategiesJson(items)) == |items|
  {
    var parts := StrategyItems(items);
    forall i | 0 <= i < |parts|
      ensures CountChar('{', parts[i]) == 1
    {
      StrategyItemHasOneBrace(items[i]);
    }
    JoinCountsParts('{', ",", parts);
    CountCharAppend('{', "[" + Join(",", parts), "]");
    CountCharAppend('{', "[", Join(",", parts));
  }
}
