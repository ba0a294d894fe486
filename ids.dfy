/**
 * Identity construction: the decimal rendering of integers (`BigInt.toString()`) and the
 * composite identifiers built from it with the fixed delimiter "-":
 *   - event records:  "<txHash>-<logIndex>"
 *   - operator sets:  "<avs>-<operatorSetIndex>"
 *   - relationship rows (delegation, membership, AVS registration): "<a>-<b>-<timestamp>"
 */
module Ids {

  /** `Address.zero()` rendered as a hex string. */
  const ZeroAddress: string := "0x0000000000000000000000000000000000000000"

  /** The delimiter between the parts of a composite id. */
  const Dash: char := '-'

  predicate IsDigit(c: char) {
    '0' <= c <= '9'
  }

  predicate AllDigits(s: string) {
    forall i :: 0 <= i < |s| ==> IsDigit(s[i])
  }

  function DigitChar(d: nat): (c: char)
    requires d < 10
    ensures IsDigit(c)
  {
    (('0' as int) + d) as char
  }

  function DigitValue(c: char): (d: nat)
    requires IsDigit(c)
    ensures d < 10 && DigitChar(d) == c
  {
    (c as int) - ('0' as int)
  }

  /** Decimal rendering of a non-negative integer, most significant digit first. */
  function NatToString(n: nat): (s: string)
    ensures |s| > 0 && AllDigits(s)
    ensures Dash !in s
    decreases n
  {
    if n < 10 then [DigitChar(n)] else NatToString(n / 10) + [DigitChar(n % 10)]
  }

  /** Reads back a decimal rendering; the inverse of NatToString. */
  function ParseNat(s: string): nat
    requires AllDigits(s)
  {
    if s == [] then 0 else ParseNat(s[..|s| - 1]) * 10 + DigitValue(s[|s| - 1])
  }

  lemma {:induction false} ParseNatToString(n: nat)
    ensures ParseNat(NatToString(n)) == n
  {
    if n >= 10 {
      var s := NatToString(n);
      assert s[..|s| - 1] == NatToString(n / 10);
      ParseNatToString(n / 10);
    }
  }

  /** Different integers render differently. */
  lemma NatToStringInjective(m: nat, n: nat)
    requires NatToString(m) == NatToString(n)
    ensures m == n
  {
    ParseNatToString(m);
    ParseNatToString(n);
  }

  /** Position of the last delimiter in `s`, or -1 when there is none. */
  function LastDash(s: string): (k: int)
    ensures -1 <= k < |s|
    ensures k >= 0 ==> s[k] == Dash
    ensures forall j :: k < j < |s| ==> s[j] != Dash
  {
    if s == [] then -1
    else if s[|s| - 1] == Dash then |s| - 1
    else LastDash(s[..|s| - 1])
  }

  /** `prefix + "-" + n` splits back into `prefix` and `n` at its last delimiter. */
  lemma LastDashOfSuffix(prefix: string, n: nat)
    ensures LastDash(prefix + [Dash] + NatToString(n)) == |prefix|
  {
    var s := prefix + [Dash] + NatToString(n);
    var k := LastDash(s);
    assert s[|prefix|] == Dash;
  }

  /** A composite id ending in a rendered integer determines both of its parts. */
  lemma SuffixedInjective(p1: string, n1: nat, p2: string, n2: nat)
    requires p1 + [Dash] + NatToString(n1) == p2 + [Dash] + NatToString(n2)
    ensures p1 == p2 && n1 == n2
  {
    var s := p1 + [Dash] + NatToString(n1);
    LastDashOfSuffix(p1, n1);
    LastDashOfSuffix(p2, n2);
    assert p1 == s[..|p1|] == p2;
    assert NatToString(n1) == s[|p1| + 1..] == NatToString(n2);
    NatToStringInjective(n1, n2);
  }

  /** `txHash.toHexString() + "-" + logIndex.toString()`, the key of every event record. */
  function EventId(txHash: string, logIndex: nat): string {
    txHash + [Dash] + NatToString(logIndex)
  }

  /** `avs.toHexString() + "-" + operatorSet.id.toString()`. */
  function OperatorSetId(avs: string, operatorSetIndex: nat): string {
    avs + [Dash] + NatToString(operatorSetIndex)
  }

  /** `a + "-" + b + "-" + timestamp.toString()`, the key of relationship rows. */
  function RowId(a: string, b: string, timestamp: nat): string {
    a + [Dash] + b + [Dash] + NatToString(timestamp)
  }

  /** Distinct (txHash, logIndex) positions give distinct record ids. */
  lemma EventIdInjective(tx1: string, log1: nat, tx2: string, log2: nat)
    requires EventId(tx1, log1) == EventId(tx2, log2)
    ensures tx1 == tx2 && log1 == log2
  {
    SuffixedInjective(tx1, log1, tx2, log2);
  }

  /** An operator set id determines its AVS and its index. */
  lemma OperatorSetIdInjective(avs1: string, i1: nat, avs2: string, i2: nat)
    requires OperatorSetId(avs1, i1) == OperatorSetId(avs2, i2)
    ensures avs1 == avs2 && i1 == i2
  {
    SuffixedInjective(avs1, i1, avs2, i2);
  }

  /** A row id determines its timestamp and the "<a>-<b>" part before it. */
  lemma RowIdDeterminesTimestamp(a1: string, b1: string, t1: nat, a2: string, b2: string, t2: nat)
    requires RowId(a1, b1, t1) == RowId(a2, b2, t2)
    ensures t1 == t2 && a1 + [Dash] + b1 == a2 + [Dash] + b2
  {
    assert RowId(a1, b1, t1) == (a1 + [Dash] + b1) + [Dash] + NatToString(t1);
    assert RowId(a2, b2, t2) == (a2 + [Dash] + b2) + [Dash] + NatToString(t2);
    SuffixedInjective(a1 + [Dash] + b1, t1, a2 + [Dash] + b2, t2);
  }
}
