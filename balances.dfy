/** A table of account balances in which an account that was never recorded
    holds 0, together with the sum of all balances and how crediting and
    debiting one account moves that sum. */
module Balances {

  /** The balance of `k`, 0 when `k` has no entry. */
  function BalanceOf<K>(m: map<K, nat>, k: K): nat
  {
    if k in m then m[k] else 0
  }

  /** The sum of every recorded balance. */
  ghost function Sum<K>(m: map<K, nat>): nat
    decreases |m|
  {
    if m == map[] then 0
    else
      var k :| k in m;
      assert |(m - {k}).Keys| == |m.Keys - {k}| == |m.Keys| - 1;
      m[k] + Sum(m - {k})
  }

  /** Any one entry can be split off the sum, not only the one Sum picks. */
  lemma {:induction false} SumRemove<K>(m: map<K, nat>, k: K)
    requires k in m
    ensures Sum(m) == m[k] + Sum(m - {k})
    decreases |m|
  {
    var j :| j in m && Sum(m) == m[j] + Sum(m - {j});
    if j != k {
      assert |(m - {j}).Keys| == |m.Keys - {j}| == |m.Keys| - 1;
      assert |(m - {k}).Keys| == |m.Keys - {k}| == |m.Keys| - 1;
      SumRemove(m - {j}, k);
      SumRemove(m - {k}, j);
      assert m - {j} - {k} == m - {k} - {j};
    }
  }

  /** Overwriting one balance moves the sum by exactly the difference. */
  lemma SumUpdate<K>(m: map<K, nat>, k: K, v: nat)
    ensures Sum(m[k := v]) + BalanceOf(m, k) == Sum(m) + v
  {
    SumRemove(m[k := v], k);
    if k in m {
      SumRemove(m, k);
      assert m[k := v] - {k} == m - {k};
    } else {
      assert m[k := v] - {k} == m;
    }
  }

  /** No single balance exceeds the sum of all balances. */
  lemma {:induction false} BalanceAtMostSum<K>(m: map<K, nat>, k: K)
    ensures BalanceOf(m, k) <= Sum(m)
  {
    if k in m {
      SumRemove(m, k);
    }
  }

  /** Two different accounts together hold no more than the sum. */
  lemma {:induction false} TwoBalancesAtMostSum<K>(m: map<K, nat>, j: K, k: K)
    requires j != k
    ensures BalanceOf(m, j) + BalanceOf(m, k) <= Sum(m)
  {
    if j in m {
      SumRemove(m, j);
      BalanceAtMostSum(m - {j}, k);
      assert BalanceOf(m - {j}, k) == BalanceOf(m, k);
    } else {
      BalanceAtMostSum(m, k);
    }
  }

  /** `m` with `amount` added to the balance of `k`. */
  function Credit<K(!new)>(m: map<K, nat>, k: K, amount: nat): (r: map<K, nat>)
    ensures BalanceOf(r, k) == BalanceOf(m, k) + amount
    ensures forall j :: j != k ==> BalanceOf(r, j) == BalanceOf(m, j)
    ensures Sum(r) == Sum(m) + amount
  {
    SumUpdate(m, k, BalanceOf(m, k) + amount);
    m[k := BalanceOf(m, k) + amount]
  }

  /** `m` with `amount` taken from the balance of `k`, which must cover it. */
  function Debit<K(!new)>(m: map<K, nat>, k: K, amount: nat): (r: map<K, nat>)
    requires amount <= BalanceOf(m, k)
    ensures BalanceOf(r, k) == BalanceOf(m, k) - amount
    ensures forall j :: j != k ==> BalanceOf(r, j) == BalanceOf(m, j)
    ensures Sum(r) + amount == Sum(m)
  {
    SumUpdate(m, k, BalanceOf(m, k) - amount);
    m[k := BalanceOf(m, k) - amount]
  }
}
