/** What the database computes for the aggregate queries the finance tracker
    issues: `Sum('amount_in_usd')` over a set of rows (SQL `SUM`, which is NULL over
    no rows) and `.values(key).order_by(key).annotate(sum=Sum(...))`, one row per
    distinct key in ascending key order with the sum of that key's amounts. */
module Aggregates {
  import opened Wrappers
  import opened Models

  /** The exact total of `amount_in_usd` over the rows. */
  function SumUsd(qs: seq<Transaction>): Cents {
    if qs == [] then 0 else qs[0].amountInUsd + SumUsd(qs[1..])
  }

  /** `aggregate(Sum('amount_in_usd'))`: SQL `SUM` is NULL over no rows and the
      exact total otherwise. */
  function RawSum(qs: seq<Transaction>): (r: Option<Cents>)
    ensures r.None? <==> |qs| == 0
    ensures r.Some? ==> r.value == SumUsd(qs)
  {
    if qs == [] then None else Some(SumUsd(qs))
  }

  /** `aggregate(...)['total'] or 0`: the total, with the missing sum read as 0. */
  lemma RawSumOrZero(qs: seq<Transaction>)
    ensures RawSum(qs).GetOr(0) == SumUsd(qs)
  {
  }

  /** A grouped row: a key (a category id or a date) and the summed amount. */
  type Group = (int, Cents)

  predicate StrictlyAscending(g: seq<Group>) {
    forall i, j :: 0 <= i < j < |g| ==> g[i].0 < g[j].0
  }

  /** The keys that occur among the pairs. */
  function Keys(ps: seq<Group>): set<int> {
    set i | 0 <= i < |ps| :: ps[i].0
  }

  /** The reference total of the amounts whose key is `k`. */
  function KeySum(ps: seq<Group>, k: int): Cents {
    if ps == [] then 0 else (if ps[0].0 == k then ps[0].1 else 0) + KeySum(ps[1..], k)
  }

  /** The amount a grouped result shows for key `k`, or 0 if `k` has no row. */
  function GroupValue(g: seq<Group>, k: int): Cents {
    if g == [] then 0 else if g[0].0 == k then g[0].1 else GroupValue(g[1..], k)
  }

  lemma {:induction false} KeysOfCons(p: Group, ps: seq<Group>)
    ensures Keys([p] + ps) == {p.0} + Keys(ps)
  {
    var s := [p] + ps;
    forall k | k in Keys(s) ensures k in {p.0} + Keys(ps) {
      var i :| 0 <= i < |s| && s[i].0 == k;
      if i > 0 { assert ps[i - 1].0 == k; }
    }
    forall k | k in Keys(ps) ensures k in Keys(s) {
      var i :| 0 <= i < |ps| && ps[i].0 == k;
      assert s[i + 1].0 == k;
    }
    assert s[0].0 == p.0;
  }

  /** Adds one amount to its key's row, inserting the row in key order if new. */
  function AddTo(g: seq<Group>, k: int, a: Cents): (r: seq<Group>)
    requires StrictlyAscending(g)
    ensures StrictlyAscending(r)
    ensures Keys(r) == Keys(g) + {k}
    ensures forall j :: GroupValue(r, j) == GroupValue(g, j) + (if j == k then a else 0)
    ensures |r| >= 1 && (r[0].0 == k || (g != [] && r[0].0 == g[0].0))
  {
    if g == [] then
      KeysOfCons((k, a), []);
      assert Keys([]) == {};
      [(k, a)]
    else if g[0].0 == k then
      var r := [(k, g[0].1 + a)] + g[1..];
      assert g == [g[0]] + g[1..];
      KeysOfCons(g[0], g[1..]);
      KeysOfCons((k, g[0].1 + a), g[1..]);
      r
    else if k < g[0].0 then
      var r := [(k, a)] + g;
      KeysOfCons((k, a), g);
      assert forall j :: j != k ==> GroupValue(r, j) == GroupValue(g, j);
      AbsentKeyHasNoValue(g, k);
      r
    else
      var rest := AddTo(g[1..], k, a);
      var r := [g[0]] + rest;
      assert g == [g[0]] + g[1..];
      KeysOfCons(g[0], g[1..]);
      KeysOfCons(g[0], rest);
      assert r[1..] == rest;
      assert forall j :: GroupValue(r, j) == if j == g[0].0 then g[0].1 else GroupValue(rest, j);
      r
  }

  /** In a key-ordered result, a key below the first key has no row. */
  lemma {:induction false} AbsentKeyHasNoValue(g: seq<Group>, k: int)
    requires StrictlyAscending(g) && (g == [] || k < g[0].0)
    ensures GroupValue(g, k) == 0
  {
    if g != [] {
      if |g| > 1 { assert g[0].0 < g[1].0; }
      AbsentKeyHasNoValue(g[1..], k);
    }
  }

  /** The value a key-ordered result shows for one of its keys is that row's sum. */
  lemma {:induction false} GroupValueAt(g: seq<Group>, i: int)
    requires StrictlyAscending(g) && 0 <= i < |g|
    ensures GroupValue(g, g[i].0) == g[i].1
  {
    if i > 0 {
      assert g[0].0 < g[i].0;
      assert g[1..][i - 1] == g[i];
      GroupValueAt(g[1..], i - 1);
    }
  }

  /** `.values(key).order_by(key).annotate(sum=Sum(amount))`: one row per key that
      occurs, in ascending key order, holding the total of that key's amounts. */
  function GroupSums(ps: seq<Group>): (r: seq<Group>)
    ensures StrictlyAscending(r)
    ensures Keys(r) == Keys(ps)
    ensures forall k :: GroupValue(r, k) == KeySum(ps, k)
  {
    if ps == [] then []
    else
      var r := AddTo(GroupSums(ps[1..]), ps[0].0, ps[0].1);
      assert ps == [ps[0]] + ps[1..];
      KeysOfCons(ps[0], ps[1..]);
      r
  }

  /** Every grouped row carries the reference total of its key. */
  lemma GroupSumsRows(ps: seq<Group>)
    ensures forall i :: 0 <= i < |GroupSums(ps)| ==> GroupSums(ps)[i].1 == KeySum(ps, GroupSums(ps)[i].0)
  {
    var g := GroupSums(ps);
    forall i | 0 <= i < |g| ensures g[i].1 == KeySum(ps, g[i].0) {
      GroupValueAt(g, i);
    }
  }

  /** The rows of a grouping query before grouping: each row's key (its category id
      or its date) with its `amount_in_usd`. */
  function Project(qs: seq<Transaction>, key: Transaction -> int): (r: seq<Group>)
    ensures |r| == |qs|
    ensures forall i :: 0 <= i < |qs| ==> r[i] == (key(qs[i]), qs[i].amountInUsd)
  {
    seq(|qs|, i requires 0 <= i < |qs| => (key(qs[i]), qs[i].amountInUsd))
  }

  /** The total of the amounts of grouped rows. */
  function ValuesSum(g: seq<Group>): Cents {
    if g == [] then 0 else g[0].1 + ValuesSum(g[1..])
  }

  lemma {:induction false} ProjectTotal(qs: seq<Transaction>, key: Transaction -> int)
    ensures ValuesSum(Project(qs, key)) == SumUsd(qs)
  {
    if qs != [] {
      assert Project(qs, key)[1..] == Project(qs[1..], key);
      ProjectTotal(qs[1..], key);
    }
  }

  lemma ValuesSumCons(p: Group, g: seq<Group>)
    ensures ValuesSum([p] + g) == p.1 + ValuesSum(g)
  {
    assert ([p] + g)[1..] == g;
  }

  /** Adding an amount to a grouped result adds it to the overall total. */
  lemma {:induction false} AddToTotal(g: seq<Group>, k: int, a: Cents)
    requires StrictlyAscending(g)
    ensures ValuesSum(AddTo(g, k, a)) == ValuesSum(g) + a
  {
    if g == [] {
      ValuesSumCons((k, a), []);
    } else if g[0].0 == k {
      ValuesSumCons((k, g[0].1 + a), g[1..]);
    } else if k < g[0].0 {
      ValuesSumCons((k, a), g);
    } else {
      AddToTotal(g[1..], k, a);
      ValuesSumCons(g[0], AddTo(g[1..], k, a));
    }
  }

  /** Grouping neither loses nor invents money: the grouped sums add up to the
      total of all the amounts. */
  lemma {:induction false} GroupSumsTotal(ps: seq<Group>)
    ensures ValuesSum(GroupSums(ps)) == ValuesSum(ps)
  {
    if ps != [] {
      GroupSumsTotal(ps[1..]);
      AddToTotal(GroupSums(ps[1..]), ps[0].0, ps[0].1);
    }
  }
}
