/** `TransactionQuerySet`: the type filters and the two totals the views use. A
    queryset is the sequence of rows it yields. */
module Managers {
  import opened Wrappers
  import opened Models
  import opened Aggregates

  /** `self.filter(type=...)`: the rows of one type, in queryset order. Each row
      occurs as often as in the input if it has that type and not at all otherwise. */
  function OfType(qs: seq<Transaction>, ty: TxType): (r: seq<Transaction>)
    ensures forall t :: multiset(r)[t] == if t.txType == ty then multiset(qs)[t] else 0
    ensures forall t :: t in r <==> t in qs && t.txType == ty
  {
    if qs == [] then []
    else
      var rest := OfType(qs[1..], ty);
      assert qs == [qs[0]] + qs[1..];
      assert multiset(qs) == multiset{qs[0]} + multiset(qs[1..]);
      if qs[0].txType == ty then [qs[0]] + rest else rest
  }

  /** Filtering keeps the default newest-first order. */
  lemma {:induction false} OfTypeKeepsOrder(qs: seq<Transaction>, ty: TxType)
    requires DateDescending(qs)
    ensures DateDescending(OfType(qs, ty))
  {
    if qs != [] {
      HeadIsNewest(qs);
      OfTypeKeepsOrder(qs[1..], ty);
      if qs[0].txType == ty {
        ConsDescending(qs[0], OfType(qs[1..], ty));
      }
    }
  }

  /** `get_expenses`. */
  function GetExpenses(qs: seq<Transaction>): seq<Transaction> {
    OfType(qs, Expense)
  }

  /** `get_income`. */
  function GetIncome(qs: seq<Transaction>): seq<Transaction> {
    OfType(qs, Income)
  }

  /** `get_total_expenses`: the expense sum, 0 (never missing) without expenses. */
  function GetTotalExpenses(qs: seq<Transaction>): (r: Cents)
    ensures r == SumWhere(qs, Expense)
  {
    OfTypeSum(qs, Expense);
    RawSum(GetExpenses(qs)).GetOr(0)
  }

  /** `get_total_income`: the income sum, 0 (never missing) without income. */
  function GetTotalIncome(qs: seq<Transaction>): (r: Cents)
    ensures r == SumWhere(qs, Income)
  {
    OfTypeSum(qs, Income);
    RawSum(GetIncome(qs)).GetOr(0)
  }

  /** The total the tests compute themselves: `sum(t.amount_in_usd for t in
      transactions if t.type == ty)`. */
  function SumWhere(qs: seq<Transaction>, ty: TxType): Cents {
    if qs == [] then 0
    else (if qs[0].txType == ty then qs[0].amountInUsd else 0) + SumWhere(qs[1..], ty)
  }

  lemma {:induction false} OfTypeSum(qs: seq<Transaction>, ty: TxType)
    ensures SumUsd(OfType(qs, ty)) == SumWhere(qs, ty)
  {
    if qs != [] {
      OfTypeSum(qs[1..], ty);
      if qs[0].txType == ty {
        assert ([qs[0]] + OfType(qs[1..], ty))[1..] == OfType(qs[1..], ty);
      }
    }
  }

  lemma {:induction false} SumWhereAbsent(qs: seq<Transaction>, ty: TxType)
    requires forall t :: t in qs ==> t.txType != ty
    ensures SumWhere(qs, ty) == 0
  {
    if qs != [] {
      assert qs[0] in qs;
      SumWhereAbsent(qs[1..], ty);
    }
  }

  /** Both totals equal the sums the tests expect, and both are 0 when no row has
      the type. */
  lemma TotalsMatchReference(qs: seq<Transaction>)
    ensures GetTotalExpenses(qs) == SumWhere(qs, Expense)
    ensures GetTotalIncome(qs) == SumWhere(qs, Income)
    ensures (forall t :: t in qs ==> t.txType != Expense) ==> GetTotalExpenses(qs) == 0
    ensures (forall t :: t in qs ==> t.txType != Income) ==> GetTotalIncome(qs) == 0
  {
    if forall t :: t in qs ==> t.txType != Expense {
      SumWhereAbsent(qs, Expense);
    }
    if forall t :: t in qs ==> t.txType != Income {
      SumWhereAbsent(qs, Income);
    }
  }

  /** Every row is income or an expense, never both: the two subsets are disjoint
      and together they are the whole queryset, so the totals add up to its sum. */
  lemma IncomeAndExpensesPartition(qs: seq<Transaction>)
    ensures multiset(GetIncome(qs)) + multiset(GetExpenses(qs)) == multiset(qs)
    ensures multiset(GetIncome(qs)) * multiset(GetExpenses(qs)) == multiset{}
    ensures GetTotalIncome(qs) + GetTotalExpenses(qs) == SumUsd(qs)
  {
    TypeSubsetsCover(qs);
    TypeSubsetsDisjoint(qs);
    TotalsMatchReference(qs);
    SumWhereSplits(qs);
  }

  lemma TypeSubsetsCover(qs: seq<Transaction>)
    ensures multiset(GetIncome(qs)) + multiset(GetExpenses(qs)) == multiset(qs)
  {
    var i, e := multiset(GetIncome(qs)), multiset(GetExpenses(qs));
    forall t ensures (i + e)[t] == multiset(qs)[t] {
    }
  }

  lemma TypeSubsetsDisjoint(qs: seq<Transaction>)
    ensures multiset(GetIncome(qs)) * multiset(GetExpenses(qs)) == multiset{}
  {
    var i, e := multiset(GetIncome(qs)), multiset(GetExpenses(qs));
    forall t ensures (i * e)[t] == 0 {
      assert i[t] == 0 || e[t] == 0;
    }
  }

  lemma {:induction false} SumWhereSplits(qs: seq<Transaction>)
    ensures SumWhere(qs, Income) + SumWhere(qs, Expense) == SumUsd(qs)
  {
    if qs != [] {
      SumWhereSplits(qs[1..]);
    }
  }
}
