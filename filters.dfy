/** `TransactionFilter`: the user's criteria for the transaction lists, as a
    predicate over rows and the filtering it induces. The criteria arrive already
    cleaned; an absent criterion does not filter. */
module Filters {
  import opened Wrappers
  import opened Text
  import opened Models

  /** The cleaned criteria: `transaction_type` (a choice of the type field, or
      `None` for the empty "Any" choice, compared with `iexact`), `start_date`
      (`gte`), `end_date` (`lte`) and the selected `category` ids. */
  datatype TransactionFilter = TransactionFilter(
    transactionType: Option<TxType>,
    startDate: Option<Date>,
    endDate: Option<Date>,
    categories: set<CategoryId>)

  /** SQL `iexact`: equal once both sides are lower-cased. */
  predicate IExact(a: string, b: string) {
    Lower(a) == Lower(b)
  }

  predicate TypeCriterion(value: Option<TxType>, t: Transaction) {
    value.None? || IExact(TypeName(t.txType), TypeName(value.value))
  }

  predicate StartCriterion(start: Option<Date>, t: Transaction) {
    start.None? || t.date >= start.value
  }

  predicate EndCriterion(end: Option<Date>, t: Transaction) {
    end.None? || t.date <= end.value
  }

  predicate CategoryCriterion(categories: set<CategoryId>, t: Transaction) {
    categories == {} || t.category in categories
  }

  /** A row passes the filter when it meets every supplied criterion. */
  predicate Matches(f: TransactionFilter, t: Transaction) {
    && TypeCriterion(f.transactionType, t)
    && StartCriterion(f.startDate, t)
    && EndCriterion(f.endDate, t)
    && CategoryCriterion(f.categories, t)
  }

  /** The stored values of the two types stay distinct when compared without
      regard to case, so the `iexact` comparison selects exactly the rows of the
      chosen type. */
  lemma TypeCriterionSelectsType(ty: TxType, t: Transaction)
    ensures TypeCriterion(Some(ty), t) <==> t.txType == ty
  {
    LowerOfLowerCase(TypeName(t.txType));
    LowerOfLowerCase(TypeName(ty));
    if t.txType != ty {
      assert TypeName(t.txType)[0] != TypeName(ty)[0];
    }
  }

  /** The date criteria are inclusive at both ends: a row dated on the start or the
      end date itself is kept. */
  lemma DateBoundsAreInclusive(f: TransactionFilter, t: Transaction)
    requires f.startDate.Some? && f.endDate.Some?
    requires t.date == f.startDate.value || t.date == f.endDate.value
    requires f.startDate.value <= f.endDate.value
    ensures StartCriterion(f.startDate, t) && EndCriterion(f.endDate, t)
  {
  }

  /** `filter.qs`: the rows of the queryset that pass, in queryset order. */
  function Apply(f: TransactionFilter, qs: seq<Transaction>): (r: seq<Transaction>)
    ensures forall t :: multiset(r)[t] == if Matches(f, t) then multiset(qs)[t] else 0
    ensures forall t :: t in r <==> t in qs && Matches(f, t)
  {
    if qs == [] then []
    else
      var rest := Apply(f, qs[1..]);
      assert qs == [qs[0]] + qs[1..];
      assert multiset(qs) == multiset{qs[0]} + multiset(qs[1..]);
      if Matches(f, qs[0]) then [qs[0]] + rest else rest
  }

  /** Filtering keeps the default newest-first order. */
  lemma {:induction false} ApplyKeepsOrder(f: TransactionFilter, qs: seq<Transaction>)
    requires DateDescending(qs)
    ensures DateDescending(Apply(f, qs))
  {
    if qs != [] {
      HeadIsNewest(qs);
      ApplyKeepsOrder(f, qs[1..]);
      if Matches(f, qs[0]) {
        ConsDescending(qs[0], Apply(f, qs[1..]));
      }
    }
  }

  /** The empty filter keeps every row. */
  lemma {:induction false} EmptyFilterKeepsAll(qs: seq<Transaction>)
    ensures Apply(TransactionFilter(None, None, None, {}), qs) == qs
  {
    if qs != [] {
      EmptyFilterKeepsAll(qs[1..]);
      assert qs == [qs[0]] + qs[1..];
    }
  }
}
