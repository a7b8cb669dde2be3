/** The logic of the finance tracker's views and of the blog views that change a
    post: the totals and net income of the transaction lists, the statistics of
    the last thirty days, creating and updating a transaction, the like and
    bookmark toggles and the view counter. Requests, rendering and redirects are
    not part of this model: each view receives the rows, the requesting user and
    the submitted values, and returns what it would store or show. */
module Views {
  import opened Wrappers
  import opened Models
  import opened Aggregates
  import opened Managers
  import opened Filters
  import opened Utils
  import opened Forms

  // ---------------------------------------------------------------------------
  // Totals and net income

  /** `Transaction.objects.filter(user=...)`: the user's rows, in queryset order. */
  function OwnedBy(qs: seq<Transaction>, user: UserId): (r: seq<Transaction>)
    ensures forall t :: multiset(r)[t] == if t.user == user then multiset(qs)[t] else 0
    ensures forall t :: t in r <==> t in qs && t.user == user
  {
    if qs == [] then []
    else
      var rest := OwnedBy(qs[1..], user);
      assert qs == [qs[0]] + qs[1..];
      assert multiset(qs) == multiset{qs[0]} + multiset(qs[1..]);
      if qs[0].user == user then [qs[0]] + rest else rest
  }

  /** `total_income - total_expenses`. */
  function NetIncome(qs: seq<Transaction>): Cents {
    GetTotalIncome(qs) - GetTotalExpenses(qs)
  }

  /** A row's contribution to the balance: income counts up, an expense down. */
  function Signed(t: Transaction): Cents {
    if t.txType == Income then t.amountInUsd else -t.amountInUsd
  }

  function SignedSum(qs: seq<Transaction>): Cents {
    if qs == [] then 0 else Signed(qs[0]) + SignedSum(qs[1..])
  }

  lemma {:induction false} SignedSumSplits(qs: seq<Transaction>)
    ensures SignedSum(qs) == SumWhere(qs, Income) - SumWhere(qs, Expense)
  {
    if qs != [] {
      SignedSumSplits(qs[1..]);
    }
  }

  /** The net income is the balance of the rows: every income row added, every
      expense row subtracted, each exactly once. */
  lemma NetIncomeIsBalance(qs: seq<Transaction>)
    ensures NetIncome(qs) == SignedSum(qs)
  {
    TotalsMatchReference(qs);
    SignedSumSplits(qs);
  }

  /** The three figures a transaction list shows. */
  datatype Totals = Totals(income: Cents, expenses: Cents, net: Cents)

  /** The totals of a queryset: each total is the plain sum of its rows and the net
      income is their difference. */
  function TotalsOf(qs: seq<Transaction>): (r: Totals)
    ensures r.income == SumWhere(qs, Income) && r.expenses == SumWhere(qs, Expense)
    ensures r.net == r.income - r.expenses
  {
    TotalsMatchReference(qs);
    Totals(GetTotalIncome(qs), GetTotalExpenses(qs), NetIncome(qs))
  }

  /** `transactions_list`: the totals of the user's rows that pass the filter. */
  function TransactionsList(qs: seq<Transaction>, user: UserId, f: TransactionFilter): (r: Totals)
    ensures var rows := Apply(f, OwnedBy(qs, user));
      r.income == SumWhere(rows, Income) && r.expenses == SumWhere(rows, Expense)
    ensures r.net == r.income - r.expenses
  {
    TotalsOf(Apply(f, OwnedBy(qs, user)))
  }

  /** `expense_tracker`: the totals of all the user's rows and of the filtered ones.
      The page shows no net income for the filtered rows; that component of the
      second triple is not displayed. */
  function ExpenseTracker(qs: seq<Transaction>, user: UserId, f: TransactionFilter): (r: (Totals, Totals))
    ensures var rows := OwnedBy(qs, user);
      r.0.income == SumWhere(rows, Income) && r.0.expenses == SumWhere(rows, Expense)
    ensures var rows := Apply(f, OwnedBy(qs, user));
      r.1.income == SumWhere(rows, Income) && r.1.expenses == SumWhere(rows, Expense)
    ensures r.0.net == r.0.income - r.0.expenses && r.1.net == r.1.income - r.1.expenses
  {
    (TotalsOf(OwnedBy(qs, user)), TotalsOf(Apply(f, OwnedBy(qs, user))))
  }

  /** Rows of other users never reach a list. */
  lemma {:induction false} OtherUsersAreIgnored(qs: seq<Transaction>, t: Transaction, user: UserId)
    requires t.user != user
    ensures OwnedBy(qs + [t], user) == OwnedBy(qs, user)
  {
    if qs == [] {
      assert qs + [t] == [t];
      assert [t][1..] == [];
    } else {
      assert (qs + [t])[1..] == qs[1..] + [t];
      OtherUsersAreIgnored(qs[1..], t, user);
    }
  }

  /** With no criterion supplied, the filtered figures of the expense tracker are
      its overall figures and those of the transaction list. */
  lemma EmptyFilterShowsAll(qs: seq<Transaction>, user: UserId)
    ensures var f := TransactionFilter(None, None, None, {});
      ExpenseTracker(qs, user, f).1 == ExpenseTracker(qs, user, f).0 == TransactionsList(qs, user, f)
  {
    EmptyFilterKeepsAll(OwnedBy(qs, user));
  }

  lemma {:induction false} FilteredSumBounded(f: TransactionFilter, qs: seq<Transaction>, ty: TxType)
    requires forall t :: t in qs ==> t.amountInUsd >= 0
    ensures 0 <= SumWhere(Apply(f, qs), ty) <= SumWhere(qs, ty)
  {
    if qs != [] {
      assert forall t :: t in qs[1..] ==> t in qs;
      FilteredSumBounded(f, qs[1..], ty);
      var rest := Apply(f, qs[1..]);
      if Matches(f, qs[0]) {
        assert ([qs[0]] + rest)[1..] == rest;
      }
    }
  }

  /** Stored converted amounts are never negative (a positive amount at a
      non-negative rate), so a filter can only lower the totals. */
  lemma FilteredTotalsWithinTotals(qs: seq<Transaction>, user: UserId, f: TransactionFilter)
    requires forall t :: t in qs ==> t.amountInUsd >= 0
    ensures var (all, filtered) := ExpenseTracker(qs, user, f);
      0 <= filtered.income <= all.income && 0 <= filtered.expenses <= all.expenses
  {
    FilteredSumBounded(f, OwnedBy(qs, user), Income);
    FilteredSumBounded(f, OwnedBy(qs, user), Expense);
  }

  // ---------------------------------------------------------------------------
  // Statistics of the last thirty days

  /** `date__gt=today - 30 days, type=..., user=...`. */
  predicate InWindow(t: Transaction, user: UserId, today: Date, ty: TxType) {
    t.user == user && t.txType == ty && t.date > today - 30
  }

  /** The user's rows of one type dated within the window, in queryset order. */
  function WindowRows(qs: seq<Transaction>, user: UserId, today: Date, ty: TxType): (r: seq<Transaction>)
    ensures forall t :: multiset(r)[t] == if InWindow(t, user, today, ty) then multiset(qs)[t] else 0
    ensures forall t :: t in r <==> t in qs && InWindow(t, user, today, ty)
  {
    if qs == [] then []
    else
      var rest := WindowRows(qs[1..], user, today, ty);
      assert qs == [qs[0]] + qs[1..];
      assert multiset(qs) == multiset{qs[0]} + multiset(qs[1..]);
      if InWindow(qs[0], user, today, ty) then [qs[0]] + rest else rest
  }

  /** The window has only a lower bound, which is strict: a row dated exactly
      thirty days ago is outside, one dated twenty-nine days ago, today or at any
      later date is inside. */
  lemma WindowBoundary(t: Transaction, user: UserId, today: Date, ty: TxType)
    requires t.user == user && t.txType == ty
    ensures !InWindow(t.(date := today - 30), user, today, ty)
    ensures InWindow(t.(date := today - 29), user, today, ty)
    ensures forall d :: d >= today - 29 ==> InWindow(t.(date := d), user, today, ty)
  {
  }

  /** The context of the statistics page. `lastMonthExpenses` and
      `lastMonthIncome` are the value `aggregate` returns under its one key
      `amount_in_usd__sum`; the page's context holds that one-key dictionary. */
  datatype Statistics = Statistics(
    categoryNames: seq<string>,
    categorySums: seq<Cents>,
    dates: seq<Date>,
    daySums: seq<Cents>,
    lastMonthExpenses: Option<Cents>,
    lastMonthIncome: Option<Cents>)

  /** The grouping keys of the two charts. */
  function CategoryKey(t: Transaction): int {
    t.category
  }

  function DateKey(t: Transaction): int {
    t.date
  }

  /** `.values('category').order_by('category').annotate(sum=Sum('amount_in_usd'))`. */
  function ByCategory(rows: seq<Transaction>): seq<Group> {
    GroupSums(Project(rows, CategoryKey))
  }

  /** `.values('date').order_by('date').annotate(sum=Sum('amount_in_usd'))`. */
  function ByDay(rows: seq<Transaction>): seq<Group> {
    GroupSums(Project(rows, DateKey))
  }

  /** Every row's category is a row of the `Category` table (a foreign key). */
  predicate CategoriesExist(qs: seq<Transaction>, cats: seq<Category>) {
    forall t :: t in qs ==> CategoryById(cats, t.category).Some?
  }

  /** The names and sums lists hold, row by row, the name of each grouped category
      and its sum. */
  predicate CategoryColumns(names: seq<string>, sums: seq<Cents>, g: seq<Group>, cats: seq<Category>) {
    && |names| == |g| && |sums| == |g|
    && forall i :: 0 <= i < |g| ==>
         0 <= g[i].0 && CategoryById(cats, g[i].0) == Some(Category(g[i].0, names[i])) && sums[i] == g[i].1
  }

  /** The dates and sums lists hold, row by row, each grouped date and its sum. */
  predicate DayColumns(dates: seq<Date>, sums: seq<Cents>, g: seq<Group>) {
    |dates| == |g| && |sums| == |g| && forall i :: 0 <= i < |g| ==> dates[i] == g[i].0 && sums[i] == g[i].1
  }

  /** Every grouped key is the category of some row, hence a category of the table. */
  lemma GroupedCategoriesExist(rows: seq<Transaction>, cats: seq<Category>)
    requires CategoriesExist(rows, cats)
    ensures forall i :: 0 <= i < |ByCategory(rows)| ==>
      0 <= ByCategory(rows)[i].0 && CategoryById(cats, ByCategory(rows)[i].0).Some?
  {
    var ps := Project(rows, CategoryKey);
    var g := ByCategory(rows);
    forall i | 0 <= i < |g| ensures 0 <= g[i].0 && CategoryById(cats, g[i].0).Some? {
      assert g[i].0 in Keys(g);
      var k :| 0 <= k < |ps| && ps[k].0 == g[i].0;
      assert rows[k] in rows;
    }
  }

  /** The loop over the grouped categories: appends each category's name, looked
      up by id, and its sum. */
  method CategoryLists(g: seq<Group>, cats: seq<Category>) returns (names: seq<string>, sums: seq<Cents>)
    requires forall i :: 0 <= i < |g| ==> 0 <= g[i].0 && CategoryById(cats, g[i].0).Some?
    ensures CategoryColumns(names, sums, g, cats)
  {
    names, sums := [], [];
    var i := 0;
    while i < |g|
      invariant 0 <= i <= |g|
      invariant CategoryColumns(names, sums, g[..i], cats)
    {
      var category := CategoryById(cats, g[i].0).value;
      names := names + [category.name];
      sums := sums + [g[i].1];
      i := i + 1;
    }
    assert g[..i] == g;
  }

  /** The loop over the grouped days: appends each date and its sum. */
  method DayLists(g: seq<Group>) returns (dates: seq<Date>, sums: seq<Cents>)
    ensures DayColumns(dates, sums, g)
  {
    dates, sums := [], [];
    var i := 0;
    while i < |g|
      invariant 0 <= i <= |g|
      invariant DayColumns(dates, sums, g[..i])
    {
      dates := dates + [g[i].0];
      sums := sums + [g[i].1];
      i := i + 1;
    }
    assert g[..i] == g;
  }

  /** `view_statistic`: the expense and income totals of the window (`None` when no
      row qualifies), and the expenses of the window grouped by category, in
      category id order, and by day, in date order. */
  method ViewStatistic(qs: seq<Transaction>, cats: seq<Category>, user: UserId, today: Date)
    returns (s: Statistics)
    requires CategoriesExist(qs, cats)
    ensures s.lastMonthExpenses == RawSum(WindowRows(qs, user, today, Expense))
    ensures s.lastMonthIncome == RawSum(WindowRows(qs, user, today, Income))
    ensures CategoryColumns(s.categoryNames, s.categorySums, ByCategory(WindowRows(qs, user, today, Expense)), cats)
    ensures DayColumns(s.dates, s.daySums, ByDay(WindowRows(qs, user, today, Expense)))
  {
    var expenses := WindowRows(qs, user, today, Expense);
    var lastMonthExpenses := RawSum(expenses);
    var lastMonthIncome := RawSum(WindowRows(qs, user, today, Income));
    GroupedCategoriesExist(expenses, cats);
    var categoryNames, categorySums := CategoryLists(ByCategory(expenses), cats);
    var dates, daySums := DayLists(ByDay(expenses));
    s := Statistics(categoryNames, categorySums, dates, daySums, lastMonthExpenses, lastMonthIncome);
  }

  /** The total of a list of sums. */
  function Total(xs: seq<Cents>): Cents {
    if xs == [] then 0 else xs[0] + Total(xs[1..])
  }

  lemma {:induction false} ColumnTotal(sums: seq<Cents>, g: seq<Group>)
    requires |sums| == |g| && forall i :: 0 <= i < |g| ==> sums[i] == g[i].1
    ensures Total(sums) == ValuesSum(g)
  {
    if g != [] {
      ColumnTotal(sums[1..], g[1..]);
    }
  }

  /** The category chart: each category appears once (ids are grouped and names
      are unique), and the category sums add up to the month's expense total. */
  lemma CategoryChartIsConsistent(s: Statistics, qs: seq<Transaction>, cats: seq<Category>, user: UserId, today: Date)
    requires ValidCategories(cats)
    requires s.lastMonthExpenses == RawSum(WindowRows(qs, user, today, Expense))
    requires CategoryColumns(s.categoryNames, s.categorySums, ByCategory(WindowRows(qs, user, today, Expense)), cats)
    ensures forall i, j :: 0 <= i < j < |s.categoryNames| ==> s.categoryNames[i] != s.categoryNames[j]
    ensures forall t :: t in WindowRows(qs, user, today, Expense) ==>
      exists i :: 0 <= i < |s.categoryNames| && CategoryById(cats, t.category) == Some(Category(t.category, s.categoryNames[i]))
    ensures forall i :: 0 <= i < |s.categorySums| ==>
      s.categorySums[i] == KeySum(Project(WindowRows(qs, user, today, Expense), CategoryKey), ByCategory(WindowRows(qs, user, today, Expense))[i].0)
    ensures Total(s.categorySums) == s.lastMonthExpenses.GetOr(0)
  {
    var rows := WindowRows(qs, user, today, Expense);
    var ps := Project(rows, CategoryKey);
    var g := ByCategory(rows);
    forall t | t in rows
      ensures exists i :: 0 <= i < |s.categoryNames| && CategoryById(cats, t.category) == Some(Category(t.category, s.categoryNames[i]))
    {
      var k :| 0 <= k < |rows| && rows[k] == t;
      assert ps[k].0 in Keys(ps);
      var i :| 0 <= i < |g| && g[i].0 == t.category;
      assert CategoryById(cats, g[i].0) == Some(Category(g[i].0, s.categoryNames[i]));
    }
    GroupSumsRows(ps);
    forall i, j | 0 <= i < j < |s.categoryNames| ensures s.categoryNames[i] != s.categoryNames[j] {
      assert g[i].0 < g[j].0;
      DistinctIdsDistinctNames(cats, Category(g[i].0, s.categoryNames[i]), Category(g[j].0, s.categoryNames[j]));
    }
    ColumnTotal(s.categorySums, g);
    GroupSumsTotal(Project(rows, CategoryKey));
    ProjectTotal(rows, CategoryKey);
  }

  /** The daily chart: the dates are strictly ascending and all inside the window,
      every expense of the window shows up under its date, and the daily sums add
      up to the month's expense total. */
  lemma DayChartIsConsistent(s: Statistics, qs: seq<Transaction>, user: UserId, today: Date)
    requires s.lastMonthExpenses == RawSum(WindowRows(qs, user, today, Expense))
    requires DayColumns(s.dates, s.daySums, ByDay(WindowRows(qs, user, today, Expense)))
    ensures forall i, j :: 0 <= i < j < |s.dates| ==> s.dates[i] < s.dates[j]
    ensures forall i :: 0 <= i < |s.dates| ==> s.dates[i] > today - 30
    ensures forall t :: t in WindowRows(qs, user, today, Expense) ==> t.date in s.dates
    ensures forall i :: 0 <= i < |s.dates| ==>
      s.daySums[i] == KeySum(Project(WindowRows(qs, user, today, Expense), DateKey), s.dates[i])
    ensures Total(s.daySums) == s.lastMonthExpenses.GetOr(0)
  {
    var rows := WindowRows(qs, user, today, Expense);
    var g := ByDay(rows);
    DaysAreRowDates(rows);
    forall i | 0 <= i < |s.dates| ensures s.dates[i] > today - 30 {
      var k :| 0 <= k < |rows| && rows[k].date == g[i].0;
      assert rows[k] in rows;
    }
    forall t | t in rows ensures t.date in s.dates {
      var i :| 0 <= i < |g| && g[i].0 == t.date;
      assert s.dates[i] == t.date;
    }
    ColumnTotal(s.daySums, g);
    GroupSumsTotal(Project(rows, DateKey));
    ProjectTotal(rows, DateKey);
  }

  /** The days of the daily chart are exactly the dates of the rows it groups, and
      each day's sum is the reference total of that date. */
  lemma DaysAreRowDates(rows: seq<Transaction>)
    ensures forall i :: 0 <= i < |ByDay(rows)| ==> exists k :: 0 <= k < |rows| && rows[k].date == ByDay(rows)[i].0
    ensures forall t :: t in rows ==> exists i :: 0 <= i < |ByDay(rows)| && ByDay(rows)[i].0 == t.date
    ensures forall i :: 0 <= i < |ByDay(rows)| ==> ByDay(rows)[i].1 == KeySum(Project(rows, DateKey), ByDay(rows)[i].0)
  {
    var ps := Project(rows, DateKey);
    var g := ByDay(rows);
    GroupSumsRows(ps);
    forall i | 0 <= i < |g| ensures exists k :: 0 <= k < |rows| && rows[k].date == g[i].0 {
      assert g[i].0 in Keys(g);
      var k :| 0 <= k < |ps| && ps[k].0 == g[i].0;
      assert rows[k].date == g[i].0;
    }
    forall t | t in rows ensures exists i :: 0 <= i < |g| && g[i].0 == t.date {
      var k :| 0 <= k < |rows| && rows[k] == t;
      assert ps[k].0 in Keys(ps);
    }
  }

  // ---------------------------------------------------------------------------
  // Creating and updating a transaction

  /** `[(code, code) for code in api_data.keys()]`, or `[]` when the rates are
      missing. */
  function CodeChoices(table: Option<RateTable>): (r: seq<Choice>)
    ensures table.None? ==> r == []
    ensures table.Some? ==> |r| == |table.value|
    ensures table.Some? ==> forall i :: 0 <= i < |r| ==> r[i] == (table.value[i].0, table.value[i].0)
  {
    if table.None? then []
    else seq(|table.value|, i requires 0 <= i < |table.value| => (table.value[i].0, table.value[i].0))
  }

  /** A currency the form offers from a fetched table has a rate in that table. */
  lemma OfferedCurrencyHasRate(table: RateTable, code: string)
    requires exists i :: 0 <= i < |CodeChoices(Some(table))| && CodeChoices(Some(table))[i].0 == code
    ensures RateOf(table, code).Some?
  {
    var i :| 0 <= i < |CodeChoices(Some(table))| && CodeChoices(Some(table))[i].0 == code;
    assert table[i].0 == code;
  }

  /** When the rates were available for the form, the conversion later in the same
      request reads the same table from the cache without fetching, so an accepted
      currency is converted by its own rate. When they were not, the form falls
      back to the nine default currencies. */
  lemma RatesOfOneRequest(slot: Slot, now: int, ratesFetch: Option<RateTable>, convertFetch: Option<RateTable>, code: string)
    ensures var first := LookupTable(slot, now, ratesFetch);
      first.table.None? ==> CurrencyChoices(Some(CodeChoices(first.table))) == DefaultCurrencies
    ensures var first := LookupTable(slot, now, ratesFetch);
      first.table.Some? ==>
        && !LookupTable(first.slot, now, convertFetch).fetched
        && RateFor(first.slot, now, convertFetch, code) == RateOf(first.table.value, code)
  {
  }

  /** What the view answers. */
  datatype Outcome =
    | Saved(row: Transaction)
    | WriteRefused
    | Rejected(errors: set<FieldError>)
    | NotFound

  /** The row `form.save(commit=False)` builds, owned by `user`, with the converted
      amount set by the view. */
  function CreatedRow(id: nat, user: UserId, c: CleanedTransaction, amountInUsd: Cents): Transaction {
    NewTransaction(id, user, c.category, c.txType, c.amount, c.currency, c.date).(amountInUsd := amountInUsd)
  }

  /** `transaction.save()`: the database stores a row whose values fit its
      columns and refuses any other (a numeric field overflow), so the view fails. */
  function Store(row: Transaction): (r: Outcome)
    ensures r.Saved? <==> FitsColumns(row)
    ensures r.Saved? ==> r.row == row
  {
    if FitsColumns(row) then Saved(row) else WriteRefused
  }

  /** `create_transaction` on a POST: the currency choices come from
      `get_exchange_rates`; a valid form yields a row owned by the requester whose
      `amount_in_usd` is `convert_to_EUR(amount, currency)`. `newId` is the key the
      database would assign; `ratesFetch` and `convertFetch` are what the fetcher
      would return to each of the two lookups, should they call it. */
  method CreateTransaction(cache: RateCache, cats: seq<Category>, requester: UserId, data: TransactionData,
                           newId: nat, now: int, ratesFetch: Option<RateTable>, convertFetch: Option<RateTable>)
    returns (out: Outcome)
    modifies cache
    ensures var first := LookupTable(old(cache.slot), now, ratesFetch);
      var choices := CurrencyChoices(Some(CodeChoices(first.table)));
      match ValidateTransaction(choices, data, cats)
      case Failure(errors) =>
        && out == Rejected(errors)
        && cache.slot == first.slot && cache.fetches == old(cache.fetches) + FetchCount(first)
      case Success(c) =>
        var second := LookupTable(first.slot, now, convertFetch);
        && out == Store(CreatedRow(newId, requester, c, ConvertedAmount(c.amount, RateFor(first.slot, now, convertFetch, c.currency))))
        && cache.slot == second.slot && cache.fetches == old(cache.fetches) + FetchCount(first) + FetchCount(second)
  {
    var apiData := cache.GetExchangeRates(now, ratesFetch);
    var form := new TransactionForm(Some(CodeChoices(apiData)));
    var cleaned := ValidateTransaction(form.currencyChoices, data, cats);
    if cleaned.Failure? {
      out := Rejected(cleaned.error);
    } else {
      var c := cleaned.value;
      var amountInUsd := cache.ConvertToEur(c.amount, c.currency, now, convertFetch);
      out := Store(CreatedRow(newId, requester, c, amountInUsd));
    }
  }

  /** `get_object_or_404(Transaction, pk=pk, user=request.user)`. */
  function FindOwned(qs: seq<Transaction>, pk: nat, user: UserId): (r: Option<Transaction>)
    ensures r.Some? ==> r.value in qs && r.value.id == pk && r.value.user == user
    ensures r.None? ==> forall t :: t in qs ==> !(t.id == pk && t.user == user)
  {
    if qs == [] then None
    else if qs[0].id == pk && qs[0].user == user then Some(qs[0])
    else FindOwned(qs[1..], pk, user)
  }

  /** `'amount' in form.changed_data or 'currency' in form.changed_data`. */
  predicate ConversionInputsChanged(instance: Transaction, c: CleanedTransaction) {
    c.amount != instance.amount || c.currency != instance.currency
  }

  /** The instance with the form's fields written over it; its key, its owner and,
      unless the view recomputes it, its converted amount stay. */
  function UpdatedRow(instance: Transaction, c: CleanedTransaction, amountInUsd: Cents): Transaction {
    instance.(txType := c.txType, amount := c.amount, currency := c.currency, date := c.date,
              category := c.category, amountInUsd := amountInUsd)
  }

  /** `update_transaction` on a POST. The rates are fetched before the row is
      looked up, so even a request for someone else's row may fill the cache. The
      converted amount is recomputed only when the amount or the currency changed. */
  method UpdateTransaction(cache: RateCache, qs: seq<Transaction>, cats: seq<Category>, requester: UserId,
                           pk: nat, data: TransactionData, now: int,
                           ratesFetch: Option<RateTable>, convertFetch: Option<RateTable>)
    returns (out: Outcome)
    modifies cache
    ensures var first := LookupTable(old(cache.slot), now, ratesFetch);
      var choices := CurrencyChoices(Some(CodeChoices(first.table)));
      match FindOwned(qs, pk, requester)
      case None =>
        && out == NotFound
        && cache.slot == first.slot && cache.fetches == old(cache.fetches) + FetchCount(first)
      case Some(instance) =>
        match ValidateTransaction(choices, data, cats)
        case Failure(errors) =>
          && out == Rejected(errors)
          && cache.slot == first.slot && cache.fetches == old(cache.fetches) + FetchCount(first)
        case Success(c) =>
          if ConversionInputsChanged(instance, c) then
            var second := LookupTable(first.slot, now, convertFetch);
            && out == Store(UpdatedRow(instance, c, ConvertedAmount(c.amount, RateFor(first.slot, now, convertFetch, c.currency))))
            && cache.slot == second.slot && cache.fetches == old(cache.fetches) + FetchCount(first) + FetchCount(second)
          else
            && out == Store(UpdatedRow(instance, c, instance.amountInUsd))
            && cache.slot == first.slot && cache.fetches == old(cache.fetches) + FetchCount(first)
  {
    var apiData := cache.GetExchangeRates(now, ratesFetch);
    var found := FindOwned(qs, pk, requester);
    if found.None? {
      out := NotFound;
    } else {
      var instance := found.value;
      var form := new TransactionForm(Some(CodeChoices(apiData)));
      var cleaned := ValidateTransaction(form.currencyChoices, data, cats);
      if cleaned.Failure? {
        out := Rejected(cleaned.error);
      } else {
        var c := cleaned.value;
        var amountInUsd := instance.amountInUsd;
        if ConversionInputsChanged(instance, c) {
          amountInUsd := cache.ConvertToEur(c.amount, c.currency, now, convertFetch);
        }
        out := Store(UpdatedRow(instance, c, amountInUsd));
      }
    }
  }

  /** A valid form can still lead to a row the database refuses: the largest
      amount the column holds, 99,999,999.99, at a rate of 0.5 converts to
      199,999,999.98, which needs eleven digits, so the view's write fails. */
  lemma ConversionCanOverflow(id: nat, user: UserId, c: CleanedTransaction)
    requires c.amount == 9_999_999_999 && |c.currency| <= 100
    ensures FitsMoneyField(c.amount)
    ensures ConvertedAmount(c.amount, Some(Rate(5, 1))) == 19_999_999_998
    ensures Store(CreatedRow(id, user, c, ConvertedAmount(c.amount, Some(Rate(5, 1))))) == WriteRefused
  {
    HalfEvenRoundingIsUnique(ConvertedAmount(c.amount, Some(Rate(5, 1))), 19_999_999_998, 99_999_999_990, 5);
  }

  /** A row the create view builds has the requester as owner, a positive amount
      within the column's range, a currency within its column's length and a
      non-negative converted amount. Whether the
      converted amount fits its column depends on the rate (see
      `ConversionCanOverflow`); the view stores the row only if it does. */
  lemma CreatedRowIsWellFormed(id: nat, user: UserId, choices: seq<Choice>, data: TransactionData,
                               cats: seq<Category>, rate: Option<Rate>)
    requires ValidateTransaction(choices, data, cats).Success?
    ensures var c := ValidateTransaction(choices, data, cats).value;
      var row := CreatedRow(id, user, c, ConvertedAmount(c.amount, rate));
      && row.user == user && row.amount > 0 && FitsMoneyField(row.amount) && |row.currency| <= 100
      && row.amountInUsd >= 0
  {
    var c := ValidateTransaction(choices, data, cats).value;
    ConversionKeepsSign(c.amount, rate);
  }

  // ---------------------------------------------------------------------------
  // Blog posts: likes, bookmarks and the view counter

  /** Adds `user` if absent and removes it if present. */
  function Toggled(users: set<UserId>, user: UserId): (r: set<UserId>)
    ensures user in r <==> user !in users
    ensures forall v :: v != user ==> (v in r <==> v in users)
  {
    if user in users then users - {user} else users + {user}
  }

  /** Toggling twice restores the set. */
  lemma ToggleTwiceRestores(users: set<UserId>, user: UserId)
    ensures Toggled(Toggled(users, user), user) == users
  {
  }

  /** `post_page`: a missing count becomes 1, any other grows by one. */
  function NextViewCount(count: Option<int>): int {
    if count.None? then 1 else count.value + 1
  }

  /** The count after `n` visits. */
  function ViewsAfter(count: Option<int>, n: nat): Option<int>
    decreases n
  {
    if n == 0 then count else ViewsAfter(Some(NextViewCount(count)), n - 1)
  }

  /** Each visit adds one: a fresh post shows `n` after `n` visits, a post with
      count `k` shows `k + n`. */
  lemma {:induction false} ViewsAreCounted(k: int, n: nat)
    ensures ViewsAfter(Some(k), n) == Some(k + n)
    ensures n >= 1 ==> ViewsAfter(None, n) == Some(n)
    decreases n
  {
    if n > 0 {
      ViewsAreCounted(k + 1, n - 1);
      ViewsAreCounted(1, n - 1);
    }
  }

  /** The part of a blog `Post` these views change. */
  class Post {
    var viewCount: Option<int>
    var likes: set<UserId>
    var bookmarks: set<UserId>

    constructor ()
      ensures viewCount.None? && likes == {} && bookmarks == {}
    {
      viewCount := None;
      likes := {};
      bookmarks := {};
    }

    /** `like_post`. */
    method ToggleLike(user: UserId)
      modifies this
      ensures likes == Toggled(old(likes), user)
      ensures bookmarks == old(bookmarks) && viewCount == old(viewCount)
    {
      if user in likes {
        likes := likes - {user};
      } else {
        likes := likes + {user};
      }
    }

    /** `bookmark_post`. */
    method ToggleBookmark(user: UserId)
      modifies this
      ensures bookmarks == Toggled(old(bookmarks), user)
      ensures likes == old(likes) && viewCount == old(viewCount)
    {
      if user in bookmarks {
        bookmarks := bookmarks - {user};
      } else {
        bookmarks := bookmarks + {user};
      }
    }

    /** The view counter update of `post_page`. */
    method RecordView()
      modifies this
      ensures viewCount == Some(NextViewCount(old(viewCount)))
      ensures likes == old(likes) && bookmarks == old(bookmarks)
    {
      if viewCount.None? {
        viewCount := Some(1);
      } else {
        viewCount := Some(viewCount.value + 1);
      }
    }
  }
}
