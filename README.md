# FinanceBlog_App — a verified model of the finance tracker

FinanceBlog_App is a Django site with a blog and a personal finance tracker. This
project models the tracker's logic in Dafny and proves what that logic promises:

- the one-slot, one-hour exchange-rate cache and the conversion of an amount by
  the rate it yields;
- the transaction querysets and their totals;
- the transaction filter;
- the form cleaners;
- the statistics of the last thirty days;
- the rules by which creating or updating a transaction stores its converted
  amount.

It also models the small state rules of the blog: the slug a profile or tag
receives on its first save, the like and bookmark toggles, and the view counter.

Conventions:

- Money is integer cents. Both amount columns are `DecimalField(10, 2)`.
- A date is a day number.
- A rate is the exact decimal `units / 10^scale` that `Decimal(str(rate))` holds.
- Python's `round` on a `Decimal` is modelled as half-even rounding to the cent.

Module layout, one module per source file:

| module | file | contents |
|---|---|---|
| `Models` | `models.dfy` | the records, their column constraints, `__str__`, and the first-save slug rule as classes |
| `Utils` | `utils.dfy` | the rate cache as a class `RateCache` with pure specification functions beside it |
| `Managers` | `managers.dfy` | the type filters and the totals |
| `Filters` | `filters.dfy` | the filter predicate |
| `Forms` | `forms.dfy` | the cleaners, and the currency fallback of `TransactionForm` as a class |
| `Views` | `views.dfy` | the view logic: `ViewStatistic` builds its lists in loops; the create and update views drive the cache; `Post` holds the toggled sets and the counter |
| `Aggregates` | `aggregates.dfy` | what SQL `SUM` and `GROUP BY` compute |
| `Text` | `text.dfy` | ASCII lower-casing and the decimal text of an amount |
| `Wrappers` | `wrappers.dfy` | `Option` and `Result` |

Inputs that the code reads from outside are parameters:

- the clock (`now`) and the outcome of the exchange-rate fetcher;
- the key a new row receives;
- `slugify`;
- the rows of the tables.

Where the inline comment in `convert_to_EUR` and its code disagree, the model
follows the code. The comment in the `else` branch (app/utils.py:126) speaks of
returning the original amount. The code, and the docstring (app/utils.py:111-112),
give 0 when the rate is missing or zero. Of the two fallbacks, only a failed fetch
keeps the amount, because the lookup then answers the rate 1; a currency missing
from a fetched table gives 0. A fetched rate of 1 keeps the amount as well.

The database's refusals are outcomes of the model. A row whose amounts do not fit
`DecimalField(10, 2)` is not stored, and neither is a profile or tag whose slug
another row already holds.

## Model

| member | source | states |
|---|---|---|
| `Utils.RateOf` | app/utils.py:72 | a currency has a rate exactly when the table lists it, and the rate is that entry's |
| `Utils.CacheGet` | app/utils.py:59 | the stored table is served exactly while `now` is before its expiry |
| `Utils.LookupTable` | app/utils.py:59-72 | the fetcher is called exactly when the cache holds no usable table; a served table is never empty; the slot is either unchanged or holds the fetched table with expiry `now + 3600` |
| `Utils.RateFor` | app/utils.py:43-72 | the rate lookup answers 1 when fetching fails, otherwise the table's entry, `None` when the currency is absent |
| `Utils.CachedTableServed` | app/utils.py:59-63 | a live non-empty table is served without fetching; an empty stored table counts as a miss |
| `Utils.FetchedTableLivesOneHour` | app/utils.py:63-72 | after a successful fetch at `t` the table is stored until `t + 3600`; lookups before then do not fetch, and the first lookup at or after it does |
| `Utils.FailedFetchFallbacks` | app/utils.py:65-67 | on a failed fetch nothing is stored, the rate lookup answers 1 and the table lookup answers `None` |
| `Utils.MissingCurrencyHasNoRate` | app/utils.py:72 | a currency missing from a served table has no rate |
| `Utils.TwoLookupsFetchAtMostOnce` | app/utils.py:62-70 | two lookups less than an hour apart call the fetcher at most once when the first fetch succeeds |
| `Utils.RoundHalfEven` | app/utils.py:124 | the result is the nearest integer to `n / d`, ties to even |
| `Utils.HalfEvenRoundingIsUnique` | app/utils.py:124 | half-even rounding has exactly one result |
| `Utils.ConvertedAmount` | app/utils.py:118-127 | a truthy rate gives `amount / rate` rounded half-even to the cent; a missing or zero rate gives 0 and no division |
| `Utils.IdentityRateKeepsAmount` | app/utils.py:121-124 | dividing by the rate 1 returns the amount |
| `Utils.ConversionExample` | app/utils.py:124 | 100.00 at a rate of 0.9 converts to 111.11 |
| `Utils.ConversionIsMonotonic` | app/utils.py:118-127 | at one rate a larger amount never converts to a smaller one |
| `Utils.ConversionKeepsSign` | app/utils.py:118-127 | a non-negative amount never converts to a negative one |
| `Utils.ConversionWithoutRates` | app/utils.py:116-124 | with an empty cache and a failing fetcher, conversion returns the amount unchanged |
| `Utils.RateCache.constructor` | app/utils.py:59 | the cache starts empty and no fetch has happened |
| `Utils.RateCache.LoadTable` | app/utils.py:59-70 | the shared cache steps: the served table, the new slot and the number of fetcher calls are those of `LookupTable` |
| `Utils.RateCache.GetExchangeRates` | app/utils.py:75-100 | returns the cached or fetched table, or `None` when fetching fails, and updates the slot as `LookupTable` says |
| `Utils.RateCache.GetExchangeRateFor` | app/utils.py:43-72 | returns `RateFor` of the slot before the call and updates the slot as `LookupTable` says |
| `Utils.RateCache.ConvertToEur` | app/utils.py:103-129 | returns `ConvertedAmount` of the amount at the looked-up rate and updates the slot as `LookupTable` says |
| `Managers.OfType` | app/managers.py:17-36 | the rows of one type, each as often as in the queryset, and no other row |
| `Managers.OfTypeKeepsOrder` | app/managers.py:25 | filtering by type keeps the newest-first order |
| `Aggregates.RawSum` | app/managers.py:48-49 | SQL `SUM` over a queryset is NULL exactly when it has no rows, and the exact total of `amount_in_usd` otherwise |
| `Aggregates.RawSumOrZero` | app/managers.py:48-50 | reading a missing sum as 0 gives the total of the rows |
| `Aggregates.GroupSums` | app/views.py:546 | grouping yields one row per key that occurs, in strictly ascending key order, and each key's value is the reference total of its amounts |
| `Aggregates.GroupSumsRows` | app/views.py:546 | every grouped row carries the reference total of its key |
| `Aggregates.GroupSumsTotal` | app/views.py:546 | the grouped sums add up to the total of all the amounts |
| `Managers.GetTotalExpenses` | app/managers.py:39-50 | the total equals the sum of `amount_in_usd` over the expense rows, 0 without any |
| `Managers.GetTotalIncome` | app/managers.py:53-64 | the total equals the sum of `amount_in_usd` over the income rows, 0 without any |
| `Managers.TotalsMatchReference` | app/managers.py:39-64 | each total equals the sum of `amount_in_usd` over the rows of its type, and is 0 when no row has the type |
| `Managers.IncomeAndExpensesPartition` | app/managers.py:17-64 | the income and expense rows are disjoint and together are the queryset, so the two totals add up to the total of all rows |
| `Filters.TypeCriterionSelectsType` | app/filters.py:29-34 | a chosen type keeps exactly the rows of that type; the `iexact` comparison of the stored names adds nothing because both are lower case |
| `Filters.DateBoundsAreInclusive` | app/filters.py:36-48 | a row dated on the start or the end date passes both date criteria |
| `Filters.Apply` | app/filters.py:16-53 | the kept rows are exactly the rows of the queryset that meet every supplied criterion, with their multiplicities |
| `Filters.ApplyKeepsOrder` | app/filters.py:16-27 | filtering keeps the newest-first order |
| `Filters.EmptyFilterKeepsAll` | app/filters.py:16-53 | with no criterion supplied every row is kept |
| `Forms.DefaultCurrenciesAreDistinct` | app/forms.py:77-87 | the default list has nine entries with distinct codes |
| `Forms.CurrencyChoices` | app/forms.py:98-105 | a non-empty list replaces the choices; `None` or an empty list falls back to the defaults; the form always offers a currency |
| `Forms.TransactionForm.constructor` | app/forms.py:98-105 | the form's choices are those `CurrencyChoices` gives for the argument |
| `Forms.CleanAmount` | app/forms.py:107-114 | a positive amount passes unchanged and any other is refused |
| `Forms.ValidateTransaction` | app/forms.py:89-127 | a form is valid exactly when the type is a choice, the amount fits the column and is positive, the currency is offered and fits the column's 100 characters, and the category exists; the cleaned data are the submitted values; on failure exactly the failing fields are reported: the type when it is not a choice, the amount as too large when it does not fit the column and as not positive when it fits but is not positive, the currency when it is not offered, the currency as too long when it is offered but exceeds 100 characters, the category when it does not exist |
| `Forms.CleanUsername` | app/forms.py:46-51 | returns the lower-cased username, refused exactly when a user with that name exists |
| `Forms.CleanEmail` | app/forms.py:53-58 | returns the lower-cased email, refused exactly when a user with that email exists |
| `Forms.RegisteredNameBlocksCaseVariants` | app/forms.py:46-51 | once a name is registered, every spelling differing only in letter case is refused |
| `Forms.CleanPassword2` | app/forms.py:60-66 | an error exactly when both passwords are non-empty and differ, otherwise the second password |
| `Models.TypeName` | app/models.py:170-177 | a stored type is lower case and fits `max_length=7` |
| `Models.ParseType` | app/models.py:170-173 | exactly `income` and `expense` are choices |
| `Models.TypeNameRoundTrip` | app/models.py:170-173 | the two stored values are distinct and each reads back as its type |
| `Models.NewTransaction` | app/models.py:175-181 | a new row's `amount_in_usd` is 0.00, and a row with a fitting amount and currency fits its columns |
| `Models.HeadIsNewest` | app/models.py:194-199 | in the default order the first row is the newest |
| `Models.Describe` | app/models.py:186-192 | for a row read back from the database, the text is the type, " of ", the amount in a form that reads back as `amount_in_usd`, then " ", the currency, " on ", the date and " by ", the user |
| `Models.AddCategory` | app/models.py:147 | a category is stored exactly when its name fits fifty characters and its name and id are new; storing keeps the table valid |
| `Models.CategoryById` | app/models.py:142-159 | the lookup finds a row with that id, or reports that none exists |
| `Models.CategoryIdIsKey` | app/models.py:142-159 | in a valid table the lookup by a row's id finds exactly that row |
| `Models.DistinctIdsDistinctNames` | app/models.py:147 | two categories with different ids have different names |
| `Models.Profile.Save` | app/models.py:27-38 | the slug is derived from the username on the first save only and later saves keep it; the save is refused exactly when another row holds the slug, and a refused first save assigns no key |
| `Models.Tag.Save` | app/models.py:62-72 | the slug is derived from the name on the first save only and later saves keep it; the save is refused exactly when another row holds the slug, and a refused first save assigns no key |
| `Models.RenameAfterFirstSave` | app/models.py:36-37 | renaming a saved profile and saving again keeps the first slug |
| `Models.SecondProfileWithSameSlug` | app/models.py:27-38 | of two new profiles whose usernames slugify alike, the first is stored and the second is refused and stays unsaved |
| `Views.OwnedBy` | app/views.py:368-371 | the user's rows, each as often as in the table, and no row of another user |
| `Views.NetIncomeIsBalance` | app/views.py:373-379 | net income is the sum of the income rows minus the sum of the expense rows |
| `Views.TotalsOf` | app/views.py:373-379 | the shown totals are the sums over each type and the net income is their difference |
| `Views.TransactionsList` | app/views.py:366-386 | the income and expense totals shown are the sums over the user's filtered rows of each type, and the net income is their difference |
| `Views.ExpenseTracker` | app/views.py:389-420 | the overall totals are the sums over all the user's rows of each type, the filtered totals those over the user's filtered rows, and the overall net income is the difference of its pair (the filtered net is computed but not shown) |
| `Views.OtherUsersAreIgnored` | app/views.py:366-369 | a row of another user never changes a user's list |
| `Views.EmptyFilterShowsAll` | app/views.py:389-412 | with no criterion the filtered figures equal the overall ones |
| `Views.FilteredTotalsWithinTotals` | app/views.py:389-412 | with non-negative converted amounts the filtered totals never exceed the overall ones |
| `Views.WindowRows` | app/views.py:532-539 | exactly the user's rows of the type dated after `today - 30` |
| `Views.WindowBoundary` | app/views.py:532 | the window has only a strict lower bound: a row dated thirty days ago is outside, one dated twenty-nine days ago or later is inside |
| `Views.ViewStatistic` | app/views.py:527-572 | the window totals (the value under `amount_in_usd__sum` of the dictionary the context holds) are `None` when no row qualifies and the sum otherwise; the lists hold, entry by entry, each category's name and sum in id order and each date's sum in date order |
| `Views.CategoryLists` | app/views.py:546-551 | the loop appends, entry by entry, the name of each grouped category looked up by id and its sum |
| `Views.DayLists` | app/views.py:558-560 | the loop appends, entry by entry, each grouped date and its sum |
| `Views.CategoryChartIsConsistent` | app/views.py:543-551 | the names are distinct, every expense's category is listed, each sum is that category's total, and the sums add up to the month's expenses |
| `Views.DayChartIsConsistent` | app/views.py:554-560 | the dates are strictly ascending and inside the window, every expense's date is listed, each sum is that day's total, and the sums add up to the month's expenses |
| `Views.CodeChoices` | app/views.py:429-433 | each code of the fetched table becomes a choice labelled by itself, in table order; no table gives no choices |
| `Views.OfferedCurrencyHasRate` | app/views.py:429-433 | every currency offered from a fetched table has a rate in it |
| `Views.RatesOfOneRequest` | app/views.py:429-440 | when the rates were fetched for the form, the conversion reads the same table without fetching; otherwise the form offers the nine defaults |
| `Views.CreateTransaction` | app/views.py:422-452 | an invalid form stores nothing; a valid one builds a row owned by the requester whose converted amount is `convert_to_EUR` of its amount and currency, and the row is stored exactly when it fits its columns |
| `Views.FindOwned` | app/views.py:466 | the lookup finds a row with that key owned by the requester, or reports that none exists |
| `Views.UpdateTransaction` | app/views.py:455-493 | someone else's row is not found; the converted amount is recomputed exactly when the amount or the currency changed and kept otherwise; key and owner stay; the row is stored exactly when it fits its columns |
| `Views.Store` | app/models.py:178-180 | `save()` writes the row exactly when both amounts fit `DecimalField(10, 2)` and the currency fits 100 characters, and then writes it unchanged |
| `Views.ConversionCanOverflow` | app/views.py:438-441 | a valid amount of 99,999,999.99 at a rate of 0.5 converts to 199,999,999.98, so the created row is refused |
| `Views.CreatedRowIsWellFormed` | app/views.py:438-440 | a created row has the requester as owner, a positive amount within the column's range, and a non-negative converted amount |
| `Views.Toggled` | app/views.py:321-324 | the toggle flips the requester's membership and leaves every other user's unchanged |
| `Views.ToggleTwiceRestores` | app/views.py:321-336 | toggling twice restores the set |
| `Views.Post.ToggleLike` | app/views.py:333-336 | the likes become the toggled set; nothing else changes |
| `Views.Post.ToggleBookmark` | app/views.py:321-324 | the bookmarks become the toggled set; nothing else changes |
| `Views.Post.RecordView` | app/views.py:99-103 | a missing count becomes 1, any other grows by one |
| `Views.ViewsAreCounted` | app/views.py:99-103 | after `n` visits a fresh post shows `n`, and a post that showed `k` shows `k + n` |

## Left out

- The HTTP request of `fetch_exchange_rates` is not modelled. Each lookup receives the fetcher's outcome as a parameter.
- Floats are not modelled. Rates are exact non-negative decimals, as `Decimal(str(rate))` holds them.
- `Utils.ConvertedAmount` rounds the exact quotient once. Python first rounds the quotient to 28 significant digits and then to the cent, which can differ only for quotients with more than 28 significant digits.
- Django's cache backend, its eviction and concurrent requests are not modelled. The slot is sequential, and its expiry test is `now < expiry`.
- Within one request both cache lookups are modelled at the same `now`.
- The ORM itself is not modelled; querysets are sequences of rows. The `Aggregates` module gives the result of the two SQL forms the code issues, `SUM` and `GROUP BY` with `SUM`, on those rows.
- Pagination, templates, HTMX retargeting, redirects and login checks are not modelled.
- The GET branches of `create_transaction` and `update_transaction` are not modelled; they only render a form.
- The `time.sleep` in `get_transactions` is not modelled.
- `delete_transaction` is not modelled.
- The comment posting in `post_page` is not modelled. Neither are `index`, `tag_page`, `author_page`, `search_posts`, `about` and the other list pages.
- `ExpenseForm` is not modelled. It refers to an `Expense` model that does not exist.
- `Post.number_of_likes` is not modelled. It returns the bound `count` method rather than a number.
- `slugify` is a parameter.
- `Models.Profile.Save` and `Models.Tag.Save` require a positive new key, since the database's keys start at 1. A key of 0, which `if not self.id` would read as unsaved, is not modelled.
- `Models.Describe` renders the amount as the database returns it, with two decimal places. An unsaved instance holds the value the view assigned: `0` when no rate is found prints "0" and the default `0.00` prints "0.0"; that text is not modelled.
- The calendar text of a date and the text of a user in `__str__` are parameters.
- The filter's criteria arrive already cleaned. `django_filters` parsing and validation of the query string is not modelled.
- Lower-casing covers ASCII letters only. Python's `str.lower` also folds other scripts.
- `Forms.ValidateTransaction` receives the amount as integer cents, the date as a day number and the category as an id. Text that does not parse as a decimal, a date or an id, and a missing field, are not modelled and have no `FieldError`. The type and the currency arrive as text and are checked against their choices.
- `Forms.ValidateTransaction` does not model an amount with more than two decimal places, which `DecimalField(10, 2)` refuses; cents cannot express one.
- `Views.CreatedRowIsWellFormed` does not claim that the converted amount fits its column. It need not: `Views.ConversionCanOverflow` shows a row that does not, and `Views.Store` refuses such a row.
- The filter's type criterion is a choice or absent. A query-string value that is not a choice is rejected by the filter form; that path is not modelled.
- The database's other refusals are not modelled: a missing foreign key and a duplicate primary key. `Views.Store` covers the column limits of the transaction row.
- `Views.ViewStatistic` requires every row's category to exist in the `Category` table. The database's foreign key with `CASCADE` guarantees this.
- `Views.Post.RecordView` does not model the 32-bit range of `IntegerField`.
- Test fixtures, factories, migrations and configuration are not modelled.
