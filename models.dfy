/** The records of the finance tracker and the two blog models whose `save` sets a
    slug: `Transaction`, `Category`, `Profile` and `Tag`. Money is held as integer
    cents (a `DecimalField` with two decimal places) and a date as a day number, so
    that "thirty days before today" is plain subtraction. */
module Models {
  import opened Wrappers
  import opened Text

  type UserId = nat
  type CategoryId = nat

  /** A calendar date as a day number (consecutive days differ by one). */
  type Date = int

  /** An amount of money in cents. */
  type Cents = int

  /** `max_digits=10, decimal_places=2`: at most ten digits in all, two of them
      after the point, so the absolute value in cents stays below 10^10. */
  const MoneyBound: int := 10_000_000_000

  predicate FitsMoneyField(c: Cents) {
    -MoneyBound < c < MoneyBound
  }

  /** `TRANSACTION_TYPE_CHOICES`: a transaction is income or an expense. */
  datatype TxType = Income | Expense

  /** The stored value of each choice (the first element of each choice pair). */
  function TypeName(t: TxType): (s: string)
    ensures 1 <= |s| <= 7 && IsLowerCase(s)
  {
    match t
    case Income => "income"
    case Expense => "expense"
  }

  /** The choice a stored value stands for; any other text is not a choice. */
  function ParseType(s: string): (r: Option<TxType>)
    ensures r.Some? <==> s == "income" || s == "expense"
  {
    if s == "income" then Some(Income)
    else if s == "expense" then Some(Expense)
    else None
  }

  /** The stored value of each type reads back as that type and every value that
      reads back is the stored value of its type: the two choices are distinct. */
  lemma TypeNameRoundTrip(t: TxType, s: string)
    ensures ParseType(TypeName(t)) == Some(t)
    ensures ParseType(s).Some? ==> TypeName(ParseType(s).value) == s
    ensures TypeName(Income) != TypeName(Expense)
  {
  }

  /** A row of the `Transaction` table. `amountInUsd` is the converted amount the
      views store beside the original `amount` and `currency`. */
  datatype Transaction = Transaction(
    id: nat,
    user: UserId,
    category: CategoryId,
    txType: TxType,
    amount: Cents,
    currency: string,
    amountInUsd: Cents,
    date: Date)

  /** The column constraints of the table: both amounts fit `DecimalField(10, 2)`
      and the currency fits `CharField(max_length=100)`. */
  predicate FitsColumns(t: Transaction) {
    FitsMoneyField(t.amount) && FitsMoneyField(t.amountInUsd) && |t.currency| <= 100
  }

  /** `amount_in_usd` defaults to 0.00 until a view stores a converted amount. */
  const DefaultAmountInUsd: Cents := 0

  /** A transaction as the form creates it, before the view stores the converted
      amount. */
  function NewTransaction(id: nat, user: UserId, category: CategoryId, txType: TxType,
                          amount: Cents, currency: string, date: Date): (t: Transaction)
    ensures t.amountInUsd == DefaultAmountInUsd
    ensures FitsMoneyField(amount) && |currency| <= 100 ==> FitsColumns(t)
  {
    Transaction(id, user, category, txType, amount, currency, DefaultAmountInUsd, date)
  }

  /** `Meta.ordering = ['-date']`: a queryset lists the newest rows first. */
  predicate DateDescending(qs: seq<Transaction>) {
    forall i, j :: 0 <= i < j < |qs| ==> qs[i].date >= qs[j].date
  }

  /** A row no newer than any later row may be put in front of a newest-first list. */
  lemma ConsDescending(x: Transaction, s: seq<Transaction>)
    requires DateDescending(s) && forall t :: t in s ==> x.date >= t.date
    ensures DateDescending([x] + s)
  {
    var r := [x] + s;
    forall i, j | 0 <= i < j < |r| ensures r[i].date >= r[j].date {
      assert r[j] == s[j - 1];
      if i > 0 { assert r[i] == s[i - 1]; }
    }
  }

  /** The first row of a newest-first list is at least as new as every other row. */
  lemma HeadIsNewest(qs: seq<Transaction>)
    requires DateDescending(qs) && qs != []
    ensures DateDescending(qs[1..])
    ensures forall t :: t in qs[1..] ==> qs[0].date >= t.date
  {
    forall t | t in qs[1..] ensures qs[0].date >= t.date {
      var j :| 0 <= j < |qs[1..]| && qs[1..][j] == t;
      assert qs[j + 1] == t;
    }
  }

  /** `Transaction.__str__`: "{type} of {amount_in_usd} {currency} on {date} by {user}".
      `dateText` is the ISO text of the date and `username` the text of the user;
      the calendar rendering of a day number is not part of this model. */
  function Describe(t: Transaction, dateText: string, username: string): (r: string)
    ensures var k := |TypeName(t.txType)|;
      k + 4 <= |r| && ParseType(r[..k]) == Some(t.txType) && r[k..k + 4] == " of "
    ensures var k := |TypeName(t.txType)| + 4; var a := CentsText(t.amountInUsd);
      k + |a| <= |r| && ParseCents(r[k..k + |a|]) == Some(t.amountInUsd)
    ensures var k := |TypeName(t.txType)| + 4; var a := CentsText(t.amountInUsd);
      k + |a| <= |r| && r[k + |a|..] == " " + t.currency + " on " + dateText + " by " + username
  {
    var name := TypeName(t.txType);
    var amount := CentsText(t.amountInUsd);
    var r := name + " of " + amount + " " + t.currency + " on " + dateText + " by " + username;
    assert r[..|name|] == name;
    assert r[|name|..|name| + 4] == " of ";
    assert r[|name| + 4..|name| + 4 + |amount|] == amount;
    assert r[|name| + 4 + |amount|..] == " " + t.currency + " on " + dateText + " by " + username;
    CentsTextRoundTrip(t.amountInUsd);
    r
  }

  /** A row of the `Category` table. */
  datatype Category = Category(id: CategoryId, name: string)

  const CategoryNameMaxLength: nat := 50

  /** The table's constraints: ids are keys, names are unique (`unique=True`) and
      at most fifty characters long. */
  predicate ValidCategories(cats: seq<Category>) {
    && (forall c :: c in cats ==> |c.name| <= CategoryNameMaxLength)
    && (forall i, j :: 0 <= i < j < |cats| ==> cats[i].id != cats[j].id && cats[i].name != cats[j].name)
  }

  datatype CategoryError = NameTooLong | NameTaken | IdTaken

  /** Inserting a category: the database refuses a name that is too long or already
      used (an integrity error) and otherwise appends the row. */
  function AddCategory(cats: seq<Category>, c: Category): (r: Result<seq<Category>, CategoryError>)
    requires ValidCategories(cats)
    ensures r.Success? <==> |c.name| <= CategoryNameMaxLength
                            && (forall d :: d in cats ==> d.name != c.name && d.id != c.id)
    ensures r.Success? ==> r.value == cats + [c] && ValidCategories(r.value)
    ensures r.Failure? ==> (r.error == NameTaken <==> exists d :: d in cats && d.name == c.name)
  {
    if |c.name| > CategoryNameMaxLength then
      if exists d :: d in cats && d.name == c.name then Failure(NameTaken) else Failure(NameTooLong)
    else if exists d :: d in cats && d.name == c.name then Failure(NameTaken)
    else if exists d :: d in cats && d.id == c.id then Failure(IdTaken)
    else
      var r := cats + [c];
      assert forall i :: 0 <= i < |cats| ==> r[i] == cats[i] && r[i] in cats;
      Success(r)
  }

  /** `Category.objects.get(id=...)`: the row with that id, if any. */
  function CategoryById(cats: seq<Category>, id: CategoryId): (r: Option<Category>)
    ensures r.Some? ==> r.value in cats && r.value.id == id
    ensures r.None? ==> forall c :: c in cats ==> c.id != id
  {
    if cats == [] then None
    else if cats[0].id == id then Some(cats[0])
    else CategoryById(cats[1..], id)
  }

  /** Because ids are keys, the lookup by id finds the one row that carries it. */
  lemma {:induction false} CategoryIdIsKey(cats: seq<Category>, c: Category)
    requires ValidCategories(cats) && c in cats
    ensures CategoryById(cats, c.id) == Some(c)
  {
    if cats[0] != c {
      assert cats[0].id != c.id by {
        var j :| 0 <= j < |cats| && cats[j] == c;
        assert j != 0;
      }
      assert ValidCategories(cats[1..]) by {
        forall i, j | 0 <= i < j < |cats[1..]|
          ensures cats[1..][i].id != cats[1..][j].id && cats[1..][i].name != cats[1..][j].name
        {
          assert cats[1..][i] == cats[i + 1] && cats[1..][j] == cats[j + 1];
        }
      }
      CategoryIdIsKey(cats[1..], c);
    }
  }

  /** Rows with different ids carry different names. */
  lemma DistinctIdsDistinctNames(cats: seq<Category>, c: Category, d: Category)
    requires ValidCategories(cats) && c in cats && d in cats && c.id != d.id
    ensures c.name != d.name
  {
    var i :| 0 <= i < |cats| && cats[i] == c;
    var j :| 0 <= j < |cats| && cats[j] == d;
    assert i != j;
  }

  /** A user profile; `username` stands for `self.user.username`. `id` is `None`
      until the first save assigns the primary key. The slug column is unique, so
      a save whose slug another row already holds is refused by the database. */
  class Profile {
    var id: Option<nat>
    var username: string
    var slug: string

    constructor (username: string)
      ensures this.id.None? && this.username == username && this.slug == ""
    {
      this.id := None;
      this.username := username;
      this.slug := "";
    }

    /** `Profile.save`: on the first save the slug is derived from the username
        and, if the insert succeeds, the row receives its key; later saves keep
        both. `slugify` is Django's slug function, `newId` the key the database
        would assign (keys start at 1, so a saved object's key is never the falsy
        0 that `if not self.id` would read as unsaved) and `taken` the slugs of
        the other rows. `saved` is false when
        the database refuses the write because the slug is taken; the object then
        keeps the derived slug but no key. */
    method Save(slugify: string -> string, newId: nat, taken: set<string>) returns (saved: bool)
      requires newId > 0
      modifies this
      ensures saved <==> slug !in taken
      ensures old(id).None? ==> slug == slugify(username) && id == (if saved then Some(newId) else None)
      ensures old(id).Some? ==> id == old(id) && slug == old(slug)
      ensures username == old(username)
    {
      if id.None? {
        slug := slugify(username);
      }
      saved := slug !in taken;
      if saved && id.None? {
        id := Some(newId);
      }
    }
  }

  /** A blog tag; its slug follows the same first-save rule, from the tag name,
      and is unique in the same way. */
  class Tag {
    var id: Option<nat>
    var name: string
    var slug: string

    constructor (name: string)
      ensures this.id.None? && this.name == name && this.slug == ""
    {
      this.id := None;
      this.name := name;
      this.slug := "";
    }

    /** `Tag.save`: the slug is set from the name on the first save only; the
        database refuses the write when another row holds the slug. */
    method Save(slugify: string -> string, newId: nat, taken: set<string>) returns (saved: bool)
      requires newId > 0
      modifies this
      ensures saved <==> slug !in taken
      ensures old(id).None? ==> slug == slugify(name) && id == (if saved then Some(newId) else None)
      ensures old(id).Some? ==> id == old(id) && slug == old(slug)
      ensures name == old(name)
    {
      if id.None? {
        slug := slugify(name);
      }
      saved := slug !in taken;
      if saved && id.None? {
        id := Some(newId);
      }
    }
  }

  /** Renaming a saved profile and saving it again leaves the slug the first save
      derived from the original username, even when the new name would slugify to
      something else. */
  method RenameAfterFirstSave(p: Profile, slugify: string -> string, newName: string, k1: nat, k2: nat,
                              taken: set<string>)
    requires p.id.None? && slugify(p.username) !in taken && k1 > 0 && k2 > 0
    modifies p
    ensures p.slug == slugify(old(p.username)) && p.username == newName && p.id == Some(k1)
  {
    var first := p.Save(slugify, k1, taken);
    p.username := newName;
    var second := p.Save(slugify, k2, taken);
  }

  /** Two usernames that slugify alike cannot both get a profile: once the first
      profile holds the slug, the second profile's first save is refused and the
      profile gets no key. */
  method SecondProfileWithSameSlug(p: Profile, q: Profile, slugify: string -> string, k1: nat, k2: nat)
    returns (firstSaved: bool, secondSaved: bool)
    requires p != q && p.id.None? && q.id.None? && slugify(p.username) == slugify(q.username)
    requires k1 > 0 && k2 > 0
    modifies p, q
    ensures firstSaved && !secondSaved && p.id == Some(k1) && q.id.None?
  {
    firstSaved := p.Save(slugify, k1, {});
    secondSaved := q.Save(slugify, k2, {p.slug});
  }
}
