/** The form rules of the finance tracker: the currency choices of
    `TransactionForm`, its amount cleaner, and the cleaners of `NewUserForm`. A
    cleaner either returns the cleaned value or raises a validation error, modelled
    as `Failure`. */
module Forms {
  import opened Wrappers
  import opened Text
  import opened Models

  datatype ValidationError =
    | AmountNotPositive
    | UserAlreadyExists
    | EmailAlreadyExists
    | PasswordsDontMatch

  /** A choice: the stored code and its label. */
  type Choice = (string, string)

  /** `DEFAULT_CURRENCIES`. */
  const DefaultCurrencies: seq<Choice> := [
    ("USD", "US Dollar"),
    ("EUR", "Euro"),
    ("GBP", "British Pound"),
    ("JPY", "Japanese Yen"),
    ("AUD", "Australian Dollar"),
    ("CAD", "Canadian Dollar"),
    ("CHF", "Swiss Franc"),
    ("CNY", "Chinese Yuan"),
    ("INR", "Indian Rupee")
  ]

  predicate DistinctCodes(choices: seq<Choice>) {
    forall i, j :: 0 <= i < j < |choices| ==> choices[i].0 != choices[j].0
  }

  /** The default list offers nine currencies, each code once. */
  lemma DefaultCurrenciesAreDistinct()
    ensures |DefaultCurrencies| == 9 && DistinctCodes(DefaultCurrencies)
  {
  }

  /** The choices `TransactionForm.__init__` installs: a non-empty `currencies`
      list replaces the defaults, while `None` or an empty list falls back to them,
      so the form always offers at least one currency. */
  function CurrencyChoices(currencies: Option<seq<Choice>>): (r: seq<Choice>)
    ensures |r| >= 1
    ensures currencies.Some? && currencies.value != [] ==> r == currencies.value
    ensures currencies.None? || currencies.value == [] ==> r == DefaultCurrencies
  {
    if currencies.Some? && currencies.value != [] then currencies.value else DefaultCurrencies
  }

  /** The codes a submitted `currency` may take. */
  function ChoiceCodes(choices: seq<Choice>): (r: set<string>)
    ensures forall i :: 0 <= i < |choices| ==> choices[i].0 in r
    ensures forall c :: c in r ==> exists i :: 0 <= i < |choices| && choices[i].0 == c
  {
    set i | 0 <= i < |choices| :: choices[i].0
  }

  /** The part of `TransactionForm` whose state its constructor changes. */
  class TransactionForm {
    var currencyChoices: seq<Choice>

    /** `TransactionForm.__init__(currencies=...)`. */
    constructor (currencies: Option<seq<Choice>>)
      ensures currencyChoices == CurrencyChoices(currencies)
    {
      if currencies.Some? && currencies.value != [] {
        currencyChoices := currencies.value;
      } else {
        currencyChoices := DefaultCurrencies;
      }
    }
  }

  /** `TransactionForm.clean_amount`: a positive amount passes unchanged, any other
      is refused. */
  function CleanAmount(amount: Cents): (r: Result<Cents, ValidationError>)
    ensures r.Success? <==> amount > 0
    ensures r.Success? ==> r.value == amount
    ensures r.Failure? ==> r.error == AmountNotPositive
  {
    if amount <= 0 then Failure(AmountNotPositive) else Success(amount)
  }

  /** A field of `TransactionForm` that failed validation. */
  datatype FieldError =
    | TypeNotAChoice
    | AmountTooLarge
    | AmountMustBePositive
    | CurrencyNotAChoice
    | CurrencyTooLong
    | CategoryNotAChoice

  /** What a transaction form receives: the submitted `type`, `amount`, `currency`,
      `date` and `category`, each already read as a value of its field type. */
  datatype TransactionData = TransactionData(
    txType: string, amount: Cents, currency: string, date: Date, category: CategoryId)

  /** The cleaned data of a valid form. */
  datatype CleanedTransaction = CleanedTransaction(
    txType: TxType, amount: Cents, currency: string, date: Date, category: CategoryId)

  /** The fields that fail: the type must be one of the two choices; the amount must
      fit `DecimalField(10, 2)` and, once it does, pass `clean_amount`; the currency
      must be one of the form's choices and, once it is, fit the model column's
      `max_length=100`, which `full_clean` checks only for fields the form accepted;
      the category must be a row of the `Category` table. */
  function FieldErrors(choices: seq<Choice>, data: TransactionData, cats: seq<Category>): set<FieldError> {
    (if ParseType(data.txType).None? then {TypeNotAChoice} else {})
    + (if !FitsMoneyField(data.amount) then {AmountTooLarge}
       else if CleanAmount(data.amount).Failure? then {AmountMustBePositive} else {})
    + (if data.currency !in ChoiceCodes(choices) then {CurrencyNotAChoice}
       else if |data.currency| > 100 then {CurrencyTooLong} else {})
    + (if CategoryById(cats, data.category).None? then {CategoryNotAChoice} else {})
  }

  /** `form.is_valid()` with `form.cleaned_data` or `form.errors`, for a form
      offering `choices`: every failing field is reported and no other. */
  function ValidateTransaction(choices: seq<Choice>, data: TransactionData, cats: seq<Category>)
    : (r: Result<CleanedTransaction, set<FieldError>>)
    ensures r.Success? <==> && ParseType(data.txType).Some?
                            && FitsMoneyField(data.amount) && data.amount > 0
                            && (exists i :: 0 <= i < |choices| && choices[i].0 == data.currency)
                            && |data.currency| <= 100
                            && (exists c :: c in cats && c.id == data.category)
    ensures r.Success? ==> && TypeName(r.value.txType) == data.txType
                           && r.value.amount == data.amount && r.value.currency == data.currency
                           && r.value.date == data.date && r.value.category == data.category
    ensures r.Failure? ==> r.error != {}
    ensures r.Failure? ==> (TypeNotAChoice in r.error <==> ParseType(data.txType).None?)
    ensures r.Failure? ==> (AmountTooLarge in r.error <==> !FitsMoneyField(data.amount))
    ensures r.Failure? ==> (AmountMustBePositive in r.error <==> FitsMoneyField(data.amount) && data.amount <= 0)
    ensures r.Failure? ==> (CurrencyNotAChoice in r.error <==> forall i :: 0 <= i < |choices| ==> choices[i].0 != data.currency)
    ensures r.Failure? ==> (CurrencyTooLong in r.error <==>
      (exists i :: 0 <= i < |choices| && choices[i].0 == data.currency) && |data.currency| > 100)
    ensures r.Failure? ==> (CategoryNotAChoice in r.error <==> forall c :: c in cats ==> c.id != data.category)
  {
    var errors := FieldErrors(choices, data, cats);
    if errors != {} then Failure(errors)
    else
      var ty := ParseType(data.txType).value;
      TypeNameRoundTrip(ty, data.txType);
      Success(CleanedTransaction(ty, data.amount, data.currency, data.date, data.category))
  }

  /** `NewUserForm.clean_username`: the lower-cased username, refused if a user
      with that lower-cased name exists. */
  function CleanUsername(username: string, existing: set<string>): (r: Result<string, ValidationError>)
    ensures r.Success? <==> Lower(username) !in existing
    ensures r.Success? ==> r.value == Lower(username) && IsLowerCase(r.value)
    ensures r.Failure? ==> r.error == UserAlreadyExists
  {
    var name := Lower(username);
    LowerIsLowerCase(username);
    if name in existing then Failure(UserAlreadyExists) else Success(name)
  }

  /** `NewUserForm.clean_email`: the lower-cased email, refused if a user with
      that email exists. */
  function CleanEmail(email: string, existing: set<string>): (r: Result<string, ValidationError>)
    ensures r.Success? <==> Lower(email) !in existing
    ensures r.Success? ==> r.value == Lower(email) && IsLowerCase(r.value)
    ensures r.Failure? ==> r.error == EmailAlreadyExists
  {
    var address := Lower(email);
    LowerIsLowerCase(email);
    if address in existing then Failure(EmailAlreadyExists) else Success(address)
  }

  /** Once a username has been registered through the form, every spelling of it
      that differs only in letter case is refused. */
  lemma RegisteredNameBlocksCaseVariants(first: string, later: string, existing: set<string>)
    requires CleanUsername(first, existing).Success?
    requires Lower(later) == Lower(first)
    ensures CleanUsername(later, existing + {CleanUsername(first, existing).value}).Failure?
  {
  }

  /** `NewUserForm.clean_password2`: an error only when both passwords are
      non-empty and differ; otherwise the second password is returned. */
  function CleanPassword2(password1: string, password2: string): (r: Result<string, ValidationError>)
    ensures r.Failure? <==> password1 != "" && password2 != "" && password1 != password2
    ensures r.Success? ==> r.value == password2
    ensures r.Failure? ==> r.error == PasswordsDontMatch
  {
    if password1 != "" && password2 != "" && password1 != password2 then Failure(PasswordsDontMatch)
    else Success(password2)
  }
}
