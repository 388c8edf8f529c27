/** The amount field shared by the money forms. Each form keeps the amount as
    the raw text of a number input and reads it with `parseFloat`, which is a
    parameter here: `None` stands for `NaN`. */
module AmountField {
  import opened Wrappers

  /** The amount and description fields of a money form, as typed. */
  datatype MoneyForm = MoneyForm(amount: string, description: string)

  const EmptyForm := MoneyForm("", "")

  /** What a submission would post: `parseInt` of the amount (`None` for
      `NaN`) and the description. */
  datatype MoneyRequest = MoneyRequest(amount: Option<int>, description: string)

  /** A toast notification, or none. */
  datatype Toast = NoToast | SuccessToast(message: string) | ErrorToast(message: string)

  /** `parseFloat`, abstracted. */
  type Parser = string -> Option<real>

  /** `parseFloat("")` is `NaN`, as in every JavaScript engine. */
  predicate EmptyIsNaN(parse: Parser)
  {
    parse("") == None
  }

  /** `form.amount && parseFloat(form.amount) > 0`. */
  predicate IsValidAmount(field: string, parse: Parser)
  {
    field != "" && parse(field).Some? && parse(field).value > 0.0
  }

  /** `form.amount && parseFloat(form.amount) > availableBalance`. */
  predicate ExceedsBalance(field: string, parse: Parser, balance: real)
  {
    field != "" && parse(field).Some? && parse(field).value > balance
  }

  /** `form.amount && parseFloat(form.amount) <= 0`: the "must be positive" message. */
  predicate ShowsNonPositiveError(field: string, parse: Parser)
  {
    field != "" && parse(field).Some? && parse(field).value <= 0.0
  }

  /** The handlers' own test `amount && amount > 0 && amount <= availableBalance`
      on the parsed number (`NaN` and `0` are falsy). */
  predicate HandlerAccepts(parsed: Option<real>, balance: real)
  {
    parsed.Some? && parsed.value != 0.0 && parsed.value > 0.0 && parsed.value <= balance
  }

  /** The handler's test and the button's enabling test agree; the two only
      differ for the empty field, which `parseFloat` reads as `NaN`. */
  lemma HandlerMatchesButton(field: string, parse: Parser, balance: real)
    requires EmptyIsNaN(parse)
    ensures HandlerAccepts(parse(field), balance) <==>
              IsValidAmount(field, parse) && !ExceedsBalance(field, parse, balance)
  {
  }

  /** Truncation toward zero, the integer part `parseInt` keeps of a decimal. */
  function Truncate(x: real): (r: int)
    ensures x >= 0.0 ==> r >= 0 && r as real <= x < r as real + 1.0
    ensures x < 0.0 ==> r <= 0 && r as real - 1.0 < x <= r as real
  {
    if x >= 0.0 then x.Floor else -((-x).Floor)
  }

  /** `parseInt(field)`: the truncated parse, `None` for `NaN`. */
  function ParseInt(field: string, parse: Parser): (r: Option<int>)
    ensures r.Some? <==> parse(field).Some?
    ensures r.Some? ==> r.value == Truncate(parse(field).value)
  {
    match parse(field)
    case Some(v) => Some(Truncate(v))
    case None => None
  }

  /** The request a form submits: the amount through `parseInt`. */
  function ToRequest(form: MoneyForm, parse: Parser): (r: MoneyRequest)
    ensures r.description == form.description
    ensures r.amount.Some? <==> parse(form.amount).Some?
    ensures r.amount == ParseInt(form.amount, parse)
    ensures r.amount.Some? ==> r.amount.value as real <= parse(form.amount).value || parse(form.amount).value < 0.0
  {
    MoneyRequest(ParseInt(form.amount, parse), form.description)
  }

  /** A valid amount below one (say "0.5") enables the button yet submits a
      zero amount: `parseInt` drops the fraction. */
  lemma FractionalAmountSubmitsZero(form: MoneyForm, parse: Parser)
    requires IsValidAmount(form.amount, parse) && parse(form.amount).value < 1.0
    ensures ToRequest(form, parse).amount == Some(0)
  {
  }

  /** A valid amount of at least one submits a positive whole number no
      larger than the typed amount. */
  lemma TruncatedValidAmount(field: string, parse: Parser)
    requires IsValidAmount(field, parse) && parse(field).value >= 1.0
    ensures ParseInt(field, parse).Some?
    ensures 1 <= ParseInt(field, parse).value
    ensures ParseInt(field, parse).value as real <= parse(field).value
  {
  }
}
