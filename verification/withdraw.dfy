/** The user's withdraw page. The balance comes from the wallet query and may
    still be undefined; the submission goes through `unwrap`, so a server
    error lands in the `catch` branch. */
module UserWithdraw {
  import opened Wrappers
  import opened AmountField

  /** `form.amount && parseFloat(form.amount) > availableBalance`; a
      comparison with `undefined` is false, so an unknown balance is never
      exceeded. */
  predicate Exceeds(form: MoneyForm, parse: Parser, balance: Option<real>)
  {
    balance.Some? && ExceedsBalance(form.amount, parse, balance.value)
  }

  /** `disabled={!isValidAmount || !!isAmountExceedsBalance}`, negated. */
  predicate ButtonEnabled(form: MoneyForm, parse: Parser, balance: Option<real>)
  {
    IsValidAmount(form.amount, parse) && !Exceeds(form, parse, balance)
  }

  /** The enabled button means a positive amount within a known balance, or
      any positive amount while the balance is still loading. */
  lemma ButtonEnabledMeaning(form: MoneyForm, parse: Parser, balance: Option<real>)
    ensures ButtonEnabled(form, parse, balance) <==>
              && form.amount != ""
              && parse(form.amount).Some?
              && 0.0 < parse(form.amount).value
              && (balance.None? || parse(form.amount).value <= balance.value)
  {
  }

  /** Page state after a submission: the form and the toast shown. */
  datatype WithdrawState = WithdrawState(form: MoneyForm, toast: Toast)

  /** `handleWithdraw`: posts `parseInt(amount)`; on success the form is
      cleared and nothing is shown, on an error the form stays and an error
      toast appears. The server's answer is a parameter. */
  function HandleWithdraw(form: MoneyForm, parse: Parser, outcome: Result<string, string>): (r: (MoneyRequest, WithdrawState))
    ensures r.0.amount == ParseInt(form.amount, parse) && r.0.description == form.description
    ensures outcome.Success? <==> r.1.form == EmptyForm && r.1.toast == NoToast
    ensures outcome.Failure? <==> r.1.form == form && r.1.toast == ErrorToast("something went wrong")
  {
    var request := ToRequest(form, parse);
    match outcome
    case Success(_) => (request, WithdrawState(EmptyForm, NoToast))
    case Failure(_) => (request, WithdrawState(form, ErrorToast("something went wrong")))
  }

  /** "Withdraw All": `availableBalance.toString()` into the amount field;
      before the balance has loaded this throws a `TypeError`. */
  function WithdrawAll(form: MoneyForm, balance: Option<real>, show: real -> string): (r: Result<MoneyForm, string>)
    ensures r.Failure? <==> balance.None?
    ensures r.Success? ==> r.value.amount == show(balance.value) && r.value.description == form.description
  {
    match balance
    case None => Failure("TypeError")
    case Some(b) => Success(form.(amount := show(b)))
  }

  /** With a loaded positive balance and a round-tripping number printer,
      "Withdraw All" enables the button and submits the whole-dollar part of
      the balance. */
  lemma WithdrawAllEnables(form: MoneyForm, b: real, show: real -> string, parse: Parser)
    requires b > 0.0 && show(b) != "" && parse(show(b)) == Some(b)
    ensures WithdrawAll(form, Some(b), show).Success?
    ensures ButtonEnabled(WithdrawAll(form, Some(b), show).value, parse, Some(b))
    ensures ToRequest(WithdrawAll(form, Some(b), show).value, parse).amount == Some(b.Floor)
  {
  }
}
