/** The user's deposit page. The button needs only a positive amount. The
    submission does not go through `unwrap`: the mutation's promise resolves
    with `{ error }` on a server error instead of rejecting. */
module UserDeposit {
  import opened Wrappers
  import opened AmountField

  /** `disabled={!isValidAmount}`, negated. */
  predicate ButtonEnabled(form: MoneyForm, parse: Parser)
  {
    IsValidAmount(form.amount, parse)
  }

  /** The "greater than $0.00" message. */
  predicate ErrorShown(form: MoneyForm, parse: Parser)
  {
    ShowsNonPositiveError(form.amount, parse)
  }

  /** The message and the enabled button never appear together, but both are
      absent for an empty field or one `parseFloat` cannot read. */
  lemma ErrorAndButtonExclusive(form: MoneyForm, parse: Parser)
    ensures !(ErrorShown(form, parse) && ButtonEnabled(form, parse))
    ensures !ErrorShown(form, parse) && !ButtonEnabled(form, parse) <==>
              form.amount == "" || parse(form.amount).None?
  {
  }

  /** The mutation's resolved value: `{ data }` with the transaction's
      reference id (which the body may lack), or `{ error }`. */
  type Response = Result<Option<string>, string>

  /** The text the page puts after "trans_id ": the id, or "undefined". */
  function ReferenceText(reference: Option<string>): (t: string)
    ensures reference.Some? ==> t == reference.value
    ensures reference.None? ==> t == "undefined"
  {
    reference.GetOr("undefined")
  }

  datatype DepositState = DepositState(form: MoneyForm, toast: Toast)

  /** `handleDeposit` as written: whatever the server answers, the page shows
      the success toast and clears the form. */
  function HandleDeposit(form: MoneyForm, parse: Parser, response: Response): (r: (MoneyRequest, DepositState))
    ensures r.0.amount == ParseInt(form.amount, parse) && r.0.description == form.description
    ensures r.1.form == EmptyForm
    ensures r.1.toast.SuccessToast?
    ensures response.Success? ==> r.1.toast.message == "deposit success trans_id " + ReferenceText(response.value)
    ensures response.Failure? ==> r.1.toast.message == "deposit success trans_id undefined"
  {
    var reference := if response.Success? then response.value else None;
    (ToRequest(form, parse), DepositState(EmptyForm, SuccessToast("deposit success trans_id " + ReferenceText(reference))))
  }

  /** A rejected deposit is reported as a success and the typed amount is lost. */
  lemma FailedDepositReportsSuccess(form: MoneyForm, parse: Parser, error: string)
    ensures var r := HandleDeposit(form, parse, Failure(error));
            && r.1.toast == SuccessToast("deposit success trans_id undefined")
            && r.1.form == EmptyForm
            && (form != EmptyForm ==> r.1.form != form)
  {
  }

  /** `handleDeposit` with the result unwrapped, as the withdraw page does:
      success clears the form and names the transaction; an error keeps the
      form and shows the `catch` branch's toast. */
  function HandleDepositCorrected(form: MoneyForm, parse: Parser, response: Response): (r: (MoneyRequest, DepositState))
    ensures r.0 == HandleDeposit(form, parse, response).0
    ensures response.Success? ==> r.1 == HandleDeposit(form, parse, response).1
    ensures response.Failure? ==> r.1.form == form && r.1.toast == ErrorToast("something went wrong try again later")
    ensures r.1.toast.SuccessToast? <==> response.Success?
  {
    var request := ToRequest(form, parse);
    match response
    case Success(reference) =>
      (request, DepositState(EmptyForm, SuccessToast("deposit success trans_id " + ReferenceText(reference))))
    case Failure(_) =>
      (request, DepositState(form, ErrorToast("something went wrong try again later")))
  }
}
