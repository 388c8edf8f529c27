/** The agent's cash-out page: the 1.5% fee preview with its $1.50 floor, the
    withdraw gate, and the preview card's and button's conditions. */
module Cashout {
  import opened Wrappers
  import opened Text
  import opened AmountField

  datatype CashoutState = CashoutState(form: MoneyForm, showPreview: bool)

  const InitialCashout := CashoutState(EmptyForm, false)

  /** The placeholder balance used when the page is given none. */
  const DefaultBalance: real := 12847.32

  /** `Math.max(amount * 0.015, 1.50)`. */
  function Fee(amount: real): (r: real)
    ensures r >= 1.50 && r >= amount * 3.0 / 200.0
    ensures amount >= 100.0 ==> r == amount * 3.0 / 200.0
    ensures amount <= 100.0 ==> r == 1.50
  {
    if amount * 0.015 >= 1.50 then amount * 0.015 else 1.50
  }

  /** `amount + Math.max(amount * 0.015, 1.50)`. */
  function Total(amount: real): (r: real)
    ensures r >= amount + 1.50
    ensures amount >= 100.0 ==> r == amount * 1.015
    ensures amount <= 100.0 ==> r == amount + 1.50
  {
    amount + Fee(amount)
  }

  datatype Preview = Preview(amount: real, fee: real, total: real, status: string, referenceId: string, estimatedTime: string)

  /** `generatePreview`; `clock` is the text of `Date.now()`. */
  function GeneratePreview(amount: real, clock: string): (p: Preview)
    ensures p.amount == amount && p.fee == Fee(amount) && p.total == Total(amount)
    ensures p.total == p.amount + p.fee
    ensures p.status == "pending"
    ensures 4 <= |p.referenceId| <= 12 && p.referenceId[..4] == "WTH-"
  {
    Preview(amount, Fee(amount), amount + Fee(amount), "pending", "WTH-" + LastEight(clock), "1-3 business days")
  }

  /** `preview`: present whenever the amount is valid, whatever the balance. */
  function CurrentPreview(st: CashoutState, parse: Parser, clock: string): (r: Option<Preview>)
    ensures r.Some? <==> st.form.amount != "" && parse(st.form.amount).Some? && parse(st.form.amount).value > 0.0
    ensures r.Some? ==> r.value.amount == parse(st.form.amount).value && r.value.total > r.value.amount
    ensures r.Some? ==> r.value == GeneratePreview(parse(st.form.amount).value, clock)
  {
    if IsValidAmount(st.form.amount, parse) then Some(GeneratePreview(parse(st.form.amount).value, clock)) else None
  }

  /** The preview card: `preview && showPreview && !isAmountExceedsBalance`. */
  predicate PreviewCardShown(st: CashoutState, parse: Parser, balance: real, clock: string)
  {
    CurrentPreview(st, parse, clock).Some? && st.showPreview && !ExceedsBalance(st.form.amount, parse, balance)
  }

  /** The button `disabled={!isValidAmount || isAmountExceedsBalance || isLoading}`. */
  predicate WithdrawDisabled(st: CashoutState, parse: Parser, balance: real, isLoading: bool)
  {
    !IsValidAmount(st.form.amount, parse) || ExceedsBalance(st.form.amount, parse, balance) || isLoading
  }

  /** `handleWithdraw`: when the parsed amount is positive and within the
      balance, show the preview and hand the form to `onWithdraw` (if given);
      otherwise nothing happens. */
  function HandleWithdraw(st: CashoutState, parse: Parser, balance: real, hasOnWithdraw: bool): (r: (CashoutState, Option<MoneyForm>))
    ensures HandlerAccepts(parse(st.form.amount), balance) ==>
              r.0 == st.(showPreview := true) && (r.1.Some? <==> hasOnWithdraw) && (r.1.Some? ==> r.1.value == st.form)
    ensures !HandlerAccepts(parse(st.form.amount), balance) ==> r == (st, None)
  {
    if HandlerAccepts(parse(st.form.amount), balance) then
      (st.(showPreview := true), if hasOnWithdraw then Some(st.form) else None)
    else (st, None)
  }

  /** The button is enabled (not loading) exactly when a click would go
      through, and the click then shows the preview card. */
  lemma ButtonMatchesHandler(st: CashoutState, parse: Parser, balance: real, clock: string)
    requires EmptyIsNaN(parse)
    ensures !WithdrawDisabled(st, parse, balance, false) <==> HandleWithdraw(st, parse, balance, true).1.Some?
    ensures !WithdrawDisabled(st, parse, balance, false) ==>
              PreviewCardShown(HandleWithdraw(st, parse, balance, true).0, parse, balance, clock)
  {
    HandlerMatchesButton(st.form.amount, parse, balance);
  }

  /** A shown preview card never describes an amount above the balance. */
  lemma ShownCardWithinBalance(st: CashoutState, parse: Parser, balance: real, clock: string)
    requires PreviewCardShown(st, parse, balance, clock)
    ensures 0.0 < CurrentPreview(st, parse, clock).value.amount <= balance
  {
  }

  /** "Withdraw All": the amount field takes `availableBalance.toString()`. */
  function WithdrawAll(st: CashoutState, balance: real, show: real -> string): (r: CashoutState)
    ensures r.form.amount == show(balance)
    ensures r.form.description == st.form.description && r.showPreview == st.showPreview
  {
    st.(form := st.form.(amount := show(balance)))
  }

  /** When the number printer and parser round-trip, "Withdraw All" on a
      positive balance enables the button, and the preview's total is the
      balance plus a fee of at least $1.50. */
  lemma WithdrawAllEnables(st: CashoutState, balance: real, show: real -> string, parse: Parser, clock: string)
    requires balance > 0.0 && show(balance) != "" && parse(show(balance)) == Some(balance)
    ensures !WithdrawDisabled(WithdrawAll(st, balance, show), parse, balance, false)
    ensures CurrentPreview(WithdrawAll(st, balance, show), parse, clock).value.total >= balance + 1.50
  {
  }

  /** "Edit Details" hides the preview and keeps the form. */
  function EditDetails(st: CashoutState): (r: CashoutState)
    ensures !r.showPreview && r.form == st.form
  {
    st.(showPreview := false)
  }
}
