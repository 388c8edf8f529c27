/** The user's "Send Money" page: recipient search and selection, the 1% fee
    preview with its $0.50 floor, and the `canSend` gate. */
module SendMoney {
  import opened Wrappers
  import opened Seqs
  import opened Text
  import opened AmountField

  datatype Recipient = Recipient(id: string, name: string, email: string, phone: string)

  datatype SendForm = SendForm(recipient: string, amount: string, description: string)

  datatype SendState = SendState(
    form: SendForm,
    selected: Option<Recipient>,
    results: seq<Recipient>,
    isSearching: bool,
    showPreview: bool)

  const InitialSend := SendState(SendForm("", "", ""), None, [], false, false)

  /** The placeholder balance used when the page is given none. */
  const DefaultBalance: real := 12847.32

  /** The page's placeholder directory of recipients. */
  const MockRecipients: seq<Recipient> := [
    Recipient("1", "Alice Johnson", "alice.johnson@email.com", "+1 (555) 123-4567"),
    Recipient("2", "Bob Smith", "bob.smith@email.com", "+1 (555) 987-6543"),
    Recipient("3", "Carol Davis", "carol.davis@email.com", "+1 (555) 456-7890"),
    Recipient("4", "David Wilson", "david.wilson@email.com", "+1 (555) 321-9876")
  ]

  // ---------------------------------------------------------------------
  // Fee and preview

  /** `Math.max(amount * 0.01, 0.50)`. */
  function Fee(amount: real): (r: real)
    ensures r >= 0.50 && r >= amount / 100.0
    ensures amount >= 50.0 ==> r == amount / 100.0
    ensures amount <= 50.0 ==> r == 0.50
  {
    if amount * 0.01 >= 0.50 then amount * 0.01 else 0.50
  }

  /** `amount + Math.max(amount * 0.01, 0.50)`. */
  function Total(amount: real): (r: real)
    ensures r >= amount + 0.50
    ensures amount >= 50.0 ==> r == amount * 1.01
    ensures amount <= 50.0 ==> r == amount + 0.50
  {
    amount + Fee(amount)
  }

  datatype Preview = Preview(
    amount: real,
    fee: real,
    total: real,
    status: string,
    referenceId: string,
    estimatedTime: string,
    recipient: Recipient)

  /** `generatePreview`; `clock` is the text of `Date.now()`. */
  function GeneratePreview(amount: real, r: Recipient, clock: string): (p: Preview)
    ensures p.amount == amount && p.recipient == r
    ensures p.fee == Fee(amount) && p.total == Total(amount)
    ensures p.total == p.amount + p.fee && p.fee >= 0.50
    ensures p.status == "pending"
    ensures 4 <= |p.referenceId| <= 12 && p.referenceId[..4] == "SND-"
  {
    Preview(amount, Fee(amount), amount + Fee(amount), "pending", "SND-" + LastEight(clock), "Instant", r)
  }

  /** `canSend`: a valid amount within the balance and a chosen recipient. */
  predicate CanSend(st: SendState, parse: Parser, balance: real)
  {
    && IsValidAmount(st.form.amount, parse)
    && !ExceedsBalance(st.form.amount, parse, balance)
    && st.selected.Some?
  }

  /** `preview`: computed only when `canSend` holds. */
  function CurrentPreview(st: SendState, parse: Parser, balance: real, clock: string): (r: Option<Preview>)
    ensures r.Some? <==> CanSend(st, parse, balance)
    ensures r.Some? ==> 0.0 < r.value.amount <= balance && r.value.total > r.value.amount
    ensures r.Some? ==> r.value.recipient == st.selected.value
    ensures r.Some? ==> r.value == GeneratePreview(parse(st.form.amount).value, st.selected.value, clock)
  {
    if CanSend(st, parse, balance)
    then Some(GeneratePreview(parse(st.form.amount).value, st.selected.value, clock))
    else None
  }

  /** "Remaining balance" on the preview card. */
  function RemainingBalance(balance: real, p: Preview): real
  {
    balance - p.total
  }

  /** The gate compares the amount, not the total, with the balance: sending
      the whole balance is permitted and the preview then shows a negative
      remaining balance (the fee). */
  lemma WholeBalanceSendOverdraws(st: SendState, parse: Parser, balance: real, clock: string)
    requires CanSend(st, parse, balance) && parse(st.form.amount).value == balance
    ensures CurrentPreview(st, parse, balance, clock).Some?
    ensures RemainingBalance(balance, CurrentPreview(st, parse, balance, clock).value) == -Fee(balance) < 0.0
  {
  }

  // ---------------------------------------------------------------------
  // Sending

  /** What `onSend` receives: the form plus the chosen recipient's id. */
  datatype SendRequest = SendRequest(recipient: string, amount: string, description: string, recipientId: string)

  /** `handleSend`. The gate re-parses the amount; when it passes, the preview
      is shown and the request goes out (if an `onSend` callback was given). */
  function HandleSend(st: SendState, parse: Parser, balance: real, hasOnSend: bool): (r: (SendState, Option<SendRequest>))
    ensures HandlerAccepts(parse(st.form.amount), balance) && st.selected.Some? ==>
              && r.0 == st.(showPreview := true)
              && (r.1.Some? <==> hasOnSend)
              && (r.1.Some? ==> r.1.value == SendRequest(st.form.recipient, st.form.amount, st.form.description, st.selected.value.id))
    ensures !(HandlerAccepts(parse(st.form.amount), balance) && st.selected.Some?) ==> r.0 == st && r.1 == None
  {
    if HandlerAccepts(parse(st.form.amount), balance) && st.selected.Some? then
      var req := if hasOnSend
        then Some(SendRequest(st.form.recipient, st.form.amount, st.form.description, st.selected.value.id))
        else None;
      (st.(showPreview := true), req)
    else (st, None)
  }

  /** The Send button is enabled (and not loading) exactly when a click
      would send; then the preview card appears. */
  lemma SendButtonMatchesHandler(st: SendState, parse: Parser, balance: real, clock: string)
    requires EmptyIsNaN(parse)
    ensures CanSend(st, parse, balance) <==> HandleSend(st, parse, balance, true).1.Some?
    ensures CanSend(st, parse, balance) ==>
              PreviewVisible(HandleSend(st, parse, balance, true).0, parse, balance, clock)
  {
    HandlerMatchesButton(st.form.amount, parse, balance);
  }

  /** The button `disabled={!canSend || isLoading}`. */
  predicate SendDisabled(st: SendState, parse: Parser, balance: real, isLoading: bool)
  {
    !CanSend(st, parse, balance) || isLoading
  }

  /** The preview card: `preview && showPreview`. */
  predicate PreviewVisible(st: SendState, parse: Parser, balance: real, clock: string)
  {
    CurrentPreview(st, parse, balance, clock).Some? && st.showPreview
  }

  /** "Edit Details" hides the preview and changes nothing else. */
  function EditDetails(st: SendState): (r: SendState)
    ensures !r.showPreview
    ensures r.(showPreview := st.showPreview) == st
  {
    st.(showPreview := false)
  }

  // ---------------------------------------------------------------------
  // Recipient search and selection

  /** The search test: name and email case-insensitively, phone as typed. */
  predicate RecipientMatches(query: string, u: Recipient)
  {
    || Includes(Lower(u.name), Lower(query))
    || Includes(Lower(u.email), Lower(query))
    || Includes(u.phone, query)
  }

  /** The directory entries the delayed search reports, in directory order. */
  function SearchRecipients(directory: seq<Recipient>, query: string): (r: seq<Recipient>)
    ensures IsSubsequence(r, directory)
    ensures forall u :: u in r <==> u in directory && RecipientMatches(query, u)
  {
    Filter(u => RecipientMatches(query, u), directory)
  }

  /** A user is found when the lowered query occurs in the lowered name or
      email, or the query occurs, case and all, in the phone number. */
  lemma SearchRecipientsExactly(directory: seq<Recipient>, query: string, u: Recipient)
    ensures u in SearchRecipients(directory, query) <==>
              && u in directory
              && (|| (exists i :: OccursAt(Lower(u.name), Lower(query), i))
                  || (exists i :: OccursAt(Lower(u.email), Lower(query), i))
                  || (exists i :: OccursAt(u.phone, query, i)))
  {
    IncludesIffOccurs(Lower(u.name), Lower(query));
    IncludesIffOccurs(Lower(u.email), Lower(query));
    IncludesIffOccurs(u.phone, query);
  }

  /** The synchronous part of `handleRecipientSearch` as written: the field
      takes the query; a query longer than two characters starts a search,
      anything shorter clears the results and the selection. */
  function EditRecipient(st: SendState, query: string): (r: SendState)
    ensures r.form == st.form.(recipient := query)
    ensures |query| <= 2 ==> r.results == [] && r.selected == None && r.isSearching == st.isSearching
    ensures |query| > 2 ==> r.isSearching && r.selected == st.selected && r.results == st.results
    ensures r.showPreview == st.showPreview
  {
    var st' := st.(form := st.form.(recipient := query));
    if |query| > 2 then st'.(isSearching := true)
    else st'.(results := [], selected := None)
  }

  /** The timer callback of a search for `query`. */
  function CompleteSearch(st: SendState, directory: seq<Recipient>, query: string): (r: SendState)
    ensures !r.isSearching
    ensures forall u :: u in r.results <==> u in directory && RecipientMatches(query, u)
    ensures r.results == SearchRecipients(directory, query)
    ensures r.(results := st.results, isSearching := st.isSearching) == st
  {
    st.(results := SearchRecipients(directory, query), isSearching := false)
  }

  /** `handleRecipientSelect`. */
  function SelectRecipient(st: SendState, u: Recipient): (r: SendState)
    ensures r.selected == Some(u) && r.form.recipient == u.email && r.results == []
    ensures r.form.amount == st.form.amount && r.form.description == st.form.description
    ensures r.isSearching == st.isSearching && r.showPreview == st.showPreview
  {
    st.(selected := Some(u), form := st.form.(recipient := u.email), results := [])
  }

  /** `clearRecipient`. */
  function ClearRecipient(st: SendState): (r: SendState)
    ensures r.selected == None && r.form.recipient == "" && r.results == []
    ensures r.form.amount == st.form.amount && r.form.description == st.form.description
    ensures r.isSearching == st.isSearching && r.showPreview == st.showPreview
  {
    st.(selected := None, form := st.form.(recipient := ""), results := [])
  }

  /** Amount and message edits go straight to the form. */
  function EditAmount(st: SendState, v: string): (r: SendState)
    ensures r.form.amount == v && r.(form := st.form) == st && r.form.(amount := st.form.amount) == st.form
  {
    st.(form := st.form.(amount := v))
  }

  function EditDescription(st: SendState, v: string): (r: SendState)
    ensures r.form.description == v && r.(form := st.form) == st && r.form.(description := st.form.description) == st.form
  {
    st.(form := st.form.(description := v))
  }

  /** The chosen recipient is the one whose address the field shows. */
  predicate SelectionMatchesField(st: SendState)
  {
    st.selected.Some? ==> st.form.recipient == st.selected.value.email
  }

  /** As written, a single change of the field after choosing a recipient
      (pasting "bob.smith" over it, or deleting the last character of the
      chosen address) keeps the old choice: the field says one address while
      the request carries another user's id. Typing key by key from an empty
      field passes through two characters, which clears the choice. */
  lemma EditKeepsStaleSelection()
    ensures var alice := MockRecipients[0];
            var parse: Parser := s => if s == "10" then Some(10.0) else None;
            var st := EditRecipient(EditAmount(SelectRecipient(InitialSend, alice), "10"), "bob.smith");
            && SelectionMatchesField(SelectRecipient(InitialSend, alice))
            && !SelectionMatchesField(st)
            && CanSend(st, parse, DefaultBalance)
            && HandleSend(st, parse, DefaultBalance, true).1 ==
                 Some(SendRequest("bob.smith", "10", "", "1"))
    ensures var alice := MockRecipients[0];
            var chosen := SelectRecipient(InitialSend, alice);
            var st := EditRecipient(chosen, alice.email[..|alice.email| - 1]);
            && st.selected == Some(alice)
            && !SelectionMatchesField(st)
  {
  }

  /** A recipient edit that drops a choice the new text no longer names. */
  function EditRecipientCorrected(st: SendState, query: string): (r: SendState)
    ensures r.form == st.form.(recipient := query)
    ensures |query| <= 2 ==> r.results == [] && r.selected == None
    ensures st.selected.Some? && query != st.selected.value.email ==> r.selected == None
  {
    var r := EditRecipient(st, query);
    if r.selected.Some? && query != r.selected.value.email then r.(selected := None) else r
  }

  /** Every step of the corrected page keeps the chosen recipient in step
      with the field. */
  lemma CorrectedStepsKeepSelection(st: SendState, query: string, u: Recipient, directory: seq<Recipient>, v: string)
    requires SelectionMatchesField(st)
    ensures SelectionMatchesField(EditRecipientCorrected(st, query))
    ensures SelectionMatchesField(CompleteSearch(st, directory, query))
    ensures SelectionMatchesField(SelectRecipient(st, u))
    ensures SelectionMatchesField(ClearRecipient(st))
    ensures SelectionMatchesField(EditAmount(st, v))
    ensures SelectionMatchesField(EditDescription(st, v))
  {
  }
}
