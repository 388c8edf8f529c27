/** The agent's transaction history page: a conjunctive filter over type,
    status, an ISO-date range and a case-insensitive search, then page
    slicing, clamped previous/next navigation and a five-button page window. */
module Transactions {
  import opened Wrappers
  import opened Seqs
  import opened Text

  datatype TxType = Deposit | Withdraw | Send | Receive
  datatype TxStatus = Completed | Pending | Processing | Failed

  datatype Transaction = Transaction(
    id: string,
    txType: TxType,
    amount: real,
    fee: real,
    status: TxStatus,
    description: string,
    date: string,
    referenceId: string,
    recipient: Option<string>,
    sender: Option<string>)

  /** The type select: "all" or one type. */
  datatype TypeFilter = AllTypes | OfType(t: TxType)

  /** The status select: "all" or one status. */
  datatype StatusFilter = AllStatuses | OfStatus(s: TxStatus)

  datatype FilterState = FilterState(
    txType: TypeFilter,
    status: StatusFilter,
    dateFrom: string,
    dateTo: string,
    search: string)

  /** The filters the page starts with and `clearFilters` restores. */
  const InitialFilters := FilterState(AllTypes, AllStatuses, "", "", "")

  // ---------------------------------------------------------------------
  // Data source

  /** The page's placeholder list, used when no transactions are passed in. */
  const DefaultTransactions: seq<Transaction> := [
    Transaction("1", Deposit, 1500.00, 37.50, Completed, "Salary Deposit", "2024-08-20", "DEP-12345678", None, None),
    Transaction("2", Send, -250.00, 2.50, Completed, "Rent Split Payment", "2024-08-19", "SND-23456789", Some("Alice Johnson"), None),
    Transaction("3", Receive, 75.00, 0.00, Completed, "Dinner Payment", "2024-08-18", "RCV-34567890", None, Some("Bob Smith")),
    Transaction("4", Withdraw, -500.00, 7.50, Processing, "Emergency Fund", "2024-08-17", "WTH-45678901", None, None),
    Transaction("5", Deposit, 2000.00, 50.00, Completed, "Investment Return", "2024-08-16", "DEP-56789012", None, None),
    Transaction("6", Send, -125.50, 1.26, Failed, "Gift Payment", "2024-08-15", "SND-67890123", Some("Carol Davis"), None),
    Transaction("7", Receive, 300.00, 0.00, Completed, "Freelance Payment", "2024-08-14", "RCV-78901234", None, Some("David Wilson")),
    Transaction("8", Withdraw, -200.00, 3.00, Completed, "ATM Withdrawal", "2024-08-13", "WTH-89012345", None, None),
    Transaction("9", Deposit, 800.00, 20.00, Pending, "Tax Refund", "2024-08-12", "DEP-90123456", None, None),
    Transaction("10", Send, -45.75, 0.50, Completed, "Coffee Payment", "2024-08-11", "SND-01234567", Some("Emma Thompson"), None),
    Transaction("11", Receive, 150.00, 0.00, Completed, "Birthday Gift", "2024-08-10", "RCV-12345670", None, Some("Frank Miller")),
    Transaction("12", Withdraw, -750.00, 11.25, Completed, "Monthly Expenses", "2024-08-09", "WTH-23456701", None, None)
  ]

  /** The list the page works on: the given one, or the placeholders when it is empty. */
  function AllTransactions(given: seq<Transaction>): (r: seq<Transaction>)
    ensures |r| > 0
    ensures |given| > 0 ==> r == given
    ensures |given| == 0 ==> r == DefaultTransactions && |r| == 12
  {
    if |given| > 0 then given else DefaultTransactions
  }

  // ---------------------------------------------------------------------
  // Filtering

  /** The search test, applied to the already-lowered search term. */
  predicate SearchHit(t: Transaction, term: string)
  {
    || Includes(Lower(t.description), term)
    || Includes(Lower(t.referenceId), term)
    || (t.recipient.Some? && Includes(Lower(t.recipient.value), term))
    || (t.sender.Some? && Includes(Lower(t.sender.value), term))
  }

  /** The filter callback, as a chain of early rejections in the page's order. */
  predicate Keeps(f: FilterState, t: Transaction)
  {
    if f.txType.OfType? && t.txType != f.txType.t then false
    else if f.status.OfStatus? && t.status != f.status.s then false
    else if f.dateFrom != "" && Less(t.date, f.dateFrom) then false
    else if f.dateTo != "" && Less(f.dateTo, t.date) then false
    else if f.search != "" then SearchHit(t, Lower(f.search))
    else true
  }

  /** `filteredTransactions`. */
  function FilterTransactions(txs: seq<Transaction>, f: FilterState): (r: seq<Transaction>)
    ensures IsSubsequence(r, txs)
    ensures forall t :: t in r <==> t in txs && Keeps(f, t)
  {
    Filter(t => Keeps(f, t), txs)
  }

  // The five conditions, each stated on its own.

  predicate TypeOk(f: FilterState, t: Transaction)
  {
    f.txType == AllTypes || f.txType == OfType(t.txType)
  }

  predicate StatusOk(f: FilterState, t: Transaction)
  {
    f.status == AllStatuses || f.status == OfStatus(t.status)
  }

  /** An empty bound imposes nothing; otherwise dateFrom <= date <= dateTo
      in string order. */
  ghost predicate DateOk(f: FilterState, t: Transaction)
  {
    && (f.dateFrom == "" || f.dateFrom == t.date || Less(f.dateFrom, t.date))
    && (f.dateTo == "" || t.date == f.dateTo || Less(t.date, f.dateTo))
  }

  /** An empty search keeps everything; otherwise the lowered term must occur
      in the lowered description, reference id, recipient or sender. */
  ghost predicate SearchOk(f: FilterState, t: Transaction)
  {
    var term := Lower(f.search);
    || f.search == ""
    || (exists i :: OccursAt(Lower(t.description), term, i))
    || (exists i :: OccursAt(Lower(t.referenceId), term, i))
    || (t.recipient.Some? && exists i :: OccursAt(Lower(t.recipient.value), term, i))
    || (t.sender.Some? && exists i :: OccursAt(Lower(t.sender.value), term, i))
  }

  /** The early-return chain is the conjunction of the five conditions. */
  lemma KeepsIffAllConditions(f: FilterState, t: Transaction)
    ensures Keeps(f, t) <==> TypeOk(f, t) && StatusOk(f, t) && DateOk(f, t) && SearchOk(f, t)
  {
    NotLessIsAtLeast(t.date, f.dateFrom);
    NotLessIsAtLeast(f.dateTo, t.date);
    var term := Lower(f.search);
    IncludesIffOccurs(Lower(t.description), term);
    IncludesIffOccurs(Lower(t.referenceId), term);
    if t.recipient.Some? {
      IncludesIffOccurs(Lower(t.recipient.value), term);
    }
    if t.sender.Some? {
      IncludesIffOccurs(Lower(t.sender.value), term);
    }
  }

  /** The filtered list is an order-preserving sublist holding exactly the
      transactions that meet all five conditions. */
  lemma FilteredExactly(txs: seq<Transaction>, f: FilterState, t: Transaction)
    ensures IsSubsequence(FilterTransactions(txs, f), txs)
    ensures t in FilterTransactions(txs, f) <==>
              t in txs && TypeOk(f, t) && StatusOk(f, t) && DateOk(f, t) && SearchOk(f, t)
  {
    KeepsIffAllConditions(f, t);
  }

  /** With an empty search, everything that passes type, status and dates is kept. */
  lemma EmptySearchKeepsRest(txs: seq<Transaction>, f: FilterState, t: Transaction)
    requires f.search == ""
    ensures t in FilterTransactions(txs, f) <==>
              t in txs && TypeOk(f, t) && StatusOk(f, t) && DateOk(f, t)
  {
    KeepsIffAllConditions(f, t);
  }

  /** The initial (cleared) filters keep every transaction. */
  lemma InitialFiltersKeepAll(txs: seq<Transaction>)
    ensures FilterTransactions(txs, InitialFilters) == txs
  {
    FilterKeepsAll(t => Keeps(InitialFilters, t), txs);
  }

  // ---------------------------------------------------------------------
  // Filter state

  /** A value counts as an active filter unless it is "all" or empty. */
  predicate FieldActive(v: string)
  {
    v != "all" && v != ""
  }

  /** `hasActiveFilters`, which decides whether "Clear Filters" is shown:
      some value of the filter object is neither "all" nor empty. */
  predicate HasActiveFilters(f: FilterState)
  {
    || f.txType != AllTypes
    || f.status != AllStatuses
    || FieldActive(f.dateFrom)
    || FieldActive(f.dateTo)
    || FieldActive(f.search)
  }

  /** The search term "all" is in force, yet the page reports no active
      filter and hides "Clear Filters". */
  lemma SearchAllIsHidden()
    ensures var f := InitialFilters.(search := "all");
            var t := Transaction("1", Deposit, 1.0, 0.0, Completed, "x", "2024-08-20", "y", None, None);
            && !HasActiveFilters(f)
            && FilterTransactions([t], f) == []
  {
  }

  /** The evident intent of `hasActiveFilters`: some filter differs from its initial value. */
  predicate HasActiveFiltersCorrected(f: FilterState)
  {
    f != InitialFilters
  }

  /** With the corrected test, a page that reports no active filter shows
      every transaction. */
  lemma CorrectedInactiveKeepsAll(txs: seq<Transaction>, f: FilterState)
    requires !HasActiveFiltersCorrected(f)
    ensures FilterTransactions(txs, f) == txs
  {
    InitialFiltersKeepAll(txs);
  }

  /** One change made through `handleFilterChange`. */
  datatype FilterEdit =
    | EditSearch(search: string)
    | EditType(txType: TypeFilter)
    | EditStatus(status: StatusFilter)
    | EditDateFrom(dateFrom: string)
    | EditDateTo(dateTo: string)

  /** The page's state: filters and the current page number. */
  datatype HistoryState = HistoryState(filters: FilterState, currentPage: int)

  const InitialHistory := HistoryState(InitialFilters, 1)

  /** `handleFilterChange` followed by the reset effect that any new filter
      object triggers: the edited field takes the new value, the others keep
      theirs, and the page returns to 1. */
  function ChangeFilter(st: HistoryState, e: FilterEdit): (r: HistoryState)
    ensures r.currentPage == 1
    ensures e.EditSearch? ==> r.filters.search == e.search && r.filters.(search := st.filters.search) == st.filters
    ensures e.EditType? ==> r.filters.txType == e.txType && r.filters.(txType := st.filters.txType) == st.filters
    ensures e.EditStatus? ==> r.filters.status == e.status && r.filters.(status := st.filters.status) == st.filters
    ensures e.EditDateFrom? ==> r.filters.dateFrom == e.dateFrom && r.filters.(dateFrom := st.filters.dateFrom) == st.filters
    ensures e.EditDateTo? ==> r.filters.dateTo == e.dateTo && r.filters.(dateTo := st.filters.dateTo) == st.filters
  {
    var f := st.filters;
    var f' := match e
      case EditSearch(v) => f.(search := v)
      case EditType(v) => f.(txType := v)
      case EditStatus(v) => f.(status := v)
      case EditDateFrom(v) => f.(dateFrom := v)
      case EditDateTo(v) => f.(dateTo := v);
    HistoryState(f', 1)
  }

  /** `clearFilters` (with the same reset effect). */
  function ClearFilters(st: HistoryState): (r: HistoryState)
    ensures !HasActiveFilters(r.filters)
    ensures r.currentPage == 1
    ensures forall txs :: FilterTransactions(txs, r.filters) == txs
  {
    forall txs ensures FilterTransactions(txs, InitialFilters) == txs {
      InitialFiltersKeepAll(txs);
    }
    InitialHistory
  }

  // ---------------------------------------------------------------------
  // Pagination

  function Min(a: int, b: int): int { if a <= b then a else b }

  function Max(a: int, b: int): int { if a <= b then b else a }

  /** `Math.ceil(n / perPage)`: the fewest pages of `perPage` entries that hold `n`. */
  function TotalPages(n: nat, perPage: nat): (r: nat)
    requires perPage > 0
    ensures r * perPage >= n
    ensures r > 0 ==> (r - 1) * perPage < n
    ensures r == 0 <==> n == 0
  {
    (n + perPage - 1) / perPage
  }

  /** `xs.slice(start, end)` for non-negative bounds: both are clamped to the
      length, and a start past the end gives nothing. */
  function Slice<T>(xs: seq<T>, start: nat, end: nat): (r: seq<T>)
    ensures |r| <= |xs|
    ensures |r| <= Max(0, end - start)
    ensures forall i :: 0 <= i < |r| ==> start + i < |xs| && r[i] == xs[start + i]
    ensures |r| == Max(0, Min(end, |xs|) - Min(start, |xs|))
  {
    var s := Min(start, |xs|);
    var e := Min(end, |xs|);
    if s <= e then xs[s..e] else []
  }

  /** `paginatedTransactions` for page `current` (counted from 1). */
  function Page<T>(xs: seq<T>, perPage: nat, current: int): (r: seq<T>)
    requires perPage > 0 && current >= 1
    ensures |r| <= perPage
    ensures forall i :: 0 <= i < |r| ==> (current - 1) * perPage + i < |xs| && r[i] == xs[(current - 1) * perPage + i]
    ensures (current - 1) * perPage + perPage <= |xs| ==> |r| == perPage
    ensures |xs| <= (current - 1) * perPage ==> |r| == 0
    ensures (current - 1) * perPage < |xs| < (current - 1) * perPage + perPage ==> |r| == |xs| - (current - 1) * perPage
  {
    var start := (current - 1) * perPage;
    assert start >= 0;
    var r := Slice(xs, start, start + perPage);
    assert |r| == Max(0, Min(start + perPage, |xs|) - Min(start, |xs|));
    r
  }

  /** Pages `p`, `p + 1`, ... (`count` of them) laid end to end. */
  function PagesFrom<T>(xs: seq<T>, perPage: nat, p: int, count: nat): seq<T>
    requires perPage > 0 && p >= 1
    decreases count
  {
    if count == 0 then [] else Page(xs, perPage, p) + PagesFrom(xs, perPage, p + 1, count - 1)
  }

  /** One more page adds `perPage` to a page offset. */
  lemma MulStep(a: int, k: int)
    ensures (a + 1) * k == a * k + k
  {
  }

  /** Consecutive pages cover one contiguous stretch of the list, from the
      first page's offset `start` to `end = start + count * perPage`, both
      clamped to the length. */
  lemma {:induction false} PagesFromIsStretch<T>(xs: seq<T>, perPage: nat, p: int, count: nat, start: nat, end: nat)
    requires perPage > 0 && p >= 1 && start == (p - 1) * perPage && end == start + count * perPage
    ensures var s := Min(start, |xs|);
            PagesFrom(xs, perPage, p, count) == xs[s..Max(s, Min(end, |xs|))]
    decreases count
  {
    if count > 0 {
      var n := |xs|;
      var next := start + perPage;
      MulStep(p - 1, perPage);
      MulStep(count - 1, perPage);
      assert next == (p + 1 - 1) * perPage;
      assert end == next + (count - 1) * perPage;
      PagesFromIsStretch(xs, perPage, p + 1, count - 1, next, end);
      var s := Min(start, n);
      var m := Min(next, n);
      var e := Min(end, n);
      assert m <= e;
      assert Page(xs, perPage, p) == xs[s..m];
      assert xs[s..m] + xs[m..e] == xs[s..e];
    }
  }

  /** Pages 1 to `totalPages`, concatenated, give back the filtered list. */
  lemma PagesReassemble<T>(xs: seq<T>, perPage: nat)
    requires perPage > 0
    ensures PagesFrom(xs, perPage, 1, TotalPages(|xs|, perPage)) == xs
  {
    PagesFromIsStretch(xs, perPage, 1, TotalPages(|xs|, perPage), 0, TotalPages(|xs|, perPage) * perPage);
  }

  /** The pagination card appears only when there is more than one page. */
  predicate PaginationShown(totalPages: nat)
  {
    totalPages > 1
  }

  /** "Previous": `Math.max(1, prev - 1)`. */
  function PreviousPage(current: int): (r: int)
    ensures r >= 1
    ensures current > 1 ==> r == current - 1
    ensures current <= 1 ==> r == 1
  {
    Max(1, current - 1)
  }

  /** "Next": `Math.min(totalPages, prev + 1)`. */
  function NextPage(current: int, totalPages: nat): (r: int)
    ensures r <= totalPages
    ensures current < totalPages ==> r == current + 1
    ensures current >= totalPages ==> r == totalPages
  {
    Min(totalPages, current + 1)
  }

  /** Both buttons keep the page inside [1, totalPages], and each moves by at
      most one; a button that is not disabled moves by exactly one. */
  lemma NavigationStaysInRange(current: int, totalPages: nat)
    requires 1 <= current <= totalPages
    ensures 1 <= PreviousPage(current) <= totalPages
    ensures 1 <= NextPage(current, totalPages) <= totalPages
    ensures current - 1 <= PreviousPage(current) <= current
    ensures current <= NextPage(current, totalPages) <= current + 1
    ensures current != 1 ==> PreviousPage(current) == current - 1
    ensures current != totalPages ==> NextPage(current, totalPages) == current + 1
  {
  }

  /** The number written on window button `i`. */
  function WindowPage(current: int, totalPages: nat, i: nat): int
  {
    if totalPages <= 5 then i + 1
    else if current <= 3 then i + 1
    else if current >= totalPages - 2 then totalPages - 4 + i
    else current - 2 + i
  }

  /** The page-number buttons between "Previous" and "Next". */
  function PageWindow(current: int, totalPages: nat): (w: seq<int>)
    ensures |w| == Min(5, totalPages)
  {
    seq(Min(5, totalPages), i requires 0 <= i => WindowPage(current, totalPages, i))
  }

  /** For a current page in range, the window is min(5, totalPages)
      consecutive page numbers inside [1, totalPages] that include it. */
  lemma PageWindowSound(current: int, totalPages: nat)
    requires 1 <= current <= totalPages
    ensures var w := PageWindow(current, totalPages);
            && |w| == Min(5, totalPages)
            && (forall i :: 0 <= i < |w| ==> 1 <= w[i] <= totalPages)
            && (forall i :: 0 < i < |w| ==> w[i] == w[i - 1] + 1)
            && current in w
  {
    var w := PageWindow(current, totalPages);
    assert 0 <= current - w[0] < |w| && w[current - w[0]] == current;
  }

  // ---------------------------------------------------------------------
  // Amount display

  /** The sign `formatAmount` prints. */
  function AmountSign(amount: real): (c: char)
    ensures c == '-' || c == '+'
    ensures c == '-' <==> amount < 0.0
  {
    if amount < 0.0 then '-' else '+'
  }

  /** The amount cell is green exactly for non-negative amounts. */
  predicate AmountIsGreen(amount: real)
  {
    amount >= 0.0
  }

  /** A "+" amount is always a green one, and a "-" amount never is. */
  lemma SignAgreesWithColour(amount: real)
    ensures AmountSign(amount) == '+' <==> AmountIsGreen(amount)
  {
  }

  /** The placeholders fill two pages at the default ten per page: ten, then two. */
  lemma DefaultListPages()
    ensures TotalPages(|AllTransactions([])|, 10) == 2
    ensures |Page(AllTransactions([]), 10, 1)| == 10
    ensures |Page(AllTransactions([]), 10, 2)| == 2
  {
  }
}
