# Wallet client decision logic, in Dafny

This project models the decision logic inside the page components of a wallet web client, together with its role-based navigation. The client is a React/TypeScript single-page app for users, agents and admins. Each part is written as pure functions over immutable datatypes, with proofs about them:

- **Agent transaction history** (`Transactions`): the five-way filter over type, status, ISO date bounds and a case-insensitive search; the "Clear Filters" logic; pagination; the clamped Previous/Next buttons; the five-button page window; the sign of an amount.
- **FAQ page** (`Faq`): the per-category substring filter, the accordion's open set, and the page-wide "No results" note.
- **Services carousel** (`Carousel`): cards per view by window width, the largest start index, and the previous/next/dot transitions.
- **Money forms**. They share the amount field (`AmountField`):
  - send money with recipient search (`SendMoney`);
  - agent cash-out (`Cashout`);
  - user withdraw (`UserWithdraw`);
  - user deposit (`UserDeposit`).

  Fees are exact `real` arithmetic. `parseFloat` is a parameter `string -> Option<real>`, with `None` for `NaN`.
- **Admin tables**:
  - `AdminUserManage`: the user-to-wallet join, block/unblock choice, wallet counts and total balance.
  - `AdminAgentManage`: approve/suspend choice and status counts.
- **Role registry and routing**:
  - `Navigation`: the three sidebars, `getSidebarItems`, and the overview quick links.
  - `Routes`: the browser route table with its guarded dashboards, index redirects and public pages. Path resolution is modelled as first match.

Server calls appear as a `Result` outcome given to the handler. Toasts are values, and timers become separate steps.

Shared helpers:

- `Wrappers`: `Option` and `Result`.
- `Seqs`: an order-preserving `Filter` with its subsequence contract, counting lemmas, and flattening.
- `Text`: ASCII `toLowerCase`, `includes` as substring occurrence, JavaScript's string `<` as lexicographic order, and `slice(-8)`.

## Model

| member | source | states |
|---|---|---|
| Transactions.AllTransactions | src/page/agentTransactions.tsx:127-256 | the page works on the given list when it is non-empty, and on the twelve placeholder transactions otherwise |
| Transactions.FilterTransactions | src/page/agentTransactions.tsx:259-292 | the filtered list is an order-preserving subsequence of the input, holding exactly the input transactions the callback accepts |
| Seqs.Filter | src/page/agentTransactions.tsx:260 | `filter` yields an order-preserving subsequence of the input holding exactly the passing elements |
| Seqs.FilterMultiset | src/page/agentTransactions.tsx:260 | each element occurs in the filtered array as often as in the input if it passes, and not at all otherwise |
| Seqs.FilterCountsPositions | src/page/AdminUserManage.tsx:270 | the length of a filtered array is the number of positions whose element passes the test |
| Transactions.KeepsIffAllConditions | src/page/agentTransactions.tsx:262-290 | the early-return chain accepts a transaction iff all of these hold: type matches or is "all"; status matches or is "all"; dateFrom is empty or not after the date; dateTo is empty or not before it; the search is empty or the lowered term occurs in description, referenceId, recipient or sender |
| Transactions.FilteredExactly | src/page/agentTransactions.tsx:259-292 | membership in the filtered list is equivalent to those four conditions, with order preserved |
| Transactions.EmptySearchKeepsRest | src/page/agentTransactions.tsx:280-290 | with an empty search, exactly the transactions passing type, status and dates are kept |
| Transactions.InitialFiltersKeepAll | src/page/agentTransactions.tsx:308-316 | the initial (cleared) filters keep the whole list, in order |
| Transactions.SearchAllIsHidden | src/page/agentTransactions.tsx:318 | as written, a search term "all" filters the list, yet `hasActiveFilters` reports no active filter |
| Transactions.CorrectedInactiveKeepsAll | src/page/agentTransactions.tsx:318 | with "active" read as "differs from the cleared filters", a page that reports no active filter shows every transaction |
| Transactions.ChangeFilter | src/page/agentTransactions.tsx:300-306 | a filter change sets exactly the edited field, leaves the other four alone, and the reset effect returns to page 1 |
| Transactions.ClearFilters | src/page/agentTransactions.tsx:308-318 | after clearing, `hasActiveFilters` is false, the page is 1, and every list passes the filter unchanged |
| Transactions.TotalPages | src/page/agentTransactions.tsx:295 | `ceil(n / perPage)` is the least page count whose capacity covers n; it is zero iff n is zero |
| Transactions.Slice | src/page/agentTransactions.tsx:297 | `slice` clamps both bounds to the length: it yields `min(end, n) - min(start, n)` entries (none when the clamped start is past the clamped end), each the list entry at the same offset from `start` |
| Transactions.Page | src/page/agentTransactions.tsx:296-297 | entry i of page `current` is the list entry at `(current - 1) * perPage + i`; a page lying inside the list holds exactly perPage entries, the last partial page holds the remainder, and a page past the end is empty |
| Transactions.PagesFromIsStretch | src/page/agentTransactions.tsx:296-297 | consecutive pages laid end to end form one contiguous, clamped stretch of the list |
| Transactions.PagesReassemble | src/page/agentTransactions.tsx:295-297 | pages 1 to `totalPages`, concatenated, give back the filtered list |
| Transactions.PreviousPage | src/page/agentTransactions.tsx:612 | "Previous" never goes below 1 and steps back by one from any later page |
| Transactions.NextPage | src/page/agentTransactions.tsx:650 | "Next" never exceeds `totalPages` and steps forward by one from any earlier page |
| Transactions.NavigationStaysInRange | src/page/agentTransactions.tsx:612-651 | from a page in [1, totalPages], both buttons stay in range and move by at most one |
| Transactions.PageWindow | src/page/agentTransactions.tsx:621-631 | the window has `min(5, totalPages)` buttons |
| Transactions.PageWindowSound | src/page/agentTransactions.tsx:621-631 | for a current page in range, the window is consecutive page numbers inside [1, totalPages] and contains the current page |
| Transactions.AmountSign | src/page/agentTransactions.tsx:362-366 | the sign printed is "-" exactly for negative amounts, otherwise "+" |
| Transactions.SignAgreesWithColour | src/page/agentTransactions.tsx:561 | an amount is shown green exactly when its sign is "+" |
| Transactions.DefaultListPages | src/page/agentTransactions.tsx:127-297 | the placeholder list fills two pages at ten per page: ten entries, then two |
| Faq.FilterFaqs | src/page/FAQ.tsx:94-97 | the category filter is an order-preserving sublist of exactly the FAQs whose question or answer matches |
| Faq.FilterFaqsExactly | src/page/FAQ.tsx:94-97 | a FAQ is kept iff the lowered term occurs at some position of its lowered question or lowered answer |
| Faq.EmptySearchKeepsAll | src/page/FAQ.tsx:94-97 | an empty search term keeps every FAQ |
| Faq.ToggleFaq | src/page/FAQ.tsx:99-107 | a toggle flips the given id's membership and leaves every other id as it was |
| Faq.ToggleTwiceRestores | src/page/FAQ.tsx:99-107 | toggling the same id twice restores the open set |
| Faq.AllFaqsMembers | src/page/FAQ.tsx:295 | an FAQ is in `allFAQs` exactly when some category lists it |
| Faq.AllFaqsLength | src/page/FAQ.tsx:295 | `allFAQs` holds as many entries as the categories together, the sum of their sizes |
| Faq.NoResultsIffNothingRenders | src/page/FAQ.tsx:350-361 | the "No results" note shows iff the term is non-empty and every category's filtered list is empty, so that no category renders |
| Carousel.ItemsPerView | src/page/Home/Services.tsx:41-50 | one card below width 640, three from 1024 on, two in between |
| Carousel.MaxIndex | src/page/Home/Services.tsx:57 | `maxIndex` is `max(0, count - itemsPerView)`: never negative, never below `count - itemsPerView` |
| Carousel.Previous | src/page/Home/Services.tsx:59-61 | "Previous" never goes below 0 and moves back by exactly one from a positive index |
| Carousel.Next | src/page/Home/Services.tsx:63-65 | "Next" never exceeds `maxIndex`, moves forward by exactly one below it, and gives `maxIndex` from any index at or above it |
| Carousel.GoToSlide | src/page/Home/Services.tsx:67-69 | a dot goes to its index, clamped to `maxIndex` |
| Carousel.ClicksPreserveValid | src/page/Home/Services.tsx:57-69 | with the view size fixed, every click keeps `0 <= currentIndex <= maxIndex` |
| Carousel.Dots | src/page/Home/Services.tsx:126-137 | there are `maxIndex + 1` dots, and exactly the current one is highlighted |
| Carousel.EnabledButtonsMoveByOne | src/page/Home/Services.tsx:75-90 | "Previous" is disabled at index 0 and "Next" at `maxIndex`; an enabled button moves by one; the current dot exists and is highlighted |
| Carousel.ServicesMaxIndex | src/page/Home/Services.tsx:10-57 | for the six services `maxIndex` is 5, 4 or 3 by window width |
| Carousel.Resize | src/page/Home/Services.tsx:41-55 | the resize handler as written changes the cards per view and leaves the index alone |
| Carousel.ResizeBreaksValid | src/page/Home/Services.tsx:41-69 | widening from 500 to 1200 pixels after choosing the last narrow slide leaves index 5 above `maxIndex` 3: one of three slots is filled and "Next" is disabled |
| Carousel.ResizeClamped | src/page/Home/Services.tsx:41-69 | the corrected resize keeps an index that is still in range and sets an index above the new `maxIndex` to that `maxIndex`, as `goToSlide` does |
| Carousel.ClampedResizePreservesValid | src/page/Home/Services.tsx:41-69 | with the clamping resize the index stays valid and every card slot is filled |
| AmountField.HandlerMatchesButton | src/page/AgentCashout.tsx:58-69 | a handler's `amount && amount > 0 && amount <= balance` test passes iff the amount is valid and not over the balance, given that an empty field parses to `NaN` |
| AmountField.Truncate | src/page/UserWithdraw.tsx:43 | truncation toward zero: the result lies within one of the value, on its side of zero |
| AmountField.ParseInt | src/page/UserDeposit.tsx:42 | `parseInt` of the field is defined iff the parse is, and is then the truncated value |
| AmountField.ToRequest | src/page/UserWithdraw.tsx:42-45 | the posted request carries the description and `parseInt` of the field, a whole amount no larger than a non-negative typed amount |
| AmountField.FractionalAmountSubmitsZero | src/page/UserWithdraw.tsx:43-59 | a valid amount below one, such as "0.5", enables the button but posts amount 0 |
| AmountField.TruncatedValidAmount | src/page/UserWithdraw.tsx:43-59 | a valid amount of at least one posts a whole amount between 1 and the typed amount |
| SendMoney.Fee | src/page/UserSendMoney.tsx:120 | the send fee is at least $0.50 and at least 1%; it is exactly 1% from $50 up and $0.50 up to $50 |
| SendMoney.Total | src/page/UserSendMoney.tsx:121 | the total exceeds the amount by at least $0.50: 101% from $50, amount plus $0.50 below |
| Text.LastEight | src/page/UserSendMoney.tsx:123 | `slice(-8)` keeps the last eight characters, or all of a shorter string |
| SendMoney.GeneratePreview | src/page/UserSendMoney.tsx:118-126 | the preview is for the given amount and recipient; its total is amount plus fee, its status is pending, and its reference id is "SND-" followed by at most eight characters |
| SendMoney.CurrentPreview | src/page/UserSendMoney.tsx:149-152 | a preview exists iff `canSend`; it is then `generatePreview` of the parsed amount and the chosen recipient, for a positive amount within the balance |
| SendMoney.WholeBalanceSendOverdraws | src/page/UserSendMoney.tsx:141-152 | sending the whole balance passes the gate and shows a remaining balance of minus the fee |
| SendMoney.HandleSend | src/page/UserSendMoney.tsx:139-147 | a click with a positive amount within the balance and a chosen recipient shows the preview and posts the whole form (field text, amount, message) with that recipient's id; any other click changes nothing |
| SendMoney.SendButtonMatchesHandler | src/page/UserSendMoney.tsx:139-152 | the button is enabled (when not loading) exactly when a click posts, and the click then makes the preview visible |
| SendMoney.EditDetails | src/page/UserSendMoney.tsx:474 | "Edit Details" hides the preview and changes nothing else |
| SendMoney.SearchRecipients | src/page/UserSendMoney.tsx:91-95 | the search result is the order-preserving sublist of directory entries that match |
| SendMoney.SearchRecipientsExactly | src/page/UserSendMoney.tsx:91-95 | a user matches iff the lowered query occurs in the lowered name or email, or the query occurs verbatim in the phone number |
| SendMoney.EditRecipient | src/page/UserSendMoney.tsx:84-103 | typing sets the field; two characters or fewer clear results and choice; longer input starts a search and keeps the old choice |
| SendMoney.CompleteSearch | src/page/UserSendMoney.tsx:88-97 | the delayed search ends searching and shows the matching directory entries in directory order, changing nothing else |
| SendMoney.SelectRecipient | src/page/UserSendMoney.tsx:105-109 | choosing a user puts their email in the field and clears the results, keeping amount, message, the searching flag and the preview flag |
| SendMoney.ClearRecipient | src/page/UserSendMoney.tsx:111-115 | clearing empties the field, the choice and the results, keeping amount, message, the searching flag and the preview flag |
| SendMoney.EditAmount | src/page/UserSendMoney.tsx:128-137 | an amount edit changes only the amount |
| SendMoney.EditDescription | src/page/UserSendMoney.tsx:128-137 | a message edit changes only the message |
| SendMoney.EditKeepsStaleSelection | src/page/UserSendMoney.tsx:84-103 | as written, choosing Alice and then changing the field in one step, to "bob.smith" or to her address minus its last character, leaves Alice chosen; in the first case a send posts Alice's id |
| SendMoney.EditRecipientCorrected | src/page/UserSendMoney.tsx:84-103 | the corrected edit drops a choice whose email the field no longer shows |
| SendMoney.CorrectedStepsKeepSelection | src/page/UserSendMoney.tsx:84-137 | with the corrected edit, every step keeps the chosen recipient's email equal to the field |
| Cashout.Fee | src/page/AgentCashout.tsx:44 | the cash-out fee is at least $1.50 and at least 1.5%; it is exactly 1.5% from $100 up and $1.50 up to $100 |
| Cashout.Total | src/page/AgentCashout.tsx:45 | the total exceeds the amount by at least $1.50: 101.5% from $100, amount plus $1.50 below |
| Cashout.GeneratePreview | src/page/AgentCashout.tsx:42-49 | the preview's total is amount plus fee, its status is pending, and its reference id starts "WTH-" |
| Cashout.CurrentPreview | src/page/AgentCashout.tsx:68-70 | a preview exists iff the field is non-empty and parses to a positive number, whatever the balance; it is then `generatePreview` of the parsed amount |
| Cashout.HandleWithdraw | src/page/AgentCashout.tsx:58-66 | a click with a positive amount within the balance shows the preview and passes the form on if there is a receiver; any other click changes nothing |
| Cashout.ButtonMatchesHandler | src/page/AgentCashout.tsx:58-70 | the button (`!isValidAmount \|\| exceeds \|\| isLoading`, not loading) is enabled exactly when a click goes through, and the click then shows the preview card |
| Cashout.ShownCardWithinBalance | src/page/AgentCashout.tsx:212 | a shown preview card is for a positive amount within the balance |
| Cashout.WithdrawAll | src/page/AgentCashout.tsx:164 | "Withdraw All" puts the balance's text in the amount field and keeps the rest |
| Cashout.WithdrawAllEnables | src/page/AgentCashout.tsx:164-193 | after "Withdraw All" on a positive balance whose text parses back, the button is enabled and the preview's total is at least the balance plus $1.50 |
| Cashout.EditDetails | src/page/AgentCashout.tsx:298 | "Edit Details" hides the preview and keeps the form |
| UserWithdraw.ButtonEnabledMeaning | src/page/UserWithdraw.tsx:59-161 | the button is enabled iff the field parses to a positive number that is within the balance, or the balance is still undefined |
| UserWithdraw.HandleWithdraw | src/page/UserWithdraw.tsx:41-57 | the request posts `parseInt` of the amount; success clears the form with no toast; failure keeps the form and shows "something went wrong" |
| UserWithdraw.WithdrawAll | src/page/UserWithdraw.tsx:132 | "Withdraw All" fails (a `TypeError`) exactly while the balance is undefined, and otherwise puts the balance's text in the amount field |
| UserWithdraw.WithdrawAllEnables | src/page/UserWithdraw.tsx:132-161 | after "Withdraw All" on a loaded positive balance the button is enabled, and the request carries the balance's whole-dollar part |
| UserDeposit.ErrorAndButtonExclusive | src/page/UserDeposit.tsx:58-128 | the "greater than $0.00" message and an enabled button never appear together; both are absent exactly for an empty or unparsable field |
| UserDeposit.ReferenceText | src/page/UserDeposit.tsx:46 | the toast names the reference id, or "undefined" when the response lacks it |
| UserDeposit.HandleDeposit | src/page/UserDeposit.tsx:38-56 | as written, every answer, error or not, clears the form and shows a success toast; an error's toast reads "trans_id undefined" |
| UserDeposit.FailedDepositReportsSuccess | src/page/UserDeposit.tsx:45-50 | a rejected deposit shows "deposit success trans_id undefined" and discards the typed form |
| UserDeposit.HandleDepositCorrected | src/page/UserDeposit.tsx:38-56 | with the result unwrapped, success behaves as before and an error keeps the form and shows the error toast; a success toast appears iff the server succeeded |
| Wrappers.OrEmpty | src/page/AdminUserManage.tsx:50-51 | a missing users or wallets list reads as empty; a present list is kept |
| AdminUserManage.FindWallet | src/page/AdminUserManage.tsx:55 | `find` returns the first wallet with the user's id, or nothing exactly when no wallet has it |
| AdminUserManage.Join | src/page/AdminUserManage.tsx:54-60 | one row per user in user order; each row's wallet is the first matching wallet, belongs to the list and names the user; a row without a wallet means no wallet names the user |
| AdminUserManage.RowAction | src/page/AdminUserManage.tsx:181-240 | a row offers Block for an active wallet, Unblock for any other wallet status, and nothing without a wallet; the action targets the row's wallet |
| AdminUserManage.AfterMutation | src/page/AdminUserManage.tsx:62-80 | wallets and users are refetched after a successful block or unblock, and nothing is refetched after a failure |
| AdminUserManage.ActiveWallets | src/page/AdminUserManage.tsx:270 | the "Active Wallets" card is the number of wallets whose status is "active": at most the wallet count, and zero iff no wallet is active |
| AdminUserManage.BlockedWallets | src/page/AdminUserManage.tsx:282 | the "Blocked Wallets" card is the number of wallets whose status is "blocked": at most the wallet count, and zero iff no wallet is blocked |
| AdminUserManage.WalletCardsAddUp | src/page/AdminUserManage.tsx:270-282 | active plus blocked never exceeds the wallet count, and equals it when every status is active or blocked |
| AdminUserManage.TotalBalance | src/page/AdminUserManage.tsx:294 | the left-to-right `reduce` equals the sum of the balances, and is non-negative when no balance is negative |
| AdminUserManage.SumNonNegative | src/page/AdminUserManage.tsx:294 | with no negative balance, the total is at least each single balance |
| AdminAgentManage.AtMostOneAction | src/page/AdminAgentMange.tsx:132-162 | no row offers both buttons, and suspended or rejected agents get neither |
| AdminAgentManage.SummaryCards | src/page/AdminAgentMange.tsx:202-234 | "Total Agents" is the list length, and the "Approved", "Pending" and "Suspended" cards are the numbers of agents with that status, each at most the total |
| AdminAgentManage.StatusCardsBounded | src/page/AdminAgentMange.tsx:202-234 | approved plus pending plus suspended is at most the total |
| Navigation.RolesDistinct | src/utils/utils.ts:7-11 | the three role names are distinct and non-empty |
| Navigation.GetSidebarItems | src/utils/utils.ts:14-25 | each role gets its own sidebar; the result is empty iff the string is not one of the three roles |
| Navigation.SidebarUrls | src/router/AdminSidebar.ts:10-48 | the three sidebars' URLs, flattened in order |
| Navigation.SidebarGroups | src/router/UserSidebar.ts:13-57 | the group titles in order and their sizes: admin 1 and 4, user 1, 4 and 1, agent 1, 3 and 1 |
| Navigation.AdminSidebarWellFormed | src/router/AdminSidebar.ts:10-48 | every admin sidebar URL starts with "/admin/", and no URL repeats |
| Navigation.UserSidebarWellFormed | src/router/UserSidebar.ts:13-57 | every user sidebar URL starts with "/user/", and no URL repeats |
| Navigation.AgentSidebarWellFormed | src/router/AgentSidebar.ts:12-52 | every agent sidebar URL starts with "/agent/", and no URL repeats |
| Navigation.SidebarUnderRole | src/utils/utils.ts:14-25 | every URL of the sidebar a role gets starts with "/role/", and no URL repeats |
| Navigation.DisjointUnderBases | src/router/UserSidebar.ts:13-57 | URL lists lying under two different roles' bases share no URL |
| Navigation.SidebarsDisjoint | src/router/UserSidebar.ts:13-57 | two roles' sidebars share no URL |
| Navigation.SidebarShape | src/router/AdminSidebar.ts:12-46 | each sidebar opens with a single-link "Dashboard" group whose link is "/role/overview", and its last link mounts the profile page |
| Navigation.FindByUrl | src/router/router.tsx:54 | looking up a URL among sidebar items finds an item with that URL, or nothing exactly when none has it |
| Navigation.QuickLinksInSidebar | src/page/UserOverview.tsx:133-145 | the user overview's Deposit, Withdraw and Send Money links and the agent overview's CashOut and Add Money links are links of the same role's sidebar |
| Navigation.AgentHistoryLinkLeavesDashboard | src/page/AgentOverview.tsx:177 | the agent overview's "View All Transactions" URL is not an agent URL but the user's transaction history |
| Navigation.AgentHistoryLinkCorrectedStaysInDashboard | src/router/AgentSidebar.ts:36 | "/agent/history" is an agent link mounting the agent transaction history |
| Routes.MatchChildren | src/router/router.tsx:49-72 | an entry's match is that of the first child that matches (every earlier child matches nothing), and nothing matches iff no child does; a match, page or redirect, carries the entry's guard |
| Routes.MatchEntry | src/router/router.tsx:21-86 | a childless entry matches exactly its own path; any match, page or redirect, carries the entry's guard |
| Routes.Resolve | src/router/router.tsx:21-86 | a path resolves to the match of the first table entry that matches it, and to nothing iff no entry matches |
| Routes.RouterSidebars | src/router/router.tsx:49-72 | the application's router generates each dashboard from that role's sidebar, and all three sidebars are well formed |
| Routes.DashboardMatch | src/router/router.tsx:49-72 | for any sidebar whose URLs lie under the role's base without repeats, the dashboard matches its bare path with the overview redirect behind the role's guard, each sidebar URL with that item's component, and nothing else outside its base |
| Routes.NotOtherBarePath | src/router/router.tsx:49-72 | a path under one role's base is never another role's bare dashboard path |
| Routes.OnlyOwnDashboardMatches | src/router/router.tsx:21-86 | a path under a role's base matches no table entry except that role's dashboard |
| Routes.SidebarLinksResolveIn | src/router/router.tsx:49-72 | for any well-formed sidebars, every sidebar link resolves, in the dashboard layout and behind its own role's guard, to the component its item names |
| Routes.MainEntryMatch | src/router/router.tsx:22-48 | the main layout matches only its five public paths |
| Routes.SidebarLinksResolve | src/router/router.tsx:49-72 | every sidebar link resolves, in the dashboard layout and behind its own role's guard, to the component its item names |
| Routes.DashboardRedirectsIn | src/router/router.tsx:53-69 | for any well-formed sidebars, a role's bare path redirects to its own overview, behind the role's guard |
| Routes.DashboardRedirects | src/router/router.tsx:53-69 | "/admin", "/user" and "/agent" redirect to their own overview, inside the guarded dashboard layout |
| Routes.RedirectTargetRenders | src/router/router.tsx:53-69 | each redirect target renders that role's overview component behind the same guard |
| Routes.DashboardsIgnorePublicPaths | src/router/router.tsx:49-84 | with well-formed sidebars, no dashboard matches a public path |
| Routes.PublicPagesUnguarded | src/router/router.tsx:22-48 | whatever the sidebars, "/", "/about", "/feature", "/faq" and "/contact" render their pages in the main layout without a guard |
| Routes.TopLevelPagesUnguarded | src/router/router.tsx:73-84 | with well-formed sidebars, "/login", "/signup" and "/dashboard" render without a guard; "/dashboard" shows the dashboard layout to anyone |
| Routes.RouterPublicPages | src/router/router.tsx:21-48 | in the application's router, "/", "/about", "/feature", "/faq" and "/contact" render their pages in the main layout without a guard |
| Routes.RouterTopLevelPages | src/router/router.tsx:73-84 | in the application's router, "/login", "/signup" and "/dashboard" render without a guard; "/dashboard" shows the dashboard layout |
| Routes.AgentHistoryLinkGuard | src/page/AgentOverview.tsx:177 | the agent's "View All Transactions" link resolves to the user history behind the user guard; "/agent/history" resolves to the agent history behind the agent guard |

## Left out

- Server calls, RTK Query caching and store wiring: each call's outcome is a parameter of the handler (`Result`), and refetches are returned as values.
- The 500 ms search timer: finishing a search is a separate step, `SendMoney.CompleteSearch`, that may be applied for any query. That includes a query the field no longer shows, which is what a late timer does.
- `withAuth`, `generateRoutes` and `DashboardLayout` are not part of this model. A guarded entry records the role it is wrapped with, and a generated child matches exactly its sidebar's URLs. What the guard does with a mismatched role is not modelled.
- Resolution is first match over the table, not react-router's ranking. The two agree here because no two entries match the same path.
- Number and date formatting (`toLocaleString`, `formatDate`), status badges, icons, copy-to-clipboard, the FAQ and service copy, and loading spinners. These are presentation only.
- The admin tables' buttons being disabled while a mutation is in flight: this is a loading indicator, not a decision.
- Floating point: amounts, fees and sums are exact reals. IEEE rounding of, for example, `amount * 0.015` is not modelled.
- AmountField.ParseInt: truncates the value `parseFloat` reads, whereas `parseInt` stops at the first non-digit. So an exponent string such as "1e3" gives 1000 here and 1 in the page. A field without a leading digit, such as ".5", gives `Some(0)` here, but `parseInt` returns `NaN` and the page posts `NaN` (serialised as `null`). So `AmountField.FractionalAmountSubmitsZero` describes the page only for amounts written with a leading digit, such as "0.5".
- Text.Lower: lowers ASCII letters only; `toLowerCase` also lowers other scripts.
- Text.Less: compares characters as Dafny `char`s, which matches JavaScript's UTF-16 comparison for text without surrogate pairs.
- SendMoney.EditRecipient: tests `|query| > 2` on characters, whereas `query.length` counts UTF-16 code units. The two differ only for text with characters outside the Basic Multilingual Plane, such as emoji.
- Routes.MatchChild: compares paths exactly. react-router matches case-insensitively and accepts trailing slashes, so "/ADMIN", "/admin/" and "/about/" resolve in the app but give no match here. The "nothing outside its base" clauses of `Routes.DashboardMatch` and `Routes.OnlyOwnDashboardMatches`, and the uniqueness they feed, are about paths in the form the app's own links use: lower case as written, with no trailing slash.
- Transactions.TotalPages: requires a positive page size. The page fixes ten per page; a zero size would make `Math.ceil` produce `NaN` pages.
- `parseFloat` itself is an abstract parameter. The lemmas that need it assume only that the empty string reads as `NaN`.
- The stale `src/router/router.ts`, the admin overview charts (random data), the tour guide, the profile page, and the admin transaction history (filtered on the server). None of these holds client-side decision logic.

## Findings

| source | as written | input that shows it | evidently intended | confidence | as-written member | corrected member |
|---|---|---|---|---|---|---|
| src/page/AgentOverview.tsx:177 | "View All Transactions" on the agent overview links to "/user/transaction" | an agent on "/agent/overview" clicks the link: the path resolves inside the user dashboard, behind the user guard | "/agent/history", the agent's own history page | high, not executed | Routes.AgentHistoryLinkGuard | Navigation.AgentHistoryLinkCorrectedStaysInDashboard |
| src/page/Home/Services.tsx:41-55 | the resize handler changes `itemsPerView` without re-clamping `currentIndex` | width 500, click the sixth dot (index 5), widen to 1200: index 5 with `maxIndex` 3, only one of three slots filled, "Next" disabled | clamp the index to the new `maxIndex`, as `goToSlide` does | medium, not executed | Carousel.ResizeBreaksValid | Carousel.ClampedResizePreservesValid |
| src/page/UserDeposit.tsx:45-50 | the mutation result is awaited without `unwrap`, so the `catch` branch never sees a server error | the server rejects a deposit of "25": the page shows "deposit success trans_id undefined" and clears the form | unwrap the result, as the withdraw page does: an error toast and the form kept | high, not executed | UserDeposit.FailedDepositReportsSuccess | UserDeposit.HandleDepositCorrected |
| src/page/UserSendMoney.tsx:84-103 | a change of the recipient field to more than two characters keeps the previously chosen recipient | choose Alice, paste "bob.smith" over the field in one change, amount "10": the field shows bob.smith but a send posts Alice's id "1". Deleting the last character of her address also keeps her chosen. Typing key by key from an empty field clears the choice at two characters | drop the choice once the field no longer shows the chosen email | medium, not executed | SendMoney.EditKeepsStaleSelection | SendMoney.CorrectedStepsKeepSelection |
| src/page/agentTransactions.tsx:318 | `hasActiveFilters` treats any field equal to "all" as inactive, including the search text | search "all" with the other filters cleared: transactions without "all" in them are hidden, but "Clear Filters" is not offered | a filter is active when it differs from its cleared value | medium, not executed | Transactions.SearchAllIsHidden | Transactions.CorrectedInactiveKeepsAll |
