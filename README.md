# Transactions list and transfer workflow of a banking client, in Dafny

This project models two pieces of logic from a React banking client. Each
is stated in Dafny and proved.

**The transactions page.** It holds a fixed list of twelve records. The
page has three parts:
- A search box. It keeps the records whose lower-cased description or
  reference contains the lower-cased query.
- A table that shows ten records per page, as a `slice` of the filtered
  list. Under it, a Previous/Next control with a "Showing a to b of n
  entries" caption.
- Three cards: total income, total expenses and balance, computed over
  every record.

The component state is the search text and the current page
(`Transactions.TransactionsList`). A new search text always goes back to
page 1. A page change stores the requested page as it is.

**The transfer page.** It is a step machine: details, then OTP, then
success, with a back edge from OTP to details (`TransferFlow.TransferPage`).
- The details step validates the form with a schema
  (`TransferSchema`).
- It looks the recipient's name up with a timer that starts whenever the
  account number and bank become resolvable. Re-running the effect or
  unmounting the form clears that timer (`TransferDetails.RecipientLookup`).
  The timer's identity is a generation number: a cleared or superseded
  timer that fires writes nothing, so the last input wins.
- The OTP step keeps a digit-only code of at most six characters. It
  counts down from 300 seconds, shows the countdown as `m:ss`, and goes
  through a processing state before it reports completion
  (`TransferOtp.OtpChallenge`).
- The success dialog shows the amount, the name, the bank and the
  account number that were captured. Done navigates to `/transactions`.

Timers, the countdown interval and the random name pick become explicit
events. The name pick is a nondeterministic choice from the name list. The
bank and name lists are constructor parameters: any non-empty sequences.

The model follows the code as written, including where it may be surprising:
- `handlePageChange` does not clamp the page. Page 0 and every page past
  the last show an empty window (`Transactions.WindowOutOfRangeIsEmpty`).
  A negative page, which the buttons never request because Previous is
  disabled on page 1, would show records counted from the end, as `slice`
  treats negative indices.
- When the account number or bank stops being resolvable, the effect
  clears the name but leaves `isLoadingName` as it was. A lookup
  abandoned half-way therefore leaves the loading state on, with no name
  and no timer pending (`TransferDetails.AbandonedLookup`).
- Starting a new lookup keeps the previously resolved name. Only the
  loading flag is set.
- Back from the OTP step re-mounts the details form, so the lookup effect
  runs again on the kept values (`TransferFlow.TransferPage.Cancel`). The
  form values and the name are preserved, and a new lookup starts.

Modules, one per source file, plus two shared ones:

| file | module | source |
|---|---|---|
| `wrappers.dfy` | `Wrappers` | `Option` and JavaScript truthiness of a `string \| null` |
| `decimal_text.dfy` | `DecimalText` | `\d` digits, `toString` of a whole number, value of a digit string |
| `transaction_table.dfy` | `TransactionTable` | the `Transaction` record |
| `transactions_list.dfy` | `Transactions` | `TransactionsList.tsx` |
| `transaction_pagination.dfy` | `Pagination` | `TransactionPagination.tsx` |
| `transfer_schema.dfy` | `TransferSchema` | `schema.ts` |
| `transfer_details_form.dfy` | `TransferDetails` | `TransferDetailsForm.tsx` |
| `transfer_otp.dfy` | `TransferOtp` | `TransferOTP.tsx` |
| `transfer_page.dfy` | `TransferFlow` | `app/transfer/page.tsx` |

## Model

| member | source | states |
|---|---|---|
| DecimalText.NatToString | components/transfer/TransferOTP.tsx:32 | `toString` of a whole number is a non-empty digit string, one digit long exactly below 10, starting with `0` only for 0 itself |
| DecimalText.DigitsValueOfNatToString | components/transfer/TransferOTP.tsx:32 | reading the decimal spelling of `n` back as digits gives `n` |
| DecimalText.TwoDigitSpelling | components/transfer/TransferOTP.tsx:31-32 | a remainder below 100 is spelled with at most two digits |
| DecimalText.LeadingZero | components/transfer/TransferOTP.tsx:32 | the `"0"` that `padStart` adds keeps a digit string's value |
| Pagination.Render | components/transactions/TransactionPagination.tsx:24-44 | Previous is disabled iff `currentPage <= 1`; Next is disabled iff `currentPage >= totalPages`; with the page in range every enabled button targets a page in `1..totalPages`; one page disables both; a window starting inside the list gives a caption `1 <= first <= last <= total == totalItems` |
| Transactions.ToLower | components/transactions/TransactionsList.tsx:143-144 | lower-casing keeps the length, leaves no upper-case ASCII letter, keeps every character that is not one, and turns each character into one equal to it up to case |
| Transactions.LowerCharEqualIff | components/transactions/TransactionsList.tsx:143-144 | two characters lower-case alike iff they are equal up to ASCII case |
| Transactions.ToLowerEqualIff | components/transactions/TransactionsList.tsx:143-144 | two strings lower-case alike iff they have the same length and are equal up to ASCII case at every index |
| Transactions.IncludesIff | components/transactions/TransactionsList.tsx:143-144 | `includes` holds iff the needle occurs at some index of the haystack |
| Transactions.IncludesEmpty | components/transactions/TransactionsList.tsx:143-144 | every string includes the empty query |
| Transactions.Filter | components/transactions/TransactionsList.tsx:140-147 | the filtered list is no longer than the records, and holds only matching records |
| Transactions.FilterKeepsExactlyMatches | components/transactions/TransactionsList.tsx:140-147 | a record is kept iff it is among the records and its lower-cased description or reference contains the lower-cased query |
| Transactions.FilterIsSubsequence | components/transactions/TransactionsList.tsx:141-146 | the filtered list is an order-preserving subsequence of the records |
| Transactions.FilterEmptyQuery | components/transactions/TransactionsList.tsx:141-146 | an empty query keeps every record, in order |
| Transactions.TotalPages | components/transactions/TransactionsList.tsx:150-151 | `totalPages` is the ceiling of `totalItems / 10`: `p * 10 >= n`, `(p - 1) * 10 < n` when `n > 0`, and `p == 0` iff `n == 0` |
| Transactions.SliceBound | components/transactions/TransactionsList.tsx:154 | a `slice` index lands in `0..len` and is `min(k, len)` when non-negative |
| Transactions.Slice | components/transactions/TransactionsList.tsx:154 | for `0 <= start <= end` the slice is the subsequence between the clipped bounds |
| Transactions.PageWindow | components/transactions/TransactionsList.tsx:152-154 | the window of page `p >= 1` is `filtered[(p-1)*10 .. (p-1)*10+10]` clipped to the list, and has at most 10 records |
| Transactions.PagesUpToIsPrefix | components/transactions/TransactionsList.tsx:152-154 | the windows of pages `1..k` concatenate to the first `min(10k, n)` records |
| Transactions.WindowsPartition | components/transactions/TransactionsList.tsx:150-154 | the windows of pages `1..totalPages` concatenate back to exactly the filtered list |
| Transactions.WindowOutOfRangeIsEmpty | components/transactions/TransactionsList.tsx:171-173 | page 0 and every page past the last, which `handlePageChange` can store, show no records |
| Transactions.CaptionMatchesWindow | components/transactions/TransactionPagination.tsx:24-25 | for a page in range, the caption runs from `first` to `last` within `1..n`, counts exactly the records in the window, and names the window `filtered[first-1..last]` |
| Transactions.OfKind | components/transactions/TransactionsList.tsx:158-163 | the `type` filter keeps only records of the given kind |
| Transactions.SumAmountsAppend | components/transactions/TransactionsList.tsx:160 | the `reduce` sum of a concatenation is the sum of the parts |
| Transactions.SumOfKind | components/transactions/TransactionsList.tsx:158-163 | filter-then-reduce equals the front-to-back total of the amounts of that kind |
| Transactions.NetFlowIsDifference | components/transactions/TransactionsList.tsx:164-168 | the credits-in, debits-out net flow is the credit total minus the debit total |
| Transactions.BalanceIsNetFlow | components/transactions/TransactionsList.tsx:157-169 | income is the credit total and expenses the debit total of all records; balance is their difference, the net flow |
| Transactions.TotalsNonNegative | components/transactions/TransactionsList.tsx:157-169 | with non-negative amounts every total is non-negative |
| Transactions.TwelveRecordsEmptyQuery | components/transactions/TransactionsList.tsx:150-154 | twelve records and an empty query give two pages, the second holding the last two records |
| Transactions.MockPages | components/transactions/TransactionsList.tsx:16-125 | with the mock records and an empty query there are 2 pages, and page 2 shows exactly records 11 and 12 |
| Transactions.MockStats | components/transactions/TransactionsList.tsx:157-169 | the mock records give income 7,600,000, expenses 1,125,000 and balance 6,475,000 |
| Transactions.TransactionsList.constructor | components/transactions/TransactionsList.tsx:135-136 | starts with the mock records, an empty query and page 1 |
| Transactions.TransactionsList.FilteredTransactions | components/transactions/TransactionsList.tsx:140-147 | the memoised list holds exactly the matching records |
| Transactions.TransactionsList.CurrentTransactions | components/transactions/TransactionsList.tsx:154 | the table shows at most 10 rows, all matching records |
| Transactions.TransactionsList.CurrentStats | components/transactions/TransactionsList.tsx:157-169 | the balance card is the net flow of all records, whatever the query and page |
| Transactions.TransactionsList.HandlePageChange | components/transactions/TransactionsList.tsx:171-173 | stores the requested page as is, with no clamping; the query is unchanged |
| Transactions.TransactionsList.HandleSearchChange | components/transactions/TransactionsList.tsx:175-178 | sets the query to the new text and the page to 1, which is in range |
| Transactions.TransactionsList.ClickPrevious | components/transactions/TransactionPagination.tsx:31-32 | requests `currentPage - 1` unless on page 1; the page stays in range |
| Transactions.TransactionsList.ClickNext | components/transactions/TransactionPagination.tsx:43-44 | requests `currentPage + 1` unless on the last page; the page stays in range |
| TransferSchema.MatchesDigitsIff | components/transfer/schema.ts:8 | `/^\d+$/` matches exactly the non-empty strings of digits 0-9 |
| TransferSchema.AccountNumberValidIff | components/transfer/schema.ts:5-8 | an account number is accepted iff it is exactly 10 characters, all 0-9 |
| TransferSchema.FormValidIff | components/transfer/schema.ts:3-12 | the form is valid iff some bank is present (no list check), the account number is ten digits, and `Number(amount)` is a number above 0 |
| TransferSchema.UnsignedDecimalNonNegative | components/transfer/schema.ts:9 | an unsigned decimal literal converts to a non-negative number |
| TransferSchema.NegativeAmountRejected | components/transfer/schema.ts:9-11 | an amount starting with `-` is rejected, whatever follows |
| TransferSchema.DigitStringToNumber | components/transfer/schema.ts:9 | a non-empty digit string converts to the number it spells |
| TransferSchema.ToNumberOfNatToString | components/transfer/schema.ts:9-11 | the spelling of a whole number converts back to it, and is accepted iff it is not 0 |
| TransferSchema.RejectedAmountExamples | components/transfer/schema.ts:9-11 | `""`, `"0"` and `"abc"` are rejected |
| TransferSchema.AcceptedWholeAmount | components/transfer/schema.ts:9-11 | `"5000"` converts to 5000 and is accepted |
| TransferSchema.AcceptedDecimalAmount | components/transfer/schema.ts:9-11 | `"0.50"` is accepted |
| TransferSchema.AcceptedPaddedAmount | components/transfer/schema.ts:9-11 | white space around an amount is ignored: `" 12 "` is accepted |
| TransferDetails.ResolvableIff | components/transfer/TransferDetailsForm.tsx:50-54 | the lookup starts iff the account number passes the schema's account check and the bank is non-empty |
| TransferDetails.RecipientLookup.constructor | app/transfer/page.tsx:20-21 | no name, not loading, nothing pending |
| TransferDetails.RecipientLookup.RunEffect | components/transfer/TransferDetailsForm.tsx:49-65 | resolvable inputs set the loading flag, arm a new timer and keep any earlier name; other inputs clear the name at once and leave the loading flag as it was |
| TransferDetails.RecipientLookup.Mount | components/transfer/TransferDetailsForm.tsx:49-66 | mounting the form runs the effect on the current values |
| TransferDetails.RecipientLookup.Render | components/transfer/TransferDetailsForm.tsx:62-66 | the effect re-runs only when the account number or bank changed, after clearing the pending timer; otherwise nothing changes |
| TransferDetails.RecipientLookup.Unmount | components/transfer/TransferDetailsForm.tsx:62 | unmounting clears the pending timer and keeps the name and loading flag |
| TransferDetails.RecipientLookup.TimerFires | components/transfer/TransferDetailsForm.tsx:56-61 | the armed timer of the current generation writes a name from the list and ends loading; any other firing (cleared or superseded) leaves the whole lookup state unchanged, including a still-pending timer |
| TransferDetails.RecipientLookup.NextEnabledMeansCurrentName | components/transfer/TransferDetailsForm.tsx:176 | when Next is enabled the shown name was looked up for exactly the account number and bank now in the form |
| TransferDetails.SupersededLookup | components/transfer/TransferDetailsForm.tsx:62-66 | a superseded timer firing late writes nothing; the current one writes a name for the last account number |
| TransferDetails.AbandonedLookup | components/transfer/TransferDetailsForm.tsx:63-65 | deleting a digit during a lookup clears the name and the timer but leaves loading on |
| TransferOtp.KeepDigits | components/transfer/TransferOTP.tsx:75 | `replace(/\D/g, "")` gives a digit string no longer than its input |
| TransferOtp.KeepDigitsOfChar | components/transfer/TransferOTP.tsx:75 | one character is kept iff it is a digit |
| TransferOtp.KeepDigitsAppend | components/transfer/TransferOTP.tsx:75 | the digits of a concatenation are the digits of each part, in order, so every typed digit is kept and nothing else |
| TransferOtp.Sanitize | components/transfer/TransferOTP.tsx:74-76 | the stored code is digits only, at most 6 long, and is the first `min(6, d)` of the `d` digits typed |
| TransferOtp.KeepDigitsOfDigits | components/transfer/TransferOTP.tsx:75 | removing non-digits from a digit string changes nothing |
| TransferOtp.SanitizeIdempotent | components/transfer/TransferOTP.tsx:74-76 | sanitising a stored code changes nothing |
| TransferOtp.SanitizeFixesExactlyShortDigitStrings | components/transfer/TransferOTP.tsx:74-76 | sanitising leaves a string unchanged iff it is digits only and at most 6 long |
| TransferOtp.PaddedSeconds | components/transfer/TransferOTP.tsx:31-32 | the padded seconds are two digits spelling `s % 60` |
| TransferOtp.FormatTimeRoundTrip | components/transfer/TransferOTP.tsx:29-33 | the `m:ss` caption reads back as `minutes * 60 + secs == seconds` |
| TransferOtp.FormatTimeFiveMinutes | components/transfer/TransferOTP.tsx:17 | 300 seconds read `"5:00"` |
| TransferOtp.Countdown | components/transfer/TransferOTP.tsx:17-27 | the clock after any number of ticks is between 0 and 300 |
| TransferOtp.OtpChallenge.constructor | components/transfer/TransferOTP.tsx:15-17 | empty code, not processing, 300 seconds left |
| TransferOtp.OtpChallenge.Input | components/transfer/TransferOTP.tsx:74-76 | the code becomes the sanitised input; nothing else changes |
| TransferOtp.OtpChallenge.Tick | components/transfer/TransferOTP.tsx:19-27 | the clock drops by exactly 1 while above 0, then stays at 0; the step is not left |
| TransferOtp.OtpChallenge.Send | components/transfer/TransferOTP.tsx:35-44 | processing starts iff Send is enabled (a 6-digit code, not processing, time left); a code of another length changes nothing |
| TransferOtp.OtpChallenge.ProcessingDone | components/transfer/TransferOTP.tsx:40-43 | processing ends, and completion is reported once per submission; with nothing pending nothing changes |
| TransferFlow.TransferPage.constructor | app/transfer/page.tsx:19-30 | details step, no bank, empty account number and amount, no name, not loading |
| TransferFlow.TransferPage.ChangeForm | components/transfer/TransferDetailsForm.tsx:45-47 | a form change on the details step re-runs the lookup effect only when the account number or bank changed |
| TransferFlow.TransferPage.SelectBank | components/transfer/TransferDetailsForm.tsx:80-103 | picking a bank from the list stores it and re-runs the lookup effect when it differs; the OTP step is kept |
| TransferFlow.TransferPage.EditAccountNumber | components/transfer/TransferDetailsForm.tsx:105-122 | editing the account number stores it and re-runs the lookup effect when it differs; the OTP step is kept |
| TransferFlow.TransferPage.EditAmount | components/transfer/TransferDetailsForm.tsx:150-171 | editing the amount stores it and neither re-triggers nor cancels the lookup; the OTP step is kept |
| TransferFlow.TransferPage.LookupTimerFires | components/transfer/TransferDetailsForm.tsx:56-61 | the current timer writes a name from the list and ends loading; a stale one leaves the lookup unchanged, keeping a pending timer armed |
| TransferFlow.TransferPage.SubmitDetails | app/transfer/page.tsx:32-35 | details moves to OTP iff Next is enabled (valid form, a name, not loading), with a fresh OTP step; a press that does not move (Next disabled, or another step) changes nothing, so a pending lookup stays pending |
| TransferFlow.TransferPage.OtpInput | components/transfer/TransferOTP.tsx:74-76 | on the OTP step the code becomes the sanitised input; the step is kept |
| TransferFlow.TransferPage.OtpTick | components/transfer/TransferOTP.tsx:19-27 | on the OTP step the clock drops by 1 while above 0; the step is kept |
| TransferFlow.TransferPage.OtpSend | components/transfer/TransferOTP.tsx:83-86 | on the OTP step processing starts iff Send is enabled; the step is kept |
| TransferFlow.TransferPage.OtpProcessingDone | app/transfer/page.tsx:37-39 | a pending completion moves the OTP step to success; otherwise the page and the OTP step, with its code and clock, are unchanged |
| TransferFlow.TransferPage.Cancel | app/transfer/page.tsx:75 | Cancel, unless processing, goes back to details with the form and the recipient name kept and the lookup effect re-run; while processing (Cancel disabled) the page, the lookup and the OTP step are unchanged |
| TransferFlow.TransferPage.Close | app/transfer/page.tsx:41-43 | Done on success navigates to `/transactions`; the step does not change |
| TransferFlow.TransferPage.ShownReceipt | app/transfer/page.tsx:81-88 | on success the receipt shows a positive amount, a non-empty name, a bank and a valid account number |
| TransferFlow.FillDetails | app/transfer/page.tsx:60-71 | picking a bank, typing a valid account number and amount, and waiting for the lookup enables Next and reaches the OTP step |
| TransferFlow.HappyPath | app/transfer/page.tsx:17-91 | a whole transfer reaches success with a receipt showing `Number(amount)`, the bank and the account number typed, and a name from the list, then navigates to `/transactions` |

## Left out

- Transactions.LowerChar: `toLowerCase` is modelled on ASCII letters only; other characters are left as they are.
- TransferSchema.ToNumber: `Number()` is modelled on decimal notation only: an optional sign, digits with at most one `.`, and ASCII white space around. Hexadecimal, binary and octal literals, exponents, `Infinity`, `_` and Unicode white space read as NaN here. Numbers are exact reals, not IEEE doubles.
- Transaction amounts are unbounded integers. Every mock amount is a whole number, and no rounding is modelled.
- The record's `date` is kept as its ISO text. Dates are only displayed.
- Currency, date and locale formatting (`Intl.NumberFormat`, `toLocaleString`) are foreign library calls. They are left out.
- The success dialog's random `REF-` reference is left out.
- The page header's back button (`router.back()`), shown on every step, leaves the page through the browser history. It is left out.
- The inputs' `maxLength` (6 on the code field, 10 on the account number field) is enforced by the browser before the change handler runs. The model takes each event's argument as the field value after that cut: a pasted `"12 34 56"` reaches the code handler as `"12 34 "`, which `Sanitize` stores as `"1234"`.
- The 1500 ms lookup delay, the 5000 ms processing delay and the 1 s interval become event methods. There is no concurrency; any interleaving of events is a sequence of method calls.
- `BANKS` and `RANDOM_NAMES` come from a constants file that is not part of this model. They are constructor parameters: any non-empty sequences.
- The row rendering of the table, the layouts, the animations and the CSS are presentation. The network and auth code (the API clients, the login form) is not part of this model.
- The normalisation of log entries into records is not shown in any modelled file, because the list uses its mock records.
- The zod error messages are left out. Only whether each field is accepted is modelled.
